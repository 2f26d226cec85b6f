/** The front end's user store (frontend/src/store/user.js): the signed-in
    user, the copy kept in the browser's storage, and the role's routes
    added to and removed from the router. Requests to the back end are
    parameters: their replies, or `None` when the request throws. */
module UserStore {
  import opened Wrappers
  import opened Text

  const ADMIN := "admin"
  const TEACHER := "teacher"
  const STUDENT := "student"

  /** The roles the front end has pages for. */
  const KNOWN_ROLES: set<string> := {ADMIN, TEACHER, STUDENT}

  /** `ROLE_MAP`: the back end's spellings of the administrator roles all
      become `admin`. */
  const ROLE_MAP: map<string, string> := map[
    "admin" := ADMIN, "superadmin" := ADMIN, "super_admin" := ADMIN, "administrator" := ADMIN,
    "teacher" := TEACHER, "student" := STUDENT]

  /** The role as stored: lower-cased, then mapped, or kept when unmapped. */
  function NormalizeRole(role: string): string {
    var lower := Lower(role);
    if lower in ROLE_MAP then ROLE_MAP[lower] else lower
  }

  /** The string has no upper-case ASCII letter. */
  predicate NoUpper(s: string) {
    forall i :: 0 <= i < |s| ==> !('A' <= s[i] <= 'Z')
  }

  lemma LowerKeeps(s: string)
    requires NoUpper(s)
    ensures Lower(s) == s
  {
    assert forall i :: 0 <= i < |s| ==> Lower(s)[i] == s[i];
  }

  lemma LowerIdempotent(s: string)
    ensures NoUpper(Lower(s)) && Lower(Lower(s)) == Lower(s)
  {
    LowerKeeps(Lower(s));
  }

  /** Normalisation ignores case. */
  lemma NormalizeIgnoresCase(role: string)
    ensures NormalizeRole(role) == NormalizeRole(Lower(role))
  {
    LowerIdempotent(role);
  }

  /** The four administrator spellings, and only they, give `admin`;
      teachers and students keep their role; any other role is kept
      lower-cased. */
  lemma NormalizeRoleRules(role: string)
    ensures (Lower(role) in {"admin", "superadmin", "super_admin", "administrator"} <==>
      NormalizeRole(role) == ADMIN)
    ensures Lower(role) == TEACHER <==> NormalizeRole(role) == TEACHER
    ensures Lower(role) == STUDENT <==> NormalizeRole(role) == STUDENT
    ensures Lower(role) !in ROLE_MAP ==> NormalizeRole(role) == Lower(role)
  {
  }

  /** The three known roles are normalised already. */
  lemma KnownRolesFixed(n: string)
    requires n in KNOWN_ROLES
    ensures NormalizeRole(n) == n
  {
    assert NoUpper(n);
    LowerKeeps(n);
    assert n in ROLE_MAP && ROLE_MAP[n] == n;
  }

  /** Normalising a normalised role changes nothing. */
  lemma NormalizeIdempotent(role: string)
    ensures NormalizeRole(NormalizeRole(role)) == NormalizeRole(role)
  {
    var lower := Lower(role);
    LowerIdempotent(role);
    if lower in ROLE_MAP {
      assert ROLE_MAP[lower] in KNOWN_ROLES;
      KnownRolesFixed(ROLE_MAP[lower]);
    } else {
      assert NormalizeRole(role) == lower;
    }
  }

  /** The user the store keeps: its role and the reply's other fields. */
  datatype SessionUser = SessionUser(role: string, fields: map<string, string>)

  /** The reply of `fetchMe`; `role` is missing or a string. */
  datatype Me = Me(role: Option<string>, fields: map<string, string>)

  /** The stored copy: a user, or text that does not parse. */
  datatype Saved = Saved(user: SessionUser) | Corrupt

  /** The names of a route table. */
  function Names(table: seq<string>): set<string> {
    set r | r in table
  }

  /** The router's routes once the role's routes are injected: both
      dynamic route tables removed, then the role's added. */
  function Injected(routes: set<string>, role: string, adminRoutes: seq<string>, studentRoutes: seq<string>): set<string> {
    var cleared := routes - Names(adminRoutes) - Names(studentRoutes);
    if role == ADMIN then cleared + Names(adminRoutes)
    else if role == STUDENT then cleared + Names(studentRoutes)
    else cleared
  }

  /** After injection the router holds the role's own dynamic routes, no
      route of the other table that is not also its own, and every static
      route; injecting again changes nothing. */
  lemma InjectedRules(routes: set<string>, role: string, adminRoutes: seq<string>, studentRoutes: seq<string>)
    ensures var after := Injected(routes, role, adminRoutes, studentRoutes);
      (role == ADMIN ==> (forall r :: r in adminRoutes ==> r in after) &&
                         (forall r :: r in studentRoutes && r !in adminRoutes ==> r !in after)) &&
      (role == STUDENT ==> (forall r :: r in studentRoutes ==> r in after) &&
                           (forall r :: r in adminRoutes && r !in studentRoutes ==> r !in after)) &&
      (role != ADMIN && role != STUDENT ==> forall r :: r in adminRoutes || r in studentRoutes ==> r !in after) &&
      (forall r :: r in routes && r !in adminRoutes && r !in studentRoutes ==> r in after) &&
      Injected(after, role, adminRoutes, studentRoutes) == after
  {
  }

  class Store {
    /** The names of the administrator's and the student's route tables. */
    const adminRoutes: seq<string>
    const studentRoutes: seq<string>
    var user: Option<SessionUser>
    var routesInjected: bool
    /** The browser's stored `user` entry. */
    var storage: Option<Saved>
    /** The names of the routes the router holds. */
    var routes: set<string>

    constructor (adminRoutes: seq<string>, studentRoutes: seq<string>, user: Option<SessionUser>,
                 storage: Option<Saved>, routes: set<string>)
      ensures this.adminRoutes == adminRoutes && this.studentRoutes == studentRoutes
      ensures this.user == user && this.storage == storage && this.routes == routes && !routesInjected
    {
      this.adminRoutes := adminRoutes;
      this.studentRoutes := studentRoutes;
      this.user := user;
      this.storage := storage;
      this.routes := routes;
      routesInjected := false;
    }

    /** Removes the routes named in `table`. */
    method RemoveAll(table: seq<string>)
      modifies this
      ensures routes == old(routes) - Names(table)
      ensures user == old(user) && routesInjected == old(routesInjected) && storage == old(storage)
    {
      for i := 0 to |table|
        invariant routes == old(routes) - Names(table[..i])
        invariant user == old(user) && routesInjected == old(routesInjected) && storage == old(storage)
      {
        assert Names(table[..i + 1]) == Names(table[..i]) + {table[i]} by {
          assert table[..i + 1] == table[..i] + [table[i]];
        }
        if table[i] in routes {
          routes := routes - {table[i]};
        }
      }
      assert table[..|table|] == table;
    }

    /** Adds the routes named in `table`. */
    method AddAll(table: seq<string>)
      modifies this
      ensures routes == old(routes) + Names(table)
      ensures user == old(user) && routesInjected == old(routesInjected) && storage == old(storage)
    {
      for i := 0 to |table|
        invariant routes == old(routes) + Names(table[..i])
        invariant user == old(user) && routesInjected == old(routesInjected) && storage == old(storage)
      {
        assert Names(table[..i + 1]) == Names(table[..i]) + {table[i]} by {
          assert table[..i + 1] == table[..i] + [table[i]];
        }
        if table[i] !in routes {
          routes := routes + {table[i]};
        }
      }
      assert table[..|table|] == table;
    }

    /** `_fetchAndSetUser`: fails (throws) when the request fails or the
        reply has no role; otherwise keeps the user with its role
        normalised, in the store and in storage. */
    method FetchAndSetUser(reply: Option<Me>) returns (ok: bool)
      modifies this
      ensures ok <==> reply.Some? && reply.value.role.Some? && reply.value.role.value != ""
      ensures (ok ==>
        user == Some(SessionUser(NormalizeRole(reply.value.role.value), reply.value.fields)) &&
        storage == Some(Saved(user.value)))
      ensures !ok ==> user == old(user) && storage == old(storage)
      ensures routes == old(routes) && routesInjected == old(routesInjected)
    {
      if reply.None? || reply.value.role.None? || reply.value.role.value == "" {
        return false;
      }
      user := Some(SessionUser(NormalizeRole(reply.value.role.value), reply.value.fields));
      storage := Some(Saved(user.value));
      ok := true;
    }

    /** `_injectRoutes(force)`. */
    method InjectRoutes(force: bool)
      modifies this
      ensures (!force && old(routesInjected)) || old(user).None? || old(user).value.role == "" ==>
        routes == old(routes) && routesInjected == old(routesInjected)
      ensures (!(!force && old(routesInjected)) && old(user).Some? && old(user).value.role != "" ==>
        routes == Injected(old(routes), old(user).value.role, adminRoutes, studentRoutes) &&
        (routesInjected <==> old(user).value.role in KNOWN_ROLES))
      ensures user == old(user) && storage == old(storage)
    {
      if !force && routesInjected {
        return;
      }
      if user.None? || user.value.role == "" {
        return;
      }
      RemoveAll(adminRoutes);
      RemoveAll(studentRoutes);
      var role := user.value.role;
      if role == ADMIN {
        AddAll(adminRoutes);
      } else if role == STUDENT {
        AddAll(studentRoutes);
      }
      routesInjected := role == ADMIN || role == STUDENT || role == TEACHER;
    }

    /** `login`: the sign-in request (`signedIn` false when it throws),
        then the user fetch, then a forced injection. A failure leaves the
        store as it was. */
    method Login(signedIn: bool, reply: Option<Me>) returns (ok: bool)
      modifies this
      ensures ok <==> signedIn && reply.Some? && reply.value.role.Some? && reply.value.role.value != ""
      ensures !ok ==> user == old(user) && storage == old(storage) && routes == old(routes) && routesInjected == old(routesInjected)
      ensures (ok ==>
        user == Some(SessionUser(NormalizeRole(reply.value.role.value), reply.value.fields)) &&
        storage == Some(Saved(user.value)) &&
        routes == Injected(old(routes), user.value.role, adminRoutes, studentRoutes) &&
        (routesInjected <==> user.value.role in KNOWN_ROLES))
    {
      if !signedIn {
        return false;
      }
      ok := FetchAndSetUser(reply);
      if !ok {
        return;
      }
      NormalizedNotEmpty(reply.value.role.value);
      InjectRoutes(true);
    }

    /** `logout`: the request's failure is ignored; the role's dynamic
        routes go, then the user, the flag and the stored copy. */
    method Logout()
      modifies this
      ensures user.None? && !routesInjected && storage.None?
      ensures old(user).Some? && old(user).value.role == ADMIN ==> routes == old(routes) - Names(adminRoutes)
      ensures old(user).Some? && old(user).value.role == STUDENT ==> routes == old(routes) - Names(studentRoutes)
      ensures old(user).None? || old(user).value.role !in {ADMIN, STUDENT} ==> routes == old(routes)
    {
      if user.Some? {
        if user.value.role == ADMIN {
          RemoveAll(adminRoutes);
        } else if user.value.role == STUDENT {
          RemoveAll(studentRoutes);
        }
      }
      user := None;
      routesInjected := false;
      storage := None;
    }

    /** `restore`: the user from the store, else from storage, else from
        the back end; then a forced injection. A stored copy that does not
        parse, or a fetch without a role, fails and clears the user, the
        flag and storage. The answer says whether a user is present
        afterwards. */
    method Restore(reply: Option<Me>) returns (restored: bool)
      modifies this
      ensures restored <==> user.Some?
      ensures !restored ==> !routesInjected && storage.None?
      ensures old(user).Some? ==> restored && user == old(user)
      ensures old(user).None? && old(storage).Some? && old(storage).value.Saved? ==> user == Some(old(storage).value.user)
      ensures old(user).None? && old(storage) == Some(Corrupt) ==> !restored
      ensures old(user).None? && old(storage).None? ==>
        (restored <==> reply.Some? && reply.value.role.Some? && reply.value.role.value != "") &&
        (restored ==>
          user == Some(SessionUser(NormalizeRole(reply.value.role.value), reply.value.fields)) &&
          storage == Some(Saved(user.value)))
      ensures (restored && user.value.role != "" ==>
        (routesInjected <==> user.value.role in KNOWN_ROLES) &&
        routes == Injected(old(routes), user.value.role, adminRoutes, studentRoutes))
    {
      var failed := false;
      if user.None? && storage.Some? {
        match storage.value
        case Corrupt =>
          failed := true;
        case Saved(u) =>
          user := Some(u);
      }
      if !failed && user.None? {
        var ok := FetchAndSetUser(reply);
        failed := !ok;
        if ok {
          NormalizedNotEmpty(reply.value.role.value);
        }
      }
      if !failed && user.Some? {
        InjectRoutes(true);
        return true;
      }
      user := None;
      routesInjected := false;
      storage := None;
      restored := false;
    }
  }

  /** A role that is not empty stays not empty when normalised. */
  lemma NormalizedNotEmpty(role: string)
    requires role != ""
    ensures NormalizeRole(role) != ""
  {
    assert |Lower(role)| == |role|;
  }
}
