/** The front end's navigation guard (frontend/src/router/index.js,
    `beforeEach`): it first brings the user store up to date, then decides
    where a navigation goes. */
module RouteGuard {
  import opened Wrappers
  import opened Text
  import opened UserStore

  /** A navigation target: its path, full path with query, route name,
      whether it is public, the role it is for, and how many route records
      it matched. */
  datatype Target = Target(path: string, fullPath: string, name: Option<string>, isPublic: bool,
                           role: Option<string>, matched: nat)

  datatype Decision =
    | Proceed
    | Redirect(path: string)
    | ToLogin(route: string, redirect: string)
    /** The same target again, replacing the history entry. */
    | Renavigate(target: Target)

  const LOGIN_PAGES: set<string> := {"StudentLogin", "TeacherLogin", "AdminLogin"}

  /** A string a JavaScript test reads as true: present and not empty. */
  predicate Given(s: Option<string>) {
    s.Some? && s.value != ""
  }

  predicate IsLoginPage(to: Target) {
    to.name.Some? && to.name.value in LOGIN_PAGES
  }

  /** The home page of a role. */
  function HomePath(role: string): (path: string)
    ensures role == TEACHER ==> path == "/teacher/dashboard"
    ensures role == STUDENT ==> path == "/student"
    ensures role == ADMIN ==> path == "/admin"
    ensures role !in KNOWN_ROLES ==> path == "/" + role
  {
    if role == TEACHER then "/teacher/dashboard"
    else if role == STUDENT then "/student"
    else if role == ADMIN then "/admin"
    else "/" + role
  }

  /** The sign-in page for a protected target: the teacher's for teacher
      paths or teacher routes, else the administrator's for administrator
      paths or routes, else the student's. */
  function LoginFor(to: Target): string {
    if StartsWith(to.path, "/teacher") || to.role == Some(TEACHER) then "TeacherLogin"
    else if StartsWith(to.path, "/admin") || to.role == Some(ADMIN) then "AdminLogin"
    else "StudentLogin"
  }

  /** The guard's decision once the store holds `user` and `injected`. */
  function Decide(user: Option<SessionUser>, injected: bool, to: Target): Decision {
    if to.isPublic then
      if user.Some? && IsLoginPage(to) then Redirect(HomePath(user.value.role)) else Proceed
    else if user.None? then ToLogin(LoginFor(to), to.fullPath)
    else if Given(to.role) && to.role.value != user.value.role then Redirect(HomePath(user.value.role))
    else if to.matched == 0 && Given(to.name) && !IsLoginPage(to) && injected then Renavigate(to)
    else Proceed
  }

  /** Public pages are always reached, except that a signed-in user is sent
      from a sign-in page to the role's home. */
  lemma PublicRules(user: Option<SessionUser>, injected: bool, to: Target)
    requires to.isPublic
    ensures user.Some? && IsLoginPage(to) ==> Decide(user, injected, to) == Redirect(HomePath(user.value.role))
    ensures user.None? || !IsLoginPage(to) ==> Decide(user, injected, to) == Proceed
  {
  }

  /** A visitor who is not signed in never reaches a protected page: the
      visitor is sent to the sign-in page that fits the target, with the
      target's full path to come back to. */
  lemma AnonymousRules(injected: bool, to: Target)
    requires !to.isPublic
    ensures Decide(None, injected, to) == ToLogin(LoginFor(to), to.fullPath)
    ensures StartsWith(to.path, "/teacher") ==> LoginFor(to) == "TeacherLogin"
    ensures !StartsWith(to.path, "/teacher") && to.role != Some(TEACHER) && StartsWith(to.path, "/admin") ==>
      LoginFor(to) == "AdminLogin"
    ensures LoginFor(to) == "StudentLogin" <==>
      !StartsWith(to.path, "/teacher") && to.role != Some(TEACHER) && !StartsWith(to.path, "/admin") && to.role != Some(ADMIN)
  {
  }

  /** A signed-in user reaches a protected page only when the page is for
      the user's role or for no role; a page for another role sends the
      user home. */
  lemma RoleRules(user: SessionUser, injected: bool, to: Target)
    requires !to.isPublic
    ensures Given(to.role) && to.role.value != user.role ==> Decide(Some(user), injected, to) == Redirect(HomePath(user.role))
    ensures Decide(Some(user), injected, to).Proceed? ==> !Given(to.role) || to.role.value == user.role
    ensures (Decide(Some(user), injected, to).Renavigate? <==>
      (!Given(to.role) || to.role.value == user.role) && to.matched == 0 && Given(to.name) && !IsLoginPage(to) && injected)
  {
  }

  /** `beforeEach`: a user known only from storage is restored (with
      `reply` standing for the back end's answer, should it be asked); a
      user whose routes are not injected gets them; then the decision. */
  method BeforeEach(store: Store, to: Target, reply: Option<Me>) returns (d: Decision)
    modifies store
    ensures d == Decide(store.user, store.routesInjected, to)
    ensures old(store.user).None? && old(store.storage).None? ==> store.user.None? && d == Decide(None, store.routesInjected, to)
    ensures (old(store.user).Some? && old(store.routesInjected) ==>
      store.user == old(store.user) && store.routes == old(store.routes) && store.routesInjected)
    ensures old(store.user).Some? ==> store.user == old(store.user)
  {
    if store.user.None? && store.storage.Some? {
      var _ := store.Restore(reply);
    } else if store.user.Some? && !store.routesInjected {
      store.InjectRoutes(true);
    }
    d := Decide(store.user, store.routesInjected, to);
  }
}
