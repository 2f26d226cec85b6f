/** The account serializers of the education app
    (backend/education/serializers.py): creating a student, a teacher or
    a superadmin from the validated fields, and updating an account by
    copying the validated fields onto it. */
module EducationSerializers {
  import opened Wrappers
  import opened Accounts

  /** The password an account gets when the request gives none. */
  const DEFAULT_PASSWORD := "123456"

  /** A stored account. `attrs` holds its text fields by attribute name,
      the role included; `password` is the password its hash was made
      from. */
  class Account {
    var attrs: map<string, string>
    var password: string
    var isStaff: bool
    var isSuperuser: bool

    constructor (attrs: map<string, string>, password: string, isStaff: bool, isSuperuser: bool)
      ensures this.attrs == attrs && this.password == password
      ensures this.isStaff == isStaff && this.isSuperuser == isSuperuser
    {
      this.attrs := attrs;
      this.password := password;
      this.isStaff := isStaff;
      this.isSuperuser := isSuperuser;
    }

    /** The loop of `update`: each validated field is set on the account,
        in order, and the password re-hashed only when one is given. */
    method Update(validated: seq<(string, string)>, newPassword: Option<string>)
      modifies this
      ensures attrs == SetAll(old(attrs), validated)
      ensures password == (if Given(newPassword) then newPassword.value else old(password))
      ensures isStaff == old(isStaff) && isSuperuser == old(isSuperuser)
    {
      for i := 0 to |validated|
        invariant attrs == SetAll(old(attrs), validated[..i])
        invariant password == old(password) && isStaff == old(isStaff) && isSuperuser == old(isSuperuser)
      {
        assert validated[..i + 1][..i] == validated[..i];
        attrs := attrs[validated[i].0 := validated[i].1];
      }
      assert validated[..|validated|] == validated;
      if Given(newPassword) {
        password := newPassword.value;
      }
    }

    /** `SuperAdminSerializer.update`: a role other than "superadmin" is
        refused before anything changes. */
    method UpdateSuperAdmin(validated: seq<(string, string)>, newPassword: Option<string>) returns (error: Option<string>)
      modifies this
      ensures error.Some? <==> RoleChangeRefused(validated)
      ensures error.Some? ==> error.value == ROLE_LOCKED && attrs == old(attrs) && password == old(password)
      ensures error.None? ==> (attrs == SetAll(old(attrs), validated) &&
        password == (if Given(newPassword) then newPassword.value else old(password)))
      ensures isStaff == old(isStaff) && isSuperuser == old(isSuperuser)
    {
      if RoleChangeRefused(validated) {
        return Some(ROLE_LOCKED);
      }
      Update(validated, newPassword);
      error := None;
    }
  }

  /** The validated fields, as (attribute, value) pairs in order; a
      dictionary, so no attribute comes twice. */
  predicate DistinctNames(fields: seq<(string, string)>) {
    forall i, j :: 0 <= i < j < |fields| ==> fields[i].0 != fields[j].0
  }

  /** `setattr` of each field in turn. */
  function SetAll(attrs: map<string, string>, fields: seq<(string, string)>): map<string, string>
    decreases |fields|
  {
    if |fields| == 0 then attrs
    else SetAll(attrs, fields[..|fields| - 1])[fields[|fields| - 1].0 := fields[|fields| - 1].1]
  }

  /** After the fields are set, each given attribute holds its value and
      every other attribute is unchanged. */
  lemma {:induction false} SetAllRules(attrs: map<string, string>, fields: seq<(string, string)>)
    requires DistinctNames(fields)
    ensures forall i :: 0 <= i < |fields| ==> fields[i].0 in SetAll(attrs, fields) && SetAll(attrs, fields)[fields[i].0] == fields[i].1
    ensures forall k :: (forall i :: 0 <= i < |fields| ==> fields[i].0 != k) ==>
      (k in SetAll(attrs, fields) <==> k in attrs) && (k in attrs ==> SetAll(attrs, fields)[k] == attrs[k])
    decreases |fields|
  {
    if |fields| > 0 {
      var init := fields[..|fields| - 1];
      assert DistinctNames(init) by {
        forall i, j | 0 <= i < j < |init| ensures init[i].0 != init[j].0 {
          assert init[i] == fields[i] && init[j] == fields[j];
        }
      }
      SetAllRules(attrs, init);
      forall i | 0 <= i < |init| ensures init[i] == fields[i] { }
    }
  }

  /** A password field Python counts as given: present and not empty. */
  predicate Given(p: Option<string>) {
    p.Some? && p.value != ""
  }

  /** The password a new account is created with. */
  function InitialPassword(p: Option<string>): (r: string)
    ensures Given(p) ==> r == p.value
    ensures !Given(p) ==> r == DEFAULT_PASSWORD
  {
    if Given(p) then p.value else DEFAULT_PASSWORD
  }

  const ROLE_LOCKED := "不能修改超级管理员的角色。"
  const USERNAME_REQUIRED := "用户名不能为空。"
  const PASSWORD_REQUIRED := "创建管理员时必须设置初始密码。"

  /** The fields name a role other than "superadmin". */
  predicate RoleChangeRefused(validated: seq<(string, string)>) {
    exists i :: 0 <= i < |validated| && validated[i].0 == "role" && validated[i].1 != SUPERADMIN
  }

  /** The fields of a new account built from the validated fields. */
  function Built(validated: seq<(string, string)>): map<string, string> {
    SetAll(map[], validated)
  }

  /** The fields of a new student: those given, with the role forced. */
  function StudentAttrs(validated: seq<(string, string)>): map<string, string> {
    Built(validated)["role" := STUDENT]
  }

  /** The fields of a new teacher: the teacher number is the username. */
  function TeacherAttrs(validated: seq<(string, string)>): map<string, string>
    requires "teacher_number" in Built(validated)
  {
    Built(validated)["username" := Built(validated)["teacher_number"]]["role" := TEACHER]
  }

  /** The fields of a new superadmin. */
  function SuperAdminAttrs(validated: seq<(string, string)>): map<string, string> {
    Built(validated)["role" := SUPERADMIN]
  }

  /** Whatever role a request names, a new student is a student and a new
      teacher a teacher whose username is the teacher number; every other
      field given is kept, and nothing else is set. */
  lemma CreateAttrsRules(validated: seq<(string, string)>)
    requires DistinctNames(validated)
    ensures StudentAttrs(validated)["role"] == STUDENT
    ensures forall i :: 0 <= i < |validated| && validated[i].0 != "role" ==>
      validated[i].0 in StudentAttrs(validated) && StudentAttrs(validated)[validated[i].0] == validated[i].1
    ensures forall k :: k in StudentAttrs(validated) ==> k == "role" || exists i :: 0 <= i < |validated| && validated[i].0 == k
    ensures "teacher_number" in Built(validated) ==>
      TeacherAttrs(validated)["role"] == TEACHER &&
      (forall i :: 0 <= i < |validated| && validated[i].0 == "teacher_number" ==> TeacherAttrs(validated)["username"] == validated[i].1)
    ensures SuperAdminAttrs(validated)["role"] == SUPERADMIN
  {
    SetAllRules(map[], validated);
  }

  /** `StudentSerializer.create`. */
  method CreateStudent(validated: seq<(string, string)>, password: Option<string>) returns (a: Account)
    ensures fresh(a) && a.attrs == StudentAttrs(validated) && a.password == InitialPassword(password)
    ensures !a.isStaff && !a.isSuperuser
  {
    a := new Account(StudentAttrs(validated), InitialPassword(password), false, false);
  }

  /** `TeacherSerializer.create`; the teacher number is a required field. */
  method CreateTeacher(validated: seq<(string, string)>, password: Option<string>) returns (a: Account)
    requires "teacher_number" in Built(validated)
    ensures fresh(a) && a.attrs == TeacherAttrs(validated) && a.password == InitialPassword(password)
    ensures !a.isStaff && !a.isSuperuser
  {
    a := new Account(TeacherAttrs(validated), InitialPassword(password), false, false);
  }

  /** `SuperAdminSerializer.create`: a username and a password are both
      needed, the username checked first. */
  method CreateSuperAdmin(validated: seq<(string, string)>, password: Option<string>) returns (a: Account?, error: Option<(string, string)>)
    ensures ("username" !in Built(validated) || Built(validated)["username"] == "") ==>
      a == null && error == Some(("username", USERNAME_REQUIRED))
    ensures "username" in Built(validated) && Built(validated)["username"] != "" && !Given(password) ==>
      a == null && error == Some(("password", PASSWORD_REQUIRED))
    ensures error.None? <==> "username" in Built(validated) && Built(validated)["username"] != "" && Given(password)
    ensures error.None? ==> (a != null && fresh(a) && a.attrs == SuperAdminAttrs(validated) &&
      a.password == password.value && a.isStaff && a.isSuperuser)
  {
    if "username" !in Built(validated) || Built(validated)["username"] == "" {
      return null, Some(("username", USERNAME_REQUIRED));
    }
    if !Given(password) {
      return null, Some(("password", PASSWORD_REQUIRED));
    }
    a := new Account(SuperAdminAttrs(validated), password.value, true, true);
    error := None;
  }
}
