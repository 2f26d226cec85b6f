/** Accounts of the school system (the `User` model of the education app):
    the fields the rules below read. A role is kept as the stored string,
    because some checks compare it with spellings no account can hold. */
module Accounts {
  import opened Wrappers

  const STUDENT := "student"
  const TEACHER := "teacher"
  const ADMIN := "admin"
  const SUPERADMIN := "superadmin"

  /** The four roles an account can be given. */
  const ROLES: seq<string> := [SUPERADMIN, ADMIN, TEACHER, STUDENT]

  datatype User = User(
    id: nat,
    username: string,
    name: Option<string>,
    role: string,
    isActive: bool,
    isStaff: bool,
    isSuperuser: bool,
    classEnrolled: Option<nat>)

  /** The user behind a request: `None` is the anonymous visitor, whom every
      `is_authenticated` test refuses. */
  type Visitor = Option<User>

  /** `name or username`. */
  function DisplayName(u: User): string {
    if u.name.Some? && u.name.value != "" then u.name.value else u.username
  }

  /** Teacher, admin or superadmin. */
  predicate IsStaffRole(role: string) {
    role == TEACHER || role == ADMIN || role == SUPERADMIN
  }
}
