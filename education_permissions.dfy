/** The permission classes of the education app
    (backend/education/permissions.py), as predicates over the visitor. */
module EducationPermissions {
  import opened Wrappers
  import opened Accounts

  /** `IsSuperAdmin`: a signed-in superadmin. */
  predicate IsSuperAdmin(v: Visitor) {
    v.Some? && v.value.role == SUPERADMIN
  }

  /** `IsAdmin`: a signed-in admin or superadmin. */
  predicate IsAdmin(v: Visitor) {
    v.Some? && (v.value.role == ADMIN || v.value.role == SUPERADMIN)
  }

  /** `IsTeacher`: a signed-in teacher. */
  predicate IsTeacher(v: Visitor) {
    v.Some? && v.value.role == TEACHER
  }

  /** The anonymous visitor fails all three; a superadmin is an admin;
      the teacher check and the admin check never both hold; for a
      signed-in user each check is a test of the role alone. */
  lemma PermissionRules(v: Visitor)
    ensures v.None? ==> !IsSuperAdmin(v) && !IsAdmin(v) && !IsTeacher(v)
    ensures IsSuperAdmin(v) ==> IsAdmin(v)
    ensures !(IsTeacher(v) && IsAdmin(v))
    ensures v.Some? ==> (IsAdmin(v) <==> v.value.role in {ADMIN, SUPERADMIN})
    ensures v.Some? && v.value.role == STUDENT ==> !IsSuperAdmin(v) && !IsAdmin(v) && !IsTeacher(v)
  {
  }
}
