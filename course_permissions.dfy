/** The permission classes of the course app
    (backend/course/permissions.py), as predicates over the visitor. */
module CoursePermissions {
  import opened Wrappers
  import opened Accounts

  /** `IsSuperAdmin`: a signed-in superuser. */
  predicate IsSuperAdmin(v: Visitor) {
    v.Some? && v.value.isSuperuser
  }

  /** `IsTeacher` as written: the role is compared with "Teacher". */
  predicate IsTeacherAsWritten(v: Visitor) {
    v.Some? && v.value.role == "Teacher"
  }

  /** `IsTeacher` as intended: a signed-in teacher. */
  predicate IsTeacher(v: Visitor) {
    v.Some? && v.value.role == TEACHER
  }

  /** `IsStudent`: a signed-in student. */
  predicate IsStudent(v: Visitor) {
    v.Some? && v.value.role == STUDENT
  }

  /** `IsTeacherOrAdmin`: a signed-in teacher, admin or superadmin. */
  predicate IsTeacherOrAdmin(v: Visitor) {
    v.Some? && IsStaffRole(v.value.role)
  }

  /** No account with one of the four roles passes `IsTeacher` as written,
      while the intended check admits exactly the teachers. */
  lemma TeacherCheckRefusesTeachers(u: User)
    requires u.role in ROLES
    ensures !IsTeacherAsWritten(Some(u))
    ensures IsTeacher(Some(u)) <==> u.role == TEACHER
  {
  }

  /** A teacher account is refused by the check as written. */
  lemma TeacherRefused()
    ensures var u := User(1, "t", None, TEACHER, true, false, false, None);
      !IsTeacherAsWritten(Some(u)) && IsTeacher(Some(u))
  {
  }

  /** The anonymous visitor fails every check; a student never passes the
      staff check, and each of teacher and student implies the staff or
      student role it names. */
  lemma PermissionRules(v: Visitor)
    ensures v.None? ==> !IsSuperAdmin(v) && !IsTeacher(v) && !IsStudent(v) && !IsTeacherOrAdmin(v)
    ensures IsStudent(v) ==> !IsTeacherOrAdmin(v)
    ensures IsTeacher(v) ==> IsTeacherOrAdmin(v)
    ensures v.Some? ==> (IsTeacherOrAdmin(v) <==> v.value.role in {TEACHER, ADMIN, SUPERADMIN})
  {
  }
}
