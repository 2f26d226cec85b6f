/** Who may change a forum post or comment (backend/forum/permissions.py,
    `CanManageForumContent`): an ordered chain of early answers. */
module ForumPermissions {
  import opened Wrappers
  import opened Accounts

  /** The HTTP methods that only read. */
  const SAFE_METHODS: set<string> := {"GET", "HEAD", "OPTIONS"}

  /** The author is a student enrolled in one of `teacherClasses`, the
      classes the viewer teaches. A student without a class is in none. */
  predicate TeachesAuthor(author: User, teacherClasses: set<nat>) {
    author.role == STUDENT && author.classEnrolled.Some? && author.classEnrolled.value in teacherClasses
  }

  /** `has_object_permission` for a request with method `httpMethod` by
      `user` on an object written by `author`; `teacherClasses` are the
      classes of the user's teaching assignments. Users are the same row
      when their ids agree. */
  function CanManage(httpMethod: string, user: User, author: User, teacherClasses: set<nat>): (allowed: bool)
    ensures httpMethod in SAFE_METHODS ==> allowed
    ensures user.isSuperuser || author.id == user.id ==> allowed
    ensures (httpMethod !in SAFE_METHODS && !user.isSuperuser && author.id != user.id ==>
      (allowed <==> user.role == TEACHER && TeachesAuthor(author, teacherClasses)))
  {
    if httpMethod in SAFE_METHODS then true
    else if user.isSuperuser then true
    else if author.id == user.id then true
    else if user.role == TEACHER then TeachesAuthor(author, teacherClasses)
    else false
  }

  /** Only a teacher of the author's class, the author or a superuser may
      write: a student, an admin or a superadmin without the superuser flag
      may not touch another user's content, and a teacher may not touch a
      teacher's or a student's of another class. */
  lemma WriteRefusals(httpMethod: string, user: User, author: User, teacherClasses: set<nat>)
    requires httpMethod !in SAFE_METHODS && !user.isSuperuser && author.id != user.id
    ensures user.role != TEACHER ==> !CanManage(httpMethod, user, author, teacherClasses)
    ensures author.role != STUDENT ==> !CanManage(httpMethod, user, author, teacherClasses)
    ensures author.classEnrolled.None? ==> !CanManage(httpMethod, user, author, teacherClasses)
  {
  }
}
