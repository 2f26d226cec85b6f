/** What the forum's serializers show (backend/forum/serializers.py): the
    author of a comment or a post as the viewer may see it, the check a new
    post must pass, and an attachment's thumbnail address. */
module ForumSerializers {
  import opened Wrappers
  import opened Accounts
  import opened ForumModels
  import opened ForumPermissions

  /** The placeholder name of a hidden author. */
  const ANONYMOUS := "匿名用户"
  /** The fixed author of AI-generated comments. */
  const AI_ASSISTANT := "AI 助教"
  const NO_ANONYMOUS_STAFF := "教师和管理员不允许匿名发帖。"

  /** An author as shown: the placeholder (no id, username and real name
      `匿名用户`), the AI assistant (id `ai`), or a card of the account whose
      names may be masked. */
  datatype AuthorView =
    | Anonymous
    | AiAssistant
    | Card(id: nat, username: string, realName: Option<string>, name: Option<string>, role: string,
           classEnrolled: Option<nat>)

  /** The author of a comment or a reply: the AI assistant for generated
      comments, the placeholder for other anonymous ones, the account
      otherwise. */
  function CommentAuthor(c: Comment, author: User): (v: AuthorView)
    ensures v == AiAssistant <==> c.isAiGenerated
    ensures v == Anonymous <==> c.isAnonymous && !c.isAiGenerated
    ensures v.Card? ==> v.id == author.id && v.username == author.username && v.realName == author.name
  {
    if c.isAnonymous && !c.isAiGenerated then Anonymous
    else if c.isAiGenerated then AiAssistant
    else Card(author.id, author.username, author.name, author.name, author.role, author.classEnrolled)
  }

  /** The viewer may see who wrote a post: a superuser, the author, or a
      teacher of the student author's class. */
  predicate CanViewRealName(viewer: User, author: User, teacherClasses: set<nat>) {
    viewer.isSuperuser || author.id == viewer.id || (viewer.role == TEACHER && TeachesAuthor(author, teacherClasses))
  }

  /** `PostSerializer.get_author`. */
  function PostAuthor(p: Post, viewer: User, author: User, teacherClasses: set<nat>): AuthorView {
    var canView := CanViewRealName(viewer, author, teacherClasses);
    if p.isAnonymous && !canView then Anonymous
    else
      var shown := if canView then author.name else Some(ANONYMOUS);
      Card(author.id, author.username, shown, shown, author.role, author.classEnrolled)
  }

  /** A post's author is hidden exactly when the post is anonymous and the
      viewer may not see the author; a card shows the author's name to a
      viewer who may see it and the placeholder name to anyone else; the
      card never hides the account id or username. */
  lemma PostAuthorRules(p: Post, viewer: User, author: User, teacherClasses: set<nat>)
    ensures var v := PostAuthor(p, viewer, author, teacherClasses);
      (v == Anonymous <==> p.isAnonymous && !CanViewRealName(viewer, author, teacherClasses)) &&
      (v.Anonymous? || v.Card?) &&
      (v.Card? ==> v.id == author.id && v.username == author.username && v.role == author.role) &&
      (CanViewRealName(viewer, author, teacherClasses) ==> v.Card? && v.realName == v.name == author.name) &&
      (!CanViewRealName(viewer, author, teacherClasses) && v.Card? ==> v.realName == v.name == Some(ANONYMOUS))
  {
  }

  /** The author, a superuser and the class's teacher see the author of
      any post; a student never sees another student's name. */
  lemma PostAuthorViewers(p: Post, viewer: User, author: User, teacherClasses: set<nat>)
    ensures viewer.isSuperuser || viewer.id == author.id ==>
      PostAuthor(p, viewer, author, teacherClasses).Card? &&
      PostAuthor(p, viewer, author, teacherClasses).realName == author.name
    ensures (viewer.role == STUDENT && !viewer.isSuperuser && viewer.id != author.id ==>
      PostAuthor(p, viewer, author, teacherClasses) == Anonymous ||
      PostAuthor(p, viewer, author, teacherClasses).realName == Some(ANONYMOUS))
  {
  }

  /** Teachers and admins (not superadmins) may not post anonymously. */
  predicate MayNotPostAnonymously(user: User) {
    user.role == TEACHER || user.role == ADMIN
  }

  /** `PostSerializer.validate` as written: a field the request leaves out
      is read as `False`, although the stored post defaults to anonymous. */
  function ValidateAsWritten(user: User, form: PostForm): (error: Option<string>)
    ensures error.Some? ==> error.value == NO_ANONYMOUS_STAFF
  {
    if MayNotPostAnonymously(user) && form.isAnonymous.GetOr(false) then Some(NO_ANONYMOUS_STAFF) else None
  }

  /** A teacher who leaves the anonymity field out passes the check as
      written and gets an anonymous post. */
  lemma StaffPostAnonymousByDefault(user: User, form: PostForm, id: nat, now: int)
    requires user.role == TEACHER && form.isAnonymous.None?
    ensures ValidateAsWritten(user, form).None?
    ensures NewPost(id, user.id, form, now).isAnonymous
  {
  }

  /** The check on the value the post will be stored with. */
  function Validate(user: User, form: PostForm): (error: Option<string>)
    ensures error.Some? ==> error.value == NO_ANONYMOUS_STAFF
  {
    if MayNotPostAnonymously(user) && form.isAnonymous.GetOr(true) then Some(NO_ANONYMOUS_STAFF) else None
  }

  /** A post by a teacher or an admin that passes the check is stored
      with its author shown, and the check refuses nothing else: posts of
      students and superadmins always pass, as do non-anonymous ones. */
  lemma ValidateRules(user: User, form: PostForm, id: nat, now: int)
    ensures (Validate(user, form).None? && MayNotPostAnonymously(user) ==>
      !NewPost(id, user.id, form, now).isAnonymous)
    ensures Validate(user, form).Some? <==> MayNotPostAnonymously(user) && NewPost(id, user.id, form, now).isAnonymous
    ensures !MayNotPostAnonymously(user) ==> Validate(user, form).None?
  {
  }

  /** An attachment's signed address, none when it has no path; `sign`
      stands for the storage client's signer. */
  function FileUrl(f: PostFile, sign: string -> string): (url: Option<string>)
    ensures url.Some? <==> f.filePath != ""
    ensures url.Some? ==> url.value == sign(f.filePath)
  {
    if f.filePath != "" then Some(sign(f.filePath)) else None
  }

  /** The thumbnail's signed address, falling back to the file's own. */
  function ThumbnailUrl(f: PostFile, sign: string -> string): (url: Option<string>)
    ensures f.thumbnailPath.Some? && f.thumbnailPath.value != "" ==> url == Some(sign(f.thumbnailPath.value))
    ensures f.thumbnailPath.None? || f.thumbnailPath.value == "" ==> url == FileUrl(f, sign)
    ensures url.None? <==> (f.thumbnailPath.None? || f.thumbnailPath.value == "") && f.filePath == ""
  {
    if f.thumbnailPath.Some? && f.thumbnailPath.value != "" then Some(sign(f.thumbnailPath.value))
    else FileUrl(f, sign)
  }
}
