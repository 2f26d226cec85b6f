/** The forum's rows (backend/forum/models.py): posts with their counters,
    comments, likes and per-user visibility rules. Times are seconds. */
module ForumModels {
  import opened Wrappers

  datatype Visibility = Public | Private

  datatype Post = Post(
    id: nat,
    author: nat,
    title: string,
    content: string,
    isAnonymous: bool,
    visibility: Visibility,
    allowComments: bool,
    allowAiComments: bool,
    viewCount: nat,
    likeCount: int,
    commentCount: int,
    createdAt: int)

  /** The fields a new post is created from; `None` is a field the request
      left out, so the model's default applies. */
  datatype PostForm = PostForm(
    title: string, content: string, isAnonymous: Option<bool>, visibility: Option<Visibility>,
    allowComments: Option<bool>, allowAiComments: Option<bool>)

  /** A post as stored from a form: anonymous, public, open to comments
      and closed to AI comments unless the form says otherwise; counters
      start at zero. */
  function NewPost(id: nat, author: nat, form: PostForm, now: int): (p: Post)
    ensures p.isAnonymous == form.isAnonymous.GetOr(true) && p.visibility == form.visibility.GetOr(Public)
    ensures p.allowComments == form.allowComments.GetOr(true) && p.allowAiComments == form.allowAiComments.GetOr(false)
    ensures p.viewCount == 0 && p.likeCount == 0 && p.commentCount == 0 && p.createdAt == now
    ensures p.id == id && p.author == author && p.title == form.title && p.content == form.content
  {
    Post(id, author, form.title, form.content, form.isAnonymous.GetOr(true), form.visibility.GetOr(Public),
         form.allowComments.GetOr(true), form.allowAiComments.GetOr(false), 0, 0, 0, now)
  }

  datatype Comment = Comment(
    id: nat, post: nat, author: nat, content: string, parent: Option<nat>,
    isAnonymous: bool, isAiGenerated: bool)

  datatype RuleKind = Allow | Deny

  /** A visibility rule: one per (post, user). */
  datatype Rule = Rule(post: nat, user: nat, kind: RuleKind)

  /** An attachment; the paths are storage keys, empty when missing. */
  datatype PostFile = PostFile(filePath: string, thumbnailPath: Option<string>)
}
