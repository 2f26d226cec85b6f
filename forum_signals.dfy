/** The notification a new forum comment raises (backend/forum/signals.py). */
module ForumSignals {
  import opened Wrappers
  import opened Text
  import opened NotificationModels
  import opened ForumModels

  /** How much of the comment the notification previews. */
  const PREVIEW_LENGTH := 100

  function ReplyTitle(postTitle: string): string {
    "您的帖子 \"" + postTitle + "\" 有了新回复"
  }

  /** `create_comment_notification` after comment `c` on `post` is saved:
      a notification for the post's author when the comment is new, by
      someone else and not AI-generated; none otherwise. It is created with
      the model's defaults: unread, deletable, not repliable. */
  function CommentNotification(post: Post, c: Comment, created: bool, now: int): (n: Option<Notification>)
    ensures n.Some? <==> created && post.author != c.author && !c.isAiGenerated
    ensures (n.Some? ==>
      n.value.recipient == post.author && n.value.sender == Some(c.author) && n.value.kind == FORUM_REPLY &&
      n.value.title == Some(ReplyTitle(post.title)) && n.value.objectId == Some(post.id) &&
      |n.value.content| == (if |c.content| < PREVIEW_LENGTH then |c.content| else PREVIEW_LENGTH) &&
      n.value.content == c.content[..|n.value.content|] &&
      !n.value.isRead && n.value.canRecipientDelete && !n.value.canRecipientReply && n.value.parent.None?)
  {
    if created && post.author != c.author && !c.isAiGenerated then
      var row := NewNotification(post.author, Some(c.author), FORUM_REPLY, Some(ReplyTitle(post.title)),
                                 Take(c.content, PREVIEW_LENGTH), now);
      Some(row.(objectId := Some(post.id)))
    else None
  }
}
