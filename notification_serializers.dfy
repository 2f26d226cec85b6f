/** `NotificationSerializer.create` (backend/notifications/serializers.py):
    before a row is stored, its type fixes the recipient's delete and reply
    flags. The type is read-only on input, so it is always the value the
    server passes to `save`, never one from the request. */
module NotificationSerializers {
  import opened Wrappers
  import opened Accounts
  import opened NotificationModels

  /** The two recipient flags of a row about to be stored. */
  datatype Flags = Flags(canDelete: bool, canReply: bool)

  /** Types whose rows the recipient can neither delete nor answer. */
  predicate Fixed(kind: string) {
    kind in [ASSIGNMENT_NEW, ASSIGNMENT_GRADED, COURSE_CHANGE, CLASS_CHANGE, SYSTEM_ANNOUNCEMENT]
  }

  /** Forum types: deletable, not repliable. */
  predicate ForumKind(kind: string) {
    kind in [FORUM_REPLY, FORUM_LIKE_SUMMARY]
  }

  /** The flags `create` stores, from the type, the recipient's and the
      sender's roles (`None` when there is no such user) and the flags the
      caller supplied. */
  function CreateFlags(kind: string, recipientRole: Option<string>, senderRole: Option<string>, given: Flags): (r: Flags)
    ensures kind == PRIVATE_MESSAGE ==> r.canReply
    ensures kind == PRIVATE_MESSAGE && recipientRole == Some(STUDENT) ==>
      (!r.canDelete <==> senderRole.Some? && IsStaffRole(senderRole.value))
    ensures kind == PRIVATE_MESSAGE && recipientRole != Some(STUDENT) ==> r.canDelete == given.canDelete
    ensures Fixed(kind) ==> r == Flags(false, false)
    ensures ForumKind(kind) ==> r == Flags(true, false)
    ensures kind != PRIVATE_MESSAGE && !Fixed(kind) && !ForumKind(kind) ==> r == given
    ensures !given.canReply && r.canReply ==> kind == PRIVATE_MESSAGE
  {
    if kind == PRIVATE_MESSAGE then
      if recipientRole == Some(STUDENT) then
        Flags(!(senderRole.Some? && IsStaffRole(senderRole.value)), true)
      else given.(canReply := true)
    else if Fixed(kind) then Flags(false, false)
    else if ForumKind(kind) then Flags(true, false)
    else given
  }

  /** The row `create` stores. */
  function Created(n: Notification, recipientRole: Option<string>, senderRole: Option<string>): Notification {
    var f := CreateFlags(n.kind, recipientRole, senderRole, Flags(n.canRecipientDelete, n.canRecipientReply));
    n.(canRecipientDelete := f.canDelete, canRecipientReply := f.canReply)
  }
}
