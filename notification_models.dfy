/** Notifications (backend/notifications/models.py): the notification row
    with its read state, the per-user message policy and the block list.
    A notification's read state is changed in place by `mark_as_read` and
    `mark_as_unread`, so a stored row is a class; the tables the views
    read and write hold its value, `Notification`. */
module NotificationModels {
  import opened Wrappers

  const PRIVATE_MESSAGE := "private_message"
  const ASSIGNMENT_NEW := "assignment_new"
  const ASSIGNMENT_GRADED := "assignment_graded"
  const COURSE_CHANGE := "course_change"
  const CLASS_CHANGE := "class_change"
  const FORUM_REPLY := "forum_reply"
  const FORUM_LIKE_SUMMARY := "forum_like_summary"
  const SUBMISSION_NEW := "submission_new"
  const SYSTEM_ANNOUNCEMENT := "system_announcement"
  const USER_MENTION := "user_mention"
  const OTHER := "other"

  /** The notification types a row may hold. */
  const NOTIFICATION_TYPES: seq<string> := [
    PRIVATE_MESSAGE, ASSIGNMENT_NEW, ASSIGNMENT_GRADED, COURSE_CHANGE, CLASS_CHANGE,
    FORUM_REPLY, FORUM_LIKE_SUMMARY, SUBMISSION_NEW, SYSTEM_ANNOUNCEMENT, USER_MENTION, OTHER]

  /** A notification's value. Times are seconds; `objectId` is the related
      object (assignment, submission, post) and `parent` the message a
      reply answers. */
  datatype Notification = Notification(
    recipient: nat,
    sender: Option<nat>,
    kind: string,
    title: Option<string>,
    content: string,
    timestamp: int,
    isRead: bool,
    readAt: Option<int>,
    objectId: Option<nat>,
    canRecipientDelete: bool,
    canRecipientReply: bool,
    parent: Option<nat>)

  /** A row as `objects.create` stores it when the caller sets only the
      given fields: unread, deletable, not repliable. */
  function NewNotification(recipient: nat, sender: Option<nat>, kind: string, title: Option<string>,
                           content: string, now: int): (n: Notification)
    ensures !n.isRead && n.readAt.None? && n.canRecipientDelete && !n.canRecipientReply
    ensures n.recipient == recipient && n.sender == sender && n.kind == kind && n.title == title
    ensures n.content == content && n.timestamp == now && n.objectId.None? && n.parent.None?
  {
    Notification(recipient, sender, kind, title, content, now, false, None, None, true, false, None)
  }

  /** The effect of `mark_as_read` at time `now`. */
  function MarkedRead(n: Notification, now: int): Notification {
    if !n.isRead then n.(isRead := true, readAt := Some(now)) else n
  }

  /** The effect of `mark_as_unread`. */
  function MarkedUnread(n: Notification): Notification {
    if n.isRead then n.(isRead := false, readAt := None) else n
  }

  /** `mark_as_read` leaves the row read; it stamps the time only when the
      row was unread, touches no other field, and a second call, at any
      time, changes nothing. */
  lemma MarkAsReadRules(n: Notification, now: int, later: int)
    ensures MarkedRead(n, now).isRead
    ensures !n.isRead ==> MarkedRead(n, now).readAt == Some(now)
    ensures n.isRead ==> MarkedRead(n, now) == n
    ensures MarkedRead(n, now).(isRead := n.isRead, readAt := n.readAt) == n
    ensures MarkedRead(MarkedRead(n, now), later) == MarkedRead(n, now)
  {
  }

  /** `mark_as_unread` leaves the row unread with no read time; it changes
      nothing on an unread row, touches no other field, and is idempotent. */
  lemma MarkAsUnreadRules(n: Notification)
    ensures !MarkedUnread(n).isRead
    ensures n.isRead ==> MarkedUnread(n).readAt.None?
    ensures !n.isRead ==> MarkedUnread(n) == n
    ensures MarkedUnread(n).(isRead := n.isRead, readAt := n.readAt) == n
    ensures MarkedUnread(MarkedUnread(n)) == MarkedUnread(n)
  {
  }

  /** Marking read then unread gives back an unread row with no read time,
      whatever the starting state; the two toggles undo each other on the
      read-state fields. */
  lemma ToggleRoundTrip(n: Notification, now: int)
    ensures MarkedUnread(MarkedRead(n, now)) == n.(isRead := false, readAt := None)
    ensures !n.isRead && n.readAt.None? ==> MarkedUnread(MarkedRead(n, now)) == n
  {
  }

  /** A stored notification row. */
  class NotificationRow {
    var value: Notification

    constructor(n: Notification)
      ensures value == n
    {
      value := n;
    }

    /** `mark_as_read`: write `is_read` and `read_at` only when unread. */
    method MarkAsRead(now: int)
      modifies this
      ensures value == MarkedRead(old(value), now)
    {
      if !value.isRead {
        value := value.(isRead := true, readAt := Some(now));
      }
    }

    /** `mark_as_unread`: clear `is_read` and `read_at` only when read. */
    method MarkAsUnread()
      modifies this
      ensures value == MarkedUnread(old(value))
    {
      if value.isRead {
        value := value.(isRead := false, readAt := None);
      }
    }
  }

  /** The private-message policies a user may choose. */
  datatype MessagePolicy = Everyone | ContactsOnly | TeachersStaffOnly | StaffOnly | SuperadminOnly | NoMessages

  /** The stored code of each policy. */
  function PolicyCode(p: MessagePolicy): string {
    match p
    case Everyone => "everyone"
    case ContactsOnly => "contacts_only"
    case TeachersStaffOnly => "teachers_staff_only"
    case StaffOnly => "staff_only"
    case SuperadminOnly => "superadmin_only"
    case NoMessages => "none"
  }

  /** Reading a stored policy code back. */
  function ParsePolicy(code: string): (r: Option<MessagePolicy>)
    ensures r.Some? ==> PolicyCode(r.value) == code
  {
    if code == "everyone" then Some(Everyone)
    else if code == "contacts_only" then Some(ContactsOnly)
    else if code == "teachers_staff_only" then Some(TeachersStaffOnly)
    else if code == "staff_only" then Some(StaffOnly)
    else if code == "superadmin_only" then Some(SuperadminOnly)
    else if code == "none" then Some(NoMessages)
    else None
  }

  /** The codes are distinct and read back: every policy survives storage. */
  lemma PolicyCodeRoundTrip(p: MessagePolicy)
    ensures ParsePolicy(PolicyCode(p)) == Some(p)
  {
  }

  /** A user's notification settings; every switch defaults to on and the
      policy to `Everyone`. */
  datatype Settings = Settings(
    user: nat,
    receivePrivateMessages: bool,
    receiveAssignmentNotifications: bool,
    receiveGradingNotifications: bool,
    receiveForumNotifications: bool,
    receiveCourseClassChangeNotifications: bool,
    policy: MessagePolicy)

  function DefaultSettings(user: nat): (s: Settings)
    ensures s.user == user && s.policy == Everyone
    ensures s.receivePrivateMessages && s.receiveAssignmentNotifications && s.receiveGradingNotifications
    ensures s.receiveForumNotifications && s.receiveCourseClassChangeNotifications
  {
    Settings(user, true, true, true, true, true, Everyone)
  }

  /** One block: `blocker` refuses messages from `blocked`. */
  datatype Block = Block(blocker: nat, blocked: nat)

  /** The block table; the pair is unique, so it is a set. */
  type BlockTable = set<Block>

  predicate HasBlocked(t: BlockTable, blocker: nat, blocked: nat) {
    Block(blocker, blocked) in t
  }
}
