/** The notification views (backend/notifications/views.py): sending a
    private message under the recipient's policy and block list,
    retracting it, marking it read, replying to it, blocking its sender,
    and choosing one's own policy. The database is the `Tables` value;
    each view returns its reply and the tables after it. */
module NotificationViews {
  import opened Wrappers
  import opened Accounts
  import opened NotificationModels
  import opened NotificationSerializers
  import Text

  /** The rows the views read and write. */
  datatype Tables = Tables(rows: map<nat, Notification>, blocks: BlockTable, settings: map<nat, Settings>)

  /** An HTTP status with the detail text (empty for a serialized row),
      or the serializer's 400 naming the fields it rejected. */
  datatype Reply = Reply(status: nat, detail: string) | Invalid(status: nat, fields: set<string>)

  datatype Outcome = Outcome(reply: Reply, tables: Tables)

  /** The user table, keyed by id. */
  predicate KeyedById(users: map<nat, User>) {
    forall k :: k in users ==> users[k].id == k
  }

  /** `UserNotificationSettings.objects.get_or_create(user=...)`. */
  function WithSettings(t: Tables, user: nat): (r: Tables)
    ensures user in r.settings && r.rows == t.rows && r.blocks == t.blocks
    ensures user in t.settings ==> r == t
    ensures user !in t.settings ==> r.settings == t.settings[user := DefaultSettings(user)]
  {
    if user in t.settings then t else t.(settings := t.settings[user := DefaultSettings(user)])
  }

  /** The recipient's policy lets this sender write to them. */
  predicate CanSend(policy: MessagePolicy, sender: User, recipient: User) {
    match policy
    case Everyone => true
    case ContactsOnly => false
    case TeachersStaffOnly => recipient.role == STUDENT && IsStaffRole(sender.role)
    case StaffOnly => recipient.role == TEACHER && (sender.role == ADMIN || sender.role == SUPERADMIN)
    case SuperadminOnly => sender.role == SUPERADMIN
    case NoMessages => sender.role == SUPERADMIN
  }

  /** A student may not delete what staff sent them. */
  predicate RecipientMayDelete(sender: User, recipient: User) {
    !(recipient.role == STUDENT && IsStaffRole(sender.role))
  }

  const NO_RECIPIENT := "必须提供接收者ID。"
  const UNKNOWN_RECIPIENT := "接收用户未找到。"
  const BLOCKED := "消息无法发送。接收方可能已将您屏蔽或不接收来自您的消息。"
  const POLICY_REFUSES := "接收者当前不接收来自您的消息。"

  /** The row a private message is stored as, flags set by the view. */
  function MessageRow(sender: User, recipient: User, title: string, content: string, now: int): Notification {
    NewNotification(recipient.id, Some(sender.id), PRIVATE_MESSAGE, Some(title), content, now)
      .(canRecipientDelete := RecipientMayDelete(sender, recipient), canRecipientReply := true)
  }

  /** The fields a client posts to send a message; `None` is a field
      left out. `recipient`, `title` and `content` are read by the view
      too; `isRead` and `parent` reach the row through the serializer. */
  datatype MessageForm = MessageForm(recipient: Option<int>, title: Option<string>, content: Option<string>,
                                     isRead: Option<bool>, parent: Option<nat>)

  /** The model's limit on a title. */
  const TITLE_MAX: nat := 255

  /** The fields the serializer checks. */
  const MESSAGE_FIELDS: set<string> := {"recipient", "title", "content", "parent_notification"}

  /** The serializer rejects `field`: an unknown recipient, a trimmed title
      over the limit, a blank or missing content, an unknown parent. */
  predicate Rejects(t: Tables, users: map<nat, User>, form: MessageForm, field: string) {
    if field == "recipient" then form.recipient.Some? && (form.recipient.value < 0 || form.recipient.value !in users)
    else if field == "title" then form.title.Some? && |Text.Strip(form.title.value)| > TITLE_MAX
    else if field == "content" then form.content.None? || Text.Strip(form.content.value) == ""
    else field == "parent_notification" && form.parent.Some? && form.parent.value !in t.rows
  }

  /** The serializer's field errors. */
  function MessageErrors(t: Tables, users: map<nat, User>, form: MessageForm): set<string> {
    set field | field in MESSAGE_FIELDS && Rejects(t, users, form, field)
  }

  /** The fields are rejected one by one, each for its own reason. */
  lemma MessageErrorsSay(t: Tables, users: map<nat, User>, form: MessageForm)
    ensures "recipient" in MessageErrors(t, users, form) <==>
      form.recipient.Some? && (form.recipient.value < 0 || form.recipient.value !in users)
    ensures "title" in MessageErrors(t, users, form) <==> form.title.Some? && |Text.Strip(form.title.value)| > TITLE_MAX
    ensures "content" in MessageErrors(t, users, form) <==> form.content.None? || Text.Strip(form.content.value) == ""
    ensures "parent_notification" in MessageErrors(t, users, form) <==> form.parent.Some? && form.parent.value !in t.rows
    ensures MessageErrors(t, users, form) <= {"recipient", "title", "content", "parent_notification"}
  {
  }

  /** `create`: the serializer's validation, then `perform_create`. */
  function Send(t: Tables, users: map<nat, User>, sender: User, form: MessageForm, newId: nat, now: int): Outcome
  {
    var errors := MessageErrors(t, users, form);
    if errors != {} then Outcome(Invalid(400, errors), t)
    else
      assert "content" !in errors;
      PerformCreate(t, users, sender, form, newId, now)
  }

  /** `perform_create`, on a form the serializer accepted. A recipient left
      out, or 0, counts as missing; the title sent is stored as sent, the
      content trimmed. */
  function PerformCreate(t: Tables, users: map<nat, User>, sender: User, form: MessageForm, newId: nat, now: int): Outcome
    requires form.content.Some?
  {
    if form.recipient.None? || form.recipient.value == 0 then Outcome(Reply(400, NO_RECIPIENT), t)
    else if form.recipient.value < 0 || form.recipient.value !in users then Outcome(Reply(400, UNKNOWN_RECIPIENT), t)
    else
      var recipient := users[form.recipient.value];
      var t1 := WithSettings(t, recipient.id);
      if HasBlocked(t1.blocks, recipient.id, sender.id) then Outcome(Reply(400, BLOCKED), t1)
      else if !CanSend(t1.settings[recipient.id].policy, sender, recipient) then Outcome(Reply(400, POLICY_REFUSES), t1)
      else Outcome(Reply(201, ""), t1.(rows := t1.rows[newId := StoredMessage(sender, recipient, form, now)]))
  }

  /** The row `perform_create` saves: the view's fields over the ones the
      serializer validated, then the serializer's flags. */
  function StoredMessage(sender: User, recipient: User, form: MessageForm, now: int): Notification
    requires form.content.Some?
  {
    var title := if form.title.Some? then form.title.value else "来自 " + sender.username + " 的消息";
    var row := MessageRow(sender, recipient, title, Text.Strip(form.content.value), now)
      .(isRead := form.isRead == Some(true), parent := form.parent);
    Created(row, Some(recipient.role), Some(sender.role))
  }

  /** A stored message goes from the sender to the recipient, keeps the
      trimmed content, the read flag and the parent the client sent, is
      answerable, and is deletable unless a student receives it from
      staff. */
  lemma StoredMessageFields(sender: User, recipient: User, form: MessageForm, now: int)
    requires form.content.Some?
    ensures var n := StoredMessage(sender, recipient, form, now);
      n.recipient == recipient.id && n.sender == Some(sender.id) && n.kind == PRIVATE_MESSAGE &&
      n.content == Text.Strip(form.content.value) && (n.isRead <==> form.isRead == Some(true)) &&
      n.parent == form.parent && n.canRecipientReply && (n.canRecipientDelete <==> RecipientMayDelete(sender, recipient))
  {
    var title := if form.title.Some? then form.title.value else "来自 " + sender.username + " 的消息";
    var row := MessageRow(sender, recipient, title, Text.Strip(form.content.value), now)
      .(isRead := form.isRead == Some(true), parent := form.parent);
    assert Created(row, Some(recipient.role), Some(sender.role)) == row;
  }

  /** The policy table: everyone may write under `Everyone`, nobody under
      `ContactsOnly`, staff to students under `TeachersStaffOnly`, admins
      to teachers under `StaffOnly`, and only a superadmin under the last
      two. */
  lemma CanSendTable(p: MessagePolicy, sender: User, recipient: User)
    ensures p == Everyone ==> CanSend(p, sender, recipient)
    ensures p == ContactsOnly ==> !CanSend(p, sender, recipient)
    ensures CanSend(p, sender, recipient) && sender.role != SUPERADMIN ==>
      p == Everyone || (p == TeachersStaffOnly && recipient.role == STUDENT) || (p == StaffOnly && recipient.role == TEACHER)
    ensures sender.role == STUDENT ==> (CanSend(p, sender, recipient) <==> p == Everyone)
  {
  }

  /** The serializer answers first: a blank or missing content, an
      over-long title, an unknown recipient or parent is a 400 naming
      those fields, whether or not a recipient was sent, and nothing is
      stored. */
  lemma {:induction false} SendValidates(t: Tables, users: map<nat, User>, sender: User, form: MessageForm,
                                         newId: nat, now: int)
    ensures var o := Send(t, users, sender, form, newId, now);
      (o.reply.Invalid? <==>
        (form.content.None? || Text.Strip(form.content.value) == "") ||
        (form.title.Some? && |Text.Strip(form.title.value)| > TITLE_MAX) ||
        (form.recipient.Some? && (form.recipient.value < 0 || form.recipient.value !in users)) ||
        (form.parent.Some? && form.parent.value !in t.rows)) &&
      (o.reply.Invalid? ==>
        o.reply.status == 400 && o.tables == t &&
        ("content" in o.reply.fields <==> form.content.None? || Text.Strip(form.content.value) == "") &&
        ("title" in o.reply.fields <==> form.title.Some? && |Text.Strip(form.title.value)| > TITLE_MAX))
  {
    var errors := MessageErrors(t, users, form);
    MessageErrorsSay(t, users, form);
    if errors != {} {
      assert Send(t, users, sender, form, newId, now) == Outcome(Invalid(400, errors), t);
    } else {
      assert form.content.Some? && Send(t, users, sender, form, newId, now) == PerformCreate(t, users, sender, form, newId, now);
    }
  }

  /** Once the serializer accepts the form, a message is stored exactly
      when the recipient has not blocked the sender and their policy
      admits the sender; a block is checked before the policy, so it
      refuses even under `Everyone`. The stored row is the one
      `StoredMessageFields` describes, and its content is not blank. */
  lemma {:induction false} SendRules(t: Tables, users: map<nat, User>, sender: User, form: MessageForm,
                                     newId: nat, now: int)
    requires KeyedById(users) && newId !in t.rows
    requires form.recipient.Some? && form.recipient.value != 0 && MessageErrors(t, users, form) == {}
    ensures var rid := form.recipient.value;
      var o := Send(t, users, sender, form, newId, now);
      var policy := if rid in t.settings then t.settings[rid].policy else Everyone;
      rid in users &&
      (o.reply.status == 201 <==> !HasBlocked(t.blocks, rid, sender.id) && CanSend(policy, sender, users[rid])) &&
      (HasBlocked(t.blocks, rid, sender.id) ==> o.reply == Reply(400, BLOCKED)) &&
      (o.reply.status != 201 ==> o.tables.rows == t.rows) &&
      (o.reply.status == 201 ==>
        o.tables.rows.Keys == t.rows.Keys + {newId} &&
        var n := o.tables.rows[newId];
        n.recipient == rid && n.sender == Some(sender.id) && n.kind == PRIVATE_MESSAGE &&
        form.content.Some? && n.content == Text.Strip(form.content.value) && n.content != "" &&
        (n.isRead <==> form.isRead == Some(true)) && n.parent == form.parent &&
        n.canRecipientReply && (n.canRecipientDelete <==> RecipientMayDelete(sender, users[rid])))
  {
    var rid := form.recipient.value;
    SendDecides(t, users, sender, form, newId, now);
    SendStores(t, users, sender, form, newId, now);
    SendAccepted(t, users, sender, form, newId, now);
    StoredMessageFields(sender, users[rid], form, now);
    UpdatedKeys(t.rows, newId, StoredMessage(sender, users[rid], form, now));
  }

  /** The decision half of `SendRules`: the block, then the policy. */
  lemma SendDecides(t: Tables, users: map<nat, User>, sender: User, form: MessageForm, newId: nat, now: int)
    requires KeyedById(users)
    requires form.recipient.Some? && form.recipient.value != 0 && MessageErrors(t, users, form) == {}
    ensures var rid := form.recipient.value;
      var o := Send(t, users, sender, form, newId, now);
      var policy := if rid in t.settings then t.settings[rid].policy else Everyone;
      rid in users &&
      (o.reply.status == 201 <==> !HasBlocked(t.blocks, rid, sender.id) && CanSend(policy, sender, users[rid])) &&
      (HasBlocked(t.blocks, rid, sender.id) ==> o.reply == Reply(400, BLOCKED)) &&
      (o.reply.status != 201 ==> o.tables.rows == t.rows)
  {
    SendAccepted(t, users, sender, form, newId, now);
    PerformCreateSteps(t, users, sender, form, newId, now);
  }

  /** The row half of `SendRules`: a 201 stores the message under `newId`
      and nothing else. */
  lemma SendStores(t: Tables, users: map<nat, User>, sender: User, form: MessageForm, newId: nat, now: int)
    requires KeyedById(users)
    requires form.recipient.Some? && form.recipient.value != 0 && MessageErrors(t, users, form) == {}
    ensures form.content.Some? && form.recipient.value in users
    ensures var o := Send(t, users, sender, form, newId, now);
      o.reply.status == 201 ==>
        o.tables.rows == t.rows[newId := StoredMessage(sender, users[form.recipient.value], form, now)]
  {
    SendAccepted(t, users, sender, form, newId, now);
    PerformCreateSteps(t, users, sender, form, newId, now);
  }

  /** Storing a row under a key adds exactly that key. */
  lemma UpdatedKeys<K, V>(m: map<K, V>, k: K, v: V)
    ensures m[k := v].Keys == m.Keys + {k}
  {
  }

  /** A form the serializer accepted, with a recipient, names a known
      user and a non-blank content, and goes on to `perform_create`. */
  lemma SendAccepted(t: Tables, users: map<nat, User>, sender: User, form: MessageForm, newId: nat, now: int)
    requires form.recipient.Some? && form.recipient.value != 0 && MessageErrors(t, users, form) == {}
    ensures form.content.Some? && Text.Strip(form.content.value) != ""
    ensures 0 < form.recipient.value && form.recipient.value in users
    ensures Send(t, users, sender, form, newId, now) == PerformCreate(t, users, sender, form, newId, now)
  {
    MessageErrorsSay(t, users, form);
  }

  /** `perform_create` on a known recipient: the block, then the policy,
      then the row. */
  lemma PerformCreateSteps(t: Tables, users: map<nat, User>, sender: User, form: MessageForm, newId: nat, now: int)
    requires KeyedById(users) && form.content.Some?
    requires form.recipient.Some? && 0 < form.recipient.value && form.recipient.value in users
    ensures var rid := form.recipient.value;
      var o := PerformCreate(t, users, sender, form, newId, now);
      var t1 := WithSettings(t, rid);
      var policy := if rid in t.settings then t.settings[rid].policy else Everyone;
      t1.settings[rid].policy == policy &&
      (HasBlocked(t.blocks, rid, sender.id) ==> o == Outcome(Reply(400, BLOCKED), t1)) &&
      (!HasBlocked(t.blocks, rid, sender.id) && !CanSend(policy, sender, users[rid]) ==>
        o == Outcome(Reply(400, POLICY_REFUSES), t1)) &&
      (!HasBlocked(t.blocks, rid, sender.id) && CanSend(policy, sender, users[rid]) ==>
        o == Outcome(Reply(201, ""), t1.(rows := t.rows[newId := StoredMessage(sender, users[rid], form, now)])))
  {
    var rid := form.recipient.value;
    assert users[rid].id == rid;
  }

  const NOT_SENDER := "您没有权限撤回此消息。"
  const TOO_LATE := "超过10分钟，无法撤回。"
  const ALREADY_READ := "对方已读，无法撤回。"
  const NOT_FOUND := "Not found."

  /** The retract window, in seconds. */
  const RETRACT_WINDOW := 600

  /** `retract` as written: once the sender check passes, the age check
      names `timedelta`, which the module never imports, and the request
      fails with a server error before anything is deleted. */
  function RetractAsWritten(t: Tables, id: nat, user: User, now: int): Outcome {
    if id !in t.rows then Outcome(Reply(404, NOT_FOUND), t)
    else if t.rows[id].sender != Some(user.id) then Outcome(Reply(403, NOT_SENDER), t)
    else Outcome(Reply(500, "NameError: name 'timedelta' is not defined"), t)
  }

  /** `retract` with the window in place: the sender may delete an unread
      message during its first ten minutes. */
  function Retract(t: Tables, id: nat, user: User, now: int): Outcome {
    if id !in t.rows then Outcome(Reply(404, NOT_FOUND), t)
    else if t.rows[id].sender != Some(user.id) then Outcome(Reply(403, NOT_SENDER), t)
    else if now - t.rows[id].timestamp > RETRACT_WINDOW then Outcome(Reply(400, TOO_LATE), t)
    else if t.rows[id].isRead then Outcome(Reply(400, ALREADY_READ), t)
    else Outcome(Reply(204, ""), t.(rows := t.rows - {id}))
  }

  /** As written, no retract ever succeeds: a fresh unread message of the
      caller's own is answered with a server error and stays. */
  lemma RetractNeverDeletes(t: Tables, id: nat, user: User, now: int)
    ensures RetractAsWritten(t, id, user, now).tables == t
    ensures id in t.rows && t.rows[id].sender == Some(user.id) ==> RetractAsWritten(t, id, user, now).reply.status == 500
  {
  }

  /** With the window in place, a message is deleted exactly when the
      caller sent it, it is at most ten minutes old and still unread;
      nothing else changes. */
  lemma RetractRules(t: Tables, id: nat, user: User, now: int)
    ensures var o := Retract(t, id, user, now);
      (o.reply.status == 204 <==>
        id in t.rows && t.rows[id].sender == Some(user.id) && now - t.rows[id].timestamp <= RETRACT_WINDOW && !t.rows[id].isRead) &&
      (o.reply.status == 204 ==> o.tables.rows == t.rows - {id} && id !in o.tables.rows) &&
      (o.reply.status != 204 ==> o.tables == t) &&
      o.tables.blocks == t.blocks && o.tables.settings == t.settings
  {
  }

  const LOADED := "已加载"
  const NOT_ALLOWED := "您没有权限执行此操作。"

  /** `mark_read`: the sender's call changes nothing, anyone but the
      recipient is refused, and the recipient's marks the row read. */
  function MarkRead(t: Tables, id: nat, user: User, now: int): Outcome {
    if id !in t.rows then Outcome(Reply(404, NOT_FOUND), t)
    else if t.rows[id].sender == Some(user.id) then Outcome(Reply(200, LOADED), t)
    else if t.rows[id].recipient != user.id then Outcome(Reply(403, NOT_ALLOWED), t)
    else Outcome(Reply(200, ""), t.(rows := t.rows[id := MarkedRead(t.rows[id], now)]))
  }

  /** Only the recipient's call changes anything, it changes only that
      row's read state, and a repeated call, at any later time, changes
      nothing more. */
  lemma MarkReadRules(t: Tables, id: nat, user: User, now: int, later: int)
    ensures var o := MarkRead(t, id, user, now);
      (o.tables != t ==> id in t.rows && t.rows[id].recipient == user.id && t.rows[id].sender != Some(user.id) && !t.rows[id].isRead) &&
      (id in t.rows && t.rows[id].recipient == user.id && t.rows[id].sender != Some(user.id) ==>
        o.tables.rows[id].isRead && o.tables.rows.Keys == t.rows.Keys) &&
      MarkRead(o.tables, id, user, later).tables == o.tables
  {
  }

  const CANNOT_REPLY := "不能回复此通知。"
  const EMPTY_REPLY := "回复内容不能为空。"
  const REPLY_BLOCKED := "哦吼，被拉黑了"

  /** The title of a reply. */
  function ReplyTitle(parent: Notification): string {
    if parent.title.Some? && parent.title.value != "" then "回复: " + parent.title.value else "回复消息"
  }

  /** `reply_to_notification` by `user` to row `id` with the text sent.
      Senders are users (a deleted sender's rows lose their sender). */
  function ReplyTo(t: Tables, users: map<nat, User>, id: nat, user: User, content: Option<string>, newId: nat, now: int): Outcome
    requires id in t.rows && t.rows[id].sender.Some? ==> t.rows[id].sender.value in users
  {
    if id !in t.rows || t.rows[id].recipient != user.id then Outcome(Reply(404, NOT_FOUND), t)
    else
      var parent := t.rows[id];
      if !parent.canRecipientReply || parent.sender.None? then Outcome(Reply(400, CANNOT_REPLY), t)
      else if content.None? || content.value == "" then Outcome(Reply(400, EMPTY_REPLY), t)
      else
        var to := users[parent.sender.value];
        var t1 := WithSettings(t, to.id);
        if HasBlocked(t1.blocks, to.id, user.id) then Outcome(Reply(400, REPLY_BLOCKED), t1)
        else
          var answer := Notification(to.id, Some(user.id), PRIVATE_MESSAGE, Some(ReplyTitle(parent)), content.value, now,
                                     false, None, None, RecipientMayDelete(user, to), true, Some(id));
          Outcome(Reply(201, ""), t1.(rows := t1.rows[newId := answer][id := MarkedRead(parent, now)]))
  }

  /** A reply goes back to the original sender, points at the original,
      can itself be answered, and leaves the original read. It is refused
      when the original cannot be answered or has no sender, and when the
      original sender has blocked the replier; the sender's message
      policy is not consulted. */
  lemma ReplyRules(t: Tables, users: map<nat, User>, id: nat, user: User, content: Option<string>, newId: nat, now: int)
    requires id in t.rows && t.rows[id].sender.Some? ==> t.rows[id].sender.value in users
    requires KeyedById(users) && newId !in t.rows
    ensures var o := ReplyTo(t, users, id, user, content, newId, now);
      (o.reply.status == 201 <==>
        id in t.rows && t.rows[id].recipient == user.id && t.rows[id].canRecipientReply && t.rows[id].sender.Some? &&
        content.Some? && content.value != "" && !HasBlocked(t.blocks, t.rows[id].sender.value, user.id)) &&
      (o.reply.status == 201 ==>
        var n := o.tables.rows[newId];
        n.recipient == t.rows[id].sender.value && n.sender == Some(user.id) && n.parent == Some(id) &&
        n.kind == PRIVATE_MESSAGE && n.canRecipientReply && !n.isRead &&
        n.title == Some(ReplyTitle(t.rows[id])) && o.tables.rows[id].isRead) &&
      (o.reply.status != 201 ==> o.tables.rows == t.rows)
  {
    if id in t.rows && t.rows[id].recipient == user.id {
      assert newId != id;
    }
  }

  /** The reply gets through a policy that refuses every new message. */
  lemma ReplyIgnoresPolicy(t: Tables, users: map<nat, User>, id: nat, user: User, content: string, newId: nat, now: int)
    requires id in t.rows && t.rows[id].recipient == user.id && t.rows[id].canRecipientReply
    requires KeyedById(users) && t.rows[id].sender.Some? && t.rows[id].sender.value in users && newId !in t.rows
    requires content != "" && !HasBlocked(t.blocks, t.rows[id].sender.value, user.id)
    requires var s := t.rows[id].sender.value; s in t.settings && t.settings[s].policy == ContactsOnly
    ensures !CanSend(ContactsOnly, user, users[t.rows[id].sender.value])
    ensures ReplyTo(t, users, id, user, Some(content), newId, now).reply.status == 201
  {
  }

  const NO_SYSTEM_BLOCK := "不能屏蔽系统通知。"
  const NO_SUPERADMIN_BLOCK := "您不能屏蔽超级管理员。"
  const NO_STAFF_BLOCK := "学生不能屏蔽教职工。"
  const NO_ADMIN_BLOCK := "教师不能屏蔽管理员。"
  const NO_SELF_BLOCK := "您不能屏蔽自己。"

  /** The role rules of blocking, in order: a superadmin only by a
      superadmin, staff not by a student, an admin or superadmin not by a
      teacher, and nobody themself. `None` lets the block go ahead. */
  function BlockRefusal(blocker: User, target: User): Option<Reply> {
    if target.role == SUPERADMIN && blocker.role != SUPERADMIN then Some(Reply(403, NO_SUPERADMIN_BLOCK))
    else if blocker.role == STUDENT && IsStaffRole(target.role) then Some(Reply(403, NO_STAFF_BLOCK))
    else if blocker.role == TEACHER && (target.role == ADMIN || target.role == SUPERADMIN) then Some(Reply(403, NO_ADMIN_BLOCK))
    else if blocker.id == target.id then Some(Reply(400, NO_SELF_BLOCK))
    else None
  }

  /** `block_sender`: the recipient of row `id` blocks its sender. */
  function BlockSender(t: Tables, users: map<nat, User>, id: nat, user: User): Outcome
    requires id in t.rows && t.rows[id].sender.Some? ==> t.rows[id].sender.value in users
  {
    if id !in t.rows then Outcome(Reply(404, NOT_FOUND), t)
    else if t.rows[id].recipient != user.id then Outcome(Reply(403, NOT_ALLOWED), t)
    else if t.rows[id].sender.None? then Outcome(Reply(400, NO_SYSTEM_BLOCK), t)
    else
      var target := users[t.rows[id].sender.value];
      match BlockRefusal(user, target)
      case Some(refusal) => Outcome(refusal, t)
      case None =>
        if HasBlocked(t.blocks, user.id, target.id) then
          Outcome(Reply(200, "用户 " + target.username + " 已在您的黑名单中。"), t)
        else
          Outcome(Reply(201, "已成功屏蔽用户 " + target.username + "。"), t.(blocks := t.blocks + {Block(user.id, target.id)}))
  }

  /** Who may block whom: never oneself, a superadmin only by a
      superadmin, staff never by a student, admins never by a teacher. */
  lemma BlockRefusalTable(blocker: User, target: User)
    ensures BlockRefusal(blocker, target).None? <==>
      blocker.id != target.id &&
      (target.role == SUPERADMIN ==> blocker.role == SUPERADMIN) &&
      (blocker.role == STUDENT ==> !IsStaffRole(target.role)) &&
      (blocker.role == TEACHER ==> target.role != ADMIN && target.role != SUPERADMIN)
  {
  }

  /** A block adds at most the one pair (recipient, sender) and touches
      nothing else; repeating it creates nothing and reports that the
      sender is already blocked. */
  lemma BlockSenderIdempotent(t: Tables, users: map<nat, User>, id: nat, user: User)
    requires KeyedById(users)
    requires id in t.rows && t.rows[id].sender.Some? ==> t.rows[id].sender.value in users
    ensures var o := BlockSender(t, users, id, user);
      o.tables.rows == t.rows && o.tables.settings == t.settings &&
      (o.tables.blocks == t.blocks || (o.reply.status == 201 && o.tables.blocks == t.blocks + {Block(user.id, t.rows[id].sender.value)})) &&
      (o.reply.status == 201 ==>
        var again := BlockSender(o.tables, users, id, user);
        again.tables == o.tables && again.reply.status == 200)
  {
  }

  const STUDENT_POLICY := "学生不能设置此策略。"

  /** `perform_update` of the settings view, for the policy field. */
  function UpdatePolicy(t: Tables, user: User, policy: Option<MessagePolicy>): Outcome {
    if user.role == STUDENT && policy.Some? && (policy.value == StaffOnly || policy.value == SuperadminOnly) then
      Outcome(Reply(400, STUDENT_POLICY), t)
    else
      var t1 := WithSettings(t, user.id);
      var s := t1.settings[user.id];
      Outcome(Reply(200, ""), t1.(settings := t1.settings[user.id := if policy.Some? then s.(policy := policy.value) else s]))
  }

  /** A student can choose any policy but the two staff ones; everyone
      else can choose any; the chosen policy is the one then stored. */
  lemma UpdatePolicyRules(t: Tables, user: User, p: MessagePolicy)
    ensures var o := UpdatePolicy(t, user, Some(p));
      (o.reply.status == 400 <==> user.role == STUDENT && (p == StaffOnly || p == SuperadminOnly)) &&
      (o.reply.status == 200 ==> user.id in o.tables.settings && o.tables.settings[user.id].policy == p) &&
      o.tables.rows == t.rows && o.tables.blocks == t.blocks
  {
  }
}
