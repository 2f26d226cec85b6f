/** The chat views (backend/chatroom/views.py): the rooms and history a
    member sees, file uploads, and the administrators' and members' own
    changes to membership and message rows. */
module ChatroomViews {
  import opened Wrappers
  import opened Text
  import opened Accounts
  import opened ChatroomModels

  datatype Reply = Reply(status: nat, detail: string)

  const NOT_FOUND := "Not found."
  const NO_FILE := "未提供文件。"
  const NOT_MEMBER := "您不是该聊天室成员或已被移出。"
  /** The answer to an upload by a user with no active membership. */
  const NOT_MEMBER_REPLY := Reply(403, NOT_MEMBER)
  const UPLOADING := "文件上传处理中..."
  const INVALID_ROLE := "无效的角色。"
  const TEACHER_ROLE_FIXED := "不能修改教师的管理员状态。"
  const CANNOT_KICK := "不能移除教师或其他管理员。"
  const EMPTY_NICKNAME := "昵称不能为空。"
  const NO_MEMBERSHIP := "找不到您的成员信息。"
  /** The text a deleted message is left with. */
  const RETRACTED := "[该消息已被管理员撤回]"

  /** The user's active membership of the room, if any. */
  function ActiveMembership(members: seq<Membership>, room: nat, user: nat): (m: Option<Membership>)
    ensures m.Some? ==> m.value in members && m.value.room == room && m.value.user == user && m.value.isActive
    ensures m.None? <==> forall x :: x in members ==> x.room != room || x.user != user || !x.isActive
    decreases |members|
  {
    if |members| == 0 then None
    else if members[0].room == room && members[0].user == user && members[0].isActive then Some(members[0])
    else
      var m := ActiveMembership(members[1..], room, user);
      assert forall x :: x in members ==> x == members[0] || x in members[1..];
      m
  }

  /** `ChatRoomViewSet.get_queryset`: the rooms the user is an active
      member of. */
  function MemberRooms(rooms: seq<Room>, members: seq<Membership>, user: nat): (r: seq<Room>)
    ensures forall x :: x in r <==> x in rooms && ActiveMembership(members, x.id, user).Some?
    decreases |rooms|
  {
    if |rooms| == 0 then []
    else
      var rest := MemberRooms(rooms[1..], members, user);
      assert forall x :: x in rooms ==> x == rooms[0] || x in rooms[1..];
      if ActiveMembership(members, rooms[0].id, user).Some? then [rooms[0]] + rest else rest
  }

  /** `message_type` of an upload: image, else video, else file, by what
      the content type mentions. */
  function UploadKind(contentType: string): (kind: string)
    ensures kind == "image" <==> Contains(contentType, "image")
    ensures kind == "video" <==> !Contains(contentType, "image") && Contains(contentType, "video")
    ensures kind == "file" <==> !Contains(contentType, "image") && !Contains(contentType, "video")
  {
    if Contains(contentType, "image") then "image"
    else if Contains(contentType, "video") then "video"
    else "file"
  }

  /** An uploaded file; one with an empty name counts as no file. */
  datatype UploadedFile = UploadedFile(name: string, contentType: string)

  /** The processing job queued for an upload. */
  datatype UploadJob = UploadJob(messageId: nat, fileName: string, contentType: string)

  datatype UploadOutcome =
    | UploadRefused(reply: Reply)
    | UploadAccepted(reply: Reply, message: ChatMessage, job: UploadJob)

  /** `upload_file` in room `room` by `user` at time `now`; `newId` is the
      placeholder message's id. The room lookup goes through the member's
      rooms, so a non-member gets 404 before anything else is checked. */
  function UploadFile(members: seq<Membership>, room: nat, user: nat, file: Option<UploadedFile>,
                      newId: nat, now: int): UploadOutcome
  {
    if ActiveMembership(members, room, user).None? then UploadRefused(Reply(404, NOT_FOUND))
    else if file.None? || file.value.name == "" then UploadRefused(Reply(400, NO_FILE))
    else match ActiveMembership(members, room, user)
      case None => UploadRefused(NOT_MEMBER_REPLY)
      case Some(member) =>
        var f := file.value;
        var placeholder := ChatMessage(newId, room, Some(member.id), UploadKind(f.contentType),
                                       "正在上传文件: " + f.name + "...", Some(f.name), now, false);
        UploadAccepted(Reply(202, UPLOADING), placeholder, UploadJob(newId, f.name, f.contentType))
  }

  /** An upload is accepted exactly for an active member sending a named
      file: the placeholder message is stored under that membership with
      the file's kind and name, and the job refers to it. The 403 answer
      is never given. */
  lemma UploadRules(members: seq<Membership>, room: nat, user: nat, file: Option<UploadedFile>, newId: nat, now: int)
    ensures var r := UploadFile(members, room, user, file, newId, now);
      (r.UploadAccepted? <==> ActiveMembership(members, room, user).Some? && file.Some? && file.value.name != "") &&
      (r.UploadRefused? ==> r.reply.status == 404 || r.reply.status == 400) &&
      (ActiveMembership(members, room, user).None? ==> r == UploadRefused(Reply(404, NOT_FOUND))) &&
      (r.UploadAccepted? ==>
        r.reply.status == 202 && r.message.id == newId && r.message.room == room &&
        r.message.kind == UploadKind(file.value.contentType) && r.message.fileOriginalName == Some(file.value.name) &&
        !r.message.isDeleted && r.message.timestamp == now &&
        (exists m :: m in members && m.room == room && m.user == user && m.isActive && r.message.author == Some(m.id)) &&
        r.job == UploadJob(newId, file.value.name, file.value.contentType))
  {
  }

  /** The room's messages that are not deleted, in table order. */
  function RoomHistory(messages: seq<ChatMessage>, room: nat): (r: seq<ChatMessage>)
    ensures forall x :: x in r <==> x in messages && x.room == room && !x.isDeleted
    ensures multiset(r) <= multiset(messages)
    decreases |messages|
  {
    if |messages| == 0 then []
    else
      var rest := RoomHistory(messages[1..], room);
      assert messages == [messages[0]] + messages[1..];
      assert forall x :: x in messages ==> x == messages[0] || x in messages[1..];
      if messages[0].room == room && !messages[0].isDeleted then [messages[0]] + rest else rest
  }

  predicate NewestFirst(s: seq<ChatMessage>) {
    forall i, j :: 0 <= i < j < |s| ==> s[i].timestamp >= s[j].timestamp
  }

  /** `m` put into `s` before the first message no newer than it. */
  function InsertByTime(m: ChatMessage, s: seq<ChatMessage>): seq<ChatMessage>
    decreases |s|
  {
    if |s| == 0 then [m]
    else if m.timestamp >= s[0].timestamp then [m] + s
    else [s[0]] + InsertByTime(m, s[1..])
  }

  /** `order_by('-timestamp')` (an insertion sort). */
  function SortNewestFirst(s: seq<ChatMessage>): seq<ChatMessage>
    decreases |s|
  {
    if |s| == 0 then [] else InsertByTime(s[|s| - 1], SortNewestFirst(s[..|s| - 1]))
  }

  lemma {:induction false} InsertByTimeElements(m: ChatMessage, s: seq<ChatMessage>)
    ensures multiset(InsertByTime(m, s)) == multiset(s) + multiset{m}
    ensures forall x :: x in InsertByTime(m, s) <==> x == m || x in s
    decreases |s|
  {
    if |s| > 0 {
      assert s == [s[0]] + s[1..];
      if m.timestamp < s[0].timestamp {
        InsertByTimeElements(m, s[1..]);
      }
    }
  }

  lemma {:induction false} InsertByTimeSorted(m: ChatMessage, s: seq<ChatMessage>)
    requires NewestFirst(s)
    ensures NewestFirst(InsertByTime(m, s))
    decreases |s|
  {
    if |s| > 0 && m.timestamp < s[0].timestamp {
      InsertByTimeSorted(m, s[1..]);
      InsertByTimeElements(m, s[1..]);
      var rest := InsertByTime(m, s[1..]);
      var r := [s[0]] + rest;
      forall i, j | 0 <= i < j < |r| ensures r[i].timestamp >= r[j].timestamp {
        assert r[j] == rest[j - 1];
        assert rest[j - 1] in rest;
        if i > 0 {
          assert r[i] == rest[i - 1];
        }
      }
    }
  }

  lemma {:induction false} SortNewestFirstElements(s: seq<ChatMessage>)
    ensures multiset(SortNewestFirst(s)) == multiset(s)
    ensures forall x :: x in SortNewestFirst(s) <==> x in s
    decreases |s|
  {
    if |s| > 0 {
      var init := s[..|s| - 1];
      SortNewestFirstElements(init);
      InsertByTimeElements(s[|s| - 1], SortNewestFirst(init));
      assert s == init + [s[|s| - 1]];
    }
  }

  lemma {:induction false} SortNewestFirstSorted(s: seq<ChatMessage>)
    ensures NewestFirst(SortNewestFirst(s))
    decreases |s|
  {
    if |s| > 0 {
      SortNewestFirstSorted(s[..|s| - 1]);
      InsertByTimeSorted(s[|s| - 1], SortNewestFirst(s[..|s| - 1]));
    }
  }

  datatype Listing<T> = Denied(reply: Reply) | Listed(rows: seq<T>)

  /** `list_messages`: the room's live messages, newest first, for an
      active member; 404 for anyone else. */
  function ListMessages(messages: seq<ChatMessage>, members: seq<Membership>, room: nat, user: nat): Listing<ChatMessage> {
    if ActiveMembership(members, room, user).None? then Denied(Reply(404, NOT_FOUND))
    else Listed(SortNewestFirst(RoomHistory(messages, room)))
  }

  /** Only active members read the history; it holds each live message of
      the room as often as the table does, no deleted message and no
      other room's, newest first. */
  lemma ListMessagesRules(messages: seq<ChatMessage>, members: seq<Membership>, room: nat, user: nat)
    ensures var r := ListMessages(messages, members, room, user);
      (r.Listed? <==> exists m :: m in members && m.room == room && m.user == user && m.isActive) &&
      (r.Listed? ==>
        multiset(r.rows) == multiset(RoomHistory(messages, room)) && NewestFirst(r.rows) &&
        (forall x :: x in r.rows <==> x in messages && x.room == room && !x.isDeleted))
  {
    SortNewestFirstElements(RoomHistory(messages, room));
    SortNewestFirstSorted(RoomHistory(messages, room));
  }

  /** The room's active members, in table order. */
  function ActiveMembers(members: seq<Membership>, room: nat): (r: seq<Membership>)
    ensures forall x :: x in r <==> x in members && x.room == room && x.isActive
    decreases |members|
  {
    if |members| == 0 then []
    else
      var rest := ActiveMembers(members[1..], room);
      assert forall x :: x in members ==> x == members[0] || x in members[1..];
      if members[0].room == room && members[0].isActive then [members[0]] + rest else rest
  }

  /** `list_members`: the active members, for an active member. */
  function ListMembers(members: seq<Membership>, room: nat, user: nat): (r: Listing<Membership>)
    ensures r.Listed? <==> ActiveMembership(members, room, user).Some?
    ensures r.Listed? ==> forall x :: x in r.rows <==> x in members && x.room == room && x.isActive
    ensures r.Denied? ==> r.reply.status == 404
  {
    if ActiveMembership(members, room, user).None? then Denied(Reply(404, NOT_FOUND))
    else Listed(ActiveMembers(members, room))
  }

  /** A membership row, changed in place by the administrators' actions
      and by the member's own nickname change. `account` is the member's
      user, whose role the checks read. */
  class MemberRow {
    const id: nat
    const room: nat
    const account: User
    var nickname: string
    var role: string
    var isActive: bool

    function Value(): Membership
      reads this
    {
      Membership(id, room, account.id, nickname, role, isActive)
    }

    constructor (m: Membership, account: User)
      requires m.user == account.id
      ensures Value() == m && this.account == account
    {
      id := m.id;
      room := m.room;
      this.account := account;
      nickname := m.nickname;
      role := m.role;
      isActive := m.isActive;
    }
  }

  /** A moderation answer and the row it leaves. */
  datatype Moderated = Moderated(reply: Reply, row: Membership)

  /** `set_member_role` on row `m` of a user with role `accountRole`. */
  function RoleSet(m: Membership, accountRole: string, newRole: Option<string>): Moderated {
    if newRole.None? || newRole.value !in ROOM_ROLES then Moderated(Reply(400, INVALID_ROLE), m)
    else if accountRole == TEACHER then Moderated(Reply(403, TEACHER_ROLE_FIXED), m)
    else Moderated(Reply(200, ""), m.(role := newRole.value))
  }

  /** `kick_member` on row `m` of a user with role `accountRole`. */
  function Kicked(m: Membership, accountRole: string): Moderated {
    if accountRole == TEACHER || m.role == ROOM_ADMIN then Moderated(Reply(403, CANNOT_KICK), m)
    else Moderated(Reply(204, ""), m.(isActive := false))
  }

  /** A role change succeeds exactly for `admin` or `member` on a
      non-teacher and then changes the role only; otherwise the row stays. */
  lemma RoleSetRules(m: Membership, accountRole: string, newRole: Option<string>)
    ensures var r := RoleSet(m, accountRole, newRole);
      (r.reply.status == 200 <==> newRole.Some? && newRole.value in ROOM_ROLES && accountRole != TEACHER) &&
      (r.reply.status == 200 ==> r.row == m.(role := newRole.value) && r.row.role in ROOM_ROLES) &&
      (r.reply.status != 200 ==> r.row == m) &&
      (newRole.Some? && newRole.value in ROOM_ROLES && accountRole == TEACHER ==> r.reply.status == 403)
  {
  }

  /** Teachers and administrators are never kicked; a kick of anyone else
      keeps the row and only marks it inactive. */
  lemma KickedRules(m: Membership, accountRole: string)
    ensures var r := Kicked(m, accountRole);
      (r.reply.status == 204 <==> accountRole != TEACHER && m.role != ROOM_ADMIN) &&
      (r.reply.status == 204 ==> r.row == m.(isActive := false)) &&
      (r.reply.status != 204 ==> r.row == m)
  {
  }

  /** An administrator's action on a membership row. */
  datatype Moderation = SetRole(newRole: Option<string>) | Kick

  /** The row after a series of actions. */
  function Moderate(m: Membership, accountRole: string, actions: seq<Moderation>): Membership
    decreases |actions|
  {
    if |actions| == 0 then m
    else
      var next := match actions[0]
        case SetRole(r) => RoleSet(m, accountRole, r).row
        case Kick => Kicked(m, accountRole).row;
      Moderate(next, accountRole, actions[1..])
  }

  /** No series of administrator actions changes a teacher's row. */
  lemma {:induction false} TeacherRowIsFixed(m: Membership, accountRole: string, actions: seq<Moderation>)
    requires accountRole == TEACHER
    ensures Moderate(m, accountRole, actions) == m
    decreases |actions|
  {
    if |actions| > 0 {
      TeacherRowIsFixed(m, accountRole, actions[1..]);
    }
  }

  /** Kicks alone never touch an administrator's row, and leave any other
      row inactive but present. */
  lemma {:induction false} KicksOnly(m: Membership, accountRole: string, actions: seq<Moderation>)
    requires forall i :: 0 <= i < |actions| ==> actions[i] == Kick
    ensures accountRole == TEACHER || m.role == ROOM_ADMIN ==> Moderate(m, accountRole, actions) == m
    ensures (accountRole != TEACHER && m.role != ROOM_ADMIN && |actions| > 0 ==>
      Moderate(m, accountRole, actions) == m.(isActive := false))
    decreases |actions|
  {
    if |actions| > 0 {
      var next := Kicked(m, accountRole).row;
      KicksOnly(next, accountRole, actions[1..]);
      if accountRole != TEACHER && m.role != ROOM_ADMIN && |actions| > 1 {
        assert next.role == m.role;
        assert next.(isActive := false) == m.(isActive := false);
      }
    }
  }

  /** `set_member_role` on the row the URL names (`null`: no such row in
      the room). */
  method SetMemberRole(row: MemberRow?, newRole: Option<string>) returns (reply: Reply)
    modifies row
    ensures row == null ==> reply == Reply(404, NOT_FOUND)
    ensures (row != null ==>
      reply == RoleSet(old(row.Value()), row.account.role, newRole).reply &&
      row.Value() == RoleSet(old(row.Value()), row.account.role, newRole).row)
  {
    if row == null {
      return Reply(404, NOT_FOUND);
    }
    if newRole.None? || newRole.value !in ROOM_ROLES {
      return Reply(400, INVALID_ROLE);
    }
    if row.account.role == TEACHER {
      return Reply(403, TEACHER_ROLE_FIXED);
    }
    row.role := newRole.value;
    reply := Reply(200, "");
  }

  /** `kick_member` on the row the URL names. */
  method KickMember(row: MemberRow?) returns (reply: Reply)
    modifies row
    ensures row == null ==> reply == Reply(404, NOT_FOUND)
    ensures (row != null ==>
      reply == Kicked(old(row.Value()), row.account.role).reply &&
      row.Value() == Kicked(old(row.Value()), row.account.role).row)
  {
    if row == null {
      return Reply(404, NOT_FOUND);
    }
    if row.account.role == TEACHER || row.role == ROOM_ADMIN {
      return Reply(403, CANNOT_KICK);
    }
    row.isActive := false;
    reply := Reply(204, "");
  }

  /** The member's own nickname change; `row` is the user's row in the
      room, active or not (`null`: none). An empty nickname is refused
      before the row is looked up. */
  method UpdateNickname(row: MemberRow?, nickname: Option<string>) returns (reply: Reply)
    modifies row
    ensures nickname.None? || nickname.value == "" ==> reply == Reply(400, EMPTY_NICKNAME)
    ensures nickname.Some? && nickname.value != "" && row == null ==> reply == Reply(404, NO_MEMBERSHIP)
    ensures (nickname.Some? && nickname.value != "" && row != null ==>
      reply.status == 200 && row.Value() == old(row.Value()).(nickname := nickname.value))
    ensures reply.status != 200 && row != null ==> row.Value() == old(row.Value())
  {
    if nickname.None? || nickname.value == "" {
      return Reply(400, EMPTY_NICKNAME);
    }
    if row == null {
      return Reply(404, NO_MEMBERSHIP);
    }
    row.nickname := nickname.value;
    reply := Reply(200, "");
  }

  /** A message row as `delete_message` changes it. */
  class MessageRow {
    var content: string
    var isDeleted: bool

    constructor (content: string, isDeleted: bool)
      ensures this.content == content && this.isDeleted == isDeleted
    {
      this.content := content;
      this.isDeleted := isDeleted;
    }
  }

  /** The stored message after an administrator deletes it. */
  function Retracted(m: ChatMessage): ChatMessage {
    m.(isDeleted := true, content := RETRACTED)
  }

  /** `delete_message`: soft, the row stays with a fixed notice. */
  method DeleteMessage(row: MessageRow?) returns (reply: Reply)
    modifies row
    ensures row == null ==> reply == Reply(404, NOT_FOUND)
    ensures row != null ==> reply == Reply(204, "") && row.isDeleted && row.content == RETRACTED
  {
    if row == null {
      return Reply(404, NOT_FOUND);
    }
    row.isDeleted := true;
    row.content := RETRACTED;
    reply := Reply(204, "");
  }

  /** A deleted message leaves every member's history, and the others
      stay. */
  lemma RetractedLeavesHistory(messages: seq<ChatMessage>, i: nat, room: nat)
    requires i < |messages|
    ensures Retracted(messages[i]) !in RoomHistory(messages[i := Retracted(messages[i])], room)
    ensures (forall x :: x in RoomHistory(messages, room) && x !in messages[..i] + messages[i + 1..] ==>
      x == messages[i])
  {
    var after := messages[i := Retracted(messages[i])];
    assert forall x :: x in messages ==> x in messages[..i] + messages[i + 1..] || x == messages[i] by {
      assert messages == messages[..i] + [messages[i]] + messages[i + 1..];
    }
  }
}
