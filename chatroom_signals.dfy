/** Rooms for teaching assignments: the hook that opens a room when an
    assignment of a teacher to a course and class is created
    (backend/chatroom/signals.py), and the command that opens the missing
    rooms of existing assignments
    (backend/chatroom/management/commands/create_chatrooms_for_existing_tcc.py). */
module ChatroomSignals {
  import opened Wrappers
  import opened Accounts
  import opened CourseModels
  import opened ChatroomModels

  /** A teaching assignment with its teacher's account. */
  datatype Teaching = Teaching(tcc: TeacherCourseClass, teacher: User)

  /** "<course> - <class> 交流群". */
  function RoomName(tcc: TeacherCourseClass): string {
    tcc.courseName + " - " + tcc.className + " 交流群"
  }

  /** The teacher's nickname: the name, or "<username>(老师)" without one. */
  function TeacherNickname(teacher: User): (nick: string)
    ensures teacher.name.Some? && teacher.name.value != "" ==> nick == teacher.name.value
    ensures teacher.name.None? || teacher.name.value == "" ==> nick == teacher.username + "(老师)"
  {
    if teacher.name.Some? && teacher.name.value != "" then teacher.name.value else teacher.username + "(老师)"
  }

  /** The students of a class, active or not, in table order. */
  function ClassStudents(users: seq<User>, classId: nat): (r: seq<User>)
    ensures forall u :: u in r <==> u in users && u.role == STUDENT && u.classEnrolled == Some(classId)
    decreases |users|
  {
    if |users| == 0 then []
    else
      var rest := ClassStudents(users[1..], classId);
      assert forall u :: u in users ==> u == users[0] || u in users[1..];
      if users[0].role == STUDENT && users[0].classEnrolled == Some(classId) then [users[0]] + rest else rest
  }

  /** The member rows of `students` in room `room`, ids from `firstId` on;
      `nickname` stands for the random nickname drawn for each new row id. */
  function StudentRows(students: seq<User>, room: nat, firstId: nat, nickname: nat -> string): seq<Membership>
    decreases |students|
  {
    if |students| == 0 then []
    else [Membership(firstId, room, students[0].id, nickname(firstId), ROOM_MEMBER, true)]
         + StudentRows(students[1..], room, firstId + 1, nickname)
  }

  /** One active member row per student, in order, with consecutive ids. */
  lemma {:induction false} StudentRowsShape(students: seq<User>, room: nat, firstId: nat, nickname: nat -> string)
    ensures var rows := StudentRows(students, room, firstId, nickname);
      |rows| == |students| &&
      forall k :: 0 <= k < |rows| ==>
        rows[k] == Membership(firstId + k, room, students[k].id, nickname(firstId + k), ROOM_MEMBER, true)
    decreases |students|
  {
    if |students| > 0 {
      StudentRowsShape(students[1..], room, firstId + 1, nickname);
    }
  }

  /** The membership rows a new room starts with: its teacher as
      administrator, then every student of the class as a member; ids from
      `firstId` on. */
  function InitialRows(t: Teaching, room: nat, firstId: nat, users: seq<User>, nickname: nat -> string): seq<Membership> {
    [Membership(firstId, room, t.teacher.id, TeacherNickname(t.teacher), ROOM_ADMIN, true)]
    + StudentRows(ClassStudents(users, t.tcc.classId), room, firstId + 1, nickname)
  }

  /** The tables after a room is opened for `t`. */
  function WithRoom(c: Chat, t: Teaching, users: seq<User>, nickname: nat -> string): Chat {
    Chat(c.rooms + [Room(c.nextRoomId, t.tcc.id, RoomName(t.tcc), false)],
         c.members + InitialRows(t, c.nextRoomId, c.nextMemberId, users, nickname),
         c.nextRoomId + 1, c.nextMemberId + 1 + |ClassStudents(users, t.tcc.classId)|)
  }

  /** A new room starts with one active administrator row for the teacher
      and one active member row per student of the class, in order. */
  lemma InitialRowsRules(t: Teaching, room: nat, firstId: nat, users: seq<User>, nickname: nat -> string)
    ensures var rows := InitialRows(t, room, firstId, users, nickname);
      var students := ClassStudents(users, t.tcc.classId);
      |rows| == 1 + |students| &&
      rows[0] == Membership(firstId, room, t.teacher.id, TeacherNickname(t.teacher), ROOM_ADMIN, true) &&
      (forall k :: 1 <= k < |rows| ==>
        rows[k].room == room && rows[k].role == ROOM_MEMBER && rows[k].isActive && rows[k].user == students[k - 1].id)
  {
    var students := ClassStudents(users, t.tcc.classId);
    var tail := StudentRows(students, room, firstId + 1, nickname);
    StudentRowsShape(students, room, firstId + 1, nickname);
    var rows := InitialRows(t, room, firstId, users, nickname);
    forall k | 1 <= k < |rows| ensures rows[k] == tail[k - 1] {
    }
  }

  /** Every student of the class, and no one else, gets a member row. */
  lemma InitialRowsStudents(t: Teaching, room: nat, firstId: nat, users: seq<User>, nickname: nat -> string)
    ensures var rows := InitialRows(t, room, firstId, users, nickname);
      (forall u :: u in users && u.role == STUDENT && u.classEnrolled == Some(t.tcc.classId) ==>
        exists k :: 1 <= k < |rows| && rows[k].user == u.id) &&
      (forall k :: 1 <= k < |rows| ==>
        exists u :: u in users && u.role == STUDENT && u.classEnrolled == Some(t.tcc.classId) && rows[k].user == u.id)
  {
    var students := ClassStudents(users, t.tcc.classId);
    InitialRowsRules(t, room, firstId, users, nickname);
    var rows := InitialRows(t, room, firstId, users, nickname);
    forall u | u in users && u.role == STUDENT && u.classEnrolled == Some(t.tcc.classId)
      ensures exists k :: 1 <= k < |rows| && rows[k].user == u.id
    {
      var j :| 0 <= j < |students| && students[j] == u;
      assert rows[j + 1].user == u.id;
    }
    forall k | 1 <= k < |rows|
      ensures exists u :: u in users && u.role == STUDENT && u.classEnrolled == Some(t.tcc.classId) && rows[k].user == u.id
    {
      assert students[k - 1] in students;
    }
  }

  /** Opening a room adds one room, named after the course and class, and
      its initial rows; nothing already stored changes. */
  lemma WithRoomRules(c: Chat, t: Teaching, users: seq<User>, nickname: nat -> string)
    ensures var after := WithRoom(c, t, users, nickname);
      after.rooms == c.rooms + [Room(c.nextRoomId, t.tcc.id, RoomName(t.tcc), false)] &&
      after.members[..|c.members|] == c.members &&
      after.members[|c.members|..] == InitialRows(t, c.nextRoomId, c.nextMemberId, users, nickname) &&
      after.nextMemberId == c.nextMemberId + |InitialRows(t, c.nextRoomId, c.nextMemberId, users, nickname)|
  {
    InitialRowsRules(t, c.nextRoomId, c.nextMemberId, users, nickname);
  }

  /** Opens the room of `t` in the tables. */
  method AddRoom(tables: ChatTables, t: Teaching, users: seq<User>, nickname: nat -> string)
    modifies tables
    ensures tables.State() == WithRoom(old(tables.State()), t, users, nickname)
  {
    var room := Room(tables.nextRoomId, t.tcc.id, RoomName(t.tcc), false);
    tables.rooms := tables.rooms + [room];
    tables.nextRoomId := tables.nextRoomId + 1;
    var admin := Membership(tables.nextMemberId, room.id, t.teacher.id, TeacherNickname(t.teacher), ROOM_ADMIN, true);
    tables.members := tables.members + [admin];
    tables.nextMemberId := tables.nextMemberId + 1;
    var students := ClassStudents(users, t.tcc.classId);
    tables.members := tables.members + StudentRows(students, room.id, tables.nextMemberId, nickname);
    tables.nextMemberId := tables.nextMemberId + |students|;
  }

  /** `create_chat_room_for_tcc`: a room only for a newly created
      assignment; a save of an existing one changes nothing. */
  method CreateChatRoomForTcc(tables: ChatTables, t: Teaching, created: bool, users: seq<User>, nickname: nat -> string)
    modifies tables
    ensures tables.State() == if created then WithRoom(old(tables.State()), t, users, nickname) else old(tables.State())
  {
    if created {
      AddRoom(tables, t, users, nickname);
    }
  }

  /** Some room belongs to assignment `tcc`. */
  predicate HasRoom(rooms: seq<Room>, tcc: nat) {
    exists r :: r in rooms && r.tcc == tcc
  }

  /** No assignment has two rooms. */
  predicate OneRoomPerTcc(rooms: seq<Room>) {
    forall i, j :: 0 <= i < j < |rooms| ==> rooms[i].tcc != rooms[j].tcc
  }

  predicate DistinctTccs(ts: seq<Teaching>) {
    forall i, j :: 0 <= i < j < |ts| ==> ts[i].tcc.id != ts[j].tcc.id
  }

  /** The assignments without a room, in order. */
  function Unroomed(rooms: seq<Room>, ts: seq<Teaching>): (r: seq<Teaching>)
    ensures forall t :: t in r <==> t in ts && !HasRoom(rooms, t.tcc.id)
    decreases |ts|
  {
    if |ts| == 0 then []
    else
      var rest := Unroomed(rooms, ts[1..]);
      assert forall t :: t in ts ==> t == ts[0] || t in ts[1..];
      if !HasRoom(rooms, ts[0].tcc.id) then [ts[0]] + rest else rest
  }

  lemma PrependDistinct(t: Teaching, rest: seq<Teaching>)
    requires DistinctTccs(rest)
    requires forall x :: x in rest ==> x.tcc.id != t.tcc.id
    ensures DistinctTccs([t] + rest)
  {
    var r := [t] + rest;
    forall i, j | 0 <= i < j < |r| ensures r[i].tcc.id != r[j].tcc.id {
      assert r[j] == rest[j - 1];
      if i > 0 {
        assert r[i] == rest[i - 1];
      }
    }
  }

  lemma {:induction false} UnroomedDistinct(rooms: seq<Room>, ts: seq<Teaching>)
    requires DistinctTccs(ts)
    ensures DistinctTccs(Unroomed(rooms, ts))
    decreases |ts|
  {
    if |ts| > 0 {
      var tail := ts[1..];
      assert forall i, j :: 0 <= i < j < |tail| ==> tail[i] == ts[i + 1] && tail[j] == ts[j + 1];
      UnroomedDistinct(rooms, tail);
      if !HasRoom(rooms, ts[0].tcc.id) {
        forall x | x in Unroomed(rooms, tail) ensures x.tcc.id != ts[0].tcc.id {
          var k :| 0 <= k < |tail| && tail[k] == x;
          assert ts[k + 1] == x;
        }
        PrependDistinct(ts[0], Unroomed(rooms, tail));
      }
    }
  }

  /** The tables after rooms are opened for `ts`, in order. */
  function WithRooms(c: Chat, ts: seq<Teaching>, users: seq<User>, nickname: nat -> string): Chat
    decreases |ts|
  {
    if |ts| == 0 then c
    else WithRoom(WithRooms(c, ts[..|ts| - 1], users, nickname), ts[|ts| - 1], users, nickname)
  }

  /** One room per assignment, appended in order. */
  lemma {:induction false} WithRoomsRooms(c: Chat, ts: seq<Teaching>, users: seq<User>, nickname: nat -> string)
    ensures var rooms := WithRooms(c, ts, users, nickname).rooms;
      |rooms| == |c.rooms| + |ts| && rooms[..|c.rooms|] == c.rooms &&
      forall k :: 0 <= k < |ts| ==> rooms[|c.rooms| + k].tcc == ts[k].tcc.id && rooms[|c.rooms| + k].name == RoomName(ts[k].tcc)
    decreases |ts|
  {
    if |ts| > 0 {
      var init := ts[..|ts| - 1];
      var last := ts[|ts| - 1];
      var before := WithRooms(c, init, users, nickname);
      WithRoomsRooms(c, init, users, nickname);
      var room := Room(before.nextRoomId, last.tcc.id, RoomName(last.tcc), false);
      var rooms := before.rooms + [room];
      assert WithRooms(c, ts, users, nickname).rooms == rooms;
      forall k | 0 <= k < |ts|
        ensures rooms[|c.rooms| + k].tcc == ts[k].tcc.id && rooms[|c.rooms| + k].name == RoomName(ts[k].tcc)
      {
        if k < |init| {
          assert rooms[|c.rooms| + k] == before.rooms[|c.rooms| + k];
          assert init[k] == ts[k];
        }
      }
      assert rooms[..|c.rooms|] == before.rooms[..|c.rooms|];
    }
  }

  lemma WithRoomsStep(c: Chat, ts: seq<Teaching>, i: nat, users: seq<User>, nickname: nat -> string)
    requires i < |ts|
    ensures WithRooms(c, ts[..i + 1], users, nickname) == WithRoom(WithRooms(c, ts[..i], users, nickname), ts[i], users, nickname)
  {
    assert ts[..i + 1][..i] == ts[..i];
  }

  /** `Command.handle`: a room for every assignment without one, counted.
      When every assignment has a room nothing is written. */
  method Backfill(tables: ChatTables, ts: seq<Teaching>, users: seq<User>, nickname: nat -> string)
    returns (createdCount: nat)
    modifies tables
    ensures createdCount == |Unroomed(old(tables.rooms), ts)|
    ensures tables.State() == WithRooms(old(tables.State()), Unroomed(old(tables.rooms), ts), users, nickname)
  {
    var pending := Unroomed(tables.rooms, ts);
    if |pending| == 0 {
      return 0;
    }
    createdCount := 0;
    for i := 0 to |pending|
      invariant createdCount == i
      invariant tables.State() == WithRooms(old(tables.State()), pending[..i], users, nickname)
    {
      WithRoomsStep(old(tables.State()), pending, i, users, nickname);
      AddRoom(tables, pending[i], users, nickname);
      createdCount := createdCount + 1;
    }
    assert pending[..|pending|] == pending;
  }

  /** After the backfill every assignment has a room, and a second run
      finds nothing to do. */
  lemma BackfillCovers(c: Chat, ts: seq<Teaching>, users: seq<User>, nickname: nat -> string)
    ensures var after := WithRooms(c, Unroomed(c.rooms, ts), users, nickname);
      (forall t :: t in ts ==> HasRoom(after.rooms, t.tcc.id)) && Unroomed(after.rooms, ts) == [] &&
      |after.rooms| == |c.rooms| + |Unroomed(c.rooms, ts)|
  {
    var pending := Unroomed(c.rooms, ts);
    var rooms := WithRooms(c, pending, users, nickname).rooms;
    WithRoomsRooms(c, pending, users, nickname);
    var n := |c.rooms|;
    forall t | t in ts ensures HasRoom(rooms, t.tcc.id) {
      if HasRoom(c.rooms, t.tcc.id) {
        var r :| r in c.rooms && r.tcc == t.tcc.id;
        assert r in rooms[..n];
      } else {
        var k :| 0 <= k < |pending| && pending[k] == t;
        assert rooms[n + k] in rooms;
      }
    }
    UnroomedEmpty(rooms, ts);
  }

  /** The backfill gives no assignment a second room, when none had two
      before and the assignments are distinct. */
  lemma BackfillOneRoom(c: Chat, ts: seq<Teaching>, users: seq<User>, nickname: nat -> string)
    requires OneRoomPerTcc(c.rooms) && DistinctTccs(ts)
    ensures OneRoomPerTcc(WithRooms(c, Unroomed(c.rooms, ts), users, nickname).rooms)
  {
    var pending := Unroomed(c.rooms, ts);
    var rooms := WithRooms(c, pending, users, nickname).rooms;
    WithRoomsRooms(c, pending, users, nickname);
    UnroomedDistinct(c.rooms, ts);
    var n := |c.rooms|;
    forall i, j | 0 <= i < j < |rooms| ensures rooms[i].tcc != rooms[j].tcc {
      if j < n {
        assert rooms[i] == c.rooms[i] && rooms[j] == c.rooms[j];
      } else if i < n {
        assert rooms[i] == c.rooms[i];
        assert c.rooms[i] in c.rooms;
        assert pending[j - n] in pending;
      } else {
        assert rooms[i].tcc == pending[i - n].tcc.id;
      }
    }
  }

  /** Nothing is pending when every assignment has a room. */
  lemma UnroomedEmpty(rooms: seq<Room>, ts: seq<Teaching>)
    requires forall t :: t in ts ==> HasRoom(rooms, t.tcc.id)
    ensures Unroomed(rooms, ts) == []
  {
  }
}
