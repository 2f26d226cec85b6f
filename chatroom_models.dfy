/** The chat tables (backend/chatroom/models.py): one room per teaching
    assignment, one membership row per user and room, and the messages. */
module ChatroomModels {
  import opened Wrappers

  /** The two roles a membership can have. */
  const ROOM_ADMIN := "admin"
  const ROOM_MEMBER := "member"
  const ROOM_ROLES: seq<string> := [ROOM_ADMIN, ROOM_MEMBER]

  /** A room of teaching assignment `tcc`. */
  datatype Room = Room(id: nat, tcc: nat, name: string, isMuted: bool)

  /** A user's membership of a room; a kicked member keeps the row with
      `isActive` false. */
  datatype Membership = Membership(id: nat, room: nat, user: nat, nickname: string, role: string, isActive: bool)

  /** A message; `author` is the membership it was sent under, and a
      deleted message keeps its row. Times are seconds. */
  datatype ChatMessage = ChatMessage(
    id: nat, room: nat, author: Option<nat>, kind: string, content: string,
    fileOriginalName: Option<string>, timestamp: int, isDeleted: bool)

  /** No two membership rows share a room and a user (the table's
      uniqueness constraint). */
  predicate UniquePairs(members: seq<Membership>) {
    forall i, j :: 0 <= i < j < |members| ==>
      members[i].room != members[j].room || members[i].user != members[j].user
  }

  /** The room and membership tables with the ids the next rows get. */
  datatype Chat = Chat(rooms: seq<Room>, members: seq<Membership>, nextRoomId: nat, nextMemberId: nat)

  /** The chat tables as the room bootstrap and the backfill command write
      them. */
  class ChatTables {
    var rooms: seq<Room>
    var members: seq<Membership>
    var nextRoomId: nat
    var nextMemberId: nat

    function State(): Chat
      reads this
    {
      Chat(rooms, members, nextRoomId, nextMemberId)
    }

    constructor (c: Chat)
      ensures State() == c
    {
      rooms := c.rooms;
      members := c.members;
      nextRoomId := c.nextRoomId;
      nextMemberId := c.nextMemberId;
    }
  }
}
