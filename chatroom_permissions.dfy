/** The room-administrator check (backend/chatroom/permissions.py,
    `IsChatRoomAdmin`). */
module ChatroomPermissions {
  import opened Wrappers
  import opened Accounts
  import opened ChatroomModels

  /** The membership row of `user` in `room`, active or not. */
  function MembershipOf(members: seq<Membership>, room: nat, user: nat): (m: Option<Membership>)
    ensures m.Some? ==> m.value in members && m.value.room == room && m.value.user == user
    ensures m.None? <==> forall x :: x in members ==> x.room != room || x.user != user
    decreases |members|
  {
    if |members| == 0 then None
    else if members[0].room == room && members[0].user == user then Some(members[0])
    else
      var m := MembershipOf(members[1..], room, user);
      assert forall x :: x in members ==> x == members[0] || x in members[1..];
      m
  }

  /** The room named by the URL: `room_pk`, or else `pk`. */
  function RoomArgument(roomPk: Option<nat>, pk: Option<nat>): Option<nat> {
    if roomPk.Some? then roomPk else pk
  }

  /** `has_permission`: a signed-in visitor whose membership of the room in
      the URL is an active administrator's. */
  function IsChatRoomAdmin(visitor: Visitor, roomPk: Option<nat>, pk: Option<nat>, members: seq<Membership>): bool {
    if visitor.None? then false
    else if RoomArgument(roomPk, pk).None? then false
    else match MembershipOf(members, RoomArgument(roomPk, pk).value, visitor.value.id)
      case None => false
      case Some(m) => m.role == ROOM_ADMIN && m.isActive
  }

  /** Two rows of a table without duplicate pairs that share room and user
      are the same row. */
  lemma UniqueRow(members: seq<Membership>, x: Membership, y: Membership)
    requires UniquePairs(members) && x in members && y in members
    requires x.room == y.room && x.user == y.user
    ensures x == y
  {
    var i :| 0 <= i < |members| && members[i] == x;
    var j :| 0 <= j < |members| && members[j] == y;
  }

  /** With one row per room and user, the check holds exactly when the
      visitor is signed in, a room is named, and the visitor has an active
      administrator's row in it; an anonymous visitor, a request without
      a room and a user without a row are refused. */
  lemma IsChatRoomAdminRules(visitor: Visitor, roomPk: Option<nat>, pk: Option<nat>, members: seq<Membership>)
    requires UniquePairs(members)
    ensures (IsChatRoomAdmin(visitor, roomPk, pk, members) <==>
      visitor.Some? && RoomArgument(roomPk, pk).Some? &&
      exists m :: m in members && m.room == RoomArgument(roomPk, pk).value && m.user == visitor.value.id &&
        m.role == ROOM_ADMIN && m.isActive)
    ensures visitor.None? || (roomPk.None? && pk.None?) ==> !IsChatRoomAdmin(visitor, roomPk, pk, members)
  {
    if visitor.Some? && RoomArgument(roomPk, pk).Some? {
      var room := RoomArgument(roomPk, pk).value;
      var found := MembershipOf(members, room, visitor.value.id);
      if found.Some? {
        forall m | m in members && m.room == room && m.user == visitor.value.id
          ensures m == found.value
        {
          UniqueRow(members, m, found.value);
        }
      }
    }
  }
}
