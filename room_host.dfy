/** Whether the signed-in user hosts a room. */
module RoomHost {
  import opened Base
  import opened Users

  /** A room as the host check sees it: only its host's user id is read. */
  datatype HostedRoom = HostedRoom(hostId: string)

  /** `checkIsHost(room, user)`: false without a room or a user, else whether the ids agree. */
  function CheckIsHost(room: Option<HostedRoom>, user: Option<User>): (r: bool)
    ensures room.None? || user.None? ==> !r
    ensures r <==> room.Some? && user.Some? && room.value.hostId == user.value.id
  {
    if room.None? || user.None? then false else room.value.hostId == user.value.id
  }
}
