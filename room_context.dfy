/**
 * The browser's room state: how the client reconciles each `roomUpdated`
 * message with the room, user and pending user name it holds, and which
 * commands its guarded actions send to the server.
 */
module RoomContext {
  import opened Wrappers
  import opened RoomTypes
  import opened ArrayOps

  /** A card: one of the numeric point values, `'?'` or `'coffee'`. */
  datatype PointValue = Points(n: int) | Unsure | Coffee

  /** What a card is sent as: a number as itself, anything else as null. */
  function WireValue(value: PointValue): (r: Option<int>)
    ensures r.Some? <==> value.Points?
    ensures value.Points? ==> r.value == value.n
  {
    if value.Points? then Some(value.n) else None
  }

  /** The messages the client emits on its socket. */
  datatype Command =
    | CreateRoomCmd(roomName: string, userName: string)
    | JoinRoomCmd(roomId: RoomId, userName: string, isSpectator: bool)
    | VoteCmd(roomId: RoomId, value: Option<int>)
    | RevealVotesCmd(roomId: RoomId)
    | ResetVotesCmd(roomId: RoomId)
    | SetCurrentStoryCmd(roomId: RoomId, story: string)
    | ToggleSpectatorCmd(roomId: RoomId)
    | LeaveRoomCmd(roomId: RoomId)

  /** The provider's three pieces of state; `None` is JavaScript's null. */
  datatype ClientState = ClientState(room: Option<Room>, user: Option<User>, pendingUserName: Option<string>)

  /** `if (pendingUserName)`: a name is awaited only when it is set and not empty. */
  predicate Waiting(pendingUserName: Option<string>) {
    pendingUserName.Some? && pendingUserName.value != ""
  }

  /** A client that awaits no name and holds a room and a user holds one of
      that room's users. */
  predicate Settled(c: ClientState) {
    !Waiting(c.pendingUserName) && c.room.Some? && c.user.Some? ==> c.user.value in c.room.value.users
  }

  /** `users.find(u => u.name === name)`, as an index. */
  function NamedIndex(users: seq<User>, name: string): (i: int)
    ensures -1 <= i < |users|
    ensures 0 <= i ==> users[i].name == name && forall j :: 0 <= j < i ==> users[j].name != name
    ensures i == -1 <==> forall j :: 0 <= j < |users| ==> users[j].name != name
  {
    FindIndex(users, (u: User) => u.name == name)
  }

  /** `users.find(u => u.id === user.id || u.name === user.name)`, as an index. */
  function MatchIndex(users: seq<User>, user: User): (i: int)
    ensures -1 <= i < |users|
    ensures 0 <= i ==> Matches(users[i], user) && forall j :: 0 <= j < i ==> !Matches(users[j], user)
    ensures i == -1 <==> forall j :: 0 <= j < |users| ==> !Matches(users[j], user)
  {
    FindIndex(users, (u: User) => Matches(u, user))
  }

  /** A user in an update stands for the held user when it has its id or its name. */
  predicate Matches(u: User, user: User) {
    u.id == user.id || u.name == user.name
  }

  /** The state after `handleRoomUpdate(updated)` in state `s`. */
  function Reconcile(s: ClientState, updated: Room): (t: ClientState)
    // An update for another room than the one held clears everything.
    ensures s.room.Some? && updated.id != s.room.value.id ==> t == ClientState(None, None, None)
    // While a name is awaited, the update is adopted; the first user with
    // that name becomes the user and the name is no longer awaited ...
    ensures (s.room.None? || updated.id == s.room.value.id) && Waiting(s.pendingUserName) ==>
      && t.room == Some(updated)
      && ((exists k :: 0 <= k < |updated.users| && updated.users[k].name == s.pendingUserName.value) ==>
            && t.pendingUserName.None?
            && exists k :: 0 <= k < |updated.users| && t.user == Some(updated.users[k])
                 && updated.users[k].name == s.pendingUserName.value
                 && forall j :: 0 <= j < k ==> updated.users[j].name != s.pendingUserName.value)
      // ... and when nobody has it yet, user and pending name stay as they were.
      && ((forall k :: 0 <= k < |updated.users| ==> updated.users[k].name != s.pendingUserName.value) ==>
            t.user == s.user && t.pendingUserName == s.pendingUserName)
    // Otherwise a held user is looked up by id or name: when found it is
    // refreshed and the update adopted ...
    ensures (s.room.None? || updated.id == s.room.value.id) && !Waiting(s.pendingUserName) && s.user.Some? &&
            (exists k :: 0 <= k < |updated.users| && Matches(updated.users[k], s.user.value)) ==>
      && t.room == Some(updated)
      && t.pendingUserName == s.pendingUserName
      && exists k :: 0 <= k < |updated.users| && t.user == Some(updated.users[k])
           && Matches(updated.users[k], s.user.value)
           && forall j :: 0 <= j < k ==> !Matches(updated.users[j], s.user.value)
    // ... and when it is gone, room and user are cleared and the update is dropped.
    ensures (s.room.None? || updated.id == s.room.value.id) && !Waiting(s.pendingUserName) && s.user.Some? &&
            (forall k :: 0 <= k < |updated.users| ==> !Matches(updated.users[k], s.user.value)) ==>
      t == ClientState(None, None, s.pendingUserName)
    // With no user and no awaited name the update is simply adopted.
    ensures (s.room.None? || updated.id == s.room.value.id) && !Waiting(s.pendingUserName) && s.user.None? ==>
      t == ClientState(Some(updated), None, s.pendingUserName)
    // Whatever the branch, the room held afterwards is the update or nothing,
    // and a client that awaits no name ends up holding a user of its room.
    ensures t.room.None? || t.room == Some(updated)
    ensures Settled(t)
  {
    if s.room.Some? && updated.id != s.room.value.id then
      ClientState(None, None, None)
    else if Waiting(s.pendingUserName) then
      var i := NamedIndex(updated.users, s.pendingUserName.value);
      if 0 <= i then ClientState(Some(updated), Some(updated.users[i]), None)
      else s.(room := Some(updated))
    else if s.user.Some? then
      var i := MatchIndex(updated.users, s.user.value);
      if 0 <= i then s.(room := Some(updated), user := Some(updated.users[i]))
      else ClientState(None, None, s.pendingUserName)
    else
      s.(room := Some(updated))
  }

  /**
   * Two sessions under the same name: the client that asked to join as
   * "Bob" takes the first "Bob" in the update, even when the server
   * appended its own user after an earlier one.
   */
  lemma SameNameTakesFirstUser()
    ensures var earlier := User("s1", "Bob", false);
            var joined := User("s2", "Bob", false);
            var updated := Room("r", "Sprint", [earlier, joined], [], false, "", "t0", "t1");
            Reconcile(ClientState(None, None, Some("Bob")), updated).user == Some(earlier)
  {
    var earlier := User("s1", "Bob", false);
    var joined := User("s2", "Bob", false);
    var updated := Room("r", "Sprint", [earlier, joined], [], false, "", "t0", "t1");
    assert NamedIndex(updated.users, "Bob") == 0;
  }

  /** The `RoomProvider` component's state and the commands it has sent. */
  class RoomProvider {
    var room: Option<Room>
    var user: Option<User>
    var pendingUserName: Option<string>
    /** The commands handed to the socket hook, oldest first. */
    var sent: seq<Command>

    function State(): ClientState
      reads this
    {
      ClientState(room, user, pendingUserName)
    }

    /** The room and user come from the previous session's saved copies; no name is awaited. */
    constructor (savedRoom: Option<Room>, savedUser: Option<User>)
      ensures State() == ClientState(savedRoom, savedUser, None)
      ensures sent == []
    {
      room := savedRoom;
      user := savedUser;
      pendingUserName := None;
      sent := [];
    }

    /** `handleRoomUpdate` */
    method HandleRoomUpdate(updatedRoom: Room)
      modifies this`room, this`user, this`pendingUserName
      ensures State() == Reconcile(old(State()), updatedRoom)
      ensures Settled(State())
    {
      if room.Some? && updatedRoom.id != room.value.id {
        room := None;
        user := None;
        pendingUserName := None;
        return;
      }
      if pendingUserName.Some? && pendingUserName.value != "" {
        var i := NamedIndex(updatedRoom.users, pendingUserName.value);
        if 0 <= i {
          user := Some(updatedRoom.users[i]);
          pendingUserName := None;
        }
      } else if user.Some? {
        var i := MatchIndex(updatedRoom.users, user.value);
        if 0 <= i {
          user := Some(updatedRoom.users[i]);
        } else {
          user := None;
          room := None;
          return;
        }
      }
      room := Some(updatedRoom);
    }

    /** `createRoom`: await the creator's name and ask for the room. */
    method CreateRoom(roomName: string, userName: string)
      modifies this`pendingUserName, this`sent
      ensures pendingUserName == Some(userName)
      ensures sent == old(sent) + [CreateRoomCmd(roomName, userName)]
    {
      pendingUserName := Some(userName);
      sent := sent + [CreateRoomCmd(roomName, userName)];
    }

    /** `joinRoom`: await the joiner's name and ask to join. */
    method JoinRoom(roomId: RoomId, userName: string, isSpectator: bool)
      modifies this`pendingUserName, this`sent
      ensures pendingUserName == Some(userName)
      ensures sent == old(sent) + [JoinRoomCmd(roomId, userName, isSpectator)]
    {
      pendingUserName := Some(userName);
      sent := sent + [JoinRoomCmd(roomId, userName, isSpectator)];
    }

    /** `vote`: sent only with both a room and a user, a non-numeric card as null. */
    method Vote(value: PointValue)
      modifies this`sent
      ensures room.Some? && user.Some? ==> sent == old(sent) + [VoteCmd(room.value.id, WireValue(value))]
      ensures room.None? || user.None? ==> sent == old(sent)
    {
      if room.None? || user.None? {
        return;
      }
      sent := sent + [VoteCmd(room.value.id, WireValue(value))];
    }

    /** `revealVotes`: sent only with a room. */
    method RevealVotes()
      modifies this`sent
      ensures room.Some? ==> sent == old(sent) + [RevealVotesCmd(room.value.id)]
      ensures room.None? ==> sent == old(sent)
    {
      if room.None? {
        return;
      }
      sent := sent + [RevealVotesCmd(room.value.id)];
    }

    /** `resetVotes`: sent only with a room. */
    method ResetVotes()
      modifies this`sent
      ensures room.Some? ==> sent == old(sent) + [ResetVotesCmd(room.value.id)]
      ensures room.None? ==> sent == old(sent)
    {
      if room.None? {
        return;
      }
      sent := sent + [ResetVotesCmd(room.value.id)];
    }

    /** `setCurrentStory`: sent only with a room. */
    method SetCurrentStory(story: string)
      modifies this`sent
      ensures room.Some? ==> sent == old(sent) + [SetCurrentStoryCmd(room.value.id, story)]
      ensures room.None? ==> sent == old(sent)
    {
      if room.None? {
        return;
      }
      sent := sent + [SetCurrentStoryCmd(room.value.id, story)];
    }

    /** `toggleSpectator`: sent only with a room. */
    method ToggleSpectator()
      modifies this`sent
      ensures room.Some? ==> sent == old(sent) + [ToggleSpectatorCmd(room.value.id)]
      ensures room.None? ==> sent == old(sent)
    {
      if room.None? {
        return;
      }
      sent := sent + [ToggleSpectatorCmd(room.value.id)];
    }

    /** `exitRoom`: leave the held room, if any, and forget room, user and name. */
    method ExitRoom()
      modifies this`room, this`user, this`pendingUserName, this`sent
      ensures State() == ClientState(None, None, None)
      ensures old(room).Some? ==> sent == old(sent) + [LeaveRoomCmd(old(room).value.id)]
      ensures old(room).None? ==> sent == old(sent)
    {
      if room.Some? {
        sent := sent + [LeaveRoomCmd(room.value.id)];
      }
      room := None;
      user := None;
      pendingUserName := None;
    }
  }
}
