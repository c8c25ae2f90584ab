/**
 * The socket event handlers of `server/src/index.ts`.
 *
 * The server keeps three pieces of state beside the room store: the
 * connected sockets, `socketRooms` (socket id to room id) and the
 * socket.io room subscriptions made by `socket.join`/`socket.leave`.
 * Every `emit` is appended to `log` together with the sockets it reaches.
 * Each handler runs as one atomic step; a failing store call is the
 * `fault` parameter and a failing read of the room list is `readFails`.
 */
module SocketServer {
  import opened Wrappers
  import opened RoomTypes
  import opened RoomService

  type SocketId = string

  /** The events the server emits. */
  datatype Event =
    | RoomUpdated(room: Room)
    | RoomError(message: string)
    | ActiveRoomsUpdated(rooms: seq<RoomSummary>)
    | ActiveRooms(rooms: seq<RoomSummary>)

  /** One `emit`: the sockets it reaches and the event they receive. */
  datatype Emission = Emission(to: set<SocketId>, event: Event)

  /** The emission of `broadcastActiveRooms`: the room list,
      or [] when it could not be read, to every connected socket. */
  ghost predicate IsActiveRoomsBroadcast(e: Emission, to: set<SocketId>, rooms: map<RoomId, Room>, readFails: bool) {
    && e.to == to
    && e.event.ActiveRoomsUpdated?
    && (if readFails then e.event.rooms == [] else ListsRooms(e.event.rooms, rooms))
  }

  /** `log` is `prefix` followed by one active-rooms broadcast. */
  ghost predicate EndsWithBroadcast(log: seq<Emission>, prefix: seq<Emission>, to: set<SocketId>,
                                    rooms: map<RoomId, Room>, readFails: bool) {
    |log| == |prefix| + 1 && log[..|prefix|] == prefix && IsActiveRoomsBroadcast(log[|prefix|], to, rooms, readFails)
  }

  /** Every bound socket is a user of the stored room it is bound to. */
  ghost predicate BindingsSound(socketRooms: map<SocketId, RoomId>, rooms: map<RoomId, Room>) {
    forall sid | sid in socketRooms :: socketRooms[sid] in rooms && IsMember(rooms[socketRooms[sid]], sid)
  }

  /** Binding a socket to a new room it is a user of keeps the bindings sound. */
  lemma CreateKeepsBindings(socketRooms: map<SocketId, RoomId>, rooms: map<RoomId, Room>, sid: SocketId, room: Room)
    requires BindingsSound(socketRooms, rooms)
    requires room.id !in rooms && IsMember(room, sid)
    ensures BindingsSound(socketRooms[sid := room.id], rooms[room.id := room])
  {
  }

  /** Adding the socket's user to a room and binding the socket to it keeps
      the bindings sound. */
  lemma JoinKeepsBindings(socketRooms: map<SocketId, RoomId>, rooms: map<RoomId, Room>,
                          roomId: RoomId, user: User, now: string)
    requires BindingsSound(socketRooms, rooms)
    requires roomId in rooms
    ensures BindingsSound(socketRooms[user.id := roomId], rooms[roomId := WithUser(rooms[roomId], user, now)])
  {
  }

  /** A change that keeps a room's users keeps the bindings sound. */
  lemma SameUsersKeepBindings(socketRooms: map<SocketId, RoomId>, rooms: map<RoomId, Room>, roomId: RoomId, room: Room)
    requires BindingsSound(socketRooms, rooms)
    requires roomId in rooms && room.users == rooms[roomId].users
    ensures BindingsSound(socketRooms, rooms[roomId := room])
  {
  }

  /** Removing a socket's user from a room and unbinding the socket keeps
      the bindings sound: the room only disappears when that user was its
      last, and no other socket can be bound to it then. */
  lemma LeaveKeepsBindings(socketRooms: map<SocketId, RoomId>, rooms: map<RoomId, Room>,
                           sid: SocketId, roomId: RoomId, now: string)
    requires BindingsSound(socketRooms, rooms)
    ensures var left := if roomId in rooms then RemoveUser(rooms[roomId], sid, now) else None;
      BindingsSound(socketRooms - {sid}, if left.Some? then rooms[roomId := left.value] else rooms - {roomId})
  {
  }

  class Server {
    const service: FirestoreService
    var connected: set<SocketId>
    /** `socketRooms`: the room each socket last created or joined. */
    var socketRooms: map<SocketId, RoomId>
    /** socket.io room membership: (socket, room) for each `socket.join(room)`. */
    var subscriptions: set<(SocketId, RoomId)>
    var log: seq<Emission>

    /** The store is well formed, only connected sockets are subscribed,
        and every bound socket is a user of the room it is bound to. */
    ghost predicate Valid()
      reads this, service
    {
      && service.Valid()
      && (forall p | p in subscriptions :: p.0 in connected)
      && BindingsSound(socketRooms, service.rooms)
    }

    /** The sockets `io.to(roomId)` reaches. */
    function SubscribersOf(roomId: RoomId): (s: set<SocketId>)
      reads this
      ensures forall sid :: sid in s <==> (sid, roomId) in subscriptions
    {
      set p | p in subscriptions && p.1 == roomId :: p.0
    }

    constructor (service: FirestoreService)
      requires service.Valid()
      ensures Valid()
      ensures this.service == service && service.rooms == old(service.rooms)
      ensures connected == {} && socketRooms == map[] && subscriptions == {} && log == []
    {
      this.service := service;
      connected, socketRooms, subscriptions, log := {}, map[], {}, [];
    }

    /** `io.on('connection')` */
    method Connect(sid: SocketId)
      requires Valid() && sid !in connected
      modifies this`connected
      ensures Valid()
      ensures connected == old(connected) + {sid}
    {
      connected := connected + {sid};
    }

    /** `broadcastActiveRooms` */
    method BroadcastActiveRooms(readFails: bool)
      requires Valid()
      modifies this`log
      ensures Valid()
      ensures EndsWithBroadcast(log, old(log), connected, service.rooms, readFails)
    {
      var activeRooms := service.GetActiveRooms(readFails);
      log := log + [Emission(connected, ActiveRoomsUpdated(activeRooms))];
    }

    /** `createRoom`: the creator's user id is the socket id; `newId` is the
        fresh id `uuidv4` gives. */
    method CreateRoom(sid: SocketId, roomName: string, userName: string, newId: RoomId, now: string,
                      fault: bool, readFails: bool)
      requires Valid() && sid in connected && newId !in service.rooms
      modifies this, service
      ensures Valid()
      ensures connected == old(connected)
      ensures fault ==>
        && service.rooms == old(service.rooms)
        && socketRooms == old(socketRooms) && subscriptions == old(subscriptions)
        && log == old(log) + [Emission({sid}, RoomError("Failed to create room"))]
      ensures !fault ==>
        var room := NewRoom(newId, roomName, User(sid, userName, false), now);
        && service.rooms == old(service.rooms)[newId := room]
        && socketRooms == old(socketRooms)[sid := newId]
        && subscriptions == old(subscriptions) + {(sid, newId)}
        && EndsWithBroadcast(log, old(log) + [Emission(SubscribersOf(newId), RoomUpdated(room))],
                             connected, service.rooms, readFails)
    {
      if fault {
        log := log + [Emission({sid}, RoomError("Failed to create room"))];
        return;
      }
      var user := User(sid, userName, false);
      CreateKeepsBindings(socketRooms, service.rooms, sid, NewRoom(newId, roomName, user, now));
      var room := service.CreateRoom(newId, roomName, user, now);
      socketRooms := socketRooms[sid := room.id];
      subscriptions := subscriptions + {(sid, room.id)};
      log := log + [Emission(SubscribersOf(room.id), RoomUpdated(room))];
      BroadcastActiveRooms(readFails);
    }

    /** `joinRoom`: an unknown room id is answered to the sender alone. */
    method JoinRoom(sid: SocketId, roomId: RoomId, userName: string, isSpectator: bool, now: string,
                    fault: bool, readFails: bool)
      requires Valid() && sid in connected
      modifies this, service
      ensures Valid()
      ensures connected == old(connected)
      ensures fault || roomId !in old(service.rooms) ==>
        && service.rooms == old(service.rooms)
        && socketRooms == old(socketRooms) && subscriptions == old(subscriptions)
        && log == old(log) + [Emission({sid}, RoomError(if fault then "Failed to join room" else "Room not found"))]
      ensures !fault && roomId in old(service.rooms) ==>
        var room := WithUser(old(service.rooms)[roomId], User(sid, userName, isSpectator), now);
        && service.rooms == old(service.rooms)[roomId := room]
        && socketRooms == old(socketRooms)[sid := roomId]
        && subscriptions == old(subscriptions) + {(sid, roomId)}
        && EndsWithBroadcast(log, old(log) + [Emission(SubscribersOf(roomId), RoomUpdated(room))],
                             connected, service.rooms, readFails)
    {
      if fault {
        log := log + [Emission({sid}, RoomError("Failed to join room"))];
        return;
      }
      var room := service.GetRoomById(roomId);
      if room.None? {
        log := log + [Emission({sid}, RoomError("Room not found"))];
        return;
      }
      var user := User(sid, userName, isSpectator);
      JoinKeepsBindings(socketRooms, service.rooms, roomId, user, now);
      var updatedRoom := service.AddUserToRoom(roomId, user, now);
      socketRooms := socketRooms[sid := roomId];
      subscriptions := subscriptions + {(sid, roomId)};
      log := log + [Emission(SubscribersOf(roomId), RoomUpdated(updatedRoom.value))];
      BroadcastActiveRooms(readFails);
    }

    /** `vote`: the vote is always recorded under the sender's own socket id. */
    method Vote(sid: SocketId, roomId: RoomId, value: Option<int>, now: string, fault: bool)
      requires Valid() && sid in connected
      modifies this`log, service
      ensures Valid()
      ensures fault ==>
        service.rooms == old(service.rooms) && log == old(log) + [Emission({sid}, RoomError("Failed to submit vote"))]
      ensures !fault && roomId !in old(service.rooms) ==> service.rooms == old(service.rooms) && log == old(log)
      ensures !fault && roomId in old(service.rooms) ==>
        var room := WithVote(old(service.rooms)[roomId], sid, value, now);
        && service.rooms == old(service.rooms)[roomId := room]
        && log == old(log) + [Emission(SubscribersOf(roomId), RoomUpdated(room))]
    {
      if fault {
        log := log + [Emission({sid}, RoomError("Failed to submit vote"))];
        return;
      }
      ghost var before := service.rooms;
      var updatedRoom := service.SubmitVote(roomId, sid, value, now);
      if updatedRoom.Some? {
        SameUsersKeepBindings(socketRooms, before, roomId, updatedRoom.value);
        log := log + [Emission(SubscribersOf(roomId), RoomUpdated(updatedRoom.value))];
      }
    }

    /** `revealVotes` */
    method RevealVotes(sid: SocketId, roomId: RoomId, now: string, fault: bool)
      requires Valid() && sid in connected
      modifies this`log, service
      ensures Valid()
      ensures fault ==>
        service.rooms == old(service.rooms) && log == old(log) + [Emission({sid}, RoomError("Failed to reveal votes"))]
      ensures !fault && roomId !in old(service.rooms) ==> service.rooms == old(service.rooms) && log == old(log)
      ensures !fault && roomId in old(service.rooms) ==>
        var room := Revealed(old(service.rooms)[roomId], now);
        && service.rooms == old(service.rooms)[roomId := room]
        && log == old(log) + [Emission(SubscribersOf(roomId), RoomUpdated(room))]
    {
      if fault {
        log := log + [Emission({sid}, RoomError("Failed to reveal votes"))];
        return;
      }
      ghost var before := service.rooms;
      var updatedRoom := service.RevealVotes(roomId, now);
      if updatedRoom.Some? {
        SameUsersKeepBindings(socketRooms, before, roomId, updatedRoom.value);
        log := log + [Emission(SubscribersOf(roomId), RoomUpdated(updatedRoom.value))];
      }
    }

    /** `resetVotes` */
    method ResetVotes(sid: SocketId, roomId: RoomId, now: string, fault: bool)
      requires Valid() && sid in connected
      modifies this`log, service
      ensures Valid()
      ensures fault ==>
        service.rooms == old(service.rooms) && log == old(log) + [Emission({sid}, RoomError("Failed to reset votes"))]
      ensures !fault && roomId !in old(service.rooms) ==> service.rooms == old(service.rooms) && log == old(log)
      ensures !fault && roomId in old(service.rooms) ==>
        var room := VotesReset(old(service.rooms)[roomId], now);
        && service.rooms == old(service.rooms)[roomId := room]
        && log == old(log) + [Emission(SubscribersOf(roomId), RoomUpdated(room))]
    {
      if fault {
        log := log + [Emission({sid}, RoomError("Failed to reset votes"))];
        return;
      }
      ghost var before := service.rooms;
      var updatedRoom := service.ResetVotes(roomId, now);
      if updatedRoom.Some? {
        SameUsersKeepBindings(socketRooms, before, roomId, updatedRoom.value);
        log := log + [Emission(SubscribersOf(roomId), RoomUpdated(updatedRoom.value))];
      }
    }

    /** `setCurrentStory` */
    method SetCurrentStory(sid: SocketId, roomId: RoomId, story: string, now: string, fault: bool)
      requires Valid() && sid in connected
      modifies this`log, service
      ensures Valid()
      ensures fault ==>
        service.rooms == old(service.rooms) && log == old(log) + [Emission({sid}, RoomError("Failed to set story"))]
      ensures !fault && roomId !in old(service.rooms) ==> service.rooms == old(service.rooms) && log == old(log)
      ensures !fault && roomId in old(service.rooms) ==>
        var room := WithStory(old(service.rooms)[roomId], story, now);
        && service.rooms == old(service.rooms)[roomId := room]
        && log == old(log) + [Emission(SubscribersOf(roomId), RoomUpdated(room))]
    {
      if fault {
        log := log + [Emission({sid}, RoomError("Failed to set story"))];
        return;
      }
      ghost var before := service.rooms;
      var updatedRoom := service.SetCurrentStory(roomId, story, now);
      if updatedRoom.Some? {
        SameUsersKeepBindings(socketRooms, before, roomId, updatedRoom.value);
        log := log + [Emission(SubscribersOf(roomId), RoomUpdated(updatedRoom.value))];
      }
    }

    /** The part `leaveRoom` and `disconnect` share: remove the socket's
        user from the room, drop the socket's binding, send the room to its
        remaining subscribers if it still exists, and broadcast the room list. */
    method RemoveAndNotify(sid: SocketId, roomId: RoomId, now: string, readFails: bool)
      requires Valid()
      modifies this`socketRooms, this`log, service
      ensures Valid()
      ensures
        var left := if roomId in old(service.rooms) then RemoveUser(old(service.rooms)[roomId], sid, now) else None;
        && service.rooms == (if left.Some? then old(service.rooms)[roomId := left.value] else old(service.rooms) - {roomId})
        && socketRooms == old(socketRooms) - {sid}
        && EndsWithBroadcast(log,
             old(log) + (if left.Some? then [Emission(SubscribersOf(roomId), RoomUpdated(left.value))] else []),
             connected, service.rooms, readFails)
    {
      ghost var left := if roomId in service.rooms then RemoveUser(service.rooms[roomId], sid, now) else None;
      ghost var after := if left.Some? then service.rooms[roomId := left.value] else service.rooms - {roomId};
      LeaveKeepsBindings(socketRooms, service.rooms, sid, roomId, now);
      var updatedRoom := service.RemoveUserFromRoom(roomId, sid, now);
      assert updatedRoom == left && service.rooms == after;
      socketRooms := socketRooms - {sid};
      if updatedRoom.Some? {
        log := log + [Emission(SubscribersOf(roomId), RoomUpdated(updatedRoom.value))];
      }
      BroadcastActiveRooms(readFails);
    }

    /** `leaveRoom`: the socket always leaves the room and loses its binding,
        whichever room it was bound to; the room update goes to the
        remaining subscribers only. A failed store call changes nothing and
        is reported to no one. */
    method LeaveRoom(sid: SocketId, roomId: RoomId, now: string, fault: bool, readFails: bool)
      requires Valid() && sid in connected
      modifies this, service
      ensures Valid()
      ensures connected == old(connected)
      ensures fault ==>
        && service.rooms == old(service.rooms)
        && socketRooms == old(socketRooms) && subscriptions == old(subscriptions)
        && log == old(log)
      ensures !fault ==>
        var left := if roomId in old(service.rooms) then RemoveUser(old(service.rooms)[roomId], sid, now) else None;
        && service.rooms == (if left.Some? then old(service.rooms)[roomId := left.value] else old(service.rooms) - {roomId})
        && socketRooms == old(socketRooms) - {sid}
        && subscriptions == old(subscriptions) - {(sid, roomId)}
        && sid !in SubscribersOf(roomId)
        && EndsWithBroadcast(log,
             old(log) + (if left.Some? then [Emission(SubscribersOf(roomId), RoomUpdated(left.value))] else []),
             connected, service.rooms, readFails)
    {
      if fault {
        return;
      }
      subscriptions := subscriptions - {(sid, roomId)};
      RemoveAndNotify(sid, roomId, now, readFails);
    }

    /** `getActiveRooms`: the list, or [] when it cannot be read, to the sender. */
    method GetActiveRooms(sid: SocketId, readFails: bool)
      requires Valid() && sid in connected
      modifies this`log
      ensures Valid()
      ensures |log| == |old(log)| + 1 && log[..|old(log)|] == old(log)
      ensures log[|old(log)|].to == {sid} && log[|old(log)|].event.ActiveRooms?
      ensures readFails ==> log[|old(log)|].event.rooms == []
      ensures !readFails ==> ListsRooms(log[|old(log)|].event.rooms, service.rooms)
    {
      var activeRooms := service.GetActiveRooms(readFails);
      log := log + [Emission({sid}, ActiveRooms(activeRooms))];
    }

    /** What socket.io does before a `disconnect` handler runs: the socket
        is no longer connected and has left every room. */
    method DropSocket(sid: SocketId)
      requires Valid()
      modifies this`connected, this`subscriptions
      ensures Valid()
      ensures connected == old(connected) - {sid}
      ensures subscriptions == set p | p in old(subscriptions) && p.0 != sid
    {
      connected := connected - {sid};
      subscriptions := set p | p in subscriptions && p.0 != sid;
    }

    /** `disconnect`: socket.io has already removed the socket from the
        connected set and from every room. A socket bound to a (non-empty)
        room id is then removed from that room as a user and unbound; an
        unbound socket changes nothing more, and so does a failed store
        call, which leaves the binding in place. */
    method Disconnect(sid: SocketId, now: string, fault: bool, readFails: bool)
      requires Valid() && sid in connected
      modifies this, service
      ensures Valid()
      ensures connected == old(connected) - {sid}
      ensures subscriptions == set p | p in old(subscriptions) && p.0 != sid
      ensures sid !in old(socketRooms) || old(socketRooms)[sid] == "" || fault ==>
        && service.rooms == old(service.rooms) && socketRooms == old(socketRooms) && log == old(log)
      ensures sid in old(socketRooms) && old(socketRooms)[sid] != "" && !fault ==>
        var roomId := old(socketRooms)[sid];
        var left := RemoveUser(old(service.rooms)[roomId], sid, now);
        && service.rooms == (if left.Some? then old(service.rooms)[roomId := left.value] else old(service.rooms) - {roomId})
        && socketRooms == old(socketRooms) - {sid}
        && EndsWithBroadcast(log,
             old(log) + (if left.Some? then [Emission(SubscribersOf(roomId), RoomUpdated(left.value))] else []),
             connected, service.rooms, readFails)
    {
      DropSocket(sid);
      if sid in socketRooms && socketRooms[sid] != "" {
        if fault {
          return;
        }
        RemoveAndNotify(sid, socketRooms[sid], now, readFails);
      }
    }
  }
}
