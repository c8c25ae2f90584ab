/**
 * The room store of `server/src/services/FirestoreService.ts`.
 *
 * Each store operation reads one room document, changes it and writes it
 * back inside one transaction. The changes themselves are the pure
 * functions below (the transaction bodies); the class `FirestoreService`
 * holds the collection as a map from room id to room and applies them
 * step by step, as the source does, with each transaction atomic.
 */
module RoomService {
  import opened Wrappers
  import opened RoomTypes
  import opened ArrayOps

  /** What every stored room satisfies: it is filed under its own id,
      it has at least one user, and no user has two votes. */
  ghost predicate WellFormed(id: RoomId, room: Room) {
    room.id == id && |room.users| > 0 && UniqueVoters(room.votes)
  }

  /** `users.findIndex(u => u.id === userId)` */
  function UserIndex(users: seq<User>, userId: UserId): (i: int)
    ensures -1 <= i < |users|
    ensures 0 <= i ==> users[i].id == userId && forall j :: 0 <= j < i ==> users[j].id != userId
    ensures i == -1 <==> forall j :: 0 <= j < |users| ==> users[j].id != userId
  {
    FindIndex(users, (u: User) => u.id == userId)
  }

  /** `votes.findIndex(v => v.userId === userId)` */
  function VoteIndex(votes: seq<Vote>, userId: UserId): (i: int)
    ensures -1 <= i < |votes|
    ensures 0 <= i ==> votes[i].userId == userId && forall j :: 0 <= j < i ==> votes[j].userId != userId
    ensures i == -1 <==> forall j :: 0 <= j < |votes| ==> votes[j].userId != userId
  {
    FindIndex(votes, (v: Vote) => v.userId == userId)
  }

  /** Dropping the first vote keeps one vote per user. */
  lemma UniqueVotersTail(votes: seq<Vote>)
    requires votes != [] && UniqueVoters(votes)
    ensures UniqueVoters(votes[1..])
  {
    var tail := votes[1..];
    forall i, j | 0 <= i < |tail| && 0 <= j < |tail| && tail[i].userId == tail[j].userId
      ensures i == j
    {
      assert votes[i + 1].userId == votes[j + 1].userId;
    }
  }

  /** Putting a vote by a new voter in front keeps one vote per user. */
  lemma UniqueVotersCons(v: Vote, rest: seq<Vote>)
    requires UniqueVoters(rest)
    requires forall k :: 0 <= k < |rest| ==> rest[k].userId != v.userId
    ensures UniqueVoters([v] + rest)
  {
    var r := [v] + rest;
    forall i, j | 0 <= i < |r| && 0 <= j < |r| && r[i].userId == r[j].userId
      ensures i == j
    {
      assert 0 < i ==> r[i] == rest[i - 1];
      assert 0 < j ==> r[j] == rest[j - 1];
    }
  }

  /** With one vote per user, no vote kept from the tail is by the first voter. */
  lemma FilteredTailAvoidsHead(votes: seq<Vote>, p: Vote -> bool)
    requires votes != [] && UniqueVoters(votes)
    ensures forall k :: 0 <= k < |Filter(votes[1..], p)| ==> Filter(votes[1..], p)[k].userId != votes[0].userId
  {
    var tail, rest := votes[1..], Filter(votes[1..], p);
    forall k | 0 <= k < |rest| ensures rest[k].userId != votes[0].userId {
      assert rest[k] in tail;
      var m :| 0 <= m < |tail| && tail[m] == rest[k];
      assert votes[m + 1] == rest[k];
    }
  }

  /** Filtering votes never gives one user two votes. */
  lemma {:induction false} FilterKeepsUniqueVoters(votes: seq<Vote>, p: Vote -> bool)
    requires UniqueVoters(votes)
    ensures UniqueVoters(Filter(votes, p))
  {
    if votes != [] {
      var v, tail := votes[0], votes[1..];
      UniqueVotersTail(votes);
      FilterKeepsUniqueVoters(tail, p);
      var rest := Filter(tail, p);
      assert votes == [v] + tail;
      FilterCons(v, tail, p);
      if p(v) {
        FilteredTailAvoidsHead(votes, p);
        UniqueVotersCons(v, rest);
      }
    }
  }

  /** `votes.filter(v => v.userId !== userId)` */
  function WithoutVotesOf(votes: seq<Vote>, userId: UserId): (r: seq<Vote>)
    ensures forall v :: v in r <==> v in votes && v.userId != userId
    ensures forall v: Vote :: v.userId != userId ==> multiset(r)[v] == multiset(votes)[v]
    ensures UniqueVoters(votes) ==> UniqueVoters(r)
  {
    var p := (v: Vote) => v.userId != userId;
    assert UniqueVoters(votes) ==> UniqueVoters(Filter(votes, p)) by {
      if UniqueVoters(votes) {
        FilterKeepsUniqueVoters(votes, p);
      }
    }
    Filter(votes, p)
  }

  /** The remaining votes keep their order: a vote added at the end stays
      at the end exactly when it is not the leaving user's. */
  lemma WithoutVotesOfSnoc(votes: seq<Vote>, v: Vote, userId: UserId)
    ensures WithoutVotesOf(votes + [v], userId) == WithoutVotesOf(votes, userId) + (if v.userId != userId then [v] else [])
  {
    FilterSnoc(votes, v, (w: Vote) => w.userId != userId);
  }

  /** Upsert of one user's vote (`submitVote`): an existing
      vote keeps its position and takes the new value, otherwise the vote is
      appended; the other votes are untouched. */
  function UpsertVote(votes: seq<Vote>, userId: UserId, value: Option<int>): (r: seq<Vote>)
    ensures var i := VoteIndex(votes, userId);
      && (0 <= i ==> |r| == |votes| && r[i] == Vote(userId, value)
                     && forall j :: 0 <= j < |votes| && j != i ==> r[j] == votes[j])
      && (i == -1 ==> r == votes + [Vote(userId, value)])
    ensures var k := VoteIndex(r, userId); 0 <= k && r[k].value == value
    ensures UniqueVoters(votes) ==> UniqueVoters(r)
  {
    var i := VoteIndex(votes, userId);
    if i != -1 then votes[i := votes[i].(value := value)]
    else
      var r := votes + [Vote(userId, value)];
      assert r[|votes|].userId == userId;
      assert forall j :: 0 <= j < |votes| ==> r[j].userId != userId;
      r
  }

  /** The room `createRoom` stores: the creator alone, no votes, hidden, no story. */
  function NewRoom(roomId: RoomId, roomName: string, creator: User, now: string): (r: Room)
    ensures r.id == roomId && r.name == roomName
    ensures r.users == [creator] && r.votes == []
    ensures !r.isRevealed && r.currentStory == ""
    ensures r.createdAt == now && r.updatedAt == now
    ensures IsMember(r, creator.id)
    ensures WellFormed(roomId, r)
  {
    var r := Room(roomId, roomName, [creator], [], false, "", now, now);
    assert r.users[0] == creator;
    r
  }

  /** `addUserToRoom`: the user is appended, even when already present. */
  function WithUser(room: Room, user: User, now: string): (r: Room)
    ensures r.users == room.users + [user] && |r.users| == |room.users| + 1
    ensures r.(users := room.users, updatedAt := room.updatedAt) == room
    ensures r.updatedAt == now
    ensures IsMember(r, user.id)
    ensures forall x :: IsMember(room, x) ==> IsMember(r, x)
    ensures WellFormed(room.id, room) ==> WellFormed(room.id, r)
  {
    var r := room.(users := room.users + [user], updatedAt := now);
    assert r.users[|room.users|] == user;
    assert forall x :: IsMember(room, x) ==> IsMember(r, x) by {
      forall x | IsMember(room, x) ensures IsMember(r, x) {
        var k :| 0 <= k < |room.users| && room.users[k].id == x;
        assert r.users[k].id == x;
      }
    }
    r
  }

  /** Splicing out one user keeps every member with another id. */
  lemma RemoveAtKeepsOthers(room: Room, i: nat, left: Room)
    requires i < |room.users| && left.users == RemoveAt(room.users, i)
    ensures forall x :: x != room.users[i].id && IsMember(room, x) ==> IsMember(left, x)
  {
    forall x | x != room.users[i].id && IsMember(room, x)
      ensures IsMember(left, x)
    {
      var k :| 0 <= k < |room.users| && room.users[k].id == x;
      if k < i {
        assert left.users[k].id == x;
      } else {
        assert left.users[k - 1].id == x;
      }
    }
  }

  /** The room after splicing out the user at position `i` and dropping
      every vote of that user's id. */
  function WithoutUserAt(room: Room, i: nat, now: string): (r: Room)
    requires i < |room.users|
    ensures r.users == room.users[..i] + room.users[i + 1..]
    ensures r.votes == WithoutVotesOf(room.votes, room.users[i].id)
    ensures forall v :: v in r.votes <==> v in room.votes && v.userId != room.users[i].id
    ensures r.(users := room.users, votes := room.votes, updatedAt := room.updatedAt) == room
    ensures r.updatedAt == now
    ensures forall x :: x != room.users[i].id && IsMember(room, x) ==> IsMember(r, x)
    ensures WellFormed(room.id, room) && |room.users| > 1 ==> WellFormed(room.id, r)
  {
    var r := room.(users := RemoveAt(room.users, i), votes := WithoutVotesOf(room.votes, room.users[i].id), updatedAt := now);
    RemoveAtKeepsOthers(room, i, r);
    r
  }

  /** `removeUserFromRoom` on a stored room: None when the room is deleted. */
  function RemoveUser(room: Room, userId: UserId, now: string): (r: Option<Room>)
    ensures !IsMember(room, userId) ==> r == Some(room)
    ensures IsMember(room, userId) ==> (r.None? <==> |room.users| == 1)
    ensures IsMember(room, userId) && r.Some? ==>
      var i := UserIndex(room.users, userId);
      && 0 <= i
      && r.value.users == room.users[..i] + room.users[i + 1..]
      && r.value.votes == WithoutVotesOf(room.votes, userId)
      && (forall v :: v in r.value.votes <==> v in room.votes && v.userId != userId)
      && r.value.(users := room.users, votes := room.votes, updatedAt := room.updatedAt) == room
      && r.value.updatedAt == now
    ensures r.Some? ==> r.value.id == room.id
    ensures forall x :: x != userId && IsMember(room, x) ==> r.Some? && IsMember(r.value, x)
    ensures WellFormed(room.id, room) && r.Some? ==> WellFormed(room.id, r.value)
  {
    var i := UserIndex(room.users, userId);
    if i == -1 then
      assert !IsMember(room, userId);
      Some(room)
    else
      assert IsMember(room, userId) by { assert room.users[i].id == userId; }
      if |room.users| == 1 then None else Some(WithoutUserAt(room, i, now))
  }

  /** `submitVote` on a stored room. Membership and spectator status are
      not consulted. */
  function WithVote(room: Room, userId: UserId, value: Option<int>, now: string): (r: Room)
    ensures r.(votes := room.votes, updatedAt := room.updatedAt) == room
    ensures r.updatedAt == now
    ensures var k := VoteIndex(r.votes, userId); 0 <= k && r.votes[k].value == value
    ensures forall v :: v in room.votes && v.userId != userId ==> v in r.votes
    ensures WellFormed(room.id, room) ==> WellFormed(room.id, r)
  {
    var votes := UpsertVote(room.votes, userId, value);
    var r := room.(votes := votes, updatedAt := now);
    assert forall v :: v in room.votes && v.userId != userId ==> v in r.votes by {
      forall v | v in room.votes && v.userId != userId ensures v in r.votes {
        var j :| 0 <= j < |room.votes| && room.votes[j] == v;
        assert j != VoteIndex(room.votes, userId);
        assert r.votes[j] == v;
      }
    }
    r
  }

  /** `revealVotes` on a stored room: no votes are required. */
  function Revealed(room: Room, now: string): (r: Room)
    ensures r.isRevealed && r.votes == room.votes
    ensures r.(isRevealed := room.isRevealed, updatedAt := room.updatedAt) == room
    ensures r.updatedAt == now
    ensures WellFormed(room.id, room) ==> WellFormed(room.id, r)
  {
    room.(isRevealed := true, updatedAt := now)
  }

  /** `resetVotes` on a stored room. */
  function VotesReset(room: Room, now: string): (r: Room)
    ensures r.votes == [] && !r.isRevealed
    ensures r.(votes := room.votes, isRevealed := room.isRevealed, updatedAt := room.updatedAt) == room
    ensures r.updatedAt == now
    ensures WellFormed(room.id, room) ==> WellFormed(room.id, r)
  {
    room.(votes := [], isRevealed := false, updatedAt := now)
  }

  /** `setCurrentStory` on a stored room. */
  function WithStory(room: Room, story: string, now: string): (r: Room)
    ensures r.currentStory == story
    ensures r.(currentStory := room.currentStory, updatedAt := room.updatedAt) == room
    ensures r.updatedAt == now
    ensures WellFormed(room.id, room) ==> WellFormed(room.id, r)
  {
    room.(currentStory := story, updatedAt := now)
  }

  /** Revealing twice is revealing once (with the same clock reading). */
  lemma RevealIsIdempotent(room: Room, now: string)
    ensures Revealed(Revealed(room, now), now) == Revealed(room, now)
  {
  }

  /** Resetting twice is resetting once (with the same clock reading). */
  lemma ResetIsIdempotent(room: Room, now: string)
    ensures VotesReset(VotesReset(room, now), now) == VotesReset(room, now)
  {
  }

  /** The lobby entry of one room document: id, name and user count. */
  function Summary(room: Room): RoomSummary {
    RoomSummary(room.id, room.name, |room.users|)
  }

  /** `list` has exactly one entry per stored room, in some order. */
  ghost predicate ListsRooms(list: seq<RoomSummary>, rooms: map<RoomId, Room>) {
    && |list| == |rooms|
    && (forall i :: 0 <= i < |list| ==> list[i].id in rooms && list[i] == Summary(rooms[list[i].id]))
    && (forall id :: id in rooms ==> exists i :: 0 <= i < |list| && list[i].id == id)
    && (forall i, j :: 0 <= i < j < |list| ==> list[i].id != list[j].id)
  }

  /** The summaries of the documents named by `order`, in that order. */
  function SummariesFor(order: seq<RoomId>, docs: map<RoomId, Room>): (list: seq<RoomSummary>)
    requires forall k | k in order :: k in docs
    ensures |list| == |order|
    ensures forall i :: 0 <= i < |order| ==> list[i] == Summary(docs[order[i]])
  {
    if order == [] then []
    else SummariesFor(order[..|order| - 1], docs) + [Summary(docs[order[|order| - 1]])]
  }

  /** Visiting every document exactly once lists every room exactly once. */
  lemma SummariesForAll(order: seq<RoomId>, docs: map<RoomId, Room>)
    requires forall i, j :: 0 <= i < j < |order| ==> order[i] != order[j]
    requires forall k :: k in order <==> k in docs
    requires |order| == |docs|
    requires forall id | id in docs :: docs[id].id == id
    ensures ListsRooms(SummariesFor(order, docs), docs)
  {
    var list := SummariesFor(order, docs);
    forall i | 0 <= i < |list|
      ensures list[i].id == order[i] && list[i] == Summary(docs[list[i].id])
    {
    }
    forall i, j | 0 <= i < j < |list|
      ensures list[i].id != list[j].id
    {
      assert list[i].id == order[i] && list[j].id == order[j];
    }
    forall id | id in docs
      ensures exists i :: 0 <= i < |list| && list[i].id == id
    {
      var i :| 0 <= i < |order| && order[i] == id;
      assert list[i].id == id;
    }
  }

  /** `snapshot.docs.map(...)`: the lobby entries of a set of room
      documents, in the order the documents are visited. */
  method SummariesOf(docs: map<RoomId, Room>) returns (list: seq<RoomSummary>)
    requires forall id | id in docs :: docs[id].id == id
    ensures ListsRooms(list, docs)
  {
    list := [];
    var remaining := docs.Keys;
    ghost var order: seq<RoomId> := [];
    while remaining != {}
      invariant remaining <= docs.Keys
      invariant forall k :: k in order <==> k in docs && k !in remaining
      invariant forall i, j :: 0 <= i < j < |order| ==> order[i] != order[j]
      invariant |order| + |remaining| == |docs.Keys|
      invariant list == SummariesFor(order, docs)
      decreases |remaining|
    {
      var id :| id in remaining;
      list := list + [Summary(docs[id])];
      order := order + [id];
      remaining := remaining - {id};
    }
    assert |docs.Keys| == |docs|;
    SummariesForAll(order, docs);
  }

  class FirestoreService {
    /** The `rooms` collection: one document per room id. */
    var rooms: map<RoomId, Room>

    ghost predicate Valid()
      reads this
    {
      forall id | id in rooms :: WellFormed(id, rooms[id])
    }

    constructor ()
      ensures Valid() && rooms == map[]
    {
      rooms := map[];
    }

    /** `createRoom`; the fresh id and the clock reading are parameters. */
    method CreateRoom(roomId: RoomId, roomName: string, user: User, now: string) returns (room: Room)
      requires Valid()
      modifies this
      ensures Valid()
      ensures room == NewRoom(roomId, roomName, user, now)
      ensures rooms == old(rooms)[roomId := room]
    {
      room := Room(roomId, roomName, [user], [], false, "", now, now);
      rooms := rooms[roomId := room];
    }

    /** `getRoomById` */
    function GetRoomById(roomId: RoomId): (r: Option<Room>)
      requires Valid()
      reads this
      ensures r.Some? <==> roomId in rooms
      ensures r.Some? ==> r.value == rooms[roomId] && r.value.id == roomId && |r.value.users| > 0
    {
      if roomId in rooms then Some(rooms[roomId]) else None
    }

    /** `getActiveRooms`: one summary per stored room; a failed read gives []. */
    method GetActiveRooms(readFails: bool) returns (list: seq<RoomSummary>)
      requires Valid()
      ensures readFails ==> list == []
      ensures !readFails ==> ListsRooms(list, rooms)
    {
      if readFails {
        return [];
      }
      list := SummariesOf(rooms);
    }

    /** `addUserToRoom` */
    method AddUserToRoom(roomId: RoomId, user: User, now: string) returns (r: Option<Room>)
      requires Valid()
      modifies this
      ensures Valid()
      ensures roomId !in old(rooms) ==> r == None && rooms == old(rooms)
      ensures roomId in old(rooms) ==>
        r == Some(WithUser(old(rooms)[roomId], user, now)) && rooms == old(rooms)[roomId := r.value]
    {
      if roomId !in rooms {
        return None;
      }
      var room := rooms[roomId];
      room := room.(users := room.users + [user]);
      room := room.(updatedAt := now);
      rooms := rooms[roomId := room];
      r := Some(room);
    }

    /** `removeUserFromRoom`: a non-member leaves the store untouched; the
        room is deleted when its last user goes. */
    method RemoveUserFromRoom(roomId: RoomId, userId: UserId, now: string) returns (r: Option<Room>)
      requires Valid()
      modifies this
      ensures Valid()
      ensures roomId !in old(rooms) ==> r == None && rooms == old(rooms)
      ensures roomId in old(rooms) ==> r == RemoveUser(old(rooms)[roomId], userId, now)
      ensures roomId in old(rooms) && r.None? ==> rooms == old(rooms) - {roomId}
      ensures roomId in old(rooms) && r.Some? ==> rooms == old(rooms)[roomId := r.value]
    {
      if roomId !in rooms {
        return None;
      }
      var room := rooms[roomId];
      var userIndex := UserIndex(room.users, userId);
      if userIndex != -1 {
        room := room.(users := RemoveAt(room.users, userIndex));
        room := room.(votes := WithoutVotesOf(room.votes, userId), updatedAt := now);
        if |room.users| == 0 {
          rooms := rooms - {roomId};
          return None;
        } else {
          rooms := rooms[roomId := room];
        }
      }
      r := Some(room);
    }

    /** `submitVote` */
    method SubmitVote(roomId: RoomId, userId: UserId, value: Option<int>, now: string) returns (r: Option<Room>)
      requires Valid()
      modifies this
      ensures Valid()
      ensures roomId !in old(rooms) ==> r == None && rooms == old(rooms)
      ensures roomId in old(rooms) ==>
        r == Some(WithVote(old(rooms)[roomId], userId, value, now)) && rooms == old(rooms)[roomId := r.value]
    {
      if roomId !in rooms {
        return None;
      }
      var room := rooms[roomId];
      var existingVoteIndex := VoteIndex(room.votes, userId);
      if existingVoteIndex != -1 {
        room := room.(votes := room.votes[existingVoteIndex := room.votes[existingVoteIndex].(value := value)]);
      } else {
        room := room.(votes := room.votes + [Vote(userId, value)]);
      }
      room := room.(updatedAt := now);
      rooms := rooms[roomId := room];
      r := Some(room);
    }

    /** `revealVotes` */
    method RevealVotes(roomId: RoomId, now: string) returns (r: Option<Room>)
      requires Valid()
      modifies this
      ensures Valid()
      ensures roomId !in old(rooms) ==> r == None && rooms == old(rooms)
      ensures roomId in old(rooms) ==>
        r == Some(Revealed(old(rooms)[roomId], now)) && rooms == old(rooms)[roomId := r.value]
    {
      if roomId !in rooms {
        return None;
      }
      var room := rooms[roomId];
      room := room.(isRevealed := true, updatedAt := now);
      rooms := rooms[roomId := room];
      r := Some(room);
    }

    /** `resetVotes` */
    method ResetVotes(roomId: RoomId, now: string) returns (r: Option<Room>)
      requires Valid()
      modifies this
      ensures Valid()
      ensures roomId !in old(rooms) ==> r == None && rooms == old(rooms)
      ensures roomId in old(rooms) ==>
        r == Some(VotesReset(old(rooms)[roomId], now)) && rooms == old(rooms)[roomId := r.value]
    {
      if roomId !in rooms {
        return None;
      }
      var room := rooms[roomId];
      room := room.(votes := [], isRevealed := false, updatedAt := now);
      rooms := rooms[roomId := room];
      r := Some(room);
    }

    /** `setCurrentStory` */
    method SetCurrentStory(roomId: RoomId, story: string, now: string) returns (r: Option<Room>)
      requires Valid()
      modifies this
      ensures Valid()
      ensures roomId !in old(rooms) ==> r == None && rooms == old(rooms)
      ensures roomId in old(rooms) ==>
        r == Some(WithStory(old(rooms)[roomId], story, now)) && rooms == old(rooms)[roomId := r.value]
    {
      if roomId !in rooms {
        return None;
      }
      var room := rooms[roomId];
      room := room.(currentStory := story, updatedAt := now);
      rooms := rooms[roomId := room];
      r := Some(room);
    }

    /** `deleteRoom` */
    method DeleteRoom(roomId: RoomId)
      requires Valid()
      modifies this
      ensures Valid()
      ensures rooms == old(rooms) - {roomId}
    {
      rooms := rooms - {roomId};
    }
  }
}
