# Pointing-poker room engine in Dafny

A model of the room engine of a planning-poker application. Clients create
and join rooms, vote on a story, reveal and reset the votes, and leave.
The model has three parts, one per source file:

- **The room store** (`room_service.dfy`, module `RoomService`). This is
  `FirestoreService`: a collection of room documents keyed by room id.
  - The body of each transaction is a pure function on `Room`: `NewRoom`,
    `WithUser`, `RemoveUser`, `WithVote`, `Revealed`, `VotesReset` and
    `WithStory`. Their contracts give their meaning.
  - The class `FirestoreService` holds the collection as a
    `map<RoomId, Room>`. Its methods take the same steps as the source:
    push, splice, filter, index update, then write or delete.
  - Each method's contract ties the new store to those functions.
  - Its invariant `Valid` says every stored room is filed under its own id,
    has at least one user and holds at most one vote per user.
- **The socket server** (`socket_server.dfy`, module `SocketServer`). These
  are the socket.io handlers of `server/src/index.ts`, as the class `Server`.
  Its state is:
  - the room store;
  - the connected sockets;
  - `socketRooms`, which maps each socket to the room it last created or
    joined;
  - the socket.io room subscriptions;
  - a log of every emission, with the set of sockets it reaches.

  Each handler is one atomic step. A failing store call is the `fault`
  parameter, and a failing read of the room list is `readFails`. The
  invariant says every bound socket is a user of the room it is bound to,
  and only connected sockets are subscribed.
- **The client room state** (`room_context.dfy`, module `RoomContext`).
  This is `RoomProvider` of `src/context/RoomContext.tsx`.
  - `Reconcile` is the transition that `handleRoomUpdate` makes over
    (room, user, pending user name). Its contract states each branch, and
    states that a client awaiting no name ends up holding a user of the
    room it holds.
  - The class `RoomProvider` performs that transition step by step.
  - Its guarded actions append the commands they emit to `sent`.

Shared pieces: `array_ops.dfy` gives JavaScript's `findIndex`, `filter` and
`splice(i, 1)` on sequences. `types.dfy` holds the records of
`server/src/types/index.ts`. `wrappers.dfy` holds `Option`, where `None`
stands for `null`.

A hardened server would de-duplicate joins, check voters, require votes
before a reveal, handle spectator toggles and announce closed rooms. This
code does none of that, and the model follows the code:
- joining appends a user even when one with the same id is present;
- a vote is stored for any user id, member or not, spectator or not, so
  "every vote belongs to a current non-spectator participant" is not an
  invariant of the code;
- revealing needs no votes;
- the server has no `toggleSpectator` handler, although the client emits
  that command;
- deleting a room sends its subscribers no closing notice. Only the
  active-rooms broadcast follows.

JavaScript truthiness is modelled where the code tests a string:
- `disconnect` does nothing for a socket bound to the room id `""`;
- a pending user name `""` counts as no pending name.

## Model

| member | source | states |
|---|---|---|
| ArrayOps.FindIndex | server/src/services/FirestoreService.ts:101 | the result is -1 exactly when no element satisfies the predicate; otherwise it is the first index whose element does |
| ArrayOps.Filter | server/src/services/FirestoreService.ts:105 | the result holds exactly the elements that satisfy the predicate, each as often as in the input, and is no longer than the input; the empty input gives the empty result |
| ArrayOps.FilterSnoc | server/src/services/FirestoreService.ts:105 | filtering keeps the input order: extending the input by one element extends the result by that element exactly when it satisfies the predicate (with the empty case, this fixes the result completely; proof by induction) |
| ArrayOps.RemoveAt | server/src/services/FirestoreService.ts:104 | `splice(i, 1)` drops position `i` and keeps every other element in order |
| RoomService.UserIndex | server/src/services/FirestoreService.ts:101 | the first position of a user with the id, or -1 exactly when no user has it |
| RoomService.VoteIndex | server/src/services/FirestoreService.ts:136 | the first position of a vote by the user, or -1 exactly when the user has no vote |
| RoomService.FilterKeepsUniqueVoters | server/src/services/FirestoreService.ts:105 | filtering a vote list in which no user votes twice never produces a duplicate voter (proof by induction) |
| RoomService.WithoutVotesOf | server/src/services/FirestoreService.ts:105 | removes every vote of the leaving user, keeps every other vote with its multiplicity, and keeps "one vote per user" |
| RoomService.WithoutVotesOfSnoc | server/src/services/FirestoreService.ts:105 | the remaining votes keep their order: a vote added at the end stays at the end exactly when it is not the leaving user's |
| RoomService.UpsertVote | server/src/services/FirestoreService.ts:136-145 | an existing vote keeps its position and takes the new value, otherwise the vote is appended; all other votes are unchanged; the user then has a vote with that value; "one vote per user" is preserved |
| RoomService.NewRoom | server/src/services/FirestoreService.ts:9-24 | the new room has the given id and name, the creator as its only user, no votes, is not revealed, has an empty story, carries the clock reading in both timestamps, and is well formed |
| RoomService.WithUser | server/src/services/FirestoreService.ts:81-85 | the user is appended even when already present (count plus one); votes, reveal flag, story and id are unchanged; every earlier member stays a member; well-formedness is kept |
| RoomService.WithoutUserAt | server/src/services/FirestoreService.ts:104-106 | the user at the position is spliced out and every vote with that user's id is dropped, the other votes keeping their order; every other member stays; only users, votes and `updatedAt` change; well-formedness is kept while a user remains |
| RoomService.RemoveUser | server/src/services/FirestoreService.ts:100-121 | a non-member leaves the room unchanged. A member's first entry is spliced out and the votes become `WithoutVotesOf` the old ones, so all of the member's votes are dropped and the others keep their order; the room is deleted (None) exactly when they were its only user. Every other member stays; nothing else but `updatedAt` changes; well-formedness is kept |
| RoomService.WithVote | server/src/services/FirestoreService.ts:135-149 | only votes and `updatedAt` change; the user's vote holds the value; every other user's vote is kept; membership and spectator status are not consulted; well-formedness is kept |
| RoomService.Revealed | server/src/services/FirestoreService.ts:163-168 | sets the reveal flag, keeps the votes and every other field but `updatedAt`, and keeps well-formedness |
| RoomService.VotesReset | server/src/services/FirestoreService.ts:182-193 | empties the votes, clears the reveal flag, keeps every other field but `updatedAt`, and keeps well-formedness |
| RoomService.WithStory | server/src/services/FirestoreService.ts:206-214 | changes only the story (and `updatedAt`) and keeps well-formedness |
| RoomService.RevealIsIdempotent | server/src/services/FirestoreService.ts:164 | revealing twice gives the same room as revealing once |
| RoomService.ResetIsIdempotent | server/src/services/FirestoreService.ts:183-184 | resetting twice gives the same room as resetting once |
| RoomService.SummariesFor | server/src/services/FirestoreService.ts:39-46 | one summary per visited document, in visiting order: id, name and user count |
| RoomService.SummariesForAll | server/src/services/FirestoreService.ts:39-46 | visiting every document once gives a list with exactly one correct summary per stored room |
| RoomService.SummariesOf | server/src/services/FirestoreService.ts:39-46 | the loop over the documents returns exactly one summary per stored room, with `userCount` equal to the number of users |
| RoomService.FirestoreService.constructor | server/src/services/FirestoreService.ts:5-6 | a fresh store is valid and empty. A restarted server attaches to a collection that may already hold rooms, so the server model does not start from this constructor: `SocketServer.Server.constructor` accepts any valid store |
| RoomService.FirestoreService.CreateRoom | server/src/services/FirestoreService.ts:9-24 | stores `NewRoom` under the fresh id, returns it, and keeps the store valid |
| RoomService.FirestoreService.GetRoomById | server/src/services/FirestoreService.ts:27-33 | a stored room is returned exactly when its id is present; it carries that id and has at least one user |
| RoomService.FirestoreService.GetActiveRooms | server/src/services/FirestoreService.ts:36-69 | one `{id, name, userCount}` per stored room; a failed read gives the empty list |
| RoomService.FirestoreService.AddUserToRoom | server/src/services/FirestoreService.ts:72-88 | an absent room gives None and leaves the store unchanged; otherwise the room becomes `WithUser` of it and is returned |
| RoomService.FirestoreService.RemoveUserFromRoom | server/src/services/FirestoreService.ts:91-123 | an absent room gives None and changes nothing. Otherwise the result is `RemoveUser` of the room: None means the room was deleted, and a room means it was stored. No stored room is ever left without users |
| RoomService.FirestoreService.SubmitVote | server/src/services/FirestoreService.ts:126-151 | an absent room gives None and changes nothing; otherwise the room becomes `WithVote` of it and is returned |
| RoomService.FirestoreService.RevealVotes | server/src/services/FirestoreService.ts:154-170 | an absent room gives None and changes nothing; otherwise the room becomes `Revealed` of it and is returned |
| RoomService.FirestoreService.ResetVotes | server/src/services/FirestoreService.ts:173-194 | an absent room gives None and changes nothing; otherwise the room becomes `VotesReset` of it and is returned |
| RoomService.FirestoreService.SetCurrentStory | server/src/services/FirestoreService.ts:197-216 | an absent room gives None and changes nothing; otherwise the room becomes `WithStory` of it and is returned |
| RoomService.FirestoreService.DeleteRoom | server/src/services/FirestoreService.ts:219-221 | the room is gone and nothing else changes |
| SocketServer.CreateKeepsBindings | server/src/index.ts:47-53 | binding the creator's socket to its new room keeps every binding pointing at a room that has the bound socket as a user |
| SocketServer.JoinKeepsBindings | server/src/index.ts:85-95 | adding the joiner and binding their socket keeps every binding sound |
| SocketServer.SameUsersKeepBindings | server/src/index.ts:109-155 | a room change that keeps its users keeps every binding sound |
| SocketServer.LeaveKeepsBindings | server/src/index.ts:159-165 | removing a socket's user (possibly deleting the room) and unbinding the socket keeps every other binding sound |
| SocketServer.Server.SubscribersOf | server/src/index.ts:56 | `io.to(roomId)` reaches exactly the sockets subscribed to that room |
| SocketServer.Server.constructor | server/src/index.ts:23 | the server starts with no sockets, no bindings, no subscriptions and nothing emitted |
| SocketServer.Server.Connect | server/src/index.ts:36 | a new socket joins the connected set |
| SocketServer.Server.BroadcastActiveRooms | server/src/index.ts:26-34 | appends exactly one `activeRoomsUpdated` emission to every connected socket, carrying one summary per stored room (or [] when the read fails) |
| SocketServer.Server.CreateRoom | server/src/index.ts:39-66 | on success stores `NewRoom` with the creator's id equal to the socket id, binds and subscribes the socket, sends `roomUpdated` to the room's subscribers and then broadcasts the room list. On failure only `'Failed to create room'` goes to the sender |
| SocketServer.Server.JoinRoom | server/src/index.ts:68-107 | an unknown room id gets `'Room not found'` to the sender alone: no binding, no subscription, no broadcast. Otherwise the socket's user (id equal to the socket id) is appended, the binding is overwritten, the socket is subscribed, and `roomUpdated` and then the room-list broadcast follow. A failure gets `'Failed to join room'` |
| SocketServer.Server.Vote | server/src/index.ts:109-119 | the vote is recorded under the sender's own socket id, and `roomUpdated` goes to the subscribers only when the room exists. There is no broadcast. A failure gets `'Failed to submit vote'` to the sender |
| SocketServer.Server.RevealVotes | server/src/index.ts:121-131 | `roomUpdated` goes to the subscribers only when the room exists, and there is no broadcast. A failure gets `'Failed to reveal votes'` |
| SocketServer.Server.ResetVotes | server/src/index.ts:133-143 | `roomUpdated` goes to the subscribers only when the room exists, and there is no broadcast. A failure gets `'Failed to reset votes'` |
| SocketServer.Server.SetCurrentStory | server/src/index.ts:145-155 | `roomUpdated` goes to the subscribers only when the room exists, and there is no broadcast. A failure gets `'Failed to set story'` |
| SocketServer.Server.RemoveAndNotify | server/src/index.ts:159-173 | removes the socket's user, unbinds the socket, sends `roomUpdated` to the remaining subscribers only if the room survives, then broadcasts the room list |
| SocketServer.Server.LeaveRoom | server/src/index.ts:157-177 | the socket is always unsubscribed and unbound, and the remaining subscribers are notified only if the room still exists; a broadcast follows. A failing store call changes nothing and reports nothing |
| SocketServer.Server.GetActiveRooms | server/src/index.ts:179-190 | exactly one `activeRooms` reply, to the sender only: one summary per stored room, or [] when the read fails |
| SocketServer.Server.DropSocket | server/src/index.ts:192-193 | before the disconnect handler runs, the socket is no longer connected and has left every room |
| SocketServer.Server.Disconnect | server/src/index.ts:192-216 | an unbound socket (or one bound to `""`) changes nothing beyond leaving; a bound one has its user removed from the bound room and its binding cleared, and the remaining subscribers and then everyone are notified; a failing store call leaves the binding in place |
| RoomContext.WireValue | src/context/RoomContext.tsx:109 | a numeric card is sent as its number, `'?'` and `'coffee'` as null |
| RoomContext.NamedIndex | src/context/RoomContext.tsx:54 | the first user with the name, or -1 exactly when none has it |
| RoomContext.MatchIndex | src/context/RoomContext.tsx:61 | the first user with the held user's id or name, or -1 exactly when none matches |
| RoomContext.Reconcile | src/context/RoomContext.tsx:36-76 | an update for another room clears room, user and pending name. Otherwise, while a name is awaited, the update is adopted: the first user with that name becomes the user and the name is cleared, or user and name stay as they were when nobody has it. With a held user and no awaited name, the first user matching by id or name replaces it and the update is adopted; with no match, room and user are cleared and the update is dropped. With neither, the update is adopted. Always: the room held is the update or nothing, and a client awaiting no name holds a user of its room |
| RoomContext.SameNameTakesFirstUser | src/context/RoomContext.tsx:53-58 | a client that joined as "Bob" into a room that already had a "Bob" adopts the earlier user, not the one the server appended for it |
| RoomContext.RoomProvider.constructor | src/context/RoomContext.tsx:24-34 | starts from the saved room and user with no pending name and nothing sent |
| RoomContext.RoomProvider.HandleRoomUpdate | src/context/RoomContext.tsx:36-76 | the new state is `Reconcile` of the old state and the update, so the client ends up settled |
| RoomContext.RoomProvider.CreateRoom | src/context/RoomContext.tsx:97-100 | awaits the creator's name and sends `createRoom` |
| RoomContext.RoomProvider.JoinRoom | src/context/RoomContext.tsx:102-105 | awaits the joiner's name and sends `joinRoom` |
| RoomContext.RoomProvider.Vote | src/context/RoomContext.tsx:107-110 | sends nothing without both a room and a user; otherwise sends the vote for the held room, with a non-numeric card as null |
| RoomContext.RoomProvider.RevealVotes | src/context/RoomContext.tsx:112-115 | sends nothing without a room, otherwise `revealVotes` for it |
| RoomContext.RoomProvider.ResetVotes | src/context/RoomContext.tsx:117-120 | sends nothing without a room, otherwise `resetVotes` for it |
| RoomContext.RoomProvider.SetCurrentStory | src/context/RoomContext.tsx:122-125 | sends nothing without a room, otherwise `setCurrentStory` for it |
| RoomContext.RoomProvider.ToggleSpectator | src/context/RoomContext.tsx:127-130 | sends nothing without a room, otherwise `toggleSpectator` for it |
| RoomContext.RoomProvider.ExitRoom | src/context/RoomContext.tsx:132-141 | always ends with no room, no user and no pending name; sends `leaveRoom` only if a room was held |

## Left out

- Firestore and socket.io input and output: the store is an in-memory map, `socket.join`/`socket.leave` are a set of (socket, room) pairs, and every `emit` is a log entry.
- Firestore's transaction retries and all concurrency between handlers, including the gap between the existence check and the insert in `joinRoom`: each handler is one atomic step.
- The collection-initialisation write in `getActiveRooms` (a test document written and deleted): only "an error gives the empty list" is modelled.
- The document order of the active-rooms list: the model promises one entry per room in some order.
- `uuidv4()` and `new Date().toISOString()`: the new room id and the clock reading are parameters. `SocketServer.Server.CreateRoom` requires the id to be unused, as a fresh uuid is.
- The `'Failed to join room'` reply after `addUserToRoom` returns null: with atomic handlers the room found a moment earlier is still there, so only the failure path gives that reply.
- The `catch` in `broadcastActiveRooms`: the read failure it guards against is `readFails`, which sends [].
- The console logging of every handler.
- The `useRoom` hook, the `getActiveRooms` wrapper of the client, the client transport of `src/hooks/useSocket.ts` (reconnection, re-joining from saved data, and dropping a command while the socket is not connected) and the persistence effects of `src/context/RoomContext.tsx` (saving room and user to local storage): browser I/O.
- React's batching of state updates: each client callback is one sequential step on the provider's state.
- The user interface, including the average of revealed votes (floating-point division and rounding).
