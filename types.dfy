/**
 * The records the server stores and broadcasts (`server/src/types/index.ts`).
 * Identifiers and timestamps are strings; a vote value is a number or null.
 */
module RoomTypes {
  import opened Wrappers

  type RoomId = string
  type UserId = string

  datatype User = User(id: UserId, name: string, isSpectator: bool)

  datatype Vote = Vote(userId: UserId, value: Option<int>)

  datatype Room = Room(
    id: RoomId,
    name: string,
    users: seq<User>,
    votes: seq<Vote>,
    isRevealed: bool,
    currentStory: string,
    createdAt: string,
    updatedAt: string)

  /** One entry of the active-rooms list sent to the lobby. */
  datatype RoomSummary = RoomSummary(id: RoomId, name: string, userCount: nat)

  /** At most one vote per user id. */
  ghost predicate UniqueVoters(votes: seq<Vote>) {
    forall i, j :: 0 <= i < |votes| && 0 <= j < |votes| && votes[i].userId == votes[j].userId ==> i == j
  }

  /** Some user of the room has this id. */
  ghost predicate IsMember(room: Room, userId: UserId) {
    exists k :: 0 <= k < |room.users| && room.users[k].id == userId
  }
}
