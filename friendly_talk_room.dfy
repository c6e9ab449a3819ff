// A friendly-talk group room: a capacity-bounded participant list that opens
// the room on the first join and closes it when the last participant leaves.

module FriendlyTalkRoomModel {
  import opened Common

  /** The room states the entity names. */
  datatype RoomStatus = Waiting | Active | Closed

  const DefaultMaxParticipants: int := 6

  /**
   * A room that is not full has room for one more user, which is why
   * addParticipant keeps the list within the capacity.
   */
  lemma NotFullHasRoom(r: FriendlyTalkRoom, user: UserId)
    requires r.Valid() && !r.IsFull()
    ensures |r.participants + [user]| <= r.maxParticipants
  {
  }

  class FriendlyTalkRoom {
    var status: RoomStatus
    var maxParticipants: int
    var currentParticipants: int
    var participants: seq<UserId>
    var startedAt: Option<Time>
    var endedAt: Option<Time>
    var durationMinutes: int

    /** The participant list has no duplicates, the count is its size, and the room holds at most its capacity. */
    ghost predicate Valid()
      reads this
    {
      NoDuplicates(participants)
      && currentParticipants == |participants|
      && (|participants| == 0 || |participants| <= maxParticipants)
    }

    /** A new room as onCreate leaves it: WAITING and empty, a zero capacity becoming 6. */
    constructor (capacity: int)
      ensures Valid()
      ensures status == Waiting && participants == [] && currentParticipants == 0
      ensures maxParticipants == (if capacity == 0 then DefaultMaxParticipants else capacity)
      ensures startedAt == None && endedAt == None && durationMinutes == 0
    {
      status := Waiting;
      maxParticipants := if capacity == 0 then DefaultMaxParticipants else capacity;
      currentParticipants := 0;
      participants := [];
      startedAt := None;
      endedAt := None;
      durationMinutes := 0;
    }

    /** isFull: the count has reached the capacity. */
    predicate IsFull()
      reads this
    {
      currentParticipants >= maxParticipants
    }

    /** isActive: ACTIVE with someone in it. */
    predicate IsActive()
      reads this
    {
      status == Active && |participants| > 0
    }

    /**
     * addParticipant: refused when full; otherwise true, adding the user only
     * if absent, and the first participant of a WAITING room makes it ACTIVE.
     */
    method AddParticipant(user: UserId, now: Time) returns (ok: bool)
      requires Valid()
      modifies this`participants, this`currentParticipants, this`status, this`startedAt
      ensures Valid()
      ensures ok <==> !old(IsFull())
      ensures !ok ==> unchanged(this)
      ensures ok && user in old(participants) ==> unchanged(this)
      ensures ok && user !in old(participants) ==> participants == old(participants) + [user]
      ensures ok ==> user in participants
      ensures ok && user !in old(participants) && old(participants) == [] && old(status) == Waiting ==>
                    status == Active && startedAt == Some(now)
      ensures ok && !(user !in old(participants) && old(participants) == [] && old(status) == Waiting) ==>
                    status == old(status) && startedAt == old(startedAt)
    {
      if IsFull() {
        return false;
      }
      if user !in participants {
        participants := participants + [user];
        currentParticipants := |participants|;
        if currentParticipants == 1 && status == Waiting {
          status := Active;
          startedAt := Some(now);
        }
      }
      return true;
    }

    /**
     * removeParticipant: false for a non-member; otherwise the user leaves,
     * and the last one out of an ACTIVE room closes it and records the
     * duration.
     */
    method RemoveParticipant(user: UserId, now: Time) returns (removed: bool)
      requires Valid()
      modifies this`participants, this`currentParticipants, this`status, this`endedAt, this`durationMinutes
      ensures Valid()
      ensures removed <==> user in old(participants)
      ensures !removed ==> unchanged(this)
      ensures removed ==> participants == RemoveFirst(old(participants), user) && user !in participants
      ensures removed && participants == [] && old(status) == Active ==>
                    status == Closed && endedAt == Some(now)
                    && durationMinutes == (if startedAt.Some? then DurationIn(startedAt.value, now, SecondsPerMinute) else old(durationMinutes))
      ensures !(removed && participants == [] && old(status) == Active) ==>
                    status == old(status) && endedAt == old(endedAt) && durationMinutes == old(durationMinutes)
    {
      removed := user in participants;
      if removed {
        RemoveFirstKeepsDistinct(participants, user);
        participants := RemoveFirst(participants, user);
        currentParticipants := |participants|;
        if currentParticipants == 0 && status == Active {
          status := Closed;
          endedAt := Some(now);
          if startedAt.Some? {
            durationMinutes := DurationIn(startedAt.value, now, SecondsPerMinute);
          }
        }
      }
    }

    /** closeRoom: always CLOSED, recording the end and, when started, the duration. */
    method CloseRoom(now: Time)
      modifies this`status, this`endedAt, this`durationMinutes
      ensures status == Closed && endedAt == Some(now)
      ensures durationMinutes == (if startedAt.Some? then DurationIn(startedAt.value, now, SecondsPerMinute) else old(durationMinutes))
    {
      status := Closed;
      endedAt := Some(now);
      if startedAt.Some? {
        durationMinutes := DurationIn(startedAt.value, now, SecondsPerMinute);
      }
    }
  }
}
