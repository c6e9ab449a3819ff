// A live broadcast session hosted by a mentor: its status and the set of
// users who have joined it.

module LiveSessionModel {
  import opened Common

  datatype LiveStatus = Scheduled | Live | Ended | Cancelled

  const DefaultMaxParticipants: int := 50

  /**
   * A session that can be joined has room for one more user, so a join that
   * canJoin lets through keeps the count within the capacity.
   */
  lemma JoinableHasRoom(s: LiveSession, user: UserId)
    requires s.Valid() && s.CanJoin()
    ensures |s.participants + {user}| <= s.maxParticipants
    ensures s.status == Live
  {
    if user in s.participants {
      assert s.participants + {user} == s.participants;
    } else {
      assert |s.participants + {user}| == |s.participants| + 1;
    }
  }

  class LiveSession {
    var status: LiveStatus
    var maxParticipants: int
    var currentParticipants: int
    var participants: set<UserId>

    /** The count is the size of the participant set. */
    ghost predicate Valid()
      reads this
    {
      currentParticipants == |participants|
    }

    /** A new session with the field defaults: SCHEDULED, capacity 50, nobody in it. */
    constructor ()
      ensures Valid()
      ensures status == Scheduled && maxParticipants == DefaultMaxParticipants
      ensures participants == {} && currentParticipants == 0
    {
      status := Scheduled;
      maxParticipants := DefaultMaxParticipants;
      currentParticipants := 0;
      participants := {};
    }

    predicate IsLive()
      reads this
    {
      status == Live
    }

    predicate IsFull()
      reads this
    {
      currentParticipants >= maxParticipants
    }

    /** canJoin: LIVE and not full. */
    predicate CanJoin()
      reads this
    {
      IsLive() && !IsFull()
    }

    /**
     * addParticipant: the user joins the set and the count is recomputed;
     * adding a member again changes nothing. No capacity check is made here.
     */
    method AddParticipant(user: UserId)
      requires Valid()
      modifies this`participants, this`currentParticipants
      ensures Valid()
      ensures participants == old(participants) + {user}
      ensures user in old(participants) ==> unchanged(this)
    {
      if user !in participants {
        participants := participants + {user};
        currentParticipants := |participants|;
      }
    }

    /** removeParticipant: the user leaves the set; removing a non-member changes nothing. */
    method RemoveParticipant(user: UserId)
      requires Valid()
      modifies this`participants, this`currentParticipants
      ensures Valid()
      ensures participants == old(participants) - {user}
      ensures user !in old(participants) ==> unchanged(this)
    {
      if user in participants {
        participants := participants - {user};
        currentParticipants := |participants|;
      }
    }
  }
}
