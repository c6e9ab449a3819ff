// A referral of a new user by an existing one, from the invitation code to
// its completion.

module ReferralModel {
  import opened Common

  datatype ReferralStatus = Pending | Completed | Expired | Revoked

  const DefaultValidDays: int := 30

  class Referral {
    var referrer: UserId
    var referee: Option<UserId>
    var code: string
    var status: ReferralStatus
    var createdAt: Time
    var updatedAt: Option<Time>
    var completedAt: Option<Time>
    var expiresAt: Option<Time>
    var rewardAwarded: bool

    /**
     * A new referral as onCreate leaves it: PENDING unless a status was
     * given, expiring 30 days after creation unless an expiry was given.
     */
    constructor (from: UserId, referralCode: string, given: Option<ReferralStatus>, expiry: Option<Time>, now: Time)
      ensures referrer == from && code == referralCode && referee == None && createdAt == now
      ensures status == (if given.Some? then given.value else Pending)
      ensures expiresAt == Some(if expiry.Some? then expiry.value else now + DefaultValidDays * SecondsPerDay)
      ensures completedAt == None && updatedAt == None && !rewardAwarded
    {
      referrer := from;
      referee := None;
      code := referralCode;
      status := if given.Some? then given.value else Pending;
      createdAt := now;
      updatedAt := None;
      completedAt := None;
      expiresAt := Some(if expiry.Some? then expiry.value else now + DefaultValidDays * SecondsPerDay);
      rewardAwarded := false;
    }

    /** isActive: PENDING, with no expiry or an expiry not before now. */
    predicate IsActive(now: Time)
      reads this
    {
      status == Pending && (expiresAt.None? || !(expiresAt.value < now))
    }

    /** completeReferral: only a PENDING referral completes, recording the referee. */
    method CompleteReferral(user: UserId) returns (ok: bool)
      modifies this`referee, this`status
      ensures ok <==> old(status) == Pending
      ensures ok ==> status == Completed && referee == Some(user)
      ensures !ok ==> unchanged(this)
    {
      if status != Pending {
        return false;
      }
      referee := Some(user);
      status := Completed;
      return true;
    }

    /** onUpdate: stamps the update, and the completion time the first time it is saved COMPLETED. */
    method OnUpdate(now: Time)
      modifies this`updatedAt, this`completedAt
      ensures updatedAt == Some(now)
      ensures completedAt == (if status == Completed && old(completedAt).None? then Some(now) else old(completedAt))
    {
      updatedAt := Some(now);
      if status == Completed && completedAt.None? {
        completedAt := Some(now);
      }
    }
  }

  /** A referral completes once: the second call is refused and changes nothing. */
  method CompleteTwice(r: Referral, first: UserId, second: UserId) returns (ok1: bool, ok2: bool)
    modifies r
    ensures ok1 <==> old(r.status) == Pending
    ensures !ok2
    ensures ok1 ==> r.referee == Some(first) && r.status == Completed
  {
    ok1 := r.CompleteReferral(first);
    if !ok1 {
      assert r.status != Pending;
    }
    ok2 := r.CompleteReferral(second);
  }
}
