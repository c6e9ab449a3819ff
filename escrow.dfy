// Funds held between a sender's and a recipient's wallet until they are
// released, refunded, disputed or expire.

module EscrowModel {
  import opened Common

  datatype EscrowStatus = Active | Released | Refunded | Disputed | Expired

  datatype EscrowType = SessionPayment | ServicePayment | Marketplace | Freelance

  /** The guarded transitions; each returns false in the source when refused. */
  datatype EscrowEvent = Release | Refund | Expire | Dispute

  const HighValueAmount: Money := 5000 * 100
  const DisputeWindowDays: int := 7

  /**
   * The status an event leads to, or None when refused: release, expiry and
   * dispute only from ACTIVE, refund from ACTIVE or DISPUTED.
   */
  function Next(s: EscrowStatus, e: EscrowEvent): (r: Option<EscrowStatus>)
    ensures e == Release ==> (r.Some? <==> s == Active) && (r.Some? ==> r.value == Released)
    ensures e == Refund ==> (r.Some? <==> s == Active || s == Disputed) && (r.Some? ==> r.value == Refunded)
    ensures e == Expire ==> (r.Some? <==> s == Active) && (r.Some? ==> r.value == Expired)
    ensures e == Dispute ==> (r.Some? <==> s == Active) && (r.Some? ==> r.value == Disputed)
  {
    match e
    case Release => if s == Active then Some(Released) else None
    case Refund => if s == Active || s == Disputed then Some(Refunded) else None
    case Expire => if s == Active then Some(Expired) else None
    case Dispute => if s == Active then Some(Disputed) else None
  }

  /** The status after a run of events, each refused one leaving the status as it was. */
  function Run(s: EscrowStatus, es: seq<EscrowEvent>): EscrowStatus
    decreases |es|
  {
    if es == [] then s
    else
      var n := Next(s, es[0]);
      Run(if n.Some? then n.value else s, es[1..])
  }

  predicate IsSettled(s: EscrowStatus) {
    s == Released || s == Refunded || s == Expired
  }

  /** RELEASED, REFUNDED and EXPIRED admit no further transition. */
  lemma {:induction false} SettledIsTerminal(s: EscrowStatus, es: seq<EscrowEvent>)
    requires IsSettled(s)
    ensures Run(s, es) == s
    decreases |es|
  {
    if es != [] {
      assert Next(s, es[0]).None?;
      SettledIsTerminal(s, es[1..]);
    }
  }

  /** Running two event lists one after the other is running their concatenation. */
  lemma {:induction false} RunConcat(s: EscrowStatus, es: seq<EscrowEvent>, fs: seq<EscrowEvent>)
    ensures Run(s, es + fs) == Run(Run(s, es), fs)
    decreases |es|
  {
    if es != [] {
      var n := Next(s, es[0]);
      var s' := if n.Some? then n.value else s;
      assert (es + fs)[0] == es[0];
      assert (es + fs)[1..] == es[1..] + fs;
      assert Run(s, es + fs) == Run(s', es[1..] + fs);
      RunConcat(s', es[1..], fs);
    } else {
      assert es + fs == fs;
    }
  }

  /** Held funds leave the escrow once: a released escrow was never refunded or expired on the way. */
  lemma ReleasedWasNeverSettledBefore(es: seq<EscrowEvent>, k: int)
    requires 0 <= k <= |es|
    requires Run(Active, es) == Released
    ensures Run(Active, es[..k]) == Active || Run(Active, es[..k]) == Released
  {
    var mid := Run(Active, es[..k]);
    assert es == es[..k] + es[k..];
    RunConcat(Active, es[..k], es[k..]);
    if IsSettled(mid) {
      SettledIsTerminal(mid, es[k..]);
    } else if mid == Disputed {
      DisputedRun(es[k..]);
    }
  }

  /** A disputed escrow stays disputed until it is refunded; it is never released. */
  lemma {:induction false} DisputedRun(es: seq<EscrowEvent>)
    ensures Run(Disputed, es) == Disputed || Run(Disputed, es) == Refunded
    decreases |es|
  {
    if es != [] {
      var n := Next(Disputed, es[0]);
      if n.Some? {
        SettledIsTerminal(Refunded, es[1..]);
      } else {
        DisputedRun(es[1..]);
      }
    }
  }

  /** getValueAtRisk: the amount while ACTIVE, else zero. */
  function ValueAtRisk(s: EscrowStatus, amount: Money): (r: Money)
    ensures s == Active ==> r == amount
    ensures s != Active ==> r == 0
  {
    if s == Active then amount else 0
  }

  /** isHighValue: at least 5,000. */
  predicate IsHighValue(amount: Money) {
    amount >= HighValueAmount
  }

  /**
   * getPriorityScore: +30 for a high value, +1 per whole day of age, +50 when
   * DISPUTED, +100 when past the dispute deadline.
   */
  function PriorityScore(s: EscrowStatus, amount: Money, createdAt: Option<Time>, deadline: Option<Time>, now: Time): (r: int)
    ensures (createdAt.None? || createdAt.value <= now) ==> r >= (if s == Disputed then 50 else 0)
    ensures (createdAt.None? || createdAt.value <= now) && deadline.Some? && deadline.value < now ==> r >= 100
    ensures createdAt.None? ==> r <= 180
  {
    var days := if createdAt.Some? then DurationIn(createdAt.value, now, SecondsPerDay) else 0;
    (if IsHighValue(amount) then 30 else 0) + days
    + (if s == Disputed then 50 else 0)
    + (if deadline.Some? && deadline.value < now then 100 else 0)
  }

  class Escrow {
    var status: EscrowStatus
    var kind: EscrowType
    var amount: Money
    var fee: Money
    var netAmount: Money
    var currency: string
    var autoReleaseEnabled: bool
    var autoReleaseDate: Option<Time>
    var disputeDeadline: Option<Time>
    var createdAt: Option<Time>
    var releasedAt: Option<Time>
    var refundedAt: Option<Time>
    var expiredAt: Option<Time>
    var disputeReason: Option<string>
    var resolutionNotes: Option<string>
    var resolver: Option<UserId>

    /**
     * A new escrow as onCreate leaves it: missing amounts zero, net = amount -
     * fee, INR, ACTIVE, auto-release switched off whatever was
     * requested, a dispute deadline 7 days out.
     */
    constructor (amt: Option<Money>, f: Option<Money>, escrowType: EscrowType, autoRelease: bool, now: Time)
      ensures amount == (if amt.Some? then amt.value else 0) && fee == (if f.Some? then f.value else 0)
      ensures netAmount == amount - fee && currency == "INR" && status == Active && kind == escrowType
      ensures !autoReleaseEnabled && disputeDeadline == Some(now + DisputeWindowDays * SecondsPerDay)
      ensures createdAt == Some(now) && releasedAt == None && refundedAt == None && expiredAt == None
      ensures resolver == None && disputeReason == None
    {
      var a := if amt.Some? then amt.value else 0;
      var charge := if f.Some? then f.value else 0;
      amount := a;
      fee := charge;
      netAmount := a - charge;
      currency := "INR";
      status := Active;
      kind := escrowType;
      autoReleaseEnabled := false;
      autoReleaseDate := None;
      disputeDeadline := Some(now + DisputeWindowDays * SecondsPerDay);
      createdAt := Some(now);
      releasedAt := None;
      refundedAt := None;
      expiredAt := None;
      disputeReason := None;
      resolutionNotes := None;
      resolver := None;
    }

    method ReleaseFunds(actor: UserId) returns (ok: bool)
      modifies this`status, this`resolver
      ensures ok <==> Next(old(status), Release).Some?
      ensures ok ==> status == Released && resolver == Some(actor)
      ensures !ok ==> unchanged(this)
    {
      if status != Active {
        return false;
      }
      status := Released;
      resolver := Some(actor);
      return true;
    }

    method RefundFunds(reason: string, actor: UserId) returns (ok: bool)
      modifies this`status, this`resolutionNotes, this`resolver
      ensures ok <==> Next(old(status), Refund).Some?
      ensures ok ==> status == Refunded && resolutionNotes == Some("Refunded: " + reason) && resolver == Some(actor)
      ensures !ok ==> unchanged(this)
    {
      if status != Active && status != Disputed {
        return false;
      }
      status := Refunded;
      resolutionNotes := Some("Refunded: " + reason);
      resolver := Some(actor);
      return true;
    }

    method MarkExpired() returns (ok: bool)
      modifies this`status
      ensures ok <==> Next(old(status), Expire).Some?
      ensures status == (if ok then Expired else old(status))
    {
      if status == Active {
        status := Expired;
        return true;
      }
      return false;
    }

    method RaiseDispute(reason: string) returns (ok: bool)
      modifies this`status, this`disputeReason
      ensures ok <==> Next(old(status), Dispute).Some?
      ensures ok ==> status == Disputed && disputeReason == Some(reason)
      ensures !ok ==> unchanged(this)
    {
      if status == Active {
        status := Disputed;
        disputeReason := Some(reason);
        return true;
      }
      return false;
    }

    /** onUpdate: stamps the settlement time the first time each settled status is saved. */
    method OnUpdate(now: Time)
      modifies this`releasedAt, this`refundedAt, this`expiredAt
      ensures releasedAt == (if status == Released && old(releasedAt).None? then Some(now) else old(releasedAt))
      ensures refundedAt == (if status == Refunded && old(refundedAt).None? then Some(now) else old(refundedAt))
      ensures expiredAt == (if status == Expired && old(expiredAt).None? then Some(now) else old(expiredAt))
    {
      if status == Released && releasedAt.None? {
        releasedAt := Some(now);
      }
      if status == Refunded && refundedAt.None? {
        refundedAt := Some(now);
      }
      if status == Expired && expiredAt.None? {
        expiredAt := Some(now);
      }
    }

    /** canAutoRelease: enabled, with an auto-release date already past. */
    predicate CanAutoRelease(now: Time)
      reads this
    {
      autoReleaseEnabled && autoReleaseDate.Some? && autoReleaseDate.value < now
    }

    /** isOverdue: past the dispute deadline. */
    predicate IsOverdue(now: Time)
      reads this
    {
      disputeDeadline.Some? && disputeDeadline.value < now
    }
  }
}
