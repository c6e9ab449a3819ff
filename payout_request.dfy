// A mentor's request to withdraw earnings, and its review and payment
// lifecycle.

module PayoutRequestModel {
  import opened Common

  datatype PayoutStatus = Pending | UnderReview | Approved | Processing | Completed | Failed | Cancelled | OnHold

  /** The guarded transitions; each returns false in the source when refused. */
  datatype PayoutEvent = Approve | MarkProcessing | MarkCompleted | MarkFailed | Cancel

  const HighPriorityAmount: Money := 10000 * 100
  const SuspiciousAmount: Money := 50000 * 100
  const HighValueMentorEarnings: Money := 100000 * 100

  /**
   * The status an event leads to, or None when the source refuses it:
   * approve from PENDING or UNDER_REVIEW, markProcessing from APPROVED,
   * markCompleted from PROCESSING, markFailed from anything but COMPLETED,
   * cancel from anything but COMPLETED and PROCESSING.
   */
  function Next(s: PayoutStatus, e: PayoutEvent): (r: Option<PayoutStatus>)
    ensures e == Approve ==> (r.Some? <==> s == Pending || s == UnderReview)
    ensures e == MarkProcessing ==> (r.Some? <==> s == Approved)
    ensures e == MarkCompleted ==> (r.Some? <==> s == Processing)
    ensures e == MarkFailed ==> (r.Some? <==> s != Completed)
    ensures e == Cancel ==> (r.Some? <==> s != Completed && s != Processing)
    ensures r.Some? ==> r.value == Target(e)
  {
    match e
    case Approve => if s == Pending || s == UnderReview then Some(Approved) else None
    case MarkProcessing => if s == Approved then Some(Processing) else None
    case MarkCompleted => if s == Processing then Some(Completed) else None
    case MarkFailed => if s != Completed then Some(Failed) else None
    case Cancel => if s != Completed && s != Processing then Some(Cancelled) else None
  }

  function Target(e: PayoutEvent): PayoutStatus {
    match e
    case Approve => Approved
    case MarkProcessing => Processing
    case MarkCompleted => Completed
    case MarkFailed => Failed
    case Cancel => Cancelled
  }

  /** The status after a run of events, each refused one leaving the status as it was. */
  function Run(s: PayoutStatus, es: seq<PayoutEvent>): PayoutStatus
    decreases |es|
  {
    if es == [] then s
    else
      var n := Next(s, es[0]);
      Run(if n.Some? then n.value else s, es[1..])
  }

  /** Nothing moves a COMPLETED payout. */
  lemma {:induction false} CompletedIsTerminal(es: seq<PayoutEvent>)
    ensures Run(Completed, es) == Completed
    decreases |es|
  {
    if es != [] {
      assert Next(Completed, es[0]).None?;
      CompletedIsTerminal(es[1..]);
    }
  }

  /**
   * A payout can only be completed after passing through PROCESSING, which in
   * turn is only reached from APPROVED.
   */
  lemma {:induction false} CompletionPassesThroughProcessing(s: PayoutStatus, es: seq<PayoutEvent>)
    requires s != Completed
    requires Run(s, es) == Completed
    ensures exists i :: 0 <= i < |es| && es[i] == MarkCompleted && Run(s, es[..i]) == Processing
    decreases |es|
  {
    assert es != [];
    var n := Next(s, es[0]);
    var s' := if n.Some? then n.value else s;
    assert Run(s, es) == Run(s', es[1..]);
    if s' == Completed {
      assert es[0] == MarkCompleted && s == Processing;
      assert Run(s, es[..0]) == s;
    } else {
      CompletionPassesThroughProcessing(s', es[1..]);
      var i :| 0 <= i < |es[1..]| && es[1..][i] == MarkCompleted && Run(s', es[1..][..i]) == Processing;
      assert es[..i + 1][1..] == es[1..][..i];
      assert Run(s, es[..i + 1]) == Run(s', es[1..][..i]);
    }
  }

  /** isHighPriority: urgent, at least 10,000, or a priority of 5 or more. */
  predicate IsHighPriority(urgent: bool, amount: Money, priority: int) {
    urgent || amount >= HighPriorityAmount || priority >= 5
  }

  /** isAmountSuspicious: strictly above 50,000. */
  predicate IsAmountSuspicious(amount: Money) {
    amount > SuspiciousAmount
  }

  /**
   * getPriorityScore: the base priority, +20 for a high amount, +30 when
   * urgent, +1 per whole day of age, +10 for a mentor with total earnings of
   * 100,000 or more.
   */
  function PriorityScore(priority: int, amount: Money, urgent: bool, requestedAt: Time, now: Time,
                         walletTotalEarned: Money): (r: int)
    ensures requestedAt <= now ==> r >= priority + (if urgent then 30 else 0) + (if amount >= HighPriorityAmount then 20 else 0)
    ensures r <= priority + 60 + Max(0, JavaDiv(DurationIn(requestedAt, now, SecondsPerHour), 24))
  {
    var s1 := priority + (if amount >= HighPriorityAmount then 20 else 0);
    var s2 := s1 + (if urgent then 30 else 0);
    var s3 := s2 + JavaDiv(DurationIn(requestedAt, now, SecondsPerHour), 24);
    s3 + (if walletTotalEarned >= HighValueMentorEarnings then 10 else 0)
  }

  /** Urgency alone adds exactly 30 to the priority score. */
  lemma UrgencyAddsThirty(priority: int, amount: Money, requestedAt: Time, now: Time, earned: Money)
    ensures PriorityScore(priority, amount, true, requestedAt, now, earned)
         == PriorityScore(priority, amount, false, requestedAt, now, earned) + 30
  {
  }

  class PayoutRequest {
    var status: PayoutStatus
    var amount: Money
    var fee: Money
    var netAmount: Money
    var currency: string
    var reviewedBy: Option<UserId>
    var reviewNotes: Option<string>
    var externalPayoutId: Option<string>
    var failureReason: Option<string>
    var requestedAt: Time
    var estimatedProcessingDays: int
    var priority: int
    var urgent: bool
    var autoPayout: bool

    /**
     * A request as onCreate leaves it when built with an amount, fee,
     * priority and processing estimate: PENDING, net = amount − fee, INR, a
     * zero estimate becoming 3 days and a zero priority becoming 1, manual payout.
     */
    constructor (amt: Money, f: Money, days: int, prio: int, isUrgent: bool, now: Time)
      ensures status == Pending && amount == amt && fee == f && netAmount == amt - f && currency == "INR"
      ensures estimatedProcessingDays == (if days == 0 then 3 else days)
      ensures priority == (if prio == 0 then 1 else prio)
      ensures urgent == isUrgent && !autoPayout && requestedAt == now
      ensures reviewedBy == None && externalPayoutId == None && failureReason == None
    {
      status := Pending;
      amount := amt;
      fee := f;
      netAmount := amt - f;
      currency := "INR";
      reviewedBy := None;
      reviewNotes := None;
      externalPayoutId := None;
      failureReason := None;
      requestedAt := now;
      estimatedProcessingDays := if days == 0 then 3 else days;
      priority := if prio == 0 then 1 else prio;
      urgent := isUrgent;
      autoPayout := false;
    }

    method ApproveRequest(reviewer: UserId, notes: string) returns (ok: bool)
      modifies this`status, this`reviewedBy, this`reviewNotes
      ensures ok <==> Next(old(status), Approve).Some?
      ensures ok ==> status == Approved && reviewedBy == Some(reviewer) && reviewNotes == Some(notes)
      ensures !ok ==> unchanged(this)
    {
      if status != Pending && status != UnderReview {
        return false;
      }
      status := Approved;
      reviewedBy := Some(reviewer);
      reviewNotes := Some(notes);
      return true;
    }

    method MarkProcessingRequest() returns (ok: bool)
      modifies this`status
      ensures ok <==> Next(old(status), MarkProcessing).Some?
      ensures status == (if ok then Processing else old(status))
    {
      if status != Approved {
        return false;
      }
      status := Processing;
      return true;
    }

    method MarkCompletedRequest(externalId: string) returns (ok: bool)
      modifies this`status, this`externalPayoutId
      ensures ok <==> Next(old(status), MarkCompleted).Some?
      ensures ok ==> status == Completed && externalPayoutId == Some(externalId)
      ensures !ok ==> unchanged(this)
    {
      if status != Processing {
        return false;
      }
      status := Completed;
      externalPayoutId := Some(externalId);
      return true;
    }

    method MarkFailedRequest(reason: string) returns (ok: bool)
      modifies this`status, this`failureReason
      ensures ok <==> Next(old(status), MarkFailed).Some?
      ensures ok ==> status == Failed && failureReason == Some(reason)
      ensures !ok ==> unchanged(this)
    {
      if status == Completed {
        return false;
      }
      status := Failed;
      failureReason := Some(reason);
      return true;
    }

    method CancelRequest() returns (ok: bool)
      modifies this`status
      ensures ok <==> Next(old(status), Cancel).Some?
      ensures status == (if ok then Cancelled else old(status))
    {
      if status == Completed || status == Processing {
        return false;
      }
      status := Cancelled;
      return true;
    }

    /** isOverdue: PENDING or APPROVED and past requestedAt plus the estimated days. */
    predicate IsOverdue(now: Time)
      reads this
    {
      (status == Pending || status == Approved) && requestedAt + estimatedProcessingDays * SecondsPerDay < now
    }

    /**
     * isEligibleForAutoPayout: auto payout on, at least the threshold, the
     * wallet itself eligible, and still PENDING.
     */
    predicate IsEligibleForAutoPayout(threshold: Money, walletEligible: bool)
      reads this
    {
      autoPayout && amount >= threshold && walletEligible && status == Pending
    }

    /** requiresAdditionalVerification */
    predicate RequiresAdditionalVerification(walletKycCompleted: bool, walletVerificationLevel: int)
      reads this
    {
      IsAmountSuspicious(amount) || !walletKycCompleted || walletVerificationLevel < 2
      || IsHighPriority(urgent, amount, priority)
    }
  }
}
