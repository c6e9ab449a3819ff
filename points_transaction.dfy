// One entry in a points ledger, and its reversal.

module PointsTransactionModel {
  import opened Common

  /** The reason enum's constants are not part of this model; a reason is its name. */
  type PointsReason = string

  /** The fields of a points transaction, as a value. */
  datatype PointsEntry = PointsEntry(
    id: Option<nat>,
    accountId: nat,
    userId: UserId,
    delta: Money,
    reason: PointsReason,
    referenceId: Option<string>,
    description: Option<string>,
    reversed: bool,
    reversalReason: Option<string>,
    reversedAt: Option<Time>)

  /**
   * The transaction createReversal builds for entry `e`: same account, user
   * and reason, the opposite delta, a reference to the reversed id, and a
   * description that names it as a reversal. It is not itself reversed.
   */
  function ReversalOf(e: PointsEntry, reason: string, now: Time): (r: PointsEntry)
    ensures r.accountId == e.accountId && r.userId == e.userId && r.reason == e.reason
    ensures r.delta == -e.delta && e.delta + r.delta == 0
    ensures !r.reversed && r.id == None
    ensures r.referenceId.Some? && StartsWith(r.referenceId.value, "REVERSAL_OF_")
    ensures r.description.Some? && StartsWith(r.description.value, "Reversal: ")
    ensures r.reversalReason == Some(reason) && r.reversedAt == Some(now)
  {
    PointsEntry(
      None, e.accountId, e.userId, -e.delta, e.reason,
      Some("REVERSAL_OF_" + OptionalNumberText(e.id)),
      Some("Reversal: " + (if e.description.Some? then e.description.value else "")),
      false, Some(reason), Some(now))
  }

  /** Reversing a reversal restores the original delta, account, user and reason. */
  lemma ReversalOfReversal(e: PointsEntry, reason1: string, reason2: string, t1: Time, t2: Time)
    ensures var back := ReversalOf(ReversalOf(e, reason1, t1), reason2, t2);
            back.delta == e.delta && back.accountId == e.accountId
            && back.userId == e.userId && back.reason == e.reason
  {
  }

  /** Reversals of two stored transactions with different ids carry different reference ids. */
  lemma ReversalReferencesDiffer(e1: PointsEntry, e2: PointsEntry, reason: string, now: Time)
    requires e1.id.Some? && e2.id.Some? && e1.id != e2.id
    ensures ReversalOf(e1, reason, now).referenceId != ReversalOf(e2, reason, now).referenceId
  {
    var p := "REVERSAL_OF_";
    var t1, t2 := DecimalText(e1.id.value), DecimalText(e2.id.value);
    if p + t1 == p + t2 {
      assert t1 == (p + t1)[|p|..] == (p + t2)[|p|..] == t2;
      DecimalTextRoundTrip(e1.id.value);
      DecimalTextRoundTrip(e2.id.value);
      assert false;
    }
  }

  class PointsTransaction {
    var id: Option<nat>
    var accountId: nat
    var userId: UserId
    var delta: Money
    var reason: PointsReason
    var referenceId: Option<string>
    var description: Option<string>
    var reversed: bool
    var reversalReason: Option<string>
    var reversedAt: Option<Time>

    function Entry(): PointsEntry
      reads this
    {
      PointsEntry(id, accountId, userId, delta, reason, referenceId, description,
                  reversed, reversalReason, reversedAt)
    }

    constructor (e: PointsEntry)
      ensures Entry() == e
    {
      id := e.id;
      accountId := e.accountId;
      userId := e.userId;
      delta := e.delta;
      reason := e.reason;
      referenceId := e.referenceId;
      description := e.description;
      reversed := e.reversed;
      reversalReason := e.reversalReason;
      reversedAt := e.reversedAt;
    }

    /**
     * createReversal: throws when this transaction is already reversed;
     * otherwise returns the reversing transaction and marks this one reversed,
     * so a second call throws.
     */
    method CreateReversal(reason: string, now: Time) returns (r: Outcome<PointsTransaction>)
      modifies this`reversed, this`reversalReason, this`reversedAt
      ensures r.Fail? <==> old(reversed)
      ensures r.Fail? ==> unchanged(this)
      ensures r.Ok? ==>
        && fresh(r.value)
        && r.value.Entry() == ReversalOf(old(Entry()), reason, now)
        && reversed && reversalReason == Some(reason) && reversedAt == Some(now)
    {
      if reversed {
        return Fail("Transaction already reversed");
      }
      var reversal := new PointsTransaction(ReversalOf(Entry(), reason, now));
      reversed := true;
      reversalReason := Some(reason);
      reversedAt := Some(now);
      r := Ok(reversal);
    }
  }
}
