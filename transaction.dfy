// A wallet transaction: its type and status, the credit/debit
// classification, the risk score, and refunds.

module TransactionModel {
  import opened Common

  /**
   * The transaction types the classifiers name. `Unlisted` stands for any
   * other constant of the enum, whose declaration is not part of this model.
   */
  datatype TransactionType =
    | TopUp | Refund | Reward | Cashback | Bonus | Interest | TransferReceived | EscrowRelease
    | Payment | Withdrawal | Fee | Chargeback | Adjustment | TransferSent | EscrowHold
    | Unlisted

  datatype TransactionStatus = Pending | Processing | Completed | Failed | Cancelled | Disputed | OnHold

  datatype Category = Credit | Debit | Transfer

  const HighValueThreshold: Money := 10000 * 100
  const SuspiciousThreshold: Money := 50000 * 100
  const MaxRetries: int := 3

  /** isCreditTransaction */
  predicate IsCredit(t: TransactionType) {
    t in {TopUp, Refund, Reward, Cashback, Bonus, Interest, TransferReceived, EscrowRelease}
  }

  /** isDebitTransaction */
  predicate IsDebit(t: TransactionType) {
    t in {Payment, Withdrawal, Fee, Chargeback, Adjustment, TransferSent, EscrowHold}
  }

  /** No type is both a credit and a debit. */
  lemma CreditAndDebitAreDisjoint(t: TransactionType)
    ensures !(IsCredit(t) && IsDebit(t))
  {
  }

  /** getCategory: CREDIT, DEBIT, or TRANSFER for a type that is neither. */
  function CategoryOf(t: TransactionType): (c: Category)
    ensures c == Credit <==> IsCredit(t)
    ensures c == Debit <==> IsDebit(t)
    ensures c == Transfer <==> !IsCredit(t) && !IsDebit(t)
  {
    if IsCredit(t) then Credit else if IsDebit(t) then Debit else Transfer
  }

  /** Every type the classifiers name is a credit or a debit, so TRANSFER is only reached by an unlisted type. */
  lemma TransferOnlyForUnlisted(t: TransactionType)
    ensures CategoryOf(t) == Transfer <==> t == Unlisted
  {
  }

  /** isPending */
  predicate IsPendingStatus(s: TransactionStatus) {
    s == Pending || s == Processing
  }

  /** isEligibleForRetry: a failed transaction with fewer than three retries. */
  predicate IsEligibleForRetry(s: TransactionStatus, retryCount: int) {
    s == Failed && retryCount < MaxRetries
  }

  /** isHighValueTransaction: 10,000 and above. */
  predicate IsHighValue(amount: Money) {
    amount >= HighValueThreshold
  }

  /** isAmountSuspicious: strictly above 50,000. */
  predicate IsAmountSuspicious(amount: Money) {
    amount > SuspiciousThreshold
  }

  /** getRiskScore: weighted risk factors, capped at 100. */
  function RiskScore(amount: Money, s: TransactionStatus, retryCount: int, suspicious: bool): (r: int)
    ensures r <= 100
    ensures retryCount >= 0 ==> r >= 0
    ensures suspicious && retryCount >= 0 ==> r >= 40
    ensures IsAmountSuspicious(amount) && retryCount >= 0 ==> r >= 55
    ensures !IsHighValue(amount) && !suspicious ==> r <= 35
  {
    var s1 := if IsHighValue(amount) then 30 else 0;
    var s2 := if IsAmountSuspicious(amount) then s1 + 25 else s1;
    var s3 := if s == Failed then s2 + 20 else s2;
    var s4 := s3 + Min(15, retryCount * 3);
    var s5 := if suspicious then s4 + 40 else s4;
    Min(100, s5)
  }

  /**
   * shouldBeReviewed: a risk score of 50 or more, a high value, or the
   * suspicious flag. A score of 50 needs a high value or the flag, so those
   * two alone decide it.
   */
  function ShouldBeReviewed(amount: Money, s: TransactionStatus, retryCount: int, suspicious: bool): (r: bool)
    ensures r <==> IsHighValue(amount) || suspicious
  {
    RiskScore(amount, s, retryCount, suspicious) >= 50 || IsHighValue(amount) || suspicious
  }

  /** isAdRelated */
  predicate IsAdRelated(t: TransactionType, metadata: Option<string>) {
    t == Reward || (t == Payment && metadata == Some("ADS"))
  }

  /** isSessionRelated */
  predicate IsSessionRelated(t: TransactionType, metadata: Option<string>) {
    t == Payment && metadata.Some? && Contains(metadata.value, "SESSION")
  }

  class Transaction {
    var transactionId: Option<string>
    var walletId: nat
    var userId: UserId
    var txType: TransactionType
    var status: TransactionStatus
    var amount: Money
    var fee: Money
    var netAmount: Option<Money>
    var currency: string
    var description: Option<string>
    var referenceId: Option<string>
    var relatedTransaction: Transaction?
    var metadata: Option<string>
    var completedAt: Option<Time>
    var failedAt: Option<Time>
    var failureReason: Option<string>
    var retryCount: int
    var suspicious: bool
    var suspicionReason: Option<string>

    /** A transaction as onCreate leaves it: PENDING, net amount = amount − fee, no retries, not suspicious. */
    constructor (id: string, wallet: nat, user: UserId, t: TransactionType, amt: Money, f: Money)
      ensures transactionId == Some(id) && walletId == wallet && userId == user && txType == t
      ensures status == Pending && amount == amt && fee == f && netAmount == Some(amt - f)
      ensures currency == "INR" && retryCount == 0 && !suspicious && relatedTransaction == null
    {
      transactionId := Some(id);
      walletId := wallet;
      userId := user;
      txType := t;
      status := Pending;
      amount := amt;
      fee := f;
      netAmount := Some(amt - f);
      currency := "INR";
      description := None;
      referenceId := None;
      relatedTransaction := null;
      metadata := None;
      completedAt := None;
      failedAt := None;
      failureReason := None;
      retryCount := 0;
      suspicious := false;
      suspicionReason := None;
    }

    method MarkCompleted(now: Time)
      modifies this`status, this`completedAt
      ensures status == Completed && completedAt == Some(now)
    {
      status := Completed;
      completedAt := Some(now);
    }

    method MarkFailed(reason: string, now: Time)
      modifies this`status, this`failureReason, this`failedAt
      ensures status == Failed && failureReason == Some(reason) && failedAt == Some(now)
    {
      status := Failed;
      failureReason := Some(reason);
      failedAt := Some(now);
    }

    method MarkCancelled()
      modifies this`status
      ensures status == Cancelled
    {
      status := Cancelled;
    }

    method MarkDisputed()
      modifies this`status
      ensures status == Disputed
    {
      status := Disputed;
    }

    method MarkOnHold()
      modifies this`status
      ensures status == OnHold
    {
      status := OnHold;
    }

    method IncrementRetry()
      modifies this`retryCount
      ensures retryCount == old(retryCount) + 1
    {
      retryCount := retryCount + 1;
    }

    method MarkSuspicious(reason: string)
      modifies this`suspicious, this`suspicionReason
      ensures suspicious && suspicionReason == Some(reason)
    {
      suspicious := true;
      suspicionReason := Some(reason);
    }

    /** getEffectiveAmount: the stored net amount, or amount − fee when it is unset. */
    function EffectiveAmount(): (r: Money)
      reads this
      ensures netAmount.None? ==> r == amount - fee
      ensures netAmount.Some? ==> r == netAmount.value
    {
      if netAmount.Some? then netAmount.value else amount - fee
    }

    function GetRiskScore(): (r: int)
      reads this
      ensures r <= 100
      ensures retryCount >= 0 ==> 0 <= r
    {
      RiskScore(amount, status, retryCount, suspicious)
    }

    /**
     * createRefund: a new PENDING REFUND for the same wallet, user, amount and
     * currency, with no fee, the net amount equal to the amount, and a link
     * back to this transaction. This transaction is not changed.
     */
    method CreateRefund(reason: string) returns (r: Transaction)
      ensures fresh(r)
      ensures r.txType == Refund && r.status == Pending
      ensures r.walletId == walletId && r.userId == userId && r.currency == currency
      ensures r.amount == amount && r.fee == 0 && r.netAmount == Some(amount)
      ensures r.EffectiveAmount() == amount
      ensures r.description == Some("Refund: " + reason)
      ensures r.referenceId == Some("REFUND_OF_" + (if transactionId.Some? then transactionId.value else "null"))
      ensures r.relatedTransaction == this
      ensures r.retryCount == 0 && !r.suspicious && r.transactionId == None
    {
      r := new Transaction("", walletId, userId, Refund, amount, 0);
      r.transactionId := None;
      r.currency := currency;
      r.description := Some("Refund: " + reason);
      r.referenceId := Some("REFUND_OF_" + (if transactionId.Some? then transactionId.value else "null"));
      r.relatedTransaction := this;
    }
  }
}
