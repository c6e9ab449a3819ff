// A user's wallet: a balance split into available, pending (held for a
// transaction in flight) and frozen (held for a dispute) funds, lifetime
// totals, an optional monthly limit and the verification state.

module WalletModel {
  import opened Common

  datatype WalletStatus = Active | Suspended | Frozen | Closed

  /** The three parts the balance is made of. */
  datatype Pots = Pots(available: Money, pending: Money, frozen: Money)
  {
    function Total(): Money { available + pending + frozen }
    predicate NonNegative() { available >= 0 && pending >= 0 && frozen >= 0 }
  }

  /** holdCredits: `amount` moves from available to pending; refused (None) for a non-positive amount or short funds. */
  function Hold(p: Pots, amount: Money): (r: Option<Pots>)
    ensures r.Some? <==> 0 < amount <= p.available
    ensures r.Some? ==> r.value.Total() == p.Total() && r.value.frozen == p.frozen
                        && r.value.pending == p.pending + amount
    ensures p.NonNegative() && r.Some? ==> r.value.NonNegative()
  {
    if amount <= 0 || p.available < amount then None
    else Some(Pots(p.available - amount, p.pending + amount, p.frozen))
  }

  /** releaseCredits: `amount` moves from pending back to available. */
  function Release(p: Pots, amount: Money): (r: Option<Pots>)
    ensures r.Some? <==> 0 < amount <= p.pending
    ensures r.Some? ==> r.value.Total() == p.Total() && r.value.frozen == p.frozen
                        && r.value.available == p.available + amount
    ensures p.NonNegative() && r.Some? ==> r.value.NonNegative()
  {
    if amount <= 0 || p.pending < amount then None
    else Some(Pots(p.available + amount, p.pending - amount, p.frozen))
  }

  /** freezeCredits: `amount` moves from available to frozen. */
  function Freeze(p: Pots, amount: Money): (r: Option<Pots>)
    ensures r.Some? <==> 0 < amount <= p.available
    ensures r.Some? ==> r.value.Total() == p.Total() && r.value.pending == p.pending
                        && r.value.frozen == p.frozen + amount
    ensures p.NonNegative() && r.Some? ==> r.value.NonNegative()
  {
    if amount <= 0 || p.available < amount then None
    else Some(Pots(p.available - amount, p.pending, p.frozen + amount))
  }

  /** unfreezeCredits: `amount` moves from frozen back to available. */
  function Unfreeze(p: Pots, amount: Money): (r: Option<Pots>)
    ensures r.Some? <==> 0 < amount <= p.frozen
    ensures r.Some? ==> r.value.Total() == p.Total() && r.value.pending == p.pending
                        && r.value.available == p.available + amount
    ensures p.NonNegative() && r.Some? ==> r.value.NonNegative()
  {
    if amount <= 0 || p.frozen < amount then None
    else Some(Pots(p.available + amount, p.pending, p.frozen - amount))
  }

  /** A successful hold followed by a release of the same amount restores every pot. */
  lemma ReleaseUndoesHold(p: Pots, amount: Money)
    requires p.NonNegative() && Hold(p, amount).Some?
    ensures Release(Hold(p, amount).value, amount) == Some(p)
  {
    var held := Hold(p, amount).value;
    assert held == Pots(p.available - amount, p.pending + amount, p.frozen);
  }

  /** A successful freeze followed by an unfreeze of the same amount restores every pot. */
  lemma UnfreezeUndoesFreeze(p: Pots, amount: Money)
    requires p.NonNegative() && Freeze(p, amount).Some?
    ensures Unfreeze(Freeze(p, amount).value, amount) == Some(p)
  {
    var frozen := Freeze(p, amount).value;
    assert frozen == Pots(p.available - amount, p.pending, p.frozen + amount);
  }

  const KycThreshold: Money := 10000 * 100
  const AutoPayoutMinimum: Money := 100 * 100

  /** getHealthScore: deductions for frozen funds, a low verification level, missing KYC and inactivity. */
  function HealthScore(frozen: Money, verificationLevel: int, kycCompleted: bool,
                       lastTransactionAt: Option<Time>, sixMonthsAgo: Time): (r: int)
    ensures 30 <= r <= 100
    ensures r == 100 <==> (frozen <= 0 && verificationLevel >= 2 && kycCompleted
                           && !(lastTransactionAt.Some? && lastTransactionAt.value < sixMonthsAgo))
    ensures frozen > 0 ==> r <= 80
  {
    var s0 := 100;
    var s1 := if frozen > 0 then s0 - 20 else s0;
    var s2 := if verificationLevel < 2 then s1 - 15 else s1;
    var s3 := if !kycCompleted then s2 - 10 else s2;
    var s4 := if lastTransactionAt.Some? && lastTransactionAt.value < sixMonthsAgo then s3 - 25 else s3;
    Max(0, s4)
  }

  /**
   * A wallet stamped by a save at `now` never takes the inactivity deduction
   * while six months have not passed since: its score is the one it would
   * have with no transaction on record.
   */
  lemma SavedWalletNotInactive(frozen: Money, verificationLevel: int, kycCompleted: bool, now: Time, sixMonthsAgo: Time)
    requires sixMonthsAgo <= now
    ensures HealthScore(frozen, verificationLevel, kycCompleted, Some(now), sixMonthsAgo)
            == HealthScore(frozen, verificationLevel, kycCompleted, None, sixMonthsAgo)
  {
  }

  class Wallet {
    var status: WalletStatus
    var balance: Money
    var availableBalance: Money
    var pendingBalance: Money
    var frozenBalance: Money
    var totalEarned: Money
    var totalSpent: Money
    var monthlyLimit: Option<Money>
    var monthlySpent: Money
    var verified: bool
    var verificationLevel: int
    var kycCompleted: bool
    var lastTransactionAt: Option<Time>

    /**
     * The balance is always the sum of its three non-negative parts, and it is
     * what was ever credited minus what was ever debited.
     */
    ghost predicate Valid()
      reads this
    {
      availableBalance >= 0 && pendingBalance >= 0 && frozenBalance >= 0
      && balance == availableBalance + pendingBalance + frozenBalance
      && balance == totalEarned - totalSpent
    }

    function Parts(): Pots
      reads this
    {
      Pots(availableBalance, pendingBalance, frozenBalance)
    }

    /** A wallet as it is first stored: every amount zero, ACTIVE, unverified, no KYC. */
    constructor (limit: Option<Money>)
      ensures Valid()
      ensures status == Active && balance == 0
      ensures availableBalance == 0 && pendingBalance == 0 && frozenBalance == 0
      ensures totalEarned == 0 && totalSpent == 0 && monthlySpent == 0 && monthlyLimit == limit
      ensures !verified && verificationLevel == 0 && !kycCompleted && lastTransactionAt == None
    {
      status := Active;
      balance := 0;
      availableBalance := 0;
      pendingBalance := 0;
      frozenBalance := 0;
      totalEarned := 0;
      totalSpent := 0;
      monthlySpent := 0;
      monthlyLimit := limit;
      verified := false;
      verificationLevel := 0;
      kycCompleted := false;
      lastTransactionAt := None;
    }

    /** addCredits: a non-positive amount throws; otherwise balance, available and totalEarned grow by it. */
    method AddCredits(amount: Money, now: Time) returns (r: Outcome<Money>)
      requires Valid()
      modifies this
      ensures Valid()
      ensures amount <= 0 ==> r.Fail? && unchanged(this)
      ensures amount > 0 ==>
        && r == Ok(balance)
        && balance == old(balance) + amount
        && availableBalance == old(availableBalance) + amount
        && totalEarned == old(totalEarned) + amount
        && pendingBalance == old(pendingBalance) && frozenBalance == old(frozenBalance)
        && totalSpent == old(totalSpent) && monthlySpent == old(monthlySpent)
        && lastTransactionAt == Some(now)
      ensures status == old(status) && monthlyLimit == old(monthlyLimit) && verified == old(verified)
      ensures verificationLevel == old(verificationLevel) && kycCompleted == old(kycCompleted)
    {
      if amount <= 0 {
        return Fail("Amount must be positive");
      }
      balance := balance + amount;
      availableBalance := availableBalance + amount;
      totalEarned := totalEarned + amount;
      lastTransactionAt := Some(now);
      r := Ok(balance);
    }

    /**
     * deductCredits: a non-positive amount or an amount above the available
     * balance throws and changes nothing; otherwise balance and available shrink
     * by it, totalSpent grows by it, and monthlySpent grows only when a monthly
     * limit is set. The limit itself is not enforced here.
     */
    method DeductCredits(amount: Money, now: Time) returns (r: Outcome<Money>)
      requires Valid()
      modifies this
      ensures Valid()
      ensures r.Fail? <==> amount <= 0 || old(availableBalance) < amount
      ensures r.Fail? ==> unchanged(this)
      ensures r.Ok? ==>
        && r.value == balance
        && balance == old(balance) - amount
        && availableBalance == old(availableBalance) - amount
        && totalSpent == old(totalSpent) + amount
        && monthlySpent == (if old(monthlyLimit).Some? then old(monthlySpent) + amount else old(monthlySpent))
        && pendingBalance == old(pendingBalance) && frozenBalance == old(frozenBalance)
        && totalEarned == old(totalEarned)
        && lastTransactionAt == Some(now)
      ensures status == old(status) && monthlyLimit == old(monthlyLimit) && verified == old(verified)
      ensures verificationLevel == old(verificationLevel) && kycCompleted == old(kycCompleted)
    {
      if amount <= 0 {
        return Fail("Amount must be positive");
      }
      if availableBalance < amount {
        return Fail("Insufficient balance");
      }
      balance := balance - amount;
      availableBalance := availableBalance - amount;
      totalSpent := totalSpent + amount;
      if monthlyLimit.Some? {
        monthlySpent := monthlySpent + amount;
      }
      lastTransactionAt := Some(now);
      r := Ok(balance);
    }

    /** holdCredits */
    method HoldCredits(amount: Money) returns (ok: bool)
      requires Valid()
      modifies this`availableBalance, this`pendingBalance
      ensures Valid() && balance == old(balance)
      ensures ok == Hold(old(Parts()), amount).Some?
      ensures Parts() == if ok then Hold(old(Parts()), amount).value else old(Parts())
    {
      if amount <= 0 || availableBalance < amount {
        return false;
      }
      availableBalance := availableBalance - amount;
      pendingBalance := pendingBalance + amount;
      ok := true;
    }

    /** releaseCredits */
    method ReleaseCredits(amount: Money) returns (ok: bool)
      requires Valid()
      modifies this`availableBalance, this`pendingBalance
      ensures Valid() && balance == old(balance)
      ensures ok == Release(old(Parts()), amount).Some?
      ensures Parts() == if ok then Release(old(Parts()), amount).value else old(Parts())
    {
      if amount <= 0 || pendingBalance < amount {
        return false;
      }
      pendingBalance := pendingBalance - amount;
      availableBalance := availableBalance + amount;
      ok := true;
    }

    /** freezeCredits */
    method FreezeCredits(amount: Money) returns (ok: bool)
      requires Valid()
      modifies this`availableBalance, this`frozenBalance
      ensures Valid() && balance == old(balance)
      ensures ok == Freeze(old(Parts()), amount).Some?
      ensures Parts() == if ok then Freeze(old(Parts()), amount).value else old(Parts())
    {
      if amount <= 0 || availableBalance < amount {
        return false;
      }
      availableBalance := availableBalance - amount;
      frozenBalance := frozenBalance + amount;
      ok := true;
    }

    /** unfreezeCredits */
    method UnfreezeCredits(amount: Money) returns (ok: bool)
      requires Valid()
      modifies this`availableBalance, this`frozenBalance
      ensures Valid() && balance == old(balance)
      ensures ok == Unfreeze(old(Parts()), amount).Some?
      ensures Parts() == if ok then Unfreeze(old(Parts()), amount).value else old(Parts())
    {
      if amount <= 0 || frozenBalance < amount {
        return false;
      }
      frozenBalance := frozenBalance - amount;
      availableBalance := availableBalance + amount;
      ok := true;
    }

    /** hasSufficientBalance: a deduction of `amount` would not hit the short-funds error. */
    predicate HasSufficientBalance(amount: Money)
      reads this
    {
      availableBalance >= amount
    }

    /** isWithinMonthlyLimit: no limit means always within it. */
    predicate IsWithinMonthlyLimit(additional: Money)
      reads this
    {
      monthlyLimit.None? || monthlySpent + additional <= monthlyLimit.value
    }

    /** resetMonthlySpending */
    method ResetMonthlySpending()
      modifies this`monthlySpent
      ensures monthlySpent == 0
    {
      monthlySpent := 0;
    }

    /** getLockedBalance: what is not available, i.e. pending plus frozen. */
    function LockedBalance(): (r: Money)
      requires Valid()
      reads this
      ensures r == balance - availableBalance && r >= 0
    {
      pendingBalance + frozenBalance
    }

    /** getEffectiveBalance: the balance without the frozen part. */
    function EffectiveBalance(): (r: Money)
      requires Valid()
      reads this
      ensures r == balance - frozenBalance && 0 <= r <= balance
    {
      availableBalance + pendingBalance
    }

    /** isOperational */
    predicate IsOperational()
      reads this
    {
      status == Active && verified
    }

    /** requiresKYCForTransaction: amounts strictly above 10,000 need KYC. */
    predicate RequiresKycForTransaction(amount: Money)
      reads this
    {
      !kycCompleted && amount > KycThreshold
    }

    /** isEligibleForAutoPayout */
    predicate IsEligibleForAutoPayout()
      reads this
    {
      status == Active && kycCompleted && balance >= AutoPayoutMinimum && verificationLevel >= 2
    }

    /** getHealthScore, with "six months before now" supplied by the caller. */
    function GetHealthScore(sixMonthsAgo: Time): (r: int)
      reads this
      ensures 30 <= r <= 100
      ensures frozenBalance > 0 ==> r < 100
    {
      HealthScore(frozenBalance, verificationLevel, kycCompleted, lastTransactionAt, sixMonthsAgo)
    }

    /** updateVerificationLevel: a level outside 0..3 throws; otherwise verified exactly when the level is at least 2. */
    method UpdateVerificationLevel(newLevel: int) returns (r: Outcome<()>)
      modifies this`verificationLevel, this`verified
      ensures r.Fail? <==> newLevel < 0 || newLevel > 3
      ensures r.Fail? ==> verificationLevel == old(verificationLevel) && verified == old(verified)
      ensures r.Ok? ==> verificationLevel == newLevel && (verified <==> newLevel >= 2)
    {
      if newLevel < 0 || newLevel > 3 {
        return Fail("Verification level must be between 0 and 3");
      }
      verificationLevel := newLevel;
      verified := newLevel >= 2;
      r := Ok(());
    }

    /** updateKYCStatus: completing KYC lifts the level to 3 and verifies the wallet. */
    method UpdateKycStatus(completed: bool)
      modifies this`kycCompleted, this`verificationLevel, this`verified
      ensures kycCompleted == completed
      ensures completed && old(verificationLevel) < 3 ==> verificationLevel == 3 && verified
      ensures !(completed && old(verificationLevel) < 3) ==>
                verificationLevel == old(verificationLevel) && verified == old(verified)
    {
      kycCompleted := completed;
      if completed && verificationLevel < 3 {
        verificationLevel := 3;
        verified := true;
      }
    }

    /**
     * onUpdate, run before every save: the last transaction time becomes the
     * time of the save, whatever the update was.
     */
    method OnUpdate(now: Time)
      modifies this`lastTransactionAt
      ensures lastTransactionAt == Some(now)
    {
      lastTransactionAt := Some(now);
    }

    method Suspend()
      modifies this`status
      ensures status == Suspended
    {
      status := Suspended;
    }

    method FreezeWallet()
      modifies this`status
      ensures status == Frozen
    {
      status := Frozen;
    }

    /** reactivate: only a suspended or frozen wallet becomes ACTIVE again. */
    method Reactivate()
      modifies this`status
      ensures status == (if old(status) in {Suspended, Frozen} then Active else old(status))
    {
      if status == Suspended || status == Frozen {
        status := Active;
      }
    }

    method Close()
      modifies this`status
      ensures status == Closed
    {
      status := Closed;
    }
  }
}
