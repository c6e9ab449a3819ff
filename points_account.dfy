// A user's gamification points: a balance with lifetime earned and spent totals.

module PointsAccountModel {
  import opened Common

  class PointsAccount {
    var balance: Money
    var lifetimeEarned: Money
    var lifetimeSpent: Money
    var lastActivity: Option<Time>

    /** From a zero start, the balance is what was earned minus what was spent, and it never goes negative. */
    ghost predicate Valid()
      reads this
    {
      balance == lifetimeEarned - lifetimeSpent && balance >= 0 && lifetimeSpent >= 0
    }

    /** onCreate: every total starts at zero. */
    constructor ()
      ensures Valid()
      ensures balance == 0 && lifetimeEarned == 0 && lifetimeSpent == 0 && lastActivity == None
    {
      balance := 0;
      lifetimeEarned := 0;
      lifetimeSpent := 0;
      lastActivity := None;
    }

    /** addPoints: a non-positive amount throws; otherwise balance and lifetimeEarned grow by it. */
    method AddPoints(amount: Money, now: Time) returns (r: Outcome<Money>)
      requires Valid()
      modifies this
      ensures Valid()
      ensures r.Fail? <==> amount <= 0
      ensures r.Fail? ==> unchanged(this)
      ensures r.Ok? ==>
        && r.value == balance
        && balance == old(balance) + amount
        && lifetimeEarned == old(lifetimeEarned) + amount
        && lifetimeSpent == old(lifetimeSpent)
        && lastActivity == Some(now)
    {
      if amount <= 0 {
        return Fail("Amount must be positive");
      }
      balance := balance + amount;
      lifetimeEarned := lifetimeEarned + amount;
      lastActivity := Some(now);
      r := Ok(balance);
    }

    /** spendPoints: a non-positive amount, or one above the balance, throws and changes nothing. */
    method SpendPoints(amount: Money, now: Time) returns (r: Outcome<Money>)
      requires Valid()
      modifies this
      ensures Valid()
      ensures r.Fail? <==> amount <= 0 || old(balance) < amount
      ensures r.Fail? ==> unchanged(this)
      ensures r.Ok? ==>
        && r.value == balance
        && balance == old(balance) - amount
        && lifetimeSpent == old(lifetimeSpent) + amount
        && lifetimeEarned == old(lifetimeEarned)
        && lastActivity == Some(now)
    {
      if amount <= 0 {
        return Fail("Amount must be positive");
      }
      if balance < amount {
        return Fail("Insufficient points balance");
      }
      balance := balance - amount;
      lifetimeSpent := lifetimeSpent + amount;
      lastActivity := Some(now);
      r := Ok(balance);
    }
  }
}
