// The last steps of a session's price: charm pricing, commission, tax, the
// final-price clamp, the mentor payout, and locking a priced breakdown.

module PricingEngineModel {
  import opened Common

  const GstPercent: int := 18
  const DefaultCommissionPercent: int := 15
  /** The agentic AI fee, 50.00, in hundredths. */
  const AgenticAiFee: Money := 5000

  /** amount.setScale(0, HALF_UP): an amount in hundredths rounded to whole units. */
  function RoundToUnits(amount: Money): int {
    HalfUpDiv(amount, 100)
  }

  /** ((rounded + 5) / 10) * 10 with Java's truncating division. */
  function NearestTen(rounded: int): (t: int)
    ensures t % 10 == 0
    ensures rounded >= 0 ==> rounded - 4 <= t <= rounded + 5
  {
    JavaDiv(rounded + 5, 10) * 10
  }

  /** applyCharmPricing: round to whole units, to the nearest ten, then one less; the result is in hundredths. */
  function CharmPrice(amount: Money): (r: Money)
    ensures r % 100 == 0
    ensures (r / 100 + 1) % 10 == 0
  {
    (NearestTen(RoundToUnits(amount)) - 1) * 100
  }

  /** Once the rounded amount is at least 5, the charm price ends in 9 and lies within 5 below to 4 above it. */
  lemma CharmPriceEndsInNine(amount: Money)
    requires RoundToUnits(amount) >= 5
    ensures (CharmPrice(amount) / 100) % 10 == 9
    ensures CharmPrice(amount) >= 0
    ensures RoundToUnits(amount) - 5 <= CharmPrice(amount) / 100 <= RoundToUnits(amount) + 4
  {
    var t := NearestTen(RoundToUnits(amount));
    assert CharmPrice(amount) / 100 == t - 1;
  }

  /** A rounded amount of 0 to 4 is charm-priced to -1.00: the price becomes negative. */
  lemma CharmPriceOfSmallAmount(amount: Money)
    requires 0 <= RoundToUnits(amount) <= 4
    ensures CharmPrice(amount) == -100
  {
    assert NearestTen(RoundToUnits(amount)) == 0;
  }

  /** A commission or tax percentage of an amount, rounded HALF_UP to hundredths. */
  function PercentOf(amount: Money, percent: int): (r: Money)
    ensures amount >= 0 && 0 <= percent <= 100 ==> 0 <= r <= amount
    ensures amount % 100 == 0 ==> r == amount / 100 * percent
  {
    PercentProduct(amount, percent);
    HalfUpDiv(amount * percent, 100)
  }

  lemma PercentProduct(amount: Money, percent: int)
    ensures amount >= 0 && 0 <= percent <= 100 ==> 0 <= amount * percent <= amount * 100
    ensures amount % 100 == 0 ==> amount * percent == (amount / 100 * percent) * 100
  {
    if amount % 100 == 0 {
      var k := amount / 100;
      assert amount == k * 100;
      assert amount * percent == (k * percent) * 100;
    }
    if amount >= 0 && 0 <= percent <= 100 {
      assert amount * percent <= amount * 100;
    }
  }

  /**
   * A share given in hundredths of a percent (1250 is 12.5 percent) of an
   * amount, rounded HALF_UP to hundredths: `percent.divide(100, 4, HALF_UP)`
   * is exact for such a share, so only the final rounding remains.
   */
  function ShareOf(amount: Money, hundredthsOfPercent: int): (r: Money)
    ensures amount >= 0 && 0 <= hundredthsOfPercent <= 10000 ==> 0 <= r <= amount
    ensures hundredthsOfPercent % 100 == 0 ==> r == PercentOf(amount, hundredthsOfPercent / 100)
  {
    ShareProduct(amount, hundredthsOfPercent);
    HalfUpDiv(amount * hundredthsOfPercent, 10000)
  }

  lemma ShareProduct(amount: Money, hundredthsOfPercent: int)
    ensures amount >= 0 && 0 <= hundredthsOfPercent <= 10000 ==> 0 <= amount * hundredthsOfPercent <= amount * 10000
    ensures hundredthsOfPercent % 100 == 0 ==> HalfUpDiv(amount * hundredthsOfPercent, 10000) == PercentOf(amount, hundredthsOfPercent / 100)
  {
    if amount >= 0 && 0 <= hundredthsOfPercent <= 10000 {
      MulMonotone(hundredthsOfPercent, 10000, amount);
      MulMonotone(0, hundredthsOfPercent, amount);
    }
    if hundredthsOfPercent % 100 == 0 {
      var k := hundredthsOfPercent / 100;
      assert hundredthsOfPercent == k * 100;
      MulAssociates(amount, k, 100);
      HalfUpDivHundredfold(amount * k);
    }
  }

  /** Rounding a hundredfold amount by a hundredfold divisor gives the same HALF_UP quotient. */
  lemma HalfUpDivHundredfold(x: int)
    ensures HalfUpDiv(x * 100, 10000) == HalfUpDiv(x, 100)
  {
    HalfUpUnique(x * 100, 10000, HalfUpDiv(x, 100));
  }

  lemma MulAssociates(a: int, b: int, c: int)
    ensures a * (b * c) == (a * b) * c
  {
  }

  lemma MulMonotone(x: int, y: int, c: int)
    requires x <= y && c >= 0
    ensures x * c <= y * c
  {
  }

  /** The HALF_UP quotient is the only integer within half a divisor of the exact one. */
  lemma HalfUpUnique(a: int, d: int, q: int)
    requires d > 0
    requires a >= 0 ==> 2 * a - d < 2 * q * d <= 2 * a + d
    requires a < 0 ==> 2 * a - d <= 2 * q * d < 2 * a + d
    ensures q == HalfUpDiv(a, d)
  {
    var q0 := HalfUpDiv(a, d);
    assert 2 * q * d - 2 * q0 * d == (2 * d) * (q - q0);
    if q - q0 >= 1 {
      MulMonotone(1, q - q0, 2 * d);
    } else if q - q0 <= -1 {
      MulMonotone(q - q0, -1, 2 * d);
    }
  }

  /**
   * calculateCommission: the current policy's share, in hundredths of a
   * percent, or 15 percent when there is no policy.
   */
  function Commission(subtotal: Money, policyShare: Option<int>): (r: Money)
    ensures subtotal >= 0 && (policyShare.None? || 0 <= policyShare.value <= 10000) ==> 0 <= r <= subtotal
    ensures policyShare.None? ==> r == PercentOf(subtotal, DefaultCommissionPercent)
    ensures policyShare.Some? && policyShare.value % 100 == 0 ==> r == PercentOf(subtotal, policyShare.value / 100)
  {
    if policyShare.Some? then ShareOf(subtotal, policyShare.value) else PercentOf(subtotal, DefaultCommissionPercent)
  }

  /** The credits that are applied: only a present, positive amount. */
  function CreditsApplied(credits: Option<Money>): (r: Money)
    ensures r >= 0
    ensures credits.Some? && credits.value > 0 ==> r == credits.value
  {
    if credits.Some? && credits.value > 0 then credits.value else 0
  }

  /** Steps 7 to 13 of calculatePrice; the amounts before charm pricing are inputs. */
  datatype Breakdown = Breakdown(
    subtotal: Money,
    commission: Money,
    tax: Money,
    aiFee: Money,
    creditsApplied: Money,
    finalPrice: Money,
    mentorPayout: Money,
    locked: bool)

  /** finalPrice = subtotal + tax + aiFee - credits, clamped at zero. */
  function FinalPrice(subtotal: Money, tax: Money, aiFee: Money, credits: Money): (r: Money)
    ensures r >= 0
    ensures r >= subtotal + tax + aiFee - credits
    ensures r == 0 || r == subtotal + tax + aiFee - credits
  {
    Max(0, subtotal + tax + aiFee - credits)
  }

  /** The breakdown calculatePrice saves, unlocked, from the discounted subtotal. */
  function Price(discounted: Money, policyShare: Option<int>, useAgenticAi: bool, credits: Option<Money>): (b: Breakdown)
    ensures b.subtotal == CharmPrice(discounted)
    ensures b.mentorPayout + b.commission == b.subtotal
    ensures b.finalPrice >= 0
    ensures b.creditsApplied == CreditsApplied(credits)
    ensures b.finalPrice == FinalPrice(b.subtotal, b.tax, b.aiFee, b.creditsApplied)
    ensures b.aiFee == (if useAgenticAi then AgenticAiFee else 0)
    ensures b.tax == b.subtotal / 100 * GstPercent
    ensures policyShare.None? ==> b.commission == b.subtotal / 100 * DefaultCommissionPercent
    ensures policyShare.Some? && policyShare.value % 100 == 0 ==> b.commission == b.subtotal / 100 * (policyShare.value / 100)
    ensures !b.locked
  {
    var subtotal := CharmPrice(discounted);
    var commission := Commission(subtotal, policyShare);
    var tax := PercentOf(subtotal, GstPercent);
    var aiFee := if useAgenticAi then AgenticAiFee else 0;
    var applied := CreditsApplied(credits);
    Breakdown(subtotal, commission, tax, aiFee, applied, FinalPrice(subtotal, tax, aiFee, applied), subtotal - commission, false)
  }

  /** With a commission policy of 0 to 100 percent (0 to 10000 hundredths) and a non-negative subtotal, the payout is between 0 and the subtotal. */
  lemma PayoutWithinSubtotal(discounted: Money, policyShare: Option<int>, useAgenticAi: bool, credits: Option<Money>)
    requires RoundToUnits(discounted) >= 5
    requires policyShare.None? || 0 <= policyShare.value <= 10000
    ensures 0 <= Price(discounted, policyShare, useAgenticAi, credits).mentorPayout <= Price(discounted, policyShare, useAgenticAi, credits).subtotal
  {
    CharmPriceEndsInNine(discounted);
  }

  /** Credits can only lower the final price, never below zero. */
  lemma CreditsNeverRaisePrice(discounted: Money, policyShare: Option<int>, useAgenticAi: bool, credits: Option<Money>)
    ensures Price(discounted, policyShare, useAgenticAi, credits).finalPrice <= Price(discounted, policyShare, useAgenticAi, None).finalPrice
  {
  }

  /** confirmPrice: an unknown token or a locked breakdown fails; otherwise the breakdown is locked. */
  function ConfirmPrice(store: map<string, Breakdown>, token: string): (r: Outcome<map<string, Breakdown>>)
    ensures token !in store ==> r == Fail("Price breakdown not found")
    ensures token in store && store[token].locked ==> r == Fail("Price already confirmed and locked")
    ensures r.Ok? ==> token in store && !store[token].locked
                      && r.value == store[token := store[token].(locked := true)]
  {
    if token !in store then Fail("Price breakdown not found")
    else if store[token].locked then Fail("Price already confirmed and locked")
    else Ok(store[token := store[token].(locked := true)])
  }

  /** A price is confirmed at most once: confirming the same token twice fails the second time. */
  lemma ConfirmTwiceFails(store: map<string, Breakdown>, token: string)
    requires ConfirmPrice(store, token).Ok?
    ensures ConfirmPrice(ConfirmPrice(store, token).value, token) == Fail("Price already confirmed and locked")
    ensures ConfirmPrice(store, token).value.Keys == store.Keys
  {
  }
}
