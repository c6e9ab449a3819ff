// An advertiser's campaign: delivery counters that stop at the budget and
// the delivery targets, and the budget and performance checks.

module AdCampaignModel {
  import opened Common

  datatype CampaignStatus = Draft | Pending | Approved | Active | Paused | Completed | Expired | Cancelled | Suspended

  datatype CampaignType = Cpc | Cpm | Cpa | Fixed

  const PauseMinImpressions: int := 1000

  /** hasReachedBudgetLimit: a total budget that the spending has reached. */
  predicate BudgetReached(total: Option<Money>, spent: Money) {
    total.Some? && spent >= total.value
  }

  /** hasReachedImpressionTarget and hasReachedClickTarget: a target the delivered count has reached. */
  predicate TargetReached(target: Option<int>, delivered: int) {
    target.Some? && delivered >= target.value
  }

  /**
   * shouldPauseDueToPerformance: at least 1000 impressions and a click-through
   * rate below 0.5 percent, stated exactly as 200 clicks < impressions.
   */
  predicate ShouldPauseDueToPerformance(impressions: int, clicks: int) {
    impressions >= PauseMinImpressions && clicks * 200 < impressions
  }

  /**
   * getProgressPercentage >= 95: spent / total rounded half-up to four
   * decimals is at least 0.95, that is spent / total >= 0.94995.
   */
  predicate ProgressAtLeast95(total: Option<Money>, spent: Money) {
    total.Some? && total.value > 0 && spent * 100000 >= 94995 * total.value
  }

  /** shouldStopDueToBudget: the budget is reached or 95 percent of it is spent. */
  function ShouldStopDueToBudget(total: Option<Money>, spent: Money): (r: bool)
    ensures BudgetReached(total, spent) ==> r
    ensures total.None? ==> !r
    ensures r && total.value > 0 ==> spent * 100000 >= 94995 * total.value
    ensures total.Some? && total.value > 0 && spent * 100000 >= 94995 * total.value ==> r
  {
    BudgetReached(total, spent) || ProgressAtLeast95(total, spent)
  }

  class AdCampaign {
    var status: CampaignStatus
    var kind: CampaignType
    var totalBudget: Option<Money>
    var spentBudget: Money
    var startDate: Option<Time>
    var endDate: Option<Time>
    var targetImpressions: Option<int>
    var targetClicks: Option<int>
    var deliveredImpressions: int
    var deliveredClicks: int
    var deliveredActions: int
    var excludePremium: bool
    var requireConsent: bool
    var isRewardedAd: bool

    /** Delivery never passes a target, and the counters are not negative. */
    ghost predicate Valid()
      reads this
    {
      0 <= deliveredImpressions && 0 <= deliveredClicks
      && (targetImpressions.Some? ==> deliveredImpressions <= Max(0, targetImpressions.value))
      && (targetClicks.Some? ==> deliveredClicks <= Max(0, targetClicks.value))
    }

    /**
     * A new campaign as onCreate leaves it: nothing spent unless given,
     * nothing delivered, no consent, premium or reward flags.
     */
    constructor (s: CampaignStatus, campaignType: CampaignType, budget: Option<Money>, spent: Option<Money>,
                 impressionTarget: Option<int>, clickTarget: Option<int>)
      ensures Valid()
      ensures status == s && kind == campaignType && totalBudget == budget
      ensures spentBudget == (if spent.Some? then spent.value else 0)
      ensures targetImpressions == impressionTarget && targetClicks == clickTarget
      ensures deliveredImpressions == 0 && deliveredClicks == 0 && deliveredActions == 0
      ensures !excludePremium && !requireConsent && !isRewardedAd
    {
      status := s;
      kind := campaignType;
      totalBudget := budget;
      spentBudget := if spent.Some? then spent.value else 0;
      startDate := None;
      endDate := None;
      targetImpressions := impressionTarget;
      targetClicks := clickTarget;
      deliveredImpressions := 0;
      deliveredClicks := 0;
      deliveredActions := 0;
      excludePremium := false;
      requireConsent := false;
      isRewardedAd := false;
    }

    /** isCurrentlyActive: ACTIVE, started (or no start) and not ended (or no end). */
    predicate IsCurrentlyActive(now: Time)
      reads this
    {
      status == Active && (startDate.None? || !(startDate.value > now)) && (endDate.None? || !(endDate.value < now))
    }

    /** recordImpression: refused once the budget or the impression target is reached. */
    method RecordImpression() returns (ok: bool)
      requires Valid()
      modifies this`deliveredImpressions
      ensures Valid()
      ensures ok <==> !BudgetReached(totalBudget, spentBudget) && !TargetReached(targetImpressions, old(deliveredImpressions))
      ensures deliveredImpressions == old(deliveredImpressions) + (if ok then 1 else 0)
    {
      if BudgetReached(totalBudget, spentBudget) || TargetReached(targetImpressions, deliveredImpressions) {
        return false;
      }
      deliveredImpressions := deliveredImpressions + 1;
      return true;
    }

    /** recordClick: refused once the budget or the click target is reached. */
    method RecordClick() returns (ok: bool)
      requires Valid()
      modifies this`deliveredClicks
      ensures Valid()
      ensures ok <==> !BudgetReached(totalBudget, spentBudget) && !TargetReached(targetClicks, old(deliveredClicks))
      ensures deliveredClicks == old(deliveredClicks) + (if ok then 1 else 0)
    {
      if BudgetReached(totalBudget, spentBudget) || TargetReached(targetClicks, deliveredClicks) {
        return false;
      }
      deliveredClicks := deliveredClicks + 1;
      return true;
    }

    /** recordAction: always counted. */
    method RecordAction() returns (ok: bool)
      modifies this`deliveredActions
      ensures ok && deliveredActions == old(deliveredActions) + 1
    {
      deliveredActions := deliveredActions + 1;
      return true;
    }

    /** updateSpentBudget: adds the amount, with no check against the budget. */
    method UpdateSpentBudget(amount: Money)
      modifies this`spentBudget
      ensures spentBudget == old(spentBudget) + amount
    {
      spentBudget := spentBudget + amount;
    }
  }

  /** Once the budget is reached, spending more keeps it reached, so delivery stays refused. */
  lemma SpendingKeepsBudgetReached(total: Option<Money>, spent: Money, more: Money)
    requires BudgetReached(total, spent) && more >= 0
    ensures BudgetReached(total, spent + more)
    ensures ShouldStopDueToBudget(total, spent + more)
  {
  }
}
