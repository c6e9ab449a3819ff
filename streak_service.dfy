// Login-streak milestones: the points a streak length earns, and which
// streaks are due a reward.

module StreakServiceModel {
  import opened Common

  /** The streak lengths that earn points: a week, a month, 100 days and a year. */
  predicate IsMilestone(streakDays: int) {
    streakDays == 7 || streakDays == 30 || streakDays == 100 || streakDays == 365
  }

  /** awardStreakMilestonePoints: 25, 100, 500 or 1000 at the four milestones, 0 otherwise. */
  function MilestonePoints(streakDays: int): (points: int)
    ensures streakDays == 7 ==> points == 25
    ensures streakDays == 30 ==> points == 100
    ensures streakDays == 100 ==> points == 500
    ensures streakDays == 365 ==> points == 1000
    ensures !IsMilestone(streakDays) ==> points == 0
    ensures points >= 0
  {
    if streakDays == 7 then 25
    else if streakDays == 30 then 100
    else if streakDays == 100 then 500
    else if streakDays == 365 then 1000
    else 0
  }

  /** getUsersForStreakMilestoneRewards: the streaks, in order, whose current length is a milestone. */
  function EligibleForReward(currentStreakDays: seq<int>): (r: seq<int>)
    ensures forall i :: 0 <= i < |r| ==> IsMilestone(r[i])
    ensures forall d :: d in currentStreakDays && IsMilestone(d) ==> d in r
    ensures forall d :: d in r ==> d in currentStreakDays
    ensures |r| <= |currentStreakDays|
    decreases |currentStreakDays|
  {
    if currentStreakDays == [] then []
    else
      var rest := EligibleForReward(currentStreakDays[1..]);
      assert forall d :: d in currentStreakDays && d != currentStreakDays[0] ==> d in currentStreakDays[1..];
      if IsMilestone(currentStreakDays[0]) then [currentStreakDays[0]] + rest else rest
  }

  /** One streak is kept exactly when its length is a milestone. */
  lemma EligibleForRewardSingle(days: int)
    ensures EligibleForReward([days]) == (if IsMilestone(days) then [days] else [])
  {
    assert [days][1..] == [];
  }

  /** The filter distributes over concatenation, so the kept streaks stay in their order. */
  lemma {:induction false} EligibleForRewardConcat(a: seq<int>, b: seq<int>)
    ensures EligibleForReward(a + b) == EligibleForReward(a) + EligibleForReward(b)
    decreases |a|
  {
    if a == [] {
      assert a + b == b;
    } else {
      assert (a + b)[0] == a[0];
      assert (a + b)[1..] == a[1..] + b;
      EligibleForRewardConcat(a[1..], b);
    }
  }

  /** The reward filter selects exactly the streaks that earn points. */
  lemma FilterMatchesMilestones(streakDays: int)
    ensures IsMilestone(streakDays) <==> MilestonePoints(streakDays) > 0
    ensures IsMilestone(streakDays) <==> streakDays in EligibleForReward([streakDays])
  {
  }

  /** The points of a streak grow with its length across the milestones. */
  lemma MilestonePointsIncrease(a: int, b: int)
    requires IsMilestone(a) && IsMilestone(b) && a < b
    ensures MilestonePoints(a) < MilestonePoints(b)
  {
  }
}
