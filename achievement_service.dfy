// Achievement progress: every active achievement of a kind advances by the
// same increment until it reaches its threshold, and repeatable ones can be
// reset after completion.

module AchievementServiceModel {
  import opened Common

  datatype Achievement = Achievement(id: nat, threshold: int, pointsReward: int, repeatable: bool)

  /** A user's standing on one achievement. */
  datatype UserAchievement = UserAchievement(progress: int, completed: bool, completedAt: Option<Time>, lastUpdated: Time)

  /** A points award made to the user through the points service on completion. */
  datatype Award = Award(user: UserId, achievementId: nat, points: int)

  type Key = (UserId, nat)

  /** The user-achievement store and the awards made so far. */
  datatype Progress = Progress(store: map<Key, UserAchievement>, awards: seq<Award>)

  /** The record the loop works on: the stored one, or a fresh one at 0 and not completed. */
  function Current(store: map<Key, UserAchievement>, key: Key, now: Time): (u: UserAchievement)
    ensures key !in store ==> u == UserAchievement(0, false, None, now)
  {
    if key in store then store[key] else UserAchievement(0, false, None, now)
  }

  predicate WasCompleted(store: map<Key, UserAchievement>, key: Key) {
    key in store && store[key].completed
  }

  /** This call completes the achievement: it was open and the increment brings it to its threshold. */
  predicate Completes(store: map<Key, UserAchievement>, user: UserId, a: Achievement, increment: int, now: Time) {
    !WasCompleted(store, (user, a.id)) && Current(store, (user, a.id), now).progress + increment >= a.threshold
  }

  /**
   * One iteration: a completed record is left alone; otherwise its progress
   * grows by the increment and is saved, and reaching the threshold
   * completes it and awards its points, when it has any.
   */
  function Step(p: Progress, user: UserId, a: Achievement, increment: int, now: Time): (r: (Progress, bool))
  {
    var key := (user, a.id);
    var u := Current(p.store, key, now);
    if u.completed then (p, false)
    else
      var advanced := u.(progress := u.progress + increment);
      if advanced.progress >= a.threshold then
        var done := advanced.(completed := true, completedAt := Some(now));
        var awards := if a.pointsReward > 0 then p.awards + [Award(user, a.id, a.pointsReward)] else p.awards;
        (Progress(p.store[key := done], awards), true)
      else
        (Progress(p.store[key := advanced], p.awards), false)
  }

  /** What one iteration does to the store, the awards and the result. */
  lemma StepEffect(p: Progress, user: UserId, a: Achievement, increment: int, now: Time)
    ensures var r := Step(p, user, a, increment, now);
            && (WasCompleted(p.store, (user, a.id)) ==> r == (p, false))
            && (!WasCompleted(p.store, (user, a.id)) ==>
                  (user, a.id) in r.0.store
                  && r.0.store[(user, a.id)].progress == Current(p.store, (user, a.id), now).progress + increment
                  && (r.0.store[(user, a.id)].completed <==> r.0.store[(user, a.id)].progress >= a.threshold))
            && (r.1 <==> Completes(p.store, user, a, increment, now))
            && r.0.store.Keys == p.store.Keys + (if WasCompleted(p.store, (user, a.id)) then {} else {(user, a.id)})
            && (forall k :: k in p.store && k != (user, a.id) ==> r.0.store[k] == p.store[k])
            && r.0.awards == p.awards + (if r.1 && a.pointsReward > 0 then [Award(user, a.id, a.pointsReward)] else [])
  {
  }

  /** One iteration reports true exactly when it completes the achievement. */
  lemma StepReportsCompletion(p: Progress, user: UserId, a: Achievement, increment: int, now: Time)
    ensures Step(p, user, a, increment, now).1 <==> Completes(p.store, user, a, increment, now)
  {
  }

  /** The loop over the achievements in order, and whether any of them completed. */
  function ProcessAll(p: Progress, user: UserId, achievements: seq<Achievement>, increment: int, now: Time): (r: (Progress, bool))
    decreases |achievements|
  {
    if achievements == [] then (p, false)
    else
      var n := |achievements| - 1;
      var before := ProcessAll(p, user, achievements[..n], increment, now);
      var after := Step(before.0, user, achievements[n], increment, now);
      (after.0, before.1 || after.1)
  }

  predicate DistinctIds(achievements: seq<Achievement>) {
    forall i, j :: 0 <= i < j < |achievements| ==> achievements[i].id != achievements[j].id
  }

  /** A record the loop does not visit, or one already completed, is left exactly as it was. */
  lemma {:induction false} UntouchedRecords(p: Progress, user: UserId, achievements: seq<Achievement>, increment: int, now: Time, k: Key)
    requires k in p.store
    requires WasCompleted(p.store, k) || k.0 != user || forall i :: 0 <= i < |achievements| ==> achievements[i].id != k.1
    ensures k in ProcessAll(p, user, achievements, increment, now).0.store
    ensures ProcessAll(p, user, achievements, increment, now).0.store[k] == p.store[k]
    decreases |achievements|
  {
    if achievements != [] {
      var n := |achievements| - 1;
      UntouchedRecords(p, user, achievements[..n], increment, now, k);
    }
  }

  /** A key the loop does not visit is not created either. */
  lemma {:induction false} UnvisitedKeysAbsent(p: Progress, user: UserId, achievements: seq<Achievement>, increment: int, now: Time, k: Key)
    requires k !in p.store
    requires k.0 != user || forall i :: 0 <= i < |achievements| ==> achievements[i].id != k.1
    ensures k !in ProcessAll(p, user, achievements, increment, now).0.store
    decreases |achievements|
  {
    if achievements != [] {
      var n := |achievements| - 1;
      UnvisitedKeysAbsent(p, user, achievements[..n], increment, now, k);
    }
  }

  /** Later achievements see their records as they were before the call, since ids are distinct. */
  lemma PrefixLeavesLaterRecord(p: Progress, user: UserId, achievements: seq<Achievement>, increment: int, now: Time, a: Achievement)
    requires forall i :: 0 <= i < |achievements| ==> achievements[i].id != a.id
    ensures WasCompleted(ProcessAll(p, user, achievements, increment, now).0.store, (user, a.id)) == WasCompleted(p.store, (user, a.id))
    ensures Current(ProcessAll(p, user, achievements, increment, now).0.store, (user, a.id), now) == Current(p.store, (user, a.id), now)
  {
    if (user, a.id) in p.store {
      UntouchedRecords(p, user, achievements, increment, now, (user, a.id));
    } else {
      UnvisitedKeysAbsent(p, user, achievements, increment, now, (user, a.id));
    }
  }

  /** Some achievement of a non-empty list completes exactly when one of the front does or the last one does. */
  lemma SomeCompletesSplit(store: map<Key, UserAchievement>, user: UserId, achievements: seq<Achievement>, increment: int, now: Time)
    requires achievements != []
    ensures var n := |achievements| - 1;
            (exists i :: 0 <= i < |achievements| && Completes(store, user, achievements[i], increment, now)) <==>
            ((exists i :: 0 <= i < |achievements[..n]| && Completes(store, user, achievements[..n][i], increment, now))
             || Completes(store, user, achievements[n], increment, now))
  {
    var n := |achievements| - 1;
    var front := achievements[..n];
    if exists i :: 0 <= i < |front| && Completes(store, user, front[i], increment, now) {
      var i :| 0 <= i < |front| && Completes(store, user, front[i], increment, now);
      assert achievements[i] == front[i];
    }
    if exists i :: 0 <= i < |achievements| && Completes(store, user, achievements[i], increment, now) {
      var i :| 0 <= i < |achievements| && Completes(store, user, achievements[i], increment, now);
      if i < n {
        assert front[i] == achievements[i];
      }
    }
  }

  /**
   * processAchievementProgress returns true exactly when one of the
   * achievements was open and this increment brought it to its threshold.
   */
  lemma {:induction false} AnyCompletedIff(p: Progress, user: UserId, achievements: seq<Achievement>, increment: int, now: Time)
    requires DistinctIds(achievements)
    ensures ProcessAll(p, user, achievements, increment, now).1 <==>
            exists i :: 0 <= i < |achievements| && Completes(p.store, user, achievements[i], increment, now)
    decreases |achievements|
  {
    if achievements != [] {
      var n := |achievements| - 1;
      var front := achievements[..n];
      assert DistinctIds(front);
      AnyCompletedIff(p, user, front, increment, now);
      PrefixLeavesLaterRecord(p, user, front, increment, now, achievements[n]);
      var before := ProcessAll(p, user, front, increment, now);
      StepReportsCompletion(before.0, user, achievements[n], increment, now);
      assert Completes(before.0.store, user, achievements[n], increment, now) == Completes(p.store, user, achievements[n], increment, now);
      assert ProcessAll(p, user, achievements, increment, now).1
             == (before.1 || Step(before.0, user, achievements[n], increment, now).1);
      SomeCompletesSplit(p.store, user, achievements, increment, now);
    }
  }

  /** After the call, every listed achievement that was open has advanced by the increment, and is completed exactly when it reached its threshold. */
  lemma {:induction false} OpenAchievementsAdvance(p: Progress, user: UserId, achievements: seq<Achievement>, increment: int, now: Time, i: int)
    requires DistinctIds(achievements) && 0 <= i < |achievements|
    requires !WasCompleted(p.store, (user, achievements[i].id))
    ensures (user, achievements[i].id) in ProcessAll(p, user, achievements, increment, now).0.store
    ensures ProcessAll(p, user, achievements, increment, now).0.store[(user, achievements[i].id)].progress
            == Current(p.store, (user, achievements[i].id), now).progress + increment
    ensures ProcessAll(p, user, achievements, increment, now).0.store[(user, achievements[i].id)].completed
            <==> Completes(p.store, user, achievements[i], increment, now)
    decreases |achievements|
  {
    var n := |achievements| - 1;
    var front := achievements[..n];
    var before := ProcessAll(p, user, front, increment, now);
    if i == n {
      PrefixLeavesLaterRecord(p, user, front, increment, now, achievements[n]);
    } else {
      assert front[i] == achievements[i];
      assert DistinctIds(front);
      OpenAchievementsAdvance(p, user, front, increment, now, i);
      assert achievements[n].id != achievements[i].id;
    }
  }

  class AchievementService {
    var catalog: map<nat, Achievement>
    var store: map<Key, UserAchievement>
    var awards: seq<Award>

    constructor (achievements: map<nat, Achievement>)
      ensures catalog == achievements && store == map[] && awards == []
    {
      catalog := achievements;
      store := map[];
      awards := [];
    }

    /** processAchievementProgress over the active achievements of the kind, ordered by threshold. */
    method ProcessAchievementProgress(user: UserId, achievements: seq<Achievement>, increment: int, now: Time) returns (anyCompleted: bool)
      modifies this`store, this`awards
      ensures (Progress(store, awards), anyCompleted) == ProcessAll(Progress(old(store), old(awards)), user, achievements, increment, now)
    {
      ghost var start := Progress(store, awards);
      anyCompleted := false;
      var i := 0;
      while i < |achievements|
        invariant 0 <= i <= |achievements|
        invariant (Progress(store, awards), anyCompleted) == ProcessAll(start, user, achievements[..i], increment, now)
      {
        var achievement := achievements[i];
        ghost var step := Step(Progress(store, awards), user, achievement, increment, now);
        ghost var anyBefore := anyCompleted;
        var key := (user, achievement.id);
        var userAchievement := if key in store then store[key] else UserAchievement(0, false, None, now);
        ghost var saved := store;
        assert userAchievement == Current(saved, key, now);
        if !userAchievement.completed {
          userAchievement := userAchievement.(progress := userAchievement.progress + increment);
          store := store[key := userAchievement];
          if userAchievement.progress >= achievement.threshold {
            userAchievement := userAchievement.(completed := true, completedAt := Some(now));
            store := store[key := userAchievement];
            assert store == saved[key := userAchievement];
            if achievement.pointsReward > 0 {
              awards := awards + [Award(user, achievement.id, achievement.pointsReward)];
            }
            anyCompleted := true;
          }
        }
        assert (Progress(store, awards), anyCompleted) == (step.0, anyBefore || step.1);
        assert achievements[..i + 1][..i] == achievements[..i];
        i := i + 1;
      }
      assert achievements[..|achievements|] == achievements;
    }

    /**
     * resetAchievementProgress: only for a known, repeatable achievement whose
     * record exists and is completed; it goes back to 0 and open.
     */
    method ResetAchievementProgress(user: UserId, achievementId: nat, now: Time) returns (ok: bool)
      modifies this`store
      ensures ok <==> achievementId in catalog && catalog[achievementId].repeatable && WasCompleted(old(store), (user, achievementId))
      ensures ok ==> store == old(store)[(user, achievementId) := old(store)[(user, achievementId)].(progress := 0, completed := false, completedAt := None, lastUpdated := now)]
      ensures !ok ==> store == old(store)
    {
      if achievementId !in catalog || !catalog[achievementId].repeatable {
        return false;
      }
      var key := (user, achievementId);
      if key in store && store[key].completed {
        store := store[key := store[key].(progress := 0, completed := false, completedAt := None, lastUpdated := now)];
        return true;
      }
      return false;
    }
  }
}
