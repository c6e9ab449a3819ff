// The browser-side gamification service: XP and levels, badges and
// achievements, kept per user as a stored progress record.

module GamificationModel {
  import opened Common

  datatype Badge = Badge(id: string, locked: bool, unlockedAt: Option<Time>)

  datatype Achievement = Achievement(id: string, progress: int, target: int, reward: int, completed: bool)

  /**
   * The stored progress record. Every read of the store is a fresh copy, so
   * the record is a value.
   */
  datatype UserProgress = UserProgress(
    level: int,
    xp: int,
    xpToNextLevel: int,
    totalXP: int,
    badges: seq<Badge>,
    achievements: seq<Achievement>,
    streak: int,
    lastLoginDate: Time)

  /** calculateXPForNextLevel: level squared times 100. */
  function NextLevelXP(level: int): (r: int)
    ensures level >= 1 ==> r >= 100
  {
    assert level >= 1 ==> level * level >= 1 by {
      if level >= 1 {
        assert level * level >= level;
      }
    }
    level * level * 100
  }

  const BadgeIds: seq<string> := ["first_session", "streak_7", "streak_30", "level_5", "level_10", "level_25", "level_50", "sessions_10", "sessions_50", "sessions_100"]

  /** The catalogue of badges, all locked. */
  function AllBadges(): (r: seq<Badge>)
    ensures |r| == |BadgeIds| && forall i :: 0 <= i < |r| ==> r[i] == Badge(BadgeIds[i], true, None)
  {
    seq(|BadgeIds|, i requires 0 <= i < |BadgeIds| => Badge(BadgeIds[i], true, None))
  }

  /** The catalogue of achievements: id, target and reward, none begun. */
  const AllAchievements: seq<Achievement> := [
    Achievement("complete_profile", 0, 1, 50, false),
    Achievement("first_favorite", 0, 1, 20, false),
    Achievement("social_butterfly", 0, 100, 100, false),
    Achievement("reaction_master", 0, 50, 50, false),
    Achievement("early_bird", 0, 10, 75, false),
    Achievement("night_owl", 0, 10, 75, false)]

  /** The record of a user with nothing stored yet. */
  function Fresh(now: Time): (p: UserProgress)
    ensures p.level == 1 && p.xp == 0 && p.xpToNextLevel == NextLevelXP(1) && p.totalXP == 0
    ensures forall i :: 0 <= i < |p.badges| ==> p.badges[i].locked
  {
    UserProgress(1, 0, 100, 0, AllBadges(), AllAchievements, 0, now)
  }

  /** What every stored record satisfies: a level from 1, its threshold, and XP below it. */
  predicate ValidProgress(p: UserProgress) {
    p.level >= 1 && p.xpToNextLevel == NextLevelXP(p.level) && p.xp < p.xpToNextLevel
  }

  /** The badge a level unlocks, for the four levels that have one. */
  function LevelBadgeId(level: int): (r: Option<string>)
    ensures r.Some? <==> level == 5 || level == 10 || level == 25 || level == 50
  {
    if level == 5 then Some("level_5")
    else if level == 10 then Some("level_10")
    else if level == 25 then Some("level_25")
    else if level == 50 then Some("level_50")
    else None
  }

  // ---------------------------------------------------------------------
  // Badges

  /** `badges.find(b => b.id === id)`: the first badge with the id, or -1. */
  function FirstBadge(badges: seq<Badge>, id: string): (i: int)
    ensures -1 <= i < |badges|
    ensures i >= 0 ==> badges[i].id == id
    ensures forall j :: 0 <= j < |badges| && (i < 0 || j < i) ==> badges[j].id != id
    decreases |badges|
  {
    if badges == [] then -1
    else if badges[0].id == id then 0
    else
      var k := FirstBadge(badges[1..], id);
      assert forall j :: 1 <= j < |badges| ==> badges[j] == badges[1..][j - 1];
      if k < 0 then -1 else k + 1
  }

  predicate SameIds(a: seq<Badge>, b: seq<Badge>) {
    |a| == |b| && forall i :: 0 <= i < |a| ==> a[i].id == b[i].id
  }

  /** Badge lists with the same ids find the same position for every id. */
  lemma SameIdsSameFirst(a: seq<Badge>, b: seq<Badge>, id: string)
    requires SameIds(a, b)
    ensures FirstBadge(a, id) == FirstBadge(b, id)
  {
    var i, j := FirstBadge(a, id), FirstBadge(b, id);
    if i >= 0 && j >= 0 {
      assert !(j < i) && !(i < j);
    }
  }

  /** The badge with the id (its first occurrence) is present and locked. */
  predicate Unlockable(badges: seq<Badge>, id: string) {
    FirstBadge(badges, id) >= 0 && badges[FirstBadge(badges, id)].locked
  }

  /** The badge with the id (its first occurrence) is present and unlocked. */
  predicate Unlocked(badges: seq<Badge>, id: string) {
    FirstBadge(badges, id) >= 0 && !badges[FirstBadge(badges, id)].locked
  }

  /**
   * The unlock itself: the found badge, when it is locked, becomes unlocked
   * now; the result says whether it was.
   */
  function UnlockBadgeIn(badges: seq<Badge>, id: string, now: Time): (r: (seq<Badge>, bool))
    ensures SameIds(r.0, badges)
    ensures r.1 <==> Unlockable(badges, id)
    ensures r.1 ==> r.0 == badges[FirstBadge(badges, id) := badges[FirstBadge(badges, id)].(locked := false, unlockedAt := Some(now))]
    ensures !r.1 ==> r.0 == badges
    ensures FirstBadge(badges, id) >= 0 ==> Unlocked(r.0, id)
  {
    var i := FirstBadge(badges, id);
    if i >= 0 && badges[i].locked then
      var after := badges[i := badges[i].(locked := false, unlockedAt := Some(now))];
      SameIdsSameFirst(after, badges, id);
      (after, true)
    else (badges, false)
  }

  /** Unlocking one badge never locks another. */
  lemma UnlockKeepsUnlocked(badges: seq<Badge>, id: string, now: Time, other: string)
    requires Unlocked(badges, other)
    ensures Unlocked(UnlockBadgeIn(badges, id, now).0, other)
  {
    SameIdsSameFirst(UnlockBadgeIn(badges, id, now).0, badges, other);
  }

  // ---------------------------------------------------------------------
  // XP and levels

  /** `progress.xp += amount; progress.totalXP += amount` */
  function Added(p: UserProgress, amount: int): (r: UserProgress)
    ensures r.totalXP == p.totalXP + amount && r.xp == p.xp + amount
    ensures r.level == p.level && r.xpToNextLevel == p.xpToNextLevel && r.badges == p.badges && r.achievements == p.achievements
  {
    p.(xp := p.xp + amount, totalXP := p.totalXP + amount)
  }

  /** One level-up: the threshold is paid out of xp and the next threshold set. */
  function LevelUpOnce(p: UserProgress): (r: UserProgress)
    ensures r.level == p.level + 1 && r.xp == p.xp - p.xpToNextLevel && r.xpToNextLevel == NextLevelXP(r.level)
    ensures r.totalXP == p.totalXP && r.badges == p.badges && r.achievements == p.achievements
  {
    p.(xp := p.xp - p.xpToNextLevel, level := p.level + 1, xpToNextLevel := NextLevelXP(p.level + 1))
  }

  /** The level-up loop without the badges: levels gained while xp reaches the threshold. */
  function SettleXP(p: UserProgress): (r: UserProgress)
    requires p.level >= 1 && p.xpToNextLevel == NextLevelXP(p.level)
    ensures ValidProgress(r) && r.level >= p.level
    ensures r.totalXP == p.totalXP && r.badges == p.badges && r.achievements == p.achievements
    ensures r.streak == p.streak && r.lastLoginDate == p.lastLoginDate
    ensures p.xp < p.xpToNextLevel ==> r == p
    decreases p.xp
  {
    if p.xp >= p.xpToNextLevel then SettleXP(LevelUpOnce(p)) else p
  }

  /** The XP the thresholds of the levels from `from` up to `to` (excluded) add up to. */
  function XPBetween(from: int, to: int): int
    decreases to - from
  {
    if from < to then NextLevelXP(from) + XPBetween(from + 1, to) else 0
  }

  /** No XP is lost or made up by levelling: what is left plus the thresholds paid is what there was. */
  lemma {:induction false} SettleConservesXP(p: UserProgress)
    requires p.level >= 1 && p.xpToNextLevel == NextLevelXP(p.level)
    ensures SettleXP(p).xp + XPBetween(p.level, SettleXP(p).level) == p.xp
    decreases p.xp
  {
    if p.xp >= p.xpToNextLevel {
      SettleConservesXP(LevelUpOnce(p));
    }
  }

  /** The level-up loop does not look at the badges. */
  lemma {:induction false} SettleXPIgnoresBadges(p: UserProgress, badges: seq<Badge>)
    requires p.level >= 1 && p.xpToNextLevel == NextLevelXP(p.level)
    ensures SettleXP(p.(badges := badges)) == SettleXP(p).(badges := badges)
    decreases p.xp
  {
    if p.xp >= p.xpToNextLevel {
      SettleXPIgnoresBadges(LevelUpOnce(p), badges);
      assert LevelUpOnce(p.(badges := badges)) == LevelUpOnce(p).(badges := badges);
    }
  }

  /** The level-up loop with each new level's badge unlocked in the same record. */
  function SettleWithBadges(p: UserProgress, now: Time): (r: UserProgress)
    requires p.level >= 1 && p.xpToNextLevel == NextLevelXP(p.level)
    ensures r.(badges := p.badges) == SettleXP(p)
    ensures SameIds(r.badges, p.badges)
    decreases p.xp
  {
    if p.xp >= p.xpToNextLevel then
      var q := LevelUpOnce(p);
      var id := LevelBadgeId(q.level);
      var next := if id.Some? then q.(badges := UnlockBadgeIn(q.badges, id.value, now).0) else q;
      SettleXPIgnoresBadges(q, next.badges);
      assert next == q.(badges := next.badges);
      SettleWithBadges(next, now)
    else p
  }

  /** A badge unlocked before the level-up loop stays unlocked. */
  lemma {:induction false} SettleKeepsUnlocked(p: UserProgress, now: Time, id: string)
    requires p.level >= 1 && p.xpToNextLevel == NextLevelXP(p.level)
    requires Unlocked(p.badges, id)
    ensures Unlocked(SettleWithBadges(p, now).badges, id)
    decreases p.xp
  {
    if p.xp >= p.xpToNextLevel {
      var q := LevelUpOnce(p);
      var b := LevelBadgeId(q.level);
      if b.Some? {
        UnlockKeepsUnlocked(q.badges, b.value, now, id);
        SettleKeepsUnlocked(q.(badges := UnlockBadgeIn(q.badges, b.value, now).0), now, id);
      } else {
        SettleKeepsUnlocked(q, now, id);
      }
    }
  }

  /** Every level reached on the way has its badge unlocked, when the record holds that badge. */
  lemma {:induction false} LevelBadgesUnlocked(p: UserProgress, now: Time, level: int)
    requires p.level >= 1 && p.xpToNextLevel == NextLevelXP(p.level)
    requires p.level < level <= SettleXP(p).level && LevelBadgeId(level).Some?
    requires FirstBadge(p.badges, LevelBadgeId(level).value) >= 0
    ensures Unlocked(SettleWithBadges(p, now).badges, LevelBadgeId(level).value)
    decreases p.xp
  {
    var q := LevelUpOnce(p);
    var id := LevelBadgeId(level).value;
    SameIdsSameFirst(q.badges, p.badges, id);
    var b := LevelBadgeId(q.level);
    var next := if b.Some? then q.(badges := UnlockBadgeIn(q.badges, b.value, now).0) else q;
    SameIdsSameFirst(next.badges, p.badges, id);
    SettleXPIgnoresBadges(q, next.badges);
    assert next == q.(badges := next.badges);
    if level == q.level {
      SettleKeepsUnlocked(next, now, id);
    } else {
      LevelBadgesUnlocked(next, now, level);
    }
  }

  /** The record awardXP saves as written: the XP and levels, with the badges as they were read. */
  function AwardedAsWritten(p: UserProgress, amount: int): (r: UserProgress)
    requires p.level >= 1 && p.xpToNextLevel == NextLevelXP(p.level)
    ensures ValidProgress(r) && r.totalXP == p.totalXP + amount && r.badges == p.badges
  {
    SettleXP(Added(p, amount))
  }

  /** The record awardXP evidently means to save: the XP and levels, with the level badges unlocked. */
  function Awarded(p: UserProgress, amount: int, now: Time): (r: UserProgress)
    requires p.level >= 1 && p.xpToNextLevel == NextLevelXP(p.level)
    ensures ValidProgress(r) && r.totalXP == p.totalXP + amount
    ensures r.(badges := p.badges) == AwardedAsWritten(p, amount)
  {
    SettleWithBadges(Added(p, amount), now)
  }

  /** A level-4 user 100 XP short of level 5. */
  function LevelFourUser(): (p: UserProgress)
    ensures ValidProgress(p) && p.level == 4
  {
    UserProgress(4, 1500, 1600, 2900, AllBadges(), AllAchievements, 0, 0)
  }

  /** As written, reaching level 5 leaves the stored level-5 badge locked. */
  lemma LevelBadgeLostAsWritten()
    ensures AwardedAsWritten(LevelFourUser(), 100).level == 5
    ensures !Unlocked(AwardedAsWritten(LevelFourUser(), 100).badges, "level_5")
  {
    var p := LevelFourUser();
    var q := LevelUpOnce(Added(p, 100));
    assert q.xp == 0 && q.xpToNextLevel == 2500;
    assert AwardedAsWritten(p, 100) == q;
    assert p.badges[3].id == "level_5";
    assert forall j :: 0 <= j < 3 ==> p.badges[j].id != "level_5";
  }

  /** With the badge unlocked in the saved record, the same award keeps it. */
  lemma LevelBadgeKept()
    ensures Awarded(LevelFourUser(), 100, 0).level == 5
    ensures Unlocked(Awarded(LevelFourUser(), 100, 0).badges, "level_5")
  {
    var p := Added(LevelFourUser(), 100);
    assert LevelFourUser().badges[3].id == "level_5";
    assert SettleXP(p).level == 5 by {
      assert SettleXP(p) == LevelUpOnce(p);
    }
    LevelBadgesUnlocked(p, 0, 5);
  }

  // ---------------------------------------------------------------------
  // Achievements

  /** `achievements.find(a => a.id === id)`: the first achievement with the id, or -1. */
  function FirstAchievement(achievements: seq<Achievement>, id: string): (i: int)
    ensures -1 <= i < |achievements|
    ensures i >= 0 ==> achievements[i].id == id
    ensures forall j :: 0 <= j < |achievements| && (i < 0 || j < i) ==> achievements[j].id != id
    decreases |achievements|
  {
    if achievements == [] then -1
    else if achievements[0].id == id then 0
    else
      var k := FirstAchievement(achievements[1..], id);
      assert forall j :: 1 <= j < |achievements| ==> achievements[j] == achievements[1..][j - 1];
      if k < 0 then -1 else k + 1
  }

  /** updateAchievement applies: the achievement is present and not completed. */
  predicate CanUpdate(p: UserProgress, achievementId: string) {
    FirstAchievement(p.achievements, achievementId) >= 0 && !p.achievements[FirstAchievement(p.achievements, achievementId)].completed
  }

  /** The new progress, capped at the target, and completed once it reaches it. */
  function WithProgress(a: Achievement, value: int): (r: Achievement)
    ensures r.progress == Min(value, a.target) && r.progress <= a.target
    ensures r.completed <==> value >= a.target
    ensures r.id == a.id && r.target == a.target && r.reward == a.reward
  {
    var progress := Min(value, a.target);
    a.(progress := progress, completed := progress >= a.target)
  }

  /** The record updateAchievement saves as written: the achievement updated, the XP as it was read. */
  function AchievementUpdatedAsWritten(p: UserProgress, achievementId: string, value: int): (r: UserProgress)
    requires CanUpdate(p, achievementId)
    ensures r.totalXP == p.totalXP && r.xp == p.xp && r.level == p.level
    ensures var i := FirstAchievement(p.achievements, achievementId);
            r.achievements == p.achievements[i := WithProgress(p.achievements[i], value)]
  {
    var i := FirstAchievement(p.achievements, achievementId);
    p.(achievements := p.achievements[i := WithProgress(p.achievements[i], value)])
  }

  /** The record updateAchievement evidently means to save: the achievement updated and, on completion, its reward awarded. */
  function AchievementUpdated(p: UserProgress, achievementId: string, value: int, now: Time): (r: UserProgress)
    requires ValidProgress(p) && CanUpdate(p, achievementId)
    ensures var a := p.achievements[FirstAchievement(p.achievements, achievementId)];
            r.totalXP == p.totalXP + (if value >= a.target then a.reward else 0)
    ensures ValidProgress(r)
    ensures r.achievements == AchievementUpdatedAsWritten(p, achievementId, value).achievements
  {
    var marked := AchievementUpdatedAsWritten(p, achievementId, value);
    var a := p.achievements[FirstAchievement(p.achievements, achievementId)];
    if value >= a.target then Awarded(marked, a.reward, now) else marked
  }

  /** As written, completing "complete_profile" for a new user stores no reward XP. */
  lemma RewardLostAsWritten(now: Time)
    ensures CanUpdate(Fresh(now), "complete_profile")
    ensures AchievementUpdatedAsWritten(Fresh(now), "complete_profile", 1).achievements[0].completed
    ensures AchievementUpdatedAsWritten(Fresh(now), "complete_profile", 1).totalXP == 0
  {
    assert FirstAchievement(Fresh(now).achievements, "complete_profile") == 0;
  }

  /** With the reward in the saved record, the same update stores its 50 XP. */
  lemma RewardKept(now: Time)
    ensures CanUpdate(Fresh(now), "complete_profile")
    ensures AchievementUpdated(Fresh(now), "complete_profile", 1, now).totalXP == 50
  {
    assert FirstAchievement(Fresh(now).achievements, "complete_profile") == 0;
  }

  // ---------------------------------------------------------------------
  // The service over the browser's store

  /** Two stores that agree on every user but one. */
  ghost predicate SameExcept(a: map<string, UserProgress>, b: map<string, UserProgress>, userId: string) {
    forall k :: k != userId ==> (k in a <==> k in b) && (k in a ==> a[k] == b[k])
  }

  /** Saving the same record for that user makes two such stores equal. */
  lemma SameExceptUpdated(a: map<string, UserProgress>, b: map<string, UserProgress>, userId: string, p: UserProgress)
    requires SameExcept(a, b, userId)
    ensures a[userId := p] == b[userId := p]
  {
    assert a[userId := p].Keys == b[userId := p].Keys;
  }

  class GamificationService {
    /** localStorage, by user id. */
    var storage: map<string, UserProgress>

    ghost predicate Valid()
      reads this
    {
      forall u :: u in storage ==> ValidProgress(storage[u])
    }

    constructor ()
      ensures Valid() && storage == map[]
    {
      storage := map[];
    }

    /** getUserProgress: the stored record, or a fresh one. */
    function GetUserProgress(userId: string, now: Time): (p: UserProgress)
      reads this
      ensures userId in storage ==> p == storage[userId]
      ensures userId !in storage ==> p == Fresh(now)
      ensures Valid() ==> ValidProgress(p)
    {
      if userId in storage then storage[userId] else Fresh(now)
    }

    /** unlockBadge: true only for a present, locked badge, which is unlocked and saved. */
    method UnlockBadge(userId: string, badgeId: string, now: Time) returns (ok: bool)
      requires Valid()
      modifies this
      ensures Valid()
      ensures ok <==> Unlockable(old(GetUserProgress(userId, now)).badges, badgeId)
      ensures ok ==> storage == old(storage)[userId := old(GetUserProgress(userId, now)).(badges := UnlockBadgeIn(old(GetUserProgress(userId, now)).badges, badgeId, now).0)]
      ensures !ok ==> storage == old(storage)
    {
      var progress := GetUserProgress(userId, now);
      var i := FirstBadge(progress.badges, badgeId);
      if i >= 0 && progress.badges[i].locked {
        progress := progress.(badges := progress.badges[i := progress.badges[i].(locked := false, unlockedAt := Some(now))]);
        storage := storage[userId := progress];
        return true;
      }
      return false;
    }

    /** onLevelUp: the level's badge, for the four levels that have one. */
    method OnLevelUp(userId: string, level: int, now: Time)
      requires Valid()
      modifies this
      ensures Valid()
      ensures SameExcept(storage, old(storage), userId)
      ensures LevelBadgeId(level).None? ==> storage == old(storage)
      ensures LevelBadgeId(level).Some? ==>
        var before := old(GetUserProgress(userId, now));
        var badgeId := LevelBadgeId(level).value;
        storage == (if Unlockable(before.badges, badgeId)
                    then old(storage)[userId := before.(badges := UnlockBadgeIn(before.badges, badgeId, now).0)]
                    else old(storage))
    {
      var id := LevelBadgeId(level);
      if id.Some? {
        var _ := UnlockBadge(userId, id.value, now);
      }
    }

    /**
     * awardXP as written: the level-ups unlock their badges through the
     * store, and then the record read at the start is saved over them.
     */
    method AwardXPAsWritten(userId: string, amount: int, now: Time) returns (progress: UserProgress)
      requires Valid()
      modifies this
      ensures Valid()
      ensures progress == AwardedAsWritten(old(GetUserProgress(userId, now)), amount)
      ensures storage == old(storage)[userId := progress]
    {
      ghost var start := Added(GetUserProgress(userId, now), amount);
      progress := GetUserProgress(userId, now);
      progress := progress.(xp := progress.xp + amount, totalXP := progress.totalXP + amount);
      while progress.xp >= progress.xpToNextLevel
        invariant Valid()
        invariant progress.level >= 1 && progress.xpToNextLevel == NextLevelXP(progress.level)
        invariant SettleXP(progress) == SettleXP(start)
        invariant SameExcept(storage, old(storage), userId)
        decreases progress.xp
      {
        ghost var before := progress;
        progress := progress.(xp := progress.xp - progress.xpToNextLevel);
        progress := progress.(level := progress.level + 1);
        progress := progress.(xpToNextLevel := NextLevelXP(progress.level));
        assert progress == LevelUpOnce(before);
        OnLevelUp(userId, progress.level, now);
      }
      assert progress == SettleXP(start);
      SameExceptUpdated(storage, old(storage), userId, progress);
      storage := storage[userId := progress];
    }

    /** The level-up loop with each new level's badge unlocked in the record itself. */
    method LevelUp(start: UserProgress, now: Time) returns (progress: UserProgress)
      requires start.level >= 1 && start.xpToNextLevel == NextLevelXP(start.level)
      ensures progress == SettleWithBadges(start, now)
    {
      progress := start;
      while progress.xp >= progress.xpToNextLevel
        invariant progress.level >= 1 && progress.xpToNextLevel == NextLevelXP(progress.level)
        invariant SettleWithBadges(progress, now) == SettleWithBadges(start, now)
        decreases progress.xp
      {
        ghost var before := progress;
        progress := progress.(xp := progress.xp - progress.xpToNextLevel);
        progress := progress.(level := progress.level + 1);
        progress := progress.(xpToNextLevel := NextLevelXP(progress.level));
        assert progress == LevelUpOnce(before);
        var id := LevelBadgeId(progress.level);
        if id.Some? {
          progress := progress.(badges := UnlockBadgeIn(progress.badges, id.value, now).0);
        }
        assert SettleWithBadges(before, now) == SettleWithBadges(progress, now);
      }
    }

    /** awardXP with the level badges unlocked in the record it saves. */
    method AwardXP(userId: string, amount: int, now: Time) returns (progress: UserProgress)
      requires Valid()
      modifies this
      ensures Valid()
      ensures progress == Awarded(old(GetUserProgress(userId, now)), amount, now)
      ensures storage == old(storage)[userId := progress]
    {
      progress := GetUserProgress(userId, now);
      progress := progress.(xp := progress.xp + amount, totalXP := progress.totalXP + amount);
      assert progress == Added(old(GetUserProgress(userId, now)), amount);
      progress := LevelUp(progress, now);
      storage := storage[userId := progress];
    }

    /**
     * updateAchievement as written: the reward is awarded through the store,
     * and then the record read at the start is saved over it.
     */
    method UpdateAchievementAsWritten(userId: string, achievementId: string, value: int, now: Time) returns (ok: bool)
      requires Valid()
      modifies this
      ensures Valid()
      ensures ok <==> CanUpdate(old(GetUserProgress(userId, now)), achievementId)
      ensures ok ==> storage == old(storage)[userId := AchievementUpdatedAsWritten(old(GetUserProgress(userId, now)), achievementId, value)]
      ensures !ok ==> storage == old(storage)
    {
      var progress := GetUserProgress(userId, now);
      var i := FirstAchievement(progress.achievements, achievementId);
      if i >= 0 && !progress.achievements[i].completed {
        var a := progress.achievements[i];
        a := a.(progress := Min(value, a.target));
        if a.progress >= a.target {
          a := a.(completed := true);
          var _ := AwardXPAsWritten(userId, a.reward, now);
        }
        progress := progress.(achievements := progress.achievements[i := a]);
        storage := storage[userId := progress];
        return true;
      }
      return false;
    }

    /** updateAchievement with the reward awarded in the record it saves. */
    method UpdateAchievement(userId: string, achievementId: string, value: int, now: Time) returns (ok: bool)
      requires Valid()
      modifies this
      ensures Valid()
      ensures ok <==> CanUpdate(old(GetUserProgress(userId, now)), achievementId)
      ensures ok ==> storage == old(storage)[userId := AchievementUpdated(old(GetUserProgress(userId, now)), achievementId, value, now)]
      ensures !ok ==> storage == old(storage)
    {
      var progress := GetUserProgress(userId, now);
      var i := FirstAchievement(progress.achievements, achievementId);
      if i >= 0 && !progress.achievements[i].completed {
        ghost var read := progress;
        var a := progress.achievements[i];
        a := a.(progress := Min(value, a.target));
        var completes := a.progress >= a.target;
        if completes {
          a := a.(completed := true);
        }
        assert a == WithProgress(read.achievements[i], value);
        progress := progress.(achievements := progress.achievements[i := a]);
        ghost var marked := AchievementUpdatedAsWritten(read, achievementId, value);
        assert progress == marked;
        if completes {
          progress := progress.(xp := progress.xp + a.reward, totalXP := progress.totalXP + a.reward);
          assert progress == Added(marked, read.achievements[i].reward);
          progress := LevelUp(progress, now);
        }
        assert progress == AchievementUpdated(read, achievementId, value, now);
        storage := storage[userId := progress];
        return true;
      }
      return false;
    }
  }
}
