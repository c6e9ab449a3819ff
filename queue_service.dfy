// Friendly-talk queue matching: wait-time estimates, the compatibility test
// between two queue entries, the matching score, the search for the best
// partner of one user, and the batch pass that pairs neighbours in the queue.

module QueueServiceModel {
  import opened Common
  import opened FriendlyTalkQueueModel

  /** Moods in high demand wait 5 minutes, low-demand ones 15, the rest 10. */
  function BaseWaitTime(m: MoodType): (r: int)
    ensures r in {5, 10, 15}
  {
    match m
    case Lonely | Anxious => 5
    case Happy | Excited => 15
    case _ => 10
  }

  /**
   * calculateEstimatedWaitTime: the base for the mood, lowered by
   * max(0, 5 − intensity/2), so at most 5 minutes below the base and the
   * full base from intensity 10 on.
   */
  function EstimatedWaitTime(m: MoodType, intensity: int): (r: int)
    ensures r <= BaseWaitTime(m)
    ensures intensity >= 10 ==> r == BaseWaitTime(m)
    ensures intensity >= 0 ==> r >= BaseWaitTime(m) - 5
    ensures 0 <= intensity < 10 ==> r < BaseWaitTime(m)
    ensures 0 <= intensity < 10 ==> r == BaseWaitTime(m) - 5 + intensity / 2
  {
    BaseWaitTime(m) - Max(0, 5 - JavaDiv(intensity, 2))
  }

  // -------------------------------------------------------------------------
  // Topics

  /** A preferred-topics column split on commas. */
  function Topics(s: string): seq<string> {
    Split(s, ',')
  }

  /** Two topics match when equal ignoring case and surrounding blanks. */
  predicate TopicsMatch(t1: string, t2: string) {
    EqualsIgnoreCase(Trim(t1), Trim(t2))
  }

  /** Some topic of `ts` from position `j` on matches `t`. */
  predicate HasMatchFrom(t: string, ts: seq<string>, j: nat)
    decreases |ts| - j
  {
    j < |ts| && (TopicsMatch(t, ts[j]) || HasMatchFrom(t, ts, j + 1))
  }

  /** Some topic of `ts` matches `t`. */
  predicate HasMatch(t: string, ts: seq<string>) {
    HasMatchFrom(t, ts, 0)
  }

  /** HasMatchFrom holds exactly when a matching topic sits at `j` or later. */
  lemma {:induction false} HasMatchFromIff(t: string, ts: seq<string>, j: nat)
    ensures HasMatchFrom(t, ts, j) <==> exists b :: j <= b < |ts| && TopicsMatch(t, ts[b])
    decreases |ts| - j
  {
    if j < |ts| {
      HasMatchFromIff(t, ts, j + 1);
      if exists b :: j <= b < |ts| && TopicsMatch(t, ts[b]) {
        var b :| j <= b < |ts| && TopicsMatch(t, ts[b]);
        if b > j {
          assert j + 1 <= b < |ts| && TopicsMatch(t, ts[b]);
        }
      }
    }
  }

  /** Some topic of `ts1` from position `i` on matches some topic of `ts2`. */
  predicate AnyTopicSharedFrom(ts1: seq<string>, ts2: seq<string>, i: nat)
    decreases |ts1| - i
  {
    i < |ts1| && (HasMatch(ts1[i], ts2) || AnyTopicSharedFrom(ts1, ts2, i + 1))
  }

  /** Some topic of `ts1` matches some topic of `ts2`. */
  predicate AnyTopicShared(ts1: seq<string>, ts2: seq<string>) {
    AnyTopicSharedFrom(ts1, ts2, 0)
  }

  /** AnyTopicSharedFrom holds exactly when a topic with a match sits at `i` or later. */
  lemma {:induction false} AnyTopicSharedFromIff(ts1: seq<string>, ts2: seq<string>, i: nat)
    ensures AnyTopicSharedFrom(ts1, ts2, i) <==> exists a :: i <= a < |ts1| && HasMatch(ts1[a], ts2)
    decreases |ts1| - i
  {
    if i < |ts1| {
      AnyTopicSharedFromIff(ts1, ts2, i + 1);
      if exists a :: i <= a < |ts1| && HasMatch(ts1[a], ts2) {
        var a :| i <= a < |ts1| && HasMatch(ts1[a], ts2);
        if a > i {
          assert i + 1 <= a < |ts1| && HasMatch(ts1[a], ts2);
        }
      }
    }
  }

  /** Both entries name topics and some topic of the first matches some topic of the second. */
  predicate SharesTopic(a: Option<string>, b: Option<string>) {
    a.Some? && b.Some? && AnyTopicShared(Topics(a.value), Topics(b.value))
  }

  /** The nested search of areCompatibleForMatching over two topic lists, returning at the first match. */
  method SearchSharedTopic(topics1: seq<string>, topics2: seq<string>) returns (r: bool)
    ensures r == AnyTopicShared(topics1, topics2)
  {
    var i := 0;
    while i < |topics1|
      invariant 0 <= i <= |topics1|
      invariant AnyTopicShared(topics1, topics2) == AnyTopicSharedFrom(topics1, topics2, i)
    {
      var found := FindTopicMatch(topics1[i], topics2);
      if found {
        return true;
      }
      i := i + 1;
    }
    return false;
  }

  /** The number of topics of `ts1` that match at least one topic of `ts2` (repeats counted). */
  function MatchedTopicCount(ts1: seq<string>, ts2: seq<string>): (n: nat)
    ensures n <= |ts1|
    decreases |ts1|
  {
    if |ts1| == 0 then 0
    else MatchedTopicCount(ts1[..|ts1| - 1], ts2) + (if HasMatch(ts1[|ts1| - 1], ts2) then 1 else 0)
  }

  lemma {:induction false} SharedTopicIsCounted(ts1: seq<string>, ts2: seq<string>, i: int)
    requires 0 <= i < |ts1| && HasMatch(ts1[i], ts2)
    ensures MatchedTopicCount(ts1, ts2) >= 1
    decreases |ts1|
  {
    if i < |ts1| - 1 {
      assert ts1[..|ts1| - 1][i] == ts1[i];
      SharedTopicIsCounted(ts1[..|ts1| - 1], ts2, i);
    }
  }

  // -------------------------------------------------------------------------
  // Compatibility and score

  /**
   * areCompatibleForMatching: the same mood, intensities at most 2 apart, or
   * a shared preferred topic.
   */
  predicate Compatible(q1: QueueEntry, q2: QueueEntry) {
    q1.moodType == q2.moodType
    || Abs(q1.intensity - q2.intensity) <= 2
    || SharesTopic(q1.preferredTopics, q2.preferredTopics)
  }

  lemma TopicMatchIsSymmetric(t1: string, t2: string)
    ensures TopicsMatch(t1, t2) <==> TopicsMatch(t2, t1)
  {
    EqualsIgnoreCaseIsSymmetric(Trim(t1), Trim(t2));
  }

  /** Sharing a topic does not depend on which list comes first. */
  lemma SharedTopicIsSymmetric(ts1: seq<string>, ts2: seq<string>)
    requires AnyTopicShared(ts1, ts2)
    ensures AnyTopicShared(ts2, ts1)
  {
    AnyTopicSharedFromIff(ts1, ts2, 0);
    var i :| 0 <= i < |ts1| && HasMatch(ts1[i], ts2);
    HasMatchFromIff(ts1[i], ts2, 0);
    var b :| 0 <= b < |ts2| && TopicsMatch(ts1[i], ts2[b]);
    TopicMatchIsSymmetric(ts1[i], ts2[b]);
    HasMatchFromIff(ts2[b], ts1, 0);
    AnyTopicSharedFromIff(ts2, ts1, 0);
  }

  /** Compatibility does not depend on which entry comes first. */
  lemma CompatibleIsSymmetric(q1: QueueEntry, q2: QueueEntry)
    ensures Compatible(q1, q2) <==> Compatible(q2, q1)
  {
    if SharesTopic(q1.preferredTopics, q2.preferredTopics) {
      SharedTopicIsSymmetric(Topics(q1.preferredTopics.value), Topics(q2.preferredTopics.value));
    }
    if SharesTopic(q2.preferredTopics, q1.preferredTopics) {
      SharedTopicIsSymmetric(Topics(q2.preferredTopics.value), Topics(q1.preferredTopics.value));
    }
  }

  /** The intensity part of the matching score: 30 points, minus 5 per point of difference. */
  function IntensityPoints(i1: int, i2: int): (r: int)
    ensures 0 <= r <= 30
    ensures r == 30 <==> i1 == i2
    ensures Abs(i1 - i2) <= 2 ==> r >= 20
    ensures Abs(i1 - i2) >= 6 ==> r == 0
  {
    Max(0, 30 - Abs(i1 - i2) * 5)
  }

  /** calculateMatchingScore: 50 for the same mood, the intensity points, 20 per matched topic of the first entry. */
  function MatchingScore(q1: QueueEntry, q2: QueueEntry): (r: int)
    ensures r >= 0
  {
    (if q1.moodType == q2.moodType then 50 else 0)
    + IntensityPoints(q1.intensity, q2.intensity)
    + (if q1.preferredTopics.Some? && q2.preferredTopics.Some?
       then 20 * MatchedTopicCount(Topics(q1.preferredTopics.value), Topics(q2.preferredTopics.value))
       else 0)
  }

  /** Every compatible pair scores at least 20, so the search below never discards one for scoring 0. */
  lemma CompatibleScoresAtLeastTwenty(q1: QueueEntry, q2: QueueEntry)
    requires Compatible(q1, q2)
    ensures MatchingScore(q1, q2) >= 20
  {
    if q1.moodType != q2.moodType && Abs(q1.intensity - q2.intensity) > 2 {
      var ts1, ts2 := Topics(q1.preferredTopics.value), Topics(q2.preferredTopics.value);
      AnyTopicSharedFromIff(ts1, ts2, 0);
      var i :| 0 <= i < |ts1| && HasMatch(ts1[i], ts2);
      SharedTopicIsCounted(ts1, ts2, i);
    }
  }

  /** areCompatibleForMatching: the mood and intensity tests, then the search over both topic lists. */
  method AreCompatibleForMatching(q1: QueueEntry, q2: QueueEntry) returns (r: bool)
    ensures r == Compatible(q1, q2)
  {
    if q1.moodType == q2.moodType {
      return true;
    }
    if Abs(q1.intensity - q2.intensity) <= 2 {
      return true;
    }
    if q1.preferredTopics.Some? && q2.preferredTopics.Some? {
      r := SearchSharedTopic(Topics(q1.preferredTopics.value), Topics(q2.preferredTopics.value));
      return r;
    }
    return false;
  }

  /** The inner loop over the second topic list, in both areCompatibleForMatching and calculateMatchingScore: stops at the first match. */
  method FindTopicMatch(t: string, topics2: seq<string>) returns (found: bool)
    ensures found == HasMatch(t, topics2)
  {
    var j := 0;
    while j < |topics2|
      invariant 0 <= j <= |topics2|
      invariant HasMatch(t, topics2) == HasMatchFrom(t, topics2, j)
    {
      if TopicsMatch(t, topics2[j]) {
        return true;
      }
      j := j + 1;
    }
    return false;
  }

  /** The outer loop of calculateMatchingScore: 20 more points for each topic of the first list with a match. */
  method AddTopicPoints(score0: int, topics1: seq<string>, topics2: seq<string>) returns (score: int)
    ensures score == score0 + 20 * MatchedTopicCount(topics1, topics2)
  {
    score := score0;
    var i := 0;
    while i < |topics1|
      invariant 0 <= i <= |topics1|
      invariant score == score0 + 20 * MatchedTopicCount(topics1[..i], topics2)
    {
      assert topics1[..i + 1][..i] == topics1[..i];
      var found := FindTopicMatch(topics1[i], topics2);
      if found {
        score := score + 20;
      }
      i := i + 1;
    }
    assert topics1[..|topics1|] == topics1;
  }

  /** calculateMatchingScore */
  method CalculateMatchingScore(q1: QueueEntry, q2: QueueEntry) returns (score: int)
    ensures score == MatchingScore(q1, q2)
  {
    score := 0;
    if q1.moodType == q2.moodType {
      score := score + 50;
    }
    var intensityDiff: int := Abs(q1.intensity - q2.intensity);
    score := score + Max(0, 30 - intensityDiff * 5);
    if q1.preferredTopics.Some? && q2.preferredTopics.Some? {
      score := AddTopicPoints(score, Topics(q1.preferredTopics.value), Topics(q2.preferredTopics.value));
    }
  }

  // -------------------------------------------------------------------------
  // Sessions created by matching

  /** The talk request created from two matched entries: the first becomes the initiator. */
  datatype SessionRequest = SessionRequest(
    initiator: UserId,
    receiver: UserId,
    initiatorMood: MoodType,
    receiverMood: MoodType,
    anonymous: bool)

  function SessionFromQueues(q1: QueueEntry, q2: QueueEntry): (s: SessionRequest)
    ensures s.initiator == q1.user && s.receiver == q2.user
    ensures s.anonymous <==> q1.anonymous || q2.anonymous
  {
    SessionRequest(q1.user, q2.user, q1.moodType, q2.moodType, q1.anonymous || q2.anonymous)
  }

  /**
   * The queue repository, by user: joinQueue keeps at most one entry per
   * user, and findByUser reads it.
   */
  type QueueStore = map<UserId, QueueEntry>

  /** markAsMatched on an entry: MATCHED with the partner at `now`, everything else as it was. */
  function MatchedEntry(e: QueueEntry, partner: UserId, now: Time): (r: QueueEntry)
    ensures r.status == Matched && r.matchedWith == Some(partner) && r.matchedAt == Some(now)
    ensures r.user == e.user && r.moodType == e.moodType && r.intensity == e.intensity
    ensures r.anonymous == e.anonymous && r.preferredTopics == e.preferredTopics && r.expiresAt == e.expiresAt
    ensures !IsActiveEntry(r, now)
  {
    e.(status := Matched, matchedWith := Some(partner), matchedAt := Some(now))
  }

  /**
   * The saves of createSessionFromQueues: each of the two entries marked
   * matched with the other's user; no other user's entry changes.
   */
  function SaveMatch(store: QueueStore, q1: QueueEntry, q2: QueueEntry, now: Time): (r: QueueStore)
    ensures r.Keys == store.Keys + {q1.user, q2.user}
    ensures r[q2.user] == MatchedEntry(q2, q1.user, now)
    ensures q1.user != q2.user ==> r[q1.user] == MatchedEntry(q1, q2.user, now)
    ensures forall v :: v in store && v != q1.user && v != q2.user ==> r[v] == store[v]
  {
    store[q1.user := MatchedEntry(q1, q2.user, now)][q2.user := MatchedEntry(q2, q1.user, now)]
  }

  /** The active entries of other users. */
  function Others(active: seq<QueueEntry>, u: UserId): (r: seq<QueueEntry>)
    ensures forall k :: 0 <= k < |r| ==> r[k].user != u && r[k] in active
    ensures forall e :: e in active && e.user != u ==> e in r
    decreases |active|
  {
    if active == [] then []
    else (if active[0].user != u then [active[0]] else []) + Others(active[1..], u)
  }

  /**
   * `os[j]` is the entry findMatch settles on: compatible, with a score no
   * other compatible entry beats, and strictly above every compatible entry
   * before it.
   */
  predicate IsBestMatch(u: QueueEntry, os: seq<QueueEntry>, j: int) {
    0 <= j < |os| && Compatible(u, os[j])
    && (forall k :: 0 <= k < |os| && Compatible(u, os[k]) ==> MatchingScore(u, os[k]) <= MatchingScore(u, os[j]))
    && (forall k :: 0 <= k < j && Compatible(u, os[k]) ==> MatchingScore(u, os[k]) < MatchingScore(u, os[j]))
  }

  /**
   * What findMatch's loop knows after looking at the first k entries: the
   * running best, if any, is a compatible entry among them with the highest
   * score so far, strictly above the compatible ones before it; with no best
   * yet, none of them was compatible.
   */
  ghost predicate BestSoFar(u: QueueEntry, others: seq<QueueEntry>, k: int, bestMatch: Option<QueueEntry>, bestScore: int, bestIndex: int) {
    0 <= k <= |others|
    && (bestMatch.None? <==> bestIndex == -1)
    && (bestMatch.None? ==> bestScore == 0 && forall a :: 0 <= a < k ==> !Compatible(u, others[a]))
    && (bestMatch.Some? ==>
          0 <= bestIndex < k && others[bestIndex] == bestMatch.value
          && Compatible(u, others[bestIndex]) && bestScore == MatchingScore(u, others[bestIndex])
          && (forall a :: 0 <= a < k && Compatible(u, others[a]) ==> MatchingScore(u, others[a]) <= bestScore)
          && (forall a :: 0 <= a < bestIndex && Compatible(u, others[a]) ==> MatchingScore(u, others[a]) < bestScore))
  }

  /** One turn of findMatch's loop: a compatible entry with a strictly higher score becomes the best. */
  lemma BestSoFarStep(u: QueueEntry, others: seq<QueueEntry>, k: int, bestMatch: Option<QueueEntry>, bestScore: int, bestIndex: int)
    requires BestSoFar(u, others, k, bestMatch, bestScore, bestIndex) && k < |others|
    ensures Compatible(u, others[k]) && MatchingScore(u, others[k]) > bestScore ==>
              BestSoFar(u, others, k + 1, Some(others[k]), MatchingScore(u, others[k]), k)
    ensures !(Compatible(u, others[k]) && MatchingScore(u, others[k]) > bestScore) ==>
              BestSoFar(u, others, k + 1, bestMatch, bestScore, bestIndex)
  {
    if Compatible(u, others[k]) {
      CompatibleScoresAtLeastTwenty(u, others[k]);
    }
  }

  /** After the whole list, the running best is the best match, and no best means nothing was compatible. */
  lemma BestSoFarAtEnd(u: QueueEntry, others: seq<QueueEntry>, bestMatch: Option<QueueEntry>, bestScore: int, bestIndex: int)
    requires BestSoFar(u, others, |others|, bestMatch, bestScore, bestIndex)
    ensures bestMatch.Some? ==> IsBestMatch(u, others, bestIndex) && others[bestIndex] == bestMatch.value
    ensures bestMatch.None? ==> forall a :: 0 <= a < |others| ==> !Compatible(u, others[a])
  {
  }

  /**
   * The loop of findMatch over the other users' entries: the running best
   * is replaced only by a compatible entry with a strictly higher score.
   */
  method BestCompatible(u: QueueEntry, others: seq<QueueEntry>) returns (bestMatch: Option<QueueEntry>, ghost bestIndex: int)
    ensures bestMatch.Some? ==> IsBestMatch(u, others, bestIndex) && others[bestIndex] == bestMatch.value
    ensures bestMatch.None? ==> forall a :: 0 <= a < |others| ==> !Compatible(u, others[a])
  {
    bestMatch := None;
    var bestScore := 0;
    bestIndex := -1;
    var k := 0;
    while k < |others|
      invariant BestSoFar(u, others, k, bestMatch, bestScore, bestIndex)
      decreases |others| - k
    {
      BestSoFarStep(u, others, k, bestMatch, bestScore, bestIndex);
      var compatible := AreCompatibleForMatching(u, others[k]);
      if compatible {
        var score := CalculateMatchingScore(u, others[k]);
        if score > bestScore {
          bestScore := score;
          bestMatch := Some(others[k]);
          bestIndex := k;
        }
      }
      k := k + 1;
    }
    BestSoFarAtEnd(u, others, bestMatch, bestScore, bestIndex);
  }

  /**
   * findMatch: none when the user has no active entry; otherwise the first
   * compatible entry of another user with the highest matching score, and
   * the session request built from the two, or none when no other entry is
   * compatible.
   */
  method FindMatch(userEntry: Option<QueueEntry>, active: seq<QueueEntry>, store: QueueStore, now: Time)
    returns (best: Option<QueueEntry>, session: Option<SessionRequest>, saved: QueueStore)
    ensures userEntry.None? || !IsActiveEntry(userEntry.value, now) ==> best.None?
    ensures best.Some? ==> userEntry.Some? && IsActiveEntry(userEntry.value, now)
                            && best.value.user != userEntry.value.user && best.value in active
    ensures best.Some? ==> exists j :: IsBestMatch(userEntry.value, Others(active, userEntry.value.user), j)
                                       && Others(active, userEntry.value.user)[j] == best.value
    ensures best.None? && userEntry.Some? && IsActiveEntry(userEntry.value, now) ==>
              forall e :: e in active && e.user != userEntry.value.user ==> !Compatible(userEntry.value, e)
    ensures session == (if best.Some? then Some(SessionFromQueues(userEntry.value, best.value)) else None)
    ensures best.Some? ==> saved == SaveMatch(store, userEntry.value, best.value, now)
    ensures best.None? ==> saved == store
  {
    if userEntry.None? || !IsActiveEntry(userEntry.value, now) {
      return None, None, store;
    }
    var u := userEntry.value;
    var others := Others(active, u.user);
    ghost var j;
    var bestMatch;
    bestMatch, j := BestCompatible(u, others);
    if bestMatch.Some? {
      saved := store[u.user := MatchedEntry(u, bestMatch.value.user, now)];
      saved := saved[bestMatch.value.user := MatchedEntry(bestMatch.value, u.user, now)];
      return bestMatch, Some(SessionFromQueues(u, bestMatch.value)), saved;
    }
    forall e | e in active && e.user != u.user
      ensures !Compatible(u, e)
    {
      var a :| 0 <= a < |others| && others[a] == e;
    }
    return None, None, store;
  }

  // -------------------------------------------------------------------------
  // processQueueMatching

  /** The active entries not yet matched with anyone, in queue order. */
  function Unmatched(active: seq<QueueEntry>): (r: seq<QueueEntry>)
    ensures forall k :: 0 <= k < |r| ==> r[k].matchedWith.None? && r[k] in active
    ensures forall e :: e in active && e.matchedWith.None? ==> e in r
    decreases |active|
  {
    if active == [] then []
    else (if active[0].matchedWith.None? then [active[0]] else []) + Unmatched(active[1..])
  }

  /**
   * The sessions the batch pass creates from its first n pairs: entries 0
   * and 1, 2 and 3, … up to 2n − 2 and 2n − 1, each pair taken when
   * compatible.
   */
  function PairsUpTo(us: seq<QueueEntry>, n: nat): seq<SessionRequest>
    requires 2 * n <= |us|
    decreases n
  {
    if n == 0 then []
    else PairsUpTo(us, n - 1)
         + (if Compatible(us[2 * n - 2], us[2 * n - 1]) then [SessionFromQueues(us[2 * n - 2], us[2 * n - 1])] else [])
  }

  /** The store after the first n pairs: each compatible pair saved as matched with each other. */
  function MarksUpTo(store: QueueStore, us: seq<QueueEntry>, n: nat, now: Time): QueueStore
    requires 2 * n <= |us|
    decreases n
  {
    if n == 0 then store
    else
      var before := MarksUpTo(store, us, n - 1, now);
      if Compatible(us[2 * n - 2], us[2 * n - 1]) then SaveMatch(before, us[2 * n - 2], us[2 * n - 1], now) else before
  }

  /** The store after the whole batch pass. */
  function MarkedPairs(store: QueueStore, us: seq<QueueEntry>, now: Time): QueueStore {
    MarksUpTo(store, us, |us| / 2, now)
  }

  /** The users of a list of entries are distinct, as they are in a store with one entry per user. */
  predicate DistinctUsers(us: seq<QueueEntry>) {
    forall i, j :: 0 <= i < j < |us| ==> us[i].user != us[j].user
  }

  /** Pair k of the first n is saved: both its entries are matched with each other. */
  lemma {:induction false} PairMarkedUpTo(store: QueueStore, us: seq<QueueEntry>, n: nat, now: Time, k: nat)
    requires 2 * n <= |us| && DistinctUsers(us)
    requires k < n && Compatible(us[2 * k], us[2 * k + 1])
    ensures us[2 * k].user in MarksUpTo(store, us, n, now) && us[2 * k + 1].user in MarksUpTo(store, us, n, now)
    ensures MarksUpTo(store, us, n, now)[us[2 * k].user] == MatchedEntry(us[2 * k], us[2 * k + 1].user, now)
    ensures MarksUpTo(store, us, n, now)[us[2 * k + 1].user] == MatchedEntry(us[2 * k + 1], us[2 * k].user, now)
    decreases n
  {
    var before := MarksUpTo(store, us, n - 1, now);
    if k < n - 1 {
      PairMarkedUpTo(store, us, n - 1, now, k);
      assert us[2 * k].user != us[2 * n - 2].user && us[2 * k].user != us[2 * n - 1].user;
      assert us[2 * k + 1].user != us[2 * n - 2].user && us[2 * k + 1].user != us[2 * n - 1].user;
    } else {
      assert 2 * k == 2 * n - 2 && 2 * k + 1 == 2 * n - 1;
      assert us[2 * k].user != us[2 * k + 1].user;
    }
  }

  /** The users of the compatible pairs among the first n. */
  function PairedUsersUpTo(us: seq<QueueEntry>, n: nat): set<UserId>
    requires 2 * n <= |us|
    decreases n
  {
    if n == 0 then {}
    else PairedUsersUpTo(us, n - 1)
         + (if Compatible(us[2 * n - 2], us[2 * n - 1]) then {us[2 * n - 2].user, us[2 * n - 1].user} else {})
  }

  /** A user is among the paired users exactly when one of the first n compatible pairs holds that user. */
  lemma {:induction false} PairedUsersAreThePairs(us: seq<QueueEntry>, n: nat, v: UserId)
    requires 2 * n <= |us|
    ensures v in PairedUsersUpTo(us, n) <==>
            exists k :: 0 <= k < n && Compatible(us[2 * k], us[2 * k + 1]) && (v == us[2 * k].user || v == us[2 * k + 1].user)
    decreases n
  {
    if n > 0 {
      PairedUsersAreThePairs(us, n - 1, v);
      var k := n - 1;
      assert 2 * k == 2 * n - 2 && 2 * k + 1 == 2 * n - 1;
      if exists k' :: 0 <= k' < n && Compatible(us[2 * k'], us[2 * k' + 1]) && (v == us[2 * k'].user || v == us[2 * k' + 1].user) {
        var k' :| 0 <= k' < n && Compatible(us[2 * k'], us[2 * k' + 1]) && (v == us[2 * k'].user || v == us[2 * k' + 1].user);
        if k' < n - 1 {
          assert v in PairedUsersUpTo(us, n - 1);
        }
      }
    }
  }

  /** A user in no compatible pair among the first n keeps the stored entry. */
  lemma {:induction false} UnpairedUnchangedUpTo(store: QueueStore, us: seq<QueueEntry>, n: nat, now: Time, v: UserId)
    requires 2 * n <= |us| && v in store && v !in PairedUsersUpTo(us, n)
    ensures v in MarksUpTo(store, us, n, now) && MarksUpTo(store, us, n, now)[v] == store[v]
    decreases n
  {
    if n > 0 {
      var k := n - 1;
      assert 2 * k == 2 * n - 2 && 2 * k + 1 == 2 * n - 1;
      assert v !in PairedUsersUpTo(us, n - 1);
      UnpairedUnchangedUpTo(store, us, n - 1, now, v);
      var before := MarksUpTo(store, us, n - 1, now);
      if Compatible(us[2 * k], us[2 * k + 1]) {
        assert v != us[2 * k].user && v != us[2 * k + 1].user;
        assert MarksUpTo(store, us, n, now) == SaveMatch(before, us[2 * k], us[2 * k + 1], now);
      } else {
        assert MarksUpTo(store, us, n, now) == before;
      }
    }
  }

  /**
   * After the batch pass, both entries of every compatible neighbour pair
   * are saved matched with each other, and every other user's entry is as
   * it was.
   */
  lemma PairedEntriesSavedMatched(store: QueueStore, us: seq<QueueEntry>, now: Time)
    requires DistinctUsers(us)
    ensures forall k :: 0 <= k && 2 * k + 1 < |us| && Compatible(us[2 * k], us[2 * k + 1]) ==>
              us[2 * k].user in MarkedPairs(store, us, now) && us[2 * k + 1].user in MarkedPairs(store, us, now)
              && MarkedPairs(store, us, now)[us[2 * k].user] == MatchedEntry(us[2 * k], us[2 * k + 1].user, now)
              && MarkedPairs(store, us, now)[us[2 * k + 1].user] == MatchedEntry(us[2 * k + 1], us[2 * k].user, now)
    ensures forall v :: v in store && v !in PairedUsersUpTo(us, |us| / 2) ==>
              v in MarkedPairs(store, us, now) && MarkedPairs(store, us, now)[v] == store[v]
  {
    var n := |us| / 2;
    forall k | 0 <= k && 2 * k + 1 < |us| && Compatible(us[2 * k], us[2 * k + 1])
      ensures us[2 * k].user in MarkedPairs(store, us, now) && us[2 * k + 1].user in MarkedPairs(store, us, now)
      ensures MarkedPairs(store, us, now)[us[2 * k].user] == MatchedEntry(us[2 * k], us[2 * k + 1].user, now)
      ensures MarkedPairs(store, us, now)[us[2 * k + 1].user] == MatchedEntry(us[2 * k + 1], us[2 * k].user, now)
    {
      PairMarkedUpTo(store, us, n, now, k);
    }
    forall v | v in store && v !in PairedUsersUpTo(us, n)
      ensures v in MarkedPairs(store, us, now) && MarkedPairs(store, us, now)[v] == store[v]
    {
      UnpairedUnchangedUpTo(store, us, n, now, v);
    }
  }

  /**
   * A second batch pass over entries read back from the saved store leaves
   * out every entry matched by the first pass.
   */
  lemma SecondPassSkipsPaired(store: QueueStore, us: seq<QueueEntry>, now: Time, again: seq<QueueEntry>, k: nat)
    requires DistinctUsers(us) && 2 * k + 1 < |us| && Compatible(us[2 * k], us[2 * k + 1])
    requires forall e :: e in again ==> e.user in MarkedPairs(store, us, now) && e == MarkedPairs(store, us, now)[e.user]
    ensures forall e :: e in Unmatched(again) ==> e.user != us[2 * k].user && e.user != us[2 * k + 1].user
  {
    PairMarkedUpTo(store, us, |us| / 2, now, k);
  }

  /** The sessions of the whole batch pass: every complete pair, a last odd entry left alone. */
  function PairedSessions(us: seq<QueueEntry>): seq<SessionRequest> {
    PairsUpTo(us, |us| / 2)
  }

  /**
   * Every session of the first n pairs pairs a compatible couple at
   * positions 2k and 2k+1 with k < n, so no entry is paired twice and there
   * are at most n sessions.
   */
  lemma {:induction false} PairsAreNeighbourPairs(us: seq<QueueEntry>, n: nat)
    requires 2 * n <= |us|
    ensures |PairsUpTo(us, n)| <= n
    ensures forall s :: s in PairsUpTo(us, n) ==>
              exists k :: 0 <= k < n && Compatible(us[2 * k], us[2 * k + 1])
                          && s == SessionFromQueues(us[2 * k], us[2 * k + 1])
    decreases n
  {
    if n > 0 {
      PairsAreNeighbourPairs(us, n - 1);
      forall s | s in PairsUpTo(us, n)
        ensures exists k :: 0 <= k < n && Compatible(us[2 * k], us[2 * k + 1])
                            && s == SessionFromQueues(us[2 * k], us[2 * k + 1])
      {
        if s !in PairsUpTo(us, n - 1) {
          var k := n - 1;
          assert 2 * k == 2 * n - 2 && 2 * k + 1 == 2 * n - 1;
          assert Compatible(us[2 * k], us[2 * k + 1]) && s == SessionFromQueues(us[2 * k], us[2 * k + 1]);
        }
      }
    }
  }

  /** The whole batch pass: at most half as many sessions as entries, each one a compatible neighbour pair. */
  lemma PairedSessionsAreNeighbourPairs(us: seq<QueueEntry>)
    ensures |PairedSessions(us)| <= |us| / 2
    ensures forall s :: s in PairedSessions(us) ==>
              exists k :: 0 <= k && 2 * k + 1 < |us| && Compatible(us[2 * k], us[2 * k + 1])
                          && s == SessionFromQueues(us[2 * k], us[2 * k + 1])
  {
    PairsAreNeighbourPairs(us, |us| / 2);
  }

  /** The loop of processQueueMatching: entries i and i + 1 for i = 0, 2, 4, …, each pair counted when compatible. */
  method PairNeighbours(unmatched: seq<QueueEntry>, store: QueueStore, now: Time)
    returns (matchesCreated: int, sessions: seq<SessionRequest>, saved: QueueStore)
    ensures sessions == PairedSessions(unmatched)
    ensures matchesCreated == |sessions|
    ensures saved == MarkedPairs(store, unmatched, now)
  {
    matchesCreated := 0;
    sessions := [];
    saved := store;
    var i := 0;
    while i < |unmatched| - 1
      invariant 0 <= i <= |unmatched| && i % 2 == 0
      invariant sessions == PairsUpTo(unmatched, i / 2)
      invariant saved == MarksUpTo(store, unmatched, i / 2, now)
      invariant matchesCreated == |sessions|
    {
      var compatible := AreCompatibleForMatching(unmatched[i], unmatched[i + 1]);
      if compatible {
        sessions := sessions + [SessionFromQueues(unmatched[i], unmatched[i + 1])];
        saved := saved[unmatched[i].user := MatchedEntry(unmatched[i], unmatched[i + 1].user, now)];
        saved := saved[unmatched[i + 1].user := MatchedEntry(unmatched[i + 1], unmatched[i].user, now)];
        matchesCreated := matchesCreated + 1;
      }
      i := i + 2;
    }
    assert i / 2 == |unmatched| / 2;
  }

  /**
   * processQueueMatching: pairs unmatched neighbours, saves each pair as
   * matched with each other and returns how many sessions it created.
   */
  method ProcessQueueMatching(active: seq<QueueEntry>, store: QueueStore, now: Time)
    returns (matchesCreated: int, sessions: seq<SessionRequest>, saved: QueueStore)
    ensures sessions == PairedSessions(Unmatched(active))
    ensures matchesCreated == |sessions|
    ensures 0 <= matchesCreated <= |Unmatched(active)| / 2
    ensures saved == MarkedPairs(store, Unmatched(active), now)
  {
    var unmatched := Unmatched(active);
    matchesCreated, sessions, saved := PairNeighbours(unmatched, store, now);
    PairedSessionsAreNeighbourPairs(unmatched);
  }
}
