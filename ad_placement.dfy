// An ad slot on the site: impression and click counters under optional
// limits, and the audience targeting check.

module AdPlacementModel {
  import opened Common

  datatype PlacementType = Header | Sidebar | Footer | Interstitial | InFeed | Banner | Popup | Native | VideoOverlay

  datatype TargetingType = AllUsers | PremiumOnly | FreeOnly | NewUsers | ActiveUsers | InactiveUsers
                         | LocationBased | InterestBased | DeviceBased

  /** The placement's targeting columns; a None field places no restriction. */
  datatype Targeting = Targeting(
    excludePremium: bool,
    ageMin: Option<int>,
    ageMax: Option<int>,
    gender: Option<string>,
    locations: Option<string>,
    interests: Option<string>,
    deviceTypes: Option<string>)

  /** What matchesTargeting is told about the viewer. */
  datatype Viewer = Viewer(
    age: Option<int>,
    gender: Option<string>,
    location: Option<string>,
    interests: Option<seq<string>>,
    deviceType: Option<string>,
    isPremium: bool)

  const UnlimitedMarker: int := -1
  const DefaultFrequencyCap: int := 5
  const DefaultPriority: int := 1

  /** A limit of 0 or less means unlimited. */
  predicate ReachedLimit(max: int, current: int) {
    max > 0 && current >= max
  }

  /** One of the comma-separated targets, trimmed, occurs in the viewer's location. */
  predicate LocationMatches(location: string, targets: seq<string>) {
    exists k :: 0 <= k < |targets| && Contains(location, Trim(targets[k]))
  }

  /** One of the comma-separated targets, trimmed, is among the viewer's interests. */
  predicate InterestMatches(interests: seq<string>, targets: seq<string>) {
    exists k :: 0 <= k < |targets| && Trim(targets[k]) in interests
  }

  predicate AgeAccepted(t: Targeting, v: Viewer) {
    (t.ageMin.None? || (v.age.Some? && v.age.value >= t.ageMin.value))
    && (t.ageMax.None? || (v.age.Some? && v.age.value <= t.ageMax.value))
  }

  predicate GenderAccepted(t: Targeting, v: Viewer) {
    t.gender.None? || t.gender.value == "ALL" || v.gender == t.gender
  }

  /** Location and interest checks apply only when both the target list and the viewer's value are present. */
  predicate LocationAccepted(t: Targeting, v: Viewer) {
    t.locations.None? || v.location.None? || LocationMatches(v.location.value, Split(t.locations.value, ','))
  }

  predicate InterestAccepted(t: Targeting, v: Viewer) {
    t.interests.None? || v.interests.None? || InterestMatches(v.interests.value, Split(t.interests.value, ','))
  }

  predicate DeviceAccepted(t: Targeting, v: Viewer) {
    t.deviceTypes.None? || v.deviceType.None? || Contains(t.deviceTypes.value, v.deviceType.value)
  }

  /** matchesTargeting, stated as the conjunction of its checks. */
  function Matches(t: Targeting, v: Viewer): (r: bool)
    ensures t.excludePremium && v.isPremium ==> !r
    ensures t.ageMin.Some? && v.age.Some? && v.age.value < t.ageMin.value ==> !r
    ensures t.ageMax.Some? && v.age.Some? && v.age.value > t.ageMax.value ==> !r
    ensures (t.ageMin.Some? || t.ageMax.Some?) && v.age.None? ==> !r
    ensures t == Targeting(false, None, None, None, None, None, None) ==> r
  {
    !(t.excludePremium && v.isPremium) && AgeAccepted(t, v) && GenderAccepted(t, v)
    && LocationAccepted(t, v) && InterestAccepted(t, v) && DeviceAccepted(t, v)
  }

  /** The location loop: stops at the first target found in the location. */
  method FindLocationMatch(location: string, targets: seq<string>) returns (found: bool)
    ensures found == LocationMatches(location, targets)
  {
    var i := 0;
    while i < |targets|
      invariant 0 <= i <= |targets|
      invariant forall k :: 0 <= k < i ==> !Contains(location, Trim(targets[k]))
    {
      if Contains(location, Trim(targets[i])) {
        return true;
      }
      i := i + 1;
    }
    return false;
  }

  /** The interest loop: stops at the first target among the interests. */
  method FindInterestMatch(interests: seq<string>, targets: seq<string>) returns (found: bool)
    ensures found == InterestMatches(interests, targets)
  {
    var i := 0;
    while i < |targets|
      invariant 0 <= i <= |targets|
      invariant forall k :: 0 <= k < i ==> Trim(targets[k]) !in interests
    {
      if Trim(targets[i]) in interests {
        return true;
      }
      i := i + 1;
    }
    return false;
  }

  /** matchesTargeting, in the source's order of early returns. */
  method MatchesTargeting(t: Targeting, v: Viewer) returns (r: bool)
    ensures r == Matches(t, v)
  {
    if t.excludePremium && v.isPremium {
      return false;
    }
    if t.ageMin.Some? && (v.age.None? || v.age.value < t.ageMin.value) {
      return false;
    }
    if t.ageMax.Some? && (v.age.None? || v.age.value > t.ageMax.value) {
      return false;
    }
    if t.gender.Some? && t.gender.value != "ALL" && Some(t.gender.value) != v.gender {
      return false;
    }
    if t.locations.Some? && v.location.Some? {
      var locationMatch := FindLocationMatch(v.location.value, Split(t.locations.value, ','));
      if !locationMatch {
        return false;
      }
    }
    if t.interests.Some? && v.interests.Some? {
      var interestMatch := FindInterestMatch(v.interests.value, Split(t.interests.value, ','));
      if !interestMatch {
        return false;
      }
    }
    if t.deviceTypes.Some? && v.deviceType.Some? {
      if !Contains(t.deviceTypes.value, v.deviceType.value) {
        return false;
      }
    }
    return true;
  }

  class AdPlacement {
    var kind: PlacementType
    var targetingType: TargetingType
    var active: bool
    var priority: int
    var maxImpressions: int
    var currentImpressions: int
    var maxClicks: int
    var currentClicks: int
    var startDate: Option<Time>
    var endDate: Option<Time>
    var frequencyCap: int
    var targeting: Targeting
    var requireConsent: bool

    /** A positive limit is never exceeded. */
    ghost predicate Valid()
      reads this
    {
      (maxImpressions > 0 ==> currentImpressions <= maxImpressions)
      && (maxClicks > 0 ==> currentClicks <= maxClicks)
    }

    /**
     * A new placement as onCreate leaves it: a limit of 0 becomes -1
     * (unlimited), a frequency cap of 0 becomes 5, a priority of 0 becomes 1,
     * premium users and consent not excluded or required; the active flag
     * has no default and keeps what the builder gave.
     */
    constructor (placement: PlacementType, audience: TargetingType, impressionLimit: int, clickLimit: int,
                 cap: int, prio: int, t: Targeting, isActive: bool)
      ensures Valid()
      ensures kind == placement && targetingType == audience && active == isActive
      ensures maxImpressions == (if impressionLimit == 0 then UnlimitedMarker else impressionLimit)
      ensures maxClicks == (if clickLimit == 0 then UnlimitedMarker else clickLimit)
      ensures frequencyCap == (if cap == 0 then DefaultFrequencyCap else cap)
      ensures priority == (if prio == 0 then DefaultPriority else prio)
      ensures currentImpressions == 0 && currentClicks == 0 && !requireConsent
      ensures targeting == t.(excludePremium := false)
    {
      kind := placement;
      targetingType := audience;
      active := isActive;
      priority := if prio == 0 then DefaultPriority else prio;
      maxImpressions := if impressionLimit == 0 then UnlimitedMarker else impressionLimit;
      currentImpressions := 0;
      maxClicks := if clickLimit == 0 then UnlimitedMarker else clickLimit;
      currentClicks := 0;
      startDate := None;
      endDate := None;
      frequencyCap := if cap == 0 then DefaultFrequencyCap else cap;
      targeting := t.(excludePremium := false);
      requireConsent := false;
    }

    /** isCurrentlyActive: active, started (or no start) and not ended (or no end). */
    predicate IsCurrentlyActive(now: Time)
      reads this
    {
      active && (startDate.None? || !(startDate.value > now)) && (endDate.None? || !(endDate.value < now))
    }

    predicate HasReachedImpressionLimit()
      reads this
    {
      ReachedLimit(maxImpressions, currentImpressions)
    }

    predicate HasReachedClickLimit()
      reads this
    {
      ReachedLimit(maxClicks, currentClicks)
    }

    /** recordImpression: counted unless the limit is reached, which returns false. */
    method RecordImpression() returns (ok: bool)
      requires Valid()
      modifies this`currentImpressions
      ensures Valid()
      ensures ok <==> !old(HasReachedImpressionLimit())
      ensures currentImpressions == old(currentImpressions) + (if ok then 1 else 0)
    {
      if HasReachedImpressionLimit() {
        return false;
      }
      currentImpressions := currentImpressions + 1;
      return true;
    }

    /** recordClick: counted unless the limit is reached, which returns false. */
    method RecordClick() returns (ok: bool)
      requires Valid()
      modifies this`currentClicks
      ensures Valid()
      ensures ok <==> !old(HasReachedClickLimit())
      ensures currentClicks == old(currentClicks) + (if ok then 1 else 0)
    {
      if HasReachedClickLimit() {
        return false;
      }
      currentClicks := currentClicks + 1;
      return true;
    }
  }

  /** A limit of 0 or less is never reached, however many impressions were counted. */
  lemma UnlimitedNeverReached(max: int, current: int)
    requires max <= 0
    ensures !ReachedLimit(max, current)
  {
  }

  /** Counting up to a positive limit: after n accepted impressions from zero the count is n, at most the limit. */
  lemma {:induction false} LimitedCountStopsAtMax(max: int, n: nat)
    requires max > 0
    ensures CountAfter(max, n) == Min(n, max)
    decreases n
  {
    if n > 0 {
      LimitedCountStopsAtMax(max, n - 1);
    }
  }

  /** The impression count after n attempts from zero against a limit. */
  function CountAfter(max: int, n: nat): int
    decreases n
  {
    if n == 0 then 0
    else
      var c := CountAfter(max, n - 1);
      if ReachedLimit(max, c) then c else c + 1
  }
}
