// The AI gateway's per-user, per-tier rate limit: an hourly window with a
// request count, checked before a request and counted after it.

module AiGatewayModel {
  import opened Common

  /** The tiers the gateway names; the enum's own file is not part of this model. */
  datatype AiTier = Master | Agentic

  datatype AiConfig = AiConfig(enabled: bool, requestLimitPerHour: int)

  datatype RateLimit = RateLimit(requestCount: int, windowStart: Time, windowEnd: Time)

  /** A fresh window: no requests yet, one hour long from now. */
  function FreshWindow(now: Time): (w: RateLimit)
    ensures w.requestCount == 0 && w.windowEnd - w.windowStart == SecondsPerHour && w.windowStart == now
  {
    RateLimit(0, now, now + SecondsPerHour)
  }

  /**
   * checkRateLimit: refused without an enabled configuration; allowed with no
   * record or once its window has ended; otherwise allowed while the count is
   * below the hourly limit.
   */
  function CheckRateLimit(config: Option<AiConfig>, record: Option<RateLimit>, now: Time): (allowed: bool)
    ensures config.None? || !config.value.enabled ==> !allowed
    ensures config.Some? && config.value.enabled && (record.None? || now > record.value.windowEnd) ==> allowed
    ensures config.Some? && config.value.enabled && record.Some? && !(now > record.value.windowEnd) ==>
              (allowed <==> record.value.requestCount < config.value.requestLimitPerHour)
  {
    if config.None? || !config.value.enabled then false
    else if record.None? then true
    else if now > record.value.windowEnd then true
    else record.value.requestCount < config.value.requestLimitPerHour
  }

  /** incrementRateLimit on one record: a missing or ended window restarts at zero, then one request is counted. */
  function Incremented(record: Option<RateLimit>, now: Time): (r: RateLimit)
    ensures record.None? || now > record.value.windowEnd ==> r == FreshWindow(now).(requestCount := 1)
    ensures record.Some? && !(now > record.value.windowEnd) ==> r == record.value.(requestCount := record.value.requestCount + 1)
    ensures !(now > r.windowEnd)
  {
    var current := if record.None? then FreshWindow(now) else record.value;
    var live := if now > current.windowEnd then FreshWindow(now) else current;
    live.(requestCount := live.requestCount + 1)
  }

  /** An allowed request followed by its count never takes the count past the limit (or past 1, when the limit is below 1). */
  lemma AllowedIncrementStaysWithinLimit(config: AiConfig, record: Option<RateLimit>, now: Time)
    requires CheckRateLimit(Some(config), record, now)
    requires record.Some? ==> record.value.requestCount >= 0
    ensures 1 <= Incremented(record, now).requestCount <= Max(1, config.requestLimitPerHour)
  {
  }

  /** Inside one window, the limit-th counted request closes it: the next check is refused. */
  lemma FullWindowRefuses(config: AiConfig, record: RateLimit, now: Time, later: Time)
    requires config.enabled && !(later > record.windowEnd)
    requires record.requestCount + 1 >= config.requestLimitPerHour
    requires !(now > record.windowEnd)
    ensures !CheckRateLimit(Some(config), Some(Incremented(Some(record), now)), later)
  {
  }

  /** The gateway's stores: the tier configurations and the rate-limit records by user and tier. */
  class AiGateway {
    var configs: map<AiTier, AiConfig>
    var limits: map<(UserId, AiTier), RateLimit>

    /** findByTierAndEnabledTrue */
    function EnabledConfig(tier: AiTier): (r: Option<AiConfig>)
      reads this
      ensures r.Some? <==> tier in configs && configs[tier].enabled
    {
      if tier in configs && configs[tier].enabled then Some(configs[tier]) else None
    }

    function Record(user: UserId, tier: AiTier): Option<RateLimit>
      reads this
    {
      if (user, tier) in limits then Some(limits[(user, tier)]) else None
    }

    /** No record counts past its tier's limit, or past 1 when that limit is below 1. */
    ghost predicate Valid()
      reads this
    {
      forall key :: key in limits ==>
        limits[key].requestCount >= 0
        && (key.1 in configs ==> limits[key].requestCount <= Max(1, configs[key.1].requestLimitPerHour))
    }

    constructor (tiers: map<AiTier, AiConfig>)
      ensures Valid() && configs == tiers && limits == map[]
    {
      configs := tiers;
      limits := map[];
    }

    function CheckRateLimitFor(user: UserId, tier: AiTier, now: Time): bool
      reads this
    {
      CheckRateLimit(EnabledConfig(tier), Record(user, tier), now)
    }

    /** incrementRateLimit: throws without a configuration for the tier (enabled or not); otherwise counts one request. */
    method IncrementRateLimit(user: UserId, tier: AiTier, now: Time) returns (r: Outcome<()>)
      modifies this`limits
      ensures r.Ok? <==> tier in configs
      ensures r.Ok? ==> limits == old(limits)[(user, tier) := Incremented(old(Record(user, tier)), now)]
      ensures r.Fail? ==> r.message == "No value present" && limits == old(limits)
    {
      if tier !in configs {
        return Fail("No value present");
      }
      limits := limits[(user, tier) := Incremented(Record(user, tier), now)];
      return Ok(());
    }

    /** The gateway's sequence around a request: check, and count the request only when it is allowed. */
    method Admit(user: UserId, tier: AiTier, now: Time) returns (allowed: bool)
      requires Valid()
      modifies this`limits
      ensures Valid()
      ensures allowed == old(CheckRateLimitFor(user, tier, now))
      ensures allowed ==> limits == old(limits)[(user, tier) := Incremented(old(Record(user, tier)), now)]
      ensures !allowed ==> limits == old(limits)
    {
      allowed := CheckRateLimitFor(user, tier, now);
      if allowed {
        AllowedIncrementStaysWithinLimit(configs[tier], Record(user, tier), now);
        var _ := IncrementRateLimit(user, tier, now);
      }
    }
  }
}
