// A user's place in the friendly-talk matching queue.

module FriendlyTalkQueueModel {
  import opened Common

  /** The moods a user can queue with. */
  datatype MoodType = Lonely | Anxious | Excited | Sad | Happy | Stressed | Confused | Bored | Angry | Grateful

  datatype QueueStatus = Waiting | Matching | Matched | Expired | Cancelled

  const DefaultMaxWaitMinutes: int := 30

  /** The fields of a queue entry that matching reads. */
  datatype QueueEntry = QueueEntry(
    user: UserId,
    status: QueueStatus,
    moodType: MoodType,
    intensity: int,
    anonymous: bool,
    preferredTopics: Option<string>,
    matchedWith: Option<UserId>,
    matchedAt: Option<Time>,
    expiresAt: Time)

  /** isExpired: the expiry lies strictly before now. */
  predicate IsExpired(expiresAt: Time, now: Time) {
    expiresAt < now
  }

  /** isActive: still WAITING and not expired. */
  predicate IsActiveEntry(e: QueueEntry, now: Time) {
    e.status == Waiting && !IsExpired(e.expiresAt, now)
  }

  class FriendlyTalkQueue {
    var user: UserId
    var status: QueueStatus
    var moodType: MoodType
    var intensity: int
    var anonymous: bool
    var preferredTopics: Option<string>
    var maxWaitMinutes: int
    var joinedAt: Time
    var expiresAt: Time
    var matchedWith: Option<UserId>
    var matchedAt: Option<Time>
    var retryCount: int
    var lastRetryAt: Option<Time>

    /**
     * A new entry as onCreate leaves it: WAITING, no retries, expiring after
     * the requested wait or 30 minutes when none was given, a zero wait
     * becoming 30.
     */
    constructor (u: UserId, mood: MoodType, level: int, isAnonymous: bool, topics: Option<string>,
                 maxWait: int, now: Time)
      ensures user == u && moodType == mood && intensity == level && anonymous == isAnonymous
      ensures preferredTopics == topics && status == Waiting && joinedAt == now
      ensures expiresAt == now + (if maxWait > 0 then maxWait else DefaultMaxWaitMinutes) * SecondsPerMinute
      ensures maxWaitMinutes == (if maxWait == 0 then DefaultMaxWaitMinutes else maxWait)
      ensures matchedWith == None && matchedAt == None && retryCount == 0 && lastRetryAt == None
    {
      user := u;
      status := Waiting;
      moodType := mood;
      intensity := level;
      anonymous := isAnonymous;
      preferredTopics := topics;
      joinedAt := now;
      expiresAt := now + (if maxWait > 0 then maxWait else DefaultMaxWaitMinutes) * SecondsPerMinute;
      maxWaitMinutes := if maxWait == 0 then DefaultMaxWaitMinutes else maxWait;
      matchedWith := None;
      matchedAt := None;
      retryCount := 0;
      lastRetryAt := None;
    }

    function Entry(): (e: QueueEntry)
      reads this
      ensures e.user == user && e.status == status && e.expiresAt == expiresAt
      ensures e.matchedWith == matchedWith && e.matchedAt == matchedAt
    {
      QueueEntry(user, status, moodType, intensity, anonymous, preferredTopics, matchedWith, matchedAt, expiresAt)
    }

    /** isActive */
    predicate IsActive(now: Time)
      reads this
    {
      IsActiveEntry(Entry(), now)
    }

    /** markAsMatched: unconditionally MATCHED with the partner. */
    method MarkAsMatched(partner: UserId, now: Time)
      modifies this`status, this`matchedWith, this`matchedAt
      ensures status == Matched && matchedWith == Some(partner) && matchedAt == Some(now)
      ensures !IsActive(now)
    {
      status := Matched;
      matchedWith := Some(partner);
      matchedAt := Some(now);
    }

    /**
     * The update hook: a WAITING entry with a positive wait has its expiry
     * recomputed from the time it joined; any other entry keeps its expiry.
     */
    method OnUpdate()
      modifies this`expiresAt
      ensures status == Waiting && maxWaitMinutes > 0 ==> expiresAt == joinedAt + maxWaitMinutes * SecondsPerMinute
      ensures !(status == Waiting && maxWaitMinutes > 0) ==> expiresAt == old(expiresAt)
    {
      if status == Waiting && maxWaitMinutes > 0 {
        expiresAt := joinedAt + maxWaitMinutes * SecondsPerMinute;
      }
    }

    /** markAsExpired: only a WAITING entry expires. */
    method MarkAsExpired()
      modifies this`status
      ensures status == (if old(status) == Waiting then Expired else old(status))
    {
      if status == Waiting {
        status := Expired;
      }
    }

    /** cancel: only a WAITING or MATCHING entry is cancelled. */
    method Cancel()
      modifies this`status
      ensures status == (if old(status) in {Waiting, Matching} then Cancelled else old(status))
      ensures old(status) == Matched ==> status == Matched
    {
      if status == Waiting || status == Matching {
        status := Cancelled;
      }
    }

    method IncrementRetry(now: Time)
      modifies this`retryCount, this`lastRetryAt
      ensures retryCount == old(retryCount) + 1 && lastRetryAt == Some(now)
    {
      retryCount := retryCount + 1;
      lastRetryAt := Some(now);
    }

    /** getWaitingTimeMinutes: whole minutes since joining. */
    function WaitingTimeMinutes(now: Time): (r: int)
      reads this
      ensures joinedAt <= now ==> r >= 0 && r * SecondsPerMinute <= now - joinedAt < (r + 1) * SecondsPerMinute
    {
      DurationIn(joinedAt, now, SecondsPerMinute)
    }
  }
}
