// A user's membership in a chat room: role, presence, notification muting
// and message counters.

module ChatParticipantModel {
  import opened Common

  /**
   * The roles the chat code names, plus Member for the ordinary role that
   * none of the modelled checks mention.
   */
  datatype ChatParticipantRole = Owner | Admin | Moderator | Member | Muted | Banned

  const ActiveWindowMinutes: int := 5
  const RecentMessageHours: int := 1
  const AutoRemoveDays: int := 90

  /** hasAdminRights: OWNER, ADMIN or MODERATOR. */
  predicate HasAdminRights(role: ChatParticipantRole) {
    role == Owner || role == Admin || role == Moderator
  }

  /** canModerate: OWNER or ADMIN. */
  predicate CanModerate(role: ChatParticipantRole) {
    role == Owner || role == Admin
  }

  /** The moderation roles are a strict subset of the admin roles: a MODERATOR has admin rights but cannot moderate. */
  lemma CanModerateImpliesAdminRights(role: ChatParticipantRole)
    ensures CanModerate(role) ==> HasAdminRights(role)
    ensures HasAdminRights(role) && !CanModerate(role) <==> role == Moderator
  {
  }

  /**
   * shouldAutoRemove: never an OWNER, never without a last-seen time,
   * otherwise unseen for 90 days and not ADMIN or MODERATOR.
   */
  function ShouldAutoRemove(role: ChatParticipantRole, lastSeenAt: Option<Time>, now: Time): (r: bool)
    ensures role == Owner ==> !r
    ensures HasAdminRights(role) ==> !r
    ensures r <==> !HasAdminRights(role) && lastSeenAt.Some? && lastSeenAt.value < now - AutoRemoveDays * SecondsPerDay
  {
    if role == Owner then false
    else if lastSeenAt.None? then false
    else lastSeenAt.value < now - AutoRemoveDays * SecondsPerDay && role != Admin && role != Moderator
  }

  /**
   * getEngagementScore: 10 when online, up to 30 for messages sent, the read
   * rate times 20 truncated, 15 for a message within the last hour, 5 when
   * pinned, capped at 100. The read rate is read / sent, computed exactly.
   */
  function EngagementScore(online: bool, sent: int, read: int, lastMessageAt: Option<Time>, pinned: bool, now: Time): (r: int)
    ensures r <= 100
    ensures sent >= 0 && read >= 0 ==> r >= 0
    ensures sent <= 0 ==> r == (if online then 10 else 0) + (if lastMessageAt.Some? && lastMessageAt.value > now - RecentMessageHours * SecondsPerHour then 15 else 0) + (if pinned then 5 else 0)
    ensures 0 <= read <= sent ==> r <= 80
  {
    var s1 := if online then 10 else 0;
    var s2 := s1 + (if sent > 0 then Min(30, sent) else 0);
    var s3 := s2 + (if sent > 0 then JavaDiv(read * 20, sent) else 0);
    var s4 := s3 + (if lastMessageAt.Some? && lastMessageAt.value > now - RecentMessageHours * SecondsPerHour then 15 else 0);
    var s5 := s4 + (if pinned then 5 else 0);
    ReadRatePoints(read, sent);
    Min(100, s5)
  }

  lemma MulMonotone(a: int, b: int, c: int)
    requires a <= b && c >= 0
    ensures a * c <= b * c
  {
  }

  /** When no more messages were read than sent, the read-rate term is at most 20. */
  lemma ReadRatePoints(read: int, sent: int)
    ensures 0 <= read <= sent && sent > 0 ==> 0 <= JavaDiv(read * 20, sent) <= 20
    ensures read >= 0 && sent > 0 ==> JavaDiv(read * 20, sent) >= 0
  {
    if 0 <= read <= sent && sent > 0 {
      var q := JavaDiv(read * 20, sent);
      assert q >= 0 && Abs(q * sent) == q * sent;
      MulMonotone(read, sent, 20);
      if q > 20 {
        MulMonotone(21, q, sent);
      }
    }
  }

  class ChatParticipant {
    var user: UserId
    var role: ChatParticipantRole
    var joinedAt: Time
    var lastSeenAt: Option<Time>
    var lastMessageAt: Option<Time>
    var online: bool
    var typing: bool
    var notificationEnabled: bool
    var muteUntil: Option<Time>
    var messagesSent: int
    var messagesRead: int
    var lastReadMessageId: Option<string>
    var pinned: bool

    /**
     * A new participant as onCreate leaves it: offline, not typing, not
     * pinned; the notification flag keeps the value it was built with.
     */
    constructor (member: UserId, r: ChatParticipantRole, notifications: bool, now: Time)
      ensures user == member && role == r && joinedAt == now && notificationEnabled == notifications
      ensures !online && !typing && !pinned && muteUntil == None
      ensures messagesSent == 0 && messagesRead == 0 && lastSeenAt == None && lastMessageAt == None
    {
      user := member;
      role := r;
      joinedAt := now;
      lastSeenAt := None;
      lastMessageAt := None;
      online := false;
      typing := false;
      notificationEnabled := notifications;
      muteUntil := None;
      messagesSent := 0;
      messagesRead := 0;
      lastReadMessageId := None;
      pinned := false;
    }

    /** updateLastSeen: seen now, and online. */
    method UpdateLastSeen(now: Time)
      modifies this`lastSeenAt, this`online
      ensures lastSeenAt == Some(now) && online
    {
      lastSeenAt := Some(now);
      online := true;
    }

    method UpdateLastMessage(now: Time)
      modifies this`lastMessageAt
      ensures lastMessageAt == Some(now)
    {
      lastMessageAt := Some(now);
    }

    /** markOffline: neither online nor typing. */
    method MarkOffline()
      modifies this`online, this`typing
      ensures !online && !typing
    {
      online := false;
      typing := false;
    }

    /** setTypingStatus: typing as given; starting to type also marks the participant online. */
    method SetTypingStatus(isTyping: bool)
      modifies this`typing, this`online
      ensures typing == isTyping
      ensures online == (isTyping || old(online))
    {
      typing := isTyping;
      if isTyping {
        online := true;
      }
    }

    method IncrementMessagesSent()
      modifies this`messagesSent
      ensures messagesSent == old(messagesSent) + 1
    {
      messagesSent := messagesSent + 1;
    }

    method UpdateMessagesRead(messageId: string)
      modifies this`messagesRead, this`lastReadMessageId
      ensures messagesRead == old(messagesRead) + 1 && lastReadMessageId == Some(messageId)
    {
      messagesRead := messagesRead + 1;
      lastReadMessageId := Some(messageId);
    }

    /** muteUntil: notifications off until the given time. */
    method MuteUntil(until: Time)
      modifies this`muteUntil, this`notificationEnabled
      ensures muteUntil == Some(until) && !notificationEnabled
    {
      muteUntil := Some(until);
      notificationEnabled := false;
    }

    /** unmute: no mute time, notifications on. */
    method Unmute()
      modifies this`muteUntil, this`notificationEnabled
      ensures muteUntil == None && notificationEnabled
    {
      muteUntil := None;
      notificationEnabled := true;
    }

    predicate IsMuted(now: Time)
      reads this
    {
      muteUntil.Some? && muteUntil.value > now
    }

    /** shouldReceiveNotifications: enabled, not muted, and online. */
    predicate ShouldReceiveNotifications(now: Time)
      reads this
    {
      notificationEnabled && !IsMuted(now) && online
    }

    /** getUnreadMessageCount: sent minus read, which the source does not keep from going negative. */
    function UnreadMessageCount(): (r: int)
      reads this
      ensures r + messagesRead == messagesSent
    {
      messagesSent - messagesRead
    }

    /** isActive: online, and either never seen or seen within the last 5 minutes. */
    predicate IsActive(now: Time)
      reads this
    {
      online && (lastSeenAt.None? || lastSeenAt.value > now - ActiveWindowMinutes * SecondsPerMinute)
    }
  }

  /** After muteUntil the participant receives nothing; after unmute an online participant does again. */
  method MuteThenUnmute(p: ChatParticipant, until: Time, now: Time) returns (whileMuted: bool, afterUnmute: bool)
    modifies p
    ensures !whileMuted
    ensures afterUnmute <==> p.online
  {
    p.MuteUntil(until);
    whileMuted := p.ShouldReceiveNotifications(now);
    p.Unmute();
    afterUnmute := p.ShouldReceiveNotifications(now);
  }
}
