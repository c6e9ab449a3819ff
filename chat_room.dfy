// A chat room: its capacity-bounded participant list with roles, the
// per-user permission checks, archiving, and a health score.

module ChatRoomModel {
  import opened Common
  import opened ChatParticipantModel

  datatype ChatRoomType = Direct | Group | Session | Community

  /** The part of a participant the room's checks read. */
  datatype Membership = Membership(user: UserId, role: ChatParticipantRole, joinedAt: Time)

  datatype ActivityLevel = Inactive | High | Medium | Low

  const DirectMaxParticipants: int := 2
  const GroupMaxParticipants: int := 50
  const DefaultRetentionDays: int := 90
  const CleanupAfterDays: int := 30

  /** No user holds two memberships. */
  predicate DistinctUsers(ps: seq<Membership>) {
    forall i, j :: 0 <= i < j < |ps| ==> ps[i].user != ps[j].user
  }

  predicate IsMember(ps: seq<Membership>, user: UserId) {
    exists i :: 0 <= i < |ps| && ps[i].user == user
  }

  /** The position of the user's first membership, or -1 (the source's findFirst). */
  function IndexOf(ps: seq<Membership>, user: UserId): (i: int)
    ensures -1 <= i < |ps|
    ensures i >= 0 ==> ps[i].user == user && forall j :: 0 <= j < i ==> ps[j].user != user
    ensures i == -1 <==> !IsMember(ps, user)
    decreases |ps|
  {
    if ps == [] then -1
    else if ps[0].user == user then 0
    else
      var k := IndexOf(ps[1..], user);
      assert forall j :: 1 <= j < |ps| ==> ps[j] == ps[1..][j - 1];
      if k == -1 then -1 else k + 1
  }

  /** The first position holding the user is the one IndexOf finds. */
  lemma IndexOfIsFirst(ps: seq<Membership>, user: UserId, i: int)
    requires 0 <= i < |ps| && ps[i].user == user
    requires forall j :: 0 <= j < i ==> ps[j].user != user
    ensures IndexOf(ps, user) == i
  {
    assert IsMember(ps, user);
  }

  /** getParticipantRole: the role of the user's first membership, or null. */
  function RoleOf(ps: seq<Membership>, user: UserId): (r: Option<ChatParticipantRole>)
    ensures r.None? <==> !IsMember(ps, user)
    ensures r.Some? ==> exists i :: 0 <= i < |ps| && ps[i].user == user && ps[i].role == r.value
  {
    var i := IndexOf(ps, user);
    if i < 0 then None else Some(ps[i].role)
  }

  /** canUserSendMessages: a member whose role is neither MUTED nor BANNED. */
  function CanSendMessages(ps: seq<Membership>, user: UserId): (r: bool)
    ensures !IsMember(ps, user) ==> !r
    ensures r <==> RoleOf(ps, user).Some? && RoleOf(ps, user).value != Muted && RoleOf(ps, user).value != Banned
  {
    var role := RoleOf(ps, user);
    if role.None? then false else role.value != Muted && role.value != Banned
  }

  /** hasModerationRights: a member who is OWNER, ADMIN or MODERATOR. */
  function HasModerationRights(ps: seq<Membership>, user: UserId): (r: bool)
    ensures !IsMember(ps, user) ==> !r
    ensures r <==> RoleOf(ps, user).Some? && HasAdminRights(RoleOf(ps, user).value)
  {
    var role := RoleOf(ps, user);
    if role.None? then false else role.value == Owner || role.value == Admin || role.value == Moderator
  }

  /** A muted or banned member cannot send; a moderator always can. */
  lemma ModeratorsCanSend(ps: seq<Membership>, user: UserId)
    requires HasModerationRights(ps, user)
    ensures CanSendMessages(ps, user)
  {
  }

  /** getActivityLevel: by whole hours since the last message. */
  function ActivityOf(lastMessageAt: Option<Time>, now: Time): (a: ActivityLevel)
    ensures lastMessageAt.None? <==> a == Inactive
    ensures lastMessageAt.Some? && lastMessageAt.value <= now && now - lastMessageAt.value < SecondsPerHour ==> a == High
    ensures lastMessageAt.Some? && 24 * SecondsPerHour <= now - lastMessageAt.value ==> a == Low
  {
    if lastMessageAt.None? then Inactive
    else
      var hours := DurationIn(lastMessageAt.value, now, SecondsPerHour);
      if hours < 1 then High else if hours < 24 then Medium else Low
  }

  /**
   * getHealthScore: 50, then +30, +15 or -10 by activity (nothing when
   * inactive), up to +20 for participants, +10 when public, +5 when
   * encrypted, capped at 100.
   */
  function HealthScore(activity: ActivityLevel, participants: int, isPublic: bool, encrypted: bool): (r: int)
    ensures 40 <= r <= 100
    ensures activity == Low ==> r <= 75
    ensures activity == High && participants >= 10 ==> r == 100
  {
    var a := match activity
      case High => 30
      case Medium => 15
      case Low => -10
      case Inactive => 0;
    var p := if participants > 0 then Min(20, participants * 2) else 0;
    Min(100, 50 + a + p + (if isPublic then 10 else 0) + (if encrypted then 5 else 0))
  }

  /** shouldAutoCleanup: no activity for 30 days, nobody in it, and not public. */
  predicate ShouldAutoCleanup(lastActivityAt: Option<Time>, now: Time, participants: int, isPublic: bool) {
    lastActivityAt.Some? && lastActivityAt.value < now - CleanupAfterDays * SecondsPerDay
    && participants == 0 && !isPublic
  }

  class ChatRoom {
    var kind: ChatRoomType
    var active: bool
    var isPublic: bool
    var archived: bool
    var maxParticipants: int
    var currentParticipants: int
    var participants: seq<Membership>
    var encrypted: bool
    var requireApproval: bool
    var messageRetentionDays: int
    var lastMessageAt: Option<Time>
    var lastActivityAt: Option<Time>

    /** The participant list holds each user once, and the count is its size. */
    ghost predicate Valid()
      reads this
    {
      DistinctUsers(participants) && currentParticipants == |participants|
    }

    /**
     * A new room as the builder and onCreate leave it: a capacity of 0
     * becomes 2 for a direct chat and 50 otherwise, messages are kept 90
     * days by default, and encryption and approval are switched off
     * whatever the builder set. The active and archived flags have no
     * default and keep what the builder gave.
     */
    constructor (roomType: ChatRoomType, capacity: int, retention: Option<int>, public: bool, isActive: bool, isArchived: bool)
      ensures Valid()
      ensures kind == roomType && participants == [] && isPublic == public
      ensures active == isActive && archived == isArchived
      ensures !encrypted && !requireApproval
      ensures maxParticipants == (if capacity == 0 then (if roomType == Direct then DirectMaxParticipants else GroupMaxParticipants) else capacity)
      ensures messageRetentionDays == (if retention.Some? then retention.value else DefaultRetentionDays)
      ensures lastMessageAt == None && lastActivityAt == None
    {
      kind := roomType;
      active := isActive;
      isPublic := public;
      archived := isArchived;
      maxParticipants := if capacity == 0 then (if roomType == Direct then DirectMaxParticipants else GroupMaxParticipants) else capacity;
      currentParticipants := 0;
      participants := [];
      encrypted := false;
      requireApproval := false;
      messageRetentionDays := if retention.Some? then retention.value else DefaultRetentionDays;
      lastMessageAt := None;
      lastActivityAt := None;
    }

    predicate IsFull()
      reads this
    {
      currentParticipants >= maxParticipants
    }

    /** addParticipant: refused when full or when the user is already a member; else appended with the role. */
    method AddParticipant(user: UserId, role: ChatParticipantRole, now: Time) returns (ok: bool)
      requires Valid()
      modifies this`participants, this`currentParticipants
      ensures Valid()
      ensures ok <==> !old(IsFull()) && !IsMember(old(participants), user)
      ensures ok ==> participants == old(participants) + [Membership(user, role, now)]
      ensures ok ==> RoleOf(participants, user) == Some(role)
      ensures !ok ==> unchanged(this)
    {
      if currentParticipants >= maxParticipants {
        return false;
      }
      if IndexOf(participants, user) >= 0 {
        return false;
      }
      var before := participants;
      participants := participants + [Membership(user, role, now)];
      currentParticipants := |participants|;
      assert forall j :: 0 <= j < |before| ==> participants[j] == before[j];
      assert !IsMember(before, user);
      IndexOfIsFirst(participants, user, |before|);
      return true;
    }

    /** removeParticipant: false for a non-member; else the membership is dropped. */
    method RemoveParticipant(user: UserId) returns (removed: bool)
      requires Valid()
      modifies this`participants, this`currentParticipants
      ensures Valid()
      ensures removed <==> IsMember(old(participants), user)
      ensures removed ==> !IsMember(participants, user)
      ensures removed ==> exists i :: 0 <= i < |old(participants)| && participants == old(participants)[..i] + old(participants)[i + 1..]
      ensures !removed ==> unchanged(this)
    {
      var i := IndexOf(participants, user);
      if i < 0 {
        return false;
      }
      var before := participants;
      participants := participants[..i] + participants[i + 1..];
      currentParticipants := |participants|;
      assert forall j :: 0 <= j < |participants| ==> participants[j] == if j < i then before[j] else before[j + 1];
      return true;
    }

    /** updateParticipantRole: false for a non-member; else only that member's role changes. */
    method UpdateParticipantRole(user: UserId, newRole: ChatParticipantRole) returns (ok: bool)
      requires Valid()
      modifies this`participants
      ensures Valid()
      ensures ok <==> IsMember(old(participants), user)
      ensures ok ==> RoleOf(participants, user) == Some(newRole)
      ensures ok ==> |participants| == |old(participants)|
                     && forall j :: 0 <= j < |participants| ==> participants[j].user == old(participants)[j].user
      ensures ok ==> forall j :: 0 <= j < |participants| && participants[j].user != user ==> participants[j] == old(participants)[j]
      ensures !ok ==> unchanged(this)
    {
      var i := IndexOf(participants, user);
      if i < 0 {
        return false;
      }
      participants := participants[i := participants[i].(role := newRole)];
      IndexOfIsFirst(participants, user, i);
      return true;
    }

    predicate IsParticipant(user: UserId)
      reads this
    {
      IsMember(participants, user)
    }

    /** archive: archived and inactive. */
    method Archive()
      modifies this`archived, this`active
      ensures archived && !active && !IsCurrentlyActive()
    {
      archived := true;
      active := false;
    }

    /** unarchive: active and not archived again. */
    method Unarchive()
      modifies this`archived, this`active
      ensures !archived && active && IsCurrentlyActive()
    {
      archived := false;
      active := true;
    }

    method UpdateLastMessageTime(now: Time)
      modifies this`lastMessageAt
      ensures lastMessageAt == Some(now)
    {
      lastMessageAt := Some(now);
    }

    /** isCurrentlyActive: active and not archived. */
    predicate IsCurrentlyActive()
      reads this
    {
      active && !archived
    }

    function GetHealthScore(now: Time): (r: int)
      reads this
      ensures 40 <= r <= 100
    {
      HealthScore(ActivityOf(lastMessageAt, now), currentParticipants, isPublic, encrypted)
    }
  }
}
