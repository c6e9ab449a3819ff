// The live-session screen's state: the participant list, the typing
// indicator and the connection and media flags, with the updates the
// session's actions and socket events apply to them.

module LiveSessionHookModel {
  import opened Common

  /** A tile on the screen; the stream is kept by its id. */
  datatype Participant = Participant(
    userId: string,
    userName: string,
    stream: Option<nat>,
    isLocal: bool,
    isMuted: bool,
    isVideoOff: bool)

  datatype SessionView = SessionView(
    participants: seq<Participant>,
    typingUsers: seq<string>,
    isConnected: bool,
    isAudioEnabled: bool,
    isVideoEnabled: bool,
    isScreenSharing: bool,
    peerRefs: set<string>)

  /** The state the hook starts in: nobody, not connected, audio and video on. */
  const Initial: SessionView := SessionView([], [], false, true, true, false, {})

  /** A JavaScript `value || fallback` on strings: the empty string and a missing one both fall back. */
  function OrElse(value: Option<string>, fallback: string): (r: string)
    ensures value.Some? && value.value != "" ==> r == value.value
    ensures value.None? || value.value == "" ==> r == fallback
  {
    if value.Some? && value.value != "" then value.value else fallback
  }

  // ---------------------------------------------------------------------
  // Actions

  /**
   * joinSession: with the camera stream, one local participant is appended
   * (the signed-in user, or "local"/"You") and the view is connected; when
   * the devices refuse, nothing changes.
   */
  function JoinSession(v: SessionView, userId: Option<string>, userName: Option<string>, stream: Option<nat>): (r: SessionView)
    ensures stream.None? ==> r == v
    ensures stream.Some? ==> r.isConnected && |r.participants| == |v.participants| + 1
                             && r.participants[..|v.participants|] == v.participants
                             && r.participants[|v.participants|] == Participant(OrElse(userId, "local"), OrElse(userName, "You"), stream, true, false, false)
                             && r.typingUsers == v.typingUsers
  {
    if stream.None? then v
    else v.(participants := v.participants + [Participant(OrElse(userId, "local"), OrElse(userName, "You"), stream, true, false, false)],
            isConnected := true)
  }

  /** leaveSession: no participants and not connected; the other flags keep their values. */
  function LeaveSession(v: SessionView): (r: SessionView)
    ensures r.participants == [] && !r.isConnected
    ensures r.isAudioEnabled == v.isAudioEnabled && r.isVideoEnabled == v.isVideoEnabled && r.isScreenSharing == v.isScreenSharing
    ensures r.typingUsers == v.typingUsers && r.peerRefs == v.peerRefs
  {
    v.(participants := [], isConnected := false)
  }

  /** The local tiles get the new muted flag; every other tile is kept as it is. */
  function MarkLocalMuted(ps: seq<Participant>, muted: bool): (r: seq<Participant>)
    ensures |r| == |ps|
    ensures forall i :: 0 <= i < |ps| ==> r[i] == (if ps[i].isLocal then ps[i].(isMuted := muted) else ps[i])
  {
    seq(|ps|, i requires 0 <= i < |ps| => if ps[i].isLocal then ps[i].(isMuted := muted) else ps[i])
  }

  function MarkLocalVideoOff(ps: seq<Participant>, off: bool): (r: seq<Participant>)
    ensures |r| == |ps|
    ensures forall i :: 0 <= i < |ps| ==> r[i] == (if ps[i].isLocal then ps[i].(isVideoOff := off) else ps[i])
  {
    seq(|ps|, i requires 0 <= i < |ps| => if ps[i].isLocal then ps[i].(isVideoOff := off) else ps[i])
  }

  /** toggleAudio: the flag flips and the local tiles show muted exactly when audio is now off. */
  function ToggleAudio(v: SessionView): (r: SessionView)
    ensures r.isAudioEnabled == !v.isAudioEnabled
    ensures |r.participants| == |v.participants|
    ensures forall i :: 0 <= i < |r.participants| && v.participants[i].isLocal ==> r.participants[i].isMuted == !r.isAudioEnabled
    ensures forall i :: 0 <= i < |r.participants| && !v.participants[i].isLocal ==> r.participants[i] == v.participants[i]
  {
    v.(isAudioEnabled := !v.isAudioEnabled, participants := MarkLocalMuted(v.participants, v.isAudioEnabled))
  }

  /** toggleVideo: the flag flips and the local tiles show video off exactly when video is now off. */
  function ToggleVideo(v: SessionView): (r: SessionView)
    ensures r.isVideoEnabled == !v.isVideoEnabled
    ensures |r.participants| == |v.participants|
    ensures forall i :: 0 <= i < |r.participants| && v.participants[i].isLocal ==> r.participants[i].isVideoOff == !r.isVideoEnabled
    ensures forall i :: 0 <= i < |r.participants| && !v.participants[i].isLocal ==> r.participants[i] == v.participants[i]
  {
    v.(isVideoEnabled := !v.isVideoEnabled, participants := MarkLocalVideoOff(v.participants, v.isVideoEnabled))
  }

  /** Toggling audio twice restores the audio flag; only the local tiles' muted marks are re-derived from it. */
  lemma ToggleAudioTwice(v: SessionView)
    ensures ToggleAudio(ToggleAudio(v)) == v.(participants := MarkLocalMuted(v.participants, !v.isAudioEnabled))
  {
    var twice := ToggleAudio(ToggleAudio(v)).participants;
    var once := MarkLocalMuted(v.participants, !v.isAudioEnabled);
    assert |twice| == |once|;
    forall i | 0 <= i < |twice|
      ensures twice[i] == once[i]
    {
    }
  }

  /**
   * toggleScreenShare: stopping always succeeds; starting switches the flag
   * on only when the screen could be shared.
   */
  function ToggleScreenShare(v: SessionView, startSucceeded: bool): (r: SessionView)
    ensures v.isScreenSharing ==> !r.isScreenSharing
    ensures !v.isScreenSharing ==> (r.isScreenSharing <==> startSucceeded)
    ensures r.participants == v.participants && r.isConnected == v.isConnected
  {
    if v.isScreenSharing then v.(isScreenSharing := false)
    else if startSucceeded then v.(isScreenSharing := true)
    else v
  }

  // ---------------------------------------------------------------------
  // Socket events

  /** The participants whose user id differs from the given one, in order. */
  function WithoutUser(ps: seq<Participant>, userId: string): (r: seq<Participant>)
    ensures forall i :: 0 <= i < |r| ==> r[i].userId != userId
    ensures forall p :: p in r <==> p in ps && p.userId != userId
    ensures |r| <= |ps|
    decreases |ps|
  {
    if ps == [] then []
    else
      var front := WithoutUser(ps[..|ps| - 1], userId);
      assert forall p :: p in ps <==> p in ps[..|ps| - 1] || p == ps[|ps| - 1];
      if ps[|ps| - 1].userId == userId then front else front + [ps[|ps| - 1]]
  }

  /** Filtering a user who has no tile keeps the list exactly as it is. */
  lemma {:induction false} WithoutAbsentUser(ps: seq<Participant>, userId: string)
    requires forall i :: 0 <= i < |ps| ==> ps[i].userId != userId
    ensures WithoutUser(ps, userId) == ps
    decreases |ps|
  {
    if ps != [] {
      WithoutAbsentUser(ps[..|ps| - 1], userId);
      assert ps[..|ps| - 1] + [ps[|ps| - 1]] == ps;
    }
  }

  /** A one-tile list keeps its tile exactly when it belongs to another user. */
  lemma WithoutUserSingle(p: Participant, userId: string)
    ensures WithoutUser([p], userId) == (if p.userId == userId then [] else [p])
  {
    assert [p][..0] == [];
  }

  /** The filter distributes over concatenation, so the kept tiles keep their relative order. */
  lemma {:induction false} WithoutUserConcat(a: seq<Participant>, b: seq<Participant>, userId: string)
    ensures WithoutUser(a + b, userId) == WithoutUser(a, userId) + WithoutUser(b, userId)
    decreases |b|
  {
    if b == [] {
      assert a + b == a;
    } else {
      var b' := b[..|b| - 1];
      assert (a + b)[..|a + b| - 1] == a + b';
      assert (a + b)[|a + b| - 1] == b[|b| - 1];
      WithoutUserConcat(a, b', userId);
    }
  }

  /** Filtering the same user twice changes nothing more. */
  lemma WithoutUserIdempotent(ps: seq<Participant>, userId: string)
    ensures WithoutUser(WithoutUser(ps, userId), userId) == WithoutUser(ps, userId)
  {
    WithoutAbsentUser(WithoutUser(ps, userId), userId);
  }

  /** participant-left: the user's peer is removed and every tile of that user disappears. */
  function ParticipantLeft(v: SessionView, userId: string): (r: SessionView)
    ensures forall i :: 0 <= i < |r.participants| ==> r.participants[i].userId != userId
    ensures forall p: Participant :: p.userId != userId ==> (p in r.participants <==> p in v.participants)
    ensures r.peerRefs == v.peerRefs - {userId}
  {
    v.(participants := WithoutUser(v.participants, userId), peerRefs := v.peerRefs - {userId})
  }

  /** A tile list split in two loses the user's tiles from each part, and the parts stay in order. */
  lemma ParticipantLeftSplit(v: SessionView, a: seq<Participant>, b: seq<Participant>, userId: string)
    requires v.participants == a + b
    ensures ParticipantLeft(v, userId).participants == WithoutUser(a, userId) + WithoutUser(b, userId)
  {
    WithoutUserConcat(a, b, userId);
  }

  /** A second participant-left event for the same user changes nothing. */
  lemma ParticipantLeftTwice(v: SessionView, userId: string)
    ensures ParticipantLeft(ParticipantLeft(v, userId), userId) == ParticipantLeft(v, userId)
  {
    WithoutUserIdempotent(v.participants, userId);
  }

  /** participant-joined, with the local stream: a peer is registered for the user. */
  function ParticipantJoined(v: SessionView, userId: string, hasLocalStream: bool): (r: SessionView)
    ensures hasLocalStream ==> r.peerRefs == v.peerRefs + {userId}
    ensures !hasLocalStream ==> r == v
    ensures r.participants == v.participants
  {
    if hasLocalStream then v.(peerRefs := v.peerRefs + {userId}) else v
  }

  /** The stream of a peer the local side created: its tile is appended, whether or not the user has one already. */
  function JoinedStream(ps: seq<Participant>, userId: string, userName: string, stream: nat): (r: seq<Participant>)
    ensures r == ps + [Participant(userId, userName, Some(stream), false, false, false)]
  {
    ps + [Participant(userId, userName, Some(stream), false, false, false)]
  }

  /**
   * A WebRTC offer signal: with the local stream, the answering peer is
   * registered for the user, as on a join; without it the offer is ignored.
   */
  function OfferReceived(v: SessionView, userId: string, hasLocalStream: bool): (r: SessionView)
    ensures hasLocalStream ==> r.peerRefs == v.peerRefs + {userId}
    ensures !hasLocalStream ==> r == v
    ensures r.participants == v.participants
  {
    ParticipantJoined(v, userId, hasLocalStream)
  }

  /** A user who sent an offer and then left has no peer reference any more. */
  lemma OfferThenLeftDropsPeer(v: SessionView, userId: string)
    ensures ParticipantLeft(OfferReceived(v, userId, true), userId).peerRefs == v.peerRefs - {userId}
  {
  }

  predicate HasUser(ps: seq<Participant>, userId: string) {
    exists i :: 0 <= i < |ps| && ps[i].userId == userId
  }

  /**
   * The stream of a peer answering an offer: every tile of that user gets
   * it when there is one; otherwise one tile is appended, named "Unknown"
   * without a name.
   */
  function OfferStream(ps: seq<Participant>, userId: string, userName: Option<string>, stream: nat): (r: seq<Participant>)
    ensures HasUser(ps, userId) ==> |r| == |ps|
    ensures HasUser(ps, userId) ==> forall i :: 0 <= i < |ps| ==> r[i] == (if ps[i].userId == userId then ps[i].(stream := Some(stream)) else ps[i])
    ensures !HasUser(ps, userId) ==> r == ps + [Participant(userId, OrElse(userName, "Unknown"), Some(stream), false, false, false)]
  {
    if HasUser(ps, userId) then
      seq(|ps|, i requires 0 <= i < |ps| => if ps[i].userId == userId then ps[i].(stream := Some(stream)) else ps[i])
    else ps + [Participant(userId, OrElse(userName, "Unknown"), Some(stream), false, false, false)]
  }

  /** After an offer's stream the user has a tile showing it, and no one else's tile changed or appeared. */
  lemma OfferStreamShowsUser(ps: seq<Participant>, userId: string, userName: Option<string>, stream: nat)
    ensures exists i :: 0 <= i < |OfferStream(ps, userId, userName, stream)|
                        && OfferStream(ps, userId, userName, stream)[i].userId == userId
                        && OfferStream(ps, userId, userName, stream)[i].stream == Some(stream)
    ensures forall p: Participant :: p.userId != userId ==> (p in OfferStream(ps, userId, userName, stream) <==> p in ps)
  {
    var r := OfferStream(ps, userId, userName, stream);
    if HasUser(ps, userId) {
      var i :| 0 <= i < |ps| && ps[i].userId == userId;
      assert r[i].userId == userId && r[i].stream == Some(stream);
      forall p: Participant | p.userId != userId
        ensures p in r <==> p in ps
      {
        if p in ps {
          var j :| 0 <= j < |ps| && ps[j] == p;
          assert r[j] == p;
        }
        if p in r {
          var j :| 0 <= j < |r| && r[j] == p;
          assert ps[j] == p;
        }
      }
    } else {
      assert r[|ps|].userId == userId;
    }
  }

  /** A second answer stream for the same user does not add a second tile. */
  lemma OfferStreamAddsAtMostOne(ps: seq<Participant>, userId: string, userName: Option<string>, s1: nat, s2: nat)
    ensures |OfferStream(OfferStream(ps, userId, userName, s1), userId, userName, s2)| <= |ps| + 1
  {
    var once := OfferStream(ps, userId, userName, s1);
    OfferStreamShowsUser(ps, userId, userName, s1);
    var i :| 0 <= i < |once| && once[i].userId == userId;
    assert HasUser(once, userId);
  }

  // ---------------------------------------------------------------------
  // Typing indicator

  /** `[...new Set(names)]`: the names in the order of their first occurrence. */
  function Distinct(names: seq<string>): (r: seq<string>)
    ensures NoDuplicates(r)
    ensures forall n :: n in r <==> n in names
    decreases |names|
  {
    if names == [] then []
    else
      var front := Distinct(names[..|names| - 1]);
      var last := names[|names| - 1];
      assert forall n :: n in names <==> n in names[..|names| - 1] || n == last;
      if last in front then front else front + [last]
  }

  /** The names other than the given one, in order. */
  function WithoutName(names: seq<string>, name: string): (r: seq<string>)
    ensures forall n :: n in r <==> n in names && n != name
    decreases |names|
  {
    if names == [] then []
    else
      var front := WithoutName(names[..|names| - 1], name);
      assert forall n :: n in names <==> n in names[..|names| - 1] || n == names[|names| - 1];
      if names[|names| - 1] == name then front else front + [names[|names| - 1]]
  }

  /** Filtering a list without duplicates keeps it without duplicates. */
  lemma {:induction false} WithoutNameKeepsDistinct(names: seq<string>, name: string)
    requires NoDuplicates(names)
    ensures NoDuplicates(WithoutName(names, name))
    decreases |names|
  {
    if names != [] {
      var n := |names| - 1;
      assert NoDuplicates(names[..n]);
      WithoutNameKeepsDistinct(names[..n], name);
      assert names[n] !in names[..n];
    }
  }

  /** typing: a typing user is added once, a user who stopped is removed. */
  function Typing(typingUsers: seq<string>, userName: string, isTyping: bool): (r: seq<string>)
    ensures isTyping ==> forall n :: n in r <==> n in typingUsers || n == userName
    ensures !isTyping ==> forall n :: n in r <==> n in typingUsers && n != userName
  {
    assert forall n :: n in typingUsers + [userName] <==> n in typingUsers || n == userName;
    if isTyping then Distinct(typingUsers + [userName]) else WithoutName(typingUsers, userName)
  }

  /** Typing events keep the typing list free of duplicates. */
  lemma TypingKeepsDistinct(typingUsers: seq<string>, userName: string, isTyping: bool)
    requires NoDuplicates(typingUsers)
    ensures NoDuplicates(Typing(typingUsers, userName, isTyping))
  {
    if !isTyping {
      WithoutNameKeepsDistinct(typingUsers, userName);
    }
  }

  datatype TypingEvent = TypingEvent(userName: string, isTyping: bool)

  function ApplyTyping(typingUsers: seq<string>, events: seq<TypingEvent>): seq<string>
    decreases |events|
  {
    if events == [] then typingUsers
    else ApplyTyping(Typing(typingUsers, events[0].userName, events[0].isTyping), events[1..])
  }

  /** From a list without duplicates, any run of typing events leaves no name twice. */
  lemma {:induction false} TypingRunHasNoDuplicates(typingUsers: seq<string>, events: seq<TypingEvent>)
    requires NoDuplicates(typingUsers)
    ensures NoDuplicates(ApplyTyping(typingUsers, events))
    decreases |events|
  {
    if events != [] {
      TypingKeepsDistinct(typingUsers, events[0].userName, events[0].isTyping);
      TypingRunHasNoDuplicates(Typing(typingUsers, events[0].userName, events[0].isTyping), events[1..]);
    }
  }
}
