// The browser-side WebRTC service: the cached camera stream, the screen
// stream, and the peer connections by user id.

module WebRtcModel {
  import opened Common

  /** A media track; `enabled` is the flag the toggles set. */
  datatype Track = Track(id: nat, enabled: bool)

  datatype MediaStream = MediaStream(id: nat, audio: seq<Track>, video: seq<Track>)

  /**
   * One peer connection. The peer library itself is not part of this model;
   * only what the service does to it is kept: the peer instance's id, the
   * signals passed to it, and the track its video sender sends, if it has one.
   */
  datatype PeerConnection = PeerConnection(userId: string, peerId: nat, signals: seq<string>, videoSender: Option<nat>, stream: MediaStream)

  /** A peer with a video sender switches it to the given track; one without stays as it is. */
  function WithVideoTrack(p: PeerConnection, track: nat): (q: PeerConnection)
    ensures p.videoSender.Some? ==> q == p.(videoSender := Some(track))
    ensures p.videoSender.None? ==> q == p
  {
    if p.videoSender.Some? then p.(videoSender := Some(track)) else p
  }

  /** The forEach over all peers replacing the video track. */
  function ReplaceVideoTrack(peers: map<string, PeerConnection>, track: nat): (r: map<string, PeerConnection>)
    ensures r.Keys == peers.Keys
    ensures forall k :: k in peers ==> r[k] == WithVideoTrack(peers[k], track)
  {
    map k | k in peers :: WithVideoTrack(peers[k], track)
  }

  /** Every track of the stream with its enabled flag set to the given value. */
  function Enabled(tracks: seq<Track>, enabled: bool): (r: seq<Track>)
    ensures |r| == |tracks|
    ensures forall i :: 0 <= i < |r| ==> r[i] == tracks[i].(enabled := enabled)
  {
    seq(|tracks|, i requires 0 <= i < |tracks| => tracks[i].(enabled := enabled))
  }

  function TrackIds(tracks: seq<Track>): set<nat> {
    set i | 0 <= i < |tracks| :: tracks[i].id
  }

  function StreamTrackIds(s: MediaStream): set<nat> {
    TrackIds(s.audio) + TrackIds(s.video)
  }

  /** The track ids a stream's tracks keep when they are toggled: toggling changes no track's identity. */
  lemma EnabledKeepsIds(tracks: seq<Track>, enabled: bool)
    ensures TrackIds(Enabled(tracks, enabled)) == TrackIds(tracks)
  {
    var r := Enabled(tracks, enabled);
    forall id | id in TrackIds(tracks)
      ensures id in TrackIds(r)
    {
      var i :| 0 <= i < |tracks| && tracks[i].id == id;
      assert r[i].id == id;
    }
  }

  class WebRtcService {
    var localStream: Option<MediaStream>
    var screenStream: Option<MediaStream>
    var peers: map<string, PeerConnection>
    /** The ids of the tracks stopped so far. */
    var stoppedTracks: set<nat>
    /** The peer instances destroyed so far. */
    var destroyedPeers: set<nat>
    /** The id the next peer instance gets. */
    var nextPeerId: nat

    constructor ()
      ensures localStream.None? && screenStream.None? && peers == map[]
      ensures stoppedTracks == {} && destroyedPeers == {} && nextPeerId == 0
    {
      localStream := None;
      screenStream := None;
      peers := map[];
      stoppedTracks := {};
      destroyedPeers := {};
      nextPeerId := 0;
    }

    /** The peers' keys are their user ids. */
    ghost predicate Valid()
      reads this
    {
      forall k :: k in peers ==> peers[k].userId == k
    }

    /**
     * getLocalStream: the cached stream when there is one, whatever the
     * device would give; otherwise the device's stream, which is then cached,
     * or the error when the devices refuse.
     */
    method GetLocalStream(device: Outcome<MediaStream>) returns (r: Outcome<MediaStream>)
      modifies this`localStream
      ensures old(localStream).Some? ==> r == Ok(old(localStream).value) && localStream == old(localStream)
      ensures old(localStream).None? && device.Ok? ==> r == device && localStream == Some(device.value)
      ensures old(localStream).None? && device.Fail? ==> r == Fail("Failed to access camera/microphone") && localStream.None?
    {
      if localStream.Some? {
        return Ok(localStream.value);
      }
      if device.Fail? {
        return Fail("Failed to access camera/microphone");
      }
      localStream := Some(device.value);
      return Ok(device.value);
    }

    /** createPeer: a new peer instance registered under the user id, replacing any earlier one without destroying it. */
    method CreatePeer(userId: string, stream: MediaStream) returns (peerId: nat)
      requires Valid()
      modifies this`peers, this`nextPeerId
      ensures Valid()
      ensures peerId == old(nextPeerId) && nextPeerId == old(nextPeerId) + 1
      ensures peers == old(peers)[userId := PeerConnection(userId, peerId, [], if |stream.video| > 0 then Some(stream.video[0].id) else None, stream)]
    {
      peerId := nextPeerId;
      var sender := if |stream.video| > 0 then Some(stream.video[0].id) else None;
      peers := peers[userId := PeerConnection(userId, peerId, [], sender, stream)];
      nextPeerId := nextPeerId + 1;
    }

    /** handleSignal: passes the signal to the user's peer when there is one, and does nothing otherwise. */
    method HandleSignal(userId: string, signal: string)
      requires Valid()
      modifies this`peers
      ensures Valid()
      ensures userId !in old(peers) ==> peers == old(peers)
      ensures userId in old(peers) ==> peers == old(peers)[userId := old(peers)[userId].(signals := old(peers)[userId].signals + [signal])]
    {
      if userId in peers {
        var pc := peers[userId];
        peers := peers[userId := pc.(signals := pc.signals + [signal])];
      }
    }

    /** removePeer: destroys the user's peer and removes it; the other peers are untouched. */
    method RemovePeer(userId: string)
      requires Valid()
      modifies this`peers, this`destroyedPeers
      ensures Valid()
      ensures userId !in old(peers) ==> peers == old(peers) && destroyedPeers == old(destroyedPeers)
      ensures userId in old(peers) ==> destroyedPeers == old(destroyedPeers) + {old(peers)[userId].peerId}
      ensures peers == old(peers) - {userId}
    {
      if userId in peers {
        destroyedPeers := destroyedPeers + {peers[userId].peerId};
        peers := peers - {userId};
      }
    }

    function GetPeer(userId: string): (r: Option<PeerConnection>)
      reads this
      ensures r.Some? <==> userId in peers
      ensures r.Some? ==> r.value == peers[userId]
    {
      if userId in peers then Some(peers[userId]) else None
    }

    /** The forEach over the peers that switches each video sender to the track. */
    method ReplaceVideoTrackOnAll(track: nat)
      modifies this`peers
      ensures peers == ReplaceVideoTrack(old(peers), track)
    {
      ghost var original := peers;
      var remaining := peers.Keys;
      while remaining != {}
        invariant remaining <= original.Keys && peers.Keys == original.Keys
        invariant forall k :: k in original && k !in remaining ==> peers[k] == WithVideoTrack(original[k], track)
        invariant forall k :: k in remaining ==> peers[k] == original[k]
        decreases remaining
      {
        var k :| k in remaining;
        peers := peers[k := WithVideoTrack(peers[k], track)];
        remaining := remaining - {k};
      }
      assert peers == ReplaceVideoTrack(original, track);
    }

    /** toggleAudio: every audio track of the local stream gets the flag; nothing happens without a local stream. */
    method ToggleAudio(enabled: bool)
      modifies this`localStream
      ensures old(localStream).None? ==> localStream.None?
      ensures old(localStream).Some? ==> localStream == Some(old(localStream).value.(audio := Enabled(old(localStream).value.audio, enabled)))
    {
      if localStream.Some? {
        var s := localStream.value;
        var tracks := s.audio;
        var i := 0;
        while i < |tracks|
          invariant 0 <= i <= |tracks| && |tracks| == |s.audio|
          invariant forall j :: 0 <= j < i ==> tracks[j] == s.audio[j].(enabled := enabled)
          invariant forall j :: i <= j < |tracks| ==> tracks[j] == s.audio[j]
        {
          tracks := tracks[i := tracks[i].(enabled := enabled)];
          i := i + 1;
        }
        assert tracks == Enabled(s.audio, enabled);
        localStream := Some(s.(audio := tracks));
      }
    }

    /** toggleVideo: every video track of the local stream gets the flag. */
    method ToggleVideo(enabled: bool)
      modifies this`localStream
      ensures old(localStream).None? ==> localStream.None?
      ensures old(localStream).Some? ==> localStream == Some(old(localStream).value.(video := Enabled(old(localStream).value.video, enabled)))
    {
      if localStream.Some? {
        var s := localStream.value;
        var tracks := s.video;
        var i := 0;
        while i < |tracks|
          invariant 0 <= i <= |tracks| && |tracks| == |s.video|
          invariant forall j :: 0 <= j < i ==> tracks[j] == s.video[j].(enabled := enabled)
          invariant forall j :: i <= j < |tracks| ==> tracks[j] == s.video[j]
        {
          tracks := tracks[i := tracks[i].(enabled := enabled)];
          i := i + 1;
        }
        assert tracks == Enabled(s.video, enabled);
        localStream := Some(s.(video := tracks));
      }
    }

    /** isAudioEnabled: the first audio track's flag, false without one. */
    function IsAudioEnabled(): (r: bool)
      reads this
      ensures r ==> localStream.Some? && |localStream.value.audio| > 0
    {
      localStream.Some? && |localStream.value.audio| > 0 && localStream.value.audio[0].enabled
    }

    function IsVideoEnabled(): (r: bool)
      reads this
      ensures r ==> localStream.Some? && |localStream.value.video| > 0
    {
      localStream.Some? && |localStream.value.video| > 0 && localStream.value.video[0].enabled
    }

    /** isScreenSharing: exactly when a screen stream is held. */
    function IsScreenSharing(): (r: bool)
      reads this
      ensures r <==> screenStream.Some?
    {
      screenStream.Some?
    }

    /**
     * startScreenSharing: the display's stream becomes the screen stream and
     * its first video track replaces the video track of every peer that
     * sends video. A stream without a video track is kept but reported as a
     * failure, because attaching the end-of-sharing handler fails first.
     */
    method StartScreenSharing(display: Outcome<MediaStream>) returns (r: Outcome<MediaStream>)
      modifies this`screenStream, this`peers
      ensures display.Fail? ==> r == Fail("Failed to access screen") && screenStream == old(screenStream) && peers == old(peers)
      ensures display.Ok? ==> screenStream == Some(display.value)
      ensures display.Ok? && |display.value.video| == 0 ==> r == Fail("Failed to access screen") && peers == old(peers)
      ensures display.Ok? && |display.value.video| > 0 ==> r == display && peers == ReplaceVideoTrack(old(peers), display.value.video[0].id)
    {
      if display.Fail? {
        return Fail("Failed to access screen");
      }
      screenStream := Some(display.value);
      var s := display.value;
      if |s.video| == 0 {
        return Fail("Failed to access screen");
      }
      ReplaceVideoTrackOnAll(s.video[0].id);
      return Ok(s);
    }

    /**
     * stopScreenSharing: stops the screen stream's tracks and drops it; when
     * a local stream with a camera track is held, the peers' video senders
     * go back to that track.
     */
    method StopScreenSharing()
      modifies this`screenStream, this`peers, this`stoppedTracks
      ensures !IsScreenSharing() && screenStream.None?
      ensures old(screenStream).None? ==> peers == old(peers) && stoppedTracks == old(stoppedTracks)
      ensures old(screenStream).Some? ==> stoppedTracks == old(stoppedTracks) + StreamTrackIds(old(screenStream).value)
      ensures old(screenStream).Some? && localStream.Some? && |localStream.value.video| > 0 ==>
                peers == ReplaceVideoTrack(old(peers), localStream.value.video[0].id)
      ensures !(old(screenStream).Some? && localStream.Some? && |localStream.value.video| > 0) ==> peers == old(peers)
    {
      if screenStream.Some? {
        stoppedTracks := stoppedTracks + StreamTrackIds(screenStream.value);
        screenStream := None;
        if localStream.Some? && |localStream.value.video| > 0 {
          ReplaceVideoTrackOnAll(localStream.value.video[0].id);
        }
      }
    }

    /** stopLocalStream: stops the camera stream's tracks and drops it. */
    method StopLocalStream()
      modifies this`localStream, this`stoppedTracks
      ensures localStream.None?
      ensures old(localStream).None? ==> stoppedTracks == old(stoppedTracks)
      ensures old(localStream).Some? ==> stoppedTracks == old(stoppedTracks) + StreamTrackIds(old(localStream).value)
    {
      if localStream.Some? {
        stoppedTracks := stoppedTracks + StreamTrackIds(localStream.value);
        localStream := None;
      }
    }

    /**
     * cleanup: both streams stopped and dropped, every peer destroyed and
     * the peer map emptied. The local stream goes first, so no camera track
     * is restored on the peers on the way.
     */
    method Cleanup()
      modifies this`localStream, this`screenStream, this`peers, this`stoppedTracks, this`destroyedPeers
      ensures localStream.None? && screenStream.None? && peers == map[]
      ensures destroyedPeers == old(destroyedPeers) + set k | k in old(peers) :: old(peers)[k].peerId
      ensures stoppedTracks == old(stoppedTracks)
                               + (if old(localStream).Some? then StreamTrackIds(old(localStream).value) else {})
                               + (if old(screenStream).Some? then StreamTrackIds(old(screenStream).value) else {})
    {
      StopLocalStream();
      StopScreenSharing();
      destroyedPeers := destroyedPeers + set k | k in peers :: peers[k].peerId;
      peers := map[];
    }
  }

  /** After a toggle with a local stream that has an audio track, isAudioEnabled reports the new flag. */
  method ToggleThenQuery(s: WebRtcService, enabled: bool) returns (reported: bool)
    requires s.localStream.Some? && |s.localStream.value.audio| > 0
    modifies s
    ensures reported == enabled
  {
    s.ToggleAudio(enabled);
    reported := s.IsAudioEnabled();
  }

  /** After a toggle with a local stream that has a video track, isVideoEnabled reports the new flag. */
  method ToggleVideoThenQuery(s: WebRtcService, enabled: bool) returns (reported: bool)
    requires s.localStream.Some? && |s.localStream.value.video| > 0
    modifies s
    ensures reported == enabled
  {
    s.ToggleVideo(enabled);
    reported := s.IsVideoEnabled();
  }

  /** Stopping the screen share ends it, whatever state it was in. */
  method StopEndsSharing(s: WebRtcService) returns (sharing: bool)
    modifies s
    ensures !sharing
  {
    s.StopScreenSharing();
    sharing := s.IsScreenSharing();
  }
}
