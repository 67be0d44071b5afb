/** The offer/answer rules of a peer connection, as the signalling-state
    machine of W3C WebRTC 1.0 (`RTCSignalingState`, section 4.3.1) and the
    offer/answer model of RFC 3264 describe them.  Only the four states the
    video chat can reach are kept; provisional answers are never used. */
module SignalingStates {
  import opened Wrappers

  datatype SignalingState = Stable | HaveLocalOffer | HaveRemoteOffer | Closed

  datatype SdpType = Offer | Answer

  /** `setLocalDescription`: an offer from `stable` (or a new offer in
      `have-local-offer`) leads to `have-local-offer`; an answer to a remote
      offer returns to `stable`; anything else is rejected. */
  function SetLocal(s: SignalingState, t: SdpType): (r: Option<SignalingState>)
    ensures s == Closed ==> r.None?
    ensures t == Offer ==> (r.Some? <==> s in {Stable, HaveLocalOffer}) && (r.Some? ==> r.value == HaveLocalOffer)
    ensures t == Answer ==> (r.Some? <==> s == HaveRemoteOffer) && (r.Some? ==> r.value == Stable)
  {
    match (s, t)
    case (Stable, Offer) => Some(HaveLocalOffer)
    case (HaveLocalOffer, Offer) => Some(HaveLocalOffer)
    case (HaveRemoteOffer, Answer) => Some(Stable)
    case _ => None
  }

  /** `setRemoteDescription`: a remote offer is accepted in every open
      state and leads to `have-remote-offer` (from `have-local-offer` by the
      implicit rollback of the local offer); a remote answer is accepted
      only in `have-local-offer` and returns to `stable`. */
  function SetRemote(s: SignalingState, t: SdpType): (r: Option<SignalingState>)
    ensures s == Closed ==> r.None?
    ensures t == Offer ==> (r.Some? <==> s != Closed) && (r.Some? ==> r.value == HaveRemoteOffer)
    ensures t == Answer ==> (r.Some? <==> s == HaveLocalOffer) && (r.Some? ==> r.value == Stable)
  {
    match (s, t)
    case (Closed, _) => None
    case (_, Offer) => Some(HaveRemoteOffer)
    case (HaveLocalOffer, Answer) => Some(Stable)
    case _ => None
  }

  /** Both halves of an exchange lead back to `stable`, whichever side offers. */
  lemma ExchangeReturnsToStable()
    ensures SetLocal(Stable, Offer).Some? && SetRemote(SetLocal(Stable, Offer).value, Answer) == Some(Stable)
    ensures SetRemote(Stable, Offer).Some? && SetLocal(SetRemote(Stable, Offer).value, Answer) == Some(Stable)
  {
  }

  /** An answer is only ever applied after an offer: from `stable`, neither
      description setter accepts an answer. */
  lemma NoAnswerFromStable()
    ensures SetLocal(Stable, Answer).None? && SetRemote(Stable, Answer).None?
  {
  }

  /** String order by code points, as used to pick a role. */
  predicate LexLess(a: string, b: string)
    decreases |a|
  {
    if |b| == 0 then false
    else if |a| == 0 then true
    else if a[0] != b[0] then a[0] < b[0]
    else LexLess(a[1..], b[1..])
  }

  lemma {:induction false} LexLessIrreflexive(a: string)
    ensures !LexLess(a, a)
    decreases |a|
  {
    if |a| > 0 {
      LexLessIrreflexive(a[1..]);
    }
  }

  lemma {:induction false} LexLessAsymmetric(a: string, b: string)
    ensures LexLess(a, b) ==> !LexLess(b, a)
    decreases |a|
  {
    if |a| > 0 && |b| > 0 && a[0] == b[0] {
      LexLessAsymmetric(a[1..], b[1..]);
    }
  }

  lemma {:induction false} LexLessTotal(a: string, b: string)
    requires a != b
    ensures LexLess(a, b) || LexLess(b, a)
    decreases |a|
  {
    if |a| > 0 && |b| > 0 && a[0] == b[0] {
      assert a == [a[0]] + a[1..] && b == [b[0]] + b[1..];
      LexLessTotal(a[1..], b[1..]);
    }
  }
}

/** `useWebRTC`: one participant's side of the video call.

    The engine keeps the refs and state of the hook: the init guard, the
    role, the phase of the start-up sequence, the peer connection (its
    signalling state, descriptions and added remote candidates), the
    signalling socket's ready state, the local tracks and what was added to
    the connection, the two toggle flags, a pending initial-offer timer,
    the messages sent on the signalling socket, and the order in which
    cleanup stopped and closed things.  Media, SDP text and ICE candidates
    are opaque strings; awaited steps and timers are separate methods. */
module PeerNegotiation {
  import opened Wrappers
  import opened SignalingStates
  import MatchingSocket

  type ReadyState = MatchingSocket.ReadyState

  datatype Description = Description(kind: SdpType, sdp: string)

  /** The part of `RTCPeerConnection` the handler reads and changes. */
  datatype PeerState = PeerState(
    signaling: SignalingState,
    local: Option<Description>,
    remote: Option<Description>,
    candidates: seq<string>)

  /** A signalling message from the other peer, after parsing. */
  datatype SignalingIn =
    | OfferIn(offer: string)
    | AnswerIn(answer: string)
    | CandidateIn(candidate: string)
    | OtherIn

  /** A message this peer writes on the signalling socket. */
  datatype SignalingOut =
    | OfferOut(offer: string)
    | AnswerOut(answer: string)
    | CandidateOut(candidate: string)

  /** One handled message: the new peer state and what to send, if anything. */
  datatype Step = Step(peer: PeerState, reply: Option<SignalingOut>)

  datatype TrackKind = Video | Audio

  datatype Track = Track(kind: TrackKind, enabled: bool, stopped: bool)

  /** How far the start-up sequence has come. */
  datatype Phase = NotStarted | AwaitingMedia | AwaitingReadyDelay | AwaitingSignaling | Started | Failed

  /** What cleanup does, in order. */
  datatype Effect = StopTrack(index: nat) | ClosePeer | CloseSignaling

  const InitialPeer: PeerState := PeerState(Stable, None, None, [])

  /** The role: polite exactly when the user id sorts before the session id;
      a user id equal to the session id is impolite, and of two different
      ids the peer is impolite exactly when the session id sorts first. */
  predicate IsPolite(userId: string, sessionId: string): (r: bool)
    ensures r ==> userId != sessionId
    ensures userId != sessionId ==> (r <==> !LexLess(sessionId, userId))
  {
    LexLessIrreflexive(userId);
    LexLessAsymmetric(userId, sessionId);
    if userId == sessionId then LexLess(userId, sessionId)
    else
      LexLessTotal(userId, sessionId);
      LexLess(userId, sessionId)
  }

  /** Both participants compare their own id with the same session id, so
      both can be polite at once -- and then neither sends the first offer. */
  lemma BothPeersCanBePolite()
    ensures IsPolite("alice", "s1") && IsPolite("bob", "s1")
  {
    assert "alice"[0] == 'a' && "s1"[0] == 's';
    assert "bob"[0] == 'b';
  }

  /** Comparing each user id with the other's would give complementary roles. */
  lemma PeerComparisonIsComplementary(a: string, b: string)
    requires a != b
    ensures IsPolite(a, b) != IsPolite(b, a)
  {
    LexLessTotal(a, b);
    LexLessAsymmetric(a, b);
  }

  /** `handleSignalingMessage` on an existing connection.
      - An offer while not `stable` is ignored by the impolite peer.  Any
        other offer sets the remote description, then the local answer, and
        replies with exactly that answer; on a closed connection the first
        step throws and nothing changes.
      - An answer is applied only in `have-local-offer`.
      - A candidate is added only once a remote description exists and the
        connection is open; otherwise it is dropped, not queued.
      - Nothing else has any effect. */
  function Negotiate(p: PeerState, msg: SignalingIn, polite: bool, answer: string): (r: Step)
    ensures r.reply.Some? ==> msg.OfferIn? && r.reply.value == AnswerOut(answer)
    ensures r.peer.candidates == p.candidates || (msg.CandidateIn? && r.peer.candidates == p.candidates + [msg.candidate])
    ensures msg.OfferIn? && !polite && p.signaling != Stable ==> r == Step(p, None)
    ensures msg.OfferIn? && (polite || p.signaling == Stable) && p.signaling != Closed ==>
      r == Step(p.(signaling := Stable, remote := Some(Description(Offer, msg.offer)), local := Some(Description(Answer, answer))),
                Some(AnswerOut(answer)))
    ensures msg.OfferIn? && p.signaling == Closed ==> r == Step(p, None)
    ensures msg.AnswerIn? && p.signaling == HaveLocalOffer ==>
      r == Step(p.(signaling := Stable, remote := Some(Description(Answer, msg.answer))), None)
    ensures msg.AnswerIn? && p.signaling != HaveLocalOffer ==> r == Step(p, None)
    ensures msg.CandidateIn? ==> r.reply.None?
    ensures msg.CandidateIn? && p.remote.Some? && p.signaling != Closed ==>
      r.peer == p.(candidates := p.candidates + [msg.candidate])
    ensures msg.CandidateIn? && (p.remote.None? || p.signaling == Closed) ==> r.peer == p
    ensures msg.OtherIn? ==> r == Step(p, None)
  {
    match msg
    case OfferIn(offer) =>
      if p.signaling != Stable && !polite then Step(p, None)
      else
        (match SetRemote(p.signaling, Offer)
         case None => Step(p, None)
         case Some(s1) =>
           (match SetLocal(s1, Answer)
            case None => Step(p, None)
            case Some(s2) =>
              Step(p.(signaling := s2, remote := Some(Description(Offer, offer)), local := Some(Description(Answer, answer))),
                   Some(AnswerOut(answer)))))
    case AnswerIn(ans) =>
      if p.signaling == HaveLocalOffer then
        (match SetRemote(p.signaling, Answer)
         case None => Step(p, None)
         case Some(s1) => Step(p.(signaling := s1, remote := Some(Description(Answer, ans))), None))
      else Step(p, None)
    case CandidateIn(c) =>
      if p.remote.Some? && p.signaling != Closed then Step(p.(candidates := p.candidates + [c]), None)
      else Step(p, None)
    case OtherIn => Step(p, None)
  }

  /** An offer the polite peer accepts always leaves the connection
      `stable` with a remote offer and a local answer, whatever state the
      collision left it in. */
  lemma {:induction false} PoliteOfferSettles(p: PeerState, offer: string, answer: string)
    requires p.signaling != Closed
    ensures Negotiate(p, OfferIn(offer), true, answer).peer.signaling == Stable
    ensures Negotiate(p, OfferIn(offer), true, answer).reply == Some(AnswerOut(answer))
  {
  }

  /** `createOffer`: the offer becomes the local description when the state
      allows it, and is then sent; otherwise the error is caught and
      nothing changes. */
  function OfferStep(p: PeerState, offer: string): (r: Step)
    ensures p.signaling in {Stable, HaveLocalOffer} ==>
      r == Step(p.(signaling := HaveLocalOffer, local := Some(Description(Offer, offer))), Some(OfferOut(offer)))
    ensures p.signaling !in {Stable, HaveLocalOffer} ==> r == Step(p, None)
  {
    match SetLocal(p.signaling, Offer)
    case None => Step(p, None)
    case Some(s) => Step(p.(signaling := s, local := Some(Description(Offer, offer))), Some(OfferOut(offer)))
  }

  /** `sendSignalingMessage`: written only while the socket is open. */
  function Post(outbox: seq<SignalingOut>, ws: Option<ReadyState>, m: SignalingOut): (r: seq<SignalingOut>)
    ensures ws == Some(MatchingSocket.Open) ==> r == outbox + [m]
    ensures ws != Some(MatchingSocket.Open) ==> r == outbox
  {
    if ws == Some(MatchingSocket.Open) then outbox + [m] else outbox
  }

  /** `getVideoTracks()[0]` / `getAudioTracks()[0]`: the first track of a kind. */
  function FirstOfKind(tracks: seq<Track>, kind: TrackKind): (r: Option<nat>)
    ensures r.Some? ==> r.value < |tracks| && tracks[r.value].kind == kind
    ensures r.Some? ==> forall k :: 0 <= k < r.value ==> tracks[k].kind != kind
    ensures r.None? <==> forall k :: 0 <= k < |tracks| ==> tracks[k].kind != kind
  {
    if |tracks| == 0 then None
    else if tracks[0].kind == kind then Some(0)
    else match FirstOfKind(tracks[1..], kind)
      case None => None
      case Some(i) => Some(i + 1)
  }

  /** The toggle: the first track of the kind changes `enabled`; every other
      track, and every other attribute, stays as it was. */
  function ToggleFirst(tracks: seq<Track>, kind: TrackKind): (r: seq<Track>)
    ensures |r| == |tracks|
    ensures forall k :: 0 <= k < |r| ==> r[k].kind == tracks[k].kind && r[k].stopped == tracks[k].stopped
    ensures forall k :: 0 <= k < |r| && Some(k) != FirstOfKind(tracks, kind) ==> r[k] == tracks[k]
    ensures FirstOfKind(tracks, kind).Some? ==>
      r[FirstOfKind(tracks, kind).value].enabled == !tracks[FirstOfKind(tracks, kind).value].enabled
  {
    match FirstOfKind(tracks, kind)
    case None => tracks
    case Some(i) => tracks[i := tracks[i].(enabled := !tracks[i].enabled)]
  }

  /** Kinds are unchanged by a toggle, so the same track is found again. */
  lemma {:induction false} ToggleKeepsFirst(tracks: seq<Track>, kind: TrackKind)
    ensures FirstOfKind(ToggleFirst(tracks, kind), kind) == FirstOfKind(tracks, kind)
  {
    var t := ToggleFirst(tracks, kind);
    forall k | 0 <= k < |t|
      ensures t[k].kind == tracks[k].kind
    {
    }
  }

  /** Toggling twice restores every track. */
  lemma ToggleTwiceRestores(tracks: seq<Track>, kind: TrackKind)
    ensures ToggleFirst(ToggleFirst(tracks, kind), kind) == tracks
  {
    ToggleKeepsFirst(tracks, kind);
  }

  /** One `StopTrack` per local track, in track order. */
  function StopEach(n: nat): (r: seq<Effect>)
    ensures |r| == n
    ensures forall k :: 0 <= k < n ==> r[k] == StopTrack(k)
  {
    if n == 0 then [] else StopEach(n - 1) + [StopTrack(n - 1)]
  }

  class Engine {
    const userId: string
    const sessionId: string

    var isInitialized: bool
    var isPolite: bool
    var phase: Phase
    var hasPc: bool
    var peer: PeerState
    var ws: Option<ReadyState>
    var outbox: seq<SignalingOut>
    var localStream: Option<seq<Track>>
    /** The tracks added to the peer connection, in order, as indices into
        the local stream: `addTrack` hands over the track objects themselves,
        so switching or stopping a local track switches or stops what the
        connection sends. */
    var senders: seq<nat>
    var isVideoEnabled: bool
    var isAudioEnabled: bool
    var offerTimerPending: bool
    var effects: seq<Effect>

    /** The role is fixed once start-up began, and only the impolite peer
        ever has the initial-offer timer pending. */
    ghost predicate Valid()
      reads this
    {
      && (phase != NotStarted ==> isPolite == IsPolite(userId, sessionId))
      && (offerTimerPending ==> phase != NotStarted && !isPolite)
      && (hasPc ==> localStream.Some? && |senders| == |localStream.value|
                    && forall k :: 0 <= k < |senders| ==> senders[k] == k)
    }

    /** The tracks the peer connection sends: the local tracks themselves. */
    ghost function SentTracks(): (r: seq<Track>)
      reads this
      requires Valid() && hasPc
      ensures r == localStream.value
    {
      var tracks, ids := localStream.value, senders;
      var r := seq(|ids|, k requires 0 <= k < |ids| => tracks[ids[k]]);
      assert forall k :: 0 <= k < |r| ==> r[k] == tracks[k];
      r
    }

    constructor (userId: string, sessionId: string)
      ensures Valid()
      ensures this.userId == userId && this.sessionId == sessionId
      ensures !isInitialized && phase == NotStarted && !hasPc && ws == None && outbox == []
      ensures localStream == None && senders == [] && isVideoEnabled && isAudioEnabled
      ensures !offerTimerPending && effects == []
    {
      this.userId := userId;
      this.sessionId := sessionId;
      isInitialized := false;
      isPolite := false;
      phase := NotStarted;
      hasPc := false;
      peer := InitialPeer;
      ws := None;
      outbox := [];
      localStream := None;
      senders := [];
      isVideoEnabled := true;
      isAudioEnabled := true;
      offerTimerPending := false;
      effects := [];
    }

    /** The mount effect: guarded by `isInitialized`; the first run fixes
        the role from the two ids alone and starts asking for media. */
    method Start()
      requires Valid()
      modifies this
      ensures Valid()
      ensures old(isInitialized) ==> phase == old(phase) && isPolite == old(isPolite)
      ensures !old(isInitialized) ==> phase == AwaitingMedia && isPolite == IsPolite(userId, sessionId)
      ensures isInitialized
      ensures hasPc == old(hasPc) && peer == old(peer) && ws == old(ws) && outbox == old(outbox)
      ensures localStream == old(localStream) && senders == old(senders)
      ensures offerTimerPending == old(offerTimerPending) && effects == old(effects)
      ensures isVideoEnabled == old(isVideoEnabled) && isAudioEnabled == old(isAudioEnabled)
    {
      if isInitialized {
        return;
      }
      isInitialized := true;
      isPolite := IsPolite(userId, sessionId);
      phase := AwaitingMedia;
    }

    /** Media granted: the stream is kept, a fresh connection is created in
        `stable`, and every track is added to it, in order. */
    method MediaGranted(kinds: seq<TrackKind>)
      requires Valid()
      requires phase == AwaitingMedia
      modifies this
      ensures Valid()
      ensures localStream.Some? && |localStream.value| == |kinds|
      ensures forall k :: 0 <= k < |kinds| ==> localStream.value[k] == Track(kinds[k], true, false)
      ensures hasPc && peer == InitialPeer && SentTracks() == localStream.value
      ensures |senders| == |kinds| && forall k :: 0 <= k < |kinds| ==> senders[k] == k
      ensures phase == AwaitingReadyDelay
      ensures isInitialized == old(isInitialized) && isPolite == old(isPolite) && ws == old(ws) && outbox == old(outbox)
      ensures offerTimerPending == old(offerTimerPending) && effects == old(effects)
      ensures isVideoEnabled == old(isVideoEnabled) && isAudioEnabled == old(isAudioEnabled)
    {
      var tracks := seq(|kinds|, k requires 0 <= k < |kinds| => Track(kinds[k], true, false));
      localStream := Some(tracks);
      hasPc := true;
      peer := InitialPeer;
      var added: seq<nat> := [];
      var i := 0;
      while i < |tracks|
        invariant 0 <= i <= |tracks|
        invariant |added| == i && forall k :: 0 <= k < i ==> added[k] == k
      {
        added := added + [i];
        i := i + 1;
      }
      senders := added;
      phase := AwaitingReadyDelay;
    }

    /** `getUserMedia` rejected: the error is caught and start-up stops. */
    method MediaDenied()
      requires Valid()
      requires phase == AwaitingMedia
      modifies this
      ensures Valid()
      ensures phase == Failed
      ensures isPolite == old(isPolite) && hasPc == old(hasPc) && peer == old(peer) && ws == old(ws) && outbox == old(outbox)
      ensures localStream == old(localStream) && offerTimerPending == old(offerTimerPending)
    {
      phase := Failed;
    }

    /** The 2-second wait is over: the signalling socket is created. */
    method ReadyDelayElapsed()
      requires Valid()
      requires phase == AwaitingReadyDelay
      modifies this
      ensures Valid()
      ensures phase == AwaitingSignaling && ws == Some(MatchingSocket.Connecting)
      ensures isPolite == old(isPolite) && hasPc == old(hasPc) && peer == old(peer) && outbox == old(outbox)
      ensures localStream == old(localStream) && offerTimerPending == old(offerTimerPending)
    {
      ws := Some(MatchingSocket.Connecting);
      phase := AwaitingSignaling;
    }

    /** The signalling socket opened.  If start-up was waiting for it, the
        impolite peer schedules the initial offer and the polite peer waits
        for one; an open after a timeout starts no offer. */
    method SignalingOpened()
      requires Valid()
      requires ws == Some(MatchingSocket.Connecting)
      modifies this
      ensures Valid()
      ensures ws == Some(MatchingSocket.Open)
      ensures old(phase) == AwaitingSignaling ==> phase == Started && offerTimerPending == (old(offerTimerPending) || !isPolite)
      ensures old(phase) != AwaitingSignaling ==> phase == old(phase) && offerTimerPending == old(offerTimerPending)
      ensures isPolite ==> offerTimerPending == old(offerTimerPending)
      ensures isPolite == old(isPolite) && hasPc == old(hasPc) && peer == old(peer) && outbox == old(outbox)
      ensures localStream == old(localStream)
    {
      ws := Some(MatchingSocket.Open);
      if phase == AwaitingSignaling {
        phase := Started;
        if !isPolite {
          offerTimerPending := true;
        }
      }
    }

    /** The signalling socket reported an error, or was still not open after
        10 seconds: start-up stops before any offer is scheduled. */
    method SignalingFailed()
      requires Valid()
      requires phase == AwaitingSignaling
      modifies this
      ensures Valid()
      ensures phase == Failed
      ensures isPolite == old(isPolite) && hasPc == old(hasPc) && peer == old(peer) && ws == old(ws) && outbox == old(outbox)
      ensures localStream == old(localStream) && offerTimerPending == old(offerTimerPending)
    {
      phase := Failed;
    }

    /** The signalling socket closed; the handler only logs. */
    method SignalingClosed()
      requires Valid()
      requires ws.Some?
      modifies this
      ensures Valid()
      ensures ws == Some(MatchingSocket.Closed)
      ensures phase == old(phase) && isPolite == old(isPolite) && hasPc == old(hasPc) && peer == old(peer) && outbox == old(outbox)
      ensures localStream == old(localStream) && offerTimerPending == old(offerTimerPending)
    {
      ws := Some(MatchingSocket.Closed);
    }

    /** The 1-second initial-offer timer of the impolite peer: `createOffer`. */
    method OfferTimerElapsed(offer: string)
      requires Valid()
      requires offerTimerPending
      modifies this
      ensures Valid()
      ensures !offerTimerPending && !isPolite
      ensures hasPc ==> peer == OfferStep(old(peer), offer).peer
      ensures hasPc && OfferStep(old(peer), offer).reply.Some? ==> outbox == Post(old(outbox), ws, OfferOut(offer))
      ensures !hasPc || OfferStep(old(peer), offer).reply.None? ==> outbox == old(outbox)
      ensures !hasPc ==> peer == old(peer)
      ensures phase == old(phase) && isPolite == old(isPolite) && hasPc == old(hasPc) && ws == old(ws)
      ensures localStream == old(localStream)
    {
      offerTimerPending := false;
      if !hasPc {
        return;
      }
      var step := OfferStep(peer, offer);
      peer := step.peer;
      if step.reply.Some? {
        outbox := Post(outbox, ws, step.reply.value);
      }
    }

    /** `onmessage` of the signalling socket: a frame that does not parse
        throws before the handler runs; without a connection the handler
        returns at once; otherwise the connection moves as `Negotiate` says
        and its reply, if any, goes out while the socket is open. */
    method HandleMessage(msg: Option<SignalingIn>, answer: string)
      requires Valid()
      modifies this
      ensures Valid()
      ensures msg.None? || !hasPc ==> peer == old(peer) && outbox == old(outbox)
      ensures msg.Some? && hasPc ==> peer == Negotiate(old(peer), msg.value, isPolite, answer).peer
      ensures msg.Some? && hasPc && Negotiate(old(peer), msg.value, isPolite, answer).reply.Some? ==>
        outbox == Post(old(outbox), ws, AnswerOut(answer))
      ensures msg.Some? && hasPc && Negotiate(old(peer), msg.value, isPolite, answer).reply.None? ==>
        outbox == old(outbox)
      ensures phase == old(phase) && isPolite == old(isPolite) && hasPc == old(hasPc) && ws == old(ws)
      ensures localStream == old(localStream) && offerTimerPending == old(offerTimerPending)
      ensures isVideoEnabled == old(isVideoEnabled) && isAudioEnabled == old(isAudioEnabled)
    {
      if msg.None? || !hasPc {
        return;
      }
      var step := Negotiate(peer, msg.value, isPolite, answer);
      peer := step.peer;
      if step.reply.Some? {
        outbox := Post(outbox, ws, step.reply.value);
      }
    }

    /** `onicecandidate` with a candidate: sent to the other peer. */
    method LocalIceCandidate(candidate: string)
      requires Valid()
      requires hasPc
      modifies this
      ensures Valid()
      ensures outbox == Post(old(outbox), ws, CandidateOut(candidate))
      ensures phase == old(phase) && isPolite == old(isPolite) && peer == old(peer) && ws == old(ws)
      ensures localStream == old(localStream)
    {
      outbox := Post(outbox, ws, CandidateOut(candidate));
    }

    /** `toggleVideo`: the first video track is switched and the flag mirrors
        it; no stream or no video track changes nothing; nothing is sent. */
    method ToggleVideo()
      requires Valid()
      modifies this
      ensures Valid()
      ensures old(localStream).Some? ==> localStream == Some(ToggleFirst(old(localStream).value, Video))
      ensures old(localStream).Some? && FirstOfKind(old(localStream).value, Video).Some? ==>
        isVideoEnabled == localStream.value[FirstOfKind(old(localStream).value, Video).value].enabled
      ensures old(localStream).None? || FirstOfKind(old(localStream).value, Video).None? ==>
        localStream == old(localStream) && isVideoEnabled == old(isVideoEnabled)
      ensures outbox == old(outbox) && peer == old(peer) && ws == old(ws) && isAudioEnabled == old(isAudioEnabled)
      ensures phase == old(phase) && isPolite == old(isPolite) && hasPc == old(hasPc) && senders == old(senders)
      ensures hasPc ==> SentTracks() == ToggleFirst(old(SentTracks()), Video)
    {
      if localStream.Some? {
        var i := FirstOfKind(localStream.value, Video);
        if i.Some? {
          localStream := Some(ToggleFirst(localStream.value, Video));
          isVideoEnabled := localStream.value[i.value].enabled;
        }
      }
    }

    /** `toggleAudio`: as `toggleVideo`, for the first audio track. */
    method ToggleAudio()
      requires Valid()
      modifies this
      ensures Valid()
      ensures old(localStream).Some? ==> localStream == Some(ToggleFirst(old(localStream).value, Audio))
      ensures old(localStream).Some? && FirstOfKind(old(localStream).value, Audio).Some? ==>
        isAudioEnabled == localStream.value[FirstOfKind(old(localStream).value, Audio).value].enabled
      ensures old(localStream).None? || FirstOfKind(old(localStream).value, Audio).None? ==>
        localStream == old(localStream) && isAudioEnabled == old(isAudioEnabled)
      ensures outbox == old(outbox) && peer == old(peer) && ws == old(ws) && isVideoEnabled == old(isVideoEnabled)
      ensures phase == old(phase) && isPolite == old(isPolite) && hasPc == old(hasPc) && senders == old(senders)
      ensures hasPc ==> SentTracks() == ToggleFirst(old(SentTracks()), Audio)
    {
      if localStream.Some? {
        var i := FirstOfKind(localStream.value, Audio);
        if i.Some? {
          localStream := Some(ToggleFirst(localStream.value, Audio));
          isAudioEnabled := localStream.value[i.value].enabled;
        }
      }
    }

    /** The unmount cleanup: every local track is stopped, then the peer
        connection is closed, then the signalling socket, and the init guard
        is released. */
    method Cleanup()
      requires Valid()
      modifies this
      ensures Valid()
      ensures old(localStream).Some? ==>
        && localStream.Some? && |localStream.value| == |old(localStream).value|
        && forall k :: 0 <= k < |localStream.value| ==> localStream.value[k] == old(localStream).value[k].(stopped := true)
      ensures old(localStream).None? ==> localStream == None
      ensures hasPc ==> forall k :: 0 <= k < |SentTracks()| ==> SentTracks()[k].stopped
      ensures effects == old(effects)
                         + StopEach(if old(localStream).Some? then |old(localStream).value| else 0)
                         + (if hasPc then [ClosePeer] else [])
                         + (if ws.Some? then [CloseSignaling] else [])
      ensures hasPc ==> peer == old(peer).(signaling := Closed)
      ensures !hasPc ==> peer == old(peer)
      ensures old(ws).Some? && old(ws).value in {MatchingSocket.Connecting, MatchingSocket.Open} ==> ws == Some(MatchingSocket.Closing)
      ensures old(ws).None? || old(ws).value in {MatchingSocket.Closing, MatchingSocket.Closed} ==> ws == old(ws)
      ensures !isInitialized
      ensures outbox == old(outbox) && phase == old(phase) && isPolite == old(isPolite) && hasPc == old(hasPc)
      ensures offerTimerPending == old(offerTimerPending)
    {
      if localStream.Some? {
        var tracks := localStream.value;
        var stopped: seq<Track> := [];
        var log := effects;
        var i := 0;
        while i < |tracks|
          invariant 0 <= i <= |tracks|
          invariant |stopped| == i
          invariant forall k :: 0 <= k < i ==> stopped[k] == tracks[k].(stopped := true)
          invariant log == old(effects) + StopEach(i)
        {
          stopped := stopped + [tracks[i].(stopped := true)];
          log := log + [StopTrack(i)];
          i := i + 1;
        }
        localStream := Some(stopped);
        effects := log;
      }
      if hasPc {
        peer := peer.(signaling := Closed);
        effects := effects + [ClosePeer];
      }
      if ws.Some? {
        if ws.value == MatchingSocket.Connecting || ws.value == MatchingSocket.Open {
          ws := Some(MatchingSocket.Closing);
        }
        effects := effects + [CloseSignaling];
      }
      isInitialized := false;
    }
  }
}
