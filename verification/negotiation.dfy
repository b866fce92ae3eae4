/** The peer connection's lifecycle (WEB/app.js): `ensurePeer` and its handlers,
    `handleSignal`, and the legacy `startConnection` flow. Each handler runs as one
    atomic step; what the browser does inside an `await` is a parameter. */
module Negotiation {
  import opened Wrappers
  import opened Envelopes
  import opened Client

  /** How the offer → answer sequence of awaits ends: `setRemoteDescription` rejects,
      `createAnswer` / `setLocalDescription` rejects after the remote description is set,
      or an answer with the given SDP is produced. */
  datatype OfferOutcome = RemoteRejected | AnswerFailed | Answered(answerSdp: string)

  /** A peer connection's `connectionState`. */
  datatype PeerState = PeerNew | PeerConnecting | PeerConnected | PeerDisconnected | PeerFailed | PeerClosed

  const FreshAnswerer: Peer := Peer(Answerer, false, [])
  const FreshCaller: Peer := Peer(Caller, false, [])

  /** `ensurePeer()`: reuses the current peer connection, or creates a receive-only one. */
  function EnsurePeer(s: State): (r: State)
    ensures r.peer.Some?
    ensures s.peer.Some? ==> r == s
    ensures s.peer.None? ==> r == s.(peer := Some(FreshAnswerer))
  {
    if s.peer.Some? then s else s.(peer := Some(FreshAnswerer))
  }

  /** The offer branch of `handleSignal`, once `ensurePeer` has run. */
  function HandleOffer(s: State, neg: OfferOutcome): (r: State)
    requires s.peer.Some?
    ensures r.peer.Some? && r.peer.value.role == s.peer.value.role && r.peer.value.candidates == s.peer.value.candidates
    ensures r.peer.value.hasRemoteDescription == (s.peer.value.hasRemoteDescription || !neg.RemoteRejected?)
    ensures r.(peer := s.peer, log := s.log) == s
    ensures neg.Answered? && CanSend(s) ==> r.log == s.log + [Envelope(Answer(neg.answerSdp), SessionOrFallback(s.currentSessionId))]
    ensures !(neg.Answered? && CanSend(s)) ==> r.log == s.log
  {
    match neg
    case RemoteRejected => s
    case AnswerFailed => s.(peer := Some(s.peer.value.(hasRemoteDescription := true)))
    case Answered(sdp) =>
      var t := s.(peer := Some(s.peer.value.(hasRemoteDescription := true)));
      Send(t, Answer(sdp))
  }

  /** The ice branch of `handleSignal`, once `ensurePeer` has run: the candidate is added only
      when a remote description is already set (and the browser accepts it). */
  function HandleIce(s: State, c: Candidate, accepted: bool): (r: State)
    requires s.peer.Some?
    ensures r.peer.Some? && r.peer.value.role == s.peer.value.role
    ensures r.peer.value.hasRemoteDescription == s.peer.value.hasRemoteDescription
    ensures r.(peer := s.peer) == s
    ensures s.peer.value.hasRemoteDescription && accepted ==> r.peer.value.candidates == s.peer.value.candidates + [c]
    ensures !(s.peer.value.hasRemoteDescription && accepted) ==> r == s
  {
    if s.peer.value.hasRemoteDescription && accepted then
      s.(peer := Some(s.peer.value.(candidates := s.peer.value.candidates + [c])))
    else s
  }

  /** `handleSignal(msg)` */
  function HandleSignal(s: State, m: Signal, neg: OfferOutcome, iceAccepted: bool): (r: State)
    ensures m.kind == "room-created" ==> r == s.(connection := Connecting)
    ensures m.kind == "peer-joined" ==>
              && r.connection == Connected && r.statsInterval == Some(s.nextTimerId)
              && (Valid(s) ==> r.liveTimers == {s.nextTimerId})
              && r.(connection := s.connection, statsInterval := s.statsInterval,
                    liveTimers := s.liveTimers, nextTimerId := s.nextTimerId) == s
    ensures m.kind == "error" ==> r == s.(connection := Disconnected)
    ensures !IsHandled(m) ==> r == s
    // an offer or a candidate always leaves a peer: the one there was, or a fresh answerer
    ensures IsOffer(m) || IsIce(m) ==>
              && r.peer.Some?
              && r.peer.value.role == (if s.peer.Some? then s.peer.value.role else Answerer)
              && r.(peer := s.peer, log := s.log) == s
    ensures IsOffer(m) ==>
              && r.peer.value.candidates == (if s.peer.Some? then s.peer.value.candidates else [])
              && (r.peer.value.hasRemoteDescription <==> (s.peer.Some? && s.peer.value.hasRemoteDescription) || !neg.RemoteRejected?)
              && r.log == if neg.Answered? && CanSend(s)
                          then s.log + [Envelope(Answer(neg.answerSdp), SessionOrFallback(s.currentSessionId))]
                          else s.log
    ensures IsIce(m) ==>
              && r.log == s.log
              && r.peer.value.hasRemoteDescription == (s.peer.Some? && s.peer.value.hasRemoteDescription)
              && r.peer.value.candidates == if s.peer.Some? && s.peer.value.hasRemoteDescription && iceAccepted
                                            then s.peer.value.candidates + [m.candidate.value]
                                            else if s.peer.Some? then s.peer.value.candidates else []
    ensures Valid(s) ==> Valid(r)
  {
    if m.kind == "room-created" then UpdateConnectionUI(s, Connecting)
    else if m.kind == "peer-joined" then UpdateConnectionUI(s, Connected)
    else if m.kind == "error" then UpdateConnectionUI(s, Disconnected)
    else if IsOffer(m) then HandleOffer(EnsurePeer(s), neg)
    else if IsIce(m) then HandleIce(EnsurePeer(s), m.candidate.value, iceAccepted)
    else s
  }

  /** `ws.onmessage`: parse failures are caught and change nothing. */
  function OnMessage(s: State, data: Inbound, neg: OfferOutcome, iceAccepted: bool): (r: State)
    ensures data.Malformed? ==> r == s
    ensures data.Parsed? ==> r == HandleSignal(s, data.signal, neg, iceAccepted)
    ensures Valid(s) ==> Valid(r)
  {
    match data
    case Malformed => s
    case Parsed(m) => HandleSignal(s, m, neg, iceAccepted)
  }

  /** `onicecandidate` of the current peer: a non-null candidate is forwarded as `ice` by
      the answerer's handler and as `ice-candidate` by the legacy caller's. */
  function OnIceCandidate(s: State, c: Option<Candidate>): (r: State)
    ensures s.peer.None? || c.None? ==> r == s
    ensures s.peer.Some? && c.Some? && CanSend(s) ==>
              r.log == s.log + [Envelope(if s.peer.value.role == Answerer then Ice(c.value) else IceCandidate(c.value),
                                         SessionOrFallback(s.currentSessionId))]
    ensures !CanSend(s) ==> r == s
    ensures r.(log := s.log) == s
  {
    if s.peer.None? || c.None? then s
    else if s.peer.value.role == Answerer then Send(s, Ice(c.value))
    else Send(s, IceCandidate(c.value))
  }

  /** `onconnectionstatechange` of the current peer. The answerer's handler maps `closed`
      to disconnected as well; the legacy caller's ignores it. Neither stops telemetry. */
  function OnConnectionStateChange(s: State, st: PeerState): (r: State)
    ensures s.peer.None? ==> r == s
    ensures s.peer.Some? && st == PeerConnected ==>
              && r.connection == Connected && r.statsInterval == Some(s.nextTimerId)
              && (Valid(s) ==> r.liveTimers == {s.nextTimerId})
              && r.(connection := s.connection, statsInterval := s.statsInterval,
                    liveTimers := s.liveTimers, nextTimerId := s.nextTimerId) == s
    ensures s.peer.Some? && (st == PeerDisconnected || st == PeerFailed) ==> r == s.(connection := Disconnected)
    ensures s.peer.Some? && st == PeerClosed ==> r == if s.peer.value.role == Answerer then s.(connection := Disconnected) else s
    ensures st == PeerNew || st == PeerConnecting ==> r == s
    ensures s.statsInterval.Some? ==> r.statsInterval.Some?
    ensures Valid(s) ==> Valid(r)
  {
    if s.peer.None? then s
    else if st == PeerConnected then UpdateConnectionUI(s, Connected)
    else if st == PeerDisconnected || st == PeerFailed then UpdateConnectionUI(s, Disconnected)
    else if st == PeerClosed && s.peer.value.role == Answerer then UpdateConnectionUI(s, Disconnected)
    else s
  }

  /** `ontrack` of the current peer. The answerer's handler ignores a stream without video
      tracks; otherwise it attaches the stream, and a successful `play()` marks the client
      connected. The legacy caller's handler attaches any stream. */
  function OnTrack(s: State, stream: Stream, playStarted: bool): (r: State)
    ensures s.peer.None? ==> r == s
    ensures s.peer.Some? && s.peer.value.role == Answerer && stream.videoTracks == 0 ==> r == s
    ensures s.peer.Some? && (s.peer.value.role == Caller || stream.videoTracks > 0) ==> r.sink == Some(stream)
    ensures s.peer.Some? && s.peer.value.role == Answerer && stream.videoTracks > 0 && !playStarted ==>
              r == s.(sink := Some(stream))
    ensures s.peer.Some? && s.peer.value.role == Answerer && stream.videoTracks > 0 && playStarted ==>
              && r.connection == Connected && r.statsInterval == Some(s.nextTimerId)
              && (Valid(s) ==> r.liveTimers == {s.nextTimerId})
              && r.(sink := s.sink, connection := s.connection, statsInterval := s.statsInterval,
                    liveTimers := s.liveTimers, nextTimerId := s.nextTimerId) == s
    ensures s.peer.Some? && s.peer.value.role == Caller ==> r == s.(sink := Some(stream))
    ensures r.log == s.log && r.peer == s.peer
    ensures Valid(s) ==> Valid(r)
  {
    if s.peer.None? then s
    else if s.peer.value.role == Caller then s.(sink := Some(stream))
    else if stream.videoTracks == 0 then s
    else
      var t := s.(sink := Some(stream));
      if playStarted then UpdateConnectionUI(t, Connected) else t
  }

  /** The legacy `startConnection()`: marks the client connecting, overwrites the peer
      connection without closing the old one, then sends an offer (`offerSdp` is `None`
      when `createOffer` / `setLocalDescription` throws, which marks the client
      disconnected and leaves the new peer in place). */
  function StartConnection(s: State, offerSdp: Option<string>): (r: State)
    ensures r.peer == Some(FreshCaller)
    ensures r.unclosed == s.unclosed + (if s.peer.Some? then [s.peer.value] else [])
    ensures r.connection == (if offerSdp.Some? then Connecting else Disconnected)
    ensures offerSdp.Some? && CanSend(s) ==> r.log == s.log + [Envelope(Offer(offerSdp.value), SessionOrFallback(s.currentSessionId))]
    ensures !(offerSdp.Some? && CanSend(s)) ==> r.log == s.log
    ensures r.(peer := s.peer, unclosed := s.unclosed, connection := s.connection, log := s.log) == s
    ensures Valid(s) ==> Valid(r)
  {
    var t := UpdateConnectionUI(s, Connecting);
    var dropped := if t.peer.Some? then [t.peer.value] else [];
    var u := t.(peer := Some(FreshCaller), unclosed := t.unclosed + dropped);
    match offerSdp
    case Some(sdp) => Send(u, Offer(sdp))
    case None => UpdateConnectionUI(u, Disconnected)
  }
}
