/** User-driven controls and start-up (WEB/app.js): `disconnect`, the connection badge,
    the quality and keyframe chips, room registration in `initPairing`, and the event loop
    that drives the whole client one handler at a time. */
module Session {
  import opened Wrappers
  import opened Envelopes
  import opened Client
  import opened Negotiation
  import Pairing

  /** `disconnect()`: clears the stats timer, closes and forgets the peer connection, and
      marks the client disconnected. */
  function Disconnect(s: State): (r: State)
    ensures r.peer == None && r.connection == Disconnected
    ensures Valid(s) ==> r.statsInterval == None && r.liveTimers == {} && Valid(r)
    ensures r.log == s.log && r.ws == s.ws && r.unclosed == s.unclosed && r.nextTimerId == s.nextTimerId
    ensures r.(peer := s.peer, connection := s.connection, statsInterval := s.statsInterval, liveTimers := s.liveTimers) == s
  {
    var t := if TimerTruthy(s.statsInterval) then s.(statsInterval := None, liveTimers := s.liveTimers - {s.statsInterval.value}) else s;
    UpdateConnectionUI(t.(peer := None), Disconnected)
  }

  /** A click on the connection badge: connect when disconnected, tear down when connected,
      and nothing while connecting. */
  function OnBadgeClick(s: State, offerSdp: Option<string>): (r: State)
    ensures s.connection == Disconnected ==> r == StartConnection(s, offerSdp)
    ensures s.connection == Connected ==> r == Disconnect(s)
    ensures s.connection == Connecting ==> r == s
    ensures Valid(s) ==> Valid(r)
  {
    match s.connection
    case Disconnected => StartConnection(s, offerSdp)
    case Connected => Disconnect(s)
    case Connecting => s
  }

  /** The gate shared by the quality and keyframe controls. */
  predicate LiveSession(s: State) {
    s.peer.Some? && s.connection == Connected
  }

  /** `handleQualityChange(quality)`: always records the choice; asks the caster to change
      quality only on a live session (otherwise the choice is only persisted locally). */
  function HandleQualityChange(s: State, quality: string): (r: State)
    ensures r.quality == quality
    ensures LiveSession(s) && CanSend(s) ==>
              r.log == s.log + [Envelope(QualityChange(quality), SessionOrFallback(s.currentSessionId))]
    ensures !(LiveSession(s) && CanSend(s)) ==> r.log == s.log
    ensures r.(quality := s.quality, log := s.log) == s
    ensures Valid(s) ==> Valid(r)
  {
    var t := s.(quality := quality);
    if LiveSession(s) then Send(t, QualityChange(quality)) else t
  }

  /** `handleKeyframeRequest()`: a keyframe request is sent only on a live session. */
  function HandleKeyframeRequest(s: State): (r: State)
    ensures LiveSession(s) && CanSend(s) ==>
              r.log == s.log + [Envelope(KeyframeRequest, SessionOrFallback(s.currentSessionId))]
    ensures !(LiveSession(s) && CanSend(s)) ==> r == s
    ensures r.(log := s.log) == s
    ensures Valid(s) ==> Valid(r)
  {
    if LiveSession(s) then Send(s, KeyframeRequest) else s
  }

  /** The registration part of `initPairing`: `create-room` is written straight to the
      socket, and only if it is OPEN at that moment; it carries no sessionId. */
  function RegisterRoom(s: State, room: Pairing.RoomData): (r: State)
    ensures r.(log := s.log) == s
    ensures SocketIsOpen(s) ==> r.log == s.log + [Envelope(CreateRoom(room.roomCode, room.createdAt, room.expiresAt), None)]
    ensures !SocketIsOpen(s) ==> r == s
  {
    if SocketIsOpen(s) then s.(log := s.log + [Envelope(CreateRoom(room.roomCode, room.createdAt, room.expiresAt), None)]) else s
  }

  /** The session id the page joins with at start-up. */
  const StartupSessionId: string := "ABC123"

  /** The page's `DOMContentLoaded` work in order: `initPairing`, `updateConnectionUI('disconnected')`,
      `connectSignaling('ABC123')`. */
  function Startup(room: Pairing.RoomData, constructed: bool): (r: State)
    ensures Valid(r)
    ensures r.log == []
    ensures r.currentSessionId == Some(StartupSessionId) && r.connection == Disconnected
    ensures r.ws == (if constructed then Some(Socket(Opening, Some(StartupSessionId))) else None)
  {
    InitialValid();
    var t := UpdateConnectionUI(RegisterRoom(Initial, room), Disconnected);
    ConnectSignaling(t, Some(StartupSessionId), constructed)
  }

  /** One thing that can happen to the client, with the browser's answers to any awaits. */
  datatype Event =
    | Connect(sessionId: SessionId, constructed: bool)
    | SocketOpened
    | SocketClosing
    | SocketClosed
    | SocketMessage(data: Inbound, outcome: OfferOutcome, iceAccepted: bool)
    | LocalCandidate(candidate: Option<Candidate>)
    | PeerStateChange(peerState: PeerState)
    | TrackArrived(stream: Stream, playStarted: bool)
    | BadgeClick(offerSdp: Option<string>)
    | QualityPicked(quality: string)
    | KeyframeClick

  /** Runs the handler an event triggers. */
  function Step(s: State, e: Event): (r: State)
    ensures Valid(s) ==> Valid(r)
    ensures s.log <= r.log
    ensures |r.log| <= |s.log| + 1
  {
    match e
    case Connect(id, ok) => ConnectSignaling(s, id, ok)
    case SocketOpened => OnOpen(s)
    case SocketClosing => OnClosing(s)
    case SocketClosed => OnClose(s)
    case SocketMessage(data, neg, ok) => OnMessage(s, data, neg, ok)
    case LocalCandidate(c) => OnIceCandidate(s, c)
    case PeerStateChange(st) => OnConnectionStateChange(s, st)
    case TrackArrived(stream, ok) => OnTrack(s, stream, ok)
    case BadgeClick(sdp) => OnBadgeClick(s, sdp)
    case QualityPicked(q) => HandleQualityChange(s, q)
    case KeyframeClick => HandleKeyframeRequest(s)
  }

  /** Runs events in order. Every state reached from a valid one is valid, and the log only grows. */
  function Run(s: State, events: seq<Event>): (r: State)
    requires Valid(s)
    ensures Valid(r)
    ensures s.log <= r.log
    ensures |r.log| <= |s.log| + |events|
    decreases |events|
  {
    if events == [] then s else Run(Step(s, events[0]), events[1..])
  }
}
