/** The viewer's module-level state (WEB/app.js) and the transitions that touch only the
    signaling socket, the connection state and the telemetry timer. */
module Client {
  import opened Wrappers
  import opened Envelopes

  /** A WebSocket's `readyState`: CONNECTING, OPEN, CLOSING, CLOSED. */
  datatype ReadyState = Opening | Open | Closing | Closed

  /** The socket in `ws`; `joinSessionId` is the session id its `onopen` handler captured. */
  datatype Socket = Socket(state: ReadyState, joinSessionId: SessionId)

  /** Which code path built the peer connection: `ensurePeer` (answerer) or the legacy
      `startConnection` (caller). Their handlers differ. */
  datatype Role = Answerer | Caller

  /** The peer connection in `peerConnection`, reduced to what the viewer's logic reads. */
  datatype Peer = Peer(role: Role, hasRemoteDescription: bool, candidates: seq<Candidate>)

  /** `connectionState`. */
  datatype ConnectionState = Disconnected | Connecting | Connected

  /** An inbound media stream (`event.streams[0]`). */
  datatype Stream = Stream(id: nat, videoTracks: nat, audioTracks: nat)

  /** The client. Besides the script's variables it records what the browser holds for it:
      `liveTimers` are the stats intervals still scheduled, `nextTimerId` the id the next
      `setInterval` returns, `unclosed` the peer connections dropped without `close()`,
      and `log` every envelope written to a socket, oldest first. */
  datatype State = State(
    ws: Option<Socket>,
    wsReady: bool,
    currentSessionId: SessionId,
    peer: Option<Peer>,
    unclosed: seq<Peer>,
    statsInterval: Option<nat>,
    liveTimers: set<nat>,
    nextTimerId: nat,
    connection: ConnectionState,
    quality: string,
    sink: Option<Stream>,
    log: seq<Envelope>)

  /** The state when the script has loaded; browsers hand out timer ids from 1. */
  const Initial: State := State(None, false, None, None, [], None, {}, 1, Disconnected, "1080p", None, [])

  predicate SocketIsOpen(s: State) {
    s.ws.Some? && s.ws.value.state == Open
  }

  /** The gate of `sendSignalingMessage`: ready flag set and socket OPEN. */
  predicate CanSend(s: State) {
    s.wsReady && SocketIsOpen(s)
  }

  /** `if (statsInterval)`: the id is present and not 0. */
  predicate TimerTruthy(t: Option<nat>) {
    t.Some? && t.value != 0
  }

  function TimerSet(t: Option<nat>): set<nat> {
    if t.Some? then {t.value} else {}
  }

  /** What every reachable state satisfies: the only live stats timer is the one held in
      `statsInterval`, its id is a real (positive, already issued) one, and an open socket
      has set the ready flag. */
  predicate Valid(s: State) {
    && s.nextTimerId > 0
    && s.liveTimers == TimerSet(s.statsInterval)
    && (s.statsInterval.Some? ==> 0 < s.statsInterval.value < s.nextTimerId)
    && (SocketIsOpen(s) ==> s.wsReady)
  }

  lemma InitialValid()
    ensures Valid(Initial)
    ensures !CanSend(Initial) && Initial.log == []
  {
  }

  /** In a valid state the ready flag adds nothing to the gate: sending works exactly when
      the socket is OPEN. */
  lemma CanSendIffOpen(s: State)
    requires Valid(s)
    ensures CanSend(s) <==> SocketIsOpen(s)
  {
  }

  /** A valid state has at most one live stats timer. */
  lemma AtMostOneTimer(s: State)
    requires Valid(s)
    ensures |s.liveTimers| <= 1
    ensures |s.liveTimers| == 1 <==> s.statsInterval.Some?
  {
  }

  /** `sendSignalingMessage(message)`: dropped unless the gate is open; otherwise the
      envelope, with its sessionId defaulted, is appended to the log and nothing else moves. */
  function SendSignalingMessage(s: State, e: Envelope): (r: State)
    ensures r.(log := s.log) == s
    ensures !CanSend(s) ==> r == s
    ensures CanSend(s) ==> |r.log| == |s.log| + 1 && r.log[..|s.log|] == s.log
    ensures CanSend(s) ==> r.log[|s.log|].body == e.body && Truthy(r.log[|s.log|].sessionId)
    ensures CanSend(s) && Truthy(e.sessionId) ==> r.log[|s.log|] == e
    ensures CanSend(s) && !Truthy(e.sessionId) ==> r.log[|s.log|].sessionId == SessionOrFallback(s.currentSessionId)
  {
    if !CanSend(s) then s else s.(log := s.log + [Stamp(e, s.currentSessionId)])
  }

  /** Every caller in the script passes a message without a sessionId. */
  function Send(s: State, b: Body): (r: State)
    ensures r.(log := s.log) == s
    ensures !CanSend(s) ==> r == s
    ensures CanSend(s) ==> r.log == s.log + [Envelope(b, SessionOrFallback(s.currentSessionId))]
  {
    SendSignalingMessage(s, Envelope(b, None))
  }

  /** `connectSignaling(sessionId)`: always records the session id; creates a new socket
      only when the current one is not OPEN (`constructed` is false when the constructor throws). */
  function ConnectSignaling(s: State, sessionId: SessionId, constructed: bool): (r: State)
    ensures r.currentSessionId == sessionId
    ensures r.(currentSessionId := s.currentSessionId, ws := s.ws) == s
    ensures SocketIsOpen(s) || !constructed ==> r.ws == s.ws
    ensures !SocketIsOpen(s) && constructed ==> r.ws == Some(Socket(Opening, sessionId))
    ensures Valid(s) ==> Valid(r)
  {
    if SocketIsOpen(s) || !constructed then s.(currentSessionId := sessionId)
    else s.(currentSessionId := sessionId, ws := Some(Socket(Opening, sessionId)))
  }

  /** `ws.onopen`: sets the ready flag and writes one join envelope straight to the socket,
      with the session id captured at connect time (no defaulting). */
  function OnOpen(s: State): (r: State)
    ensures s.ws.Some? && s.ws.value.state == Opening ==>
              && CanSend(r)
              && r.ws == Some(s.ws.value.(state := Open))
              && r.log == s.log + [Envelope(Join, s.ws.value.joinSessionId)]
              && r.(ws := s.ws, wsReady := s.wsReady, log := s.log) == s
    ensures !(s.ws.Some? && s.ws.value.state == Opening) ==> r == s
    ensures Valid(s) ==> Valid(r)
  {
    if s.ws.Some? && s.ws.value.state == Opening then
      s.(ws := Some(s.ws.value.(state := Open)), wsReady := true,
         log := s.log + [Envelope(Join, s.ws.value.joinSessionId)])
    else s
  }

  /** The browser starting the closing handshake: no handler runs, but the socket is no
      longer OPEN while the ready flag may still be set. */
  function OnClosing(s: State): (r: State)
    ensures s.ws.Some? && s.ws.value.state == Open ==> r == s.(ws := Some(s.ws.value.(state := Closing))) && !CanSend(r)
    ensures !(s.ws.Some? && s.ws.value.state == Open) ==> r == s
    ensures Valid(s) ==> Valid(r)
  {
    if s.ws.Some? && s.ws.value.state == Open then s.(ws := Some(s.ws.value.(state := Closing))) else s
  }

  /** `ws.onclose`: the ready flag drops; no reconnect is attempted. */
  function OnClose(s: State): (r: State)
    ensures s.ws.Some? && s.ws.value.state != Closed ==>
              r == s.(ws := Some(s.ws.value.(state := Closed)), wsReady := false) && !CanSend(r)
    ensures !(s.ws.Some? && s.ws.value.state != Closed) ==> r == s
    ensures Valid(s) ==> Valid(r)
  {
    if s.ws.Some? && s.ws.value.state != Closed then
      s.(ws := Some(s.ws.value.(state := Closed)), wsReady := false)
    else s
  }

  /** `startTelemetryCollection()`: clears the previous interval (when its id is truthy)
      and schedules a fresh one. */
  function StartTelemetryCollection(s: State): (r: State)
    ensures r.statsInterval == Some(s.nextTimerId) && r.nextTimerId == s.nextTimerId + 1
    ensures s.nextTimerId in r.liveTimers && r.liveTimers - {s.nextTimerId} <= s.liveTimers
    ensures TimerTruthy(s.statsInterval) && s.statsInterval.value != s.nextTimerId ==> s.statsInterval.value !in r.liveTimers
    ensures r.(statsInterval := s.statsInterval, liveTimers := s.liveTimers, nextTimerId := s.nextTimerId) == s
    ensures Valid(s) ==> Valid(r) && r.liveTimers == {s.nextTimerId}
  {
    var remaining := if TimerTruthy(s.statsInterval) then s.liveTimers - {s.statsInterval.value} else s.liveTimers;
    s.(statsInterval := Some(s.nextTimerId), liveTimers := remaining + {s.nextTimerId}, nextTimerId := s.nextTimerId + 1)
  }

  /** `updateConnectionUI(state)`, minus the DOM: records the state and, on `connected`
      only, (re)starts telemetry. It never stops a timer. */
  function UpdateConnectionUI(s: State, st: ConnectionState): (r: State)
    ensures r.connection == st
    ensures st != Connected ==> r == s.(connection := st)
    ensures st == Connected ==>
              && r.statsInterval == Some(s.nextTimerId)
              && (Valid(s) ==> r.liveTimers == {s.nextTimerId})
              && r.(statsInterval := s.statsInterval, liveTimers := s.liveTimers, nextTimerId := s.nextTimerId, connection := s.connection) == s
    ensures s.statsInterval.Some? ==> r.statsInterval.Some?
    ensures Valid(s) ==> Valid(r)
  {
    var t := if st == Connected then StartTelemetryCollection(s) else s;
    t.(connection := st)
  }
}
