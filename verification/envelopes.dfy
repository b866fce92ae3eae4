/** The JSON envelopes exchanged with the signaling relay (WEB/app.js). */
module Envelopes {
  import opened Wrappers

  /** A session id as JavaScript holds it: `None` is null / undefined. */
  type SessionId = Option<string>

  /** JavaScript truthiness of an optional string: null, undefined and "" are falsy. */
  predicate Truthy(s: Option<string>) {
    s.Some? && s.value != ""
  }

  /** The constant `sendSignalingMessage` falls back to when no session is known. */
  const FallbackSessionId: string := "ABC123"

  /** An ICE candidate object; its contents are the browser's business. */
  datatype Candidate = Candidate(text: string)

  /** The payload of an outbound envelope, one variant per `type` the viewer sends. */
  datatype Body =
    | Join                                                       // also carries role 'web'
    | CreateRoom(roomCode: string, createdAt: int, expiresAt: int)
    | Offer(sdp: string)
    | Answer(sdp: string)
    | Ice(candidate: Candidate)
    | IceCandidate(candidate: Candidate)                          // the legacy flow's spelling
    | QualityChange(quality: string)
    | KeyframeRequest

  /** An outbound envelope: a body plus its (possibly absent) `sessionId` field. */
  datatype Envelope = Envelope(body: Body, sessionId: SessionId)

  /** The `type` string written on the wire for each body. */
  function WireType(b: Body): string {
    match b
    case Join => "join"
    case CreateRoom(_, _, _) => "create-room"
    case Offer(_) => "offer"
    case Answer(_) => "answer"
    case Ice(_) => "ice"
    case IceCandidate(_) => "ice-candidate"
    case QualityChange(_) => "quality-change"
    case KeyframeRequest => "keyframe-request"
  }

  /** `currentSessionId || 'ABC123'`: always a truthy id, the current one whenever it is truthy. */
  function SessionOrFallback(current: SessionId): (r: SessionId)
    ensures Truthy(r)
    ensures Truthy(current) ==> r == current
    ensures !Truthy(current) ==> r == Some(FallbackSessionId)
  {
    if Truthy(current) then current else Some(FallbackSessionId)
  }

  /** The sessionId defaulting done by `sendSignalingMessage` just before sending. */
  function Stamp(e: Envelope, current: SessionId): (r: Envelope)
    ensures r.body == e.body
    ensures Truthy(r.sessionId)
    ensures Truthy(e.sessionId) ==> r == e
    ensures !Truthy(e.sessionId) ==> r.sessionId == SessionOrFallback(current)
  {
    if Truthy(e.sessionId) then e else e.(sessionId := SessionOrFallback(current))
  }

  /** Stamping is idempotent, whatever session is current the second time. */
  lemma StampIdempotent(e: Envelope, current: SessionId, later: SessionId)
    ensures Stamp(Stamp(e, current), later) == Stamp(e, current)
  {
  }

  /** An inbound envelope after `JSON.parse`; only the fields the viewer reads. */
  datatype Signal = Signal(kind: string, sessionId: SessionId, sdp: Option<string>, candidate: Option<Candidate>)

  /** Raw data from the socket: either unparsable (or not an object) or a parsed envelope. */
  datatype Inbound = Malformed | Parsed(signal: Signal)

  /** `msg.type === 'offer' && msg.sdp` */
  predicate IsOffer(m: Signal) {
    m.kind == "offer" && Truthy(m.sdp)
  }

  /** `msg.type === 'ice' && msg.candidate` */
  predicate IsIce(m: Signal) {
    m.kind == "ice" && m.candidate.Some?
  }

  /** The kinds `handleSignal` reacts to at all; everything else is ignored. */
  predicate IsHandled(m: Signal) {
    m.kind == "room-created" || m.kind == "peer-joined" || m.kind == "error" || IsOffer(m) || IsIce(m)
  }
}
