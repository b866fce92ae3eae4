/** Properties of the whole client that relate several handlers or several steps. */
module Properties {
  import opened Wrappers
  import opened Envelopes
  import opened Client
  import opened Negotiation
  import opened Session
  import Pairing

  /** While the gate is closed, no handler except the socket's own `onopen` writes anything. */
  lemma NothingSentWhenNotReady(s: State, e: Event)
    requires Valid(s) && !CanSend(s)
    requires !e.SocketOpened?
    ensures Step(s, e).log == s.log
  {
    CanSendIffOpen(s);
  }

  /** Of all handlers, only the badge click on a connected client (that is, `disconnect`)
      stops a running stats timer; `error` and a peer going away leave it running. */
  lemma OnlyDisconnectStopsTelemetry(s: State, e: Event)
    requires Valid(s) && s.statsInterval.Some?
    requires Step(s, e).statsInterval.None?
    ensures e.BadgeClick? && s.connection == Connected
  {
  }

  /** `disconnect()` twice is `disconnect()` once. */
  lemma DisconnectIdempotent(s: State)
    ensures Disconnect(Disconnect(s)) == Disconnect(s)
  {
  }

  /** Two telemetry starts in a row leave exactly one live timer, the second one. */
  lemma TelemetryStartTwice(s: State)
    requires Valid(s)
    ensures var r := StartTelemetryCollection(StartTelemetryCollection(s));
            r.liveTimers == {s.nextTimerId + 1} && r.statsInterval == Some(s.nextTimerId + 1)
  {
  }

  /** Every state the client can reach from start-up holds at most one live stats timer, and
      `disconnect` from any of them leaves none, no peer, and the client disconnected. */
  lemma ReachableTimers(room: Pairing.RoomData, constructed: bool, events: seq<Event>)
    ensures var s := Run(Startup(room, constructed), events);
            |s.liveTimers| <= 1 && Disconnect(s).liveTimers == {} && Disconnect(s).statsInterval == None
  {
    var s := Run(Startup(room, constructed), events);
    AtMostOneTimer(s);
  }

  /** The answer's sessionId comes from the client's current session, never from the offer. */
  lemma AnswerIgnoresInboundSession(s: State, m: Signal, other: SessionId, neg: OfferOutcome, ok: bool)
    ensures HandleSignal(s, m, neg, ok) == HandleSignal(s, m.(sessionId := other), neg, ok)
  {
  }

  /** A candidate that arrives before any offer is not added, yet it creates the peer
      connection; the offer that follows then reuses that peer. */
  lemma IceBeforeOffer(s: State, c: Candidate, sdp: string, answerSdp: string, ok: bool)
    requires s.peer.None? && CanSend(s) && sdp != ""
    ensures var t := HandleSignal(s, Signal("ice", None, None, Some(c)), RemoteRejected, ok);
            && t.peer == Some(FreshAnswerer)
            && t.log == s.log
            && var u := HandleSignal(t, Signal("offer", None, Some(sdp), None), Answered(answerSdp), ok);
               u.peer == Some(Peer(Answerer, true, []))
               && u.log == s.log + [Envelope(Answer(answerSdp), SessionOrFallback(s.currentSessionId))]
  {
  }

  /** The handshake end to end: connect as 'ABC123', the socket opens, an offer arrives and is
      answered, the peer reports connected. The log is one join and one answer, both for
      'ABC123'; the client is connected with one stats timer. */
  lemma OfferAnswerScenario(sdp: string, answerSdp: string, ok: bool)
    requires sdp != ""
    ensures var id := Some(StartupSessionId);
            var offer := SocketMessage(Parsed(Signal("offer", None, Some(sdp), None)), Answered(answerSdp), ok);
            var s := Step(Step(Step(Step(Initial, Connect(id, true)), SocketOpened), offer), PeerStateChange(PeerConnected));
            && s.log == [Envelope(Join, id), Envelope(Answer(answerSdp), id)]
            && s.connection == Connected
            && s.peer == Some(Peer(Answerer, true, []))
            && |s.liveTimers| == 1
  {
    InitialValid();
    var id := Some(StartupSessionId);
    var s1 := Step(Initial, Connect(id, true));
    assert s1.ws == Some(Socket(Opening, id));
    var s2 := Step(s1, SocketOpened);
    assert CanSend(s2) && s2.log == [Envelope(Join, id)];
    var s3 := Step(s2, SocketMessage(Parsed(Signal("offer", None, Some(sdp), None)), Answered(answerSdp), ok));
    assert s3.log == [Envelope(Join, id), Envelope(Answer(answerSdp), id)];
    var s4 := Step(s3, PeerStateChange(PeerConnected));
    assert s4.liveTimers == {s3.nextTimerId};
  }

  /** The legacy flow retried after a failed offer replaces its own peer connection without
      closing it. */
  lemma LegacyRetryLeavesPeerOpen(s: State, sdp: string)
    requires s.connection == Disconnected
    ensures var t := OnBadgeClick(OnBadgeClick(s, None), Some(sdp));
            t.unclosed == s.unclosed + (if s.peer.Some? then [s.peer.value] else []) + [FreshCaller]
            && t.peer == Some(FreshCaller)
  {
  }

  /** Whether a log holds a `create-room` envelope. */
  predicate RegistersRoom(log: seq<Envelope>) {
    exists i :: 0 <= i < |log| && log[i].body.CreateRoom?
  }

  /** No handler ever writes `create-room`. */
  lemma StepNeverRegisters(s: State, e: Event)
    requires !RegistersRoom(s.log)
    ensures !RegistersRoom(Step(s, e).log)
  {
    var r := Step(s, e);
    if |r.log| > |s.log| {
      assert r.log == s.log + [r.log[|s.log|]];
      assert !r.log[|s.log|].body.CreateRoom?;
    } else {
      assert r.log == s.log;
    }
  }

  lemma {:induction false} RunNeverRegisters(s: State, events: seq<Event>)
    requires Valid(s) && !RegistersRoom(s.log)
    ensures !RegistersRoom(Run(s, events).log)
    decreases |events|
  {
    if events != [] {
      StepNeverRegisters(s, events[0]);
      RunNeverRegisters(Step(s, events[0]), events[1..]);
    }
  }

  /** `initPairing` runs before `connectSignaling` at start-up, when there is no socket yet, so
      the room is never registered with the relay, whatever happens afterwards. */
  lemma StartupNeverRegistersRoom(room: Pairing.RoomData, constructed: bool, events: seq<Event>)
    ensures !RegistersRoom(Run(Startup(room, constructed), events).log)
  {
    RunNeverRegisters(Startup(room, constructed), events);
  }
}
