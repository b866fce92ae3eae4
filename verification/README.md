# Viewer client of the casting web page, modelled in Dafny

`WEB/app.js` is the browser side of a screen-casting pair. The viewer opens a WebSocket
to a signaling relay and joins a session. It answers the caster's WebRTC offer, trades ICE
candidates and shows the incoming stream. It also shows a connection badge, runs a stats
timer once connected, and offers a six-character pairing code that expires after five
minutes.

This project models the logic under the browser glue:

- **State** (`Client.State`): the script's module-level variables. These are `ws` (a
  socket with its `readyState`), `wsReady`, `currentSessionId`, `peerConnection`,
  `statsInterval`, `connectionState`, `currentQuality` and the video element's
  `srcObject`.
- **Browser bookkeeping**, kept in the same record:
  - the stats intervals still scheduled, and the next id `setInterval` returns;
  - the peer connections dropped without `close()`;
  - the log of every envelope written to a socket.
- **Handlers**: each event handler is a pure function from state to state, run as one
  atomic step. The browser's answers to the handler's `await`s are parameters: the
  socket constructor throwing, `setRemoteDescription` / `createAnswer` rejecting,
  `addIceCandidate` rejecting, `play()` succeeding, `createOffer` failing.
- **Event loop**: `Session.Step` dispatches one event. `Session.Run` runs a sequence of
  them and keeps the invariant `Client.Valid`: the only live stats timer is the one in
  `statsInterval`, and an OPEN socket has `wsReady` set.
- **Pairing**: the pair code and the room record are functions of the clock readings and
  of the random digits. `Base36.ToBase36` models `toString(36)`. `Base36.FromBase36`
  reads a numeral back, and the two round-trip in both directions.

Some behaviours of the code are easy to miss, and the model keeps them as written:

- The `answer` envelope's `sessionId` is the client's current session, because
  `sendSignalingMessage` defaults it (WEB/app.js:157, 180). It is never the inbound
  offer's (`Properties.AnswerIgnoresInboundSession`).
- An `ice` envelope that arrives before any offer is not added. It does create the peer
  connection, because `ensurePeer` runs first (WEB/app.js:160-170, `Properties.IceBeforeOffer`).
- `expiresAt - createdAt` is `300000` plus the time between two separate `Date.now()`
  readings (WEB/app.js:797-798). It is exactly five minutes only when the readings agree
  (`Pairing.RoomLifetime`).
- A rejected `setRemoteDescription` / `createAnswer` leaves the connection state
  unchanged (WEB/app.js:149-159 has no handler that resets the badge).
- `error` from the relay and a peer going `disconnected` do not stop the stats timer
  (WEB/app.js:144-146, 185-209). Only `disconnect` does (WEB/app.js:333-337,
  `Properties.OnlyDisconnectStopsTelemetry`).
- At start-up `initPairing` runs before `connectSignaling`, while `ws` is still null
  (WEB/app.js:921, 937). So the `create-room` registration (WEB/app.js:833) is never sent
  (`Properties.StartupNeverRegistersRoom`).

## Model

| member | source | states |
|---|---|---|
| Envelopes.Stamp | WEB/app.js:180 | a falsy `sessionId` becomes `currentSessionId`, or `'ABC123'` when that is falsy too; a truthy one is kept; the result always has a truthy id and the same body |
| Client.SendSignalingMessage | WEB/app.js:175-182 | when `wsReady` is false or the socket is not OPEN, nothing at all changes; otherwise exactly one envelope (the message with its id defaulted) is appended and no other field moves |
| Client.ConnectSignaling | WEB/app.js:20-26 | `currentSessionId` is always overwritten; an OPEN socket is kept, with no new socket and no new join; otherwise a new CONNECTING socket replaces it, unless the constructor throws; the invariant is preserved |
| Client.OnOpen | WEB/app.js:27-31 | opening the current socket sets the ready flag and appends exactly one `join` for the session id captured at connect time, without defaulting |
| Client.OnClosing | WEB/app.js:176 | a socket in its closing handshake is no longer OPEN, so the gate is shut even though `wsReady` is still true |
| Client.OnClose | WEB/app.js:32 | close sets `wsReady` false and shuts the gate; nothing reconnects |
| Client.CanSendIffOpen | WEB/app.js:176 | in every valid state the gate `wsReady && ws && OPEN` is equivalent to "socket OPEN" |
| Client.AtMostOneTimer | WEB/app.js:212-215 | a valid state has at most one live stats interval, and it has one exactly when `statsInterval` is set |
| Client.StartTelemetryCollection | WEB/app.js:212-215 | the previous interval (if its id is truthy) is cleared and a fresh id is scheduled; from a valid state the fresh one is the only live interval |
| Client.UpdateConnectionUI | WEB/app.js:185-209 | the connection state is assigned; only `connected` (re)starts telemetry; no state stops a timer, touches the peer or sends |
| Negotiation.EnsurePeer | WEB/app.js:44-58 | an existing peer connection is reused unchanged; otherwise a fresh answerer peer with no remote description is created |
| Negotiation.HandleOffer | WEB/app.js:151-159 | the peer's remote description is set unless `setRemoteDescription` rejects; exactly one `answer` carrying the answer's SDP and the current session id is appended when an answer is produced and the gate is open, nothing otherwise |
| Negotiation.HandleIce | WEB/app.js:161-170 | the candidate is appended to the peer's candidates exactly when a remote description is already set and the browser accepts it; otherwise nothing changes |
| Negotiation.HandleSignal | WEB/app.js:134-172 | `room-created` → connecting, `peer-joined` → connected with a fresh stats interval and nothing else changed, `error` → disconnected (timer untouched); an offer with SDP or an ice with a candidate always leaves a peer and keeps the connection state; every other envelope, including an offer without SDP or an ice without a candidate, changes nothing |
| Negotiation.OnMessage | WEB/app.js:34-37 | an unparsable message changes nothing; a parsed one is handed to `handleSignal` |
| Negotiation.OnIceCandidate | WEB/app.js:60-64 | a local candidate goes through the send gate as `ice` from the answerer peer and as `ice-candidate` from the legacy peer; a null candidate sends nothing; nothing but the log changes |
| Negotiation.OnConnectionStateChange | WEB/app.js:123-129 | peer `connected` → connected with a fresh stats interval and nothing else changed; `disconnected`/`failed` → disconnected; `closed` → disconnected for the answerer peer only; the timer is never stopped |
| Negotiation.OnTrack | WEB/app.js:65-122 | the answerer ignores a stream without video tracks; otherwise the stream replaces the sink, and a successful `play()` also marks the client connected and restarts telemetry, nothing else changing; the legacy peer attaches any stream |
| Negotiation.StartConnection | WEB/app.js:271-330 | the new caller peer overwrites `peerConnection` and the old one is kept as unclosed; an offer is sent through the gate, or on failure the client is marked disconnected; nothing else changes, telemetry included |
| Session.Disconnect | WEB/app.js:333-346 | from any state the peer is gone and the client is disconnected; from a valid state no stats interval is left live; nothing is sent |
| Session.OnBadgeClick | WEB/app.js:722-728 | disconnected → `startConnection`, connected → `disconnect`, connecting → nothing |
| Session.HandleQualityChange | WEB/app.js:362-390 | the quality is always recorded; a `quality-change` is sent only when a peer exists and the client is connected |
| Session.HandleKeyframeRequest | WEB/app.js:419-436 | a `keyframe-request` is sent only when a peer exists, the client is connected and the gate is open; nothing but the log changes, and the invariant is preserved |
| Session.RegisterRoom | WEB/app.js:833-840 | `create-room` with the room's code and times is written only when the socket is OPEN, bypassing `wsReady` and the id defaulting |
| Session.Startup | WEB/app.js:920-938 | after start-up the state is valid, the log is empty, the session is `'ABC123'` and the client is disconnected with a CONNECTING socket (or none if the constructor threw) |
| Session.Step | WEB/app.js:1-16 | every handler preserves the invariant on the module-level state, only appends to the log, and appends at most one envelope |
| Session.Run | WEB/app.js:1-16 | any sequence of handlers from a valid state keeps it valid and only appends to the log |
| Properties.NothingSentWhenNotReady | WEB/app.js:175-179 | while the gate is shut, no event except the socket's own open writes any envelope |
| Properties.OnlyDisconnectStopsTelemetry | WEB/app.js:333-337 | a running stats timer is stopped only by a badge click on a connected client, that is by `disconnect` |
| Properties.DisconnectIdempotent | WEB/app.js:333-346 | calling `disconnect` twice gives the same state as calling it once |
| Properties.TelemetryStartTwice | WEB/app.js:212-215 | two starts in a row leave exactly one live interval, the second |
| Properties.ReachableTimers | WEB/app.js:212-215 | every state reachable from start-up has at most one live stats interval, and `disconnect` from it leaves none |
| Properties.AnswerIgnoresInboundSession | WEB/app.js:157 | the result of handling an envelope does not depend on the envelope's own `sessionId` |
| Properties.IceBeforeOffer | WEB/app.js:160-170 | an ice before any offer adds no candidate and sends nothing but creates the peer; the following offer reuses it and is answered once |
| Properties.OfferAnswerScenario | WEB/app.js:20-159 | connect as `'ABC123'`, socket open, offer answered, peer connected: the log is one join and one answer for `'ABC123'`, and the client is connected with one timer |
| Properties.LegacyRetryLeavesPeerOpen | WEB/app.js:271-281 | a retried legacy connection after a failed offer leaves the previous peer connections unclosed |
| Properties.StartupNeverRegistersRoom | WEB/app.js:828-840 | whatever happens after start-up, no `create-room` envelope is ever written |
| Base36.ToBase36 | WEB/app.js:787 | the numeral is non-empty, uses only `0-9a-z`, and starts with `0` only for zero |
| Base36.FromToBase36 | WEB/app.js:787 | reading back the numeral gives the number |
| Base36.ToFromBase36 | WEB/app.js:787 | writing the value of a canonical numeral gives the numeral back |
| Base36.LengthExceeds | WEB/app.js:787-789 | the numeral has more than `k` digits exactly when the number is at least `36^k` |
| Pairing.GeneratePairCode | WEB/app.js:786-790 | the code is the last `min(6, len)` characters of `base36(now) ++ random`, it ends with the random digits, it has length 6 whenever `now >= 36^5`, and it is all base-36 digits when the random part is |
| Pairing.GenerateSecureRoomCode | WEB/app.js:793-802 | `createdAt` is its clock reading, `expiresAt - createdAt = 300000 + (t2 - t1)`, `used` is false; the code is the last `min(6, len)` characters of `base36(t1) ++ random`, ends with the random digits, has length 6 whenever `t1 >= 36^5`, and is all base-36 digits when the random part is |
| Pairing.RoomLifetime | WEB/app.js:797-798 | the lifetime is exactly five minutes iff the two readings agree, and positive whenever the clock does not run backwards |
| Pairing.CeilSeconds | WEB/app.js:882 | `Math.ceil(d/1000)` for integer milliseconds, of either sign: it is positive exactly when `d` is |
| Pairing.ShowCode | WEB/app.js:856-866 | showing the code reveals it with the seconds left, `ceil((expiresAt - now) / 1000)`, which are positive exactly before expiry; expiry is not checked |
| Pairing.CountdownTick | WEB/app.js:879-890 | a hidden panel is untouched; a shown panel is hidden with the expired notice exactly when `now >= expiresAt`, and otherwise shows the positive seconds left |
| Pairing.ExpiredCodeHides | WEB/app.js:855-890 | a code shown after expiry shows a non-positive count, is hidden by the next tick and stays hidden |

## Left out

- DOM and UI: badge text and classes, play button, hint, video element creation, `loadedmetadata`, the 100 ms play retry, fullscreen, menu routing, preset menu, sliders, QR rendering, copy button. They hold no logic beyond toggling elements.
- Browser internals: WebSocket transport, RTCPeerConnection, SDP contents, ICE gathering, `addTransceiver`, and `getStats`. They are abstract flags, opaque strings and outcome parameters. `new RTCPeerConnection` is assumed not to throw.
- The secure/insecure scheme choice and the relay host constant only shape the URL, which the model does not keep.
- Telemetry sampling: the one-second tick, `currentRoundTripTime * 1000`, `bytesReceived * 8 / 1e6`, `toFixed` and `Math.round` are floating point. Only the timer start/stop rule is modelled.
- Recording, download, `localStorage` (the `preferredQuality` write in `handleQualityChange` among it), and the settings toggles and sliders that send `audio-input-toggle` / volume / brightness envelopes. These are I/O plumbing outside the negotiation core.
- `autoSmartCast` and `updateTelemetry` produce random mock data and have no specified behaviour.
- Session.HandleKeyframeRequest: the data channel it creates, and the exception that sending on that still-connecting channel raises after the signaling message has gone out, are not modelled.
- Async interleaving: each handler is one atomic step. Envelopes arriving during `handleSignal`'s awaits are not modelled. Neither are callbacks of a replaced socket or peer connection, which still reference the globals. Events act only on the current socket and peer.
- Session.Startup: the `window.__ROOM_DATA__` global and the countdown's own interval are not kept in `Client.State`. The countdown is modelled separately in `Pairing`.
- Pairing.CountdownTick: assumes the countdown's time element exists. Without it the panel is never hidden.
- Pairing.ShowCode: assumes the same time element exists (WEB/app.js:863). Without it the code is shown but no seconds are written.
- Pairing.GeneratePairCode: the clock reading is a natural number and `random` stands for `Math.random().toString(36).substr(2, 4)`. The model does not derive it from a floating-point number.
