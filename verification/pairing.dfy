/** Pairing: the six-character room code, the room record and its expiry countdown
    (`generatePairCode`, `generateSecureRoomCode` and the timer in `initPairing`).
    Clock readings (`Date.now()`) and the random digits are parameters. */
module Pairing {
  import opened Base36

  const CodeLength: nat := 6
  /** `Math.random().toString(36).substr(2, 4)` yields at most this many digits. */
  const RandomDigits: nat := 4
  /** Five minutes, in milliseconds. */
  const RoomLifetimeMs: int := 5 * 60 * 1000

  predicate IsSuffix(t: string, s: string) {
    |t| <= |s| && t == s[|s| - |t|..]
  }

  /** `s.substr(-k)`: the last `k` characters, or all of `s` when it is shorter. */
  function LastChars(s: string, k: nat): (r: string)
    ensures |r| == if |s| < k then |s| else k
    ensures IsSuffix(r, s)
  {
    if |s| < k then s else s[|s| - k..]
  }

  /** `generatePairCode()` for clock reading `now` and random digits `random`. */
  function GeneratePairCode(now: nat, random: string): (code: string)
    requires |random| <= RandomDigits
    ensures IsSuffix(code, ToBase36(now) + random)
    ensures |code| == if |ToBase36(now)| + |random| < CodeLength then |ToBase36(now)| + |random| else CodeLength
    ensures IsSuffix(random, code)
    ensures now >= Pow36(CodeLength - 1) ==> |code| == CodeLength
    ensures AllDigits(random) ==> AllDigits(code)
  {
    LengthExceeds(now, CodeLength - 1);
    var s := ToBase36(now) + random;
    var code := LastChars(s, CodeLength);
    assert code == s[|s| - |code|..];
    assert random == s[|s| - |random|..];
    code
  }

  /** The record built by `generateSecureRoomCode`. */
  datatype RoomData = RoomData(roomCode: string, createdAt: int, expiresAt: int, used: bool)

  /** `generateSecureRoomCode()`. Three separate clock readings are taken: one inside
      `generatePairCode`, one for `createdAt` and one for `expiresAt`. */
  function GenerateSecureRoomCode(codeClock: nat, random: string, createdClock: nat, expiresClock: nat): (room: RoomData)
    requires |random| <= RandomDigits
    ensures room.createdAt == createdClock
    ensures room.expiresAt - room.createdAt == RoomLifetimeMs + (expiresClock - createdClock)
    ensures !room.used
    ensures IsSuffix(room.roomCode, ToBase36(codeClock) + random)
    ensures |room.roomCode| == if |ToBase36(codeClock)| + |random| < CodeLength then |ToBase36(codeClock)| + |random| else CodeLength
    ensures IsSuffix(random, room.roomCode)
    ensures codeClock >= Pow36(CodeLength - 1) ==> |room.roomCode| == CodeLength
    ensures AllDigits(random) ==> AllDigits(room.roomCode)
  {
    RoomData(GeneratePairCode(codeClock, random), createdClock, expiresClock + RoomLifetimeMs, false)
  }

  /** The lifetime is exactly five minutes only when both readings agree; a clock that
      does not run backwards keeps `expiresAt` after `createdAt`. */
  lemma RoomLifetime(codeClock: nat, random: string, createdClock: nat, expiresClock: nat)
    requires |random| <= RandomDigits
    ensures var room := GenerateSecureRoomCode(codeClock, random, createdClock, expiresClock);
            (room.expiresAt - room.createdAt == RoomLifetimeMs <==> createdClock == expiresClock)
            && (createdClock <= expiresClock ==> room.expiresAt > room.createdAt)
  {
  }

  /** `Math.ceil(d / 1000)` for an integer number of milliseconds `d` (any sign). */
  function CeilSeconds(d: int): (s: int)
    ensures (s - 1) * 1000 < d <= s * 1000
    ensures s > 0 <==> d > 0
  {
    -((-d) / 1000)
  }

  /** Seconds left on the code's countdown at clock reading `now`. */
  function SecondsLeft(room: RoomData, now: int): (s: int)
    ensures s > 0 <==> now < room.expiresAt
  {
    CeilSeconds(room.expiresAt - now)
  }

  /** What the countdown's time element says. */
  datatype Label = Blank | ExpiresIn(seconds: int) | ExpiredNotice

  /** The pair-code panel: whether its wrapper is hidden and what its countdown says. */
  datatype CodeView = CodeView(hidden: bool, text: Label)

  const InitialView: CodeView := CodeView(true, Blank)

  /** The show-code button: reveals the code with the seconds left, without checking expiry. */
  function ShowCode(room: RoomData, now: int): (v: CodeView)
    ensures !v.hidden
    ensures v.text == ExpiresIn(SecondsLeft(room, now))
    ensures v.text.seconds > 0 <==> now < room.expiresAt
  {
    CodeView(false, ExpiresIn(SecondsLeft(room, now)))
  }

  /** One tick of the once-a-second countdown. */
  function CountdownTick(v: CodeView, room: RoomData, now: int): (r: CodeView)
    ensures v.hidden ==> r == v
    ensures !v.hidden ==> (r.hidden <==> now >= room.expiresAt)
    ensures !v.hidden && now < room.expiresAt ==> r.text == ExpiresIn(SecondsLeft(room, now)) && r.text.seconds > 0
    ensures !v.hidden && now >= room.expiresAt ==> r.text == ExpiredNotice
  {
    if v.hidden then v
    else
      var left := SecondsLeft(room, now);
      if left > 0 then v.(text := ExpiresIn(left)) else CodeView(true, ExpiredNotice)
  }

  /** Once expired, a revealed code is hidden by the next tick and stays hidden on every later
      tick, although the show button can reveal it again (with a non-positive count). */
  lemma ExpiredCodeHides(room: RoomData, shownAt: int, tick1: int, tick2: int)
    requires room.expiresAt <= shownAt <= tick1
    ensures ShowCode(room, shownAt).text.seconds <= 0
    ensures CountdownTick(ShowCode(room, shownAt), room, tick1) == CodeView(true, ExpiredNotice)
    ensures CountdownTick(CountdownTick(ShowCode(room, shownAt), room, tick1), room, tick2) == CodeView(true, ExpiredNotice)
  {
  }
}
