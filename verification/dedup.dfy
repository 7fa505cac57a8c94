/** The process-wide notification bookkeeping of connectproxy.go (the three
    maps declared at its top) and one pure step per `mu.Lock()` critical
    section. Each step takes the state and returns the new state together with
    the notification it hands to the sink, if any. */
module Dedup {
  import opened Wrappers

  /** Go's `int` on a 64-bit platform. */
  const MinInt64: int := -0x8000_0000_0000_0000
  const MaxInt64: int := 0x7FFF_FFFF_FFFF_FFFF
  const TwoTo64: int := 0x1_0000_0000_0000_0000
  newtype int64 = x: int | MinInt64 <= x <= MaxInt64

  /** Two's-complement reduction of an unbounded integer into `int64`. */
  function Wrap64(x: int): (r: int64)
    ensures MinInt64 <= x <= MaxInt64 ==> r as int == x
  {
    ((x - MinInt64) % TwoTo64 + MinInt64) as int64
  }

  /** The reduction differs from its input by a whole multiple of 2^64. */
  lemma Wrap64Congruent(x: int)
    ensures (Wrap64(x) as int - x) % TwoTo64 == 0
  {
  }

  /** `n++` on a Go `int`: one more, except that the largest value wraps
      round to the smallest. */
  function WrapInc(n: int64): (r: int64)
    ensures n as int < MaxInt64 ==> r as int == n as int + 1
    ensures n as int == MaxInt64 ==> r as int == MinInt64
  {
    if n as int == MaxInt64 then MinInt64 as int64 else n + 1
  }

  /** `m` successive `++` from `n`. */
  function Advance(n: int64, m: nat): int64
    decreases m
  {
    if m == 0 then n else Advance(WrapInc(n), m - 1)
  }

  /** `a` increments followed by `b` more are `a + b` increments. */
  lemma {:induction false} AdvanceAdd(n: int64, a: nat, b: nat)
    ensures Advance(Advance(n, a), b) == Advance(n, a + b)
    decreases a
  {
    if a > 0 {
      AdvanceAdd(WrapInc(n), a - 1, b);
    }
  }

  /** Adding before or after reducing gives the same 64-bit value. */
  lemma WrapAdd(x: int, d: int)
    ensures Wrap64(Wrap64(x) as int + d) == Wrap64(x + d)
  {
  }

  /** `++` agrees with reducing n + 1 into 64 bits. */
  lemma WrapIncIsWrap64(n: int64)
    ensures WrapInc(n) == Wrap64(n as int + 1)
  {
  }

  /** `m` increments are the 64-bit reduction of n + m. */
  lemma {:induction false} AdvanceIsWrap64(n: int64, m: nat)
    ensures Advance(n, m) == Wrap64(n as int + m)
    decreases m
  {
    if m > 0 {
      AdvanceIsWrap64(WrapInc(n), m - 1);
      WrapIncIsWrap64(n);
      WrapAdd(n as int + 1, m - 1);
    }
  }

  /** Any value known to be `m` increments past `n` is `n + m` modulo 2^64. */
  lemma AdvancedValueIsWrap64(x: int64, n: int64, m: nat)
    requires x == Advance(n, m)
    ensures x == Wrap64(n as int + m)
  {
    AdvanceIsWrap64(n, m);
  }

  /** Without overflow, `m` increments add exactly `m`. */
  lemma {:induction false} AdvanceWithoutOverflow(n: int64, m: nat)
    requires n as int + m <= MaxInt64
    ensures Advance(n, m) as int == n as int + m
    decreases m
  {
    if m > 0 {
      AdvanceWithoutOverflow(WrapInc(n), m - 1);
    }
  }

  /** loggedIPs, forwardCounts and loggedForwarding. */
  datatype State = State(
    loggedIPs: map<string, bool>,
    forwardCounts: map<string, int64>,
    loggedForwarding: map<string, bool>)

  /** The maps start empty. */
  const Initial: State := State(map[], map[], map[])

  /** Reading a flag map: a missing key reads as false, as in Go. */
  function Flag(m: map<string, bool>, k: string): bool {
    k in m && m[k]
  }

  /** Reading the counter map: a missing key reads as 0, as in Go. */
  function Count(m: map<string, int64>, k: string): int64 {
    if k in m then m[k] else 0
  }

  /** Embed colours. */
  const Red: int := 0xFF0000
  const Green: int := 0x008000

  /** A notification handed to the sink. Guarded kinds also record the key
      whose flag the guard consulted. */
  datatype Event =
    | ProxyStarting(listenAddr: string, targetAddr: string)
    | ProxyOnline(listenAddr: string, targetAddr: string)
    | ProxyError(listenAddr: string)
    | ClientConnected(ip: string, clientAddr: string)
    | BackendConnectionError(targetAddr: string)
    | BackendConnected(targetAddr: string)
    | ForwardingError(ip: string, bytes: nat, direction: string)
    | ForwardingSuccess(ip: string, bytes: nat, direction: string)

  /** The `loggedIPs` key that guards an event kind; None for the kinds that
      are sent unconditionally or guarded by `loggedForwarding`. */
  function GuardKey(e: Event): Option<string> {
    match e
    case ProxyStarting(l, _) => Some(l)
    case ProxyOnline(l, _) => Some(l)
    case ClientConnected(ip, _) => Some(ip)
    case BackendConnected(t) => Some(t)
    case ForwardingError(ip, _, _) => Some(ip)
    case _ => None
  }

  /** The colour argument of each `sendDiscordEmbed` call. */
  function Color(e: Event): (c: int)
    ensures c == Red <==> e.ProxyError? || e.BackendConnectionError? || e.ForwardingError?
    ensures c == Red || c == Green
  {
    match e
    case ProxyError(_) => Red
    case BackendConnectionError(_) => Red
    case ForwardingError(_, _, _) => Red
    case _ => Green
  }

  /** The new state and the notification emitted by one critical section. */
  datatype Step = Step(state: State, emitted: Option<Event>)

  /** What every `loggedIPs`-guarded section promises: it emits `e` exactly
      when `key` was unflagged, leaves `key` flagged, and changes nothing else. */
  ghost predicate GuardedStep(s: State, key: string, e: Event, r: Step) {
    && (r.emitted.Some? <==> !Flag(s.loggedIPs, key))
    && (r.emitted.Some? ==> r.emitted.value == e)
    && Flag(r.state.loggedIPs, key)
    && (forall k :: k != key ==> Flag(r.state.loggedIPs, k) == Flag(s.loggedIPs, k))
    && r.state.forwardCounts == s.forwardCounts
    && r.state.loggedForwarding == s.loggedForwarding
  }

  /** `if !loggedIPs[key] { loggedIPs[key] = true; send(e) }` */
  function CheckAndSet(s: State, key: string, e: Event): (r: Step)
    ensures GuardedStep(s, key, e, r)
  {
    if Flag(s.loggedIPs, key) then Step(s, None)
    else Step(s.(loggedIPs := s.loggedIPs[key := true]), Some(e))
  }

  /** startProxy, before `net.Listen`. */
  function StartCheck(s: State, listenAddr: string, targetAddr: string): (r: Step)
    ensures GuardedStep(s, listenAddr, ProxyStarting(listenAddr, targetAddr), r)
  {
    CheckAndSet(s, listenAddr, ProxyStarting(listenAddr, targetAddr))
  }

  /** startProxy, after `net.Listen` succeeded. */
  function OnlineCheck(s: State, listenAddr: string, targetAddr: string): (r: Step)
    ensures GuardedStep(s, listenAddr, ProxyOnline(listenAddr, targetAddr), r)
  {
    CheckAndSet(s, listenAddr, ProxyOnline(listenAddr, targetAddr))
  }

  /** startProxy when `net.Listen` fails: reported every time, nothing recorded. */
  function BindFailure(s: State, listenAddr: string): (r: Step)
    ensures r.state == s && r.emitted == Some(ProxyError(listenAddr))
  {
    Step(s, Some(ProxyError(listenAddr)))
  }

  /** handleClient, keyed on the client's host key, reporting the full address. */
  function ClientCheck(s: State, ip: string, clientAddr: string): (r: Step)
    ensures GuardedStep(s, ip, ClientConnected(ip, clientAddr), r)
  {
    CheckAndSet(s, ip, ClientConnected(ip, clientAddr))
  }

  /** handleClient when `net.Dial` fails: reported every time, nothing recorded. */
  function DialFailure(s: State, targetAddr: string): (r: Step)
    ensures r.state == s && r.emitted == Some(BackendConnectionError(targetAddr))
  {
    Step(s, Some(BackendConnectionError(targetAddr)))
  }

  /** handleClient after `net.Dial` succeeded, keyed on the whole target address. */
  function BackendCheck(s: State, targetAddr: string): (r: Step)
    ensures GuardedStep(s, targetAddr, BackendConnected(targetAddr), r)
  {
    CheckAndSet(s, targetAddr, BackendConnected(targetAddr))
  }

  /** forward when `io.Copy` returned an error: the same `loggedIPs` table,
      and neither the counter nor `loggedForwarding` is touched. */
  function ForwardError(s: State, ip: string, bytes: nat, direction: string): (r: Step)
    ensures GuardedStep(s, ip, ForwardingError(ip, bytes, direction), r)
  {
    CheckAndSet(s, ip, ForwardingError(ip, bytes, direction))
  }

  /** forward when `io.Copy` ended cleanly: bump the counter, then report if the
      new count is at most 2 and `loggedForwarding[ip]` is unset. */
  function ForwardSuccess(s: State, ip: string, bytes: nat, direction: string): (r: Step)
    ensures ip in r.state.forwardCounts
    ensures Count(r.state.forwardCounts, ip) == WrapInc(Count(s.forwardCounts, ip))
    ensures forall k :: k != ip ==> Count(r.state.forwardCounts, k) == Count(s.forwardCounts, k)
    ensures forall k :: k in r.state.forwardCounts <==> k in s.forwardCounts || k == ip
    ensures r.emitted.Some? <==> Count(r.state.forwardCounts, ip) <= 2 && !Flag(s.loggedForwarding, ip)
    ensures r.emitted.Some? ==> r.emitted.value == ForwardingSuccess(ip, bytes, direction)
    ensures Flag(r.state.loggedForwarding, ip) <==> Flag(s.loggedForwarding, ip) || r.emitted.Some?
    ensures forall k :: k != ip ==> Flag(r.state.loggedForwarding, k) == Flag(s.loggedForwarding, k)
    ensures r.state.loggedIPs == s.loggedIPs
  {
    var n := WrapInc(Count(s.forwardCounts, ip));
    var counts := s.forwardCounts[ip := n];
    if n <= 2 && !Flag(s.loggedForwarding, ip) then
      Step(State(s.loggedIPs, counts, s.loggedForwarding[ip := true]),
           Some(ForwardingSuccess(ip, bytes, direction)))
    else
      Step(s.(forwardCounts := counts), None)
  }
}
