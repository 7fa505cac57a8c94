/** Arbitrary interleavings of the critical sections. Every goroutine of
    connectproxy.go touches the shared maps only inside `mu.Lock()` sections,
    so any execution is a sequence of the steps in `Dedup`, one per section,
    in whatever order the scheduler picked. The calls below carry the raw
    remote address; deriving the host key is part of the call. */
module Trace {
  import opened Wrappers
  import HostKey
  import opened Dedup

  /** One critical section (or unguarded report) and the inputs the network
      supplied to it: `io.Copy`'s byte count and error, `Dial`'s and
      `Listen`'s success. */
  datatype Call =
    | Start(listenAddr: string, targetAddr: string)
    | Online(listenAddr: string, targetAddr: string)
    | BindFail(listenAddr: string)
    | Accept(clientAddr: string)
    | DialFail(targetAddr: string)
    | DialOk(targetAddr: string)
    | CopyFailed(remoteAddr: string, bytes: nat, direction: string)
    | CopyDone(remoteAddr: string, bytes: nat, direction: string)

  /** The calls that slice a remote address at its first ':'; without a ':'
      the slice panics and, unrecovered in a goroutine, ends the process. */
  predicate Panics(c: Call) {
    match c
    case Accept(a) => ':' !in a
    case CopyFailed(a, _, _) => ':' !in a
    case CopyDone(a, _, _) => ':' !in a
    case _ => false
  }

  function Apply(s: State, c: Call): (r: Option<Step>)
    ensures r.None? <==> Panics(c)
  {
    match c
    case Start(l, t) => Some(StartCheck(s, l, t))
    case Online(l, t) => Some(OnlineCheck(s, l, t))
    case BindFail(l) => Some(BindFailure(s, l))
    case Accept(a) =>
      (match HostKey.Key(a)
       case None => None
       case Some(ip) => Some(ClientCheck(s, ip, a)))
    case DialFail(t) => Some(DialFailure(s, t))
    case DialOk(t) => Some(BackendCheck(s, t))
    case CopyFailed(a, n, d) =>
      (match HostKey.Key(a)
       case None => None
       case Some(ip) => Some(ForwardError(s, ip, n, d)))
    case CopyDone(a, n, d) =>
      (match HostKey.Key(a)
       case None => None
       case Some(ip) => Some(ForwardSuccess(s, ip, n, d)))
  }

  function Emit(o: Option<Event>): seq<Event> {
    match o
    case None => []
    case Some(e) => [e]
  }

  /** The end state, the notifications in the order sent, and whether a panic
      ended the process before all calls ran. */
  datatype Outcome = Outcome(state: State, log: seq<Event>, crashed: bool)

  function Run(s: State, calls: seq<Call>): (r: Outcome)
    ensures |r.log| <= |calls|
    decreases |calls|
  {
    if |calls| == 0 then Outcome(s, [], false)
    else match Apply(s, calls[0])
      case None => Outcome(s, [], true)
      case Some(st) =>
        var rest := Run(st.state, calls[1..]);
        Outcome(rest.state, Emit(st.emitted) + rest.log, rest.crashed)
  }

  /** A run stops early exactly when one of its calls would panic. */
  lemma {:induction false} RunCrashes(s: State, calls: seq<Call>)
    ensures Run(s, calls).crashed <==> exists i :: 0 <= i < |calls| && Panics(calls[i])
    decreases |calls|
  {
    if |calls| > 0 && !Panics(calls[0]) {
      var st := Apply(s, calls[0]).value;
      RunCrashes(st.state, calls[1..]);
      assert forall i :: 1 <= i < |calls| ==> calls[i] == calls[1..][i - 1];
    }
  }

  // ---------------------------------------------------------------------
  // Counting notifications in a log

  /** Notifications in `log` guarded by the `loggedIPs` flag of `k`. */
  function Guarded(log: seq<Event>, k: string): nat {
    if |log| == 0 then 0
    else (if GuardKey(log[0]) == Some(k) then 1 else 0) + Guarded(log[1..], k)
  }

  /** "Forwarding Success" notifications for host key `k` in `log`. */
  function Successes(log: seq<Event>, k: string): nat {
    if |log| == 0 then 0
    else (if log[0].ForwardingSuccess? && log[0].ip == k then 1 else 0) + Successes(log[1..], k)
  }

  lemma {:induction false} GuardedZero(log: seq<Event>, k: string, e: Event)
    requires Guarded(log, k) == 0 && GuardKey(e) == Some(k)
    ensures e !in log
  {
    if |log| > 0 {
      GuardedZero(log[1..], k, e);
      assert log == [log[0]] + log[1..];
    }
  }

  lemma {:induction false} GuardedTwo(log: seq<Event>, k: string, e1: Event, e2: Event)
    requires e1 in log && e2 in log && e1 != e2
    requires GuardKey(e1) == Some(k) && GuardKey(e2) == Some(k)
    ensures Guarded(log, k) >= 2
  {
    assert log == [log[0]] + log[1..];
    if log[0] == e1 {
      assert e2 in log[1..];
      assert Guarded(log[1..], k) >= 1 by { GuardedPositive(log[1..], k, e2); }
    } else if log[0] == e2 {
      assert e1 in log[1..];
      assert Guarded(log[1..], k) >= 1 by { GuardedPositive(log[1..], k, e1); }
    } else {
      GuardedTwo(log[1..], k, e1, e2);
    }
  }

  lemma {:induction false} GuardedPositive(log: seq<Event>, k: string, e: Event)
    requires e in log && GuardKey(e) == Some(k)
    ensures Guarded(log, k) >= 1
  {
    if Guarded(log, k) == 0 {
      GuardedZero(log, k, e);
    }
  }

  // ---------------------------------------------------------------------
  // Properties of every interleaving

  /** Flags are monotonic: once set, no sequence of sections clears them. */
  lemma {:induction false} FlagsNeverRevert(s: State, calls: seq<Call>, k: string)
    ensures Flag(s.loggedIPs, k) ==> Flag(Run(s, calls).state.loggedIPs, k)
    ensures Flag(s.loggedForwarding, k) ==> Flag(Run(s, calls).state.loggedForwarding, k)
    decreases |calls|
  {
    if |calls| > 0 {
      match Apply(s, calls[0])
      case None =>
      case Some(st) => FlagsNeverRevert(st.state, calls[1..], k);
    }
  }

  lemma {:induction false} GuardedAppend(a: seq<Event>, b: seq<Event>, k: string)
    ensures Guarded(a + b, k) == Guarded(a, k) + Guarded(b, k)
    decreases |a|
  {
    if |a| > 0 {
      assert (a + b)[1..] == a[1..] + b;
      GuardedAppend(a[1..], b, k);
    } else {
      assert a + b == b;
    }
  }

  /** One section on its own: the guarded-notification ledger of `k`. */
  lemma ApplyGuarded(s: State, c: Call, k: string)
    requires !Panics(c)
    ensures var st := Apply(s, c).value;
      && Guarded(Emit(st.emitted), k) <= 1
      && (Flag(s.loggedIPs, k) ==> Guarded(Emit(st.emitted), k) == 0)
      && (Flag(st.state.loggedIPs, k) <==> Flag(s.loggedIPs, k) || Guarded(Emit(st.emitted), k) == 1)
  {
  }

  /** At most once per key across every guarded kind: a key already flagged
      yields no guarded notification; an unflagged one yields at most one, and
      the key ends flagged exactly when it was flagged or one was sent. */
  lemma {:induction false} GuardedAtMostOnce(s: State, calls: seq<Call>, k: string)
    ensures Guarded(Run(s, calls).log, k) <= 1
    ensures Flag(s.loggedIPs, k) ==> Guarded(Run(s, calls).log, k) == 0
    ensures Flag(Run(s, calls).state.loggedIPs, k) <==>
      Flag(s.loggedIPs, k) || Guarded(Run(s, calls).log, k) == 1
    decreases |calls|
  {
    if |calls| > 0 && !Panics(calls[0]) {
      var st := Apply(s, calls[0]).value;
      ApplyGuarded(s, calls[0], k);
      GuardedAtMostOnce(st.state, calls[1..], k);
      GuardedAppend(Emit(st.emitted), Run(st.state, calls[1..]).log, k);
    }
  }

  /** The `loggedIPs` entry a section consults before it reports, if any:
      the listen address for the start and online checks, the host key for a
      new client and for a failed copy, the whole target for a dial. */
  function CallGuard(c: Call): Option<string> {
    match c
    case Start(l, _) => Some(l)
    case Online(l, _) => Some(l)
    case Accept(a) => HostKey.Key(a)
    case DialOk(t) => Some(t)
    case CopyFailed(a, _, _) => HostKey.Key(a)
    case _ => None
  }

  /** Sections guarded by the entry of `k` that run before any panic. */
  function GuardedCalls(calls: seq<Call>, k: string): nat {
    if |calls| == 0 || Panics(calls[0]) then 0
    else (if CallGuard(calls[0]) == Some(k) then 1 else 0) + GuardedCalls(calls[1..], k)
  }

  /** One section on its own: it reports under `k` exactly when it consults
      the entry of `k` and finds it unset, and only such a section sets it. */
  lemma ApplyCallGuard(s: State, c: Call, k: string)
    requires !Panics(c)
    ensures var st := Apply(s, c).value;
      && Guarded(Emit(st.emitted), k) == (if CallGuard(c) == Some(k) && !Flag(s.loggedIPs, k) then 1 else 0)
      && (Flag(st.state.loggedIPs, k) <==> Flag(s.loggedIPs, k) || CallGuard(c) == Some(k))
  {
  }

  /** Exactly once per key across every guarded kind: from a state where the
      entry of `k` is unset, a run sends one guarded notification for `k` if
      some section consults that entry, and none otherwise. Sections on other
      keys never use it up. */
  lemma {:induction false} GuardedExactlyOnce(s: State, calls: seq<Call>, k: string)
    requires !Flag(s.loggedIPs, k)
    ensures Guarded(Run(s, calls).log, k) == (if GuardedCalls(calls, k) > 0 then 1 else 0)
    decreases |calls|
  {
    if |calls| > 0 && !Panics(calls[0]) {
      var st := Apply(s, calls[0]).value;
      var tail := Run(st.state, calls[1..]);
      ApplyCallGuard(s, calls[0], k);
      GuardedAppend(Emit(st.emitted), tail.log, k);
      assert Run(s, calls).log == Emit(st.emitted) + tail.log;
      if CallGuard(calls[0]) == Some(k) {
        GuardedAtMostOnce(st.state, calls[1..], k);
      } else {
        GuardedExactlyOnce(st.state, calls[1..], k);
      }
    }
  }

  lemma {:induction false} SuccessesAppend(a: seq<Event>, b: seq<Event>, k: string)
    ensures Successes(a + b, k) == Successes(a, k) + Successes(b, k)
    decreases |a|
  {
    if |a| > 0 {
      assert (a + b)[1..] == a[1..] + b;
      SuccessesAppend(a[1..], b, k);
    } else {
      assert a + b == b;
    }
  }

  /** One section on its own: the success-notification ledger of `k`. */
  lemma ApplySuccess(s: State, c: Call, k: string)
    requires !Panics(c)
    ensures var st := Apply(s, c).value;
      && Successes(Emit(st.emitted), k) <= 1
      && (Flag(s.loggedForwarding, k) ==> Successes(Emit(st.emitted), k) == 0)
      && (Flag(st.state.loggedForwarding, k) <==> Flag(s.loggedForwarding, k) || Successes(Emit(st.emitted), k) == 1)
  {
  }

  /** "Forwarding Success" is sent at most once per host key, and never once
      `loggedForwarding` holds the key, however many copies complete. */
  lemma {:induction false} SuccessAtMostOnce(s: State, calls: seq<Call>, k: string)
    ensures Successes(Run(s, calls).log, k) <= 1
    ensures Flag(s.loggedForwarding, k) ==> Successes(Run(s, calls).log, k) == 0
    ensures Flag(Run(s, calls).state.loggedForwarding, k) <==>
      Flag(s.loggedForwarding, k) || Successes(Run(s, calls).log, k) == 1
    decreases |calls|
  {
    if |calls| > 0 && !Panics(calls[0]) {
      var st := Apply(s, calls[0]).value;
      ApplySuccess(s, calls[0], k);
      SuccessAtMostOnce(st.state, calls[1..], k);
      SuccessesAppend(Emit(st.emitted), Run(st.state, calls[1..]).log, k);
    }
  }

  /** Once the start check for `listenAddr` has run, no later section, in any
      order, sends a notification guarded by that same table entry. */
  lemma StartSilencesKey(s: State, listenAddr: string, targetAddr: string,
      rest: seq<Call>, e: Event)
    requires GuardKey(e) == Some(listenAddr) && e != ProxyStarting(listenAddr, targetAddr)
    ensures e !in Run(s, [Start(listenAddr, targetAddr)] + rest).log
  {
    var calls := [Start(listenAddr, targetAddr)] + rest;
    var st := StartCheck(s, listenAddr, targetAddr);
    assert calls[1..] == rest;
    var tail := Run(st.state, rest);
    GuardedAtMostOnce(st.state, rest, listenAddr);
    GuardedZero(tail.log, listenAddr, e);
    assert Run(s, calls).log == Emit(st.emitted) + tail.log;
  }

  /** "Proxy Online" never fires: once the start check for `listenAddr` has
      run, no later section, in any order, sends "Proxy Online" for it. */
  lemma ProxyOnlineNeverSent(s: State, listenAddr: string, targetAddr: string, rest: seq<Call>, t: string)
    ensures ProxyOnline(listenAddr, t) !in Run(s, [Start(listenAddr, targetAddr)] + rest).log
  {
    StartSilencesKey(s, listenAddr, targetAddr, rest, ProxyOnline(listenAddr, t));
  }

  /** The interleaving the program actually produces in `startProxy`:
      starting, then (after a successful bind) the online check, stays silent
      the second time, from any state. */
  lemma StartThenOnline(s: State, listenAddr: string, targetAddr: string)
    ensures OnlineCheck(StartCheck(s, listenAddr, targetAddr).state, listenAddr, targetAddr).emitted == None
  {
  }

  /** When the listen and target addresses coincide, the start check also
      consumes the target's flag, so "Backend Connected" is never sent. */
  lemma BackendSilencedWhenTargetIsListen(s: State, addr: string, rest: seq<Call>)
    ensures BackendConnected(addr) !in Run(s, [Start(addr, addr)] + rest).log
  {
    StartSilencesKey(s, addr, addr, rest, BackendConnected(addr));
  }

  /** One shared table: a host key never gets both "Client Connected" and
      "Forwarding Error", whichever comes first. */
  lemma ClientAndForwardErrorExclusive(s: State, calls: seq<Call>, ip: string,
      clientAddr: string, bytes: nat, direction: string)
    ensures !(ClientConnected(ip, clientAddr) in Run(s, calls).log
              && ForwardingError(ip, bytes, direction) in Run(s, calls).log)
  {
    var log := Run(s, calls).log;
    assert Guarded(log, ip) <= 1 by { GuardedAtMostOnce(s, calls, ip); }
    if ClientConnected(ip, clientAddr) in log && ForwardingError(ip, bytes, direction) in log {
      GuardedTwo(log, ip, ClientConnected(ip, clientAddr), ForwardingError(ip, bytes, direction));
    }
  }

  // ---------------------------------------------------------------------
  // The success counter

  /** Copies that completed cleanly for host key `k` before any panic. */
  function Completions(calls: seq<Call>, k: string): nat {
    if |calls| == 0 || Panics(calls[0]) then 0
    else
      (if calls[0].CopyDone? && HostKey.Key(calls[0].remoteAddr) == Some(k) then 1 else 0)
      + Completions(calls[1..], k)
  }

  /** One section on its own: how it moves the counter of `k`. */
  lemma ApplyCount(s: State, c: Call, k: string)
    requires !Panics(c)
    ensures Count(Apply(s, c).value.state.forwardCounts, k)
      == Advance(Count(s.forwardCounts, k),
                 if c.CopyDone? && HostKey.Key(c.remoteAddr) == Some(k) then 1 else 0)
  {
  }

  /** The counter of `k` advances by one `++` for every clean completion and
      by nothing else: the error path and other keys never move it. */
  lemma {:induction false} CounterTracksCompletions(s: State, calls: seq<Call>, k: string)
    ensures Count(Run(s, calls).state.forwardCounts, k)
      == Advance(Count(s.forwardCounts, k), Completions(calls, k))
    decreases |calls|
  {
    if |calls| > 0 && !Panics(calls[0]) {
      var c := calls[0];
      var st := Apply(s, c).value;
      var d := if c.CopyDone? && HostKey.Key(c.remoteAddr) == Some(k) then 1 else 0;
      var m := Completions(calls[1..], k);
      var n0, n1 := Count(s.forwardCounts, k), Count(st.state.forwardCounts, k);
      assert n1 == Advance(n0, d) by { ApplyCount(s, c, k); }
      assert Count(Run(st.state, calls[1..]).state.forwardCounts, k) == Advance(n1, m) by {
        CounterTracksCompletions(st.state, calls[1..], k);
      }
      assert Run(s, calls).state == Run(st.state, calls[1..]).state;
      assert Completions(calls, k) == d + m;
      AdvanceAdd(n0, d, m);
    }
  }

  /** In Go's 64-bit arithmetic, the counter is the start value plus the
      number of clean completions, reduced modulo 2^64. */
  lemma CounterWraps(s: State, calls: seq<Call>, k: string)
    ensures Count(Run(s, calls).state.forwardCounts, k)
      == Wrap64(Count(s.forwardCounts, k) as int + Completions(calls, k))
  {
    var x := Count(Run(s, calls).state.forwardCounts, k);
    var n0, m := Count(s.forwardCounts, k), Completions(calls, k);
    assert x == Advance(n0, m) by { CounterTracksCompletions(s, calls, k); }
    assert x == Wrap64(n0 as int + m) by { AdvancedValueIsWrap64(x, n0, m); }
  }

  /** Short of 2^63 - 1 completions, the counter never decreases. */
  lemma CounterNonDecreasing(s: State, calls: seq<Call>, k: string)
    requires Count(s.forwardCounts, k) as int + Completions(calls, k) <= MaxInt64
    ensures Count(Run(s, calls).state.forwardCounts, k) >= Count(s.forwardCounts, k)
  {
    CounterTracksCompletions(s, calls, k);
    AdvanceWithoutOverflow(Count(s.forwardCounts, k), Completions(calls, k));
  }

  // ---------------------------------------------------------------------
  // Which success gets reported

  /** Every reachable state has a counter entry for exactly the keys whose
      `loggedForwarding` flag is set: the first clean completion creates both. */
  ghost predicate Inv(s: State) {
    forall k :: k in s.forwardCounts <==> Flag(s.loggedForwarding, k)
  }

  lemma InitialInv()
    ensures Inv(Initial)
  {
  }

  lemma {:induction false} RunKeepsInv(s: State, calls: seq<Call>)
    requires Inv(s)
    ensures Inv(Run(s, calls).state)
    decreases |calls|
  {
    if |calls| > 0 {
      match Apply(s, calls[0])
      case None =>
      case Some(st) =>
        assert Inv(st.state);
        RunKeepsInv(st.state, calls[1..]);
    }
  }

  /** In every reachable state a clean completion is reported exactly when its
      host key has no counter entry yet, and the counter is then 1. A key has
      an entry exactly when an earlier completion for it ran
      (`CounterEntryTracksCompletions`), so the second completion, at count 2,
      is never reported. */
  lemma SuccessReportedIffFirst(s: State, ip: string, bytes: nat, direction: string)
    requires Inv(s)
    ensures ForwardSuccess(s, ip, bytes, direction).emitted.Some? <==> ip !in s.forwardCounts
    ensures ip !in s.forwardCounts ==> Count(ForwardSuccess(s, ip, bytes, direction).state.forwardCounts, ip) == 1
  {
  }

  /** A key has a counter entry after a run exactly when it had one before
      or some copy for it completed cleanly. */
  lemma {:induction false} CounterEntryTracksCompletions(s: State, calls: seq<Call>, k: string)
    ensures k in Run(s, calls).state.forwardCounts <==>
      k in s.forwardCounts || Completions(calls, k) > 0
    decreases |calls|
  {
    if |calls| > 0 && !Panics(calls[0]) {
      var st := Apply(s, calls[0]).value;
      CounterEntryTracksCompletions(st.state, calls[1..], k);
      assert Run(s, calls).state == Run(st.state, calls[1..]).state;
    }
  }

  /** From process start, a host key gets one "Forwarding Success" if any of
      its copies completed cleanly and none otherwise, however many did. */
  lemma SuccessReportedOnceFromStart(calls: seq<Call>, k: string)
    ensures Successes(Run(Initial, calls).log, k) == (if Completions(calls, k) > 0 then 1 else 0)
  {
    InitialInv();
    RunKeepsInv(Initial, calls);
    SuccessAtMostOnce(Initial, calls, k);
    CounterEntryTracksCompletions(Initial, calls, k);
  }

  // ---------------------------------------------------------------------
  // Unguarded reports

  /** The report a failed bind or a failed dial always sends. */
  function Unguarded(c: Call): Event
    requires c.BindFail? || c.DialFail?
  {
    if c.BindFail? then ProxyError(c.listenAddr) else BackendConnectionError(c.targetAddr)
  }

  /** Calls equal to `c` before any panic. */
  function CallsBeforePanic(calls: seq<Call>, c: Call): nat {
    if |calls| == 0 || Panics(calls[0]) then 0
    else (if calls[0] == c then 1 else 0) + CallsBeforePanic(calls[1..], c)
  }

  /** Occurrences of `e` in `log`. */
  function Occurrences(log: seq<Event>, e: Event): nat {
    if |log| == 0 then 0
    else (if log[0] == e then 1 else 0) + Occurrences(log[1..], e)
  }

  lemma {:induction false} OccurrencesAppend(a: seq<Event>, b: seq<Event>, e: Event)
    ensures Occurrences(a + b, e) == Occurrences(a, e) + Occurrences(b, e)
    decreases |a|
  {
    if |a| > 0 {
      assert (a + b)[1..] == a[1..] + b;
      OccurrencesAppend(a[1..], b, e);
    } else {
      assert a + b == b;
    }
  }

  /** Failed binds and failed dials are not deduplicated: from any state,
      each such call sends its own report, and no other call sends it. */
  lemma {:induction false} UnguardedAllReported(s: State, calls: seq<Call>, c: Call)
    requires c.BindFail? || c.DialFail?
    ensures Occurrences(Run(s, calls).log, Unguarded(c)) == CallsBeforePanic(calls, c)
    decreases |calls|
  {
    if |calls| > 0 && !Panics(calls[0]) {
      var st := Apply(s, calls[0]).value;
      UnguardedAllReported(st.state, calls[1..], c);
      OccurrencesAppend(Emit(st.emitted), Run(st.state, calls[1..]).log, Unguarded(c));
      match st.emitted
      case None =>
      case Some(e) => assert Emit(st.emitted)[1..] == [];
    }
  }

  /** Every failed dial to `t` yields its own "Backend Connection Error". */
  lemma DialFailuresAllReported(s: State, calls: seq<Call>, t: string)
    ensures Occurrences(Run(s, calls).log, BackendConnectionError(t)) == CallsBeforePanic(calls, DialFail(t))
  {
    UnguardedAllReported(s, calls, DialFail(t));
  }

  /** Every failed bind of `l` yields its own "Proxy Error". */
  lemma BindFailuresAllReported(s: State, calls: seq<Call>, l: string)
    ensures Occurrences(Run(s, calls).log, ProxyError(l)) == CallsBeforePanic(calls, BindFail(l))
  {
    UnguardedAllReported(s, calls, BindFail(l));
  }
}
