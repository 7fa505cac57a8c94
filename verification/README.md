# connectproxy notification bookkeeping, in Dafny

`connectproxy.go` is a TCP relay that, besides copying bytes, reports
milestones (proxy starting/online, client connected, backend connected,
forwarding success/error) to a Discord webhook. To avoid flooding that
channel it keeps three process-wide maps behind one mutex:

- `loggedIPs: map[string]bool`, one flag table shared by every
  guarded kind of notification;
- `forwardCounts: map[string]int`, clean copy completions per host key;
- `loggedForwarding: map[string]bool`, which host keys already had a
  success report.

This project models that bookkeeping as a pure state machine:

- `wrappers.dfy`: the `Option` type.
- `host_key.dfy` (`HostKey`): the host key `addr[:strings.Index(addr, ":")]`,
  with the Go panic on an address without `':'` as `None`.
- `cli.dfy` (`Cli`): `main`'s shaping of the three arguments into the
  listen address `0.0.0.0:<port>` and the target `<host>:<port>`.
- `sink.dfy` (`Sink`): how `sendDiscordEmbed` classifies a delivery as
  success or failure.
- `dedup.dfy` (`Dedup`): the state (`State`, the three maps; Go's
  missing-key reads as `Flag`/`Count`), the notifications (`Event`), and one
  function per `mu.Lock()` section returning the new state and the
  notification it sends, if any. `forwardCounts` holds Go `int` values, so the
  counter is an `int64` with explicit two's-complement wrap-around.
- `trace.dfy` (`Trace`): since every access to the maps happens inside a
  locked section, any execution is a sequence of these steps in some order.
  `Run` folds an arbitrary sequence of `Call`s. A call whose remote address
  has no `':'` panics, which ends the process; `Run` then stops. The lemmas
  hold for every sequence. That includes orders the program cannot produce,
  so they also hold for the orders it does produce.

Behaviour of the code that the model keeps as written:

- The single `loggedIPs` table serves every guarded kind. A peer that got
  "Client Connected" never gets "Forwarding Error", and the reverse also
  holds. A host key never contains `':'`, while the listen and target
  addresses always do, so a host key never collides with either address.
  The listen and target addresses can, however, collide with each other,
  for example with arguments `0.0.0.0 1738 1738`. Then the start check
  also sets the target's flag, and "Backend Connected" is never sent.
- `startProxy` sets `loggedIPs[listenAddr]` in its first check, so the
  "Proxy Online" check after a successful bind never reports: the
  "Proxy Online" embed at `connectproxy.go:209` is unreachable.
- The success report is guarded by `count <= 2` and by `loggedForwarding`,
  which the first success sets. So only the first clean completion per
  host key is reported, and never the second.
- The host key of a bracketed IPv6 address `[h]:p` is `"["` followed by
  the text of `h` before its first `':'`: `"[2001"` for
  `[2001:db8::1]:443`, and just `"["` for `[::1]:8080`.
- `forward` calls `io.Copy(src, dest)`, which copies from `dest` into `src`,
  while the key and the direction label are taken from `src`. The byte count
  is an input to the model, so only the key matters here.

## Model

| member | source | states |
|---|---|---|
| HostKey.IndexOf | connectproxy.go:119 | the first position of the character, or -1 exactly when it does not occur; nothing before that position is the character |
| HostKey.Key | connectproxy.go:118-119 | the key exists exactly when the address has a ':'; it is a proper prefix of the address, is followed by ':' and has no ':' of its own |
| HostKey.KeyOfJoin | connectproxy.go:150-151 | a colon-free host joined with any port by ':' keys back to that host |
| HostKey.KeySplits | connectproxy.go:150-151 | every address with a key is exactly key + ":" + the rest, and the key is colon-free |
| HostKey.IndexOfExtend | connectproxy.go:119 | appending text after a ':' does not move the first ':' |
| HostKey.IPv6KeyIsBracket | connectproxy.go:118-119 | a bracketed address "[h]:p" whose h has a ':' keys on "[" plus the text of h before its first ':' ("[2001" for [2001:db8::1]:443), and on "[" alone when h starts with ':' |
| HostKey.LoopbackKeyIsBracket | connectproxy.go:118-119 | the IPv6 loopback address [::1]:8080 keys on "[" |
| Cli.Shape | connectproxy.go:224-234 | the proxy starts exactly when there are three user arguments; the listen address keys to 0.0.0.0 with the third argument as port; the target is the first argument, ':', then the second |
| Cli.TargetKey | connectproxy.go:230-234 | the host key of the shaped target string is the backend host when that host has no ':', and otherwise the host's own key |
| Cli.HostKeyIsNoAddress | connectproxy.go:233-234 | no host key of a peer equals the listen address or the target address, since a key has no ':' and both addresses do |
| Cli.ListenCanEqualTarget | connectproxy.go:230-234 | the arguments 0.0.0.0 1738 1738 shape the listen and target addresses to the same string |
| Sink.Deliver | connectproxy.go:53-113 | delivery succeeds exactly when the URL is non-empty and the webhook answered 204; an empty URL is its own failure; other statuses and transport problems are failures |
| Dedup.Wrap64 | connectproxy.go:20 | reducing an integer to Go's 64-bit int leaves it unchanged when it already fits |
| Dedup.Wrap64Congruent | connectproxy.go:20 | the 64-bit reduction differs from its input by a whole multiple of 2^64 |
| Dedup.WrapInc | connectproxy.go:133 | `++` on a Go int adds one, except that the largest value wraps to the smallest |
| Dedup.WrapIncIsWrap64 | connectproxy.go:133 | `++` equals the 64-bit reduction of n + 1 |
| Dedup.AdvanceIsWrap64 | connectproxy.go:133 | m successive `++` equal the 64-bit reduction of n + m |
| Dedup.AdvanceAdd | connectproxy.go:133 | a increments followed by b more equal a + b increments |
| Dedup.AdvanceWithoutOverflow | connectproxy.go:133 | m successive `++` add exactly m when n + m does not pass the largest int |
| Dedup.Color | connectproxy.go:125-209 | an embed is red exactly for the error kinds (Forwarding Error at :125, Backend Connection Error at :164, Proxy Error at :199) and green otherwise |
| Dedup.CheckAndSet | connectproxy.go:122-129 | emits the notification exactly when the key's flag was unset, leaves the key flagged, keeps every other flag, the counters and loggedForwarding |
| Dedup.StartCheck | connectproxy.go:187-195 | "Proxy Starting" is emitted exactly when listenAddr was unflagged; listenAddr is flagged afterwards |
| Dedup.OnlineCheck | connectproxy.go:205-213 | "Proxy Online" is emitted exactly when listenAddr was unflagged, guarded by the same table entry |
| Dedup.BindFailure | connectproxy.go:196-203 | a bind failure is reported every time and changes no state |
| Dedup.ClientCheck | connectproxy.go:152-160 | "Client Connected" with the full address is emitted exactly when the host key was unflagged; the key is flagged afterwards |
| Dedup.DialFailure | connectproxy.go:161-167 | a backend dial failure is reported every time and changes no state |
| Dedup.BackendCheck | connectproxy.go:170-178 | "Backend Connected" is emitted exactly when the whole target address was unflagged in the shared table |
| Dedup.ForwardError | connectproxy.go:121-130 | "Forwarding Error" is emitted exactly when the host key was unflagged in the shared table; counters and loggedForwarding are untouched |
| Dedup.ForwardSuccess | connectproxy.go:132-143 | the key's counter advances by one (64-bit wrap) and no other counter moves; a report is emitted exactly when the new count is at most 2 and loggedForwarding was unset, and the flag ends set exactly when it was set or a report was emitted |
| Trace.Apply | connectproxy.go:118-151 | a section fails to run exactly when it slices an address without ':' |
| Trace.Run | connectproxy.go:118-151 | a run of any order of sections emits at most one notification per call |
| Trace.RunCrashes | connectproxy.go:118-151 | a run stops early exactly when one of its calls would panic on slicing an address without ':' |
| Trace.FlagsNeverRevert | connectproxy.go:123-124 | once set, a loggedIPs or loggedForwarding flag stays set under any sequence of sections |
| Trace.GuardedAtMostOnce | connectproxy.go:121-213 | across all guarded kinds together, each key gets at most one notification, none if already flagged, and ends flagged exactly when it was flagged or got one |
| Trace.ApplyCallGuard | connectproxy.go:122-213 | one section reports under a key exactly when it consults that key's entry and finds it unset, and only such a section sets the entry |
| Trace.GuardedExactlyOnce | connectproxy.go:121-213 | from a state where a key's entry is unset, a run of any order sends exactly one guarded notification for it if some section consults that entry before any panic, and none otherwise; sections on other keys never use it up |
| Trace.SuccessAtMostOnce | connectproxy.go:132-143 | each host key gets at most one "Forwarding Success", none if loggedForwarding already holds it, and the flag ends set exactly when it was set or one was sent |
| Trace.StartSilencesKey | connectproxy.go:187-213 | after the start check for an address, no later sequence of sections sends any other notification guarded by that address's flag |
| Trace.ProxyOnlineNeverSent | connectproxy.go:186-213 | after the start check for a listen address, no later sequence of sections ever sends "Proxy Online" for it |
| Trace.BackendSilencedWhenTargetIsListen | connectproxy.go:171-178 | when the target address equals the listen address, "Backend Connected" is never sent after the start check |
| Trace.StartThenOnline | connectproxy.go:187-213 | the online check right after the start check is silent, from any state |
| Trace.ClientAndForwardErrorExclusive | connectproxy.go:121-160 | no run sends both "Client Connected" and "Forwarding Error" for the same host key |
| Trace.CounterTracksCompletions | connectproxy.go:120-133 | a key's counter is its start value advanced by one `++` per clean completion for that key; failed copies and other keys never move it |
| Trace.CounterWraps | connectproxy.go:133 | a key's counter is its start value plus its number of clean completions, reduced to 64 bits |
| Trace.CounterNonDecreasing | connectproxy.go:133 | without 64-bit overflow, the counter never decreases |
| Trace.InitialInv | connectproxy.go:19-21 | in the empty maps, a key has a counter entry exactly when its loggedForwarding flag is set |
| Trace.RunKeepsInv | connectproxy.go:133-136 | every sequence of sections keeps "counter entry exactly when loggedForwarding is set" |
| Trace.SuccessReportedIffFirst | connectproxy.go:133-141 | in every reachable state, a clean completion is reported exactly when its host key has no counter entry yet, and the count is then 1; an entry exists exactly when an earlier completion happened (CounterEntryTracksCompletions), so the second completion (count 2) is never reported |
| Trace.CounterEntryTracksCompletions | connectproxy.go:133 | a key has a counter entry after a run exactly when it had one before or some copy for it completed cleanly in the run |
| Trace.SuccessReportedOnceFromStart | connectproxy.go:132-143 | from process start, a host key gets exactly one "Forwarding Success" if any of its copies completed cleanly, and none otherwise |
| Trace.UnguardedAllReported | connectproxy.go:161-203 | from any state, a notification kind that no flag guards (a dial or bind failure) appears in the log exactly as many times as its call occurs before any panic |
| Trace.DialFailuresAllReported | connectproxy.go:161-167 | from any state, the number of "Backend Connection Error" notifications for a target equals the number of failed dials to it before any panic |
| Trace.BindFailuresAllReported | connectproxy.go:196-203 | from any state, the number of "Proxy Error" notifications for a listen address equals the number of failed binds of it before any panic |

## Left out

- Byte relaying (`io.Copy`, the socket `Close` calls): the copy's byte count and error are inputs to a `Call`.
- Goroutines, `sync.WaitGroup` and the mutex: each locked section is one atomic step, and `Run` takes any order of steps. The real program produces only some of these orders.
- `net.Listen`, `Accept` and `Dial`: their success or failure is the choice between calls (`Online` or `BindFail`, `DialOk` or `DialFail`). Accept errors are retried silently in the source and touch no state, so they have no call.
- The accept loop itself: each accepted connection shows up only through its `Accept`, `Dial*` and `Copy*` calls.
- JSON marshalling, the HTTP request and the reading of the response body in `sendDiscordEmbed`: abstracted to `Sink.Exchange`. Marshalling these structs of strings and ints cannot fail, so those error returns have no counterpart.
- The timestamp (wall clock, RFC 3339 formatting), log lines, usage text and the exact description strings of the embeds.
- Delivery failures are only logged in the source. No step depends on them, so `Sink.Deliver` stands apart from the state machine.
- The counter assumes a 64-bit Go `int`. On a 32-bit target `int` is 32 bits and wraps at 2^31 - 1 instead. Reporting is unaffected, because the first success sets `loggedForwarding`.
- Go strings are byte sequences, while the model uses `seq<char>`. Slicing at the first `':'` gives the same prefix either way.
