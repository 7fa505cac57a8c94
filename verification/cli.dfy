/** Argument shaping in `main` (connectproxy.go): the command line
    `program <backend-host> <backend-port> <listen-port>` becomes the
    listen address and the backend (target) address. */
module Cli {
  import opened Wrappers
  import HostKey

  /** Addresses fixed for the lifetime of the process. */
  datatype Config = Config(listenAddr: string, targetAddr: string)

  const AnyHost: string := "0.0.0.0"

  /** `args` is the whole argument vector, program name included, as in
      Go's `os.Args`. None means usage text is printed and no proxy starts. */
  function Shape(args: seq<string>): (r: Option<Config>)
    ensures r.Some? <==> |args| == 4
    ensures r.Some? ==> HostKey.Key(r.value.listenAddr) == Some(AnyHost)
    ensures r.Some? ==> r.value.listenAddr[|AnyHost| + 1..] == args[3]
    ensures r.Some? ==> |r.value.targetAddr| == |args[1]| + 1 + |args[2]|
    ensures r.Some? ==> r.value.targetAddr[..|args[1]|] == args[1]
    ensures r.Some? ==> r.value.targetAddr[|args[1]|] == ':'
    ensures r.Some? ==> r.value.targetAddr[|args[1]| + 1..] == args[2]
  {
    if |args| != 4 then None
    else
      HostKey.KeyOfJoin(AnyHost, args[3]);
      Some(Config(AnyHost + ":" + args[3], args[1] + ":" + args[2]))
  }

  /** The host key of the shaped target string: the backend host when it has
      no ':' of its own, and otherwise that host's own key (so "::1" keys on
      ""). The program never slices this string itself; the backend side of
      a connection keys on the address `Dial` resolved, which may differ from
      the host as typed (for example "localhost"). */
  lemma TargetKey(args: seq<string>)
    requires |args| == 4
    ensures ':' !in args[1] ==> HostKey.Key(Shape(args).value.targetAddr) == Some(args[1])
    ensures ':' in args[1] ==> HostKey.Key(Shape(args).value.targetAddr) == HostKey.Key(args[1])
  {
    var t := Shape(args).value.targetAddr;
    if ':' !in args[1] {
      HostKey.KeyOfJoin(args[1], args[2]);
    } else {
      var i := HostKey.IndexOf(args[1], ':');
      assert t[..|args[1]|] == args[1];
      assert t[..i] == args[1][..i];
      assert HostKey.IndexOf(t, ':') == i by {
        assert t == args[1] + (":" + args[2]);
        HostKey.IndexOfExtend(args[1], ":" + args[2]);
      }
    }
  }

  /** A host key has no ':', while both shaped addresses do, so no host key
      of a peer ever names the listen or the target address. */
  lemma HostKeyIsNoAddress(args: seq<string>, addr: string)
    requires |args| == 4 && ':' in addr
    ensures HostKey.Key(addr).value != Shape(args).value.listenAddr
    ensures HostKey.Key(addr).value != Shape(args).value.targetAddr
  {
  }

  /** The two shaped addresses can coincide: `program 0.0.0.0 1738 1738`
      listens on, and forwards to, "0.0.0.0:1738". */
  lemma ListenCanEqualTarget()
    ensures var c := Shape(["program", "0.0.0.0", "1738", "1738"]).value;
      c.listenAddr == c.targetAddr == "0.0.0.0:1738"
  {
  }
}
