/** The host key: the part of a `host:port` remote address in front of the
    first ':' (connectproxy.go, `clientIP[:strings.Index(clientIP, ":")]`). */
module HostKey {
  import opened Wrappers

  /** Position of the first occurrence of `c` in `s`, or -1 when there is none
      (the contract of Go's `strings.Index` for a one-character needle). */
  function IndexOf(s: string, c: char): (i: int)
    ensures -1 <= i < |s|
    ensures i == -1 <==> c !in s
    ensures 0 <= i ==> s[i] == c
    ensures forall j :: 0 <= j < i ==> s[j] != c
  {
    if |s| == 0 then -1
    else if s[0] == c then 0
    else
      var j := IndexOf(s[1..], c);
      if j == -1 then -1 else j + 1
  }

  /** The dedup key of a remote address. Slicing at index -1 panics in Go, so
      an address without ':' has no key: None models that panic. */
  function Key(addr: string): (r: Option<string>)
    ensures r.Some? <==> ':' in addr
    ensures r.Some? ==> |r.value| < |addr| && addr[..|r.value|] == r.value
    ensures r.Some? ==> addr[|r.value|] == ':' && ':' !in r.value
  {
    var i := IndexOf(addr, ':');
    if i == -1 then None else Some(addr[..i])
  }

  /** Joining a colon-free host and any port with ':' and taking the key gives
      the host back, and every key splits its address exactly that way. */
  lemma KeyOfJoin(host: string, port: string)
    requires ':' !in host
    ensures Key(host + ":" + port) == Some(host)
  {
    var a := host + ":" + port;
    assert a[|host|] == ':';
    assert a[..|host|] == host;
  }

  lemma KeySplits(addr: string, host: string)
    requires Key(addr) == Some(host)
    ensures addr == host + ":" + addr[|host| + 1..]
    ensures ':' !in host
  {
  }

  /** The first ':' of a string is also the first ':' of any extension of it. */
  lemma {:induction false} IndexOfExtend(a: string, b: string)
    requires ':' in a
    ensures IndexOf(a + b, ':') == IndexOf(a, ':')
    decreases |a|
  {
    if a[0] != ':' {
      assert (a + b)[1..] == a[1..] + b;
      IndexOfExtend(a[1..], b);
    }
  }

  /** The key is the prefix up to wherever the first ':' is. */
  lemma KeyAt(addr: string, i: int)
    requires 0 <= i && IndexOf(addr, ':') == i
    ensures Key(addr) == Some(addr[..i])
  {
  }

  /** In "[h]:p" the first ':' is the first ':' of `h`, one place later. */
  lemma BracketedIndex(h: string, p: string)
    requires ':' in h
    ensures IndexOf("[" + h + "]:" + p, ':') == IndexOf(h, ':') + 1
  {
    var rest := h + ("]:" + p);
    var a := "[" + rest;
    assert "[" + h + "]:" + p == a;
    assert IndexOf(rest, ':') == IndexOf(h, ':') by { IndexOfExtend(h, "]:" + p); }
    assert a[0] == '[' && a[1..] == rest;
  }

  /** A bracketed IPv6 remote address "[h]:p" keys on "[" followed by the
      text of `h` before its first ':': "[2001" for "[2001:db8::1]:443",
      "[fe80" for "[fe80::1%eth0]:80", and "[" for every address whose
      bracketed part starts with ':', such as the loopback "[::1]:p". */
  lemma IPv6KeyIsBracket(h: string, p: string)
    requires ':' in h
    ensures Key("[" + h + "]:" + p) == Some("[" + h[..IndexOf(h, ':')])
    ensures h[0] == ':' ==> Key("[" + h + "]:" + p) == Some("[")
  {
    var i := IndexOf(h, ':');
    BracketedIndex(h, p);
    KeyAt("[" + h + "]:" + p, i + 1);
    BracketedPrefix(h, p, i);
    if h[0] == ':' {
      assert i == 0 && h[..0] == [];
      assert "[" + h[..0] == "[";
    }
  }

  lemma BracketedPrefix(h: string, p: string, i: nat)
    requires i <= |h|
    ensures ("[" + h + "]:" + p)[..i + 1] == "[" + h[..i]
  {
    var a := "[" + h + "]:" + p;
    assert forall j :: 0 <= j < i + 1 ==> a[j] == ("[" + h[..i])[j];
  }

  /** The loopback peer "[::1]:8080" keys on "[". */
  lemma LoopbackKeyIsBracket()
    ensures Key("[::1]:8080") == Some("[")
  {
    IPv6KeyIsBracket("::1", "8080");
    var a := "[" + "::1" + "]:" + "8080";
    assert |a| == 10;
    assert forall j :: 0 <= j < 10 ==> a[j] == "[::1]:8080"[j];
    assert a == "[::1]:8080";
  }
}
