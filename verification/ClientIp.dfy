/**
 Whose address a request comes from. What the headers claim counts only if a trusted
 proxy delivered them. Parsing an address to its canonical text, and the
 set of trusted networks, are functions nothing else is known of.
 */
module ClientIp {
  import opened Wrappers
  import opened Models

  datatype Net = Net(parse: string -> Option<string>, inProxies: string -> bool)

  datatype HeaderMode = XForwardedFor | CloudFrontViewerAddress

  function ParseIp(net: Net, value: string): Option<string> { net.parse(Strip(value)) }

  predicate Trusted(net: Net, ip: Option<string>) { ip.Some? && net.inProxies(ip.value) }

  // ------------------------------------------------------------- the forwarded hops

  /** `s.split(",")`: one more part than there are commas. */
  function Split(s: string): seq<string>
    ensures |Split(s)| >= 1
  {
    if s == "" then [""]
    else if s[0] == ',' then [""] + Split(s[1..])
    else
      var rest := Split(s[1..]);
      [[s[0]] + rest[0]] + rest[1..]
  }

  /** The parts that are addresses, in order. */
  function Valid(net: Net, parts: seq<string>): seq<string> {
    if parts == [] then []
    else (if ParseIp(net, parts[0]).Some? then [ParseIp(net, parts[0]).value] else []) + Valid(net, parts[1..])
  }

  function Hops(net: Net, header: string): seq<string> { Valid(net, Split(header)) }

  /** The search from the right, as the service writes it. */
  function LastUntrusted(net: Net, hops: seq<string>): Option<string> {
    if hops == [] then None
    else if !net.inProxies(hops[|hops| - 1]) then Some(hops[|hops| - 1])
    else LastUntrusted(net, hops[..|hops| - 1])
  }

  /** What it is supposed to find: an untrusted hop with only trusted ones to its right. */
  ghost predicate IsLastUntrusted(net: Net, hops: seq<string>, ip: string) {
    exists i :: 0 <= i < |hops| && hops[i] == ip && !net.inProxies(ip) && forall j :: i < j < |hops| ==> net.inProxies(hops[j])
  }

  /** A trusted hop at the right end makes no difference. */
  lemma TrustedTail(net: Net, hops: seq<string>, ip: string)
    requires hops != [] && net.inProxies(hops[|hops| - 1])
    ensures IsLastUntrusted(net, hops, ip) <==> IsLastUntrusted(net, hops[..|hops| - 1], ip)
  {
  }

  lemma {:induction false} SearchIsExact(net: Net, hops: seq<string>)
    ensures LastUntrusted(net, hops).None? <==> forall i :: 0 <= i < |hops| ==> net.inProxies(hops[i])
    ensures forall ip :: LastUntrusted(net, hops) == Some(ip) <==> IsLastUntrusted(net, hops, ip)
    decreases |hops|
  {
    if hops == [] {
      assert forall ip :: !IsLastUntrusted(net, hops, ip);
    } else {
      var n := |hops| - 1;
      if net.inProxies(hops[n]) {
        SearchIsExact(net, hops[..n]);
        hide IsLastUntrusted;
        forall ip ensures IsLastUntrusted(net, hops, ip) <==> IsLastUntrusted(net, hops[..n], ip) {
          TrustedTail(net, hops, ip);
        }
        assert forall i :: 0 <= i < n ==> hops[i] == hops[..n][i];
      } else {
        assert IsLastUntrusted(net, hops, hops[n]);
        assert forall ip :: IsLastUntrusted(net, hops, ip) ==> ip == hops[n];
      }
    }
  }

  // ------------------------------------------------------------- the viewer's own header

  function LastColon(s: string): nat
    ensures LastColon(s) <= |s| && (LastColon(s) < |s| ==> s[LastColon(s)] == ':' && ':' !in s[LastColon(s) + 1..])
    ensures LastColon(s) == |s| ==> ':' !in s
  {
    if s == "" then 0
    else if LastColon(s[1..]) < |s| - 1 then LastColon(s[1..]) + 1
    else if s[0] == ':' then 0
    else |s|
  }

  predicate Digits(s: string) { s != "" && forall c :: c in s ==> '0' <= c <= '9' }

  function Unbracketed(s: string): string {
    if s != "" && s[0] in "[]" then Unbracketed(s[1..])
    else if s != "" && s[|s| - 1] in "[]" then Unbracketed(s[..|s| - 1])
    else s
  }

  /** The address of "address:port", IPv6 unbracketed. */
  function ViewerAddress(net: Net, header: string): Option<string> {
    var h := Strip(header);
    var at := LastColon(h);
    if at == |h| || !Digits(h[at + 1..]) then None else ParseIp(net, Unbracketed(h[..at]))
  }

  /** The port is what follows the last colon, so an unbracketed IPv6 address keeps all of its own. */
  lemma PortIsAfterTheLastColon(net: Net, address: string, port: string)
    requires Digits(port) && Strip(address + ":" + port) == address + ":" + port && Unbracketed(address) == address
    ensures ViewerAddress(net, address + ":" + port) == ParseIp(net, address)
  {
    hide Strip, Unbracketed;
    var h := address + ":" + port;
    assert h[|address|] == ':' && h[|address| + 1..] == port && h[..|address|] == address;
    forall i | |address| < i < |h| ensures h[i] != ':' { assert h[i] in port; }
    assert LastColon(h) == |address|;
  }

  // ------------------------------------------------------------- the client's address

  /** Headers are `None` when absent; a missing peer counts as 0.0.0.0. */
  function ClientIp(net: Net, mode: HeaderMode, peer: Option<string>, viewer: string, forwarded: string): string {
    var host := if peer.None? || peer.value == "" then "0.0.0.0" else peer.value;
    var peerIp := ParseIp(net, host);
    if !Trusted(net, peerIp) then peerIp.GetOr(host)
    else if mode.CloudFrontViewerAddress? then ViewerAddress(net, viewer).GetOr(peerIp.value)
    else LastUntrusted(net, Hops(net, forwarded)).GetOr(peerIp.value)
  }

  /** The search with its loop: the first untrusted hop from the right, or the peer. */
  method FindClient(net: Net, hops: seq<string>, peerIp: string) returns (ip: string)
    ensures ip == LastUntrusted(net, hops).GetOr(peerIp)
  {
    var i := |hops|;
    assert hops[..i] == hops;
    while i > 0
      invariant 0 <= i <= |hops|
      invariant LastUntrusted(net, hops) == LastUntrusted(net, hops[..i])
    {
      i := i - 1;
      if !net.inProxies(hops[i]) {
        assert hops[..i + 1][..i] == hops[..i];
        return hops[i];
      }
      assert hops[..i + 1][..i] == hops[..i];
    }
    ip := peerIp;
  }

  predicate TrustedPeer(net: Net, peer: Option<string>) {
    Trusted(net, ParseIp(net, if peer.None? || peer.value == "" then "0.0.0.0" else peer.value))
  }

  /** With an untrusted peer the headers, and how they are read, never matter. */
  lemma HeadersOfUntrustedPeersDoNotMatter(net: Net, peer: Option<string>, m1: HeaderMode, m2: HeaderMode,
    v1: string, v2: string, f1: string, f2: string)
    requires !TrustedPeer(net, peer)
    ensures ClientIp(net, m1, peer, v1, f1) == ClientIp(net, m2, peer, v2, f2)
  {
  }

  lemma SplitCons(c: char, s: string)
    ensures Split([c] + s) == if c == ',' then [""] + Split(s) else [[c] + Split(s)[0]] + Split(s)[1..]
  {
  }

  lemma HeadFirst(a: string, b: string)
    requires a != ""
    ensures a + "," + b == [a[0]] + (a[1..] + "," + b) && a == [a[0]] + a[1..]
  {
  }

  lemma {:induction false} SplitAtComma(a: string, b: string)
    ensures Split(a + "," + b) == Split(a) + Split(b)
    decreases |a|
  {
    hide Split;
    if a == "" {
      SplitCons(',', b);
      assert a + "," + b == [','] + b && Split("") == [""] by { SplitNothing(); }
    } else {
      var c, t := a[0], a[1..];
      HeadFirst(a, b);
      SplitAtComma(t, b);
      SplitCons(c, t + "," + b);
      SplitCons(c, t);
      assert (Split(t) + Split(b))[1..] == Split(t)[1..] + Split(b);
    }
  }

  lemma SplitNothing()
    ensures Split("") == [""]
  {
  }

  lemma {:induction false} ValidOfBoth(net: Net, a: seq<string>, b: seq<string>)
    ensures Valid(net, a + b) == Valid(net, a) + Valid(net, b)
    decreases |a|
  {
    hide ParseIp;
    if a == [] {
      assert a + b == b;
    } else {
      assert (a + b)[0] == a[0] && (a + b)[1..] == a[1..] + b;
      ValidOfBoth(net, a[1..], b);
    }
  }

  lemma {:induction false} PrefixIsShadowed(net: Net, a: seq<string>, b: seq<string>)
    requires LastUntrusted(net, b).Some?
    ensures LastUntrusted(net, a + b) == LastUntrusted(net, b)
    decreases |b|
  {
    var n := |b| - 1;
    assert (a + b)[|a + b| - 1] == b[n];
    if net.inProxies(b[n]) {
      assert (a + b)[..|a + b| - 1] == a + b[..n];
      PrefixIsShadowed(net, a, b[..n]);
    }
  }

  /** Whatever a client writes before the last untrusted hop, behind a comma, changes nothing. */
  lemma PrependingChangesNothing(net: Net, peer: Option<string>, viewer: string, text: string, rest: string)
    requires LastUntrusted(net, Hops(net, rest)).Some?
    ensures ClientIp(net, XForwardedFor, peer, viewer, text + "," + rest) == ClientIp(net, XForwardedFor, peer, viewer, rest)
  {
    hide ParseIp, Split, Valid, LastUntrusted;
    SplitAtComma(text, rest);
    ValidOfBoth(net, Split(text), Split(rest));
    PrefixIsShadowed(net, Hops(net, text), Hops(net, rest));
  }

  /** Behind a trusted peer the answer is a trusted address only if every hop that is an address is trusted. */
  lemma TrustedAnswerMeansAllTrusted(net: Net, peer: Option<string>, viewer: string, forwarded: string)
    requires TrustedPeer(net, peer)
    ensures net.inProxies(ClientIp(net, XForwardedFor, peer, viewer, forwarded)) <==>
      forall i :: 0 <= i < |Hops(net, forwarded)| ==> net.inProxies(Hops(net, forwarded)[i])
  {
    hide ParseIp, Split, Valid, ViewerAddress;
    SearchIsExact(net, Hops(net, forwarded));
  }
}
