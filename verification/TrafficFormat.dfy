/** A format for traffic records that meets what `Framing` asks of one: the theorems about files are about something. */
module TrafficFormat {
  import opened Framing
  import opened Options
  import opened Records

  // Every part is written so that it shows where it ends.

  function Unary(n: nat): seq<bool> {
    if n == 0 then [false] else [true] + Unary(n - 1)
  }

  function Signed(i: int): seq<bool> {
    [i < 0] + Unary(if i < 0 then -i else i)
  }

  function Text(s: string): seq<bool> {
    if s == [] then [false] else [true] + Unary(s[0] as int) + Text(s[1..])
  }

  function Tunnel(p: ProxyDelta): seq<bool> {
    Signed(p.remotePort) + (Text(p.proto) + (Signed(p.bytesIn) + (Signed(p.bytesOut) + Text(p.status))))
  }

  function Tunnels(ps: seq<ProxyDelta>): seq<bool> {
    if ps == [] then [false] else [true] + (Tunnel(ps[0]) + Tunnels(ps[1..]))
  }

  function Bits(r: TrafficRec): seq<bool> {
    Signed(r.seqNo) + (Signed(r.atMs) + (Signed(r.nodeRx) + (Signed(r.nodeTx) + Tunnels(r.proxies))))
  }

  // ----- each part can be told from what follows it -----

  lemma {:induction false} SameTail(x: seq<bool>, a: seq<bool>, b: seq<bool>)
    requires x + a == x + b
    ensures a == b
  {
    assert (x + a)[|x|..] == a && (x + b)[|x|..] == b;
  }

  lemma {:induction false} UnarySplits(n: nat, m: nat, a: seq<bool>, b: seq<bool>)
    requires Unary(n) + a == Unary(m) + b
    ensures n == m && a == b
  {
    assert (Unary(n) + a)[0] == (n > 0) && (Unary(m) + b)[0] == (m > 0);
    if n == 0 {
      SameTail([false], a, b);
    } else {
      assert Unary(n) + a == [true] + (Unary(n - 1) + a) && Unary(m) + b == [true] + (Unary(m - 1) + b);
      SameTail([true], Unary(n - 1) + a, Unary(m - 1) + b);
      UnarySplits(n - 1, m - 1, a, b);
    }
  }

  lemma {:induction false} SignedSplits(i: int, j: int, a: seq<bool>, b: seq<bool>)
    requires Signed(i) + a == Signed(j) + b
    ensures i == j && a == b
  {
    var n, m := if i < 0 then -i else i, if j < 0 then -j else j;
    assert (Signed(i) + a)[0] == (i < 0) && (Signed(j) + b)[0] == (j < 0);
    assert Signed(i) + a == [i < 0] + (Unary(n) + a) && Signed(j) + b == [j < 0] + (Unary(m) + b);
    SameTail([i < 0], Unary(n) + a, Unary(m) + b);
    UnarySplits(n, m, a, b);
  }

  lemma {:induction false} TextSplits(s: string, t: string, a: seq<bool>, b: seq<bool>)
    requires Text(s) + a == Text(t) + b
    ensures s == t && a == b
  {
    assert (Text(s) + a)[0] == (s != []) && (Text(t) + b)[0] == (t != []);
    if s == [] {
      SameTail([false], a, b);
    } else {
      var s', t' := Text(s[1..]) + a, Text(t[1..]) + b;
      assert Text(s) + a == [true] + (Unary(s[0] as int) + s') && Text(t) + b == [true] + (Unary(t[0] as int) + t');
      SameTail([true], Unary(s[0] as int) + s', Unary(t[0] as int) + t');
      UnarySplits(s[0] as int, t[0] as int, s', t');
      TextSplits(s[1..], t[1..], a, b);
      assert s == [s[0]] + s[1..] && t == [t[0]] + t[1..];
    }
  }

  lemma Regroup(x: seq<bool>, y: seq<bool>, a: seq<bool>)
    ensures x + y + a == x + (y + a)
  {}

  lemma {:induction false} TunnelSplits(p: ProxyDelta, q: ProxyDelta, a: seq<bool>, b: seq<bool>)
    requires Tunnel(p) + a == Tunnel(q) + b
    ensures p == q && a == b
  {
    var p3, q3 := Signed(p.bytesOut) + Text(p.status), Signed(q.bytesOut) + Text(q.status);
    var p2, q2 := Signed(p.bytesIn) + p3, Signed(q.bytesIn) + q3;
    var p1, q1 := Text(p.proto) + p2, Text(q.proto) + q2;
    Regroup(Signed(p.remotePort), p1, a);
    Regroup(Signed(q.remotePort), q1, b);
    SignedSplits(p.remotePort, q.remotePort, p1 + a, q1 + b);
    Regroup(Text(p.proto), p2, a);
    Regroup(Text(q.proto), q2, b);
    TextSplits(p.proto, q.proto, p2 + a, q2 + b);
    Regroup(Signed(p.bytesIn), p3, a);
    Regroup(Signed(q.bytesIn), q3, b);
    SignedSplits(p.bytesIn, q.bytesIn, p3 + a, q3 + b);
    Regroup(Signed(p.bytesOut), Text(p.status), a);
    Regroup(Signed(q.bytesOut), Text(q.status), b);
    SignedSplits(p.bytesOut, q.bytesOut, Text(p.status) + a, Text(q.status) + b);
    TextSplits(p.status, q.status, a, b);
  }

  lemma {:induction false} TunnelsAreInjective(ps: seq<ProxyDelta>, qs: seq<ProxyDelta>)
    requires Tunnels(ps) == Tunnels(qs)
    ensures ps == qs
  {
    assert Tunnels(ps)[0] == (ps != []) && Tunnels(qs)[0] == (qs != []);
    if ps != [] {
      SameTail([true], Tunnel(ps[0]) + Tunnels(ps[1..]), Tunnel(qs[0]) + Tunnels(qs[1..]));
      TunnelSplits(ps[0], qs[0], Tunnels(ps[1..]), Tunnels(qs[1..]));
      TunnelsAreInjective(ps[1..], qs[1..]);
      assert ps == [ps[0]] + ps[1..] && qs == [qs[0]] + qs[1..];
    }
  }

  /** Different records are written differently. */
  lemma {:induction false} BitsAreInjective(r: TrafficRec, q: TrafficRec)
    requires Bits(r) == Bits(q)
    ensures r == q
  {
    var r3, q3 := Signed(r.nodeTx) + Tunnels(r.proxies), Signed(q.nodeTx) + Tunnels(q.proxies);
    var r2, q2 := Signed(r.nodeRx) + r3, Signed(q.nodeRx) + q3;
    SignedSplits(r.seqNo, q.seqNo, Signed(r.atMs) + r2, Signed(q.atMs) + q2);
    SignedSplits(r.atMs, q.atMs, r2, q2);
    SignedSplits(r.nodeRx, q.nodeRx, r3, q3);
    SignedSplits(r.nodeTx, q.nodeTx, Tunnels(r.proxies), Tunnels(q.proxies));
    TunnelsAreInjective(r.proxies, q.proxies);
  }

  // ----- the format -----

  function Written(r: TrafficRec): seq<byte> {
    Braced(Bits(r))
  }

  ghost function Read(b: seq<byte>): Option<TrafficRec> {
    match Unbraced(b)
    case None => None
    case Some(x) => if r :| Bits(r) == x then Some(r) else None
  }

  lemma {:induction false} WrittenReads(r: TrafficRec)
    ensures Written(r) != [] && NL !in Written(r) && CR !in Written(r) && Read(Written(r)) == Some(r)
  {
    BracedReads(Bits(r));
    forall q | Bits(q) == Bits(r) ensures q == r {
      BitsAreInjective(q, r);
    }
  }

  /** What is asked of the format can be had for traffic records. */
  lemma {:induction false} SoundFormatExists()
    ensures Sound(Codec(Written, Read))
  {
    forall r { WrittenReads(r); }
    forall r, k: nat | 0 < k < |Written(r)| ensures Read(Written(r)[..k]) == None { BracedTorn(Bits(r), k); }
    forall r, k: nat, q | 0 < k <= |Written(r)| ensures Read(Written(r)[..k] + Written(q)) == None {
      BracedGlued(Bits(r), k, Bits(q));
    }
  }
}
