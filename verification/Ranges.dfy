/** The port ranges that frps may open: what is left of an interval after excluding others. */
module Ranges {
  datatype Range = Range(lo: int, hi: int)

  predicate In(p: int, r: Range) {
    r.lo <= p <= r.hi
  }

  ghost predicate Covers(rs: seq<Range>, p: int) {
    exists r :: r in rs && In(p, r)
  }

  /** An exclusion may be given with its ends in either order. */
  function Normal(e: Range): Range {
    if e.lo > e.hi then Range(e.hi, e.lo) else e
  }

  ghost predicate Excludes(es: seq<Range>, p: int) {
    exists e :: e in es && (e.lo <= p <= e.hi || e.hi <= p <= e.lo)
  }

  /** Nonempty ranges in ascending order, with a gap between any two. */
  ghost predicate Canonical(rs: seq<Range>) {
    && (forall i :: 0 <= i < |rs| ==> rs[i].lo <= rs[i].hi)
    && (forall i, j :: 0 <= i < j < |rs| ==> rs[i].hi + 1 < rs[j].lo)
  }

  ghost predicate SortedByStart(rs: seq<Range>) {
    forall i, j :: 0 <= i < j < |rs| ==> rs[i].lo <= rs[j].lo
  }

  ghost predicate Within(rs: seq<Range>, lo: int, hi: int) {
    forall r :: r in rs ==> lo <= r.lo <= r.hi <= hi
  }

  lemma CoversAppend(rs: seq<Range>, x: Range, p: int)
    ensures Covers(rs + [x], p) <==> Covers(rs, p) || In(p, x)
  {
    assert x in rs + [x];
    assert forall r :: r in rs ==> r in rs + [x];
  }

  /** Normalises the exclusions, ignores those outside the interval, and clamps the others into it. */
  method Clamp(lo: int, hi: int, excludes: seq<Range>) returns (ex: seq<Range>)
    requires lo <= hi
    ensures Within(ex, lo, hi)
    ensures forall p :: Covers(ex, p) <==> lo <= p <= hi && Excludes(excludes, p)
  {
    ex := [];
    for i := 0 to |excludes|
      invariant Within(ex, lo, hi)
      invariant forall p :: Covers(ex, p) <==> lo <= p <= hi && Excludes(excludes[..i], p)
    {
      var e := Normal(excludes[i]);
      assert excludes[..i + 1] == excludes[..i] + [excludes[i]];
      ExcludesAppend(excludes[..i], excludes[i]);
      if e.hi < lo || e.lo > hi {
        continue;
      }
      var c := Range(if e.lo < lo then lo else e.lo, if e.hi > hi then hi else e.hi);
      forall p { CoversAppend(ex, c, p); }
      ex := ex + [c];
    }
    assert excludes[..|excludes|] == excludes;
  }

  lemma ExcludesAppend(es: seq<Range>, e: Range)
    ensures forall p :: Excludes(es + [e], p) <==> Excludes(es, p) || In(p, Normal(e))
  {
    assert e in es + [e];
    assert forall x :: x in es ==> x in es + [e];
  }

  method InsertByStart(rs: seq<Range>, x: Range) returns (out: seq<Range>)
    requires SortedByStart(rs)
    ensures SortedByStart(out) && multiset(out) == multiset(rs) + multiset{x}
  {
    var k := |rs|;
    while k > 0 && x.lo < rs[k - 1].lo
      invariant 0 <= k <= |rs|
      invariant forall i :: k <= i < |rs| ==> x.lo < rs[i].lo
    {
      k := k - 1;
    }
    out := rs[..k] + [x] + rs[k..];
    InsertedAt(rs, k, x);
  }

  lemma InsertedAt(rs: seq<Range>, k: nat, x: Range)
    requires k <= |rs|
    ensures multiset(rs[..k] + [x] + rs[k..]) == multiset(rs) + multiset{x}
  {
    assert rs == rs[..k] + rs[k..];
  }

  method SortByStart(rs: seq<Range>) returns (out: seq<Range>)
    ensures SortedByStart(out) && multiset(out) == multiset(rs)
  {
    out := [];
    for i := 0 to |rs|
      invariant SortedByStart(out) && multiset(out) == multiset(rs[..i])
    {
      assert rs[..i + 1] == rs[..i] + [rs[i]];
      out := InsertByStart(out, rs[i]);
    }
    assert rs[..|rs|] == rs;
  }

  lemma SameRanges(a: seq<Range>, b: seq<Range>)
    requires multiset(a) == multiset(b)
    ensures forall r :: r in a <==> r in b
  {
    assert forall r :: r in a <==> r in multiset(a);
    assert forall r :: r in b <==> r in multiset(b);
  }

  /** The last merged range grows to take in one that begins in it or right after it. */
  lemma GrowLast(m: seq<Range>, e: Range)
    requires m != [] && Canonical(m) && e.lo <= e.hi
    requires m[|m| - 1].lo <= e.lo <= m[|m| - 1].hi + 1 && m[|m| - 1].hi < e.hi
    ensures Canonical(m[..|m| - 1] + [Range(m[|m| - 1].lo, e.hi)])
    ensures forall p :: Covers(m[..|m| - 1] + [Range(m[|m| - 1].lo, e.hi)], p) <==> Covers(m, p) || In(p, e)
  {
    var init, last := m[..|m| - 1], m[|m| - 1];
    assert m == init + [last];
    forall p
      ensures Covers(init + [Range(last.lo, e.hi)], p) <==> Covers(m, p) || In(p, e)
    {
      CoversAppend(init, last, p);
      CoversAppend(init, Range(last.lo, e.hi), p);
    }
  }

  method Merge(ex: seq<Range>, lo: int, hi: int) returns (merged: seq<Range>)
    requires SortedByStart(ex) && Within(ex, lo, hi)
    ensures Canonical(merged) && Within(merged, lo, hi)
    ensures forall p :: Covers(merged, p) <==> Covers(ex, p)
  {
    merged := [];
    for i := 0 to |ex|
      invariant Canonical(merged) && Within(merged, lo, hi)
      invariant forall p :: Covers(merged, p) <==> Covers(ex[..i], p)
      invariant merged != [] ==> forall k :: i <= k < |ex| ==> merged[|merged| - 1].lo <= ex[k].lo
    {
      var e := ex[i];
      assert ex[..i + 1] == ex[..i] + [e] && e in ex;
      forall p { CoversAppend(ex[..i], e, p); }
      if merged != [] && e.lo <= merged[|merged| - 1].hi + 1 {
        var last := merged[|merged| - 1];
        assert last in merged;
        if e.hi > last.hi {
          GrowLast(merged, e);
          merged := merged[..|merged| - 1] + [Range(last.lo, e.hi)];
        }
        continue;
      }
      forall p { CoversAppend(merged, e, p); }
      merged := merged + [e];
    }
    assert ex[..|ex|] == ex;
  }

  /** Everything below `cur` is dealt with. */
  ghost predicate WalkedTo(out: seq<Range>, lo: int, cur: int, done: seq<Range>) {
    forall p :: Covers(out, p) <==> lo <= p < cur && !Covers(done, p)
  }

  lemma GapStep(out: seq<Range>, lo: int, cur: int, m: seq<Range>, i: nat)
    requires i < |m| && lo <= cur <= m[i].lo <= m[i].hi && WalkedTo(out, lo, cur, m[..i])
    requires forall p :: Covers(m[..i], p) ==> p < cur
    ensures WalkedTo(NextGap(out, cur, m[i]), lo, m[i].hi + 1, m[..i + 1])
  {
    var e := m[i];
    var out' := NextGap(out, cur, e);
    forall p ensures Covers(out', p) <==> lo <= p < e.hi + 1 && !Covers(m[..i + 1], p) {
      assert Covers(out, p) <==> lo <= p < cur && !Covers(m[..i], p);
      assert m[..i + 1] == m[..i] + [e];
      CoversAppend(m[..i], e, p);
      CoversAppend(out, Range(cur, e.lo - 1), p);
    }
  }

  /** The gaps found so far, when the first `i` merged exclusions are behind `cur`. */
  ghost predicate Walked(out: seq<Range>, lo: int, cur: int, merged: seq<Range>, i: nat) {
    && i <= |merged| && cur == (if i == 0 then lo else merged[i - 1].hi + 1) && lo <= cur
    && Canonical(out) && (forall k :: 0 <= k < |out| ==> out[k].hi + 1 < cur)
    && WalkedTo(out, lo, cur, merged[..i])
  }

  function NextGap(out: seq<Range>, cur: int, e: Range): seq<Range> {
    if e.lo > cur then out + [Range(cur, e.lo - 1)] else out
  }

  lemma NextIsAhead(lo: int, cur: int, merged: seq<Range>, i: nat, hi: int)
    requires Canonical(merged) && Within(merged, lo, hi) && i < |merged|
    requires cur == if i == 0 then lo else merged[i - 1].hi + 1
    ensures cur <= merged[i].lo <= merged[i].hi <= hi && (i > 0 ==> cur < merged[i].lo)
  {
    assert merged[i] in merged;
  }

  lemma WalkOne(out: seq<Range>, lo: int, cur: int, merged: seq<Range>, i: nat, hi: int)
    requires Canonical(merged) && Within(merged, lo, hi) && i < |merged| && Walked(out, lo, cur, merged, i)
    ensures merged[i].hi + 1 > cur && Walked(NextGap(out, cur, merged[i]), lo, merged[i].hi + 1, merged, i + 1)
  {
    NextIsAhead(lo, cur, merged, i, hi);
    BelowCur(merged, i, cur);
    GapStep(out, lo, cur, merged, i);
    NextGapIsCanonical(out, cur, merged[i]);
  }

  lemma NextGapIsCanonical(out: seq<Range>, cur: int, e: Range)
    requires Canonical(out) && (forall k :: 0 <= k < |out| ==> out[k].hi + 1 < cur) && cur <= e.lo <= e.hi
    ensures Canonical(NextGap(out, cur, e))
    ensures forall k :: 0 <= k < |NextGap(out, cur, e)| ==> NextGap(out, cur, e)[k].hi + 1 < e.hi + 1
  {}

  /** Walks the gaps between the merged exclusions. */
  method Gaps(lo: int, hi: int, merged: seq<Range>) returns (out: seq<Range>)
    requires lo <= hi && Canonical(merged) && Within(merged, lo, hi)
    ensures Canonical(out)
    ensures forall p :: Covers(out, p) <==> lo <= p <= hi && !Covers(merged, p)
  {
    out := [];
    var cur := lo;
    for i := 0 to |merged|
      invariant Walked(out, lo, cur, merged, i)
    {
      var e := merged[i];
      WalkOne(out, lo, cur, merged, i, hi);
      out := NextGap(out, cur, e);
      if e.hi + 1 > cur {
        cur := e.hi + 1;
      }
    }
    assert merged[..|merged|] == merged;
    out := LastGap(out, lo, hi, cur, merged);
  }

  method LastGap(walked: seq<Range>, lo: int, hi: int, cur: int, merged: seq<Range>) returns (out: seq<Range>)
    requires lo <= hi && Canonical(merged) && Within(merged, lo, hi) && Walked(walked, lo, cur, merged, |merged|)
    requires merged[..|merged|] == merged
    ensures Canonical(out)
    ensures forall p :: Covers(out, p) <==> lo <= p <= hi && !Covers(merged, p)
  {
    out := walked;
    BelowCur(merged, |merged|, cur);
    if merged != [] {
      NextIsAhead(lo, if |merged| == 1 then lo else merged[|merged| - 2].hi + 1, merged, |merged| - 1, hi);
    }
    if cur <= hi {
      forall p { CoversAppend(walked, Range(cur, hi), p); }
      out := walked + [Range(cur, hi)];
    }
  }

  lemma BelowCur(m: seq<Range>, i: nat, cur: int)
    requires i <= |m| && Canonical(m) && (i > 0 ==> cur == m[i - 1].hi + 1)
    ensures forall p :: Covers(m[..i], p) ==> p < cur
  {}

  /** Covers exactly the ports of the interval that no exclusion covers, whatever the exclusions' order, overlaps and
      position, in the one canonical form. */
  method AllowedRanges(lo: int, hi: int, excludes: seq<Range>) returns (out: seq<Range>)
    ensures Canonical(out)
    ensures forall p :: Covers(out, p) <==> lo <= p <= hi && !Excludes(excludes, p)
  {
    if lo > hi {
      return [];
    }
    var ex := Clamp(lo, hi, excludes);
    var sorted := SortByStart(ex);
    SameRanges(sorted, ex);
    assert forall p :: Covers(sorted, p) <==> Covers(ex, p);
    var merged := Merge(sorted, lo, hi);
    out := Gaps(lo, hi, merged);
  }

  /** The canonical form is determined by what it covers: no other list of ranges would do. */
  lemma {:induction false} CanonicalIsUnique(a: seq<Range>, b: seq<Range>)
    requires Canonical(a) && Canonical(b)
    requires forall p :: Covers(a, p) <==> Covers(b, p)
    ensures a == b
    decreases |a|
  {
    if a == [] {
      if b != [] {
        CoversStart(b);
      }
    } else {
      SameFirst(a, b);
      forall p ensures Covers(a[1..], p) <==> Covers(b[1..], p) {
        CoversRest(a, p);
        CoversRest(b, p);
      }
      CanonicalIsUnique(a[1..], b[1..]);
      assert a == [a[0]] + a[1..] && b == [b[0]] + b[1..];
    }
  }

  lemma CoversRest(a: seq<Range>, p: int)
    requires a != [] && Canonical(a)
    ensures Covers(a[1..], p) <==> Covers(a, p) && p > a[0].hi
  {
    if Covers(a, p) && p > a[0].hi {
      var r :| r in a && In(p, r);
      var k :| 0 <= k < |a| && a[k] == r;
      assert a[1..][k - 1] == r;
    }
    if Covers(a[1..], p) {
      var r :| r in a[1..] && In(p, r);
      var k :| 0 <= k < |a| - 1 && a[1..][k] == r;
      assert a[k + 1] == r && r in a;
    }
  }

  /** The first port covered, and the first not covered after it, are the ends of the first range. */
  lemma {:induction false} SameFirst(a: seq<Range>, b: seq<Range>)
    requires a != [] && Canonical(a) && Canonical(b)
    requires forall p :: Covers(a, p) <==> Covers(b, p)
    ensures b != [] && a[0] == b[0]
  {
    assert a[0] in a;
    assert Covers(a, a[0].lo) && Covers(b, a[0].lo);
    assert b != [] && b[0] in b;
    assert Covers(b, b[0].lo) && Covers(a, b[0].lo);
    NothingBelow(a, b[0].lo);
    NothingBelow(b, a[0].lo);
    GapAfterFirst(a);
    GapAfterFirst(b);
    assert In(a[0].hi, a[0]) && In(b[0].hi, b[0]);
    FirstIsCovered(a, b[0].hi);
    FirstIsCovered(b, a[0].hi);
  }

  /** If the first range reached further than `h`, the port after `h` would be covered. */
  lemma FirstIsCovered(a: seq<Range>, h: int)
    requires a != []
    ensures a[0].lo <= h < a[0].hi ==> Covers(a, h + 1)
  {
    assert a[0] in a;
    if a[0].lo <= h < a[0].hi {
      assert In(h + 1, a[0]);
    }
  }

  lemma CoversStart(a: seq<Range>)
    requires a != [] && Canonical(a)
    ensures Covers(a, a[0].lo)
  {
    assert a[0] in a && In(a[0].lo, a[0]);
  }

  lemma NothingBelow(a: seq<Range>, p: int)
    requires a != [] && Canonical(a) && Covers(a, p)
    ensures a[0].lo <= p
  {}

  lemma GapAfterFirst(a: seq<Range>)
    requires a != [] && Canonical(a)
    ensures !Covers(a, a[0].hi + 1)
  {}
}

/** Which public ports a tunnel may use. */
module PortPolicy {
  import opened Options
  import opened Ranges

  const PORT_SSH := 22
  const PORT_FRPS_BIND := 7000
  const PORT_AGENT_MGMT := 8443
  const ADMIN_LOW := 7400
  const ADMIN_HIGH := 7500

  datatype Reserved = SSH | FrpsBind | AgentMgmt | FrpcAdmin | LowPort

  datatype PortError = OutOfRange | IsReserved(reason: Reserved)

  function ReservedReason(port: int): (why: Option<Reserved>)
    ensures (why == Some(SSH) <==> port == 22) && (why == Some(FrpsBind) <==> port == 7000)
    ensures (why == Some(AgentMgmt) <==> port == 8443) && (why == Some(FrpcAdmin) <==> 7400 <= port <= 7500)
    ensures why == Some(LowPort) <==> port < 1024 && port != 22
  {
    if port == PORT_SSH then Some(SSH)
    else if port == PORT_FRPS_BIND then Some(FrpsBind)
    else if port == PORT_AGENT_MGMT then Some(AgentMgmt)
    else if ADMIN_LOW <= port <= ADMIN_HIGH then Some(FrpcAdmin)
    else if port < 1024 then Some(LowPort)
    else None
  }

  function ValidateRemotePort(port: int): (r: Result<(), PortError>)
    ensures r.Ok? <==> 1024 <= port <= 65535 && port != 7000 && port != 8443 && !(7400 <= port <= 7500)
    ensures r == Err(OutOfRange) <==> port < 1 || port > 65535
  {
    if port < 1 || port > 65535 then Err(OutOfRange)
    else match ReservedReason(port)
         case Some(why) => Err(IsReserved(why))
         case None => Ok(())
  }

  /** The ranges written to the node's frps configuration: exactly the ports that the panel accepts for tunnels,
      without the port of frps's own dashboard. */
  method FrpsAllowPorts(adminPort: int) returns (out: seq<Range>)
    ensures Canonical(out)
    ensures forall p :: Covers(out, p) <==> ValidateRemotePort(p).Ok? && p != adminPort
  {
    var reserved := [Range(7000, 7000), Range(8443, 8443), Range(7400, 7500), Range(adminPort, adminPort)];
    out := AllowedRanges(1024, 65535, reserved);
    forall p
      ensures Excludes(reserved, p) <==> p == 7000 || p == 8443 || 7400 <= p <= 7500 || p == adminPort
    {
      assert reserved[0] in reserved && reserved[1] in reserved && reserved[2] in reserved && reserved[3] in reserved;
    }
  }
}
