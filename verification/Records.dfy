/** The record the agent logs every five seconds, and the byte totals that the
    panel derives from it. */
module Records {

  /** Byte increments of one tunnel within a sample. */
  datatype ProxyDelta = ProxyDelta(remotePort: int, proto: string, bytesIn: int, bytesOut: int, status: string)

  /** The traffic slice of one sample: what the log holds and what a metrics
      message carries, live or replayed. */
  datatype TrafficRec = TrafficRec(seqNo: int, atMs: int, nodeRx: int, nodeTx: int, proxies: seq<ProxyDelta>)

  /** Byte totals of one node and one day (both scopes). */
  datatype Traffic = Traffic(nodeRx: int, nodeTx: int, tunIn: int, tunOut: int) {
    function Plus(t: Traffic): Traffic {
      Traffic(nodeRx + t.nodeRx, nodeTx + t.nodeTx, tunIn + t.tunIn, tunOut + t.tunOut)
    }
  }

  const ZERO := Traffic(0, 0, 0, 0)

  /** Days are numbered from the epoch in UTC+8; the program prints the number as a date. */
  type Day = int

  const DAY_MS := 86_400_000
  const SHANGHAI_OFFSET_MS := 28_800_000

  function ShanghaiDay(atMs: int): Day {
    (atMs + SHANGHAI_OFFSET_MS) / DAY_MS
  }

  /** Day `d` in UTC+8 runs from midnight to midnight. */
  predicate IsOn(atMs: int, d: Day) {
    d * 86_400_000 <= atMs + 8 * 3_600_000 < (d + 1) * 86_400_000
  }

  lemma {:induction false} DayIff(atMs: int, d: Day)
    ensures ShanghaiDay(atMs) == d <==> IsOn(atMs, d)
  {}

  function DayOf(r: TrafficRec): Day {
    ShanghaiDay(r.atMs)
  }

  function TunnelIn(ps: seq<ProxyDelta>): int {
    if ps == [] then 0 else ps[0].bytesIn + TunnelIn(ps[1..])
  }

  function TunnelOut(ps: seq<ProxyDelta>): int {
    if ps == [] then 0 else ps[0].bytesOut + TunnelOut(ps[1..])
  }

  /** What one record adds to its day: every tunnel counts, also one reported with port 0. */
  function Delta(r: TrafficRec): Traffic {
    Traffic(r.nodeRx, r.nodeTx, TunnelIn(r.proxies), TunnelOut(r.proxies))
  }

  /** The bytes that the records of `rs` add to day `d`. */
  function SumDay(rs: seq<TrafficRec>, d: Day): Traffic {
    if rs == [] then ZERO
    else
      var rest := SumDay(rs[..|rs| - 1], d);
      if DayOf(rs[|rs| - 1]) == d then rest.Plus(Delta(rs[|rs| - 1])) else rest
  }

  function OfDay(rs: seq<TrafficRec>, d: Day): seq<TrafficRec> {
    if rs == [] then []
    else OfDay(rs[..|rs| - 1], d) + (if DayOf(rs[|rs| - 1]) == d then [rs[|rs| - 1]] else [])
  }

  function NotOfDay(rs: seq<TrafficRec>, d: Day): seq<TrafficRec> {
    if rs == [] then []
    else NotOfDay(rs[..|rs| - 1], d) + (if DayOf(rs[|rs| - 1]) == d then [] else [rs[|rs| - 1]])
  }

  /** A daily table: a day without a row counts as zero. */
  function At(m: map<Day, Traffic>, d: Day): Traffic {
    if d in m then m[d] else ZERO
  }

  /** Add to a day's entry, creating it when absent (the bucket and the upsert alike). */
  function AddTo(m: map<Day, Traffic>, d: Day, t: Traffic): map<Day, Traffic> {
    m[d := At(m, d).Plus(t)]
  }

  function NonZeroRows(m: map<Day, Traffic>): map<Day, Traffic> {
    map d | d in m && m[d] != ZERO :: m[d]
  }

  function SeqNos(rs: seq<TrafficRec>): set<int> {
    set r | r in rs :: r.seqNo
  }

  /** Strictly ascending numbers, the order the log is written and replayed in. */
  ghost predicate Ascending(rs: seq<TrafficRec>) {
    forall i, j :: 0 <= i < j < |rs| ==> rs[i].seqNo < rs[j].seqNo
  }

  /** The records past a watermark, in order. */
  function Newer(rs: seq<TrafficRec>, after: int): seq<TrafficRec> {
    if rs == [] then []
    else Newer(rs[..|rs| - 1], after) + (if rs[|rs| - 1].seqNo > after then [rs[|rs| - 1]] else [])
  }

  /** The records up to and including a watermark, in order. */
  function UpTo(rs: seq<TrafficRec>, mark: int): seq<TrafficRec> {
    if rs == [] then []
    else UpTo(rs[..|rs| - 1], mark) + (if rs[|rs| - 1].seqNo <= mark then [rs[|rs| - 1]] else [])
  }

  /** The age filter of log rotation. */
  function Young(rs: seq<TrafficRec>, cutoff: int): seq<TrafficRec> {
    if rs == [] then []
    else Young(rs[..|rs| - 1], cutoff) + (if rs[|rs| - 1].atMs >= cutoff then [rs[|rs| - 1]] else [])
  }

  lemma {:induction false} SumDayConcat(a: seq<TrafficRec>, b: seq<TrafficRec>, d: Day)
    ensures SumDay(a + b, d) == SumDay(a, d).Plus(SumDay(b, d))
  {
    if b == [] {
      assert a + b == a;
    } else {
      var ab := a + b;
      assert ab[..|ab| - 1] == a + b[..|b| - 1];
      SumDayConcat(a, b[..|b| - 1], d);
    }
  }

  lemma {:induction false} DayMembers(rs: seq<TrafficRec>, d: Day, r: TrafficRec)
    ensures r in OfDay(rs, d) <==> r in rs && DayOf(r) == d
    ensures r in NotOfDay(rs, d) <==> r in rs && DayOf(r) != d
  {
    if rs != [] {
      DayMembers(rs[..|rs| - 1], d, r);
      assert r in rs <==> r in rs[..|rs| - 1] || r == rs[|rs| - 1];
    }
  }

  lemma {:induction false} DayCounts(rs: seq<TrafficRec>, d: Day)
    ensures multiset(rs) == multiset(OfDay(rs, d)) + multiset(NotOfDay(rs, d))
  {
    if rs != [] {
      var init, last := rs[..|rs| - 1], rs[|rs| - 1];
      DayCounts(init, d);
      assert rs == init + [last];
      if DayOf(last) == d {
        assert OfDay(rs, d) == OfDay(init, d) + [last] && NotOfDay(rs, d) == NotOfDay(init, d);
      } else {
        assert OfDay(rs, d) == OfDay(init, d) && NotOfDay(rs, d) == NotOfDay(init, d) + [last];
      }
    }
  }

  lemma {:induction false} SplitByDay(rs: seq<TrafficRec>, d: Day)
    ensures multiset(rs) == multiset(OfDay(rs, d)) + multiset(NotOfDay(rs, d))
    ensures forall r :: r in OfDay(rs, d) <==> r in rs && DayOf(r) == d
    ensures forall r :: r in NotOfDay(rs, d) <==> r in rs && DayOf(r) != d
  {
    DayCounts(rs, d);
    forall r { DayMembers(rs, d, r); }
  }

  lemma {:induction false} SumOfOne(r: TrafficRec, d: Day)
    ensures SumDay([r], d) == if DayOf(r) == d then Delta(r) else ZERO
  {
    assert [r][..0] == [];
  }

  lemma {:induction false} SumOfSplit(rs: seq<TrafficRec>, d: Day, e: Day)
    ensures SumDay(OfDay(rs, d), e) == if e == d then SumDay(rs, d) else ZERO
    ensures SumDay(NotOfDay(rs, d), e) == if e == d then ZERO else SumDay(rs, e)
  {
    if rs != [] {
      var init, last := rs[..|rs| - 1], rs[|rs| - 1];
      SumOfSplit(init, d, e);
      SumOfOne(last, e);
      if DayOf(last) == d {
        SumDayConcat(OfDay(init, d), [last], e);
        assert NotOfDay(rs, d) == NotOfDay(init, d);
      } else {
        SumDayConcat(NotOfDay(init, d), [last], e);
        assert OfDay(rs, d) == OfDay(init, d);
      }
    }
  }

  lemma {:induction false} PlusSwaps(a: Traffic, b: Traffic, c: Traffic)
    ensures a.Plus(b).Plus(c) == a.Plus(c).Plus(b)
  {}

  lemma {:induction false} SumWithOneMore(l: seq<TrafficRec>, x: TrafficRec, r: seq<TrafficRec>, d: Day)
    ensures SumDay(l + [x] + r, d) == SumDay(l + r, d).Plus(SumDay([x], d))
  {
    var lx := l + [x];
    SumDayConcat(lx, r, d);
    SumDayConcat(l, [x], d);
    SumDayConcat(l, r, d);
    PlusSwaps(SumDay(l, d), SumDay([x], d), SumDay(r, d));
  }

  lemma {:induction false} AroundOne(b: seq<TrafficRec>, x: TrafficRec)
    returns (l: seq<TrafficRec>, r: seq<TrafficRec>)
    requires x in b
    ensures b == l + [x] + r && multiset(b) == multiset(l + r) + multiset{x}
  {
    var k :| 0 <= k < |b| && b[k] == x;
    l, r := b[..k], b[k + 1..];
    assert b == l + [x] + r;
  }

  /** Totals do not depend on the order in which records were added. */
  lemma {:induction false} SumIsOrderFree(a: seq<TrafficRec>, b: seq<TrafficRec>, d: Day)
    requires multiset(a) == multiset(b)
    ensures SumDay(a, d) == SumDay(b, d)
    decreases |a|
  {
    if a == [] {
      assert |multiset(b)| == 0;
    } else {
      var x, init := a[|a| - 1], a[..|a| - 1];
      assert a == init + [x];
      assert x in multiset(b);
      var l, r := AroundOne(b, x);
      assert multiset(a) == multiset(init) + multiset{x};
      assert multiset(init) == multiset(a) - multiset{x} && multiset(l + r) == multiset(b) - multiset{x};
      SumIsOrderFree(init, l + r, d);
      SumWithOneMore(l, x, r, d);
      SumDayConcat(init, [x], d);
    }
  }

  lemma {:induction false} NewerMembers(rs: seq<TrafficRec>, after: int)
    ensures forall r :: r in Newer(rs, after) <==> r in rs && r.seqNo > after
  {
    if rs != [] {
      NewerMembers(rs[..|rs| - 1], after);
      assert rs == rs[..|rs| - 1] + [rs[|rs| - 1]];
    }
  }

  lemma {:induction false} YoungMembers(rs: seq<TrafficRec>, cutoff: int)
    ensures forall r :: r in Young(rs, cutoff) <==> r in rs && r.atMs >= cutoff
    ensures |Young(rs, cutoff)| <= |rs|
  {
    if rs != [] {
      YoungMembers(rs[..|rs| - 1], cutoff);
      assert rs == rs[..|rs| - 1] + [rs[|rs| - 1]];
    }
  }

  lemma {:induction false} AppendAscends(rs: seq<TrafficRec>, r: TrafficRec)
    requires Ascending(rs) && forall x :: x in rs ==> x.seqNo < r.seqNo
    ensures Ascending(rs + [r])
    ensures forall x :: x in rs + [r] <==> x in rs || x == r
  {
    forall i | 0 <= i < |rs| ensures (rs + [r])[i].seqNo < r.seqNo {
      assert rs[i] in rs;
    }
  }

  lemma {:induction false} YoungAscending(rs: seq<TrafficRec>, cutoff: int)
    requires Ascending(rs)
    ensures Ascending(Young(rs, cutoff))
    ensures rs != [] && rs[|rs| - 1].atMs >= cutoff ==>
              Young(rs, cutoff) != [] && Young(rs, cutoff)[|Young(rs, cutoff)| - 1] == rs[|rs| - 1]
  {
    if rs != [] {
      var init, last := rs[..|rs| - 1], rs[|rs| - 1];
      YoungAscending(init, cutoff);
      YoungMembers(init, cutoff);
      forall x | x in Young(init, cutoff) ensures x.seqNo < last.seqNo {
        assert x in init;
      }
      AppendAscends(Young(init, cutoff), last);
    }
  }

  /** Numbered records are distinct, so the log counts every record once. */
  lemma {:induction false} UpToCounts(rs: seq<TrafficRec>, mark: int, r: TrafficRec)
    requires Ascending(rs)
    ensures multiset(UpTo(rs, mark))[r] == if r in rs && r.seqNo <= mark then 1 else 0
  {
    if rs != [] {
      var init, last := rs[..|rs| - 1], rs[|rs| - 1];
      assert rs == init + [last];
      UpToCounts(init, mark, r);
      assert last !in init;
    }
  }
}
