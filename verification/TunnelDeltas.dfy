/** How the agent turns frps's running daily counters into byte increments. */
module TunnelDeltas {
  import opened Collections
  import opened Records

  datatype Proxy = Proxy(proto: string, remotePort: int, todayIn: int, todayOut: int, status: string)

  type Key = (string, int)

  datatype Counters = Counters(bytesIn: int, bytesOut: int)

  datatype Direction = Inbound | Outbound

  function KeyOf(p: Proxy): Key {
    (p.proto, p.remotePort)
  }

  function CountersOf(p: Proxy): Counters {
    Counters(p.todayIn, p.todayOut)
  }

  function Prev(m: map<Key, Counters>, k: Key): Counters {
    if k in m then m[k] else Counters(0, 0)
  }

  /** A counter that has gone down has been reset, and counts from zero. */
  function Increment(was: int, now: int): int {
    if now - was < 0 then now else now - was
  }

  function DeltaAt(m: map<Key, Counters>, p: Proxy): ProxyDelta {
    var was := Prev(m, KeyOf(p));
    ProxyDelta(p.remotePort, p.proto, Increment(was.bytesIn, p.todayIn), Increment(was.bytesOut, p.todayOut), p.status)
  }

  /** The table while a list is gone through, and the increments it yields. */
  function Walk(m: map<Key, Counters>, list: seq<Proxy>): map<Key, Counters> {
    if list == [] then m
    else Walk(m, list[..|list| - 1])[KeyOf(list[|list| - 1]) := CountersOf(list[|list| - 1])]
  }

  function Deltas(m: map<Key, Counters>, list: seq<Proxy>): seq<ProxyDelta> {
    if list == [] then []
    else Deltas(m, list[..|list| - 1]) + [DeltaAt(Walk(m, list[..|list| - 1]), list[|list| - 1])]
  }

  function KeysOf(list: seq<Proxy>): set<Key> {
    set p | p in list :: KeyOf(p)
  }

  /** The table after a sample: what the list says, and nothing else. */
  function Table(m: map<Key, Counters>, list: seq<Proxy>): map<Key, Counters> {
    map k | k in Walk(m, list) && k in KeysOf(list) :: Walk(m, list)[k]
  }

  lemma {:induction false} OneTunnelMore(m: map<Key, Counters>, list: seq<Proxy>, i: nat)
    requires i < |list|
    ensures Walk(m, list[..i + 1]) == Walk(m, list[..i])[KeyOf(list[i]) := CountersOf(list[i])]
    ensures Deltas(m, list[..i + 1]) == Deltas(m, list[..i]) + [DeltaAt(Walk(m, list[..i]), list[i])]
    ensures KeysOf(list[..i + 1]) == KeysOf(list[..i]) + {KeyOf(list[i])}
  {
    assert list[..i + 1][..i] == list[..i];
    assert list[..i + 1] == list[..i] + [list[i]];
  }

  ghost predicate SameTunnel(d: ProxyDelta, p: Proxy) {
    d.remotePort == p.remotePort && d.proto == p.proto && d.status == p.status
  }

  /** Every entry is reported, in its place, with its own port, protocol and status. */
  lemma {:induction false} DeltasFollow(m: map<Key, Counters>, list: seq<Proxy>)
    ensures |Deltas(m, list)| == |list|
    ensures forall i :: 0 <= i < |list| ==> SameTunnel(Deltas(m, list)[i], list[i])
  {
    if list != [] {
      DeltasFollow(m, list[..|list| - 1]);
    }
  }

  class Sampler {
    var lastTun: map<Key, Counters>

    constructor ()
      ensures lastTun == map[]
    {
      lastTun := map[];
    }

    method SampleOne(p: Proxy) returns (d: ProxyDelta)
      modifies this
      ensures d == DeltaAt(old(lastTun), p) && lastTun == old(lastTun)[KeyOf(p) := CountersOf(p)]
    {
      var was := if KeyOf(p) in lastTun then lastTun[KeyOf(p)] else Counters(0, 0);
      var din, dout := p.todayIn - was.bytesIn, p.todayOut - was.bytesOut;
      if din < 0 {
        din := p.todayIn;
      }
      if dout < 0 {
        dout := p.todayOut;
      }
      lastTun := lastTun[KeyOf(p) := Counters(p.todayIn, p.todayOut)];
      d := ProxyDelta(p.remotePort, p.proto, din, dout, p.status);
    }

    method Sample(list: seq<Proxy>) returns (deltas: seq<ProxyDelta>)
      modifies this
      ensures deltas == Deltas(old(lastTun), list)
      ensures lastTun == Table(old(lastTun), list)
      ensures |deltas| == |list| && forall i :: 0 <= i < |list| ==> SameTunnel(deltas[i], list[i])
    {
      var seen: set<Key> := {};
      deltas := [];
      for i := 0 to |list|
        invariant lastTun == Walk(old(lastTun), list[..i])
        invariant deltas == Deltas(old(lastTun), list[..i])
        invariant seen == KeysOf(list[..i])
      {
        OneTunnelMore(old(lastTun), list, i);
        seen := seen + {KeyOf(list[i])};
        var d := SampleOne(list[i]);
        deltas := deltas + [d];
      }
      assert list[..|list|] == list;
      DeltasFollow(old(lastTun), list);
      DropUnseen(seen);
    }

    method DropUnseen(seen: set<Key>)
      modifies this
      ensures lastTun == map k | k in old(lastTun) && k in seen :: old(lastTun)[k]
    {
      var todo := lastTun.Keys;
      while todo != {}
        invariant todo <= old(lastTun).Keys
        invariant lastTun == map k | k in old(lastTun) && (k in seen || k in todo) :: old(lastTun)[k]
        decreases todo
      {
        var k := AnyOf(todo);
        if k !in seen {
          lastTun := lastTun - {k};
        }
        todo := todo - {k};
      }
    }
  }

  // ----- one sample -----

  function Count(p: Proxy, dir: Direction): int {
    if dir.Inbound? then p.todayIn else p.todayOut
  }

  function Held(c: Counters, dir: Direction): int {
    if dir.Inbound? then c.bytesIn else c.bytesOut
  }

  function Bytes(d: ProxyDelta, dir: Direction): int {
    if dir.Inbound? then d.bytesIn else d.bytesOut
  }

  /** The counter that a list reports for a key; a key that is not listed counts as zero. */
  function Value(list: seq<Proxy>, k: Key, dir: Direction): int {
    if list == [] then 0
    else if KeyOf(list[|list| - 1]) == k then Count(list[|list| - 1], dir)
    else Value(list[..|list| - 1], k, dir)
  }

  ghost predicate Distinct(list: seq<Proxy>) {
    forall i, j :: 0 <= i < j < |list| ==> KeyOf(list[i]) != KeyOf(list[j])
  }

  ghost predicate Counting(list: seq<Proxy>) {
    forall p :: p in list ==> p.todayIn >= 0 && p.todayOut >= 0
  }

  lemma {:induction false} WalkKeeps(m: map<Key, Counters>, list: seq<Proxy>)
    ensures Walk(m, list).Keys == m.Keys + KeysOf(list)
    ensures forall k :: k in m && k !in KeysOf(list) ==> Walk(m, list)[k] == m[k]
  {
    if list != [] {
      WalkKeeps(m, list[..|list| - 1]);
      KeysGrow(list);
    }
  }

  lemma {:induction false} KeysGrow(list: seq<Proxy>)
    requires list != []
    ensures KeysOf(list) == KeysOf(list[..|list| - 1]) + {KeyOf(list[|list| - 1])}
  {
    assert list == list[..|list| - 1] + [list[|list| - 1]];
    assert forall p :: p in list <==> p in list[..|list| - 1] || p == list[|list| - 1];
  }

  lemma {:induction false} WalkShows(m: map<Key, Counters>, list: seq<Proxy>, k: Key, dir: Direction)
    requires k in KeysOf(list)
    ensures k in Walk(m, list) && Held(Walk(m, list)[k], dir) == Value(list, k, dir)
  {
    KeysGrow(list);
    if KeyOf(list[|list| - 1]) != k {
      WalkShows(m, list[..|list| - 1], k, dir);
    }
  }

  lemma {:induction false} NotListed(list: seq<Proxy>, k: Key, dir: Direction)
    requires k !in KeysOf(list)
    ensures Value(list, k, dir) == 0
  {
    if list != [] {
      KeysGrow(list);
      NotListed(list[..|list| - 1], k, dir);
    }
  }

  /** After a sample the table holds exactly the listed keys, each with the counter that was listed last. */
  lemma {:induction false} TableIsTheList(m: map<Key, Counters>, list: seq<Proxy>)
    ensures Table(m, list).Keys == KeysOf(list)
    ensures forall k, dir :: Held(Prev(Table(m, list), k), dir) == Value(list, k, dir)
  {
    WalkKeeps(m, list);
    forall k, dir ensures Held(Prev(Table(m, list), k), dir) == Value(list, k, dir) {
      if k in KeysOf(list) {
        WalkShows(m, list, k, dir);
      } else {
        NotListed(list, k, dir);
      }
    }
  }

  /** The bytes that a sample reports for a key. */
  function Reported(ds: seq<ProxyDelta>, k: Key, dir: Direction): int {
    if ds == [] then 0
    else
      var d := ds[|ds| - 1];
      Reported(ds[..|ds| - 1], k, dir) + (if (d.proto, d.remotePort) == k then Bytes(d, dir) else 0)
  }

  lemma {:induction false} ReportedOne(ds: seq<ProxyDelta>, d: ProxyDelta, k: Key, dir: Direction)
    ensures Reported(ds + [d], k, dir) ==
            Reported(ds, k, dir) + if (d.proto, d.remotePort) == k then Bytes(d, dir) else 0
  {
    assert (ds + [d])[..|ds|] == ds;
  }

  lemma {:induction false} NoneReported(m: map<Key, Counters>, list: seq<Proxy>, k: Key, dir: Direction)
    requires k !in KeysOf(list)
    ensures Reported(Deltas(m, list), k, dir) == 0
  {
    if list != [] {
      var init, last := list[..|list| - 1], list[|list| - 1];
      KeysGrow(list);
      NoneReported(m, init, k, dir);
      ReportedOne(Deltas(m, init), DeltaAt(Walk(m, init), last), k, dir);
    }
  }

  lemma {:induction false} PrevUntouched(m: map<Key, Counters>, list: seq<Proxy>, k: Key)
    requires k !in KeysOf(list)
    ensures Prev(Walk(m, list), k) == Prev(m, k)
  {
    WalkKeeps(m, list);
  }

  /** With distinct keys a sample reports for each key the increment over what the table held. */
  lemma {:induction false} ReportsIncrement(m: map<Key, Counters>, list: seq<Proxy>, k: Key, dir: Direction)
    requires Distinct(list) && Counting(list) && Held(Prev(m, k), dir) >= 0
    ensures Reported(Deltas(m, list), k, dir) == Increment(Held(Prev(m, k), dir), Value(list, k, dir))
  {
    if list != [] {
      var init, last := list[..|list| - 1], list[|list| - 1];
      ReportedOne(Deltas(m, init), DeltaAt(Walk(m, init), last), k, dir);
      if KeyOf(last) == k {
        assert k !in KeysOf(init);
        NoneReported(m, init, k, dir);
        PrevUntouched(m, init, k);
      } else {
        ReportsIncrement(m, init, k, dir);
      }
    }
  }

  /** No increment is negative, duplicate keys or not. */
  lemma {:induction false} DeltasAreNotNegative(m: map<Key, Counters>, list: seq<Proxy>)
    requires Counting(list)
    ensures forall d :: d in Deltas(m, list) ==> d.bytesIn >= 0 && d.bytesOut >= 0
  {
    if list != [] {
      DeltasAreNotNegative(m, list[..|list| - 1]);
    }
  }

  // ----- runs -----

  /** The table after a run of samples from an empty one. */
  function TableAfter(run: seq<seq<Proxy>>): map<Key, Counters> {
    if run == [] then map[] else Table(TableAfter(run[..|run| - 1]), run[|run| - 1])
  }

  /** The bytes reported for a key over a run. */
  function ReportedInAll(run: seq<seq<Proxy>>, k: Key, dir: Direction): int {
    if run == [] then 0
    else
      ReportedInAll(run[..|run| - 1], k, dir) +
      Reported(Deltas(TableAfter(run[..|run| - 1]), run[|run| - 1]), k, dir)
  }

  function LastValue(run: seq<seq<Proxy>>, k: Key, dir: Direction): int {
    if run == [] then 0 else Value(run[|run| - 1], k, dir)
  }

  /** The values that a key's counter held each time before it went down. */
  function Resets(run: seq<seq<Proxy>>, k: Key, dir: Direction): int {
    if run == [] then 0
    else
      var init := run[..|run| - 1];
      Resets(init, k, dir) +
      (if Value(run[|run| - 1], k, dir) < LastValue(init, k, dir) then LastValue(init, k, dir) else 0)
  }

  lemma {:induction false} TableShowsLast(run: seq<seq<Proxy>>, k: Key, dir: Direction)
    ensures Held(Prev(TableAfter(run), k), dir) == LastValue(run, k, dir)
  {
    if run != [] {
      TableIsTheList(TableAfter(run[..|run| - 1]), run[|run| - 1]);
    }
  }

  lemma {:induction false} ValueIsCounted(list: seq<Proxy>, k: Key, dir: Direction)
    requires Counting(list)
    ensures Value(list, k, dir) >= 0
  {
    if list != [] {
      ValueIsCounted(list[..|list| - 1], k, dir);
    }
  }

  /** The increments telescope: over any run a key's increments add up to its last counter and what the counter held
      each time before it was reset, with an absence counting as a reset. */
  lemma {:induction false} IncrementsTelescope(run: seq<seq<Proxy>>, k: Key, dir: Direction)
    requires forall list :: list in run ==> Distinct(list) && Counting(list)
    ensures ReportedInAll(run, k, dir) == LastValue(run, k, dir) + Resets(run, k, dir)
  {
    if run != [] {
      var init, last := run[..|run| - 1], run[|run| - 1];
      IncrementsTelescope(init, k, dir);
      TableShowsLast(init, k, dir);
      if init != [] {
        ValueIsCounted(init[|init| - 1], k, dir);
      }
      ReportsIncrement(TableAfter(init), last, k, dir);
    }
  }

  // ----- lists with a key twice -----

  ghost predicate Quiet(ds: seq<ProxyDelta>) {
    forall d :: d in ds ==> d.bytesIn == 0 && d.bytesOut == 0
  }

  /** Entries with the same key agree. */
  ghost predicate Consistent(list: seq<Proxy>) {
    forall i, j :: 0 <= i < |list| && 0 <= j < |list| && KeyOf(list[i]) == KeyOf(list[j]) ==>
                     CountersOf(list[i]) == CountersOf(list[j])
  }

  /** Going through a list without an increment only lowers what the table holds. */
  lemma {:induction false} QuietLowers(m: map<Key, Counters>, list: seq<Proxy>, i: nat, k: Key, dir: Direction)
    requires i <= |list| && Quiet(Deltas(m, list)) && k in Walk(m, list[..i]) && k in KeysOf(list[..i]) + m.Keys
    ensures k in Walk(m, list) && Held(Walk(m, list)[k], dir) <= Held(Walk(m, list[..i])[k], dir)
    decreases |list| - i
  {
    if i == |list| {
      assert list[..i] == list;
    } else {
      var init, last := list[..|list| - 1], list[|list| - 1];
      assert init[..i] == list[..i];
      assert forall d :: d in Deltas(m, init) ==> d in Deltas(m, list);
      QuietLowers(m, init, i, k, dir);
      assert DeltaAt(Walk(m, init), last) in Deltas(m, list);
    }
  }

  lemma {:induction false} QuietPrefix(m: map<Key, Counters>, list: seq<Proxy>, i: nat)
    requires i <= |list| && Quiet(Deltas(m, list))
    ensures Quiet(Deltas(m, list[..i]))
    decreases |list| - i
  {
    if i == |list| {
      assert list[..i] == list;
    } else {
      var init := list[..|list| - 1];
      assert init[..i] == list[..i];
      assert forall d :: d in Deltas(m, init) ==> d in Deltas(m, list);
      QuietPrefix(m, init, i);
    }
  }

  lemma {:induction false} WalkAfter(m: map<Key, Counters>, list: seq<Proxy>, i: nat)
    requires i < |list|
    ensures Walk(m, list[..i + 1]) == Walk(m, list[..i])[KeyOf(list[i]) := CountersOf(list[i])]
    ensures KeyOf(list[i]) in KeysOf(list[..i + 1])
  {
    assert list[..i + 1][..i] == list[..i];
    assert list[..i + 1][i] in list[..i + 1];
  }

  /** In a quiet repeat every entry agrees with the table that the list itself has left. */
  lemma {:induction false} QuietEntryAgrees(m: map<Key, Counters>, list: seq<Proxy>, i: nat, dir: Direction)
    requires i < |list| && m.Keys == KeysOf(list) && Quiet(Deltas(m, list))
    requires forall k :: k in m ==> Held(m[k], dir) == Value(list, k, dir)
    ensures KeyOf(list[i]) in m && Count(list[i], dir) == Held(m[KeyOf(list[i])], dir)
  {
    var k := KeyOf(list[i]);
    assert list[i] in list && k in KeysOf(list);
    WalkAfter(m, list, i);
    QuietLowers(m, list, i + 1, k, dir);
    WalkShows(m, list, k, dir);
    QuietPrefix(m, list, i + 1);
    QuietLowers(m, list[..i + 1], 0, k, dir);
  }

  lemma {:induction false} AgreeingIsQuiet(m: map<Key, Counters>, list: seq<Proxy>)
    requires forall p :: p in list ==> KeyOf(p) in m && m[KeyOf(p)] == CountersOf(p)
    ensures Walk(m, list) == m && Quiet(Deltas(m, list))
  {
    if list != [] {
      AgreeingIsQuiet(m, list[..|list| - 1]);
    }
  }

  lemma {:induction false} TableHoldsAnEntry(list: seq<Proxy>, k: Key, m: map<Key, Counters>) returns (p: Proxy)
    requires k in KeysOf(list)
    ensures p in list && KeyOf(p) == k && k in Walk(m, list) && Walk(m, list)[k] == CountersOf(p)
  {
    KeysGrow(list);
    p := list[|list| - 1];
    if KeyOf(p) != k {
      p := TableHoldsAnEntry(list[..|list| - 1], k, m);
    }
  }

  /** Sampling a list again at once, with no traffic in between, reports no bytes exactly if entries with the same key
      have the same counters. Several tunnels without a port share a key, and their counters differ: then bytes that
      never flowed are reported with every sample. */
  lemma {:induction false} RepeatIsQuietIff(before: map<Key, Counters>, list: seq<Proxy>)
    ensures Quiet(Deltas(Table(before, list), list)) <==> Consistent(list)
  {
    var m := Table(before, list);
    TableIsTheList(before, list);
    if Quiet(Deltas(m, list)) {
      forall k, dir | k in m ensures Held(m[k], dir) == Value(list, k, dir) {
        assert Held(Prev(m, k), dir) == Value(list, k, dir);
      }
      forall i | 0 <= i < |list| ensures KeyOf(list[i]) in m && CountersOf(list[i]) == m[KeyOf(list[i])] {
        QuietEntryAgrees(m, list, i, Inbound);
        QuietEntryAgrees(m, list, i, Outbound);
      }
    }
    if Consistent(list) {
      forall p | p in list ensures KeyOf(p) in m && m[KeyOf(p)] == CountersOf(p) {
        var q := TableHoldsAnEntry(list, KeyOf(p), before);
        assert KeyOf(p) in KeysOf(list);
      }
      AgreeingIsQuiet(m, list);
    }
  }

  lemma {:induction false} WalkOfTwo(m: map<Key, Counters>, p: Proxy, q: Proxy)
    ensures Walk(m, [p, q]) == m[KeyOf(p) := CountersOf(p)][KeyOf(q) := CountersOf(q)]
    ensures Deltas(m, [p, q]) == [DeltaAt(m, p), DeltaAt(m[KeyOf(p) := CountersOf(p)], q)]
  {
    assert [p, q][..1] == [p] && [p][..0] == [];
    assert Walk(m, []) == m && Deltas(m, []) == [];
    assert Walk(m, [p]) == m[KeyOf(p) := CountersOf(p)] && Deltas(m, [p]) == [DeltaAt(m, p)];
    assert [p, q][1] == q;
  }

  const TWO_PORTLESS := [Proxy("tcp", 0, 10, 0, ""), Proxy("tcp", 0, 30, 0, "")]

  /** Two tunnels without a port that nothing flows through: every repeated sample reports bytes for both. */
  lemma {:induction false} PortlessTunnelsReport(before: map<Key, Counters>)
    ensures Deltas(Table(before, TWO_PORTLESS), TWO_PORTLESS) ==
            [ProxyDelta(0, "tcp", 10, 0, ""), ProxyDelta(0, "tcp", 20, 0, "")]
  {
    var m := Table(before, TWO_PORTLESS);
    WalkOfTwo(before, TWO_PORTLESS[0], TWO_PORTLESS[1]);
    assert TWO_PORTLESS[1] in TWO_PORTLESS;
    assert m[("tcp", 0)] == Counters(30, 0);
    WalkOfTwo(m, TWO_PORTLESS[0], TWO_PORTLESS[1]);
  }
}
