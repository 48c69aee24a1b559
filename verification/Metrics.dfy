/** The panel's ring of recent samples and its watermark. */
module Metrics {
  import opened Numbers
  import A = Accounting

  datatype Sample = Sample(atMs: int, cpu: real, mem: real, rxBps: int, txBps: int, tunInBps: int, tunOutBps: int)

  /** Accepts a number once, and only in ascending order. */
  class SeqTracker {
    var last: int

    constructor (last: int)
      ensures this.last == last
    {
      this.last := last;
    }

    method Accept(n: int) returns (ok: bool)
      modifies this
      ensures ok <==> A.IsNew(old(last), n)
      ensures last == Max(old(last), n)
    {
      if n <= last {
        return false;
      }
      last := n;
      ok := true;
    }
  }

  /** The watermark after offering these numbers in turn, and which of them it lets through. */
  function After(last: int, ns: seq<int>): int {
    if ns == [] then last else Max(After(last, ns[..|ns| - 1]), ns[|ns| - 1])
  }

  function Passed(last: int, ns: seq<int>): seq<int> {
    if ns == [] then []
    else
      var init, n := ns[..|ns| - 1], ns[|ns| - 1];
      Passed(last, init) + (if A.IsNew(After(last, init), n) then [n] else [])
  }

  /** What passes is strictly ascending above the watermark, so no number passes twice; and a number fails exactly when
      it, or a later one, is already covered. */
  lemma {:induction false} PassedOnceInOrder(last: int, ns: seq<int>)
    ensures forall i, j :: 0 <= i < j < |Passed(last, ns)| ==> Passed(last, ns)[i] < Passed(last, ns)[j]
    ensures forall n :: n in Passed(last, ns) ==> last < n <= After(last, ns)
    ensures forall n :: n in ns ==> n <= After(last, ns)
    ensures After(last, ns) == last || After(last, ns) in Passed(last, ns)
  {
    if ns != [] {
      var init, n := ns[..|ns| - 1], ns[|ns| - 1];
      PassedOnceInOrder(last, init);
      assert ns == init + [n];
      var p := Passed(last, init);
      assert forall i :: 0 <= i < |p| ==> p[i] in p;
    }
  }

  /** Numbers offered in ascending order above the watermark all pass: a replay loses nothing to the tracker. */
  lemma {:induction false} AscendingAllPass(last: int, ns: seq<int>)
    requires forall i, j :: 0 <= i < j < |ns| ==> ns[i] < ns[j]
    requires forall i :: 0 <= i < |ns| ==> last < ns[i]
    ensures Passed(last, ns) == ns
    ensures ns != [] ==> After(last, ns) == ns[|ns| - 1]
  {
    if ns != [] {
      var init := ns[..|ns| - 1];
      AscendingAllPass(last, init);
      assert ns == init + [ns[|ns| - 1]];
    }
  }

  function Recent<T>(s: seq<T>, n: nat): seq<T> {
    if |s| <= n then s else s[|s| - n..]
  }

  /** The samples that remain when all before the first one not older than `since` are left out. */
  function From(s: seq<Sample>, since: int): seq<Sample> {
    if s != [] && s[0].atMs < since then From(s[1..], since) else s
  }

  function NotOlder(s: seq<Sample>, since: int): seq<Sample> {
    if s == [] then []
    else (if s[0].atMs >= since then [s[0]] else []) + NotOlder(s[1..], since)
  }

  /** The slot `j` places before the head, going round. */
  function Back(head: nat, j: nat, n: nat): nat
    requires head < n && j <= n
  {
    if j <= head then head - j else head - j + n
  }

  function FromEnd<T>(s: seq<T>, j: nat): T
    requires 1 <= j <= |s|
  {
    s[|s| - j]
  }

  lemma {:induction false} ModOnce(x: int, n: int)
    requires 0 < n && 0 <= x < 2 * n
    ensures x % n == if x < n then x else x - n
  {
    assert x == (x / n) * n + x % n;
  }

  /** A fixed-length circular buffer. */
  class Ring {
    const buf: array<Sample>
    var head: nat
    var size: nat
    ghost var added: seq<Sample>

    /** The newest samples added are in the buffer, the latest right before the head. */
    ghost predicate Valid()
      reads this, buf
    {
      && buf.Length > 0 && head < buf.Length
      && size == (if |added| < buf.Length then |added| else buf.Length)
      && forall j :: 1 <= j <= size ==> buf[Back(head, j, buf.Length)] == FromEnd(added, j)
    }

    constructor (capacity: int)
      ensures Valid() && added == [] && buf.Length == (if capacity < 1 then 1 else capacity) && fresh(buf)
    {
      var n := if capacity < 1 then 1 else capacity;
      buf := new Sample[n](_ => Sample(0, 0.0, 0.0, 0, 0, 0, 0));
      head, size, added := 0, 0, [];
    }

    method Add(s: Sample)
      requires Valid()
      modifies this, buf
      ensures Valid() && added == old(added) + [s]
    {
      ghost var h, before := head, buf[..];
      buf[head] := s;
      head := (head + 1) % buf.Length;
      if size < buf.Length {
        size := size + 1;
      }
      added := added + [s];
      ModOnce(h + 1, buf.Length);
      forall j | 1 <= j <= size
        ensures buf[Back(head, j, buf.Length)] == FromEnd(added, j)
      {
        if j > 1 {
          assert Back(head, j, buf.Length) == Back(h, j - 1, buf.Length) != h;
          assert before[Back(h, j - 1, buf.Length)] == FromEnd(old(added), j - 1);
        }
      }
    }

    /** Exactly the last samples added, oldest first, as many as the ring holds. */
    method Snapshot() returns (out: seq<Sample>)
      requires Valid()
      ensures out == Recent(added, buf.Length)
    {
      out := [];
      var start := (head - size + buf.Length) % buf.Length;
      for i := 0 to size
        invariant out == added[|added| - size..|added| - size + i]
      {
        ModOnce(head - size + buf.Length, buf.Length);
        ModOnce(start + i, buf.Length);
        assert (start + i) % buf.Length == Back(head, size - i, buf.Length);
        assert buf[Back(head, size - i, buf.Length)] == FromEnd(added, size - i);
        out := out + [buf[(start + i) % buf.Length]];
      }
    }

    method Since(since: int) returns (out: seq<Sample>)
      requires Valid()
      ensures out == From(Recent(added, buf.Length), since)
    {
      var all := Snapshot();
      var i := 0;
      assert all[0..] == all;
      while i < |all| && all[i].atMs < since
        invariant 0 <= i <= |all|
        invariant From(all[i..], since) == From(all, since)
      {
        assert all[i..][1..] == all[i + 1..];
        i := i + 1;
      }
      out := all[i..];
    }
  }

  lemma {:induction false} FilterKeepsAllIff(s: seq<Sample>, since: int)
    ensures |NotOlder(s, since)| <= |s|
    ensures NotOlder(s, since) == s <==> forall i :: 0 <= i < |s| ==> s[i].atMs >= since
  {
    if s != [] {
      FilterKeepsAllIff(s[1..], since);
      assert s == [s[0]] + s[1..];
      if s[0].atMs >= since {
        assert NotOlder(s, since)[1..] == NotOlder(s[1..], since);
        assert forall i :: 0 <= i < |s| - 1 ==> s[1..][i] == s[i + 1];
      }
    }
  }

  /** No sample that is too old comes after one that is not. */
  ghost predicate OldOnesFirst(s: seq<Sample>, since: int) {
    forall i, j :: 0 <= i < j < |s| && s[i].atMs >= since ==> s[j].atMs >= since
  }

  /** Leaving out a prefix is the same as filtering by time exactly if the samples that are too old are all in front. */
  lemma {:induction false} SinceFiltersIff(s: seq<Sample>, since: int)
    ensures From(s, since) == NotOlder(s, since) <==> OldOnesFirst(s, since)
  {
    if s != [] && s[0].atMs < since {
      SinceFiltersIff(s[1..], since);
      TooOldInFront(s, since);
    } else {
      FilterKeepsAllIff(s, since);
      NoneTooOldInFront(s, since);
    }
  }

  lemma {:induction false} NoneTooOldInFront(s: seq<Sample>, since: int)
    requires s == [] || s[0].atMs >= since
    ensures OldOnesFirst(s, since) <==> forall i :: 0 <= i < |s| ==> s[i].atMs >= since
  {
    if OldOnesFirst(s, since) {
      forall i | 0 <= i < |s| ensures s[i].atMs >= since {
        assert i == 0 || s[0].atMs >= since;
      }
    }
  }

  lemma {:induction false} TooOldInFront(s: seq<Sample>, since: int)
    requires s != [] && s[0].atMs < since
    ensures OldOnesFirst(s, since) <==> OldOnesFirst(s[1..], since)
  {
    assert forall i :: 0 <= i < |s| - 1 ==> s[1..][i] == s[i + 1];
    if OldOnesFirst(s[1..], since) {
      forall i, j | 0 <= i < j < |s| && s[i].atMs >= since ensures s[j].atMs >= since {
        assert s[1..][i - 1] == s[i] && s[1..][j - 1] == s[j];
      }
    }
  }

  /** So it is for samples in order of time. */
  lemma {:induction false} SinceFiltersSorted(s: seq<Sample>, since: int)
    requires forall i, j :: 0 <= i < j < |s| ==> s[i].atMs <= s[j].atMs
    ensures From(s, since) == NotOlder(s, since)
  {
    SinceFiltersIff(s, since);
  }

  function SampleAt(atMs: int): Sample {
    Sample(atMs, 0.0, 0.0, 0, 0, 0, 0)
  }

  /** The clock steps back between samples: one from before the time asked for is handed out. */
  lemma {:induction false} OldSampleIsHandedOut()
    ensures var s := [SampleAt(10), SampleAt(5), SampleAt(12)];
            From(s, 10) == s && NotOlder(s, 10) == [SampleAt(10), SampleAt(12)]
  {}
}
