/** The agent's traffic log: numbering, appending, replaying and rotating a file of lines. */
module Wal {
  import opened Options
  import opened Records
  import opened Framing

  /** The file outlives the process that writes it. */
  class Disk {
    var bytes: seq<byte>

    constructor ()
      ensures bytes == []
    {
      bytes := [];
    }
  }

  /** The number that reopening resumes from. */
  function MaxNo(rs: seq<TrafficRec>): int {
    if rs == [] then 0
    else
      var m, last := MaxNo(rs[..|rs| - 1]), rs[|rs| - 1];
      if last.seqNo > m then last.seqNo else m
  }

  lemma {:induction false} MaxNoIsReached(rs: seq<TrafficRec>)
    ensures MaxNo(rs) >= 0 && forall r :: r in rs ==> r.seqNo <= MaxNo(rs)
    ensures MaxNo(rs) == 0 || exists r :: r in rs && r.seqNo == MaxNo(rs)
  {
    if rs != [] {
      var init, last := rs[..|rs| - 1], rs[|rs| - 1];
      MaxNoIsReached(init);
      assert rs == init + [last];
      if last.seqNo > MaxNo(init) {
        assert last in rs;
      } else if MaxNo(init) != 0 {
        var r :| r in init && r.seqNo == MaxNo(init);
        assert r in rs;
      }
    }
  }

  function First<T>(s: seq<T>, n: nat): seq<T> {
    if |s| <= n then s else s[..n]
  }

  lemma {:induction false} NewerOfConcat(a: seq<TrafficRec>, b: seq<TrafficRec>, after: int)
    ensures Newer(a + b, after) == Newer(a, after) + Newer(b, after)
    decreases |b|
  {
    if b == [] {
      assert a + b == a;
    } else {
      assert (a + b)[..|a + b| - 1] == a + b[..|b| - 1];
      NewerOfConcat(a, b[..|b| - 1], after);
    }
  }

  lemma {:induction false} NewerOfOne(r: TrafficRec, after: int)
    ensures Newer([r], after) == if r.seqNo > after then [r] else []
  {
    assert [r][..0] == [];
  }

  lemma {:induction false} NewerOfToken(read: seq<TrafficRec>, token: seq<TrafficRec>, after: int)
    requires |token| <= 1
    ensures Newer(read + token, after) == Newer(read, after) + Newer(token, after)
    ensures Newer(token, after) == if token != [] && token[0].seqNo > after then token else []
  {
    NewerOfConcat(read, token, after);
    if token != [] {
      assert token == [token[0]];
      NewerOfOne(token[0], after);
    }
  }

  lemma {:induction false} TokenFirst(token: seq<TrafficRec>, rest: seq<TrafficRec>, after: int)
    requires |token| <= 1
    ensures Newer(token + rest, after) ==
            if token != [] && token[0].seqNo > after then token + Newer(rest, after) else Newer(rest, after)
  {
    NewerOfConcat(token, rest, after);
    NewerOfToken([], token, after);
    assert [] + Newer(rest, after) == Newer(rest, after);
  }

  lemma {:induction false} ScanStep(c: Codec<TrafficRec>, line: seq<byte>, file: seq<byte>, i: nat)
    requires i < |file|
    ensures ScanFrom(c, line, file[i..]) ==
            if file[i] == NL then ReadLine(c, line) + ScanFrom(c, [], file[i + 1..])
            else ScanFrom(c, line + [file[i]], file[i + 1..])
  {
    assert file[i..][1..] == file[i + 1..];
  }

  /** What is still to be read at `i`; past the end of the file, nothing. */
  function Rest(c: Codec<TrafficRec>, line: seq<byte>, file: seq<byte>, i: nat): seq<TrafficRec> {
    if i <= |file| then ScanFrom(c, line, file[i..]) else []
  }

  lemma {:induction false} LineEnds(c: Codec<TrafficRec>, line: seq<byte>, file: seq<byte>, i: nat)
    requires i <= |file| && (i == |file| || file[i] == NL)
    ensures Rest(c, line, file, i) == ReadLine(c, line) + Rest(c, [], file, i + 1)
  {
    if i == |file| {
      assert file[i..] == [] && ReadLine(c, line) + [] == ReadLine(c, line);
    } else {
      ScanStep(c, line, file, i);
    }
  }

  lemma {:induction false} CharRead(c: Codec<TrafficRec>, line: seq<byte>, file: seq<byte>, i: nat)
    requires i < |file| && file[i] != NL
    ensures Rest(c, line, file, i) == Rest(c, line + [file[i]], file, i + 1)
  {
    ScanStep(c, line, file, i);
  }

  /** A line that ends sends its record if that is past the watermark. */
  lemma {:induction false} LineSent(c: Codec<TrafficRec>, line: seq<byte>, file: seq<byte>, i: nat, after: int)
    requires i <= |file| && (i == |file| || file[i] == NL)
    ensures var token, rest := ReadLine(c, line), Newer(Rest(c, [], file, i + 1), after);
            Newer(Rest(c, line, file, i), after) ==
            if token != [] && token[0].seqNo > after then token + rest else rest
  {
    LineEnds(c, line, file, i);
    TokenFirst(ReadLine(c, line), Rest(c, [], file, i + 1), after);
  }

  lemma {:induction false} Regroup<T>(a: seq<T>, b: seq<T>, c: seq<T>)
    ensures a + (b + c) == (a + b) + c
    ensures b != [] ==> First(a + (b + c), |a|) == a
  {}

  method ReadAll(c: Codec<TrafficRec>, file: seq<byte>) returns (out: seq<TrafficRec>)
    ensures out == Scan(c, file)
  {
    var line: seq<byte> := [];
    var i := 0;
    out := [];
    assert file[0..] == file && [] + Scan(c, file) == Scan(c, file);
    while i <= |file|
      invariant 0 <= i <= |file| + 1
      invariant Scan(c, file) == out + Rest(c, line, file, i)
    {
      if i == |file| || file[i] == NL {
        LineEnds(c, line, file, i);
        Regroup(out, ReadLine(c, line), Rest(c, [], file, i + 1));
        out := out + ReadLine(c, line);
        line := [];
      } else {
        CharRead(c, line, file, i);
        line := line + [file[i]];
      }
      i := i + 1;
    }
  }

  /** What is left to send when a line ends: its record is next in turn if it is past the watermark. */
  lemma {:induction false} SentNext(c: Codec<TrafficRec>, line: seq<byte>, file: seq<byte>, i: nat, after: int,
                                    all: seq<TrafficRec>, sent: seq<TrafficRec>)
    requires i <= |file| && (i == |file| || file[i] == NL)
    requires all == sent + Newer(Rest(c, line, file, i), after)
    ensures var token, rest := ReadLine(c, line), Newer(Rest(c, [], file, i + 1), after);
            if token != [] && token[0].seqNo > after then all == (sent + token) + rest && First(all, |sent|) == sent
            else all == sent + rest
  {
    LineSent(c, line, file, i, after);
    Regroup(sent, ReadLine(c, line), Newer(Rest(c, [], file, i + 1), after));
  }

  method StreamFile(c: Codec<TrafficRec>, file: seq<byte>, after: int, quota: nat) returns (sent: seq<TrafficRec>)
    ensures sent == First(Newer(Scan(c, file), after), quota)
  {
    var line: seq<byte> := [];
    var i := 0;
    sent := [];
    ghost var all := Newer(Scan(c, file), after);
    assert file[0..] == file && [] + all == all;
    while i <= |file|
      invariant 0 <= i <= |file| + 1
      invariant all == sent + Newer(Rest(c, line, file, i), after)
      invariant |sent| <= quota
    {
      if i == |file| || file[i] == NL {
        var token := ReadLine(c, line);
        SentNext(c, line, file, i, after, all, sent);
        if token != [] && token[0].seqNo > after {
          if |sent| == quota {
            return;
          }
          sent := sent + token;
        }
        line := [];
      } else {
        CharRead(c, line, file, i);
        line := line + [file[i]];
      }
      i := i + 1;
    }
  }

  class Wal {
    const disk: Disk
    const codec: Codec<TrafficRec>
    var seqNo: int

    ghost function Recs(): seq<TrafficRec>
      reads disk
    {
      Scan(codec, disk.bytes)
    }

    /** The state that the runs below speak of, for a given history. */
    ghost function Now(log: seq<TrafficRec>): Journal
      reads this, disk
    {
      Journal(disk.bytes, seqNo, log)
    }

    /** Opening recovers the largest number in the file, which need not be in the last line. */
    constructor Open(disk: Disk, codec: Codec<TrafficRec>)
      ensures this.disk == disk && this.codec == codec
      ensures forall n, log :: Now(log) == Do(codec, Journal(disk.bytes, n, log), Op.Reopen)
      ensures forall r :: r in Recs() ==> r.seqNo <= seqNo
      ensures seqNo == 0 || exists r :: r in Recs() && r.seqNo == seqNo
    {
      this.disk, this.codec := disk, codec;
      seqNo := 0;
      new;
      var recs := ReadAll(codec, disk.bytes);
      for i := 0 to |recs|
        invariant seqNo == MaxNo(recs[..i])
      {
        assert recs[..i + 1][..i] == recs[..i];
        if recs[i].seqNo > seqNo {
          seqNo := recs[i].seqNo;
        }
      }
      assert recs[..|recs|] == recs;
      MaxNoIsReached(recs);
    }

    method NextSeq() returns (n: int)
      modifies this`seqNo
      ensures n == seqNo == old(seqNo) + 1
    {
      seqNo := seqNo + 1;
      n := seqNo;
    }

    /** `taken` is how many bytes of the line reach the file. */
    method Append(rec: TrafficRec, taken: nat) returns (ok: bool)
      requires taken <= |Line(codec, rec)|
      modifies disk
      ensures disk.bytes == old(disk.bytes) + Line(codec, rec)[..taken]
      ensures ok <==> taken == |Line(codec, rec)|
      ensures Sound(codec) && ok && old(disk.bytes) == Lines(codec, old(Recs())) ==> Recs() == old(Recs()) + [rec]
    {
      var b := codec.enc(rec) + [NL];
      disk.bytes := disk.bytes + b[..taken];
      ok := taken == |b|;
      if Sound(codec) && ok && old(disk.bytes) == Lines(codec, old(Recs())) {
        assert b[..taken] == Line(codec, rec);
        LogScan(codec, old(disk.bytes), rec);
      }
    }

    /** One sample is numbered and then logged. */
    method Record(atMs: int, nodeRx: int, nodeTx: int, proxies: seq<ProxyDelta>) returns (rec: TrafficRec)
      modifies this, disk
      ensures rec == TrafficRec(old(seqNo) + 1, atMs, nodeRx, nodeTx, proxies) && seqNo == rec.seqNo
      ensures Sound(codec) && old(disk.bytes) == Lines(codec, old(Recs())) ==> Recs() == old(Recs()) + [rec]
      ensures forall log :: Now(log + [rec]) == Do(codec, old(Now(log)), Op.Log(atMs, nodeRx, nodeTx, proxies))
    {
      var n := NextSeq();
      rec := TrafficRec(n, atMs, nodeRx, nodeTx, proxies);
      var l := Line(codec, rec);
      assert l[..|l|] == l;
      var _ := Append(rec, |l|);
    }

    /** Replay: the caller takes `quota` records and then asks to stop. */
    method Stream(after: int, quota: nat) returns (sent: seq<TrafficRec>)
      ensures sent == First(Newer(Recs(), after), quota)
    {
      sent := StreamFile(codec, disk.bytes, after, quota);
    }

    /** Rotation keeps the young records, in order; with nothing to drop it leaves the file as it is, corrupt
        lines and all, and otherwise it writes a clean one. */
    method Rotate(cutoff: int)
      requires Sound(codec)
      modifies disk
      ensures Recs() == Young(old(Recs()), cutoff)
      ensures forall log :: Now(log) == Do(codec, old(Now(log)), Op.Rotate(cutoff))
    {
      var recs := ReadAll(codec, disk.bytes);
      var kept := KeepYoung(recs, cutoff);
      if |kept| == |recs| {
        AllYoung(recs, cutoff);
        return;
      }
      ScanOfAppends(codec, kept);
      var tmp := WriteLines(codec, kept);
      disk.bytes := tmp;
    }
  }

  method KeepYoung(recs: seq<TrafficRec>, cutoff: int) returns (kept: seq<TrafficRec>)
    ensures kept == Young(recs, cutoff)
  {
    kept := [];
    for i := 0 to |recs|
      invariant kept == Young(recs[..i], cutoff)
    {
      assert recs[..i + 1][..i] == recs[..i];
      if recs[i].atMs >= cutoff {
        kept := kept + [recs[i]];
      }
    }
    assert recs[..|recs|] == recs;
  }

  method WriteLines(c: Codec<TrafficRec>, recs: seq<TrafficRec>) returns (bytes: seq<byte>)
    ensures bytes == Lines(c, recs)
  {
    bytes := [];
    for i := 0 to |recs|
      invariant bytes == Lines(c, recs[..i])
    {
      assert recs[..i + 1][..i] == recs[..i];
      bytes := bytes + (c.enc(recs[i]) + [NL]);
    }
    assert recs[..|recs|] == recs;
  }

  lemma {:induction false} YoungIsNotLonger(rs: seq<TrafficRec>, cutoff: int)
    ensures |Young(rs, cutoff)| <= |rs|
  {
    if rs != [] {
      YoungIsNotLonger(rs[..|rs| - 1], cutoff);
    }
  }

  lemma {:induction false} AllYoung(rs: seq<TrafficRec>, cutoff: int)
    requires |Young(rs, cutoff)| == |rs|
    ensures Young(rs, cutoff) == rs
  {
    if rs != [] {
      YoungIsNotLonger(rs[..|rs| - 1], cutoff);
      AllYoung(rs[..|rs| - 1], cutoff);
      assert rs == rs[..|rs| - 1] + [rs[|rs| - 1]];
    }
  }

  lemma {:induction false} YoungOfLast(rs: seq<TrafficRec>, r: TrafficRec, cutoff: int)
    ensures Young(rs + [r], cutoff) == Young(rs, cutoff) + (if r.atMs >= cutoff then [r] else [])
  {
    assert (rs + [r])[..|rs|] == rs;
  }

  /** Replaying after a rotation is the age filter applied to the replay before it, from any watermark. */
  lemma {:induction false} RotationFiltersReplay(rs: seq<TrafficRec>, cutoff: int, after: int)
    ensures Newer(Young(rs, cutoff), after) == Young(Newer(rs, after), cutoff)
  {
    if rs != [] {
      var init, last := rs[..|rs| - 1], rs[|rs| - 1];
      RotationFiltersReplay(init, cutoff, after);
      assert Young(init, cutoff) + [] == Young(init, cutoff) && Newer(init, after) + [] == Newer(init, after);
      YoungOfLast(Newer(init, after), last, cutoff);
      NewerOfToken(Young(init, cutoff), [last], after);
    }
  }

  // ----- numbering over runs of the log's operations -----

  datatype Op = Log(atMs: int, nodeRx: int, nodeTx: int, proxies: seq<ProxyDelta>) | Rotate(cutoff: int) | Reopen

  /** The file, the counter in memory, and (history) every record ever logged. */
  datatype Journal = Journal(bytes: seq<byte>, seqNo: int, log: seq<TrafficRec>)

  const BLANK := Journal([], 0, [])

  function Do(c: Codec<TrafficRec>, j: Journal, op: Op): Journal {
    match op
    case Log(at, rx, tx, px) =>
      var r := TrafficRec(j.seqNo + 1, at, rx, tx, px);
      Journal(j.bytes + Line(c, r), j.seqNo + 1, j.log + [r])
    case Rotate(cutoff) =>
      var recs := Scan(c, j.bytes);
      if |Young(recs, cutoff)| == |recs| then j else j.(bytes := Lines(c, Young(recs, cutoff)))
    case Reopen => j.(seqNo := MaxNo(Scan(c, j.bytes)))
  }

  function Run(c: Codec<TrafficRec>, ops: seq<Op>): Journal {
    if ops == [] then BLANK else Do(c, Run(c, ops[..|ops| - 1]), ops[|ops| - 1])
  }

  /** The newest record is still in the file when the log is reopened. */
  ghost predicate KeepsNewest(c: Codec<TrafficRec>, j: Journal) {
    j.log == [] || (Scan(c, j.bytes) != [] && j.log[|j.log| - 1] == Scan(c, j.bytes)[|Scan(c, j.bytes)| - 1])
  }

  ghost predicate NewestKept(c: Codec<TrafficRec>, ops: seq<Op>) {
    ops == [] || (NewestKept(c, ops[..|ops| - 1]) &&
                  (ops[|ops| - 1].Reopen? ==> KeepsNewest(c, Run(c, ops[..|ops| - 1]))))
  }

  /** What the file holds, in order, is a part of what was logged, and the counter is at the newest. */
  ghost predicate Numbered(c: Codec<TrafficRec>, j: Journal) {
    && Ascending(j.log)
    && (forall r :: r in j.log ==> 0 < r.seqNo <= j.seqNo)
    && j.seqNo == (if j.log == [] then 0 else j.log[|j.log| - 1].seqNo)
    && j.bytes == Lines(c, Scan(c, j.bytes))
    && Ascending(Scan(c, j.bytes))
    && forall r :: r in Scan(c, j.bytes) ==> r in j.log
  }

  lemma {:induction false} LogScan(c: Codec<TrafficRec>, bytes: seq<byte>, r: TrafficRec)
    requires Sound(c) && bytes == Lines(c, Scan(c, bytes))
    ensures Scan(c, bytes + Line(c, r)) == Scan(c, bytes) + [r]
    ensures bytes + Line(c, r) == Lines(c, Scan(c, bytes) + [r])
  {
    var rs := Scan(c, bytes);
    assert (rs + [r])[..|rs|] == rs;
    ScanOfAppends(c, rs + [r]);
  }

  lemma {:induction false} NextIsNumbered(log: seq<TrafficRec>, seqNo: int, file: seq<TrafficRec>, r: TrafficRec)
    requires Ascending(log) && Ascending(file) && r.seqNo == seqNo + 1 && seqNo >= 0
    requires forall x :: x in log ==> 0 < x.seqNo <= seqNo
    requires forall x :: x in file ==> x in log
    ensures Ascending(log + [r]) && Ascending(file + [r])
    ensures forall x :: x in log + [r] ==> 0 < x.seqNo <= seqNo + 1
    ensures forall x :: x in file + [r] ==> x in log + [r]
    ensures (log + [r])[|log + [r]| - 1] == r
  {
    AppendAscends(file, r);
    AppendAscends(log, r);
  }

  lemma {:induction false} LogKeepsNumbers(c: Codec<TrafficRec>, j: Journal, op: Op)
    requires Sound(c) && Numbered(c, j) && op.Log?
    ensures Numbered(c, Do(c, j, op))
  {
    var r := TrafficRec(j.seqNo + 1, op.atMs, op.nodeRx, op.nodeTx, op.proxies);
    LogScan(c, j.bytes, r);
    NextIsNumbered(j.log, j.seqNo, Scan(c, j.bytes), r);
  }

  lemma {:induction false} RotateKeepsNumbers(c: Codec<TrafficRec>, j: Journal, cutoff: int)
    requires Sound(c) && Numbered(c, j)
    ensures Numbered(c, Do(c, j, Rotate(cutoff)))
  {
    var recs := Scan(c, j.bytes);
    YoungAscending(recs, cutoff);
    YoungMembers(recs, cutoff);
    ScanOfAppends(c, Young(recs, cutoff));
  }

  /** The newest record can only be last in the file. */
  lemma {:induction false} NewestIsLast(c: Codec<TrafficRec>, j: Journal, r: TrafficRec)
    requires Numbered(c, j) && r in Scan(c, j.bytes) && r.seqNo == j.seqNo
    ensures KeepsNewest(c, j)
  {
    var rs := Scan(c, j.bytes);
    var k :| 0 <= k < |rs| && rs[k] == r;
    assert rs[|rs| - 1] in rs;
    assert j.log[|j.log| - 1] in j.log;
  }

  /** Reopening resumes the numbering exactly if the newest record is still in the file. */
  lemma {:induction false} ReopenResumesIff(c: Codec<TrafficRec>, j: Journal)
    requires Numbered(c, j)
    ensures Do(c, j, Reopen).seqNo == j.seqNo <==> KeepsNewest(c, j)
  {
    var rs := Scan(c, j.bytes);
    MaxNoIsReached(rs);
    if KeepsNewest(c, j) {
      if rs != [] {
        assert rs[|rs| - 1] in rs;
      }
    } else {
      assert j.log[|j.log| - 1] in j.log;
      if MaxNo(rs) == j.seqNo {
        var r :| r in rs && r.seqNo == MaxNo(rs);
        NewestIsLast(c, j, r);
      }
    }
  }

  lemma {:induction false} RunsAreNumbered(c: Codec<TrafficRec>, ops: seq<Op>)
    requires Sound(c) && NewestKept(c, ops)
    ensures Numbered(c, Run(c, ops))
  {
    if ops != [] {
      var j, op := Run(c, ops[..|ops| - 1]), ops[|ops| - 1];
      RunsAreNumbered(c, ops[..|ops| - 1]);
      match op
      case Log(_, _, _, _) => LogKeepsNumbers(c, j, op);
      case Rotate(cutoff) => RotateKeepsNumbers(c, j, cutoff);
      case Reopen => ReopenResumesIff(c, j);
    }
  }

  /** Over every run of logging, rotating and reopening in which the newest record is in the file at each reopening,
      no number is used twice, and the file stays in strictly ascending order. */
  lemma {:induction false} NumbersAreNeverReused(c: Codec<TrafficRec>, ops: seq<Op>)
    requires Sound(c) && NewestKept(c, ops)
    ensures Ascending(Run(c, ops).log) && Ascending(Scan(c, Run(c, ops).bytes))
    ensures forall r, r' :: r in Run(c, ops).log && r' in Run(c, ops).log && r.seqNo == r'.seqNo ==> r == r'
  {
    RunsAreNumbered(c, ops);
  }

  lemma RunThen(c: Codec<TrafficRec>, ops: seq<Op>, op: Op)
    ensures Run(c, ops + [op]) == Do(c, Run(c, ops), op)
  {
    assert (ops + [op])[..|ops|] == ops;
  }

  lemma {:induction false} LogFirst(c: Codec<TrafficRec>, at: int)
    ensures Do(c, BLANK, Op.Log(at, 0, 0, [])) == var r := TrafficRec(1, at, 0, 0, []); Journal(Line(c, r), 1, [r])
  {
    assert [] + Line(c, TrafficRec(1, at, 0, 0, [])) == Line(c, TrafficRec(1, at, 0, 0, []));
  }

  /** Rotating away the only record and reopening leaves the log as it was at first, but for what has been logged. */
  lemma {:induction false} ForgetOnly(c: Codec<TrafficRec>, r: TrafficRec, cutoff: int)
    requires Sound(c) && r.atMs < cutoff
    ensures Do(c, Do(c, Journal(Line(c, r), 1, [r]), Op.Rotate(cutoff)), Op.Reopen) == Journal([], 0, [r])
  {
    assert [r][..0] == [] && [] + Line(c, r) == Line(c, r);
    ScanOfAppends(c, [r]);
    YoungMembers([r], cutoff);
    assert Young([r], cutoff) == [];
    assert Scan(c, []) == [];
  }

  /** A log whose every record has aged out starts again at one. */
  lemma {:induction false} AgedOutLogReusesNumbers(c: Codec<TrafficRec>, at: int, later: int)
    requires Sound(c) && at < later
    ensures var log := Run(c, [Op.Log(at, 0, 0, [])] + [Op.Rotate(later)] + [Op.Reopen] +
                           [Op.Log(later, 0, 0, [])]).log;
            log == [TrafficRec(1, at, 0, 0, []), TrafficRec(1, later, 0, 0, [])]
  {
    var ops := [Op.Log(at, 0, 0, [])];
    RunThen(c, [], Op.Log(at, 0, 0, []));
    assert [] + ops == ops;
    LogFirst(c, at);
    RunThen(c, ops, Op.Rotate(later));
    RunThen(c, ops + [Op.Rotate(later)], Op.Reopen);
    RunThen(c, ops + [Op.Rotate(later)] + [Op.Reopen], Op.Log(later, 0, 0, []));
    ForgetOnly(c, TrafficRec(1, at, 0, 0, []), later);
  }
}
