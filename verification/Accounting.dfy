/** The panel's side of exactly-once accounting for one node: watermark, day
    buckets, the flush to the database and the durable watermark, with a step
    for every point where a crash or another goroutine can come between. */
module Accounting {
  import opened Numbers
  import opened Records

  /** The flush of one node: it reads the watermark, then drains the buckets, then (if the database
      is up) writes the day rows one by one, then the watermark. */
  datatype Flush =
    | Resting
    | Captured(mark: int)
    | Drained(mark: int, rows: map<Day, Traffic>)
    | Writing(mark: int, rows: map<Day, Traffic>, failed: bool)

  /** In memory: `tracker`, `snap` (the watermark loaded with the node), `persisted`, the buckets `traf`
      and the flush. In the database: `rows` and `durable`. The rest is history: which records are past
      the tracker but not in a bucket (`entered`), in the buckets (`buf`), in the drained batch and in
      the database (`booked`), and which numbers were `lost` or may be counted `twice`. */
  datatype Panel = Panel(
    tracker: int, snap: int, persisted: int,
    entered: seq<TrafficRec>, traf: map<Day, Traffic>, buf: seq<TrafficRec>,
    flush: Flush, batch: seq<TrafficRec>,
    rows: map<Day, Traffic>, booked: seq<TrafficRec>, durable: int,
    lost: set<int>, twice: set<int>)

  datatype PanelStep =
    | Accept(rec: TrafficRec, skipped: set<int>)
    | Fold(k: nat)
    | Capture
    | Drain
    | DbDown
    | DbUp
    | RowOk(day: Day)
    | RowFails(day: Day)
    | Commit(ok: bool)
    | NoCommit
    | InitNode(lastSeq: int)
    | Reload
    | PanelRestart

  const EMPTY := Panel(0, 0, 0, [], map[], [], Resting, [], map[], [], 0, {}, {})

  /** The strict watermark: a number is new iff it is greater than the last one. */
  predicate IsNew(tracker: int, n: int) {
    n > tracker
  }

  predicate Can(p: Panel, step: PanelStep) {
    match step
    case Accept(r, _) => IsNew(p.tracker, r.seqNo)
    case Fold(k) => k < |p.entered|
    case Capture => p.flush.Resting?
    case Drain => p.flush.Captured?
    case DbDown => p.flush.Drained?
    case DbUp => p.flush.Drained?
    case RowOk(d) => p.flush.Writing? && d in p.flush.rows
    case RowFails(d) => p.flush.Writing? && d in p.flush.rows
    case Commit(_) => p.flush.Writing? && p.flush.rows == map[] && !p.flush.failed && p.flush.mark > p.persisted
    case NoCommit => p.flush.Writing? && p.flush.rows == map[] && (p.flush.failed || p.flush.mark <= p.persisted)
    case InitNode(_) => true
    case Reload => true
    case PanelRestart => true
  }

  function Apply(p: Panel, step: PanelStep): Panel
    requires Can(p, step)
  {
    match step
    case Accept(r, skipped) =>
      p.(tracker := r.seqNo, entered := p.entered + [r], lost := p.lost + skipped)
    case Fold(k) =>
      var r := p.entered[k];
      p.(entered := p.entered[..k] + p.entered[k + 1..], buf := p.buf + [r], traf := AddTo(p.traf, DayOf(r), Delta(r)))
    case Capture => p.(flush := Captured(p.tracker))
    case Drain =>
      p.(flush := Drained(p.flush.mark, NonZeroRows(p.traf)), batch := p.buf, traf := map[], buf := [])
    case DbDown => p.(flush := Resting, batch := [], lost := p.lost + SeqNos(p.batch))
    case DbUp => p.(flush := Writing(p.flush.mark, p.flush.rows, false))
    case RowOk(d) =>
      p.(rows := AddTo(p.rows, d, p.flush.rows[d]), flush := p.flush.(rows := p.flush.rows - {d}),
      booked := p.booked + OfDay(p.batch, d), batch := NotOfDay(p.batch, d))
    case RowFails(d) =>
      p.(flush := p.flush.(rows := p.flush.rows - {d}, failed := true),
      batch := NotOfDay(p.batch, d), lost := p.lost + SeqNos(OfDay(p.batch, d)))
    case Commit(ok) =>
      // What is left of the batch belongs to days whose totals are zero.
      var p' := p.(flush := Resting, booked := p.booked + p.batch, batch := []);
      // By the database's own guard, the stored watermark only rises.
      if ok then p'.(durable := Max(p.durable, p.flush.mark), persisted := p.flush.mark) else p'
    case NoCommit => p.(flush := Resting, booked := p.booked + p.batch, batch := [])
    case InitNode(lastSeq) => p.(tracker := Max(p.tracker, lastSeq))
    case Reload => p.(snap := p.durable, tracker := Max(p.tracker, p.durable))
    case PanelRestart =>
      p.(tracker := p.durable, snap := p.durable, persisted := p.durable,
      entered := [], traf := map[], buf := [], flush := Resting, batch := [],
      lost := (set n | n in p.lost && n <= p.durable) + (set n | n in SeqNos(InMemory(p)) && n <= p.durable),
      twice := p.twice + (set n | n in SeqNos(p.booked) && n > p.durable))
  }

  function InMemory(p: Panel): seq<TrafficRec> {
    p.batch + p.buf + p.entered
  }

  /** Everything accounted for, each record as often as it is. */
  function Accounted(p: Panel): multiset<TrafficRec> {
    multiset(p.booked) + multiset(p.batch) + multiset(p.buf) + multiset(p.entered)
  }

  function FlushRows(f: Flush): map<Day, Traffic> {
    if f.Drained? || f.Writing? then f.rows else map[]
  }

  // ----- what every step keeps -----

  ghost predicate Balanced(m: map<Day, Traffic>, rs: seq<TrafficRec>) {
    forall d :: At(m, d) == SumDay(rs, d)
  }

  /** Every table of byte totals is the sum of the records it stands for, and only rows that are not zero are
      written. */
  ghost predicate Books(p: Panel) {
    && Balanced(p.rows, p.booked)
    && Balanced(p.traf, p.buf)
    && Balanced(FlushRows(p.flush), p.batch)
    && (p.flush.Resting? || p.flush.Captured? ==> p.batch == [])
    && (forall d :: d in FlushRows(p.flush) ==> FlushRows(p.flush)[d] != ZERO)
  }

  ghost predicate Watermarks(p: Panel) {
    && 0 <= p.persisted <= p.durable <= p.tracker
    && 0 <= p.snap <= p.durable
    && (!p.flush.Resting? ==> p.flush.mark <= p.tracker)
    && (forall n :: n in SeqNos(InMemory(p)) ==> n <= p.tracker)
    && (forall n :: n in p.lost ==> n <= p.tracker)
  }

  /** Unless it may be counted twice, a logged record is accounted for once or lost if it is at or below
      the watermark, and neither if it is above. */
  ghost predicate Counted(log: seq<TrafficRec>, acc: multiset<TrafficRec>, lost: set<int>, twice: set<int>, mark: int) {
    forall r :: r in log && r.seqNo !in twice ==>
                  acc[r] + (if r.seqNo in lost then 1 else 0) == (if r.seqNo <= mark then 1 else 0)
  }

  ghost predicate PanelInv(log: seq<TrafficRec>, p: Panel) {
    && Books(p)
    && Watermarks(p)
    && (forall r :: r in Accounted(p) ==> r in log)
    && Counted(log, Accounted(p), p.lost, p.twice, p.tracker)
  }

  /** The logged numbers that a jump of the watermark passes over. */
  function Skipped(log: seq<TrafficRec>, mark: int, n: int): set<int> {
    set r | r in log && mark < r.seqNo < n :: r.seqNo
  }

  // ----- byte totals -----

  lemma {:induction false} FoldBalancesAt(m: map<Day, Traffic>, rs: seq<TrafficRec>, r: TrafficRec, d: Day)
    requires At(m, d) == SumDay(rs, d)
    ensures At(AddTo(m, DayOf(r), Delta(r)), d) == SumDay(rs + [r], d)
  {
    assert (rs + [r])[..|rs|] == rs;
  }

  lemma {:induction false} FoldBalances(m: map<Day, Traffic>, rs: seq<TrafficRec>, r: TrafficRec)
    requires Balanced(m, rs)
    ensures Balanced(AddTo(m, DayOf(r), Delta(r)), rs + [r])
  {
    forall d { FoldBalancesAt(m, rs, r, d); }
  }

  lemma PlusZero(t: Traffic)
    ensures t.Plus(ZERO) == t
  {}

  lemma {:induction false} AddElsewhere(rows: map<Day, Traffic>, d: Day, t: Traffic, e: Day)
    ensures At(AddTo(rows, d, t), e) == if e == d then At(rows, e).Plus(t) else At(rows, e)
  {}

  lemma {:induction false} Without(todo: map<Day, Traffic>, d: Day, e: Day)
    ensures At(todo - {d}, e) == if e == d then ZERO else At(todo, e)
  {}

  lemma {:induction false} RowMoves(rows: map<Day, Traffic>, todo: map<Day, Traffic>, d: Day, e: Day)
    requires d in todo
    ensures At(AddTo(rows, d, todo[d]), e) == At(rows, e).Plus(if e == d then At(todo, e) else ZERO)
    ensures At(todo - {d}, e) == if e == d then ZERO else At(todo, e)
  {
    AddElsewhere(rows, d, todo[d], e);
    Without(todo, d, e);
    if e != d {
      PlusZero(At(rows, e));
    }
  }

  /** Writing a day's row moves that day's records, and only them, from the batch to the database. */
  lemma {:induction false} RowBalances(rows: map<Day, Traffic>, booked: seq<TrafficRec>, todo: map<Day, Traffic>,
                                       batch: seq<TrafficRec>, d: Day)
    requires Balanced(rows, booked) && Balanced(todo, batch) && d in todo
    ensures Balanced(AddTo(rows, d, todo[d]), booked + OfDay(batch, d))
    ensures Balanced(todo - {d}, NotOfDay(batch, d))
  {
    forall e
      ensures At(AddTo(rows, d, todo[d]), e) == SumDay(booked + OfDay(batch, d), e)
      ensures At(todo - {d}, e) == SumDay(NotOfDay(batch, d), e)
    {
      RowMoves(rows, todo, d, e);
      assert At(rows, e) == SumDay(booked, e) && At(todo, e) == SumDay(batch, e);
      SumOfSplit(batch, d, e);
      SumDayConcat(booked, OfDay(batch, d), e);
    }
  }

  /** Days without a row to write carry no bytes: dropping the zero rows loses nothing. */
  lemma {:induction false} LeftoverIsZero(rows: map<Day, Traffic>, booked: seq<TrafficRec>, batch: seq<TrafficRec>)
    requires Balanced(rows, booked) && Balanced(map[], batch)
    ensures forall d :: SumDay(batch, d) == ZERO
    ensures Balanced(rows, booked + batch)
  {
    forall d
      ensures SumDay(batch, d) == ZERO
      ensures At(rows, d) == SumDay(booked + batch, d)
    {
      assert At(map[], d) == SumDay(batch, d);
      SumDayConcat(booked, batch, d);
    }
  }

  /** A day's bytes wherever they are: in the database, in rows being written, in the bucket, or on their way there. */
  function Total(p: Panel, d: Day): Traffic {
    At(p.rows, d).Plus(At(FlushRows(p.flush), d)).Plus(At(p.traf, d)).Plus(SumDay(p.entered, d))
  }

  lemma {:induction false} TotalsOf(p: Panel, d: Day)
    requires Books(p)
    ensures Total(p, d) == SumDay(p.booked + p.batch + p.buf + p.entered, d)
  {
    SumDayConcat(p.booked + p.batch + p.buf, p.entered, d);
    SumDayConcat(p.booked + p.batch, p.buf, d);
    SumDayConcat(p.booked, p.batch, d);
  }

  lemma {:induction false} StepKeepsBooks(p: Panel, step: PanelStep)
    requires Books(p) && Can(p, step)
    ensures Books(Apply(p, step))
  {
    match step
    case Fold(k) => FoldBalances(p.traf, p.buf, p.entered[k]);
    case RowOk(d) => RowBalances(p.rows, p.booked, p.flush.rows, p.batch, d);
    case RowFails(d) => RowBalances(p.rows, p.booked, p.flush.rows, p.batch, d);
    case Commit(_) => LeftoverIsZero(p.rows, p.booked, p.batch);
    case NoCommit => LeftoverIsZero(p.rows, p.booked, p.batch);
    case Drain => assert forall d :: At(NonZeroRows(p.traf), d) == At(p.traf, d);
    case _ =>
  }

  // ----- record counts -----

  lemma {:induction false} AcceptKeepsCount(log: seq<TrafficRec>, acc: multiset<TrafficRec>, lost: set<int>,
                                            twice: set<int>,
                                            mark: int, r: TrafficRec)
    requires Ascending(log) && r in log && IsNew(mark, r.seqNo)
    requires Counted(log, acc, lost, twice, mark)
    ensures Counted(log, acc + multiset{r}, lost + Skipped(log, mark, r.seqNo), twice, r.seqNo)
  {
    forall x | x in log && x.seqNo !in twice
      ensures (acc + multiset{r})[x] + (if x.seqNo in lost + Skipped(log, mark, r.seqNo) then 1 else 0) ==
              (if x.seqNo <= r.seqNo then 1 else 0)
    {
      assert x.seqNo == r.seqNo ==> x == r;
    }
  }

  lemma {:induction false} DropKeepsCount(log: seq<TrafficRec>, acc: multiset<TrafficRec>, lost: set<int>,
                                          twice: set<int>,
                                          mark: int, gone: seq<TrafficRec>)
    requires Ascending(log) && multiset(gone) <= acc && (forall r :: r in acc ==> r in log)
    requires Counted(log, acc, lost, twice, mark)
    ensures Counted(log, acc - multiset(gone), lost + SeqNos(gone), twice, mark)
  {
    forall x | x in log && x.seqNo !in twice
      ensures (acc - multiset(gone))[x] + (if x.seqNo in lost + SeqNos(gone) then 1 else 0) ==
              (if x.seqNo <= mark then 1 else 0)
    {
      if x.seqNo in SeqNos(gone) {
        var y :| y in gone && y.seqNo == x.seqNo;
        assert y in multiset(gone);
        assert y == x;
      } else {
        assert x !in gone;
      }
    }
  }

  lemma {:induction false} RestartKeepsCount(log: seq<TrafficRec>, booked: seq<TrafficRec>, mem: seq<TrafficRec>,
                                             lost: set<int>,
                                             twice: set<int>, mark: int, durable: int)
    requires Ascending(log) && durable <= mark
    requires forall r :: r in booked || r in mem ==> r in log
    requires Counted(log, multiset(booked) + multiset(mem), lost, twice, mark)
    ensures Counted(log, multiset(booked),
                    (set n | n in lost && n <= durable) + (set n | n in SeqNos(mem) && n <= durable),
                    twice + (set n | n in SeqNos(booked) && n > durable), durable)
  {
    var lost' := (set n | n in lost && n <= durable) + (set n | n in SeqNos(mem) && n <= durable);
    var twice' := twice + set n | n in SeqNos(booked) && n > durable;
    forall x | x in log && x.seqNo !in twice'
      ensures multiset(booked)[x] + (if x.seqNo in lost' then 1 else 0) == (if x.seqNo <= durable then 1 else 0)
    {
      if x.seqNo <= durable {
        if x in mem {
          assert x in multiset(mem);
          assert x.seqNo in SeqNos(mem);
        } else {
          assert forall y :: y in mem && y.seqNo == x.seqNo ==> y == x;
        }
      } else {
        assert forall y :: y in booked ==> y.seqNo in SeqNos(booked);
      }
    }
  }

  lemma {:induction false} AppendKeepsCount(log: seq<TrafficRec>, p: Panel, r: TrafficRec)
    requires PanelInv(log, p) && r !in log && r.seqNo > p.tracker
    ensures PanelInv(log + [r], p)
  {
    forall x | x in Accounted(p) ensures x in log + [r] {}
    assert r !in Accounted(p);
  }
}
