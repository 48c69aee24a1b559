/** The panel's pipeline for all nodes, imperatively: accounting a sample and flushing to the database. Every
    node's state is followed by a run of `Accounting`'s steps, so what is proved of those holds of it. */
module Pipeline {
  import opened Collections
  import opened Numbers
  import opened Records
  import opened Accounting
  import opened Conservation

  /** A metrics message, live or replayed. */
  datatype Metrics = Metrics(seqNo: int, sampledAt: int, rxDelta: int, txDelta: int, proxies: seq<ProxyDelta>,
                             backfill: bool)

  datatype NodeState = NodeState(seqNo: int, traf: map<Day, Traffic>, persisted: int)

  /** A sample without a time is taken to be from now. */
  function RecOf(m: Metrics, now: int): TrafficRec {
    TrafficRec(m.seqNo, if m.sampledAt == 0 then now else m.sampledAt, m.rxDelta, m.txDelta, m.proxies)
  }

  /** The message that carries a logged sample, sent live or replayed. */
  function MessageOf(r: TrafficRec, backfill: bool): Metrics {
    Metrics(r.seqNo, r.atMs, r.nodeRx, r.nodeTx, r.proxies, backfill)
  }

  /** What a message makes the panel account for is what the agent has logged, live or replayed and whenever it comes,
      exactly if the log has a time for it. */
  lemma {:induction false} AccountedAsLogged(r: TrafficRec)
    ensures (forall backfill, now :: RecOf(MessageOf(r, backfill), now) == r) <==> r.atMs != 0
  {
    if r.atMs == 0 {
      assert RecOf(MessageOf(r, false), 1) != r;
    }
  }

  /** The bytes have been added to the day of that time, and to no other. */
  ghost predicate Gained(before: map<Day, Traffic>, after: map<Day, Traffic>, at: int, bytes: Traffic) {
    && (forall d: Day :: d in after <==> d in before || IsOn(at, d))
    && (forall d: Day :: At(after, d) == At(before, d).Plus(if IsOn(at, d) then bytes else ZERO))
  }

  /** The message has been added, to the day it was sampled on. */
  ghost predicate Booked(before: NodeState, m: Metrics, now: int, after: NodeState) {
    && after.seqNo == m.seqNo && after.persisted == before.persisted
    && Gained(before.traf, after.traf, if m.sampledAt == 0 then now else m.sampledAt,
              Traffic(m.rxDelta, m.txDelta, TunnelIn(m.proxies), TunnelOut(m.proxies)))
  }

  lemma {:induction false} GainIsUnique(before: map<Day, Traffic>, a: map<Day, Traffic>, b: map<Day, Traffic>, at: int,
                                        bytes: Traffic, d: Day)
    requires Gained(before, a, at, bytes) && Gained(before, b, at, bytes)
    ensures (d in a <==> d in b) && At(a, d) == At(b, d)
  {}

  lemma {:induction false} SameTables(a: map<Day, Traffic>, b: map<Day, Traffic>)
    requires forall d :: (d in a <==> d in b) && At(a, d) == At(b, d)
    ensures a == b
  {
    forall d ensures d in a <==> d in b {
      assert At(a, d) == At(b, d);
    }
    forall d | d in a ensures a[d] == b[d] {
      assert At(a, d) == At(b, d);
    }
  }

  /** A sample leaves the same state whether it comes live or is replayed, today or another day. */
  lemma {:induction false} ReplayBooksTheSame(before: NodeState, m: Metrics, backfill: bool, now: int, later: int,
                                              a: NodeState, b: NodeState)
    requires m.sampledAt != 0
    requires Booked(before, m, now, a) && Booked(before, m.(backfill := backfill), later, b)
    ensures a == b
  {
    var bytes := Traffic(m.rxDelta, m.txDelta, TunnelIn(m.proxies), TunnelOut(m.proxies));
    forall d { GainIsUnique(before.traf, a.traf, b.traf, m.sampledAt, bytes, d); }
    SameTables(a.traf, b.traf);
  }

  lemma {:induction false} BucketGains(traf: map<Day, Traffic>, at: int, bytes: Traffic)
    ensures Gained(traf, AddTo(traf, ShanghaiDay(at), bytes), at, bytes)
  {
    forall d: Day
      ensures d in AddTo(traf, ShanghaiDay(at), bytes) <==> d in traf || IsOn(at, d)
      ensures At(AddTo(traf, ShanghaiDay(at), bytes), d) == At(traf, d).Plus(if IsOn(at, d) then bytes else ZERO)
    {
      DayIff(at, d);
      AddElsewhere(traf, ShanghaiDay(at), bytes, d);
    }
  }

  lemma {:induction false} SampleIsBooked(s: NodeState, m: Metrics, now: int)
    ensures Booked(s, m, now, WithSample(s, RecOf(m, now)))
  {
    var r := RecOf(m, now);
    BucketGains(s.traf, r.atMs, Delta(r));
  }

  function StateOf(st: map<int, NodeState>, n: int): NodeState {
    if n in st then st[n] else FRESH
  }

  function RowsOf(rows: map<int, map<Day, Traffic>>, n: int): map<Day, Traffic> {
    if n in rows then rows[n] else map[]
  }

  function MarkOf(marks: map<int, int>, n: int): int {
    if n in marks then marks[n] else 0
  }

  /** The daily traffic table and the nodes' durable watermarks. A statement takes effect or fails; `failures` counts
      how often one about a node has. */
  class Database {
    var rows: map<int, map<Day, Traffic>>
    var marks: map<int, int>
    ghost var failures: multiset<int>

    method IncrTrafficDaily(n: int, d: Day, t: Traffic) returns (ok: bool)
      modifies this`rows, this`failures
      ensures rows == if ok then old(rows)[n := AddTo(RowsOf(old(rows), n), d, t)] else old(rows)
      ensures failures == if ok then old(failures) else old(failures) + multiset{n}
    {
      ok := *;
      if ok {
        rows := rows[n := AddTo(RowsOf(rows, n), d, t)];
      } else {
        failures := failures + multiset{n};
      }
    }

    method SetNodeLastCommitSeq(n: int, mark: int) returns (ok: bool)
      modifies this`marks, this`failures
      ensures marks == if ok && MarkOf(old(marks), n) < mark then old(marks)[n := mark] else old(marks)
      ensures failures == if ok then old(failures) else old(failures) + multiset{n}
    {
      ok := *;
      if !ok {
        failures := failures + multiset{n};
      } else if MarkOf(marks, n) < mark {
        marks := marks[n := mark];
      }
    }
  }

  /** All there is about one node: its steps so far, the state in memory, and in the database its rows, the rows it
      had when the state was created, its watermark, and how many statements about it have failed. */
  datatype View = View(track: Track, s: NodeState, rows: map<Day, Traffic>, base: map<Day, Traffic>, mark: int,
                       fails: int)

  ghost predicate Grown(rows: map<Day, Traffic>, base: map<Day, Traffic>, since: map<Day, Traffic>) {
    forall d :: At(rows, d) == At(base, d).Plus(At(since, d))
  }

  /** A panel that starts with this watermark, and with nothing counted yet. */
  function Newborn(seqNo: int, persisted: int, mark: int): Panel {
    EMPTY.(tracker := seqNo, persisted := persisted, durable := mark, snap := mark)
  }

  ghost predicate Shows(p: Panel, v: View) {
    && v.s == NodeState(p.tracker, p.traf, p.persisted)
    && p.durable == v.mark && p.entered == []
    && Grown(v.rows, v.base, p.rows)
  }

  ghost predicate Traced(t: Track) {
    t.born == Newborn(t.born.tracker, t.born.persisted, t.born.durable) && t.Possible()
    && forall s :: s in t.steps ==> !s.PanelRestart? && !s.Reload?
  }

  lemma {:induction false} TracedMore(t: Track, step: PanelStep)
    requires Traced(t) && Can(t.End(), step) && !step.PanelRestart? && !step.Reload?
    ensures Traced(t.Then(step)) && t.Then(step).End() == Apply(t.End(), step)
  {
    OneMore(t, step);
  }

  /** The steps lead to the state. */
  ghost predicate Tied(v: View) {
    Traced(v.track) && Shows(v.track.End(), v)
  }

  ghost predicate InFlush(v: View, f: Flush) {
    Tied(v) && v.track.End().flush == f
  }

  ghost predicate Idle(v: View) {
    InFlush(v, Flush.Resting)
  }

  lemma {:induction false} NewbornIsEmpty(seqNo: int, persisted: int, mark: int, d: Day)
    ensures Books(Newborn(seqNo, persisted, mark)) && Total(Newborn(seqNo, persisted, mark), d) == ZERO
  {}

  lemma {:induction false} RestingTotal(p: Panel, v: View, d: Day)
    requires Shows(p, v) && p.flush.Resting?
    ensures At(v.rows, d).Plus(At(v.s.traf, d)) == At(v.base, d).Plus(Total(p, d))
  {
    assert At(v.rows, d) == At(v.base, d).Plus(At(p.rows, d));
  }

  lemma {:induction false} TracedConserves(t: Track, d: Day)
    requires Traced(t)
    ensures Total(t.End(), d).Plus(SumDay(Dropped(t), d)) == SumDay(Accepted(t.steps), d)
  {
    NewbornIsEmpty(t.born.tracker, t.born.persisted, t.born.durable, d);
    TrafficIsConserved(t, d);
  }

  lemma AddUp(row: Traffic, traf: Traffic, dropped: Traffic, base: Traffic, total: Traffic, accepted: Traffic)
    requires row.Plus(traf) == base.Plus(total) && total.Plus(dropped) == accepted
    ensures row.Plus(traf).Plus(dropped) == base.Plus(accepted)
  {}

  /** In every state that the pipeline can be in, for each node and day: the row in the database, the bucket in memory
      and the dropped batches together are what the database held at first, and the bytes of the samples accepted. */
  lemma {:induction false} NodeTrafficIsConserved(v: View, d: Day)
    requires Idle(v)
    ensures At(v.rows, d).Plus(At(v.s.traf, d)).Plus(SumDay(Dropped(v.track), d)) ==
            At(v.base, d).Plus(SumDay(Accepted(v.track.steps), d))
  {
    TracedConserves(v.track, d);
    RestingTotal(v.track.End(), v, d);
    AddUp(At(v.rows, d), At(v.s.traf, d), SumDay(Dropped(v.track), d), At(v.base, d), Total(v.track.End(), d),
          SumDay(Accepted(v.track.steps), d));
  }

  // ----- what each statement does to one node's view -----

  function WithSample(s: NodeState, r: TrafficRec): NodeState {
    s.(seqNo := r.seqNo, traf := AddTo(s.traf, DayOf(r), Delta(r)))
  }

  function Sampled(t: Track, r: TrafficRec, skipped: set<int>): Track {
    t.Then(Accept(r, skipped)).Then(Fold(0))
  }

  function Folded(v: View, r: TrafficRec, skipped: set<int>): View {
    v.(track := Sampled(v.track, r, skipped), s := WithSample(v.s, r))
  }

  lemma {:induction false} AcceptThenFold(p: Panel, r: TrafficRec, skipped: set<int>)
    requires p.entered == [] && IsNew(p.tracker, r.seqNo)
    ensures Can(Apply(p, Accept(r, skipped)), Fold(0))
    ensures Apply(Apply(p, Accept(r, skipped)), Fold(0)) ==
            p.(tracker := r.seqNo, lost := p.lost + skipped, buf := p.buf + [r],
            traf := AddTo(p.traf, DayOf(r), Delta(r)))
  {
    var e := p.entered + [r];
    assert e[0] == r && e[..0] + e[1..] == [];
  }

  lemma {:induction false} AccountKeeps(v: View, r: TrafficRec, skipped: set<int>)
    requires Idle(v) && IsNew(v.s.seqNo, r.seqNo)
    ensures Idle(Folded(v, r, skipped))
  {
    AcceptThenFold(v.track.End(), r, skipped);
    TracedMore(v.track, Accept(r, skipped));
    TracedMore(v.track.Then(Accept(r, skipped)), Fold(0));
  }

  function Emptied(v: View): View {
    v.(track := v.track.Then(Capture).Then(Drain), s := v.s.(traf := map[]))
  }

  lemma {:induction false} DrainKeeps(v: View)
    requires Idle(v)
    ensures InFlush(Emptied(v), Flush.Drained(v.s.seqNo, NonZeroRows(v.s.traf)))
  {
    OneMore(v.track, Capture);
    OneMore(v.track.Then(Capture), Drain);
  }

  function Stepped(v: View, step: PanelStep): View {
    v.(track := v.track.Then(step))
  }

  lemma {:induction false} OutageKeeps(v: View, mark: int, rows: map<Day, Traffic>)
    requires InFlush(v, Flush.Drained(mark, rows))
    ensures Idle(Stepped(v, DbDown))
    ensures InFlush(Stepped(v, DbUp), Writing(mark, rows, false))
  {
    OneMore(v.track, DbDown);
    OneMore(v.track, DbUp);
  }

  function RowWritten(v: View, d: Day, t: Traffic, ok: bool): View {
    if ok then v.(track := v.track.Then(RowOk(d)), rows := AddTo(v.rows, d, t))
    else Stepped(v, RowFails(d)).(fails := v.fails + 1)
  }

  lemma PlusNests(a: Traffic, b: Traffic, c: Traffic)
    ensures a.Plus(b).Plus(c) == a.Plus(b.Plus(c))
  {}

  lemma {:induction false} RowGrows(rows: map<Day, Traffic>, base: map<Day, Traffic>, since: map<Day, Traffic>, d: Day,
                                    t: Traffic)
    requires Grown(rows, base, since)
    ensures Grown(AddTo(rows, d, t), base, AddTo(since, d, t))
  {
    forall e ensures At(AddTo(rows, d, t), e) == At(base, e).Plus(At(AddTo(since, d, t), e)) {
      assert At(rows, e) == At(base, e).Plus(At(since, e));
      AddElsewhere(rows, d, t, e);
      AddElsewhere(since, d, t, e);
      PlusNests(At(base, e), At(since, e), t);
    }
  }

  lemma {:induction false} RowKeeps(v: View, mark: int, todo: map<Day, Traffic>, failed: bool, d: Day, ok: bool)
    requires InFlush(v, Writing(mark, todo, failed)) && d in todo
    ensures InFlush(RowWritten(v, d, todo[d], ok), Writing(mark, todo - {d}, failed || !ok))
  {
    if ok {
      RowGrows(v.rows, v.base, v.track.End().rows, d, todo[d]);
      OneMore(v.track, RowOk(d));
    } else {
      OneMore(v.track, RowFails(d));
    }
  }

  function Ended(v: View, mark: int, failed: bool, ok: bool): View {
    if failed || mark <= v.s.persisted then Stepped(v, NoCommit)
    else if ok then
      v.(track := v.track.Then(Commit(true)), s := v.s.(persisted := mark), mark := Max(v.mark, mark))
    else Stepped(v, Commit(false)).(fails := v.fails + 1)
  }

  lemma {:induction false} EndKeeps(v: View, mark: int, failed: bool, ok: bool)
    requires InFlush(v, Writing(mark, map[], failed))
    ensures Idle(Ended(v, mark, failed, ok))
  {
    OneMore(v.track, if failed || mark <= v.s.persisted then NoCommit else Commit(ok));
  }

  /** The same node, which has accepted nothing more. */
  ghost predicate Continues(v: View, v': View) {
    v'.base == v.base && v'.track.born == v.track.born && Accepted(v'.track.steps) == Accepted(v.track.steps)
  }

  lemma {:induction false} StepContinues(v: View, v': View, step: PanelStep)
    requires v'.track == v.track.Then(step) && v'.base == v.base && !step.Accept?
    ensures Continues(v, v')
  {
    assert v'.track.steps[..|v.track.steps|] == v.track.steps;
    assert Accepted(v.track.steps) + [] == Accepted(v.track.steps);
  }

  /** A node's share of a flush: the watermark read, the rows to write, and whether one of them failed. */
  datatype Job = Job(mark: int, batch: map<Day, Traffic>, failed: bool)

  ghost predicate WasDrained(v: View, v': View, j: Job) {
    && InFlush(v', Flush.Drained(j.mark, j.batch)) && Continues(v, v')
    && j == Job(v.s.seqNo, NonZeroRows(v.s.traf), false)
    && v'.s == v.s.(traf := map[]) && v'.rows == v.rows && v'.mark == v.mark && v'.fails == v.fails
  }

  ghost predicate WasWritten(v: View, v': View, j: Job, j': Job) {
    && InFlush(v', Writing(j.mark, map[], j'.failed)) && Continues(v, v')
    && j' == j.(failed := j'.failed)
    && (!j'.failed ==> Grown(v'.rows, v.rows, j.batch))
    && v'.s == v.s && v'.mark == v.mark
    && v.fails <= v'.fails && (j'.failed <==> v.fails < v'.fails)
  }

  /** What is written and what is still to be written make up the batch. */
  ghost predicate Owing(rows: map<Day, Traffic>, todo: map<Day, Traffic>, before: map<Day, Traffic>,
                        batch: map<Day, Traffic>) {
    forall e :: At(rows, e).Plus(At(todo, e)) == At(before, e).Plus(At(batch, e))
  }

  lemma {:induction false} RowPays(rows: map<Day, Traffic>, todo: map<Day, Traffic>, before: map<Day, Traffic>,
                                   batch: map<Day, Traffic>, d: Day)
    requires Owing(rows, todo, before, batch) && d in todo
    ensures Owing(AddTo(rows, d, todo[d]), todo - {d}, before, batch)
  {
    forall e ensures At(AddTo(rows, d, todo[d]), e).Plus(At(todo - {d}, e)) == At(before, e).Plus(At(batch, e)) {
      RowMoves(rows, todo, d, e);
      assert At(rows, e).Plus(At(todo, e)) == At(before, e).Plus(At(batch, e));
    }
  }

  lemma {:induction false} NothingOwed(rows: map<Day, Traffic>, before: map<Day, Traffic>, batch: map<Day, Traffic>)
    requires Owing(rows, map[], before, batch)
    ensures Grown(rows, before, batch)
  {
    forall e ensures At(rows, e) == At(before, e).Plus(At(batch, e)) {
      assert At(rows, e).Plus(At(map[], e)) == At(before, e).Plus(At(batch, e));
    }
  }

  /** The views that a node may have while its rows are being written. */
  ghost function HalfWritten(v: View, j: Job, todo: map<Day, Traffic>, failed: bool): iset<View> {
    iset v' | && InFlush(v', Writing(j.mark, todo, failed)) && Continues(v, v')
              && (!failed ==> Owing(v'.rows, todo, v.rows, j.batch))
              && v'.s == v.s && v'.mark == v.mark
              && v.fails <= v'.fails && (failed <==> v.fails < v'.fails)
  }

  lemma ContinuesOn(v: View, v': View, v'': View)
    requires Continues(v, v') && Continues(v', v'')
    ensures Continues(v, v'')
  {}

  lemma {:induction false} RowContinues(v: View, v': View, d: Day, t: Traffic, ok: bool)
    requires Continues(v, v')
    ensures Continues(v, RowWritten(v', d, t, ok))
  {
    StepContinues(v', RowWritten(v', d, t, ok), if ok then RowOk(d) else RowFails(d));
    ContinuesOn(v, v', RowWritten(v', d, t, ok));
  }

  lemma {:induction false} RowOwes(v: View, v': View, j: Job, todo: map<Day, Traffic>, failed: bool, d: Day, ok: bool)
    requires d in todo && (!failed ==> Owing(v'.rows, todo, v.rows, j.batch))
    ensures !failed && ok ==> Owing(RowWritten(v', d, todo[d], ok).rows, todo - {d}, v.rows, j.batch)
  {
    if !failed && ok {
      RowPays(v'.rows, todo, v.rows, j.batch, d);
    }
  }

  lemma {:induction false} NothingWritten(v: View, j: Job)
    requires InFlush(v, Writing(j.mark, j.batch, false))
    ensures v in HalfWritten(v, j, j.batch, false)
  {}

  lemma {:induction false} RowSoFar(v: View, v': View, j: Job, todo: map<Day, Traffic>, failed: bool, d: Day, ok: bool)
    requires v' in HalfWritten(v, j, todo, failed) && d in todo
    ensures RowWritten(v', d, todo[d], ok) in HalfWritten(v, j, todo - {d}, failed || !ok)
  {
    RowKeeps(v', j.mark, todo, failed, d, ok);
    RowContinues(v, v', d, todo[d], ok);
    RowOwes(v, v', j, todo, failed, d, ok);
  }

  lemma {:induction false} AllRowsWritten(v: View, v': View, j: Job, todo: map<Day, Traffic>, failed: bool)
    requires v' in HalfWritten(v, j, todo, failed) && todo.Keys == {}
    ensures WasWritten(v, v', j, j.(failed := failed))
  {
    assert todo == map[];
    if !failed {
      NothingOwed(v'.rows, v.rows, j.batch);
    }
  }

  ghost predicate WasEnded(v: View, v': View, j: Job) {
    && Idle(v') && Continues(v, v')
    && (v'.mark == v.mark || (!j.failed && v'.mark == j.mark > v.mark))
    && v'.s == v.s.(persisted := v'.s.persisted) && v'.rows == v.rows && v.fails <= v'.fails
    && (v'.fails == v.fails && !j.failed ==> MarkedUpTo(v, v', j.mark))
  }

  /** The watermark is durable, here and in the database. */
  predicate MarkedUpTo(v: View, v': View, mark: int) {
    mark > v.s.persisted ==> v'.s.persisted == mark && v'.mark == Max(v.mark, mark)
  }

  /** What a flush does to a node: the bucket is emptied. With the database up and no statement about the node failing,
      every byte of the bucket is in the rows and the number last accounted is durable. Whatever fails, if the durable
      watermark moves, it moves to that number, and then too every byte is in the rows. With the database down, nothing
      in it changes. */
  ghost predicate WasFlushed(v: View, v': View, up: bool) {
    && Idle(v') && Continues(v, v')
    && v'.s == v.s.(traf := map[], persisted := v'.s.persisted)
    && (v'.mark == v.mark || (v'.mark == v.s.seqNo > v.mark && Grown(v'.rows, v.rows, v.s.traf)))
    && (up && v'.fails == v.fails ==> Grown(v'.rows, v.rows, v.s.traf) && MarkedUpTo(v, v', v.s.seqNo))
    && (!up ==> v'.rows == v.rows && v'.mark == v.mark && v'.s.persisted == v.s.persisted)
  }

  lemma {:induction false} ZeroRowsAddNothing(rows: map<Day, Traffic>, before: map<Day, Traffic>,
                                              traf: map<Day, Traffic>)
    requires Grown(rows, before, NonZeroRows(traf))
    ensures Grown(rows, before, traf)
  {
    forall d ensures At(rows, d) == At(before, d).Plus(At(traf, d)) {
      assert At(rows, d) == At(before, d).Plus(At(NonZeroRows(traf), d));
    }
  }

  lemma {:induction false} PhasesFlush(v: View, v1: View, v2: View, v3: View, v4: View, j: Job, j': Job)
    requires WasDrained(v, v1, j) && v2 == Stepped(v1, DbUp)
    requires WasWritten(v2, v3, j, j') && WasEnded(v3, v4, j')
    ensures WasFlushed(v, v4, true)
  {
    StepContinues(v1, v2, DbUp);
    if !j'.failed {
      ZeroRowsAddNothing(v3.rows, v.rows, v.s.traf);
    }
  }

  lemma {:induction false} DropFlushes(v: View, v1: View, v2: View, j: Job)
    requires WasDrained(v, v1, j) && v2 == Stepped(v1, DbDown)
    ensures WasFlushed(v, v2, false)
  {
    OutageKeeps(v1, j.mark, j.batch);
    StepContinues(v1, v2, DbDown);
  }

  // The same for all nodes, of which `todo` are still to be dealt with.

  ghost predicate DrainedBut(v: map<int, View>, v': map<int, View>, todo: set<int>, jobs: map<int, Job>) {
    && v'.Keys == v.Keys && todo <= v.Keys && jobs.Keys == v.Keys - todo
    && forall n :: n in v ==> if n in todo then v'[n] == v[n] else WasDrained(v[n], v'[n], jobs[n])
  }

  lemma DrainedOneMore(v: map<int, View>, v': map<int, View>, todo: set<int>, jobs: map<int, Job>, n: int, w: View,
                       j: Job)
    requires DrainedBut(v, v', todo, jobs) && n in todo && WasDrained(v'[n], w, j)
    ensures DrainedBut(v, v'[n := w], todo - {n}, jobs[n := j])
  {}

  ghost predicate WrittenBut(v: map<int, View>, v': map<int, View>, todo: set<int>, jobs: map<int, Job>,
                             jobs': map<int, Job>) {
    && v'.Keys == v.Keys == jobs.Keys && todo <= v.Keys && jobs'.Keys == v.Keys - todo
    && forall n :: n in v ==> if n in todo then v'[n] == v[n] else WasWritten(v[n], v'[n], jobs[n], jobs'[n])
  }

  lemma WrittenOneMore(v: map<int, View>, v': map<int, View>, todo: set<int>, jobs: map<int, Job>, jobs': map<int, Job>,
                       n: int, w: View, j: Job)
    requires WrittenBut(v, v', todo, jobs, jobs') && n in todo && WasWritten(v'[n], w, jobs[n], j)
    ensures WrittenBut(v, v'[n := w], todo - {n}, jobs, jobs'[n := j])
  {}

  ghost predicate EndedBut(v: map<int, View>, v': map<int, View>, todo: set<int>, jobs: map<int, Job>) {
    && v'.Keys == v.Keys == jobs.Keys && todo <= v.Keys
    && forall n :: n in v ==> if n in todo then v'[n] == v[n] else WasEnded(v[n], v'[n], jobs[n])
  }

  lemma EndedOneMore(v: map<int, View>, v': map<int, View>, todo: set<int>, jobs: map<int, Job>, n: int, w: View)
    requires EndedBut(v, v', todo, jobs) && n in todo && WasEnded(v'[n], w, jobs[n])
    ensures EndedBut(v, v'[n := w], todo - {n}, jobs)
  {}

  ghost predicate AllIn(v: map<int, View>, jobs: map<int, Job>, rest: bool) {
    jobs.Keys == v.Keys
    && forall n :: n in v ==>
                     InFlush(v[n], Writing(jobs[n].mark, if rest then jobs[n].batch else map[], jobs[n].failed))
  }

  function AllStepped(v: map<int, View>, step: PanelStep): map<int, View> {
    map n | n in v :: Stepped(v[n], step)
  }

  ghost predicate AllFlushed(v: map<int, View>, v': map<int, View>, up: bool) {
    v'.Keys == v.Keys && forall n :: n in v ==> WasFlushed(v[n], v'[n], up)
  }

  lemma {:induction false} UpKeeps(v: View, v1: View, j: Job)
    requires WasDrained(v, v1, j)
    ensures InFlush(Stepped(v1, DbUp), Writing(j.mark, j.batch, j.failed))
  {
    OutageKeeps(v1, j.mark, j.batch);
  }

  lemma {:induction false} AllUp(v: map<int, View>, v1: map<int, View>, jobs: map<int, Job>)
    requires DrainedBut(v, v1, {}, jobs)
    ensures AllIn(AllStepped(v1, DbUp), jobs, true)
  {
    var v2 := AllStepped(v1, DbUp);
    forall n | n in v2 ensures InFlush(v2[n], Writing(jobs[n].mark, jobs[n].batch, jobs[n].failed)) {
      UpKeeps(v[n], v1[n], jobs[n]);
    }
  }

  lemma {:induction false} AllDropped(v: map<int, View>, v1: map<int, View>, jobs: map<int, Job>)
    requires DrainedBut(v, v1, {}, jobs)
    ensures AllFlushed(v, AllStepped(v1, DbDown), false)
  {
    forall n | n in v { DropFlushes(v[n], v1[n], Stepped(v1[n], DbDown), jobs[n]); }
  }

  lemma {:induction false} AllPhases(v: map<int, View>, v1: map<int, View>, v3: map<int, View>, v4: map<int, View>,
                                     jobs: map<int, Job>, jobs': map<int, Job>)
    requires DrainedBut(v, v1, {}, jobs) && WrittenBut(AllStepped(v1, DbUp), v3, {}, jobs, jobs') &&
             EndedBut(v3, v4, {}, jobs')
    ensures AllFlushed(v, v4, true)
  {
    forall n | n in v { PhasesFlush(v[n], v1[n], Stepped(v1[n], DbUp), v3[n], v4[n], jobs[n], jobs'[n]); }
  }

  // ----- the watermark in memory -----

  /** The numbers that the process has been told: the one it started with, those of the samples it has accepted, and
      those that handshakes have agreed on. */
  function Told(t: Track): set<int> {
    {t.born.tracker} + SeqNos(Accepted(t.steps)) + set s | s in t.steps && s.InitNode? :: s.lastSeq
  }

  ghost predicate IsLargest(mark: int, ns: set<int>) {
    mark in ns && forall n :: n in ns ==> n <= mark
  }

  lemma {:induction false} ToldMore(t: Track)
    requires t.steps != []
    ensures var step := t.steps[|t.steps| - 1];
            Told(t) == Told(t.Before()) + (if step.Accept? then {step.rec.seqNo}
                                           else if step.InitNode? then {step.lastSeq} else {})
  {
    var step := t.steps[|t.steps| - 1];
    assert t.steps == t.Before().steps + [step];
    assert forall r :: r in Accepted(t.steps) <==> r in Accepted(t.Before().steps) || r in Enters(step);
  }

  lemma {:induction false} StepTells(p: Panel, step: PanelStep, ns: set<int>)
    requires Can(p, step) && !step.PanelRestart? && !step.Reload? && IsLargest(p.tracker, ns)
    ensures IsLargest(Apply(p, step).tracker, ns + (if step.Accept? then {step.rec.seqNo}
                                                    else if step.InitNode? then {step.lastSeq} else {}))
  {}

  lemma {:induction false} TrackerIsLargest(t: Track)
    requires t.Possible() && forall s :: s in t.steps ==> !s.PanelRestart? && !s.Reload?
    ensures IsLargest(t.End().tracker, Told(t))
    decreases |t.steps|
  {
    if t.steps != [] {
      assert t.steps[|t.steps| - 1] in t.steps;
      TrackerIsLargest(t.Before());
      ToldMore(t);
      StepTells(t.Before().End(), t.steps[|t.steps| - 1], Told(t.Before()));
    }
  }

  // ----- the pipeline itself -----

  const FRESH := NodeState(0, map[], 0)

  lemma Overwritten<K, V>(m: map<K, V>, k: K, a: V, b: V)
    ensures m[k := a][k := b] == m[k := b]
  {}

  function NewView(s: NodeState, rows: map<Day, Traffic>, mark: int, fails: int): View {
    View(Track(Newborn(s.seqNo, s.persisted, mark), []), s, rows, rows, mark, fails)
  }

  lemma {:induction false} NewViewIsIdle(s: NodeState, rows: map<Day, Traffic>, mark: int, fails: int)
    requires s.traf == map[]
    ensures Idle(NewView(s, rows, mark, fails))
  {
    assert NewView(s, rows, mark, fails).track.End() == Newborn(s.seqNo, s.persisted, mark);
  }

  /** The views are those of the states in memory and of the tables. */
  ghost predicate Mirrors(views: map<int, View>, st: map<int, NodeState>, rows: map<int, map<Day, Traffic>>,
                          marks: map<int, int>,
                          failures: multiset<int>) {
    && views.Keys == st.Keys
    && forall n :: n in views ==>
                     views[n].s == st[n] && views[n].rows == RowsOf(rows, n) && views[n].mark == MarkOf(marks, n) &&
                     views[n].fails == failures[n]
  }

  lemma {:induction false} RowMirrored(views: map<int, View>, st: map<int, NodeState>,
                                       rows: map<int, map<Day, Traffic>>,
                                       marks: map<int, int>, failures: multiset<int>, n: int, d: Day, t: Traffic,
                                       ok: bool)
    requires Mirrors(views, st, rows, marks, failures) && n in views
    ensures Mirrors(views[n := RowWritten(views[n], d, t, ok)], st,
                    if ok then rows[n := AddTo(RowsOf(rows, n), d, t)] else rows, marks,
                    if ok then failures else failures + multiset{n})
  {}

  lemma {:induction false} EndMirrored(views: map<int, View>, st: map<int, NodeState>,
                                       rows: map<int, map<Day, Traffic>>,
                                       marks: map<int, int>, marks': map<int, int>, failures: multiset<int>, n: int,
                                       v: View)
    requires Mirrors(views, st, rows, marks, failures) && n in views && v.rows == views[n].rows
    requires marks' == marks || marks' == marks[n := v.mark]
    requires v.mark == MarkOf(marks', n) && (v.fails == views[n].fails || v.fails == views[n].fails + 1)
    ensures Mirrors(views[n := v], st[n := v.s], rows, marks',
                    if v.fails == views[n].fails then failures else failures + multiset{n})
  {}

  /** A node's view; one that is yet to be created starts without a watermark. */
  function ViewFor(views: map<int, View>, n: int, rows: map<int, map<Day, Traffic>>, marks: map<int, int>,
                   fails: int): View {
    if n in views then views[n] else NewView(FRESH, RowsOf(rows, n), MarkOf(marks, n), fails)
  }

  /** The status table after a sample: tunnels without a port or a status leave it alone. */
  function Statuses(live: map<(int, int), string>, n: int, ps: seq<ProxyDelta>): map<(int, int), string> {
    if ps == [] then live
    else
      var before, p := Statuses(live, n, ps[..|ps| - 1]), ps[|ps| - 1];
      if p.remotePort <= 0 || p.status == "" then before else before[(n, p.remotePort) := p.status]
  }

  lemma {:induction false} TunnelSums(ps: seq<ProxyDelta>, i: nat)
    requires i < |ps|
    ensures TunnelIn(ps[..i + 1]) == TunnelIn(ps[..i]) + ps[i].bytesIn
    ensures TunnelOut(ps[..i + 1]) == TunnelOut(ps[..i]) + ps[i].bytesOut
    decreases i
  {
    if i == 0 {
      assert ps[..1][1..] == [];
    } else {
      assert ps[..i + 1][1..] == ps[1..][..i] && ps[..i][1..] == ps[1..][..i - 1];
      TunnelSums(ps[1..], i - 1);
    }
  }

  method AddInto(traf: map<Day, Traffic>, day: Day, t: Traffic) returns (traf': map<Day, Traffic>)
    ensures traf' == AddTo(traf, day, t)
  {
    var d := if day in traf then traf[day] else ZERO;
    d := Traffic(d.nodeRx + t.nodeRx, d.nodeTx + t.nodeTx, d.tunIn + t.tunIn, d.tunOut + t.tunOut);
    traf' := traf[day := d];
  }

  class Pipeline {
    const db: Database
    var st: map<int, NodeState>
    var live: map<(int, int), string>
    ghost var views: map<int, View>

    ghost predicate Mirrored()
      reads this`st, this`views, db
    {
      Mirrors(views, st, db.rows, db.marks, db.failures)
    }

    ghost predicate Valid()
      reads this`st, this`views, db
    {
      Mirrored() && forall n :: n in views ==> Idle(views[n])
    }

    /** A new process: nothing is in memory. */
    constructor (db: Database)
      ensures Valid() && this.db == db && st == map[]
    {
      this.db := db;
      st, live, views := map[], map[], map[];
    }

    method Put(n: int, s: NodeState, ghost v: View)
      requires Valid() && v.s == s && v.rows == RowsOf(db.rows, n)
      requires v.mark == MarkOf(db.marks, n) && v.fails == db.failures[n]
      requires forall w :: w == v ==> Idle(w)
      modifies this`st, this`views
      ensures Valid() && st == old(st)[n := s] && views == old(views)[n := v] && live == old(live)
    {
      st, views := st[n := s], views[n := v];
    }

    /** State for a node, created without a watermark if there is none. */
    method Get(n: int) returns (s: NodeState)
      requires Valid()
      modifies this`st, this`views
      ensures Valid() && live == old(live) && n in st && s == st[n] == StateOf(old(st), n) && st == old(st)[n := s]
      ensures views == old(views)[n := ViewFor(old(views), n, db.rows, db.marks, db.failures[n])]
    {
      if n in st {
        s := st[n];
        assert views[n := views[n]] == views && st[n := st[n]] == st;
      } else {
        s := FRESH;
        ghost var v := NewView(s, RowsOf(db.rows, n), MarkOf(db.marks, n), db.failures[n]);
        NewViewIsIdle(s, v.rows, v.mark, v.fails);
        Put(n, s, v);
      }
    }

    /** Seeds the watermark of a new node, and raises, never lowers, that of a known one. */
    method InitNode(n: int, lastSeq: int)
      requires Valid()
      modifies this`st, this`views
      ensures Valid()
      ensures st == old(st)[n := if n in old(st) then old(st)[n].(seqNo := Max(old(st)[n].seqNo, lastSeq))
                    else NodeState(lastSeq, map[], lastSeq)]
      ensures n in views && views == old(views)[n := views[n]] &&
              (n in old(views) ==> Continues(old(views)[n], views[n]))
    {
      if n in st {
        ghost var was := views[n];
        if lastSeq > st[n].seqNo {
          var s := st[n].(seqNo := lastSeq);
          ghost var v := Stepped(was, PanelStep.InitNode(lastSeq)).(s := s);
          OneMore(was.track, PanelStep.InitNode(lastSeq));
          StepContinues(was, v, PanelStep.InitNode(lastSeq));
          Put(n, s, v);
        } else {
          assert st[n := st[n]] == st && views[n := was] == views;
        }
      } else {
        var s := NodeState(lastSeq, map[], lastSeq);
        ghost var v := NewView(s, RowsOf(db.rows, n), MarkOf(db.marks, n), db.failures[n]);
        NewViewIsIdle(s, v.rows, v.mark, v.fails);
        Put(n, s, v);
      }
    }

    /** The watermark in memory: the largest number that the process has been told for the node, by its database, by a
        handshake or with a sample. */
    method CommitSeq(n: int) returns (mark: int)
      requires Valid()
      ensures mark == if n in st then st[n].seqNo else 0
      ensures if n in views then IsLargest(mark, Told(views[n].track)) else mark == 0
    {
      mark := if n in st then st[n].seqNo else 0;
      if n in st {
        TrackerIsLargest(views[n].track);
      }
    }

    /** The watermark that a handshake sends, and that the node then has: the loaded one, or the one in memory if that
        is greater. So the agent is asked for nothing that was accepted before. */
    method Handshake(n: int, lastSeq: int) returns (hello: int)
      requires Valid()
      modifies this`st, this`views
      ensures Valid() && n in st && st[n].seqNo == hello >= lastSeq
      ensures n in old(views) ==> forall m :: m in Told(old(views)[n].track) ==> m <= hello
      ensures n in views && views == old(views)[n := views[n]] &&
              (n in old(views) ==> Continues(old(views)[n], views[n]))
    {
      hello := lastSeq;
      var s := CommitSeq(n);
      if s > hello {
        hello := s;
      }
      InitNode(n, hello);
    }

    /** A sample's tunnels: their bytes in all, and the statuses of those that have a port. */
    method TakeTunnels(n: int, ps: seq<ProxyDelta>) returns (tunIn: int, tunOut: int)
      requires Valid()
      modifies this`live
      ensures Valid() && st == old(st) && views == old(views)
      ensures tunIn == TunnelIn(ps) && tunOut == TunnelOut(ps) && live == Statuses(old(live), n, ps)
    {
      tunIn, tunOut := 0, 0;
      for i := 0 to |ps|
        invariant tunIn == TunnelIn(ps[..i]) && tunOut == TunnelOut(ps[..i])
        invariant live == Statuses(old(live), n, ps[..i])
        invariant Valid() && st == old(st) && views == old(views)
      {
        TunnelSums(ps, i);
        assert ps[..i + 1][..i] == ps[..i];
        tunIn, tunOut := tunIn + ps[i].bytesIn, tunOut + ps[i].bytesOut;
        if ps[i].remotePort <= 0 {
          continue;
        }
        if ps[i].status != "" {
          live := live[(n, ps[i].remotePort) := ps[i].status];
        }
      }
      assert ps[..|ps|] == ps;
    }

    method AccountNew(n: int, m: Metrics, r: TrafficRec, ghost skipped: set<int>)
      requires Valid() && n in st && IsNew(st[n].seqNo, r.seqNo) && r == RecOf(m, r.atMs)
      modifies this`st, this`live, this`views
      ensures Valid() && live == Statuses(old(live), n, m.proxies)
      ensures views == old(views)[n := Folded(old(views)[n], r, skipped)]
      ensures st == old(st)[n := WithSample(old(st)[n], r)]
    {
      var tunIn, tunOut := TakeTunnels(n, m.proxies);
      ghost var was := views[n];
      var s := st[n];
      var traf := AddInto(s.traf, DayOf(r), Traffic(m.rxDelta, m.txDelta, tunIn, tunOut));
      s := s.(seqNo := r.seqNo, traf := traf);
      AccountKeeps(was, r, skipped);
      Put(n, s, Folded(was, r, skipped));
    }

    /** Adds a sample to the bucket of the day it was sampled on, once and to no other: a number at or below the
        watermark changes nothing, except that a node not known before is known from now on. Every tunnel's bytes
        count, also those of tunnels without a port.
        `toShow`: browsers are told, as the sample is new and not replayed. */
    method Account(n: int, m: Metrics, now: int, ghost skipped: set<int>) returns (toShow: bool)
      requires Valid()
      modifies this`st, this`live, this`views
      ensures Valid()
      ensures var v := ViewFor(old(views), n, db.rows, db.marks, db.failures[n]);
              && views == old(views)[n := if IsNew(v.s.seqNo, m.seqNo) then Folded(v, RecOf(m, now), skipped) else v]
              && live == (if IsNew(v.s.seqNo, m.seqNo) then Statuses(old(live), n, m.proxies) else old(live))
              && (toShow <==> IsNew(v.s.seqNo, m.seqNo) && !m.backfill)
      ensures n in st && st == old(st)[n := st[n]]
      ensures m.seqNo <= StateOf(old(st), n).seqNo ==> st[n] == StateOf(old(st), n)
      ensures m.seqNo > StateOf(old(st), n).seqNo ==> Booked(StateOf(old(st), n), m, now, st[n])
    {
      ghost var nodes := st;
      var s := Get(n);
      toShow := false;
      if m.seqNo > s.seqNo {
        ghost var v := views[n];
        var r := RecOf(m, now);
        AccountNew(n, m, r, skipped);
        toShow := !m.backfill;
        Overwritten(old(views), n, v, Folded(v, r, skipped));
        SampleIsBooked(s, m, now);
        Overwritten(nodes, n, s, st[n]);
      }
    }

    /** The watermark is read before the buckets are taken away. */
    method DrainNode(n: int) returns (j: Job, ghost v: View)
      requires Mirrored() && n in views && Idle(views[n])
      modifies this`st, this`views
      ensures Mirrored() && views == old(views)[n := v] && WasDrained(old(views)[n], v, j)
    {
      ghost var was := views[n];
      var traf := st[n].traf;
      j := Job(st[n].seqNo, map d | d in traf && traf[d] != ZERO :: traf[d], false);
      v := Emptied(was);
      st, views := st[n := st[n].(traf := map[])], views[n := v];
      DrainKeeps(was);
      StepContinues(was, Stepped(was, Capture), Capture);
      StepContinues(Stepped(was, Capture), v, Drain);
    }

    method WriteRow(n: int, d: Day, t: Traffic) returns (ok: bool)
      requires Mirrored() && n in views
      modifies db`rows, db`failures, this`views
      ensures Mirrored() && views == old(views)[n := RowWritten(old(views)[n], d, t, ok)]
    {
      ghost var now, rows, failures := views, db.rows, db.failures;
      ok := db.IncrTrafficDaily(n, d, t);
      RowMirrored(now, st, rows, db.marks, failures, n, d, t, ok);
      views := views[n := RowWritten(now[n], d, t, ok)];
    }

    method WriteNext(n: int, d: Day, todo: map<Day, Traffic>, failed: bool, ghost j: Job, ghost was: View)
      returns (failed': bool)
      requires Mirrored() && n in views && d in todo && views[n] in HalfWritten(was, j, todo, failed)
      modifies db`rows, db`failures, this`views
      ensures Mirrored() && n in views && views == old(views)[n := views[n]]
      ensures views[n] in HalfWritten(was, j, todo - {d}, failed')
    {
      ghost var before := views[n];
      var ok := WriteRow(n, d, todo[d]);
      failed' := failed || !ok;
      RowSoFar(was, before, j, todo, failed, d, ok);
    }

    /** Rows are written one by one, in any order; a failing one does not stop the others. */
    method WriteEach(n: int, j: Job, ghost was: View) returns (failed: bool)
      requires Mirrored() && n in views && views[n] in HalfWritten(was, j, j.batch, false)
      modifies db`rows, db`failures, this`views
      ensures Mirrored() && n in views && views == old(views)[n := views[n]]
      ensures views[n] in HalfWritten(was, j, map[], failed)
    {
      ghost var all := views;
      var todo, days := j.batch, j.batch.Keys;
      failed := false;
      assert views[n := views[n]] == views;
      while days != {}
        invariant days == todo.Keys && Mirrored() && n in views
        invariant views == all[n := views[n]] && views[n] in HalfWritten(was, j, todo, failed)
        decreases days
      {
        var d := AnyOf(days);
        ghost var before := views[n];
        failed := WriteNext(n, d, todo, failed, j, was);
        Overwritten(all, n, before, views[n]);
        todo, days := todo - {d}, days - {d};
      }
      assert todo == map[];
    }

    method WriteRows(n: int, j: Job) returns (j': Job, ghost v: View)
      requires Mirrored() && n in views && InFlush(views[n], Writing(j.mark, j.batch, j.failed)) && !j.failed
      modifies db`rows, db`failures, this`views
      ensures Mirrored() && views == old(views)[n := v] && WasWritten(old(views)[n], v, j, j')
    {
      ghost var was := views[n];
      NothingWritten(was, j);
      var failed := WriteEach(n, j, was);
      v, j' := views[n], j.(failed := failed);
      AllRowsWritten(was, v, j, map[], failed);
    }

    /** The durable watermark is only asked to move over a batch whose every row was written. */
    method EndNode(n: int, j: Job) returns (ghost v: View)
      requires Mirrored() && n in views && InFlush(views[n], Writing(j.mark, map[], j.failed))
      modifies db`marks, db`failures, this`st, this`views
      ensures Mirrored() && views == old(views)[n := v] && WasEnded(old(views)[n], v, j)
    {
      ghost var was, marks, failures := views[n], db.marks, db.failures;
      var s := st[n];
      var ok := false;
      if !j.failed && j.mark > s.persisted {
        ok := db.SetNodeLastCommitSeq(n, j.mark);
        if ok {
          s := s.(persisted := j.mark);
        }
      }
      v := Ended(was, j.mark, j.failed, ok);
      EndMirrored(views, st, db.rows, marks, db.marks, failures, n, v);
      st, views := st[n := s], views[n := v];
      EndKeeps(was, j.mark, j.failed, ok);
      StepContinues(was, v, if j.failed || j.mark <= was.s.persisted then NoCommit else Commit(ok));
    }

    method DrainAll() returns (jobs: map<int, Job>)
      requires Valid()
      modifies this`st, this`views
      ensures Mirrored() && DrainedBut(old(views), views, {}, jobs)
    {
      ghost var before := views;
      jobs := map[];
      var todo := st.Keys;
      while todo != {}
        invariant Mirrored() && DrainedBut(before, views, todo, jobs)
        decreases todo
      {
        var n := AnyOf(todo);
        ghost var now := views;
        var j, v := DrainNode(n);
        DrainedOneMore(before, now, todo, jobs, n, v, j);
        jobs, todo := jobs[n := j], todo - {n};
      }
    }

    method WriteAll(jobs: map<int, Job>) returns (jobs': map<int, Job>)
      requires Mirrored() && AllIn(views, jobs, true) && forall n :: n in jobs ==> !jobs[n].failed
      modifies db`rows, db`failures, this`views
      ensures Mirrored() && WrittenBut(old(views), views, {}, jobs, jobs') && AllIn(views, jobs', false)
    {
      ghost var before := views;
      jobs' := map[];
      var todo := st.Keys;
      while todo != {}
        invariant Mirrored() && WrittenBut(before, views, todo, jobs, jobs')
        decreases todo
      {
        var n := AnyOf(todo);
        ghost var now := views;
        var j, v := WriteRows(n, jobs[n]);
        WrittenOneMore(before, now, todo, jobs, jobs', n, v, j);
        jobs', todo := jobs'[n := j], todo - {n};
      }
    }

    method EndAll(jobs: map<int, Job>)
      requires Mirrored() && AllIn(views, jobs, false)
      modifies db`marks, db`failures, this`st, this`views
      ensures Mirrored() && EndedBut(old(views), views, {}, jobs)
    {
      ghost var before := views;
      var todo := st.Keys;
      while todo != {}
        invariant Mirrored() && EndedBut(before, views, todo, jobs)
        decreases todo
      {
        var n := AnyOf(todo);
        ghost var now := views;
        ghost var v := EndNode(n, jobs[n]);
        EndedOneMore(before, now, todo, jobs, n, v);
        todo := todo - {n};
      }
    }

    /** Writes what has been accounted since the last flush, and then makes the watermarks durable. With the database
        down, the batch is dropped and the database is left alone. */
    method Flush(dbUp: bool)
      requires Valid()
      modifies this`st, this`views, db
      ensures Valid() && AllFlushed(old(views), views, dbUp)
      ensures !dbUp ==> db.rows == old(db.rows) && db.marks == old(db.marks)
    {
      ghost var v0 := views;
      var jobs := DrainAll();
      ghost var v1 := views;
      if !dbUp {
        AllDropped(v0, v1, jobs);
        views := AllStepped(v1, DbDown);
      } else {
        AllUp(v0, v1, jobs);
        views := AllStepped(v1, DbUp);
        var jobs' := WriteAll(jobs);
        ghost var v3 := views;
        EndAll(jobs');
        AllPhases(v0, v1, v3, views, jobs, jobs');
      }
    }
  }

  /** What `NodeTrafficIsConserved` says of the pipeline's own fields and tables. */
  lemma {:induction false} PipelineConservesTraffic(p: Pipeline, n: int, d: Day)
    requires p.Valid() && n in p.st
    ensures At(RowsOf(p.db.rows, n), d).Plus(At(p.st[n].traf, d)).Plus(SumDay(Dropped(p.views[n].track), d)) ==
            At(p.views[n].base, d).Plus(SumDay(Accepted(p.views[n].track.steps), d))
  {
    NodeTrafficIsConserved(p.views[n], d);
  }
}
