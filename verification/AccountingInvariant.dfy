/** Every step of the panel keeps `PanelInv`; and, when none of the known hazards
    happens, the database and the durable watermark agree. */
module AccountingInvariant {
  import opened Records
  import opened Accounting

  /** What the steps that come with arguments from outside must respect. */
  ghost predicate Sound(log: seq<TrafficRec>, p: Panel, step: PanelStep) {
    match step
    case Accept(r, skipped) => r in log && skipped == Skipped(log, p.tracker, r.seqNo)
    case InitNode(n) => n <= p.tracker
    case _ => true
  }

  // ----- which records each step moves -----

  lemma {:induction false} FoldMoves(p: Panel, k: nat)
    requires Can(p, Fold(k))
    ensures Accounted(Apply(p, Fold(k))) == Accounted(p)
    ensures forall r :: r in Apply(p, Fold(k)).entered ==> r in p.entered
  {
    OneMoves(p.entered, k, p.buf, multiset(p.booked) + multiset(p.batch));
  }

  lemma OneMoves<T>(a: seq<T>, k: nat, b: seq<T>, rest: multiset<T>)
    requires k < |a|
    ensures rest + multiset(b + [a[k]]) + multiset(a[..k] + a[k + 1..]) == rest + multiset(b) + multiset(a)
    ensures forall x :: x in a[..k] + a[k + 1..] ==> x in a
  {
    assert a == a[..k] + [a[k]] + a[k + 1..];
  }

  lemma {:induction false} RowSplits(p: Panel, d: Day)
    ensures multiset(p.batch) == multiset(OfDay(p.batch, d)) + multiset(NotOfDay(p.batch, d))
    ensures forall r :: r in OfDay(p.batch, d) || r in NotOfDay(p.batch, d) ==> r in p.batch
  {
    SplitByDay(p.batch, d);
  }

  /** The batch is split into the records that a row stands for and the rest: the former reach the
      database, or are dropped. */
  lemma BatchMoves(p: Panel, p': Panel, moved: seq<TrafficRec>)
    requires multiset(p.batch) == multiset(moved) + multiset(p'.batch)
    requires p'.buf == p.buf && p'.entered == p.entered
    ensures multiset(moved) <= Accounted(p)
    ensures p'.booked == p.booked + moved ==> Accounted(p') == Accounted(p)
    ensures p'.booked == p.booked ==> Accounted(p') == Accounted(p) - multiset(moved)
  {
    assert multiset(p.booked + moved) == multiset(p.booked) + multiset(moved);
  }

  lemma {:induction false} StepMoves(p: Panel, step: PanelStep)
    requires Books(p) && Can(p, step)
    requires step.Capture? || step.Drain? || step.DbUp? || step.Commit? || step.NoCommit? || step.InitNode? ||
             step.Reload?
    ensures Accounted(Apply(p, step)) == Accounted(p)
  {}

  // ----- watermarks -----

  lemma {:induction false} StepKeepsWatermarks(log: seq<TrafficRec>, p: Panel, step: PanelStep)
    requires Books(p) && Watermarks(p) && Can(p, step) && Sound(log, p, step)
    ensures Watermarks(Apply(p, step))
  {
    var p' := Apply(p, step);
    MemoryBelowTracker(p);
    match step
    case Fold(k) => FoldMoves(p, k); SameMemory(p, p');
    case RowOk(d) => RowSplits(p, d); SameMemory(p, p');
    case RowFails(d) => RowSplits(p, d); SameMemory(p, p');
    case Accept(r, _) =>
      assert Below(InMemory(p'), r.seqNo);
    case PanelRestart => assert InMemory(p') == [];
    case _ => SameMemory(p, p');
  }

  lemma {:induction false} SameMemory(p: Panel, p': Panel)
    requires forall r :: r in p'.batch || r in p'.buf || r in p'.entered ==>
                           r in p.batch || r in p.buf || r in p.entered
    ensures SeqNos(InMemory(p')) <= SeqNos(InMemory(p))
  {
    forall n | n in SeqNos(InMemory(p')) ensures n in SeqNos(InMemory(p)) {
      var x :| x in InMemory(p') && x.seqNo == n;
      assert x in InMemory(p);
    }
  }

  /** A panel restart aside, no step lowers the tracker, and no step at all lowers the durable watermark; only a
      committing step raises it, after a flush in which no row has failed. (What the rows then hold is the subject of
      `Durability`.) */
  lemma {:induction false} WatermarksNeverGoBack(p: Panel, step: PanelStep)
    requires Watermarks(p) && Can(p, step)
    ensures !step.PanelRestart? ==> p.tracker <= Apply(p, step).tracker
    ensures p.durable <= Apply(p, step).durable
    ensures p.durable < Apply(p, step).durable ==>
              step == Commit(true) && !p.flush.failed && p.flush.rows == map[] && Apply(p, step).durable == p.flush.mark
  {}

  // ----- counts -----

  lemma {:induction false} MovingKeepsInv(log: seq<TrafficRec>, p: Panel, step: PanelStep)
    requires PanelInv(log, p) && Can(p, step) && Sound(log, p, step)
    requires var p' := Apply(p, step);
             Accounted(p') == Accounted(p) && p'.lost == p.lost && p'.twice == p.twice && p'.tracker == p.tracker
    ensures PanelInv(log, Apply(p, step))
  {
    StepKeepsBooks(p, step);
    StepKeepsWatermarks(log, p, step);
  }

  lemma {:induction false} DroppingKeepsInv(log: seq<TrafficRec>, p: Panel, step: PanelStep, gone: seq<TrafficRec>)
    requires Ascending(log) && PanelInv(log, p) && Can(p, step) && Sound(log, p, step)
    requires var p' := Apply(p, step);
             multiset(gone) <= Accounted(p) && Accounted(p') == Accounted(p) - multiset(gone) &&
             p'.lost == p.lost + SeqNos(gone) && p'.twice == p.twice && p'.tracker == p.tracker
    ensures PanelInv(log, Apply(p, step))
  {
    StepKeepsBooks(p, step);
    StepKeepsWatermarks(log, p, step);
    DropKeepsCount(log, Accounted(p), p.lost, p.twice, p.tracker, gone);
  }

  lemma {:induction false} AcceptKeepsInv(log: seq<TrafficRec>, p: Panel, r: TrafficRec)
    requires Ascending(log) && PanelInv(log, p) && r in log && IsNew(p.tracker, r.seqNo)
    ensures PanelInv(log, Apply(p, Accept(r, Skipped(log, p.tracker, r.seqNo))))
  {
    var step := Accept(r, Skipped(log, p.tracker, r.seqNo));
    StepKeepsBooks(p, step);
    StepKeepsWatermarks(log, p, step);
    AcceptKeepsCount(log, Accounted(p), p.lost, p.twice, p.tracker, r);
    assert Accounted(Apply(p, step)) == Accounted(p) + multiset{r};
  }

  lemma {:induction false} RestartKeepsInv(log: seq<TrafficRec>, p: Panel)
    requires Ascending(log) && PanelInv(log, p)
    ensures PanelInv(log, Apply(p, PanelRestart))
  {
    var p' := Apply(p, PanelRestart);
    StepKeepsBooks(p, PanelRestart);
    StepKeepsWatermarks(log, p, PanelRestart);
    assert Accounted(p) == multiset(p.booked) + multiset(InMemory(p));
    assert Accounted(p') == multiset(p.booked);
    assert forall r :: r in p.booked || r in InMemory(p) ==> r in Accounted(p);
    RestartKeepsCount(log, p.booked, InMemory(p), p.lost, p.twice, p.tracker, p.durable);
  }

  lemma {:induction false} RowKeepsInv(log: seq<TrafficRec>, p: Panel, step: PanelStep, d: Day)
    requires Ascending(log) && PanelInv(log, p) && Can(p, step) && (step == RowOk(d) || step == RowFails(d))
    ensures PanelInv(log, Apply(p, step))
  {
    RowSplits(p, d);
    BatchMoves(p, Apply(p, step), OfDay(p.batch, d));
    if step.RowOk? {
      MovingKeepsInv(log, p, step);
    } else {
      DroppingKeepsInv(log, p, step, OfDay(p.batch, d));
    }
  }

  lemma {:induction false} StepKeepsPanelInv(log: seq<TrafficRec>, p: Panel, step: PanelStep)
    requires Ascending(log) && PanelInv(log, p) && Can(p, step) && Sound(log, p, step)
    ensures PanelInv(log, Apply(p, step))
  {
    match step
    case Accept(r, _) => AcceptKeepsInv(log, p, r);
    case PanelRestart => RestartKeepsInv(log, p);
    case Fold(k) => FoldMoves(p, k); MovingKeepsInv(log, p, step);
    case RowOk(d) => RowKeepsInv(log, p, step, d);
    case RowFails(d) => RowKeepsInv(log, p, step, d);
    case DbDown => DroppingKeepsInv(log, p, step, p.batch);
    case _ => StepMoves(p, step); MovingKeepsInv(log, p, step);
  }

  // ----- loss and repetition, exactly -----

  function Memory(p: Panel): multiset<TrafficRec> {
    multiset(p.batch) + multiset(p.buf) + multiset(p.entered)
  }

  /** Within one life of the process a record is in memory once at most, and then not lost. */
  ghost predicate OnceInMemory(mem: multiset<TrafficRec>, lost: set<int>) {
    forall r :: r in mem ==> mem[r] == 1 && r.seqNo !in lost
  }

  /** The steps that lose samples or expose them to being counted again: a number is passed over, a batch is dropped
      with records in it, a row fails, or a panel stops with booked records above its durable
      watermark, which come again, or with records in memory at or below it, which do not. */
  predicate Harms(p: Panel, step: PanelStep) {
    match step
    case Accept(_, skipped) => skipped != {}
    case DbDown => p.batch != []
    case RowFails(_) => true
    case PanelRestart =>
      || (exists r :: r in p.booked && r.seqNo > p.durable && r.seqNo !in p.twice)
      || (exists r :: r in InMemory(p) && r.seqNo <= p.durable)
    case _ => false
  }

  lemma {:induction false} MemoryIs(p: Panel)
    ensures Memory(p) == multiset(InMemory(p)) && Accounted(p) == multiset(p.booked) + Memory(p)
    ensures forall r :: r in Memory(p) <==> r in InMemory(p)
  {}

  /** What a step other than an accepted sample leaves in memory was there before. */
  lemma {:induction false} MemoryShrinks(p: Panel, step: PanelStep)
    requires Books(p) && Can(p, step) && !step.Accept?
    ensures Memory(Apply(p, step)) <= Memory(p)
  {
    match step
    case Fold(k) => OneMoves(p.entered, k, p.buf, multiset(p.batch));
    case RowOk(d) => RowSplits(p, d);
    case RowFails(d) => RowSplits(p, d);
    case _ =>
  }

  lemma {:induction false} DropKeepsOnce(log: seq<TrafficRec>, mem: multiset<TrafficRec>, lost: set<int>,
                                         gone: seq<TrafficRec>)
    requires Ascending(log) && (forall r :: r in mem ==> r in log)
    requires OnceInMemory(mem, lost) && multiset(gone) <= mem
    ensures OnceInMemory(mem - multiset(gone), lost + SeqNos(gone))
  {
    forall r | r in mem - multiset(gone) ensures r.seqNo !in SeqNos(gone) {
      assert mem[r] == 1 && multiset(gone)[r] == 0;
      forall x | x in gone ensures x.seqNo != r.seqNo {
        assert x in multiset(gone);
      }
    }
  }

  lemma {:induction false} AcceptKeepsOnce(p: Panel, r: TrafficRec, skipped: set<int>)
    requires Watermarks(p) && OnceInMemory(Memory(p), p.lost) && IsNew(p.tracker, r.seqNo)
    requires forall n :: n in skipped ==> p.tracker < n < r.seqNo
    ensures OnceInMemory(Memory(Apply(p, Accept(r, skipped))), p.lost + skipped)
  {
    MemoryBelowTracker(p);
    assert Memory(Apply(p, Accept(r, skipped))) == Memory(p) + multiset{r};
    assert forall x :: x in Memory(p) ==> x in p.batch || x in p.buf || x in p.entered;
  }

  lemma {:induction false} RowKeepsOnce(log: seq<TrafficRec>, p: Panel, d: Day)
    requires Ascending(log) && (forall r :: r in Memory(p) ==> r in log) && Can(p, RowFails(d))
    requires OnceInMemory(Memory(p), p.lost)
    ensures OnceInMemory(Memory(Apply(p, RowFails(d))), p.lost + SeqNos(OfDay(p.batch, d)))
  {
    RowSplits(p, d);
    var p' := Apply(p, RowFails(d));
    assert p'.batch == NotOfDay(p.batch, d) && p'.buf == p.buf && p'.entered == p.entered;
    assert Memory(p') == Memory(p) - multiset(OfDay(p.batch, d));
    DropKeepsOnce(log, Memory(p), p.lost, OfDay(p.batch, d));
  }

  lemma {:induction false} BatchKeepsOnce(log: seq<TrafficRec>, p: Panel)
    requires Ascending(log) && (forall r :: r in Memory(p) ==> r in log) && Can(p, DbDown)
    requires OnceInMemory(Memory(p), p.lost)
    ensures OnceInMemory(Memory(Apply(p, DbDown)), p.lost + SeqNos(p.batch))
  {
    assert Memory(Apply(p, DbDown)) == Memory(p) - multiset(p.batch);
    DropKeepsOnce(log, Memory(p), p.lost, p.batch);
  }

  lemma {:induction false} StepKeepsOnce(log: seq<TrafficRec>, p: Panel, step: PanelStep)
    requires Ascending(log) && (forall r :: r in Memory(p) ==> r in log) && Books(p) && Watermarks(p)
    requires Can(p, step) && Sound(log, p, step) && OnceInMemory(Memory(p), p.lost)
    ensures OnceInMemory(Memory(Apply(p, step)), Apply(p, step).lost)
  {
    match step
    case Accept(r, skipped) => AcceptKeepsOnce(p, r, skipped);
    case DbDown => BatchKeepsOnce(log, p);
    case RowFails(d) => RowKeepsOnce(log, p, d);
    case PanelRestart =>
    case _ => MemoryShrinks(p, step);
  }

  lemma {:induction false} DropIsLoss(p: Panel, gone: seq<TrafficRec>)
    requires OnceInMemory(Memory(p), p.lost) && multiset(gone) <= Memory(p)
    ensures p.lost + SeqNos(gone) <= p.lost <==> gone == []
  {
    if gone != [] {
      assert gone[0] in multiset(gone) && gone[0].seqNo in SeqNos(gone);
    }
  }

  /** A row that is being written is not zero, so it stands for records, which are lost if it fails. */
  lemma {:induction false} RowStandsForRecords(p: Panel, d: Day)
    requires Books(p) && p.flush.Writing? && d in p.flush.rows
    ensures OfDay(p.batch, d) != []
  {
    assert At(FlushRows(p.flush), d) == SumDay(p.batch, d);
    SumOfSplit(p.batch, d, d);
  }

  lemma {:induction false} RestartHarmIff(p: Panel)
    requires OnceInMemory(Memory(p), p.lost)
    ensures var p' := Apply(p, PanelRestart);
            p'.lost <= p.lost && p'.twice <= p.twice <==> !Harms(p, PanelRestart)
  {
    var p' := Apply(p, PanelRestart);
    MemoryIs(p);
    forall r | r in InMemory(p) && r.seqNo <= p.durable ensures r.seqNo in p'.lost && r.seqNo !in p.lost {
      assert r.seqNo in SeqNos(InMemory(p));
    }
    forall r | r in p.booked && r.seqNo > p.durable ensures r.seqNo in p'.twice {
      assert r.seqNo in SeqNos(p.booked);
    }
  }

  /** Exactly when a step of the panel loses a sample, or exposes one to being counted again. */
  lemma {:induction false} HarmIff(log: seq<TrafficRec>, p: Panel, step: PanelStep)
    requires PanelInv(log, p) && Can(p, step) && Sound(log, p, step) && OnceInMemory(Memory(p), p.lost)
    ensures Apply(p, step).lost <= p.lost && Apply(p, step).twice <= p.twice <==> !Harms(p, step)
  {
    match step
    case Accept(_, skipped) =>
      if skipped != {} {
        var n :| n in skipped;
        assert n in Apply(p, step).lost && n !in p.lost;
      }
    case DbDown => DropIsLoss(p, p.batch);
    case RowFails(d) =>
      RowSplits(p, d);
      RowStandsForRecords(p, d);
      DropIsLoss(p, OfDay(p.batch, d));
    case PanelRestart => RestartHarmIff(p);
    case _ =>
  }

  // ----- without hazards -----

  /** What can lead to harm, now or later: a batch dropped because the database is down or a row fails, a watermark
      write that fails, an accounting that straddles the moment the flush reads the watermark, and a crash between the
      first row and the watermark. */
  predicate Hazard(p: Panel, step: PanelStep) {
    match step
    case Fold(_) => p.flush.Captured?
    case Capture => p.entered != []
    case DbDown => p.batch != []
    case RowFails(_) => true
    case Commit(ok) => !ok && exists r :: r in p.booked + p.batch && r.seqNo > p.durable
    case PanelRestart => exists r :: r in p.booked && r.seqNo > p.durable
    case Accept(_, skipped) => skipped != {}
    case _ => false
  }

  ghost predicate Above(rs: seq<TrafficRec>, mark: int) {
    forall r :: r in rs ==> r.seqNo > mark
  }

  ghost predicate Below(rs: seq<TrafficRec>, mark: int) {
    forall r :: r in rs ==> r.seqNo <= mark
  }

  /** The database holds exactly the records up to the durable watermark, except while a flush is writing. */
  ghost predicate Clean(p: Panel) {
    && p.lost == {} && p.twice == {} && p.persisted == p.durable
    && Above(p.batch, p.durable)
    && match p.flush
       case Resting => Below(p.booked, p.durable) && Above(p.buf, p.durable) && Above(p.entered, p.durable)
       case Captured(m) =>
         p.durable <= m && Below(p.booked, p.durable) && Below(p.buf, m) && Above(p.buf, p.durable) &&
         Above(p.entered, m)
       case Drained(m, _) =>
         p.durable <= m && Below(p.booked, p.durable) && Below(p.batch, m) && Above(p.buf, m) && Above(p.entered, m)
       case Writing(m, _, failed) =>
         p.durable <= m && !failed && Below(p.booked, m) && Below(p.batch, m) && Above(p.buf, m) && Above(p.entered, m)
  }

  lemma {:induction false} FoldKeepsClean(p: Panel, k: nat)
    requires Clean(p) && Can(p, Fold(k)) && !p.flush.Captured?
    ensures Clean(Apply(p, Fold(k)))
  {
    FoldMoves(p, k);
    assert p.entered[k] in p.entered;
  }

  lemma {:induction false} RestartKeepsClean(p: Panel)
    requires Watermarks(p) && Clean(p) && Below(p.booked, p.durable)
    ensures Clean(Apply(p, PanelRestart))
  {
    assert Above(InMemory(p), p.durable);
    var p' := Apply(p, PanelRestart);
    assert p'.lost == {} && p'.twice == {};
  }

  lemma {:induction false} MemoryBelowTracker(p: Panel)
    requires Watermarks(p)
    ensures Below(p.batch, p.tracker) && Below(p.buf, p.tracker) && Below(p.entered, p.tracker)
  {
    assert forall r :: r in p.batch || r in p.buf || r in p.entered ==> r in InMemory(p);
    assert forall r :: r in InMemory(p) ==> r.seqNo in SeqNos(InMemory(p));
  }

  lemma {:induction false} StepKeepsClean(log: seq<TrafficRec>, p: Panel, step: PanelStep)
    requires Books(p) && Watermarks(p) && Clean(p) && Can(p, step) && Sound(log, p, step) && !Hazard(p, step)
    ensures Clean(Apply(p, step))
  {
    MemoryBelowTracker(p);
    match step
    case Fold(k) => FoldKeepsClean(p, k);
    case PanelRestart => RestartKeepsClean(p);
    case RowOk(d) => RowSplits(p, d);
    case _ =>
  }
}
