/** Traffic is conserved over every run of the panel, whatever fails. */
module Conservation {
  import opened Records
  import opened Accounting
  import AI = AccountingInvariant

  /** A panel's state followed from `born` through the steps it has taken since. */
  datatype Track = Track(born: Panel, steps: seq<PanelStep>) {
    ghost predicate Possible()
      decreases |steps|, 0
    {
      steps == [] || (Before().Possible() && Can(Before().End(), steps[|steps| - 1]))
    }

    ghost function End(): Panel
      requires Possible()
      decreases |steps|, 1
    {
      if steps == [] then born else Apply(Before().End(), steps[|steps| - 1])
    }

    function Before(): Track
      requires steps != []
    {
      Track(born, steps[..|steps| - 1])
    }

    function Then(step: PanelStep): Track {
      Track(born, steps + [step])
    }
  }

  lemma {:induction false} OneMore(t: Track, step: PanelStep)
    requires t.Possible() && Can(t.End(), step)
    ensures t.Then(step).Possible() && t.Then(step).End() == Apply(t.End(), step)
  {
    assert t.Then(step).Before() == t;
  }

  /** The samples that passed the watermark. */
  function Accepted(steps: seq<PanelStep>): seq<TrafficRec> {
    if steps == [] then []
    else Accepted(steps[..|steps| - 1]) + Enters(steps[|steps| - 1])
  }

  function Enters(step: PanelStep): seq<TrafficRec> {
    if step.Accept? then [step.rec] else []
  }

  /** The samples that a step drops: with the batch, with a failing row, or with the memory of a panel that stops. */
  function Drops(p: Panel, step: PanelStep): seq<TrafficRec> {
    match step
    case DbDown => p.batch
    case RowFails(d) => OfDay(p.batch, d)
    case PanelRestart => InMemory(p)
    case _ => []
  }

  ghost function Dropped(t: Track): seq<TrafficRec>
    requires t.Possible()
    decreases |t.steps|
  {
    if t.steps == [] then []
    else Dropped(t.Before()) + Drops(t.Before().End(), t.steps[|t.steps| - 1])
  }

  lemma {:induction false} RowConserves(p: Panel, step: PanelStep, d: Day)
    requires Can(p, step) && (step == RowOk(d) || step == RowFails(d))
    ensures Accounted(Apply(p, step)) + multiset(Drops(p, step)) == Accounted(p)
  {
    AI.RowSplits(p, d);
    AI.BatchMoves(p, Apply(p, step), OfDay(p.batch, d));
  }

  lemma {:induction false} MemoryConserves(p: Panel, step: PanelStep)
    requires Can(p, step) && (step.DbDown? || step.PanelRestart? || step.Accept?)
    ensures Accounted(Apply(p, step)) + multiset(Drops(p, step)) == Accounted(p) + multiset(Enters(step))
  {}

  lemma {:induction false} StepConserves(p: Panel, step: PanelStep)
    requires Books(p) && Can(p, step)
    ensures Accounted(Apply(p, step)) + multiset(Drops(p, step)) == Accounted(p) + multiset(Enters(step))
  {
    if step.RowOk? || step.RowFails? {
      RowConserves(p, step, step.day);
    } else if step.Fold? {
      AI.FoldMoves(p, step.k);
    } else if step.DbDown? || step.PanelRestart? || step.Accept? {
      MemoryConserves(p, step);
    } else {
      AI.StepMoves(p, step);
    }
  }

  lemma {:induction false} BooksKept(t: Track)
    requires Books(t.born) && t.Possible()
    ensures Books(t.End())
    decreases |t.steps|
  {
    if t.steps != [] {
      BooksKept(t.Before());
      StepKeepsBooks(t.Before().End(), t.steps[|t.steps| - 1]);
    }
  }

  lemma {:induction false} SumOfTwo<T>(a: seq<T>, b: seq<T>)
    ensures multiset(a + b) == multiset(a) + multiset(b)
  {}

  lemma {:induction false} Chained<T>(start: multiset<T>, now: multiset<T>, next: multiset<T>,
                                      came: multiset<T>, gone: multiset<T>, more: multiset<T>, less: multiset<T>)
    requires now + gone == start + came && next + less == now + more
    ensures next + (gone + less) == start + (came + more)
  {
    forall x ensures (next + (gone + less))[x] == (start + (came + more))[x] {
      assert (now + gone)[x] == (start + came)[x] && (next + less)[x] == (now + more)[x];
    }
  }

  lemma {:induction false} LastStep(t: Track)
    requires t.Possible() && t.steps != []
    ensures var p, step := t.Before().End(), t.steps[|t.steps| - 1];
            && multiset(Dropped(t)) == multiset(Dropped(t.Before())) + multiset(Drops(p, step))
            && multiset(Accepted(t.steps)) == multiset(Accepted(t.Before().steps)) + multiset(Enters(step))
  {
    SumOfTwo(Dropped(t.Before()), Drops(t.Before().End(), t.steps[|t.steps| - 1]));
    SumOfTwo(Accepted(t.Before().steps), Enters(t.steps[|t.steps| - 1]));
  }

  lemma {:induction false} EverySampleIsSomewhere(t: Track)
    requires Books(t.born) && t.Possible()
    ensures Accounted(t.End()) + multiset(Dropped(t)) == Accounted(t.born) + multiset(Accepted(t.steps))
    decreases |t.steps|
  {
    if t.steps != [] {
      var before, step := t.Before(), t.steps[|t.steps| - 1];
      var p := before.End();
      BooksKept(before);
      EverySampleIsSomewhere(before);
      StepConserves(p, step);
      LastStep(t);
      Chained(Accounted(t.born), Accounted(p), Accounted(t.End()), multiset(Accepted(before.steps)),
              multiset(Dropped(before)), multiset(Enters(step)), multiset(Drops(p, step)));
    }
  }

  function Everything(p: Panel): seq<TrafficRec> {
    p.booked + p.batch + p.buf + p.entered
  }

  /** In every run, under any mix of outages, failing rows, flushes and restarts: what a day's total gains is the bytes
      of the samples accepted, less the bytes of those dropped. */
  lemma {:induction false} TrafficIsConserved(t: Track, d: Day)
    requires Books(t.born) && t.Possible()
    ensures Total(t.End(), d).Plus(SumDay(Dropped(t), d)) == Total(t.born, d).Plus(SumDay(Accepted(t.steps), d))
  {
    BooksKept(t);
    EverySampleIsSomewhere(t);
    TotalsOf(t.End(), d);
    TotalsOf(t.born, d);
    var after, before := Everything(t.End()) + Dropped(t), Everything(t.born) + Accepted(t.steps);
    assert multiset(after) == Accounted(t.End()) + multiset(Dropped(t));
    assert multiset(before) == Accounted(t.born) + multiset(Accepted(t.steps));
    SumIsOrderFree(after, before, d);
    SumDayConcat(Everything(t.End()), Dropped(t), d);
    SumDayConcat(Everything(t.born), Accepted(t.steps), d);
  }
}
