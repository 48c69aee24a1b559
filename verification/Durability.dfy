/** What the durable watermark stands for over whole runs of the panel: a batch that
    was written in full, and losses that no restart brings back. */
module Durability {
  import opened Records
  import opened Accounting
  import opened Conservation
  import AI = AccountingInvariant

  // ----- losses -----

  /** The agent will not send the number again, whenever the panel restarts. */
  ghost predicate Final(p: Panel, n: int) {
    n in p.lost && n <= p.durable
  }

  lemma {:induction false} RestartKeepsLostIff(p: Panel, n: int)
    requires n in p.lost
    ensures n in Apply(p, PanelRestart).lost <==> n <= p.durable
  {
    assert n in SeqNos(InMemory(p)) && n > p.durable ==> n !in Apply(p, PanelRestart).lost;
  }

  lemma {:induction false} FinalStaysFinal(p: Panel, step: PanelStep, n: int)
    requires Can(p, step) && Final(p, n)
    ensures Final(Apply(p, step), n)
  {}

  /** A loss at or below the durable watermark is there at the end of every continuation. */
  lemma {:induction false} FinalForever(t: Track, n: int)
    requires t.Possible() && Final(t.born, n)
    ensures Final(t.End(), n)
    decreases |t.steps|
  {
    if t.steps != [] {
      FinalForever(t.Before(), n);
      FinalStaysFinal(t.Before().End(), t.steps[|t.steps| - 1], n);
    }
  }

  /** A lost number that the flush under way, or else the next one, will claim. */
  ghost predicate Doomed(p: Panel, n: int) {
    n in p.lost && (n <= p.durable || (n <= p.tracker && (p.flush.Resting? || n <= p.flush.mark)))
  }

  lemma {:induction false} DoomedStaysDoomed(p: Panel, step: PanelStep, n: int)
    requires Can(p, step) && !step.PanelRestart? && Doomed(p, n)
    ensures Doomed(Apply(p, step), n)
  {}

  lemma {:induction false} DoomedUntilRestart(t: Track, n: int)
    requires t.Possible() && PanelRestart !in t.steps && Doomed(t.born, n)
    ensures Doomed(t.End(), n)
    decreases |t.steps|
  {
    if t.steps != [] {
      assert PanelRestart !in t.Before().steps;
      DoomedUntilRestart(t.Before(), n);
      DoomedStaysDoomed(t.Before().End(), t.steps[|t.steps| - 1], n);
    }
  }

  /** Whatever was lost when no flush was under way, is lost for good with the first flush after it that writes the
      watermark before the panel stops: `t` leads up to that write, and `more` is any continuation. */
  lemma {:induction false} CleanFlushMakesLossFinal(t: Track, more: Track, n: int)
    requires Watermarks(t.born) && t.born.flush.Resting? && n in t.born.lost
    requires t.Possible() && PanelRestart !in t.steps && Can(t.End(), Commit(true))
    requires more.born == Apply(t.End(), Commit(true)) && more.Possible()
    ensures Final(more.End(), n)
    ensures n in Apply(more.End(), PanelRestart).lost
  {
    DoomedUntilRestart(t, n);
    FinalForever(more, n);
    RestartKeepsLostIff(more.End(), n);
  }

  // ----- batches -----

  function Prefix(t: Track, k: nat): Track
    requires k <= |t.steps|
  {
    Track(t.born, t.steps[..k])
  }

  /** A day's bytes in the database and in rows being written. */
  function Reaching(p: Panel, d: Day): Traffic {
    At(p.rows, d).Plus(At(FlushRows(p.flush), d))
  }

  lemma {:induction false} WrittenOrToWrite(rows: map<Day, Traffic>, todo: map<Day, Traffic>, e: Day, d: Day)
    requires e in todo
    ensures At(AddTo(rows, e, todo[e]), d).Plus(At(todo - {e}, d)) == At(rows, d).Plus(At(todo, d))
  {
    RowMoves(rows, todo, e, d);
    if e == d {
      PlusZero(At(rows, d).Plus(At(todo, d)));
    } else {
      PlusZero(At(rows, d));
    }
  }

  lemma {:induction false} RowKeepsReaching(p: Panel, e: Day, d: Day)
    requires Can(p, RowOk(e))
    ensures Reaching(Apply(p, RowOk(e)), d) == Reaching(p, d)
  {
    var p' := Apply(p, RowOk(e));
    assert p'.rows == AddTo(p.rows, e, p.flush.rows[e]);
    assert FlushRows(p'.flush) == p.flush.rows - {e};
    WrittenOrToWrite(p.rows, p.flush.rows, e, d);
  }

  /** Within a flush, what was written and what is still to write only change together, unless a row fails. */
  lemma {:induction false} FlushStepKeepsReaching(p: Panel, step: PanelStep, d: Day)
    requires Can(p, step) && !step.Drain? && !step.RowFails?
    requires (p.flush.Drained? || p.flush.Writing?) && (Apply(p, step).flush.Drained? || Apply(p, step).flush.Writing?)
    ensures Reaching(Apply(p, step), d) == Reaching(p, d)
  {
    if step.RowOk? {
      RowKeepsReaching(p, step.day, d);
    } else {
      assert Apply(p, step).rows == p.rows && FlushRows(Apply(p, step).flush) == FlushRows(p.flush);
    }
  }

  lemma {:induction false} DrainedBatch(p: Panel, d: Day)
    requires Books(p) && p.flush.Drained?
    ensures At(FlushRows(p.flush), d) == SumDay(p.batch, d)
  {}

  /** Before this step the same flush was under way, unless it is the one that drained the bucket. */
  lemma {:induction false} FlushGoesOn(p: Panel, step: PanelStep)
    requires Can(p, step) && !step.Drain?
    requires Apply(p, step).flush.Drained? || (Apply(p, step).flush.Writing? && !Apply(p, step).flush.failed)
    ensures p.flush.Drained? || (p.flush.Writing? && !p.flush.failed)
    ensures !step.RowFails? && p.flush.mark == Apply(p, step).flush.mark
  {}

  /** The state in which the flush under way had just drained the bucket: since then the rows have grown by what is no
      longer to be written. */
  lemma {:induction false} FlushSoFar(t: Track) returns (k: nat)
    requires Books(t.born) && t.born.flush.Resting? && t.Possible()
    requires t.End().flush.Drained? || (t.End().flush.Writing? && !t.End().flush.failed)
    ensures k <= |t.steps| && Prefix(t, k).Possible()
    ensures var q := Prefix(t, k).End();
            && q.flush.Drained? && q.flush.mark == t.End().flush.mark
            && forall d :: Reaching(t.End(), d) == At(q.rows, d).Plus(SumDay(q.batch, d))
    decreases |t.steps|
  {
    var p, step := t.Before().End(), t.steps[|t.steps| - 1];
    if step.Drain? {
      k := |t.steps|;
      assert Prefix(t, k) == t;
      BooksKept(t);
      forall d { DrainedBatch(t.End(), d); }
    } else {
      FlushGoesOn(p, step);
      k := FlushSoFar(t.Before());
      assert Prefix(t.Before(), k) == Prefix(t, k);
      forall d { FlushStepKeepsReaching(p, step, d); }
    }
  }

  lemma {:induction false} OnlyCommitsRaise(p: Panel, step: PanelStep)
    requires Can(p, step) && p.durable < Apply(p, step).durable
    ensures step == Commit(true) && p.flush.Writing? && !p.flush.failed
    ensures Apply(p, step).durable == p.flush.mark && Apply(p, step).rows == p.rows
    ensures FlushRows(p.flush) == map[]
  {}

  /** The durable watermark rises only by the write at the end of a flush, to the mark that the flush read, and only
      when for every day the rows have grown by the bytes of the whole batch that it drained. */
  lemma {:induction false} DurableRisesOverWholeBatch(t: Track, step: PanelStep) returns (k: nat)
    requires Books(t.born) && t.born.flush.Resting? && t.Possible() && Can(t.End(), step)
    requires t.End().durable < Apply(t.End(), step).durable
    ensures step == Commit(true) && k <= |t.steps| && Prefix(t, k).Possible()
    ensures var q := Prefix(t, k).End();
            && q.flush.Drained? && Apply(t.End(), step).durable == q.flush.mark
            && forall d :: At(Apply(t.End(), step).rows, d) == At(q.rows, d).Plus(SumDay(q.batch, d))
  {
    OnlyCommitsRaise(t.End(), step);
    k := FlushSoFar(t);
    forall d ensures Reaching(t.End(), d) == At(t.End().rows, d) {
      PlusZero(At(t.End().rows, d));
    }
  }
}
