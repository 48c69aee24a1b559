/** What a crash finds in the database, whatever the agent has sent: within one life of the panel's process. */
module Recovery {
  import opened Records
  import opened Accounting
  import opened Conservation
  import AI = AccountingInvariant

  /** A process that is seeded from the database, where the rows are counted from now on. */
  function Seeded(mark: int): Panel {
    EMPTY.(tracker := mark, persisted := mark, durable := mark, snap := mark)
  }

  /** No batch has been dropped, no watermark write has failed, every accounting was folded in before the flush read the
      watermark, and nothing but the database seeds the watermark. (What samples never came is not the panel's affair:
      the steps carry no skipped numbers.) */
  ghost predicate Undisturbed(t: Track)
    requires t.Possible()
    decreases |t.steps|
  {
    t.steps == [] ||
    var p, step := t.Before().End(), t.steps[|t.steps| - 1];
    && Undisturbed(t.Before())
    && !step.PanelRestart? && !AI.Hazard(p, step)
    && (step.Accept? ==> step.skipped == {}) && (step.InitNode? ==> step.lastSeq <= p.tracker)
  }

  lemma {:induction false} StepIsSound(p: Panel, step: PanelStep) returns (log: seq<TrafficRec>)
    requires Can(p, step)
    requires (step.Accept? ==> step.skipped == {}) && (step.InitNode? ==> step.lastSeq <= p.tracker)
    ensures AI.Sound(log, p, step)
  {
    log := if step.Accept? then [step.rec] else [];
    if step.Accept? {
      assert Skipped(log, p.tracker, step.rec.seqNo) == {};
    }
  }

  lemma {:induction false} UndisturbedIsClean(t: Track, mark: int)
    requires mark >= 0 && t.born == Seeded(mark) && t.Possible() && Undisturbed(t)
    ensures Books(t.End()) && Watermarks(t.End()) && AI.Clean(t.End())
    decreases |t.steps|
  {
    if t.steps != [] {
      var p, step := t.Before().End(), t.steps[|t.steps| - 1];
      UndisturbedIsClean(t.Before(), mark);
      var log := StepIsSound(p, step);
      StepKeepsBooks(p, step);
      AI.StepKeepsWatermarks(log, p, step);
      AI.StepKeepsClean(log, p, step);
    }
  }

  lemma {:induction false} UndisturbedDropsNothing(t: Track)
    requires t.Possible() && Undisturbed(t)
    ensures Dropped(t) == []
    decreases |t.steps|
  {
    if t.steps != [] {
      UndisturbedDropsNothing(t.Before());
    }
  }

  lemma {:induction false} UpToIsFilter(rs: seq<TrafficRec>, mark: int, r: TrafficRec)
    ensures multiset(UpTo(rs, mark))[r] == if r.seqNo <= mark then multiset(rs)[r] else 0
  {
    if rs != [] {
      UpToIsFilter(rs[..|rs| - 1], mark, r);
      assert rs == rs[..|rs| - 1] + [rs[|rs| - 1]];
    }
  }

  lemma {:induction false} BookedAreUpTo(p: Panel, taken: seq<TrafficRec>)
    requires Accounted(p) == multiset(taken) && p.batch == []
    requires AI.Below(p.booked, p.durable) && AI.Above(p.buf, p.durable) && AI.Above(p.entered, p.durable)
    ensures multiset(p.booked) == multiset(UpTo(taken, p.durable))
  {
    forall r ensures multiset(p.booked)[r] == multiset(UpTo(taken, p.durable))[r] {
      UpToIsFilter(taken, p.durable, r);
      assert Accounted(p)[r] == multiset(p.booked)[r] + multiset(p.buf)[r] + multiset(p.entered)[r];
      if r.seqNo <= p.durable {
        assert r !in p.buf && r !in p.entered;
      } else {
        assert r !in p.booked;
      }
    }
  }

  lemma {:induction false} NothingDropped(now: multiset<TrafficRec>, dropped: seq<TrafficRec>,
                                          born: multiset<TrafficRec>,
                                          taken: seq<TrafficRec>)
    requires now + multiset(dropped) == born + multiset(taken) && dropped == [] && |born| == 0
    ensures now == multiset(taken)
  {
    forall r ensures now[r] == multiset(taken)[r] {
      assert (now + multiset(dropped))[r] == (born + multiset(taken))[r];
    }
  }

  lemma {:induction false} AllAccounted(t: Track, mark: int)
    requires t.born == Seeded(mark) && t.Possible() && Undisturbed(t)
    ensures Accounted(t.End()) == multiset(Accepted(t.steps))
  {
    assert Books(t.born);
    UndisturbedDropsNothing(t);
    EverySampleIsSomewhere(t);
    NothingDropped(Accounted(t.End()), Dropped(t), Accounted(t.born), Accepted(t.steps));
  }

  /** Whenever no flush is under way, the rows written since the process was seeded hold exactly the samples accepted up
      to the durable watermark: for every day, the bytes of these and no others. A restart resumes from there. */
  lemma {:induction false} DatabaseHoldsWhatItClaims(t: Track, mark: int, d: Day)
    requires mark >= 0 && t.born == Seeded(mark) && t.Possible() && Undisturbed(t) && t.End().flush.Resting?
    ensures multiset(t.End().booked) == multiset(UpTo(Accepted(t.steps), t.End().durable))
    ensures At(t.End().rows, d) == SumDay(UpTo(Accepted(t.steps), t.End().durable), d)
  {
    UndisturbedIsClean(t, mark);
    AllAccounted(t, mark);
    var p, taken := t.End(), Accepted(t.steps);
    BookedAreUpTo(p, taken);
    SumIsOrderFree(p.booked, UpTo(taken, p.durable), d);
  }
}
