/** Exactly which steps lose samples or lead to their being counted again, and
    exactly which runs therefore count every sample once in every state. */
module Harm {
  import opened Records
  import opened System
  import opened ExactlyOnce
  import D = Delivery
  import A = Accounting
  import DI = DeliveryInvariant
  import AI = AccountingInvariant
  import C = Conservation

  /** A delivery that passes over a logged number, or a harmful step of the panel. */
  ghost predicate Harms(s: System, step: Step)
    requires Can(s, step)
  {
    match step
    case Deliver(id) =>
      var n := s.agent.sessions[id].out[s.agent.sessions[id].taken].seqNo;
      A.IsNew(s.panel.tracker, n) && exists r :: r in s.agent.log && s.panel.tracker < r.seqNo < n
    case Panel(st) => AI.Harms(s.panel, st)
    case Restart => AI.Harms(s.panel, A.PanelRestart)
    case _ => false
  }

  ghost predicate Harmless(steps: seq<Step>)
    requires IsRun(steps)
  {
    steps == [] || (Harmless(steps[..|steps| - 1]) && !Harms(End(steps[..|steps| - 1]), steps[|steps| - 1]))
  }

  function Restarts(steps: seq<Step>): nat {
    if steps == [] then 0
    else Restarts(steps[..|steps| - 1]) + if steps[|steps| - 1].Restart? then 1 else 0
  }

  // ----- what the history variables keep -----

  /** A record is counted at most once per life of the panel's process. */
  ghost predicate AtMost(acc: multiset<TrafficRec>, mark: int, restarts: nat) {
    forall r :: acc[r] <= restarts + if r.seqNo <= mark then 1 else 0
  }

  ghost predicate History(log: seq<TrafficRec>, p: A.Panel, restarts: nat) {
    && AI.OnceInMemory(AI.Memory(p), p.lost)
    && p.lost <= SeqNos(log)
    && p.twice <= SeqNos(p.booked)
    && AtMost(A.Accounted(p), p.tracker, restarts)
  }

  lemma {:induction false} BookedOnlyGrow(p: A.Panel, step: A.PanelStep)
    requires A.Can(p, step) && p.twice <= SeqNos(p.booked)
    ensures A.Apply(p, step).twice <= SeqNos(A.Apply(p, step).booked)
  {
    var p' := A.Apply(p, step);
    assert forall r :: r in p.booked ==> r in p'.booked;
  }

  lemma {:induction false} LostAreLogged(log: seq<TrafficRec>, p: A.Panel, step: A.PanelStep)
    requires A.Can(p, step) && AI.Sound(log, p, step) && p.lost <= SeqNos(log)
    requires forall r :: r in p.batch || r in A.InMemory(p) ==> r in log
    ensures A.Apply(p, step).lost <= SeqNos(log)
  {
    if step.RowFails? {
      AI.RowSplits(p, step.day);
    }
  }

  lemma {:induction false} OneLifeMore(before: multiset<TrafficRec>, after: multiset<TrafficRec>,
                                       gone: multiset<TrafficRec>,
                                       mark: int, mark': int, restarts: nat)
    requires AtMost(before, mark, restarts) && after + gone == before
    ensures AtMost(after, mark', restarts + 1)
    ensures mark <= mark' ==> AtMost(after, mark', restarts)
  {
    forall r ensures after[r] <= before[r] {
      assert (after + gone)[r] == before[r];
    }
  }

  lemma {:induction false} OneSampleMore(acc: multiset<TrafficRec>, mark: int, r: TrafficRec, restarts: nat)
    requires AtMost(acc, mark, restarts) && r.seqNo > mark
    ensures AtMost(acc + multiset{r}, r.seqNo, restarts)
  {}

  lemma {:induction false} AcceptKeepsAtMost(p: A.Panel, step: A.PanelStep, restarts: nat)
    requires A.Can(p, step) && step.Accept? && AtMost(A.Accounted(p), p.tracker, restarts)
    ensures AtMost(A.Accounted(A.Apply(p, step)), step.rec.seqNo, restarts)
  {
    assert A.Accounted(A.Apply(p, step)) == A.Accounted(p) + multiset{step.rec};
    OneSampleMore(A.Accounted(p), p.tracker, step.rec, restarts);
  }

  lemma {:induction false} StepKeepsAtMost(p: A.Panel, step: A.PanelStep, restarts: nat)
    requires A.Books(p) && A.Watermarks(p) && A.Can(p, step) && AtMost(A.Accounted(p), p.tracker, restarts)
    ensures var p' := A.Apply(p, step);
            AtMost(A.Accounted(p'), p'.tracker, restarts + if step.PanelRestart? then 1 else 0)
  {
    if step.Accept? {
      AcceptKeepsAtMost(p, step, restarts);
    } else {
      AI.WatermarksNeverGoBack(p, step);
      C.StepConserves(p, step);
      var p' := A.Apply(p, step);
      OneLifeMore(A.Accounted(p), A.Accounted(p'), multiset(C.Drops(p, step)), p.tracker, p'.tracker, restarts);
    }
  }

  lemma {:induction false} MemoryIsLogged(log: seq<TrafficRec>, p: A.Panel)
    requires forall r :: r in A.Accounted(p) ==> r in log
    ensures forall r :: r in AI.Memory(p) || r in p.batch || r in A.InMemory(p) ==> r in log
  {
    AI.MemoryIs(p);
    assert forall r :: r in AI.Memory(p) ==> r in A.Accounted(p);
  }

  lemma {:induction false} PanelStepKeepsHistory(log: seq<TrafficRec>, p: A.Panel, step: A.PanelStep, restarts: nat)
    requires Ascending(log) && A.PanelInv(log, p) && A.Can(p, step) && AI.Sound(log, p, step) &&
             History(log, p, restarts)
    ensures History(log, A.Apply(p, step), restarts + if step.PanelRestart? then 1 else 0)
  {
    MemoryIsLogged(log, p);
    AI.StepKeepsOnce(log, p, step);
    LostAreLogged(log, p, step);
    BookedOnlyGrow(p, step);
    StepKeepsAtMost(p, step, restarts);
  }

  lemma {:induction false} LongerLog(log: seq<TrafficRec>, longer: seq<TrafficRec>, p: A.Panel, restarts: nat)
    requires log <= longer && History(log, p, restarts)
    ensures History(longer, p, restarts)
  {
    assert forall r :: r in log ==> r in longer;
  }

  lemma {:induction false} LogOnlyGrows(a: D.Agent, st: D.AgentStep)
    requires D.Can(a, st)
    ensures a.log <= D.Apply(a, st).log
  {}

  /** The step that a delivery is to the panel when the number is new. */
  function Accepting(s: System, id: nat): A.PanelStep
    requires Can(s, Deliver(id))
  {
    var r := s.agent.sessions[id].out[s.agent.sessions[id].taken];
    A.Accept(r, A.Skipped(s.agent.log, s.panel.tracker, r.seqNo))
  }

  lemma {:induction false} StepKeepsHistory(s: System, step: Step, restarts: nat)
    requires Inv(s) && Can(s, step) && History(s.agent.log, s.panel, restarts)
    ensures History(Apply(s, step).agent.log, Apply(s, step).panel, restarts + if step.Restart? then 1 else 0)
  {
    match step
    case Agent(st) =>
      LogOnlyGrows(s.agent, st);
      LongerLog(s.agent.log, D.Apply(s.agent, st).log, s.panel, restarts);
    case Panel(st) => PanelStepKeepsHistory(s.agent.log, s.panel, st, restarts);
    case Handshake(id) =>
      QueueOf(s, id);
      PanelStepKeepsHistory(s.agent.log, s.panel, A.InitNode(s.agent.sessions[id].hello), restarts);
    case Deliver(id) =>
      NextIsLogged(s, id);
      if A.IsNew(s.panel.tracker, Accepting(s, id).rec.seqNo) {
        PanelStepKeepsHistory(s.agent.log, s.panel, Accepting(s, id), restarts);
      }
    case Restart => PanelStepKeepsHistory(s.agent.log, s.panel, A.PanelRestart, restarts);
    case _ =>
  }

  lemma {:induction false} EveryRunKeepsHistory(steps: seq<Step>)
    requires IsRun(steps)
    ensures Inv(End(steps)) && History(End(steps).agent.log, End(steps).panel, Restarts(steps))
  {
    EveryRunKeepsInv(steps);
    if steps != [] {
      EveryRunKeepsHistory(steps[..|steps| - 1]);
      StepKeepsHistory(End(steps[..|steps| - 1]), steps[|steps| - 1], Restarts(steps[..|steps| - 1]));
    }
  }

  // ----- one step -----

  lemma {:induction false} DeliveryHarmIff(s: System, id: nat)
    requires Inv(s) && Can(s, Deliver(id)) && AI.OnceInMemory(AI.Memory(s.panel), s.panel.lost)
    ensures TakeNext(s, id).panel.lost <= s.panel.lost <==> !Harms(s, Deliver(id))
    ensures TakeNext(s, id).panel.twice <= s.panel.twice
  {
    NextIsLogged(s, id);
    var st := Accepting(s, id);
    if A.IsNew(s.panel.tracker, st.rec.seqNo) {
      AI.HarmIff(s.agent.log, s.panel, st);
      forall r | r in s.agent.log && s.panel.tracker < r.seqNo < st.rec.seqNo ensures r.seqNo in st.skipped {}
    }
  }

  /** Exactly the steps by which samples are lost, or exposed to being counted again. */
  lemma {:induction false} HarmIff(s: System, step: Step)
    requires Inv(s) && Can(s, step) && AI.OnceInMemory(AI.Memory(s.panel), s.panel.lost)
    ensures Apply(s, step).panel.lost <= s.panel.lost && Apply(s, step).panel.twice <= s.panel.twice <==>
            !Harms(s, step)
  {
    match step
    case Deliver(id) => DeliveryHarmIff(s, id);
    case Panel(st) => AI.HarmIff(s.agent.log, s.panel, st);
    case Restart => AI.HarmIff(s.agent.log, s.panel, A.PanelRestart);
    case _ =>
  }

  // ----- whole runs -----

  /** Every state that the run passes through counts every sample once. */
  ghost predicate AlwaysCountedOnce(steps: seq<Step>)
    requires IsRun(steps)
  {
    && CountedOnce(End(steps).agent.log, End(steps).panel)
    && (steps != [] ==> AlwaysCountedOnce(steps[..|steps| - 1]))
  }

  lemma {:induction false} LossShows(log: seq<TrafficRec>, p: A.Panel, n: int)
    requires Ascending(log) && A.PanelInv(log, p) && n in p.lost && n in SeqNos(log) && n !in p.twice
    ensures !CountedOnce(log, p)
  {
    var r :| r in log && r.seqNo == n;
    UpToCounts(log, p.tracker, r);
    assert A.Accounted(p)[r] == 0;
  }

  /** A booked record above the watermark from which the panel resumes is counted before it is sent again. */
  lemma {:induction false} RepeatShows(log: seq<TrafficRec>, p: A.Panel, r: TrafficRec)
    requires Ascending(log) && r in p.booked && r.seqNo > p.tracker
    ensures !CountedOnce(log, p)
  {
    UpToCounts(log, p.tracker, r);
    assert A.Accounted(p)[r] > 0;
  }

  /** Only a panel that stops exposes records to being counted again: booked ones above its durable watermark. */
  lemma {:induction false} OnlyRestartsRepeat(s: System, step: Step) returns (r: TrafficRec)
    requires Can(s, step) && s.panel.twice == {} && Apply(s, step).panel.twice != {}
    ensures r in Apply(s, step).panel.booked && r.seqNo > Apply(s, step).panel.tracker
  {
    assert step.Restart?;
    var n :| n in Apply(s, step).panel.twice;
    r :| r in s.panel.booked && r.seqNo == n && n > s.panel.durable;
  }

  lemma {:induction false} HarmShows(s: System, step: Step)
    requires Inv(s) && Can(s, step) && Harms(s, step) && AI.OnceInMemory(AI.Memory(s.panel), s.panel.lost)
    requires s.panel.lost == {} && s.panel.twice == {}
    requires Inv(Apply(s, step)) && Apply(s, step).panel.lost <= SeqNos(Apply(s, step).agent.log)
    ensures !CountedOnce(Apply(s, step).agent.log, Apply(s, step).panel)
  {
    HarmIff(s, step);
    var log, p := Apply(s, step).agent.log, Apply(s, step).panel;
    assert Ascending(log) && A.PanelInv(log, p) && (p.lost != {} || p.twice != {});
    if p.twice == {} {
      var n :| n in p.lost;
      LossShows(log, p, n);
    } else {
      var r := OnlyRestartsRepeat(s, step);
      RepeatShows(log, p, r);
    }
  }

  lemma {:induction false} HarmlessRunsLoseNothing(steps: seq<Step>)
    requires IsRun(steps) && Harmless(steps)
    ensures End(steps).panel.lost == {} && End(steps).panel.twice == {}
  {
    if steps != [] {
      var before := steps[..|steps| - 1];
      HarmlessRunsLoseNothing(before);
      EveryRunKeepsHistory(before);
      HarmIff(End(before), steps[|steps| - 1]);
    }
  }

  /** A run counts every sample exactly once in each of its states if and only if none of its steps does harm. */
  lemma {:induction false} CountedOnceIffHarmless(steps: seq<Step>)
    requires IsRun(steps)
    ensures AlwaysCountedOnce(steps) <==> Harmless(steps)
  {
    EveryRunKeepsHistory(steps);
    if Harmless(steps) {
      HarmlessRunsLoseNothing(steps);
      NothingLostIsCountedOnce(End(steps).agent.log, End(steps).panel);
    }
    if steps != [] {
      var before := steps[..|steps| - 1];
      CountedOnceIffHarmless(before);
      if Harmless(before) && !Harmless(steps) {
        HarmlessRunsLoseNothing(before);
        EveryRunKeepsHistory(before);
        HarmShows(End(before), steps[|steps| - 1]);
      }
    }
  }

  /** In every run, whatever happened: outside the numbers that may be repeated, every sample is counted exactly once if
      and only if none of the numbers lost is one of theirs. */
  lemma {:induction false} CountedOnceIffNothingLost(steps: seq<Step>)
    requires IsRun(steps)
    ensures var log, p := End(steps).agent.log, End(steps).panel;
            (forall r :: r in log && r.seqNo !in p.twice ==> A.Accounted(p)[r] == if r.seqNo <= p.tracker then 1 else 0)
            <==> p.lost <= p.twice
  {
    EveryRunKeepsHistory(steps);
    var log, p := End(steps).agent.log, End(steps).panel;
    forall n | n in p.lost ensures exists r :: r in log && r.seqNo == n {}
  }

  /** Without hazards there is no harm; the converse does not hold, as a hazard may pass. */
  lemma {:induction false} HazardFreeRunsAreHarmless(steps: seq<Step>)
    requires IsRun(steps) && HazardFree(steps)
    ensures Harmless(steps)
  {
    if steps != [] {
      var before := steps[..|steps| - 1];
      HazardFreeRunsAreHarmless(before);
      HazardFreeRunsAreClean(before);
      HazardFreeRunsAreClean(steps);
      EveryRunKeepsHistory(before);
      HarmIff(End(before), steps[|steps| - 1]);
    }
  }

  /** In every run, whatever fails: a logged sample whose number is not marked as possibly repeated is accounted for
      exactly once or lost if it is at or below the watermark, and neither if it is above; one that is marked is in the
      database; and none is accounted for more often than once, and once more for every restart of the panel. */
  lemma {:induction false} AccountedOrLost(steps: seq<Step>, r: TrafficRec)
    requires IsRun(steps) && r in End(steps).agent.log
    ensures var p := End(steps).panel;
            && (if r.seqNo in p.twice then r in p.booked
                else A.Accounted(p)[r] + (if r.seqNo in p.lost then 1 else 0) == if r.seqNo <= p.tracker then 1 else 0)
            && A.Accounted(p)[r] <= Restarts(steps) + if r.seqNo <= p.tracker then 1 else 0
  {
    EveryRunKeepsHistory(steps);
    if r.seqNo in End(steps).panel.twice {
      MarkedIsBooked(End(steps).agent.log, End(steps).panel, r);
    }
  }

  lemma {:induction false} MarkedIsBooked(log: seq<TrafficRec>, p: A.Panel, r: TrafficRec)
    requires Ascending(log) && (forall x :: x in A.Accounted(p) ==> x in log) && p.twice <= SeqNos(p.booked)
    requires r in log && r.seqNo in p.twice
    ensures r in p.booked
  {
    var x :| x in p.booked && x.seqNo == r.seqNo;
    assert x in A.Accounted(p);
    assert x == r;
  }

  // ----- the database -----

  /** What is booked is booked once and at or below the durable watermark; and what is at or below it and lost, or still
      in memory, is booked all the same. */
  ghost predicate Sealed(log: seq<TrafficRec>, p: A.Panel) {
    && (forall r :: r in p.booked ==> r.seqNo <= p.durable && multiset(p.booked)[r] == 1)
    && (forall r :: r in log && r.seqNo <= p.durable && (r.seqNo in p.lost || r in A.InMemory(p)) ==> r in p.booked)
  }

  lemma {:induction false} SealedIsBookedOnce(log: seq<TrafficRec>, p: A.Panel, r: TrafficRec)
    requires Ascending(log) && A.PanelInv(log, p) && p.twice <= SeqNos(p.booked) && Sealed(log, p)
    requires r in log && r.seqNo <= p.durable
    ensures multiset(p.booked)[r] == 1
  {
    AI.MemoryIs(p);
    if r.seqNo in p.twice {
      MarkedIsBooked(log, p, r);
    } else {
      assert A.Accounted(p)[r] + (if r.seqNo in p.lost then 1 else 0) == 1;
      assert A.Accounted(p)[r] == multiset(p.booked)[r] + AI.Memory(p)[r];
    }
  }

  lemma {:induction false} SealedAgrees(log: seq<TrafficRec>, p: A.Panel)
    requires Ascending(log) && A.PanelInv(log, p) && p.twice <= SeqNos(p.booked) && Sealed(log, p)
    ensures DatabaseAgrees(log, p)
  {
    forall r | r in log && r.seqNo <= p.durable ensures multiset(p.booked)[r] == 1 {
      SealedIsBookedOnce(log, p, r);
    }
    forall r | r in p.booked ensures r in log {
      assert r in A.Accounted(p);
    }
    CountsAreTheLog(log, multiset(p.booked), p.durable);
    forall d ensures At(p.rows, d) == SumDay(UpTo(log, p.durable), d) {
      SumIsOrderFree(p.booked, UpTo(log, p.durable), d);
    }
  }

  lemma {:induction false} AgreementIsSealed(log: seq<TrafficRec>, p: A.Panel)
    requires Ascending(log) && DatabaseAgrees(log, p)
    ensures Sealed(log, p)
  {
    forall r ensures multiset(p.booked)[r] == if r in log && r.seqNo <= p.durable then 1 else 0 {
      UpToCounts(log, p.durable, r);
    }
    forall r | r in p.booked ensures r.seqNo <= p.durable && multiset(p.booked)[r] == 1 {
      assert r in multiset(p.booked);
    }
    forall r | r in log && r.seqNo <= p.durable ensures r in p.booked {
      assert r in multiset(p.booked);
    }
  }

  /** In every state of every run, also while a flush is under way: exactly when the database holds the samples up to
      its watermark, each once, and no others. */
  lemma {:induction false} DatabaseAgreesIff(steps: seq<Step>)
    requires IsRun(steps)
    ensures DatabaseAgrees(End(steps).agent.log, End(steps).panel) <==> Sealed(End(steps).agent.log, End(steps).panel)
  {
    EveryRunKeepsHistory(steps);
    var log, p := End(steps).agent.log, End(steps).panel;
    if Sealed(log, p) {
      SealedAgrees(log, p);
    }
    if DatabaseAgrees(log, p) {
      AgreementIsSealed(log, p);
    }
  }
}
