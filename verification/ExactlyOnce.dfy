/** The main results about whole runs of agent and panel. */
module ExactlyOnce {
  import opened Options
  import opened Records
  import opened System
  import D = Delivery
  import A = Accounting
  import DI = DeliveryInvariant
  import AI = AccountingInvariant

  // ----- runs -----

  /** A run from the start: every step is enabled where it is taken. */
  ghost predicate IsRun(steps: seq<Step>)
    decreases |steps|, 0
  {
    steps == [] || (IsRun(steps[..|steps| - 1]) && Can(End(steps[..|steps| - 1]), steps[|steps| - 1]))
  }

  ghost function End(steps: seq<Step>): System
    requires IsRun(steps)
    decreases |steps|, 1
  {
    if steps == [] then INITIAL else Apply(End(steps[..|steps| - 1]), steps[|steps| - 1])
  }

  /** The steps that can lead to a sample being lost, or being counted again after a restart; without them neither
      happens: a live sample offered to a full queue or between the end of the replay and the opening of the gate;
      a replay that is broken off, or ends over a file that rotation has replaced, with records unsent; a rotation
      that drops what a session has still to send; a panel that connects too late for what is rotated away, or that
      throws away a new sample because it comes too late; and the hazards of the flush. (A hazard may pass without harm,
      for example when a link breaks and the sample is replayed; the harm itself is told exactly in module `Harm`.) */
  ghost predicate Hazard(s: System, step: Step)
    requires Can(s, step)
  {
    match step
    case Agent(Fan(id, room)) =>
      var se := s.agent.sessions[id];
      se.up && s.agent.sampler.rec.seqNo !in SeqNos(se.out) && (se.phase.Leaving? || (se.phase.Live? && !room))
    case Agent(EndScan(id)) =>
      var ph := s.agent.sessions[id].phase;
      ph.frozen.Some? && (ph.sent == 0 || ph.round + 1 >= D.MAX_ROUNDS) &&
      D.Unsent(s.agent.log, D.Owed(s.agent, id), s.agent.sessions[id]) != {}
    case Agent(Abort(id)) => D.Unsent(s.agent.log, D.Owed(s.agent, id), s.agent.sessions[id]) != {}
    case Agent(Rotate(cutoff)) =>
      exists id :: id in s.agent.sessions &&
                   D.Forgotten(s.agent.wal, Young(s.agent.wal, cutoff), s.agent.sessions[id]) != {}
    case Connect(_) => exists r :: r in s.agent.log && r.seqNo > Hello(s.panel) && r !in s.agent.wal
    case Discard(id) => A.IsNew(s.panel.tracker, s.agent.sessions[id].out[s.agent.sessions[id].taken].seqNo)
    case Panel(st) => AI.Hazard(s.panel, st)
    case Restart => AI.Hazard(s.panel, A.PanelRestart)
    case _ => false
  }

  ghost predicate HazardFree(steps: seq<Step>)
    requires IsRun(steps)
  {
    steps == [] || (HazardFree(steps[..|steps| - 1]) && !Hazard(End(steps[..|steps| - 1]), steps[|steps| - 1]))
  }

  lemma {:induction false} EveryRunKeepsInv(steps: seq<Step>)
    requires IsRun(steps)
    ensures Inv(End(steps))
  {
    if steps != [] {
      EveryRunKeepsInv(steps[..|steps| - 1]);
      StepKeepsInv(End(steps[..|steps| - 1]), steps[|steps| - 1]);
    }
  }

  // ----- runs without hazards -----

  ghost predicate NothingExcused(a: D.Agent) {
    forall id :: id in a.sessions && (a.sessions[id].up || a.sessions[id].link) ==> a.sessions[id].excused == {}
  }

  /** A replay that reads the current file to its end has nothing left to send, whatever made it stop. */
  lemma {:induction false} WholeFileSent(log: seq<TrafficRec>, wal: seq<TrafficRec>, owed: Option<TrafficRec>,
                                         s: D.Session)
    requires D.SessionInv(log, wal, owed, s) && s.up
    requires s.phase.Scanning? && s.phase.frozen.None? && s.phase.pos == |wal|
    ensures D.Unsent(log, owed, s) <= s.excused
  {
    forall n | n in D.Unsent(log, owed, s) ensures n in s.excused {
      assert n in SeqNos(log);
      assert D.File(wal, s.phase) == wal;
      forall x | x in wal ensures x.seqNo <= s.cursor {
        var k :| 0 <= k < |wal| && wal[k] == x;
      }
      forall x | x in s.out ensures x.seqNo <= s.cursor {
        var k :| 0 <= k < |s.out| && s.out[k] == x;
      }
    }
  }

  lemma {:induction false} EndScanExcusesNothing(a: D.Agent, id: nat)
    requires D.AgentInv(a) && D.Can(a, D.EndScan(id)) && a.sessions[id].phase.frozen.None?
    ensures D.Unsent(a.log, D.Owed(a, id), a.sessions[id]) <= a.sessions[id].excused
  {
    assert D.SessionAt(a, id);
    WholeFileSent(a.log, a.wal, D.Owed(a, id), a.sessions[id]);
  }

  lemma {:induction false} AgentStepExcusesNothing(s: System, st: D.AgentStep)
    requires NothingExcused(s.agent) && Can(s, Agent(st)) && !Hazard(s, Agent(st))
    requires st.EndScan? && s.agent.sessions[st.id].phase.frozen.None? ==>
               D.Unsent(s.agent.log, D.Owed(s.agent, st.id), s.agent.sessions[st.id]) <= s.agent.sessions[st.id].excused
    ensures NothingExcused(D.Apply(s.agent, st))
  {}

  ghost predicate Clean(s: System) {
    NothingExcused(s.agent) && AI.Clean(s.panel)
  }

  lemma {:induction false} DeliverKeepsClean(s: System, id: nat)
    requires Inv(s) && Clean(s) && Can(s, Deliver(id))
    ensures AI.Clean(TakeNext(s, id).panel)
  {
    SkippedIsExcused(s, id);
    NextIsLogged(s, id);
    var r := s.agent.sessions[id].out[s.agent.sessions[id].taken];
    var step := A.Accept(r, A.Skipped(s.agent.log, s.panel.tracker, r.seqNo));
    if A.IsNew(s.panel.tracker, r.seqNo) {
      AI.StepKeepsClean(s.agent.log, s.panel, step);
    }
  }

  lemma {:induction false} AgentStepKeepsClean(s: System, st: D.AgentStep)
    requires Inv(s) && Clean(s) && Can(s, Agent(st)) && !Hazard(s, Agent(st))
    ensures Clean(Apply(s, Agent(st)))
  {
    if st.EndScan? && s.agent.sessions[st.id].phase.frozen.None? {
      EndScanExcusesNothing(s.agent, st.id);
    }
    AgentStepExcusesNothing(s, st);
  }

  lemma {:induction false} PanelStepKeepsClean(s: System, st: A.PanelStep)
    requires Inv(s) && AI.Clean(s.panel) && A.Can(s.panel, st) && AI.Sound(s.agent.log, s.panel, st) &&
             !AI.Hazard(s.panel, st)
    ensures AI.Clean(A.Apply(s.panel, st))
  {
    AI.StepKeepsClean(s.agent.log, s.panel, st);
  }

  lemma {:induction false} LinkStepExcusesNothing(s: System, step: Step)
    requires NothingExcused(s.agent) && Can(s, step) && !Hazard(s, step) && !step.Agent?
    ensures NothingExcused(Apply(s, step).agent)
  {}

  lemma {:induction false} StepKeepsClean(s: System, step: Step)
    requires Inv(s) && Clean(s) && Can(s, step) && !Hazard(s, step)
    ensures Clean(Apply(s, step))
  {
    if step.Agent? {
      AgentStepKeepsClean(s, step.step);
    } else {
      LinkStepExcusesNothing(s, step);
      match step
      case Panel(st) => PanelStepKeepsClean(s, st);
      case Handshake(id) => PanelStepKeepsClean(s, A.InitNode(s.agent.sessions[id].hello));
      case Restart => PanelStepKeepsClean(s, A.PanelRestart);
      case Deliver(id) => DeliverKeepsClean(s, id);
      case _ =>
    }
  }

  lemma {:induction false} HazardFreeRunsAreClean(steps: seq<Step>)
    requires IsRun(steps) && HazardFree(steps)
    ensures Inv(End(steps)) && Clean(End(steps))
  {
    EveryRunKeepsInv(steps);
    if steps != [] {
      EveryRunKeepsInv(steps[..|steps| - 1]);
      HazardFreeRunsAreClean(steps[..|steps| - 1]);
      StepKeepsClean(End(steps[..|steps| - 1]), steps[|steps| - 1]);
    }
  }

  lemma {:induction false} CountsAreTheLog(log: seq<TrafficRec>, acc: multiset<TrafficRec>, mark: int)
    requires Ascending(log) && (forall r :: r in acc ==> r in log) && A.Counted(log, acc, {}, {}, mark)
    ensures acc == multiset(UpTo(log, mark))
  {
    forall r ensures acc[r] == multiset(UpTo(log, mark))[r] {
      UpToCounts(log, mark, r);
    }
  }

  /** Exactly once: every logged sample up to the watermark is accounted for once, and for every day the database row,
      the rows still to be written, the bucket and what is on its way there add up to the bytes of exactly these. */
  ghost predicate CountedOnce(log: seq<TrafficRec>, p: A.Panel) {
    && A.Accounted(p) == multiset(UpTo(log, p.tracker))
    && forall d :: A.Total(p, d) == SumDay(UpTo(log, p.tracker), d)
  }

  lemma {:induction false} NothingLostIsCountedOnce(log: seq<TrafficRec>, p: A.Panel)
    requires Ascending(log) && A.PanelInv(log, p) && p.lost == {} && p.twice == {}
    ensures CountedOnce(log, p)
  {
    CountsAreTheLog(log, A.Accounted(p), p.tracker);
    var all := p.booked + p.batch + p.buf + p.entered;
    assert multiset(all) == A.Accounted(p);
    forall d ensures A.Total(p, d) == SumDay(UpTo(log, p.tracker), d) {
      A.TotalsOf(p, d);
      SumIsOrderFree(all, UpTo(log, p.tracker), d);
    }
  }

  /** In every run in which no hazard has happened, whatever else did, every sample is counted exactly once. */
  lemma {:induction false} HazardFreeRunsCountOnce(steps: seq<Step>)
    requires IsRun(steps) && HazardFree(steps)
    ensures CountedOnce(End(steps).agent.log, End(steps).panel)
  {
    HazardFreeRunsAreClean(steps);
    NothingLostIsCountedOnce(End(steps).agent.log, End(steps).panel);
  }

  /** The database holds exactly the samples up to the durable watermark. */
  ghost predicate DatabaseAgrees(log: seq<TrafficRec>, p: A.Panel) {
    && multiset(p.booked) == multiset(UpTo(log, p.durable))
    && forall d :: At(p.rows, d) == SumDay(UpTo(log, p.durable), d)
  }

  lemma {:induction false} CleanDatabaseAgrees(log: seq<TrafficRec>, p: A.Panel)
    requires Ascending(log) && A.PanelInv(log, p) && AI.Clean(p) && p.flush.Resting?
    ensures DatabaseAgrees(log, p)
  {
    forall r | r in log && r.seqNo <= p.durable ensures multiset(p.booked)[r] == 1 {
      assert A.Accounted(p)[r] == 1;
      assert r !in p.batch && r !in p.buf && r !in p.entered;
    }
    forall r | r in p.booked ensures r in log && r.seqNo <= p.durable {
      assert r in A.Accounted(p);
    }
    CountsAreTheLog(log, multiset(p.booked), p.durable);
    forall d ensures At(p.rows, d) == SumDay(UpTo(log, p.durable), d) {
      SumIsOrderFree(p.booked, UpTo(log, p.durable), d);
    }
  }

  /** Crash recovery: whenever no flush is under way, a restart that resumes at the durable watermark neither
      loses nor repeats any sample. */
  lemma {:induction false} DatabaseMatchesWatermark(steps: seq<Step>)
    requires IsRun(steps) && HazardFree(steps) && End(steps).panel.flush.Resting?
    ensures DatabaseAgrees(End(steps).agent.log, End(steps).panel)
  {
    HazardFreeRunsAreClean(steps);
    CleanDatabaseAgrees(End(steps).agent.log, End(steps).panel);
  }

  /** Two hazard-free runs over the same log that reach the same watermark agree on every day's total: restarts,
      reconnects and the way the flushes fell leave no trace. */
  lemma {:induction false} InterruptionsLeaveNoTrace(one: seq<Step>, other: seq<Step>, d: Day)
    requires IsRun(one) && HazardFree(one) && IsRun(other) && HazardFree(other)
    requires End(one).agent.log == End(other).agent.log && End(one).panel.tracker == End(other).panel.tracker
    ensures A.Total(End(one).panel, d) == A.Total(End(other).panel, d)
  {
    HazardFreeRunsCountOnce(one);
    HazardFreeRunsCountOnce(other);
  }

  /** The watermark that the panel sends is always the one it deduplicates by, so a replay repeats nothing that it has
      accepted in this life. */
  lemma {:induction false} HelloIsTheTracker(steps: seq<Step>)
    requires IsRun(steps)
    ensures Hello(End(steps).panel) == End(steps).panel.tracker
  {
    EveryRunKeepsInv(steps);
  }

  /** A served session whose replay is over has queued every logged sample past its watermark, but for the one
      that the sampler has still to offer. */
  lemma {:induction false} ReplayIsComplete(steps: seq<Step>, id: nat, r: TrafficRec)
    requires IsRun(steps) && HazardFree(steps) && D.Serving(End(steps).agent, id)
    requires var se := End(steps).agent.sessions[id];
             (se.phase.Leaving? || se.phase.Live?) && r in End(steps).agent.log && r.seqNo > se.hello
    ensures r in End(steps).agent.sessions[id].out || D.Owed(End(steps).agent, id) == Some(r)
  {
    HazardFreeRunsAreClean(steps);
    var a := End(steps).agent;
    assert D.SessionAt(a, id);
    SettledIsQueued(a.log, D.Owed(a, id), a.sessions[id], r);
  }

  /** And it catches up: once the panel has read all that such a session has queued, every logged sample is counted
      exactly once, but for the one that the sampler has still to offer. */
  lemma {:induction false} CaughtUpIsCounted(steps: seq<Step>, id: nat, r: TrafficRec)
    requires IsRun(steps) && HazardFree(steps) && D.Serving(End(steps).agent, id) && Linked(End(steps).agent, id)
    requires var se := End(steps).agent.sessions[id]; (se.phase.Leaving? || se.phase.Live?) && se.taken == |se.out|
    requires r in End(steps).agent.log && D.Owed(End(steps).agent, id) != Some(r)
    ensures A.Accounted(End(steps).panel)[r] == 1
  {
    HazardFreeRunsAreClean(steps);
    QueueOf(End(steps), id);
    if r.seqNo > End(steps).agent.sessions[id].hello {
      ReplayIsComplete(steps, id, r);
    }
    assert r.seqNo <= End(steps).panel.tracker;
  }

  lemma {:induction false} SettledIsQueued(log: seq<TrafficRec>, owed: Option<TrafficRec>, s: D.Session, r: TrafficRec)
    requires Ascending(log) && (owed.Some? ==> owed.value in log) && D.AllIn(s.out, log)
    requires D.Settled(SeqNos(log), D.Handled(s), s.hello, D.OwedNos(owed)) && s.excused == {}
    requires r in log && r.seqNo > s.hello
    ensures r in s.out || owed == Some(r)
  {
    assert r.seqNo in SeqNos(log);
    assert forall x :: x in log && x.seqNo == r.seqNo ==> x == r;
  }

  /** In every run a session's queue is in order: the replay strictly ascending above the watermark, the live samples
      after it, and at most one repeat, at the boundary. (`Links` says what the panel's tracker makes of it.) */
  lemma {:induction false} QueuesAreInOrder(steps: seq<Step>, id: nat)
    requires IsRun(steps) && id in End(steps).agent.sessions
    ensures var se := End(steps).agent.sessions[id];
            && D.InOrder(se.out, se.replayed, se.hello)
            && (se.taken < se.replayed <= |se.out| ==>
                  se.out[se.taken].seqNo > (if se.taken == 0 then se.hello else se.out[se.taken - 1].seqNo))
  {
    EveryRunKeepsInv(steps);
    QueueOf(End(steps), id);
  }
}
