/** What the panel's tracker makes of a replay: exactly which replayed records come too late when
    links overlap, and that none does when they follow one another. */
module Links {
  import opened Numbers
  import opened Records
  import opened System
  import opened ExactlyOnce
  import D = Delivery
  import A = Accounting
  import AI = AccountingInvariant

  // ----- what the other links have brought -----

  function NextNo(s: System, id: nat): int
    requires Can(s, Deliver(id))
  {
    s.agent.sessions[id].out[s.agent.sessions[id].taken].seqNo
  }

  function Heard(s: System, step: Step, id: nat, before: int): int
    requires Can(s, step)
  {
    match step
    case Connect(i) => if i == id then Hello(s.panel) else before
    case Deliver(i) => if i == id then before else Max(before, NextNo(s, i))
    case _ => before
  }

  /** The largest number that the panel has been brought by its other links since it made this one, or the watermark
      that it sent over this one if that is larger. */
  ghost function Overtaken(steps: seq<Step>, id: nat): int
    requires IsRun(steps)
  {
    if steps == [] then 0
    else Heard(End(steps[..|steps| - 1]), steps[|steps| - 1], id, Overtaken(steps[..|steps| - 1], id))
  }

  /** How far the panel has read: to the last message taken, or from the watermark it sent. */
  function ReadUpTo(se: D.Session): int {
    if 0 < se.taken <= |se.out| then se.out[se.taken - 1].seqNo else se.hello
  }

  /** The tracker is at what other links have brought, or above it, at what was read from this one at most. */
  ghost predicate Bounded(a: D.Agent, id: nat, tracker: int, overtaken: int) {
    Linked(a, id) ==> overtaken <= tracker <= Max(ReadUpTo(a.sessions[id]), overtaken)
  }

  lemma {:induction false} AgentStepKeepsReading(a: D.Agent, st: D.AgentStep, id: nat)
    requires D.AgentInv(a) && D.Can(a, st)
    ensures Linked(D.Apply(a, st), id) <==> Linked(a, id)
    ensures Linked(a, id) ==> ReadUpTo(D.Apply(a, st).sessions[id]) == ReadUpTo(a.sessions[id])
  {
    assert D.Apply(a, st).sessions.Keys == a.sessions.Keys;
    if id in a.sessions {
      TakenInRange(a, id);
      QueuesOnlyGrow(a, st, id);
    }
  }

  /** Between messages the panel's own steps leave the tracker alone. */
  lemma {:induction false} PanelStepKeepsTracker(p: A.Panel, st: A.PanelStep)
    requires A.Watermarks(p) && A.Can(p, st) && !st.Accept? && !st.PanelRestart?
    requires st.InitNode? ==> st.lastSeq <= p.tracker
    ensures A.Apply(p, st).tracker == p.tracker
  {}

  /** What is read next is not below what was read, and above it as long as it is replayed. */
  lemma {:induction false} NextIsAhead(log: seq<TrafficRec>, se: D.Session)
    requires D.QueueInv(log, se) && se.taken < |se.out|
    ensures ReadUpTo(se) <= se.out[se.taken].seqNo
    ensures se.taken < se.replayed ==> ReadUpTo(se) < se.out[se.taken].seqNo
  {}

  lemma {:induction false} TrackerFollows(s: System, id: nat)
    requires Can(s, Deliver(id))
    ensures TakeNext(s, id).agent == Take(s.agent, id)
    ensures TakeNext(s, id).panel.tracker == Max(s.panel.tracker, NextNo(s, id))
  {}

  lemma {:induction false} TakingKeepsBounded(a: D.Agent, i: nat, id: nat, tracker: int, overtaken: int)
    requires Linked(a, i) && a.sessions[i].taken < |a.sessions[i].out| && Bounded(a, id, tracker, overtaken)
    requires ReadUpTo(a.sessions[i]) <= a.sessions[i].out[a.sessions[i].taken].seqNo
    ensures var n := a.sessions[i].out[a.sessions[i].taken].seqNo;
            Bounded(Take(a, i), id, Max(tracker, n), if i == id then overtaken else Max(overtaken, n))
  {}

  lemma {:induction false} DeliveryKeepsBounded(s: System, i: nat, id: nat, overtaken: int)
    requires Inv(s) && Can(s, Deliver(i)) && Bounded(s.agent, id, s.panel.tracker, overtaken)
    ensures Bounded(TakeNext(s, i).agent, id, TakeNext(s, i).panel.tracker, Heard(s, Deliver(i), id, overtaken))
  {
    QueueOf(s, i);
    NextIsAhead(s.agent.log, s.agent.sessions[i]);
    TrackerFollows(s, i);
    TakingKeepsBounded(s.agent, i, id, s.panel.tracker, overtaken);
  }

  lemma {:induction false} DiscardKeepsBounded(s: System, i: nat, id: nat, overtaken: int)
    requires Inv(s) && Can(s, Discard(i)) && Bounded(s.agent, id, s.panel.tracker, overtaken)
    ensures Bounded(Ignore(s.agent, i, s.panel.tracker), id, s.panel.tracker, overtaken)
  {
    QueueOf(s, i);
    NextIsAhead(s.agent.log, s.agent.sessions[i]);
  }

  lemma {:induction false} StepKeepsBounded(s: System, step: Step, id: nat, overtaken: int)
    requires Inv(s) && Can(s, step) && Bounded(s.agent, id, s.panel.tracker, overtaken)
    ensures Bounded(Apply(s, step).agent, id, Apply(s, step).panel.tracker, Heard(s, step, id, overtaken))
  {
    match step
    case Agent(st) => AgentStepKeepsReading(s.agent, st, id);
    case Panel(st) => PanelStepKeepsTracker(s.panel, st);
    case Handshake(i) =>
      QueueOf(s, i);
      PanelStepKeepsTracker(s.panel, A.InitNode(s.agent.sessions[i].hello));
    case Deliver(i) => DeliveryKeepsBounded(s, i, id, overtaken);
    case Discard(i) => DiscardKeepsBounded(s, i, id, overtaken);
    case _ =>
  }

  lemma {:induction false} EveryRunIsBounded(steps: seq<Step>, id: nat)
    requires IsRun(steps)
    ensures Inv(End(steps)) && Bounded(End(steps).agent, id, End(steps).panel.tracker, Overtaken(steps, id))
  {
    EveryRunKeepsInv(steps);
    if steps != [] {
      EveryRunIsBounded(steps[..|steps| - 1], id);
      StepKeepsBounded(End(steps[..|steps| - 1]), steps[|steps| - 1], id, Overtaken(steps[..|steps| - 1], id));
    }
  }

  /** In every run, a replayed record comes too late if and only if another link has brought its number, or a later one,
      since this link was made. */
  lemma {:induction false} ReplayIsStaleIff(steps: seq<Step>, id: nat)
    requires IsRun(steps) && Can(End(steps), Deliver(id))
    requires End(steps).agent.sessions[id].taken < End(steps).agent.sessions[id].replayed
    ensures !A.IsNew(End(steps).panel.tracker, NextNo(End(steps), id)) <==>
            NextNo(End(steps), id) <= Overtaken(steps, id)
  {
    EveryRunIsBounded(steps, id);
    QueueOf(End(steps), id);
    NextIsAhead(End(steps).agent.log, End(steps).agent.sessions[id]);
  }

  // ----- links that follow one another -----

  ghost predicate NoLink(a: D.Agent) {
    forall id :: id in a.sessions ==> !a.sessions[id].link
  }

  /** The panel connects anew only when its last link is gone, as its connection loop does. */
  ghost predicate Serial(steps: seq<Step>)
    requires IsRun(steps)
  {
    steps == [] ||
    (Serial(steps[..|steps| - 1]) && (steps[|steps| - 1].Connect? ==> NoLink(End(steps[..|steps| - 1]).agent)))
  }

  ghost predicate OneLink(a: D.Agent) {
    forall i, j :: Linked(a, i) && Linked(a, j) ==> i == j
  }

  lemma {:induction false} StepKeepsOneLink(s: System, step: Step)
    requires Can(s, step) && OneLink(s.agent) && (step.Connect? ==> NoLink(s.agent))
    ensures OneLink(Apply(s, step).agent)
  {
    forall id | Linked(Apply(s, step).agent, id) ensures Linked(s.agent, id) || step == Connect(id) {}
  }

  lemma {:induction false} StepOvertakesNothing(s: System, step: Step, id: nat, overtaken: int)
    requires Inv(s) && Can(s, step) && OneLink(s.agent) && Linked(Apply(s, step).agent, id)
    requires Linked(s.agent, id) ==> overtaken == s.agent.sessions[id].hello
    ensures Heard(s, step, id, overtaken) == Apply(s, step).agent.sessions[id].hello
  {
    match step
    case Agent(st) => QueuesOnlyGrow(s.agent, st, id);
    case Deliver(i) =>
      assert Apply(s, step).agent == Take(s.agent, i);
      assert Linked(s.agent, id) && Linked(s.agent, i);
    case _ =>
  }

  lemma {:induction false} SerialRunsOvertakeNothing(steps: seq<Step>, id: nat)
    requires IsRun(steps) && Serial(steps)
    ensures OneLink(End(steps).agent)
    ensures Linked(End(steps).agent, id) ==> Overtaken(steps, id) == End(steps).agent.sessions[id].hello
  {
    if steps != [] {
      var before, step := steps[..|steps| - 1], steps[|steps| - 1];
      EveryRunKeepsInv(before);
      SerialRunsOvertakeNothing(before, id);
      StepKeepsOneLink(End(before), step);
      if Linked(End(steps).agent, id) {
        StepOvertakesNothing(End(before), step, id, Overtaken(before, id));
      }
    }
  }

  /** So as long as links follow one another, the panel's tracker takes every replayed record that reaches it: none is
      ever mistaken for one that was seen, whatever was dropped, thrown away, restarted or broken off before. */
  lemma {:induction false} ReplayIsNeverStale(steps: seq<Step>, id: nat)
    requires IsRun(steps) && Serial(steps) && Can(End(steps), Deliver(id))
    ensures var se := End(steps).agent.sessions[id];
            && D.InOrder(se.out, se.replayed, se.hello)
            && (se.taken < se.replayed ==> A.IsNew(End(steps).panel.tracker, se.out[se.taken].seqNo))
  {
    EveryRunKeepsInv(steps);
    QueueOf(End(steps), id);
    SerialRunsOvertakeNothing(steps, id);
    if End(steps).agent.sessions[id].taken < End(steps).agent.sessions[id].replayed {
      ReplayIsStaleIff(steps, id);
    }
  }

  /** When a message comes too late the panel drops it, and unless its record is marked as possibly repeated it has been
      counted once or lost before; without hazards, counted. */
  lemma {:induction false} StaleMeansSettled(steps: seq<Step>, id: nat)
    requires IsRun(steps) && Can(End(steps), Deliver(id))
    requires var se := End(steps).agent.sessions[id];
             !A.IsNew(End(steps).panel.tracker, se.out[se.taken].seqNo)
    ensures var s := End(steps);
            var r := s.agent.sessions[id].out[s.agent.sessions[id].taken];
            && Apply(s, Deliver(id)).panel == s.panel
            && (r.seqNo !in s.panel.twice ==> A.Accounted(s.panel)[r] + (if r.seqNo in s.panel.lost then 1 else 0) == 1)
            && (HazardFree(steps) ==> A.Accounted(s.panel)[r] == 1)
  {
    EveryRunKeepsInv(steps);
    NextIsLogged(End(steps), id);
    if HazardFree(steps) {
      HazardFreeRunsAreClean(steps);
    }
  }
}
