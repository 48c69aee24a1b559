/** What becomes of a lost sample: which restarts bring it back, and when it is gone for good. */
module Losses {
  import opened Records
  import opened System
  import opened ExactlyOnce
  import opened Harm
  import A = Accounting
  import AI = AccountingInvariant
  import Durability

  /** The state after the first `k` steps. */
  ghost function StateAt(steps: seq<Step>, k: nat): System
    requires IsRun(steps) && k <= |steps|
  {
    if k == |steps| then End(steps) else StateAt(steps[..|steps| - 1], k)
  }

  /** None of the steps from the `k`th on does harm. */
  ghost predicate HarmlessFrom(steps: seq<Step>, k: nat)
    requires IsRun(steps)
  {
    |steps| <= k ||
    (HarmlessFrom(steps[..|steps| - 1], k) && !Harms(End(steps[..|steps| - 1]), steps[|steps| - 1]))
  }

  lemma {:induction false} OneStepOn(steps: seq<Step>, k: nat)
    requires IsRun(steps) && k < |steps|
    ensures Can(StateAt(steps, k), steps[k]) && StateAt(steps, k + 1) == Apply(StateAt(steps, k), steps[k])
  {
    if k + 1 < |steps| {
      OneStepOn(steps[..|steps| - 1], k);
    }
  }

  lemma {:induction false} HarmlessSince(steps: seq<Step>, k: nat)
    requires IsRun(steps) && k <= |steps| && HarmlessFrom(steps, k)
    ensures End(steps).panel.lost <= StateAt(steps, k).panel.lost
    ensures End(steps).panel.twice <= StateAt(steps, k).panel.twice
  {
    if k < |steps| {
      var before := steps[..|steps| - 1];
      HarmlessSince(before, k);
      EveryRunKeepsHistory(before);
      HarmIff(End(before), steps[|steps| - 1]);
    }
  }

  lemma {:induction false} StepKeepsFinal(s: System, step: Step, n: int)
    requires Can(s, step) && Durability.Final(s.panel, n)
    ensures Durability.Final(Apply(s, step).panel, n)
  {
    match step
    case Panel(st) => Durability.FinalStaysFinal(s.panel, st, n);
    case Handshake(id) => Durability.FinalStaysFinal(s.panel, A.InitNode(s.agent.sessions[id].hello), n);
    case Restart => Durability.FinalStaysFinal(s.panel, A.PanelRestart, n);
    case _ =>
  }

  lemma {:induction false} FinalSince(steps: seq<Step>, k: nat, n: int)
    requires IsRun(steps) && k <= |steps| && Durability.Final(StateAt(steps, k).panel, n)
    ensures Durability.Final(End(steps).panel, n)
  {
    if k < |steps| {
      FinalSince(steps[..|steps| - 1], k, n);
      StepKeepsFinal(End(steps[..|steps| - 1]), steps[|steps| - 1], n);
    }
  }

  /** Once the durable watermark has passed a lost sample, no continuation of the run counts it, unless it is one of
      those that were booked before a panel stopped. */
  lemma {:induction false} GoneForGood(steps: seq<Step>, k: nat, r: TrafficRec)
    requires IsRun(steps) && k <= |steps| && r in End(steps).agent.log
    requires r.seqNo in StateAt(steps, k).panel.lost && r.seqNo <= StateAt(steps, k).panel.durable
    requires r.seqNo !in End(steps).panel.twice
    ensures A.Accounted(End(steps).panel)[r] == 0
  {
    FinalSince(steps, k, r.seqNo);
    AccountedOrLost(steps, r);
    EveryRunKeepsInv(steps);
  }

  /** A panel restart recovers a lost sample exactly if the durable watermark is below it: as long as nothing after the
      restart does harm, by the time the panel's watermark reaches it the sample is counted once, and otherwise
      never. */
  lemma {:induction false} RestartRecoversIff(steps: seq<Step>, k: nat, r: TrafficRec)
    requires IsRun(steps) && k < |steps| && steps[k] == Restart && HarmlessFrom(steps, k + 1)
    requires r in End(steps).agent.log && r.seqNo in StateAt(steps, k).panel.lost
    requires r.seqNo !in StateAt(steps, k + 1).panel.twice && r.seqNo <= End(steps).panel.tracker
    ensures A.Accounted(End(steps).panel)[r] == if r.seqNo > StateAt(steps, k).panel.durable then 1 else 0
  {
    OneStepOn(steps, k);
    HarmlessSince(steps, k + 1);
    if r.seqNo > StateAt(steps, k).panel.durable {
      Durability.RestartKeepsLostIff(StateAt(steps, k).panel, r.seqNo);
      AccountedOrLost(steps, r);
    } else {
      GoneForGood(steps, k, r);
    }
  }
}
