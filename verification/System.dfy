/** Agent and panel of one node together, over every run: samples are accounted for
    exactly once, up to the losses and repeats that the named hazards cause. */
module System {
  import opened Numbers
  import opened Options
  import opened Records
  import D = Delivery
  import A = Accounting
  import DI = DeliveryInvariant
  import AI = AccountingInvariant

  datatype System = System(agent: D.Agent, panel: A.Panel)

  datatype Step =
    | Agent(step: D.AgentStep)
    | Panel(flush: A.PanelStep)
    | Connect(id: nat)
    | Handshake(id: nat)
    | Deliver(id: nat)
    | Discard(id: nat)
    | Unlink(id: nat)
    | Restart

  const INITIAL := System(D.INITIAL, A.EMPTY)

  /** The watermark a panel sends in its Hello: the greater of the one loaded with the node and the tracker's. */
  function Hello(p: A.Panel): int {
    Max(p.tracker, p.snap)
  }

  predicate Linked(a: D.Agent, id: nat) {
    id in a.sessions && a.sessions[id].link
  }

  predicate Can(s: System, step: Step) {
    match step
    case Agent(st) => D.Can(s.agent, st)
    case Panel(st) => !st.Accept? && !st.PanelRestart? && !st.InitNode? && A.Can(s.panel, st)
    case Connect(id) => id !in s.agent.sessions && !s.agent.sampler.Fanning?
    case Handshake(id) => Linked(s.agent, id)
    case Deliver(id) => Linked(s.agent, id) && s.agent.sessions[id].taken < |s.agent.sessions[id].out|
    case Discard(id) => Linked(s.agent, id) && s.agent.sessions[id].taken < |s.agent.sessions[id].out|
    case Unlink(id) => Linked(s.agent, id)
    case Restart => true
  }

  function Take(a: D.Agent, id: nat): D.Agent
    requires id in a.sessions
  {
    a.(sessions := a.sessions[id := a.sessions[id].(taken := a.sessions[id].taken + 1)])
  }

  /** The panel reads the next message and throws it away, as its time stamp lies outside the replay window; the link
      stays up. A number that was still new to the panel is one this session will not carry any more. */
  function Ignore(a: D.Agent, id: nat, tracker: int): D.Agent
    requires id in a.sessions && a.sessions[id].taken < |a.sessions[id].out|
  {
    var se := a.sessions[id];
    var n := se.out[se.taken].seqNo;
    a.(sessions := a.sessions[id := se.(taken := se.taken + 1,
    excused := se.excused + if A.IsNew(tracker, n) then {n} else {})])
  }

  function UnlinkAll(a: D.Agent): D.Agent {
    a.(sessions := map id | id in a.sessions :: a.sessions[id].(link := false))
  }

  /** The panel takes the next metrics message of a session: a new number is accepted, an old one is dropped. */
  function TakeNext(s: System, id: nat): System
    requires Can(s, Deliver(id))
  {
    var r := s.agent.sessions[id].out[s.agent.sessions[id].taken];
    System(Take(s.agent, id),
           if A.IsNew(s.panel.tracker, r.seqNo) then
             A.Apply(s.panel, A.Accept(r, A.Skipped(s.agent.log, s.panel.tracker, r.seqNo)))
           else s.panel)
  }

  function Apply(s: System, step: Step): System
    requires Can(s, step)
  {
    match step
    case Agent(st) => s.(agent := D.Apply(s.agent, st))
    case Panel(st) => s.(panel := A.Apply(s.panel, st))
    case Connect(id) =>
      s.(agent := s.agent.(sessions := s.agent.sessions[id := D.NewSession(s.agent, Hello(s.panel))]))
    case Handshake(id) => s.(panel := A.Apply(s.panel, A.InitNode(s.agent.sessions[id].hello)))
    case Deliver(id) => TakeNext(s, id)
    case Discard(id) => s.(agent := Ignore(s.agent, id, s.panel.tracker))
    case Unlink(id) =>
      s.(agent := s.agent.(sessions := s.agent.sessions[id := s.agent.sessions[id].(link := false)]))
    case Restart => System(UnlinkAll(s.agent), A.Apply(s.panel, A.PanelRestart))
  }

  // ----- what every step keeps -----

  /** What the panel has read from a live session is at or below its watermark, or was thrown away. */
  ghost predicate LinkInv(tracker: int, s: D.Session) {
    s.link ==>
      && s.hello <= tracker
      && forall i :: 0 <= i < s.taken && i < |s.out| ==> s.out[i].seqNo <= tracker || s.out[i].seqNo in s.excused
  }

  ghost predicate Inv(s: System) {
    && D.AgentInv(s.agent)
    && A.PanelInv(s.agent.log, s.panel)
    && s.panel.tracker <= D.LastNo(s.agent.log)
    && forall id :: id in s.agent.sessions ==> LinkInv(s.panel.tracker, s.agent.sessions[id])
  }

  lemma LinkGrows(t: int, t': int, s: D.Session, s': D.Session)
    requires LinkInv(t, s) && t <= t' && s'.hello == s.hello && s'.taken == s.taken && s.out <= s'.out
    requires s.taken <= |s.out| && (s'.link ==> s.link) && s.excused <= s'.excused
    ensures LinkInv(t', s')
  {}

  lemma TakenInRange(a: D.Agent, id: nat)
    requires D.AgentInv(a) && id in a.sessions
    ensures a.sessions[id].taken <= |a.sessions[id].out| && a.sessions[id].hello <= D.LastNo(a.log)
  {
    assert D.SessionAt(a, id);
  }

  lemma QueuesOnlyGrow(a: D.Agent, st: D.AgentStep, id: nat)
    requires D.Can(a, st) && id in a.sessions
    ensures var s, s' := a.sessions[id], D.Apply(a, st).sessions[id];
            s.out <= s'.out && s'.hello == s.hello && s'.taken == s.taken && s'.link == s.link &&
            s.excused <= s'.excused
  {}

  /** No step of the agent changes what the panel has already read. */
  lemma AgentStepKeepsLinks(a: D.Agent, st: D.AgentStep, tracker: int)
    requires D.AgentInv(a) && D.Can(a, st)
    requires forall id :: id in a.sessions ==> LinkInv(tracker, a.sessions[id])
    ensures forall id :: id in D.Apply(a, st).sessions ==> LinkInv(tracker, D.Apply(a, st).sessions[id])
  {
    forall id | id in D.Apply(a, st).sessions ensures LinkInv(tracker, D.Apply(a, st).sessions[id]) {
      TakenInRange(a, id);
      QueuesOnlyGrow(a, st, id);
      LinkGrows(tracker, tracker, a.sessions[id], D.Apply(a, st).sessions[id]);
    }
  }

  lemma OnlyAppendsLog(a: D.Agent, st: D.AgentStep)
    requires D.Can(a, st) && !st.Append?
    ensures D.Apply(a, st).log == a.log
  {}

  lemma AgentStepKeepsPanel(a: D.Agent, st: D.AgentStep, p: A.Panel)
    requires D.AgentInv(a) && D.Can(a, st) && A.PanelInv(a.log, p) && p.tracker <= D.LastNo(a.log)
    ensures A.PanelInv(D.Apply(a, st).log, p) && p.tracker <= D.LastNo(D.Apply(a, st).log)
  {
    if st.Append? {
      assert st.rec !in a.log;
      A.AppendKeepsCount(a.log, p, st.rec);
    } else {
      OnlyAppendsLog(a, st);
    }
  }

  /** What a linked session's queue holds is either read and below the watermark, or thrown away, or not before the
      next message. */
  lemma ReadOrStillAhead(log: seq<TrafficRec>, se: D.Session, tracker: int)
    requires D.QueueInv(log, se) && LinkInv(tracker, se) && se.link && se.taken < |se.out|
    ensures se.hello <= tracker
    ensures se.out[se.taken] in log && se.out[se.taken].seqNo <= D.LastNo(se.out)
    ensures forall n :: n in SeqNos(se.out) ==> n <= tracker || n in se.excused || n >= se.out[se.taken].seqNo
  {
    assert se.out[se.taken] in se.out;
    forall n | n in SeqNos(se.out) ensures n <= tracker || n in se.excused || n >= se.out[se.taken].seqNo {
      var x :| x in se.out && x.seqNo == n;
      var j :| 0 <= j < |se.out| && se.out[j] == x;
    }
  }

  lemma QueueOf(s: System, id: nat)
    requires Inv(s) && id in s.agent.sessions
    ensures D.QueueInv(s.agent.log, s.agent.sessions[id]) && LinkInv(s.panel.tracker, s.agent.sessions[id])
  {
    assert D.SessionAt(s.agent, id);
  }

  /** Every number that a delivery passes over is one that the session was excused from, before it was queued or after
      it was read: nothing else is ever lost on the way. */
  lemma SkippedIsExcused(s: System, id: nat)
    requires Inv(s) && Can(s, Deliver(id))
    ensures var se := s.agent.sessions[id];
            A.Skipped(s.agent.log, s.panel.tracker, se.out[se.taken].seqNo) <= se.excused
  {
    var se := s.agent.sessions[id];
    QueueOf(s, id);
    ReadOrStillAhead(s.agent.log, se, s.panel.tracker);
    forall n | n in A.Skipped(s.agent.log, s.panel.tracker, se.out[se.taken].seqNo)
      ensures n in se.excused
    {
      assert n in SeqNos(s.agent.log);
      assert n in D.Handled(se);
    }
  }

  lemma TakeKeepsAgentInv(a: D.Agent, id: nat, s: D.Session)
    requires D.AgentInv(a) && id in a.sessions
    requires s == a.sessions[id].(taken := s.taken, link := s.link, excused := s.excused) && s.taken <= |s.out|
    requires a.sessions[id].excused <= s.excused <= D.Handled(a.sessions[id])
    ensures D.AgentInv(a.(sessions := a.sessions[id := s]))
  {
    assert D.SessionAt(a, id);
    assert D.Handled(s) == D.Handled(a.sessions[id]);
    DI.OneSessionChanges(a, id, s);
  }

  lemma UnlinkAllKeepsAgentInv(a: D.Agent)
    requires D.AgentInv(a)
    ensures D.AgentInv(UnlinkAll(a))
  {
    forall id: nat { UnlinkedAt(a, id); }
  }

  lemma UnlinkedAt(a: D.Agent, id: nat)
    requires D.SessionAt(a, id)
    ensures D.SessionAt(UnlinkAll(a), id)
  {
    if id in a.sessions {
      UnlinkKeeps(a.log, a.wal, D.Owed(a, id), a.sessions[id]);
      assert D.Owed(UnlinkAll(a), id) == D.Owed(a, id);
    }
  }

  lemma UnlinkKeeps(log: seq<TrafficRec>, wal: seq<TrafficRec>, owed: Option<TrafficRec>, s: D.Session)
    requires D.SessionInv(log, wal, owed, s)
    ensures D.SessionInv(log, wal, owed, s.(link := false))
  {
    assert D.Handled(s.(link := false)) == D.Handled(s);
  }

  lemma NextIsLogged(s: System, id: nat)
    requires Inv(s) && Can(s, Deliver(id))
    ensures var r := s.agent.sessions[id].out[s.agent.sessions[id].taken];
            r in s.agent.log && r.seqNo <= D.LastNo(s.agent.log)
  {
    QueueOf(s, id);
    ReadOrStillAhead(s.agent.log, s.agent.sessions[id], s.panel.tracker);
    DI.LastIsLargest(s.agent.log);
  }

  lemma DeliverKeepsPanel(s: System, id: nat)
    requires Inv(s) && Can(s, Deliver(id))
    ensures A.PanelInv(s.agent.log, TakeNext(s, id).panel) && TakeNext(s, id).panel.tracker <= D.LastNo(s.agent.log)
  {
    NextIsLogged(s, id);
    var r := s.agent.sessions[id].out[s.agent.sessions[id].taken];
    if A.IsNew(s.panel.tracker, r.seqNo) {
      AI.AcceptKeepsInv(s.agent.log, s.panel, r);
    }
  }

  lemma TakeKeepsLinks(a: D.Agent, id: nat, t: int, t': int)
    requires id in a.sessions && a.sessions[id].taken < |a.sessions[id].out|
    requires t <= t' && a.sessions[id].out[a.sessions[id].taken].seqNo <= t'
    requires forall i :: i in a.sessions ==> LinkInv(t, a.sessions[i])
    ensures forall i :: i in Take(a, id).sessions ==> LinkInv(t', Take(a, id).sessions[i])
  {}

  lemma IgnoreKeepsInv(s: System, id: nat)
    requires Inv(s) && Can(s, Discard(id))
    ensures Inv(Apply(s, Discard(id)))
  {
    var s' := Ignore(s.agent, id, s.panel.tracker);
    var se, se' := s.agent.sessions[id], s'.sessions[id];
    assert se.out[se.taken] in se.out;
    TakeKeepsAgentInv(s.agent, id, se');
    forall i | i in s'.sessions ensures LinkInv(s.panel.tracker, s'.sessions[i]) {
      assert LinkInv(s.panel.tracker, s.agent.sessions[i]);
    }
  }

  lemma DeliverKeepsInv(s: System, id: nat)
    requires Inv(s) && Can(s, Deliver(id))
    ensures Inv(Apply(s, Deliver(id)))
  {
    DeliverKeepsPanel(s, id);
    TakeKeepsAgentInv(s.agent, id, s.agent.sessions[id].(taken := s.agent.sessions[id].taken + 1));
    TakeKeepsLinks(s.agent, id, s.panel.tracker, TakeNext(s, id).panel.tracker);
  }

  lemma ConnectKeepsInv(s: System, id: nat)
    requires Inv(s) && Can(s, Connect(id))
    ensures Inv(Apply(s, Connect(id)))
  {
    DI.ConnectKeepsAgentInv(s.agent, id, Hello(s.panel));
  }

  lemma AgentStepKeepsInv(s: System, st: D.AgentStep)
    requires Inv(s) && Can(s, Agent(st))
    ensures Inv(Apply(s, Agent(st)))
  {
    DI.StepKeepsAgentInv(s.agent, st);
    AgentStepKeepsPanel(s.agent, st, s.panel);
    AgentStepKeepsLinks(s.agent, st, s.panel.tracker);
  }

  lemma PanelStepKeepsLinks(a: D.Agent, p: A.Panel, st: A.PanelStep)
    requires A.Watermarks(p) && A.Can(p, st) && !st.Accept? && !st.PanelRestart? && !st.InitNode?
    requires p.tracker <= D.LastNo(a.log) && forall id :: id in a.sessions ==> LinkInv(p.tracker, a.sessions[id])
    ensures A.Apply(p, st).tracker <= D.LastNo(a.log)
    ensures forall id :: id in a.sessions ==> LinkInv(A.Apply(p, st).tracker, a.sessions[id])
  {}

  lemma StepKeepsInv(s: System, step: Step)
    requires Inv(s) && Can(s, step)
    ensures Inv(Apply(s, step))
  {
    match step
    case Agent(st) => AgentStepKeepsInv(s, st);
    case Panel(st) =>
      AI.StepKeepsPanelInv(s.agent.log, s.panel, st);
      PanelStepKeepsLinks(s.agent, s.panel, st);
    case Connect(id) => ConnectKeepsInv(s, id);
    case Handshake(id) =>
      AI.StepKeepsPanelInv(s.agent.log, s.panel, A.InitNode(s.agent.sessions[id].hello));
    case Deliver(id) => DeliverKeepsInv(s, id);
    case Discard(id) => IgnoreKeepsInv(s, id);
    case Unlink(id) =>
      TakenInRange(s.agent, id);
      TakeKeepsAgentInv(s.agent, id, s.agent.sessions[id].(link := false));
    case Restart =>
      UnlinkAllKeepsAgentInv(s.agent);
      AI.StepKeepsPanelInv(s.agent.log, s.panel, A.PanelRestart);
      AI.WatermarksNeverGoBack(s.panel, A.PanelRestart);
  }
}
