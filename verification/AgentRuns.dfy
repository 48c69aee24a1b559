/** Runs of the agent's protocol: what a sample and the steps of a replay do to them. */
module AgentRuns {
  import opened Options
  import opened Records
  import D = Delivery

  /** An agent's state followed from `born` through the steps it has taken since. */
  datatype Trail = Trail(born: D.Agent, steps: seq<D.AgentStep>) {
    ghost predicate Possible()
      decreases |steps|, 0
    {
      steps == [] || (Before().Possible() && D.Can(Before().End(), steps[|steps| - 1]))
    }

    ghost function End(): D.Agent
      requires Possible()
      decreases |steps|, 1
    {
      if steps == [] then born else D.Apply(Before().End(), steps[|steps| - 1])
    }

    function Before(): Trail
      requires steps != []
    {
      Trail(born, steps[..|steps| - 1])
    }

    function Then(step: D.AgentStep): Trail {
      Trail(born, steps + [step])
    }
  }

  lemma {:induction false} OneMore(t: Trail, step: D.AgentStep)
    requires t.Possible() && D.Can(t.End(), step)
    ensures t.Then(step).Possible() && t.Then(step).End() == D.Apply(t.End(), step)
  {
    assert t.Then(step).Before() == t;
  }

  ghost predicate Extends(t': Trail, t: Trail) {
    t'.born == t.born && t.steps <= t'.steps
  }

  // Sets of runs rather than predicates: that a run is one of them is then a single condition, also across a loop.

  /** The runs that have come to this log and counter, between two samples. */
  ghost function Runs(recs: seq<TrafficRec>, counter: int): iset<Trail> {
    iset t: Trail | t.Possible() && t.End().wal == recs && t.End().counter == counter && t.End().sampler == D.Idle
  }

  /** The runs in which a served session has come to this queue, phase and cursor. */
  ghost function Replays(id: nat, out: seq<TrafficRec>, phase: D.Phase, cursor: int): iset<Trail> {
    iset t: Trail |
    t.Possible() && id in t.End().sessions && t.End().sessions[id].up && t.End().sessions[id].out == out &&
    t.End().sessions[id].phase == phase && t.End().sessions[id].cursor == cursor
  }

  predicate Replaying(s: D.Session) {
    s.phase.Between? || s.phase.Scanning?
  }

  /** The continuations of a run that leave all sessions alone whose replay is not over. */
  ghost function Spared(t: Trail): iset<Trail> {
    iset t': Trail |
    Extends(t', t) && t.Possible() && t'.Possible() && t'.End().sessions.Keys == t.End().sessions.Keys &&
    forall id :: id in t.End().sessions && Replaying(t.End().sessions[id]) ==>
                   t'.End().sessions[id] == t.End().sessions[id]
  }

  lemma {:induction false} SparedTwice(t: Trail, t': Trail, t'': Trail)
    requires t' in Spared(t) && t'' in Spared(t')
    ensures t'' in Spared(t)
  {}

  lemma {:induction false} SparedStep(t: Trail, step: D.AgentStep)
    requires t.Possible() && D.Can(t.End(), step) && D.Apply(t.End(), step).sessions.Keys == t.End().sessions.Keys
    requires forall id :: id in t.End().sessions && Replaying(t.End().sessions[id]) ==>
                            D.Apply(t.End(), step).sessions[id] == t.End().sessions[id]
    ensures t.Then(step) in Spared(t)
  {
    OneMore(t, step);
  }

  /** The sampler offers its sample to the rest of the sessions. */
  lemma {:induction false} FanOut(t: Trail, rec: TrafficRec, todo: set<nat>) returns (t': Trail)
    requires t.Possible() && t.End().sampler == D.Fanning(rec, todo) && todo <= t.End().sessions.Keys
    ensures t' in Spared(t) && t'.End().sampler == D.Fanning(rec, {})
    ensures t'.End().wal == t.End().wal && t'.End().counter == t.End().counter
    decreases todo
  {
    if todo == {} {
      t' := t;
    } else {
      var id :| id in todo;
      var step := D.Fan(id, true);
      OneMore(t, step);
      SparedStep(t, step);
      t' := FanOut(t.Then(step), rec, todo - {id});
      SparedTwice(t, t.Then(step), t');
    }
  }

  /** One whole sample: numbered, logged and offered. */
  lemma {:induction false} TakeSample(t: Trail, recs: seq<TrafficRec>, counter: int, rec: TrafficRec)
    returns (t': Trail)
    requires t in Runs(recs, counter) && rec.seqNo == counter + 1
    ensures t' in Runs(recs + [rec], counter + 1) && t' in Spared(t)
  {
    var t1 := t.Then(D.TakeNumber);
    OneMore(t, D.TakeNumber);
    SparedStep(t, D.TakeNumber);
    var t2 := t1.Then(D.Append(rec));
    OneMore(t1, D.Append(rec));
    SparedStep(t1, D.Append(rec));
    var t3 := t2.Then(D.StartFanout);
    OneMore(t2, D.StartFanout);
    SparedStep(t2, D.StartFanout);
    var t4 := FanOut(t3, rec, t3.End().sampler.todo);
    OneMore(t4, D.EndFanout);
    SparedStep(t4, D.EndFanout);
    t' := t4.Then(D.EndFanout);
    SparedTwice(t, t1, t2);
    SparedTwice(t, t2, t3);
    SparedTwice(t, t3, t4);
    SparedTwice(t, t4, t');
  }

  // ----- a replay, as the protocol sees it -----

  function Reading(round: nat, from: int, pos: nat, sent: nat): D.Phase {
    D.Scanning(round, from, pos, sent, None)
  }

  lemma {:induction false} FileOpened(t: Trail, id: nat, recs: seq<TrafficRec>, counter: int, out: seq<TrafficRec>,
                                      round: nat, cursor: int)
    requires t in Runs(recs, counter) && t in Replays(id, out, D.Between(round), cursor)
    ensures t.Then(D.OpenFile(id)) in Runs(recs, counter)
    ensures t.Then(D.OpenFile(id)) in Replays(id, out, Reading(round, cursor, 0, 0), cursor)
  {
    OneMore(t, D.OpenFile(id));
  }

  lemma {:induction false} RecordRead(t: Trail, id: nat, recs: seq<TrafficRec>, counter: int, out: seq<TrafficRec>,
                                      round: nat, from: int, pos: nat, sent: nat, cursor: int)
    requires t in Runs(recs, counter) && t in Replays(id, out, Reading(round, from, pos, sent), cursor) && pos < |recs|
    ensures t.Then(D.ScanRecord(id)) in Runs(recs, counter)
    ensures var r := recs[pos];
            t.Then(D.ScanRecord(id)) in
              (if r.seqNo <= from then Replays(id, out, Reading(round, from, pos + 1, sent), cursor)
               else Replays(id, out + [r], Reading(round, from, pos + 1, sent + 1), r.seqNo))
  {
    OneMore(t, D.ScanRecord(id));
  }

  /** The phase after a round. */
  function After(round: nat, sent: nat, ended: bool): D.Phase {
    if ended || sent == 0 || round + 1 >= D.MAX_ROUNDS then D.Leaving else D.Between(round + 1)
  }

  lemma {:induction false} ScanEnds(a: D.Agent, id: nat, round: nat, from: int, sent: nat)
    requires D.Serving(a, id) && a.sessions[id].phase == Reading(round, from, |a.wal|, sent)
    ensures D.Can(a, D.EndScan(id)) && id in D.Apply(a, D.EndScan(id)).sessions
    ensures var s, s' := a.sessions[id], D.Apply(a, D.EndScan(id)).sessions[id];
            s'.up && s'.out == s.out && s'.cursor == s.cursor && s'.phase == After(round, sent, false)
    ensures D.Apply(a, D.EndScan(id)) == a.(sessions := D.Apply(a, D.EndScan(id)).sessions)
  {}

  lemma {:induction false} FileRead(t: Trail, id: nat, recs: seq<TrafficRec>, counter: int, out: seq<TrafficRec>,
                                    round: nat, from: int, sent: nat, cursor: int)
    requires t in Runs(recs, counter) && t in Replays(id, out, Reading(round, from, |recs|, sent), cursor)
    ensures t.Then(D.EndScan(id)) in Runs(recs, counter)
    ensures t.Then(D.EndScan(id)) in Replays(id, out, After(round, sent, false), cursor)
  {
    OneMore(t, D.EndScan(id));
    ScanEnds(t.End(), id, round, from, sent);
  }

  lemma {:induction false} ReplayBroken(t: Trail, id: nat, recs: seq<TrafficRec>, counter: int, out: seq<TrafficRec>,
                                        phase: D.Phase, cursor: int)
    requires t in Runs(recs, counter) && t in Replays(id, out, phase, cursor) && phase.Scanning?
    ensures t.Then(D.Abort(id)) in Runs(recs, counter) && t.Then(D.Abort(id)) in Replays(id, out, D.Leaving, cursor)
  {
    OneMore(t, D.Abort(id));
  }

  lemma {:induction false} GateOpened(t: Trail, id: nat, recs: seq<TrafficRec>, counter: int, out: seq<TrafficRec>,
                                      cursor: int)
    requires t in Runs(recs, counter) && t in Replays(id, out, D.Leaving, cursor)
    ensures t.Then(D.OpenGate(id)) in Runs(recs, counter) && t.Then(D.OpenGate(id)) in Replays(id, out, D.Live, cursor)
  {
    OneMore(t, D.OpenGate(id));
  }

  lemma {:induction false} SparedReplays(t: Trail, t': Trail, id: nat, out: seq<TrafficRec>, phase: D.Phase,
                                         cursor: int)
    requires t' in Spared(t) && t in Replays(id, out, phase, cursor) && (phase.Between? || phase.Scanning?)
    ensures t' in Replays(id, out, phase, cursor)
  {}
}
