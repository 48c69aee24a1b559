/** Complete runs. Three go wrong though every append, every connection and every database statement
    that is attempted succeeds; one shows that a failed row is forgotten; and others what overlapping
    links and a hazard that passes look like. */
module Witnesses {
  import opened Options
  import opened Records
  import opened System
  import opened ExactlyOnce
  import D = Delivery
  import A = Accounting
  import AI = AccountingInvariant

  const FIRST := TrafficRec(1, 5_000, 100, 0, [])
  const SECOND := TrafficRec(2, 10_000, 20, 0, [])

  ghost predicate Reachable(s: System) {
    exists steps :: IsRun(steps) && End(steps) == s
  }

  ghost predicate ReachableFrom(first: seq<Step>, s: System) {
    exists more :: IsRun(first + more) && End(first + more) == s
  }

  /** A set of states that no step leaves. */
  ghost predicate Closed(R: System -> bool) {
    forall s, step :: R(s) && Can(s, step) ==> R(Apply(s, step))
  }

  lemma {:induction false} ReachableIsClosed()
    ensures Closed(s => Reachable(s)) && Reachable(INITIAL)
  {
    assert IsRun([]) && End([]) == INITIAL;
    forall s, step | Reachable(s) && Can(s, step) ensures Reachable(Apply(s, step)) {
      var steps :| IsRun(steps) && End(steps) == s;
      var more := steps + [step];
      assert more[..|steps|] == steps;
      assert IsRun(more) && End(more) == Apply(s, step);
    }
  }

  lemma Then(R: System -> bool, s: System, step: Step)
    requires Closed(R) && R(s) && Can(s, step)
    ensures R(Apply(s, step))
  {}

  /** One panel step takes `p` to `p'`. */
  ghost predicate Turns(p: A.Panel, st: A.PanelStep, p': A.Panel) {
    A.Can(p, st) && A.Apply(p, st) == p'
  }

  lemma PanelThen(R: System -> bool, s: System, st: A.PanelStep, p: A.Panel)
    requires Closed(R) && R(s) && Turns(s.panel, st, p)
    requires !st.Accept? && !st.PanelRestart? && !st.InitNode?
    ensures R(s.(panel := p))
  {
    assert R(Apply(s, Panel(st)));
  }

  /** The sampler logs a sample and starts to offer it. */
  lemma {:induction false} Sample(R: System -> bool, s: System, rec: TrafficRec) returns (s': System)
    requires Closed(R) && R(s) && s.agent.sampler.Idle? && rec.seqNo == s.agent.counter + 1
    ensures R(s')
    ensures s' == s.(agent := s.agent.(wal := s.agent.wal + [rec], log := s.agent.log + [rec], counter := rec.seqNo,
                  sampler := D.Fanning(rec, set id | id in s.agent.sessions &&
                                                                          s.agent.sessions[id].up)))
  {
    var s1 := Apply(s, Agent(D.TakeNumber));
    Then(R, s, Agent(D.TakeNumber));
    var s2 := Apply(s1, Agent(D.Append(rec)));
    Then(R, s1, Agent(D.Append(rec)));
    s' := Apply(s2, Agent(D.StartFanout));
    Then(R, s2, Agent(D.StartFanout));
  }

  /** A panel connects to an empty log: the replay finds nothing and is about to open the gate. */
  lemma {:induction false} ConnectToEmptyLog(R: System -> bool) returns (s: System)
    requires Closed(R) && R(INITIAL)
    ensures R(s)
    ensures s == System(D.INITIAL.(sessions := map[0 := D.Session(0, D.Leaving, 0, [], 0, 0, true, true, {})]), A.EMPTY)
  {
    var s1 := Apply(INITIAL, Connect(0));
    Then(R, INITIAL, Connect(0));
    assert s1.agent.sessions[0].excused == {};
    var s2 := Apply(s1, Agent(D.OpenFile(0)));
    Then(R, s1, Agent(D.OpenFile(0)));
    s := Apply(s2, Agent(D.EndScan(0)));
    Then(R, s2, Agent(D.EndScan(0)));
    assert s.agent.sessions[0] == D.Session(0, D.Leaving, 0, [], 0, 0, true, true, {});
  }

  /** The sampler logs a sample now, and offers it, and then the gate opens. */
  lemma {:induction false} SampleInTheGap(R: System -> bool, s: System) returns (s': System)
    requires Closed(R) && R(s)
    requires s == System(D.INITIAL.(sessions := map[0 := D.Session(0, D.Leaving, 0, [], 0, 0, true, true, {})]),
                         A.EMPTY)
    ensures R(s')
    ensures s' == System(D.Agent([FIRST], 1, D.Idle, map[0 := D.Session(0, D.Live, 0, [], 0, 0, true, true, {1})],
                                 [FIRST]), A.EMPTY)
  {
    var s1 := Sample(R, s, FIRST);
    assert s1.agent.sampler.todo == {0};
    var s2 := Apply(s1, Agent(D.Fan(0, true)));
    Then(R, s1, Agent(D.Fan(0, true)));
    assert s2.agent.sessions[0].excused == {1};
    var s3 := Apply(s2, Agent(D.EndFanout));
    Then(R, s2, Agent(D.EndFanout));
    s' := Apply(s3, Agent(D.OpenGate(0)));
    Then(R, s3, Agent(D.OpenGate(0)));
  }

  /** A sample logged after the replay's last look at the file, but offered before the gate opens, is never counted,
      though the next one is. */
  lemma {:induction false} LoseASample(R: System -> bool) returns (s: System)
    requires Closed(R) && R(INITIAL)
    ensures R(s)
    ensures s.agent.log == [FIRST, SECOND] && s.panel.tracker == 2
    ensures s.panel.entered == [SECOND] && s.panel.lost == {1}
  {
    var s1 := ConnectToEmptyLog(R);
    var s2 := SampleInTheGap(R, s1);
    var s3 := Sample(R, s2, SECOND);
    assert s3.agent.sampler.todo == {0};
    var s4 := Apply(s3, Agent(D.Fan(0, true)));
    Then(R, s3, Agent(D.Fan(0, true)));
    assert s4.agent.sessions[0].out == [SECOND];
    s := Apply(s4, Deliver(0));
    Then(R, s4, Deliver(0));
    assert A.Skipped([FIRST, SECOND], 0, 2) == {1} by {
      assert FIRST in [FIRST, SECOND];
    }
  }

  /** A panel connects and the replay queues the one sample there is. */
  lemma {:induction false} QueueOne(R: System -> bool, s: System, id: nat) returns (s': System)
    requires Closed(R) && R(s) && id !in s.agent.sessions && s.agent.sampler.Idle?
    requires s.agent.wal == [FIRST] && s.agent.log == [FIRST] && s.panel.tracker == 0 == s.panel.snap
    ensures R(s')
    ensures s'.panel == s.panel && s'.agent == s.agent.(sessions := s'.agent.sessions)
    ensures s'.agent.sessions.Keys == s.agent.sessions.Keys + {id}
    ensures Linked(s'.agent, id) && s'.agent.sessions[id].out == [FIRST] && s'.agent.sessions[id].taken == 0
    ensures s'.agent.sessions[id].replayed == 1
    ensures forall i :: i in s.agent.sessions ==> s'.agent.sessions[i] == s.agent.sessions[i]
  {
    var s1 := Apply(s, Connect(id));
    Then(R, s, Connect(id));
    var s2 := Apply(s1, Agent(D.OpenFile(id)));
    Then(R, s1, Agent(D.OpenFile(id)));
    s' := Apply(s2, Agent(D.ScanRecord(id)));
    Then(R, s2, Agent(D.ScanRecord(id)));
  }

  // The panel's states on the way: the one sample in the bucket, drained, and written.

  const DAY: Day := 0
  const BYTES := Traffic(100, 0, 0, 0)
  const ACCEPTED := A.EMPTY.(tracker := 1, entered := [FIRST])
  const BUCKETED := A.EMPTY.(tracker := 1, buf := [FIRST], traf := map[DAY := BYTES])
  const CAPTURED := BUCKETED.(flush := A.Captured(1))
  const DRAINED := A.EMPTY.(tracker := 1, batch := [FIRST], flush := A.Drained(1, map[DAY := BYTES]))
  const WRITING := DRAINED.(flush := A.Writing(1, map[DAY := BYTES], false))
  const WRITTEN := A.EMPTY.(tracker := 1, rows := map[DAY := BYTES], booked := [FIRST],
                   flush := A.Writing(1, map[], false))
  const STOPPED := A.EMPTY.(rows := map[DAY := BYTES], booked := [FIRST], twice := {1})

  lemma {:induction false} FoldOnly(p: A.Panel, r: TrafficRec, t: map<Day, Traffic>)
    requires p.entered == [r] && t == AddTo(p.traf, DayOf(r), Delta(r))
    ensures Turns(p, A.Fold(0), p.(entered := [], buf := p.buf + [r], traf := t))
  {
    assert p.entered[..0] + p.entered[1..] == [];
  }

  const ACCEPTED_AGAIN := STOPPED.(tracker := 1, entered := [FIRST])
  const BUCKETED_AGAIN := STOPPED.(tracker := 1, buf := [FIRST], traf := map[DAY := BYTES])

  lemma {:induction false} FirstSample()
    ensures DayOf(FIRST) == DAY && Delta(FIRST) == BYTES
  {}

  lemma {:induction false} FirstInBucket(m: map<Day, Traffic>)
    requires m == map[]
    ensures AddTo(m, DAY, BYTES) == map[DAY := BYTES]
  {}

  lemma {:induction false} Draining()
    ensures Turns(BUCKETED, A.Capture, CAPTURED)
    ensures Turns(CAPTURED, A.Drain, DRAINED)
    ensures Turns(DRAINED, A.DbUp, WRITING)
  {
    assert NonZeroRows(map[DAY := BYTES]) == map[DAY := BYTES];
  }

  lemma {:induction false} SplitOne(r: TrafficRec)
    ensures OfDay([r], DayOf(r)) == [r] && NotOfDay([r], DayOf(r)) == []
  {
    assert [r][..0] == [];
  }

  lemma {:induction false} WriteOnly(p: A.Panel, r: TrafficRec, d: Day, t: Traffic)
    requires p.flush == A.Writing(1, map[d := t], false) && p.batch == [r] && d == DayOf(r)
    ensures Turns(p, A.RowOk(d), p.(rows := AddTo(p.rows, d, t), flush := A.Writing(1, map[], false),
                  booked := p.booked + [r], batch := []))
  {
    SplitOne(r);
    assert map[d := t] - {d} == map[];
  }

  lemma {:induction false} Writing()
    ensures Turns(WRITING, A.RowOk(DAY), WRITTEN)
  {
    FirstSample();
    WriteOnly(WRITING, FIRST, DAY, BYTES);
    FirstInBucket(map[]);
  }

  lemma {:induction false} Stopping()
    ensures Turns(WRITTEN, A.PanelRestart, STOPPED)
  {
    assert FIRST in WRITTEN.booked;
    assert SeqNos([FIRST]) == {1};
    assert A.InMemory(WRITTEN) == [];
  }

  /** The panel accepts the sample. */
  lemma {:induction false} AcceptFirst(R: System -> bool, s: System, id: nat)
    requires Closed(R) && R(s) && s.agent.log == [FIRST] && s.panel.tracker == 0
    requires Linked(s.agent, id) && s.agent.sessions[id].out == [FIRST] && s.agent.sessions[id].taken == 0
    ensures R(System(Take(s.agent, id), s.panel.(tracker := 1, entered := s.panel.entered + [FIRST])))
  {
    assert A.Skipped([FIRST], 0, 1) == {};
    assert s.panel.lost + {} == s.panel.lost;
    Then(R, s, Deliver(id));
  }

  lemma {:induction false} FoldFirst(p: A.Panel)
    requires p.entered == [FIRST] && p.buf == [] && p.traf == map[]
    ensures Turns(p, A.Fold(0), p.(entered := [], buf := [FIRST], traf := map[DAY := BYTES]))
  {
    assert p.buf + [FIRST] == [FIRST];
    FirstSample();
    FirstInBucket(p.traf);
    FoldOnly(p, FIRST, map[DAY := BYTES]);
  }

  /** It puts the sample into its day bucket. */
  lemma {:induction false} AccountOne(R: System -> bool, s: System, id: nat, p: A.Panel, p': A.Panel)
    requires Closed(R) && R(s) && s.agent.log == [FIRST] && s.panel.tracker == 0 && s.panel.entered == []
    requires Linked(s.agent, id) && s.agent.sessions[id].out == [FIRST] && s.agent.sessions[id].taken == 0
    requires p == s.panel.(tracker := 1, entered := [FIRST]) && Turns(p, A.Fold(0), p')
    ensures R(System(Take(s.agent, id), p'))
  {
    assert s.panel.entered + [FIRST] == [FIRST];
    AcceptFirst(R, s, id);
    PanelThen(R, System(Take(s.agent, id), p), A.Fold(0), p');
  }

  lemma {:induction false} FlushAndStop(R: System -> bool, s: System, d: Day, p1: A.Panel, p2: A.Panel, p3: A.Panel,
                                        p4: A.Panel, p5: A.Panel)
    requires Closed(R) && R(s)
    requires Turns(s.panel, A.Capture, p1) && Turns(p1, A.Drain, p2) && Turns(p2, A.DbUp, p3)
    requires Turns(p3, A.RowOk(d), p4) && Turns(p4, A.PanelRestart, p5)
    ensures R(System(UnlinkAll(s.agent), p5))
  {
    PanelThen(R, s, A.Capture, p1);
    PanelThen(R, s.(panel := p1), A.Drain, p2);
    PanelThen(R, s.(panel := p2), A.DbUp, p3);
    PanelThen(R, s.(panel := p3), A.RowOk(d), p4);
    Then(R, s.(panel := p4), Restart);
  }

  /** The flush drains the bucket and writes the row, and the panel stops. */
  lemma {:induction false} WriteAndStop(R: System -> bool, s: System)
    requires Closed(R) && R(s) && s.panel == BUCKETED
    ensures R(System(UnlinkAll(s.agent), STOPPED))
  {
    Draining();
    Writing();
    Stopping();
    FlushAndStop(R, s, DAY, CAPTURED, DRAINED, WRITING, WRITTEN, STOPPED);
  }

  lemma {:induction false} LogOne(R: System -> bool) returns (s: System)
    requires Closed(R) && R(INITIAL)
    ensures R(s)
    ensures s == System(Holding(map[]), A.EMPTY)
  {
    var s1 := Sample(R, INITIAL, FIRST);
    assert s1.agent.sampler.todo == {};
    s := Apply(s1, Agent(D.EndFanout));
    Then(R, s1, Agent(D.EndFanout));
  }

  /** The agent holds the one sample, and these sessions. */
  function Holding(sessions: map<nat, D.Session>): D.Agent {
    D.Agent([FIRST], 1, D.Idle, sessions, [FIRST])
  }

  /** A panel connects, takes the sample and puts it into its bucket. */
  lemma {:induction false} CountOne(R: System -> bool, ss: map<nat, D.Session>, id: nat, q: A.Panel, p: A.Panel,
                                    p': A.Panel)
    returns (ss': map<nat, D.Session>)
    requires Closed(R) && R(System(Holding(ss), q)) && id !in ss
    requires q.tracker == 0 == q.snap && q.entered == []
    requires p == q.(tracker := 1, entered := [FIRST]) && Turns(p, A.Fold(0), p')
    ensures R(System(Holding(ss'), p')) && forall i :: i in ss' ==> i in ss || i == id
  {
    var s1 := QueueOne(R, System(Holding(ss), q), id);
    AccountOne(R, s1, id, p, p');
    ss' := Take(s1.agent, id).sessions;
  }

  lemma {:induction false} StartBucket()
    ensures Turns(ACCEPTED, A.Fold(0), BUCKETED)
  {
    FoldFirst(ACCEPTED);
  }

  lemma {:induction false} RestartBucket()
    ensures Turns(ACCEPTED_AGAIN, A.Fold(0), BUCKETED_AGAIN)
  {
    FoldFirst(ACCEPTED_AGAIN);
  }

  lemma {:induction false} CountFirst(R: System -> bool) returns (ss: map<nat, D.Session>)
    requires Closed(R) && R(INITIAL)
    ensures R(System(Holding(ss), BUCKETED)) && 1 !in ss
  {
    var s := LogOne(R);
    StartBucket();
    ss := CountOne(R, map[], 0, A.EMPTY, ACCEPTED, BUCKETED);
  }

  /** A panel that stops after it has written a row, but before it has written the watermark, counts the row's
      samples again after the restart. */
  lemma {:induction false} CountARowTwice(R: System -> bool) returns (ss: map<nat, D.Session>)
    requires Closed(R) && R(INITIAL)
    ensures R(System(Holding(ss), BUCKETED_AGAIN))
  {
    var ss1 := CountFirst(R);
    WriteAndStop(R, System(Holding(ss1), BUCKETED));
    RestartBucket();
    ss := CountOne(R, UnlinkAll(Holding(ss1)).sessions, 1, STOPPED, ACCEPTED_AGAIN, BUCKETED_AGAIN);
  }

  lemma {:induction false} HandoverCanLoseASample() returns (s: System)
    ensures Reachable(s)
    ensures s.agent.log == [FIRST, SECOND] && s.panel.tracker == 2
    ensures s.panel.entered == [SECOND] && s.panel.lost == {1}
  {
    ReachableIsClosed();
    s := LoseASample(s => Reachable(s));
  }

  lemma {:induction false} BucketedTwice()
    ensures A.Total(BUCKETED_AGAIN, DAY) == Delta(FIRST).Plus(Delta(FIRST))
  {
    FirstSample();
  }

  lemma {:induction false} UncommittedRowIsCountedTwice() returns (s: System)
    ensures Reachable(s) && s.agent.log == [FIRST] && s.panel == BUCKETED_AGAIN
    ensures A.Total(BUCKETED_AGAIN, DAY) == Delta(FIRST).Plus(Delta(FIRST))
  {
    ReachableIsClosed();
    var ss := CountARowTwice(s => Reachable(s));
    BucketedTwice();
    s := System(Holding(ss), BUCKETED_AGAIN);
  }

  // ----- links that overlap -----

  lemma {:induction false} ReplayTwice(R: System -> bool) returns (s: System)
    requires Closed(R) && R(INITIAL)
    ensures R(s) && Linked(s.agent, 0) && Can(s, Deliver(1)) && s.panel == ACCEPTED
    ensures var se := s.agent.sessions[1]; se.taken < se.replayed && se.out[se.taken] == FIRST
  {
    var s1 := LogOne(R);
    var s2 := QueueOne(R, s1, 0);
    var s3 := QueueOne(R, s2, 1);
    AcceptFirst(R, s3, 0);
    assert s3.panel.entered + [FIRST] == [FIRST];
    s := System(Take(s3.agent, 0), s3.panel.(tracker := 1, entered := s3.panel.entered + [FIRST]));
  }

  /** A panel that has two links to an agent takes the sample from the one and finds the replay of the other stale. */
  lemma {:induction false} OverlapMakesReplayStale() returns (s: System)
    ensures Reachable(s) && Linked(s.agent, 0) && Can(s, Deliver(1)) && A.Accounted(s.panel)[FIRST] == 1
    ensures var se := s.agent.sessions[1];
            se.taken < se.replayed && se.out[se.taken] == FIRST && !A.IsNew(s.panel.tracker, FIRST.seqNo)
  {
    ReachableIsClosed();
    s := ReplayTwice(s => Reachable(s));
  }

  // ----- a hazard that passes -----

  const STRADDLED := ACCEPTED.(flush := A.Captured(1))
  const COMMITTED := A.EMPTY.(tracker := 1, rows := map[DAY := BYTES], booked := [FIRST], durable := 1, persisted := 1)

  lemma {:induction false} Committing()
    ensures Turns(WRITTEN, A.Commit(true), COMMITTED)
  {
    assert WRITTEN.booked + [] == [FIRST];
  }

  lemma {:induction false} Straddling()
    ensures Turns(ACCEPTED, A.Capture, STRADDLED) && Turns(STRADDLED, A.Fold(0), CAPTURED)
  {
    FoldFirst(STRADDLED);
  }

  /** A flush that has read the watermark writes its one row and the watermark. */
  lemma {:induction false} FinishFlush(R: System -> bool, s: System, d: Day, p1: A.Panel, p2: A.Panel, p3: A.Panel,
                                       p4: A.Panel)
    requires Closed(R) && R(s) && Turns(s.panel, A.Drain, p1) && Turns(p1, A.DbUp, p2)
    requires Turns(p2, A.RowOk(d), p3) && Turns(p3, A.Commit(true), p4)
    ensures R(s.(panel := p4))
  {
    PanelThen(R, s, A.Drain, p1);
    PanelThen(R, s.(panel := p1), A.DbUp, p2);
    PanelThen(R, s.(panel := p2), A.RowOk(d), p3);
    PanelThen(R, s.(panel := p3), A.Commit(true), p4);
  }

  lemma {:induction false} FlushTheBucket(R: System -> bool, s: System)
    requires Closed(R) && R(s) && s.panel == CAPTURED
    ensures R(s.(panel := COMMITTED))
  {
    Draining();
    Writing();
    Committing();
    FinishFlush(R, s, DAY, DRAINED, WRITING, WRITTEN, COMMITTED);
  }

  lemma {:induction false} FoldLate(R: System -> bool, s: System, p: A.Panel)
    requires Closed(R) && R(s) && Turns(s.panel, A.Fold(0), p)
    ensures R(s.(panel := p))
  {
    PanelThen(R, s, A.Fold(0), p);
  }

  lemma {:induction false} FoldThenFlush(R: System -> bool, s: System)
    requires Closed(R) && R(s) && s.panel == STRADDLED
    ensures R(s.(panel := COMMITTED))
  {
    Straddling();
    FoldLate(R, s, CAPTURED);
    FlushTheBucket(R, s.(panel := CAPTURED));
  }

  lemma CaptureStraddles(s: System)
    requires s.panel == ACCEPTED
    ensures Can(s, Panel(A.Capture)) && Apply(s, Panel(A.Capture)) == s.(panel := STRADDLED)
  {}

  lemma {:induction false} CommittedIsClean()
    ensures AI.Clean(COMMITTED) && COMMITTED.booked == [FIRST] && COMMITTED.durable == 1
  {}

  lemma {:induction false} AcceptedIsReached() returns (s: System)
    ensures Reachable(s) && s.panel == ACCEPTED
  {
    ReachableIsClosed();
    var s1 := LogOne(s => Reachable(s));
    var s2 := QueueOne(s => Reachable(s), s1, 0);
    AcceptFirst(s => Reachable(s), s2, 0);
    assert s2.panel.entered + [FIRST] == [FIRST];
    s := System(Take(s2.agent, 0), s2.panel.(tracker := 1, entered := s2.panel.entered + [FIRST]));
  }

  lemma {:induction false} FromIsClosed(first: seq<Step>)
    requires IsRun(first)
    ensures Closed(s => ReachableFrom(first, s)) && ReachableFrom(first, End(first))
  {
    assert first + [] == first;
    forall s, step | ReachableFrom(first, s) && Can(s, step) ensures ReachableFrom(first, Apply(s, step)) {
      var more :| IsRun(first + more) && End(first + more) == s;
      var all := first + (more + [step]);
      assert all[..|all| - 1] == first + more;
      assert IsRun(all) && End(all) == Apply(s, step);
    }
  }

  lemma {:induction false} CaptureAndFlush(before: seq<Step>) returns (more: seq<Step>)
    requires IsRun(before) && End(before).panel == ACCEPTED
    ensures var run := before + [Panel(A.Capture)] + more; IsRun(run) && End(run).panel == COMMITTED
  {
    var s, first := End(before), before + [Panel(A.Capture)];
    assert first[..|before|] == before;
    CaptureStraddles(s);
    assert IsRun(first) && End(first) == s.(panel := STRADDLED);
    FromIsClosed(first);
    FoldThenFlush(x => ReachableFrom(first, x), s.(panel := STRADDLED));
    more :| IsRun(first + more) && End(first + more) == s.(panel := COMMITTED);
  }

  /** Hazards may pass: a complete run with an accounting that straddles the flush's reading of the watermark, which
      goes on until the sample is in the database, at the durable watermark, and nothing is lost or may repeat. */
  lemma {:induction false} HazardMayPass() returns (run: seq<Step>, k: nat)
    ensures IsRun(run) && k < |run| && IsRun(run[..k]) && Can(End(run[..k]), run[k]) && Hazard(End(run[..k]), run[k])
    ensures AI.Clean(End(run).panel) && End(run).panel.booked == [FIRST] && End(run).panel.durable == 1
  {
    var s := AcceptedIsReached();
    var before :| IsRun(before) && End(before) == s;
    var more := CaptureAndFlush(before);
    run, k := before + [Panel(A.Capture)] + more, |before|;
    assert run[..k] == before && run[k] == Panel(A.Capture);
    CaptureStraddles(s);
    CommittedIsClean();
  }

  // ----- a row fails -----

  const FAILED := A.EMPTY.(tracker := 1, flush := A.Writing(1, map[], true), lost := {1})
  const REFUSED := A.EMPTY.(tracker := 1, lost := {1})
  const CAPTURED_LATER := REFUSED.(flush := A.Captured(1))
  const DRAINED_LATER := REFUSED.(flush := A.Drained(1, map[]))
  const WRITING_LATER := REFUSED.(flush := A.Writing(1, map[], false))
  const FORGOTTEN := REFUSED.(durable := 1, persisted := 1)

  lemma {:induction false} Failing()
    ensures Turns(WRITING, A.RowFails(DAY), FAILED)
  {
    FirstSample();
    SplitOne(FIRST);
    assert map[DAY := BYTES] - {DAY} == map[];
    assert SeqNos([FIRST]) == {1};
  }

  lemma {:induction false} HeldBack()
    ensures Turns(FAILED, A.NoCommit, REFUSED)
  {}

  lemma {:induction false} NextFlush()
    ensures Turns(REFUSED, A.Capture, CAPTURED_LATER) && Turns(CAPTURED_LATER, A.Drain, DRAINED_LATER)
    ensures Turns(DRAINED_LATER, A.DbUp, WRITING_LATER) && Turns(WRITING_LATER, A.Commit(true), FORGOTTEN)
  {
    assert NonZeroRows(map[]) == map[];
  }

  lemma {:induction false} FailFlush(R: System -> bool, s: System, d: Day, p1: A.Panel, p2: A.Panel, p3: A.Panel,
                                     p4: A.Panel, p5: A.Panel)
    requires Closed(R) && R(s) && Turns(s.panel, A.Capture, p1) && Turns(p1, A.Drain, p2) && Turns(p2, A.DbUp, p3)
    requires Turns(p3, A.RowFails(d), p4) && Turns(p4, A.NoCommit, p5)
    ensures R(s.(panel := p5))
  {
    PanelThen(R, s, A.Capture, p1);
    PanelThen(R, s.(panel := p1), A.Drain, p2);
    PanelThen(R, s.(panel := p2), A.DbUp, p3);
    PanelThen(R, s.(panel := p3), A.RowFails(d), p4);
    PanelThen(R, s.(panel := p4), A.NoCommit, p5);
  }

  lemma {:induction false} EmptyFlush(R: System -> bool, s: System, p1: A.Panel, p2: A.Panel, p3: A.Panel, p4: A.Panel)
    requires Closed(R) && R(s) && Turns(s.panel, A.Capture, p1) && Turns(p1, A.Drain, p2) && Turns(p2, A.DbUp, p3)
    requires Turns(p3, A.Commit(true), p4)
    ensures R(s.(panel := p4))
  {
    PanelThen(R, s, A.Capture, p1);
    PanelThen(R, s.(panel := p1), A.Drain, p2);
    PanelThen(R, s.(panel := p2), A.DbUp, p3);
    PanelThen(R, s.(panel := p3), A.Commit(true), p4);
  }

  lemma {:induction false} FailThenFlush(R: System -> bool, s: System)
    requires Closed(R) && R(s) && s.panel == BUCKETED
    ensures R(s.(panel := FORGOTTEN))
  {
    Draining();
    Failing();
    HeldBack();
    NextFlush();
    FailFlush(R, s, DAY, CAPTURED, DRAINED, WRITING, FAILED, REFUSED);
    EmptyFlush(R, s.(panel := REFUSED), CAPTURED_LATER, DRAINED_LATER, WRITING_LATER, FORGOTTEN);
  }

  /** A row fails, its node's watermark is held back as it should be, and the next flush, which has nothing to write,
      moves the durable watermark past the sample, of which the database has no byte. */
  lemma {:induction false} FailedRowCanBeForgotten() returns (s: System)
    ensures Reachable(s) && s.agent.log == [FIRST] && s.panel == FORGOTTEN
    ensures 1 in s.panel.lost && s.panel.durable == 1 && s.panel.booked == [] && s.panel.rows == map[]
  {
    ReachableIsClosed();
    var ss := CountFirst(s => Reachable(s));
    FailThenFlush(s => Reachable(s), System(Holding(ss), BUCKETED));
    s := System(Holding(ss), FORGOTTEN);
  }

  // ----- a message that comes too late -----

  function Open(out: seq<TrafficRec>, taken: nat, excused: set<int>): D.Session {
    D.Session(0, D.Live, 0, out, 0, taken, true, true, excused)
  }

  /** The sampler logs the next sample and queues it live. */
  lemma {:induction false} SampleLive(R: System -> bool, s: System, rec: TrafficRec, out: seq<TrafficRec>)
    returns (s': System)
    requires Closed(R) && R(s) && s.agent.sampler.Idle? && rec.seqNo == s.agent.counter + 1
    requires s.agent.sessions == map[0 := Open(out, 0, {})]
    ensures R(s') && s'.panel == s.panel
    ensures s'.agent == D.Agent(s.agent.wal + [rec], rec.seqNo, D.Idle, map[0 := Open(out + [rec], 0, {})],
                                s.agent.log + [rec])
  {
    var s1 := Sample(R, s, rec);
    assert s1.agent.sampler.todo == {0};
    var s2 := Apply(s1, Agent(D.Fan(0, true)));
    Then(R, s1, Agent(D.Fan(0, true)));
    assert s2.agent.sessions == map[0 := Open(out + [rec], 0, {})];
    s' := Apply(s2, Agent(D.EndFanout));
    Then(R, s2, Agent(D.EndFanout));
  }

  lemma {:induction false} QueueTwoLive(R: System -> bool) returns (s: System)
    requires Closed(R) && R(INITIAL)
    ensures R(s)
    ensures s == System(D.Agent([FIRST, SECOND], 2, D.Idle, map[0 := Open([FIRST, SECOND], 0, {})], [FIRST, SECOND]),
                        A.EMPTY)
  {
    var s1 := ConnectToEmptyLog(R);
    var s2 := Apply(s1, Agent(D.OpenGate(0)));
    Then(R, s1, Agent(D.OpenGate(0)));
    assert s2.agent.sessions == map[0 := Open([], 0, {})];
    var s3 := SampleLive(R, s2, FIRST, []);
    assert [] + [FIRST] == [FIRST] && [FIRST] + [SECOND] == [FIRST, SECOND];
    s := SampleLive(R, s3, SECOND, [FIRST]);
  }

  /** The panel throws the first sample away, as it comes too late, and takes the second: the first is never counted. */
  lemma {:induction false} IgnoreThenDeliver(R: System -> bool, s: System) returns (s': System)
    requires Closed(R) && R(s)
    requires s == System(D.Agent([FIRST, SECOND], 2, D.Idle, map[0 := Open([FIRST, SECOND], 0, {})], [FIRST, SECOND]),
                         A.EMPTY)
    ensures R(s') && s'.agent.log == [FIRST, SECOND] && s'.panel.tracker == 2
    ensures s'.panel.entered == [SECOND] && s'.panel.lost == {1}
  {
    var s1 := Apply(s, Discard(0));
    Then(R, s, Discard(0));
    assert s1.agent.sessions[0].taken == 1 && s1.agent.sessions[0].out[1] == SECOND;
    s' := Apply(s1, Deliver(0));
    Then(R, s1, Deliver(0));
    assert A.Skipped([FIRST, SECOND], 0, 2) == {1} by {
      assert FIRST in [FIRST, SECOND];
    }
  }

  lemma {:induction false} LateMessageIsLost() returns (s: System)
    ensures Reachable(s)
    ensures s.agent.log == [FIRST, SECOND] && s.panel.tracker == 2
    ensures s.panel.entered == [SECOND] && s.panel.lost == {1}
  {
    ReachableIsClosed();
    var s1 := QueueTwoLive(s => Reachable(s));
    s := IgnoreThenDeliver(s => Reachable(s), s1);
  }
}
