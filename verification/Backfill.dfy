/** The agent's replay loop, run against a log that goes on growing under it, and tied to `Delivery`'s steps. */
module Backfill {
  import opened AgentRuns
  import opened Broadcast
  import opened Numbers
  import opened Records
  import D = Delivery

  /** The logs of up to `limit` records, numbered in order up to the counter. */
  ghost function Logs(limit: nat): iset<(seq<TrafficRec>, int)> {
    iset l: (seq<TrafficRec>, int) | |l.0| <= limit && Ascending(l.0) && D.LastNo(l.0) <= l.1
  }

  /** The log as the replay sees it: samples may still be appended, up to some number of them, and numbered in turn. */
  class LiveLog {
    const limit: nat
    var recs: seq<TrafficRec>
    var counter: int
    ghost var failures: nat

    ghost predicate Valid()
      reads this
    {
      (recs, counter) in Logs(limit)
    }

    constructor (limit: nat, recs: seq<TrafficRec>, counter: int)
      requires (recs, counter) in Logs(limit)
      ensures Valid() && this.recs == recs && this.counter == counter && failures == 0
    {
      this.limit, this.recs, this.counter, failures := limit, recs, counter, 0;
    }

    /** Reading the file may fail at any point. */
    method ReadFails() returns (failed: bool)
      modifies this`failures
      ensures failures == if failed then old(failures) + 1 else old(failures)
    {
      failed := *;
      if failed {
        failures := failures + 1;
      }
    }

    method Sample(rec: TrafficRec, ghost first: Trail, ghost run: Trail) returns (ghost run': Trail)
      requires Valid() && |recs| < limit && rec.seqNo == counter + 1 && run in Runs(recs, counter) &&
               run in Spared(first)
      modifies this`recs, this`counter
      ensures Valid() && recs == old(recs) + [rec] && run' in Runs(recs, counter) && run' in Spared(first)
    {
      run' := TakeSample(run, recs, counter, rec);
      SparedTwice(first, run, run');
      recs, counter := recs + [rec], counter + 1;
    }

    /** What the sampler does while the replay is not looking: any number of samples. `run` is the protocol's run. */
    method Others(ghost run: Trail) returns (ghost run': Trail)
      requires Valid() && run in Runs(recs, counter)
      modifies this`recs, this`counter
      ensures Valid() && old(recs) <= recs && run' in Runs(recs, counter) && run' in Spared(run)
    {
      run' := run;
      while |recs| < limit
        invariant Valid() && old(recs) <= recs && run' in Runs(recs, counter) && run' in Spared(run)
        decreases limit - |recs|
      {
        var more: bool := *;
        if !more {
          break;
        }
        var any: TrafficRec := *;
        var rec := any.(seqNo := counter + 1);
        run' := Sample(rec, run, run');
      }
    }
  }

  // ----- records past a watermark -----

  datatype Exit = CaughtUp | RoundCap | Interrupted

  lemma {:induction false} NewerOfLonger(rs: seq<TrafficRec>, pos: nat, after: int)
    requires pos < |rs|
    ensures Newer(rs[..pos + 1], after) == Newer(rs[..pos], after) + (if rs[pos].seqNo > after then [rs[pos]] else [])
  {
    assert rs[..pos + 1][..pos] == rs[..pos];
  }

  lemma {:induction false} NewerIsPrefix(rs: seq<TrafficRec>, pos: nat, after: int)
    requires pos <= |rs|
    ensures Newer(rs[..pos], after) <= Newer(rs, after)
    decreases |rs| - pos
  {
    if pos == |rs| {
      assert rs[..pos] == rs;
    } else {
      NewerOfLonger(rs, pos, after);
      NewerIsPrefix(rs, pos + 1, after);
    }
  }

  /** The cursor after the first `n` records: the last one sent, or the watermark. */
  function Cursor(rs: seq<TrafficRec>, after: int): int {
    if Newer(rs, after) == [] then after else Newer(rs, after)[|Newer(rs, after)| - 1].seqNo
  }

  lemma {:induction false} CursorOfMore(rs: seq<TrafficRec>, r: TrafficRec, after: int)
    ensures Cursor(rs + [r], after) == if r.seqNo > after then r.seqNo else Cursor(rs, after)
  {
    assert (rs + [r])[..|rs|] == rs;
    assert Newer(rs, after) + [] == Newer(rs, after);
  }

  lemma {:induction false} CursorIsMax(rs: seq<TrafficRec>, after: int)
    requires Ascending(rs)
    ensures forall r :: r in rs ==> r.seqNo <= Cursor(rs, after)
    ensures Cursor(rs, after) == after || (rs != [] && Cursor(rs, after) == rs[|rs| - 1].seqNo &&
                                           Cursor(rs, after) > after)
  {
    if rs != [] {
      var init, last := rs[..|rs| - 1], rs[|rs| - 1];
      CursorIsMax(init, after);
      CursorOfMore(init, last, after);
      assert rs == init + [last];
    }
  }

  /** In a later round, what was read before is passed over and what is new is sent: exactly what the watermark asks. */
  lemma {:induction false} SameAsWatermark(rs: seq<TrafficRec>, seen: nat, pos: nat, after: int)
    requires Ascending(rs) && seen <= |rs| && pos < |rs|
    ensures rs[pos].seqNo > Cursor(rs[..seen], after) <==> seen <= pos && rs[pos].seqNo > after
  {
    CursorIsMax(rs[..seen], after);
    if pos < seen {
      assert rs[..seen][pos] in rs[..seen];
    } else if seen > 0 {
      assert rs[..seen][seen - 1].seqNo < rs[pos].seqNo;
    }
  }

  /** The first `k` records of the log have been dealt with: those past the watermark are queued, and the cursor
      is at the last of them. */
  ghost predicate Sent(rs: seq<TrafficRec>, k: nat, after: int, before: seq<TrafficRec>, out: seq<TrafficRec>,
                       cursor: int) {
    k <= |rs| && out == before + Newer(rs[..k], after) && cursor == Cursor(rs[..k], after)
  }

  lemma {:induction false} GrowthKeepsSent(rs: seq<TrafficRec>, more: seq<TrafficRec>, k: nat, after: int,
                                           before: seq<TrafficRec>, out: seq<TrafficRec>, cursor: int)
    requires rs <= more && Sent(rs, k, after, before, out, cursor)
    ensures Sent(more, k, after, before, out, cursor)
  {
    assert rs[..k] == more[..k];
  }

  lemma {:induction false} PassedOver(rs: seq<TrafficRec>, seen: nat, pos: nat, after: int,
                                      before: seq<TrafficRec>, out: seq<TrafficRec>, cursor: int)
    requires Ascending(rs) && seen <= |rs| && pos < |rs| && rs[pos].seqNo <= Cursor(rs[..seen], after)
    requires Sent(rs, Max(seen, pos), after, before, out, cursor)
    ensures Sent(rs, Max(seen, pos + 1), after, before, out, cursor)
  {
    SameAsWatermark(rs, seen, pos, after);
    if seen <= pos {
      NewerOfLonger(rs, pos, after);
      assert Newer(rs[..pos], after) + [] == Newer(rs[..pos], after);
    }
  }

  lemma {:induction false} QueuedNext(rs: seq<TrafficRec>, seen: nat, pos: nat, after: int,
                                      before: seq<TrafficRec>, out: seq<TrafficRec>, cursor: int)
    requires Ascending(rs) && seen <= |rs| && pos < |rs| && rs[pos].seqNo > Cursor(rs[..seen], after)
    requires Sent(rs, Max(seen, pos), after, before, out, cursor)
    ensures Sent(rs, Max(seen, pos + 1), after, before, out + [rs[pos]], rs[pos].seqNo)
  {
    SameAsWatermark(rs, seen, pos, after);
    NewerOfLonger(rs, pos, after);
    assert before + Newer(rs[..pos], after) + [rs[pos]] == before + (Newer(rs[..pos], after) + [rs[pos]]);
  }

  // ----- one round -----

  /** What a round starts from: the session and its round, the watermark, the cursor, how much earlier rounds have read,
      what was queued before the replay and before the round, and the run so far. */
  datatype Start = Start(id: nat, round: nat, after: int, from: int, seen: nat, before: seq<TrafficRec>,
                         queued: nat, run: Trail)

  /** A round under way, of which the first `pos` records are read. */
  datatype Pass = Pass(recs: seq<TrafficRec>, counter: int, run: Trail, out: seq<TrafficRec>, pos: nat, cursor: int,
                       sent: nat)

  ghost function Passes(c: Start): iset<Pass> {
    iset p: Pass |
    && c.seen <= |p.recs| && p.pos <= |p.recs| && c.from == Cursor(p.recs[..c.seen], c.after)
    && Sent(p.recs, Max(c.seen, p.pos), c.after, c.before, p.out, p.cursor)
    && |p.out| == c.queued + p.sent
    && p.run in Runs(p.recs, p.counter) && Extends(p.run, c.run)
    && p.run in Replays(c.id, p.out, Reading(c.round, c.from, p.pos, p.sent), p.cursor)
  }

  lemma {:induction false} PassStarts(c: Start, recs: seq<TrafficRec>, counter: int, out: seq<TrafficRec>)
    requires Sent(recs, c.seen, c.after, c.before, out, c.from) && |out| == c.queued
    requires c.run in Runs(recs, counter) && c.run in Replays(c.id, out, D.Between(c.round), c.from)
    ensures Pass(recs, counter, c.run.Then(D.OpenFile(c.id)), out, 0, c.from, 0) in Passes(c)
  {
    FileOpened(c.run, c.id, recs, counter, out, c.round, c.from);
  }

  lemma {:induction false} PassSpared(c: Start, p: Pass, recs: seq<TrafficRec>, counter: int, run: Trail)
    requires p in Passes(c) && p.recs <= recs && run in Spared(p.run) && run in Runs(recs, counter)
    ensures p.(recs := recs, counter := counter, run := run) in Passes(c)
  {
    GrowthKeepsSent(p.recs, recs, Max(c.seen, p.pos), c.after, c.before, p.out, p.cursor);
    SparedReplays(p.run, run, c.id, p.out, Reading(c.round, c.from, p.pos, p.sent), p.cursor);
    assert p.recs[..c.seen] == recs[..c.seen];
  }

  /** The state of the round after its next record, sent or passed over. */
  function Onward(c: Start, p: Pass): Pass
    requires p.pos < |p.recs|
  {
    var r, run := p.recs[p.pos], p.run.Then(D.ScanRecord(c.id));
    if r.seqNo > c.from then p.(run := run, pos := p.pos + 1, out := p.out + [r], cursor := r.seqNo, sent := p.sent + 1)
    else p.(run := run, pos := p.pos + 1)
  }

  lemma {:induction false} PassSends(c: Start, p: Pass)
    requires p in Passes(c) && Ascending(p.recs) && p.pos < |p.recs| && p.recs[p.pos].seqNo > c.from
    ensures Onward(c, p) in Passes(c)
  {
    RecordRead(p.run, c.id, p.recs, p.counter, p.out, c.round, c.from, p.pos, p.sent, p.cursor);
    QueuedNext(p.recs, c.seen, p.pos, c.after, c.before, p.out, p.cursor);
  }

  lemma {:induction false} PassSkips(c: Start, p: Pass)
    requires p in Passes(c) && Ascending(p.recs) && p.pos < |p.recs| && p.recs[p.pos].seqNo <= c.from
    ensures Onward(c, p) in Passes(c)
  {
    RecordRead(p.run, c.id, p.recs, p.counter, p.out, c.round, c.from, p.pos, p.sent, p.cursor);
    PassedOver(p.recs, c.seen, p.pos, c.after, c.before, p.out, p.cursor);
  }

  lemma {:induction false} PassGoesOn(c: Start, p: Pass)
    requires p in Passes(c) && Ascending(p.recs) && p.pos < |p.recs|
    ensures Onward(c, p) in Passes(c)
  {
    if p.recs[p.pos].seqNo > c.from {
      PassSends(c, p);
    } else {
      PassSkips(c, p);
    }
  }

  /** A round that is over has read `end` records of the log. */
  datatype Done = Done(recs: seq<TrafficRec>, counter: int, run: Trail, out: seq<TrafficRec>, end: nat, cursor: int,
                       sent: nat, ended: bool)

  ghost function Rounds(c: Start): iset<Done> {
    iset d: Done |
    && Sent(d.recs, d.end, c.after, c.before, d.out, d.cursor)
    && (!d.ended ==> d.end == |d.recs|)
    && |d.out| == c.queued + d.sent
    && d.run in Runs(d.recs, d.counter) && Extends(d.run, c.run)
    && d.run in Replays(c.id, d.out, After(c.round, d.sent, d.ended), d.cursor)
  }

  function Last(id: nat, ended: bool): D.AgentStep {
    if ended then D.Abort(id) else D.EndScan(id)
  }

  lemma {:induction false} PassEnds(c: Start, p: Pass, ended: bool)
    requires p in Passes(c) && (!ended ==> p.pos == |p.recs|)
    ensures Done(p.recs, p.counter, p.run.Then(Last(c.id, ended)), p.out, Max(c.seen, p.pos), p.cursor, p.sent,
                 ended)
            in Rounds(c)
  {
    if ended {
      ReplayBroken(p.run, c.id, p.recs, p.counter, p.out, Reading(c.round, c.from, p.pos, p.sent), p.cursor);
    } else {
      FileRead(p.run, c.id, p.recs, p.counter, p.out, c.round, c.from, p.sent, p.cursor);
    }
  }

  /** The replay of one record: passed over at or below the round's start, else queued. */
  method Replay(sess: Session, rec: TrafficRec, cursor0: int, pos: nat, cursor: int, sent: nat, ghost c: Start,
                ghost p: Pass)
    returns (ok: bool, pos': nat, cursor': int, sent': nat)
    requires sess.Valid() && p.pos < |p.recs| && rec == p.recs[p.pos] && cursor0 == c.from
    requires p == p.(out := sess.out, pos := pos, cursor := cursor, sent := sent)
    modifies sess`out, sess`written, sess`refusals
    ensures sess.Valid() && sess.refusals == if ok then old(sess.refusals) else old(sess.refusals) + 1
    ensures (if ok then Onward(c, p) else p) ==
            Pass(p.recs, p.counter, if ok then p.run.Then(D.ScanRecord(c.id)) else p.run, sess.out, pos', cursor',
                 sent')
  {
    ok, pos', cursor', sent' := true, pos + 1, cursor, sent;
    if rec.seqNo > cursor0 {
      ok := sess.SendWait(rec);
      if ok {
        cursor', sent' := rec.seqNo, sent + 1;
      } else {
        pos' := pos;
      }
    }
  }

  /** The file as it is found by the time the next record is read. */
  method Look(log: LiveLog, ghost c: Start, ghost p: Pass) returns (failed: bool, ghost p': Pass)
    requires log.Valid() && p in Passes(c) && p.recs == log.recs && p.counter == log.counter
    modifies log`recs, log`counter, log`failures
    ensures log.Valid() && old(log.recs) <= log.recs && p' in Passes(c)
    ensures p' == p.(recs := log.recs, counter := log.counter, run := p'.run)
    ensures log.failures == if failed then old(log.failures) + 1 else old(log.failures)
  {
    ghost var run := log.Others(p.run);
    PassSpared(c, p, log.recs, log.counter, run);
    p' := p.(recs := log.recs, counter := log.counter, run := run);
    failed := log.ReadFails();
  }

  /** Reads the file from its start to its end, or to a failure, with whatever is appended meanwhile. */
  method Stream(log: LiveLog, sess: Session, cursor0: int, ghost c: Start, ghost first: Pass)
    returns (cursor: int, sent: nat, ended: bool, ghost p: Pass)
    requires log.Valid() && sess.Valid() && cursor0 == c.from && first in Passes(c)
    requires first == Pass(log.recs, log.counter, first.run, sess.out, 0, cursor0, 0)
    modifies log`recs, log`counter, log`failures, sess`out, sess`written, sess`refusals
    ensures log.Valid() && sess.Valid() && old(log.recs) <= log.recs
    ensures log.failures + sess.refusals == old(log.failures + sess.refusals) + (if ended then 1 else 0)
    ensures p in Passes(c) && (ended || p.pos == |p.recs|)
    ensures p == Pass(log.recs, log.counter, p.run, sess.out, p.pos, cursor, sent)
  {
    var pos := 0;
    cursor, sent, ended, p := cursor0, 0, false, first;
    while true
      invariant log.Valid() && sess.Valid() && old(log.recs) <= log.recs
      invariant log.failures + sess.refusals == old(log.failures + sess.refusals)
      invariant p in Passes(c) && p == Pass(log.recs, log.counter, p.run, sess.out, pos, cursor, sent) && !ended
      decreases log.limit - pos
    {
      var failed;
      failed, p := Look(log, c, p);
      if failed {
        ended := true;
        return;
      }
      if pos == |log.recs| {
        return;
      }
      PassGoesOn(c, p);
      var ok;
      ok, pos, cursor, sent := Replay(sess, log.recs[pos], cursor0, pos, cursor, sent, c, p);
      if !ok {
        ended := true;
        return;
      }
      p := Onward(c, p);
    }
  }

  /** One pass over the file, which may fail at any record. Whatever is appended meanwhile, a pass that is not
      interrupted sends exactly the records past the watermark that the file holds when the pass ends, and knows them
      all from its cursor. It takes the protocol's steps for one round of the session. */
  method Round(log: LiveLog, sess: Session, cursor0: int, ghost c: Start)
    returns (ghost end: nat, cursor: int, sent: nat, ended: bool, ghost run: Trail)
    requires log.Valid() && sess.Valid() && cursor0 == c.from && |sess.out| == c.queued
    requires Sent(log.recs, c.seen, c.after, c.before, sess.out, c.from)
    requires c.run in Runs(log.recs, log.counter) && c.run in Replays(c.id, sess.out, D.Between(c.round), c.from)
    modifies log`recs, log`counter, log`failures, sess`out, sess`written, sess`refusals
    ensures log.Valid() && sess.Valid() && old(log.recs) <= log.recs
    ensures log.failures + sess.refusals == old(log.failures + sess.refusals) + (if ended then 1 else 0)
    ensures !ended ==> end == |log.recs|
    ensures Done(log.recs, log.counter, run, sess.out, end, cursor, sent, ended) in Rounds(c)
  {
    PassStarts(c, log.recs, log.counter, sess.out);
    ghost var first := Pass(log.recs, log.counter, c.run.Then(D.OpenFile(c.id)), sess.out, 0, cursor0, 0);
    ghost var p;
    cursor, sent, ended, p := Stream(log, sess, cursor0, c, first);
    end := Max(c.seen, p.pos);
    PassEnds(c, p, ended);
    run := p.run.Then(Last(c.id, ended));
  }

  // ----- all rounds -----

  /** A replay after some rounds, with the number of records that each has sent. */
  datatype Rest = Rest(recs: seq<TrafficRec>, counter: int, run: Trail, out: seq<TrafficRec>, looked: nat, cursor: int,
                       sents: seq<nat>)

  function Sum(ns: seq<nat>): nat {
    if ns == [] then 0 else Sum(ns[..|ns| - 1]) + ns[|ns| - 1]
  }

  /** Between rounds: what the log held at the last look has been dealt with, and every round so far has sent
      something. */
  ghost function Rests(id: nat, after: int, before: seq<TrafficRec>, run: Trail): iset<Rest> {
    iset r: Rest |
    && Sent(r.recs, r.looked, after, before, r.out, r.cursor)
    && (r.sents != [] ==> r.looked == |r.recs|)
    && (forall i :: 0 <= i < |r.sents| ==> r.sents[i] > 0)
    && |r.out| == |before| + Sum(r.sents)
    && r.run in Runs(r.recs, r.counter) && Extends(r.run, run)
    && r.run in Replays(id, r.out, if |r.sents| < D.MAX_ROUNDS then D.Between(|r.sents|) else D.Leaving, r.cursor)
  }

  lemma {:induction false} SumOfMore(ns: seq<nat>, n: nat)
    ensures Sum(ns + [n]) == Sum(ns) + n
  {
    assert (ns + [n])[..|ns|] == ns;
  }

  /** How many records the rounds have sent when the replay is over: none in the last one if it has caught up, some in
      every one if it has reached the cap. */
  ghost function Ends(exit: Exit): iset<seq<nat>> {
    iset sents: seq<nat> |
    && 0 < |sents| <= D.MAX_ROUNDS
    && (forall i :: 0 <= i < |sents| - 1 ==> sents[i] > 0)
    && (exit.CaughtUp? ==> sents[|sents| - 1] == 0)
    && (exit.RoundCap? ==> |sents| == D.MAX_ROUNDS && sents[|sents| - 1] > 0)
  }

  lemma {:induction false} LastRound(exit: Exit, sents: seq<nat>, sent: nat)
    requires |sents| < D.MAX_ROUNDS && forall i :: 0 <= i < |sents| ==> sents[i] > 0
    requires !exit.RoundCap? && (exit.CaughtUp? ==> sent == 0)
    ensures sents + [sent] in Ends(exit)
  {}

  /** Once the replay is over and the gate is open. */
  ghost function Replayed(id: nat, after: int, before: seq<TrafficRec>, run: Trail, exit: Exit): iset<Rest> {
    iset r: Rest |
    && Sent(r.recs, r.looked, after, before, r.out, r.cursor)
    && (!exit.Interrupted? ==> r.looked == |r.recs|)
    && |r.out| == |before| + Sum(r.sents)
    && r.sents in Ends(exit)
    && r.run in Runs(r.recs, r.counter) && Extends(r.run, run)
    && r.run in Replays(id, r.out, D.Live, r.cursor)
  }

  function StartOf(id: nat, after: int, before: seq<TrafficRec>, r: Rest): Start {
    Start(id, |r.sents|, after, r.cursor, r.looked, before, |r.out|, r.run)
  }

  function OneRoundMore(r: Rest, d: Done): Rest {
    Rest(d.recs, d.counter, d.run, d.out, d.end, d.cursor, r.sents + [d.sent])
  }

  lemma {:induction false} RoundFollows(id: nat, after: int, before: seq<TrafficRec>, run: Trail, r: Rest, d: Done)
    requires r in Rests(id, after, before, run) && |r.sents| < D.MAX_ROUNDS
    requires d in Rounds(StartOf(id, after, before, r)) && !d.ended && d.sent > 0
    ensures OneRoundMore(r, d) in Rests(id, after, before, run)
  {
    SumOfMore(r.sents, d.sent);
  }

  function GateOpen(id: nat, r: Rest): Rest {
    r.(run := r.run.Then(D.OpenGate(id)))
  }

  /** A round that was broken off, or that sent nothing, is the last. */
  lemma {:induction false} RoundLeaves(c: Start, d: Done)
    requires d in Rounds(c) && (d.ended || d.sent == 0)
    ensures Sent(d.recs, d.end, c.after, c.before, d.out, d.cursor) && (!d.ended ==> d.end == |d.recs|)
    ensures |d.out| == c.queued + d.sent
    ensures d.run in Runs(d.recs, d.counter) && Extends(d.run, c.run)
    ensures d.run in Replays(c.id, d.out, D.Leaving, d.cursor)
  {}

  lemma {:induction false} ReplayIsOver(id: nat, after: int, before: seq<TrafficRec>, run: Trail, exit: Exit, r: Rest)
    requires Sent(r.recs, r.looked, after, before, r.out, r.cursor) && (!exit.Interrupted? ==> r.looked == |r.recs|)
    requires |r.out| == |before| + Sum(r.sents) && r.sents in Ends(exit)
    requires r.run in Runs(r.recs, r.counter) && Extends(r.run, run) && r.run in Replays(id, r.out, D.Leaving, r.cursor)
    ensures GateOpen(id, r) in Replayed(id, after, before, run, exit)
  {
    GateOpened(r.run, id, r.recs, r.counter, r.out, r.cursor);
  }

  lemma {:induction false} RoundEndsIt(id: nat, after: int, before: seq<TrafficRec>, run: Trail, r: Rest, d: Done)
    requires r in Rests(id, after, before, run) && |r.sents| < D.MAX_ROUNDS
    requires d in Rounds(StartOf(id, after, before, r)) && (d.ended || d.sent == 0)
    ensures GateOpen(id, OneRoundMore(r, d)) in
              Replayed(id, after, before, run, if d.ended then Interrupted else CaughtUp)
  {
    var exit := if d.ended then Interrupted else CaughtUp;
    SumOfMore(r.sents, d.sent);
    LastRound(exit, r.sents, d.sent);
    RoundLeaves(StartOf(id, after, before, r), d);
    ReplayIsOver(id, after, before, run, exit, OneRoundMore(r, d));
  }

  lemma {:induction false} CapEndsIt(id: nat, after: int, before: seq<TrafficRec>, run: Trail, r: Rest)
    requires r in Rests(id, after, before, run) && |r.sents| == D.MAX_ROUNDS
    ensures GateOpen(id, r) in Replayed(id, after, before, run, RoundCap)
  {
    GateOpened(r.run, id, r.recs, r.counter, r.out, r.cursor);
  }

  lemma {:induction false} NothingYet(id: nat, after: int, out: seq<TrafficRec>, run: Trail, recs: seq<TrafficRec>,
                                      counter: int)
    requires run in Runs(recs, counter) && run in Replays(id, out, D.Between(0), after)
    ensures Rest(recs, counter, run, out, 0, after, []) in Rests(id, after, out, run)
  {
    assert recs[..0] == [] && out + Newer([], after) == out;
  }

  lemma {:induction false} SentMeans(rs: seq<TrafficRec>, k: nat, after: int, before: seq<TrafficRec>,
                                     out: seq<TrafficRec>,
                                     cursor: int)
    requires Sent(rs, k, after, before, out, cursor)
    ensures before <= out <= before + Newer(rs, after)
    ensures k == |rs| ==> out == before + Newer(rs, after)
  {
    assert rs[..|rs|] == rs;
    NewerIsPrefix(rs, k, after);
  }

  /** What a replay that is over has queued, and where the protocol then is. */
  lemma {:induction false} ReplayedMeans(id: nat, after: int, before: seq<TrafficRec>, run: Trail, exit: Exit, r: Rest)
    requires r in Replayed(id, after, before, run, exit)
    ensures !exit.Interrupted? ==> r.out == before + Newer(r.recs, after)
    ensures before <= r.out <= before + Newer(r.recs, after)
    ensures exit.CaughtUp? ==> r.sents != [] && r.sents[|r.sents| - 1] == 0
    ensures exit.RoundCap? ==> |r.sents| == D.MAX_ROUNDS && forall i :: 0 <= i < |r.sents| ==> r.sents[i] > 0
    ensures r.run.Possible() && id in r.run.End().sessions
    ensures var s := r.run.End().sessions[id]; s.phase.Live? && s.up && s.out == r.out && r.run.End().wal == r.recs
  {
    SentMeans(r.recs, r.looked, after, before, r.out, r.cursor);
  }

  /** The rounds of a replay, up to one that sends nothing, to a failure, or to the cap. */
  method AllRounds(log: LiveLog, sess: Session, after: int, ghost id: nat, ghost run: Trail)
    returns (exit: Exit, total: nat, ghost r: Rest)
    requires log.Valid() && sess.Valid()
    requires run in Runs(log.recs, log.counter) && run in Replays(id, sess.out, D.Between(0), after)
    modifies log`recs, log`counter, log`failures, sess`out, sess`written, sess`refusals
    ensures log.Valid() && sess.Valid() && old(log.recs) <= log.recs
    ensures log.failures + sess.refusals == old(log.failures + sess.refusals) + (if exit.Interrupted? then 1 else 0)
    ensures r.recs == log.recs && r.counter == log.counter && r.out == sess.out && total == Sum(r.sents)
    ensures GateOpen(id, r) in Replayed(id, after, old(sess.out), run, exit)
  {
    ghost var before := sess.out;
    var cursor, round := after, 0;
    exit, total := RoundCap, 0;
    r := Rest(log.recs, log.counter, run, before, 0, after, []);
    NothingYet(id, after, before, run, log.recs, log.counter);
    while round < D.MAX_ROUNDS
      invariant round <= D.MAX_ROUNDS && exit == RoundCap
      invariant log.Valid() && sess.Valid() && old(log.recs) <= log.recs
      invariant log.failures + sess.refusals == old(log.failures + sess.refusals)
      invariant r in Rests(id, after, before, run) && round == |r.sents| && total == Sum(r.sents)
      invariant r == Rest(log.recs, log.counter, r.run, sess.out, r.looked, cursor, r.sents)
    {
      ghost var was := r;
      ghost var c := StartOf(id, after, before, was);
      ghost var end, run';
      var sent, ended;
      end, cursor, sent, ended, run' := Round(log, sess, cursor, c);
      ghost var d := Done(log.recs, log.counter, run', sess.out, end, cursor, sent, ended);
      r, round, total := OneRoundMore(was, d), round + 1, total + sent;
      SumOfMore(was.sents, sent);
      if ended {
        RoundEndsIt(id, after, before, run, was, d);
        exit := Interrupted;
        return;
      }
      if sent == 0 {
        RoundEndsIt(id, after, before, run, was, d);
        exit := CaughtUp;
        return;
      }
      RoundFollows(id, after, before, run, was, d);
    }
    CapEndsIt(id, after, before, run, r);
  }

  /** Whatever is appended during or between the rounds: a replay that is not interrupted has sent exactly the records
      past the watermark that the log holds when the gate opens, in order and each once; an interrupted one has sent the
      first of them. It stops at a round that sends nothing, at a failure, or at the cap, and opens the gate in any
      case; and it is a run of the protocol that takes the session from its registration to the open gate. */
  method Backfill(log: LiveLog, sess: Session, after: int, ghost id: nat, ghost run: Trail)
    returns (exit: Exit, total: nat, ghost r: Rest)
    requires log.Valid() && sess.Valid()
    requires run in Runs(log.recs, log.counter) && run in Replays(id, sess.out, D.Between(0), after)
    modifies log`recs, log`counter, log`failures, sess`out, sess`written, sess`refusals, sess`ready
    ensures log.Valid() && sess.Valid() && sess.ready && old(log.recs) <= log.recs
    ensures log.failures + sess.refusals == old(log.failures + sess.refusals) + (if exit.Interrupted? then 1 else 0)
    ensures r.recs == log.recs && r.counter == log.counter && r.out == sess.out && total == Sum(r.sents)
    ensures r in Replayed(id, after, old(sess.out), run, exit)
    ensures !exit.Interrupted? ==> sess.out == old(sess.out) + Newer(log.recs, after)
    ensures old(sess.out) <= sess.out <= old(sess.out) + Newer(log.recs, after)
    ensures exit.CaughtUp? ==> r.sents != [] && r.sents[|r.sents| - 1] == 0
    ensures exit.RoundCap? ==> |r.sents| == D.MAX_ROUNDS && forall i :: 0 <= i < |r.sents| ==> r.sents[i] > 0
  {
    exit, total, r := AllRounds(log, sess, after, id, run);
    r := GateOpen(id, r);
    sess.ready := true;
    ReplayedMeans(id, after, old(sess.out), run, exit, r);
  }

  /** What is sent is complete and strictly ascending above the watermark, so a strict watermark accepts all of it. */
  lemma {:induction false} ReplayIsAscending(rs: seq<TrafficRec>, after: int)
    requires Ascending(rs)
    ensures Ascending(Newer(rs, after))
    ensures forall r :: r in Newer(rs, after) <==> r in rs && r.seqNo > after
  {
    NewerMembers(rs, after);
    if rs != [] {
      var init, last := rs[..|rs| - 1], rs[|rs| - 1];
      ReplayIsAscending(init, after);
      forall x | x in Newer(init, after) ensures x.seqNo < last.seqNo {
        assert x in init;
      }
      AppendAscends(Newer(init, after), last);
    }
  }
}
