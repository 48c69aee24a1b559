/** The agent's side of exactly-once accounting: the sampler, the log and the
    panel sessions, as a transition system whose steps are the points where
    the sampler, the replay goroutines and the network can interleave. */
module Delivery {
  import opened Options
  import opened Records

  const MAX_ROUNDS: nat := 24

  /** Where a session's replay goroutine is. Only `Live` has the gate open. A scan
      holds on to the file it opened: rotation replaces the file, so a scan under
      way goes on over the `frozen` old contents. */
  datatype Phase =
    | Between(round: nat)
    | Scanning(round: nat, from: int, pos: nat, sent: nat, frozen: Option<seq<TrafficRec>>)
    | Leaving
    | Live

  /** `out` is every metric record ever queued to the session, the first `replayed` of
      them by the replay; the panel has read the first `taken`. `up`: the agent still
      serves the session; `link`: the panel still reads from it. `excused` is history:
      numbers past `hello` that the session will not carry, or that it carried in vain. */
  datatype Session = Session(hello: int, phase: Phase, cursor: int, out: seq<TrafficRec>, replayed: nat,
                             taken: nat, up: bool, link: bool, excused: set<int>)

  datatype Sampler =
    | Idle
    | Numbered(seqNo: int)
    | Logged(rec: TrafficRec)
    | Fanning(rec: TrafficRec, todo: set<nat>)

  /** `log` is history: every record ever appended, also those rotated away. */
  datatype Agent = Agent(wal: seq<TrafficRec>, counter: int, sampler: Sampler, sessions: map<nat, Session>,
                         log: seq<TrafficRec>)

  datatype AgentStep =
    | TakeNumber
    | Append(rec: TrafficRec)
    | StartFanout
    | Fan(id: nat, room: bool)
    | EndFanout
    | OpenFile(id: nat)
    | ScanRecord(id: nat)
    | EndScan(id: nat)
    | Abort(id: nat)
    | OpenGate(id: nat)
    | HangUp(id: nat)
    | Rotate(cutoff: int)
    | AgentRestart

  const INITIAL := Agent([], 0, Idle, map[], [])

  function LastNo(rs: seq<TrafficRec>): int {
    if rs == [] then 0 else rs[|rs| - 1].seqNo
  }

  /** The record that the sampler has logged but not yet offered to the session. */
  function Owed(a: Agent, id: nat): Option<TrafficRec> {
    match a.sampler
    case Logged(r) => Some(r)
    case Fanning(r, todo) => if id in todo then Some(r) else None
    case _ => None
  }

  function File(wal: seq<TrafficRec>, p: Phase): seq<TrafficRec>
    requires p.Scanning?
  {
    if p.frozen.Some? then p.frozen.value else wal
  }

  /** What is given up when the replay ends here: logged past the cursor, and not still owed. */
  function Unsent(log: seq<TrafficRec>, owed: Option<TrafficRec>, s: Session): set<int> {
    set r | r in log && r.seqNo > s.cursor && owed != Some(r) :: r.seqNo
  }

  function Leave(a: Agent, id: nat): Session
    requires id in a.sessions
  {
    var s := a.sessions[id];
    s.(phase := Leaving, excused := s.excused + Unsent(a.log, Owed(a, id), s))
  }

  /** One scanned record: skipped at or below the round's start, else queued (blocking until there is room). */
  function Scan(s: Session, r: TrafficRec): Session
    requires s.phase.Scanning?
  {
    var p := s.phase;
    if r.seqNo <= p.from then s.(phase := p.(pos := p.pos + 1))
    else s.(phase := p.(pos := p.pos + 1, sent := p.sent + 1), cursor := r.seqNo,
         out := s.out + [r], replayed := s.replayed + 1)
  }

  /** A live sample: queued if the gate is open and the queue has room, else not sent. */
  function Offer(s: Session, r: TrafficRec, room: bool): Session {
    if !s.up || s.phase.Between? || s.phase.Scanning? then s
    else if s.phase.Live? && room then s.(out := s.out + [r])
    else if r.seqNo in SeqNos(s.out) then s
    else s.(excused := s.excused + {r.seqNo})
  }

  /** What a rotation takes from a session that is still replaying: dropped, past its cursor, and not in
      the old file that it may be holding on to. */
  function Forgotten(wal: seq<TrafficRec>, kept: seq<TrafficRec>, s: Session): set<int> {
    if !s.up then {} else
    match s.phase
    case Between(_) => set r | r in wal && r !in kept && r.seqNo > s.cursor :: r.seqNo
    case Scanning(_, _, _, _, Some(f)) => set r | r in wal && r !in kept && r !in f && r.seqNo > s.cursor :: r.seqNo
    case _ => {}
  }

  /** Rotation seen by a session: a scan of the current file goes on over the old contents. */
  function SeeRotation(wal: seq<TrafficRec>, kept: seq<TrafficRec>, s: Session): Session {
    if s.up && s.phase.Scanning? && s.phase.frozen.None? then s.(phase := s.phase.(frozen := Some(wal)))
    else s.(excused := s.excused + Forgotten(wal, kept, s))
  }

  /** A session is registered with the watermark the panel sent, and replays before it goes live. */
  function NewSession(a: Agent, hello: int): Session {
    Session(hello, Between(0), hello, [], 0, 0, true, true,
            set r | r in a.log && r.seqNo > hello && r !in a.wal :: r.seqNo)
  }

  predicate Serving(a: Agent, id: nat) {
    id in a.sessions && a.sessions[id].up
  }

  predicate Can(a: Agent, step: AgentStep) {
    match step
    case TakeNumber => a.sampler.Idle?
    case Append(rec) => a.sampler.Numbered? && rec.seqNo == a.sampler.seqNo
    case StartFanout => a.sampler.Logged?
    case Fan(id, _) => a.sampler.Fanning? && id in a.sampler.todo && id in a.sessions
    case EndFanout => a.sampler.Fanning? && a.sampler.todo == {}
    case OpenFile(id) => Serving(a, id) && a.sessions[id].phase.Between?
    case ScanRecord(id) =>
      Serving(a, id) && a.sessions[id].phase.Scanning? &&
      a.sessions[id].phase.pos < |File(a.wal, a.sessions[id].phase)|
    case EndScan(id) =>
      Serving(a, id) && a.sessions[id].phase.Scanning? &&
      a.sessions[id].phase.pos == |File(a.wal, a.sessions[id].phase)|
    case Abort(id) => Serving(a, id) && (a.sessions[id].phase.Between? || a.sessions[id].phase.Scanning?)
    case OpenGate(id) => Serving(a, id) && a.sessions[id].phase.Leaving?
    case HangUp(id) => Serving(a, id)
    case Rotate(cutoff) =>
      // Something is dropped, and the newest record is young enough to stay.
      a.wal != [] && a.wal[|a.wal| - 1].atMs >= cutoff && |Young(a.wal, cutoff)| < |a.wal|
    case AgentRestart => true
  }

  function Apply(a: Agent, step: AgentStep): Agent
    requires Can(a, step)
  {
    match step
    case TakeNumber => a.(counter := a.counter + 1, sampler := Numbered(a.counter + 1))
    case Append(rec) => a.(wal := a.wal + [rec], log := a.log + [rec], sampler := Logged(rec))
    case StartFanout =>
      a.(sampler := Fanning(a.sampler.rec, set id | id in a.sessions && a.sessions[id].up))
    case Fan(id, room) =>
      a.(sampler := a.sampler.(todo := a.sampler.todo - {id}),
      sessions := a.sessions[id := Offer(a.sessions[id], a.sampler.rec, room)])
    case EndFanout => a.(sampler := Idle)
    case OpenFile(id) =>
      var s := a.sessions[id];
      a.(sessions := a.sessions[id := s.(phase := Scanning(s.phase.round, s.cursor, 0, 0, None))])
    case ScanRecord(id) =>
      var s := a.sessions[id];
      a.(sessions := a.sessions[id := Scan(s, File(a.wal, s.phase)[s.phase.pos])])
    case EndScan(id) =>
      var s := a.sessions[id];
      if s.phase.sent == 0 || s.phase.round + 1 >= MAX_ROUNDS then a.(sessions := a.sessions[id := Leave(a, id)])
      else a.(sessions := a.sessions[id := s.(phase := Between(s.phase.round + 1))])
    case Abort(id) => a.(sessions := a.sessions[id := Leave(a, id)])
    case OpenGate(id) => a.(sessions := a.sessions[id := a.sessions[id].(phase := Live)])
    case HangUp(id) => a.(sessions := a.sessions[id := a.sessions[id].(up := false)])
    case Rotate(cutoff) =>
      var kept := Young(a.wal, cutoff);
      a.(wal := kept, sessions := map id | id in a.sessions :: SeeRotation(a.wal, kept, a.sessions[id]))
    case AgentRestart =>
      a.(counter := LastNo(a.wal), sampler := Idle,
      sessions := map id | id in a.sessions :: a.sessions[id].(up := false))
  }

  // ----- what every step keeps -----

  /** The log is strictly ascending, and its file is a part of it that holds the newest record. */
  ghost predicate LogInv(log: seq<TrafficRec>, wal: seq<TrafficRec>) {
    && Ascending(log) && Ascending(wal)
    && (forall r :: r in log ==> 0 < r.seqNo <= LastNo(log))
    && 0 <= LastNo(log)
    && AllIn(wal, log)
    && (log != [] ==> wal != [] && wal[|wal| - 1] == log[|log| - 1])
  }

  /** The counter never falls behind the log, and the sampler works on the newest record. */
  ghost predicate SamplerInv(log: seq<TrafficRec>, counter: int, sampler: Sampler) {
    && LastNo(log) <= counter
    && match sampler
       case Idle => true
       case Numbered(n) => n == counter && LastNo(log) < n
       case Logged(r) => log != [] && log[|log| - 1] == r
       case Fanning(r, _) => log != [] && log[|log| - 1] == r
  }

  /** The numbers that a session has queued or has been excused from. */
  function Handled(s: Session): set<int> {
    s.excused + SeqNos(s.out)
  }

  function OwedNos(owed: Option<TrafficRec>): set<int> {
    if owed.Some? then {owed.value.seqNo} else {}
  }

  /** What is queued is in order and above the watermark, replay first; the only possible repeat
      is one record at the boundary between replay (or the watermark itself) and live samples. */
  ghost predicate InOrder(out: seq<TrafficRec>, replayed: nat, hello: int) {
    && replayed <= |out|
    && (forall i :: 0 <= i < |out| ==> out[i].seqNo > hello || (i == 0 == replayed && out[i].seqNo == hello))
    && (forall i, j :: 0 <= i < j < |out| ==>
                         out[i].seqNo < out[j].seqNo || (i + 1 == j == replayed && out[i].seqNo == out[j].seqNo))
  }

  /** Up to the last record queued, every logged number past the watermark is queued or excused. */
  ghost predicate Gapless(nos: set<int>, handled: set<int>, hello: int, last: int) {
    forall n :: n in nos && hello < n <= last ==> n in handled
  }

  /** While replaying, what is not handled is past the cursor and in a file still to be read. */
  ghost predicate Ahead(nos: set<int>, handled: set<int>, hello: int, cursor: int, files: set<int>) {
    forall n :: n in nos && n > hello && n !in handled ==> n > cursor && n in files
  }

  /** Once the replay is over, only a record the sampler still owes is not handled. */
  ghost predicate Settled(nos: set<int>, handled: set<int>, hello: int, owed: set<int>) {
    forall n :: n in nos && n > hello && n !in handled ==> n in owed
  }

  /** A scan: read part at most the cursor, unread part past it or below the round's start; and what is
      ahead but not in the scanned file is newer than all of it. */
  ghost predicate ScanInv(p: Phase, f: seq<TrafficRec>, cursor: int)
    requires p.Scanning?
  {
    && Ascending(f)
    && p.pos <= |f|
    && p.from <= cursor
    && (p.sent == 0 ==> cursor == p.from)
    && (p.sent > 0 ==> forall i :: p.pos <= i < |f| ==> f[i].seqNo > cursor)
    && (forall i :: 0 <= i < p.pos ==> f[i].seqNo <= cursor)
  }

  ghost predicate RestIsNewer(nos: set<int>, handled: set<int>, cursor: int, f: set<int>) {
    forall n, m :: n in nos && n > cursor && n !in handled && n !in f && m in f ==> m < n
  }

  ghost predicate AllIn(rs: seq<TrafficRec>, log: seq<TrafficRec>) {
    forall r :: r in rs ==> r in log
  }

  ghost predicate WorkInv(nos: set<int>, wal: seq<TrafficRec>, owed: Option<TrafficRec>, s: Session) {
    && (owed.Some? && owed.value.seqNo in SeqNos(s.out) ==> |s.out| == s.replayed)
    && match s.phase
       case Between(_) => Ahead(nos, Handled(s), s.hello, s.cursor, SeqNos(wal))
       case Scanning(_, _, _, _, _) =>
         var f := File(wal, s.phase);
         && Ahead(nos, Handled(s), s.hello, s.cursor, SeqNos(wal) + SeqNos(f))
         && ScanInv(s.phase, f, s.cursor)
         && RestIsNewer(nos, Handled(s), s.cursor, SeqNos(f))
       case _ => Settled(nos, Handled(s), s.hello, OwedNos(owed))
  }

  /** A session, served or not: watermark, order, origin and completeness of what was queued. */
  ghost predicate QueueInv(log: seq<TrafficRec>, s: Session) {
    && 0 <= s.hello <= LastNo(log)
    && s.taken <= |s.out|
    && (!s.phase.Live? ==> |s.out| == s.replayed)
    && InOrder(s.out, s.replayed, s.hello)
    && s.cursor == (if s.replayed == 0 then s.hello else s.out[s.replayed - 1].seqNo)
    && AllIn(s.out, log)
    && (s.phase.Scanning? && s.phase.frozen.Some? ==> AllIn(s.phase.frozen.value, log))
    && Gapless(SeqNos(log), Handled(s), s.hello, LastNo(s.out))
  }

  ghost predicate SessionInv(log: seq<TrafficRec>, wal: seq<TrafficRec>, owed: Option<TrafficRec>, s: Session) {
    QueueInv(log, s) && (s.up ==> WorkInv(SeqNos(log), wal, owed, s))
  }

  ghost predicate SessionAt(a: Agent, id: nat) {
    id in a.sessions ==> SessionInv(a.log, a.wal, Owed(a, id), a.sessions[id])
  }

  ghost predicate AgentInv(a: Agent) {
    && LogInv(a.log, a.wal)
    && SamplerInv(a.log, a.counter, a.sampler)
    && forall id {:trigger SessionAt(a, id)} :: SessionAt(a, id)
  }
}
