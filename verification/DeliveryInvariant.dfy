/** Every step of the agent keeps `AgentInv`. */
module DeliveryInvariant {
  import opened Options
  import opened Records
  import opened Delivery

  lemma {:induction false} LastIsLargest(log: seq<TrafficRec>)
    requires Ascending(log)
    ensures forall n :: n in SeqNos(log) ==> n <= LastNo(log)
  {}

  lemma {:induction false} NosOfAppend(rs: seq<TrafficRec>, r: TrafficRec)
    ensures SeqNos(rs + [r]) == SeqNos(rs) + {r.seqNo}
  {
    var rs' := rs + [r];
    assert forall x :: x in rs' <==> x in rs || x == r;
    assert r in rs';
    forall n | n in SeqNos(rs) ensures n in SeqNos(rs') {
      var x :| x in rs && x.seqNo == n;
      assert x in rs';
    }
  }

  lemma {:induction false} AppendKeepsAscending(rs: seq<TrafficRec>, r: TrafficRec)
    requires Ascending(rs) && LastNo(rs) < r.seqNo
    ensures Ascending(rs + [r])
  {}

  // ----- one session -----

  lemma {:induction false} AppendKeepsQueue(log: seq<TrafficRec>, p: TrafficRec, s: Session)
    requires Ascending(log) && QueueInv(log, s) && LastNo(log) < p.seqNo
    ensures QueueInv(log + [p], s)
  {
    NosOfAppend(log, p);
    LastIsLargest(log);
    QueuedBelowLast(log, s.out);
    assert AllIn(s.out, log + [p]);
  }

  lemma {:induction false} AppendKeepsScan(p: Phase, f: seq<TrafficRec>, cursor: int, r: TrafficRec)
    requires p.Scanning? && ScanInv(p, f, cursor)
    requires LastNo(f) < r.seqNo && cursor < r.seqNo
    ensures ScanInv(p, f + [r], cursor)
  {
    AppendKeepsAscending(f, r);
  }

  lemma {:induction false} AppendKeepsRest(nos: set<int>, handled: set<int>, cursor: int, f: set<int>, n: int)
    requires RestIsNewer(nos, handled, cursor, f) && forall m :: m in f ==> m < n
    ensures RestIsNewer(nos + {n}, handled, cursor, f)
  {}

  lemma {:induction false} NothingBesides(nos: set<int>, handled: set<int>, hello: int, cursor: int, f: set<int>)
    requires hello <= cursor && Ahead(nos, handled, hello, cursor, f)
    ensures RestIsNewer(nos, handled, cursor, f)
  {}

  lemma {:induction false} AppendKeepsWork(nos: set<int>, wal: seq<TrafficRec>, p: TrafficRec, s: Session)
    requires LastNo(wal) < p.seqNo && s.hello <= s.cursor < p.seqNo && p.seqNo !in SeqNos(s.out)
    requires s.phase.Scanning? ==> forall n :: n in SeqNos(File(wal, s.phase)) ==> n < p.seqNo
    requires WorkInv(nos, wal, None, s)
    ensures WorkInv(nos + {p.seqNo}, wal + [p], Some(p), s)
  {
    NosOfAppend(wal, p);
    if s.phase.Scanning? {
      AppendKeepsRest(nos, Handled(s), s.cursor, SeqNos(File(wal, s.phase)), p.seqNo);
      if s.phase.frozen.None? {
        AppendKeepsScan(s.phase, wal, s.cursor, p);
        NothingBesides(nos + {p.seqNo}, Handled(s), s.hello, s.cursor, SeqNos(wal + [p]));
        assert File(wal + [p], s.phase) == wal + [p];
      } else {
        assert File(wal + [p], s.phase) == File(wal, s.phase);
      }
    }
  }

  /** The record the replay sends next is the least one not yet handled. */
  lemma {:induction false} ScanLeavesNoGap(nos: set<int>, wal: seq<TrafficRec>, owed: Option<TrafficRec>, s: Session)
    requires WorkInv(nos, wal, owed, s)
    requires s.phase.Scanning? && s.phase.pos < |File(wal, s.phase)|
    requires File(wal, s.phase)[s.phase.pos].seqNo > s.phase.from
    ensures s.cursor < File(wal, s.phase)[s.phase.pos].seqNo
    ensures Gapless(nos, Handled(s) + {File(wal, s.phase)[s.phase.pos].seqNo}, s.hello,
                    File(wal, s.phase)[s.phase.pos].seqNo)
  {
    var f := File(wal, s.phase);
    var x := f[s.phase.pos];
    assert x in f;
    assert x.seqNo in SeqNos(f);
    forall n | n in nos && s.hello < n <= x.seqNo
      ensures n in Handled(s) + {x.seqNo}
    {
      if n !in Handled(s) && n in SeqNos(f) {
        var r :| r in f && r.seqNo == n;
        var k :| 0 <= k < |f| && f[k] == r;
      }
    }
  }

  lemma {:induction false} PushReplayedInOrder(out: seq<TrafficRec>, hello: int, r: TrafficRec)
    requires InOrder(out, |out|, hello)
    requires r.seqNo > (if out == [] then hello else out[|out| - 1].seqNo)
    ensures InOrder(out + [r], |out| + 1, hello)
  {
    var out' := out + [r];
    forall i | 0 <= i < |out| ensures out'[i].seqNo < r.seqNo && out'[i].seqNo > hello {
      assert out'[i] == out[i];
    }
  }

  lemma {:induction false} AllInAppend(rs: seq<TrafficRec>, r: TrafficRec, log: seq<TrafficRec>)
    requires AllIn(rs, log) && r in log
    ensures AllIn(rs + [r], log)
  {}

  lemma {:induction false} SkipKeepsQueue(log: seq<TrafficRec>, s: Session, r: TrafficRec)
    requires QueueInv(log, s) && s.phase.Scanning? && r.seqNo <= s.phase.from
    ensures QueueInv(log, Scan(s, r))
  {
    assert Handled(Scan(s, r)) == Handled(s);
  }

  lemma {:induction false} SendKeepsQueue(log: seq<TrafficRec>, s: Session, r: TrafficRec)
    requires QueueInv(log, s) && s.phase.Scanning? && r.seqNo > s.phase.from && r.seqNo > s.cursor && r in log
    requires Gapless(SeqNos(log), Handled(s) + {r.seqNo}, s.hello, r.seqNo)
    ensures QueueInv(log, Scan(s, r))
  {
    NosOfAppend(s.out, r);
    assert Handled(Scan(s, r)) == Handled(s) + {r.seqNo};
    PushReplayedInOrder(s.out, s.hello, r);
    AllInAppend(s.out, r, log);
  }

  lemma {:induction false} ScanKeepsQueue(log: seq<TrafficRec>, wal: seq<TrafficRec>, owed: Option<TrafficRec>,
                                          s: Session)
    requires QueueInv(log, s) && WorkInv(SeqNos(log), wal, owed, s)
    requires AllIn(wal, log)
    requires s.phase.Scanning? && s.phase.pos < |File(wal, s.phase)|
    ensures QueueInv(log, Scan(s, File(wal, s.phase)[s.phase.pos]))
  {
    var f := File(wal, s.phase);
    var r := f[s.phase.pos];
    assert r in log by { assert r in f; }
    if r.seqNo > s.phase.from {
      ScanLeavesNoGap(SeqNos(log), wal, owed, s);
      SendKeepsQueue(log, s, r);
    } else {
      SkipKeepsQueue(log, s, r);
    }
  }

  lemma {:induction false} ScanKeepsWork(nos: set<int>, wal: seq<TrafficRec>, owed: Option<TrafficRec>, s: Session)
    requires WorkInv(nos, wal, owed, s) && |s.out| == s.replayed
    requires s.phase.Scanning? && s.phase.pos < |File(wal, s.phase)|
    requires s.hello <= s.cursor && Gapless(nos, Handled(s), s.hello, s.cursor)
    ensures WorkInv(nos, wal, owed, Scan(s, File(wal, s.phase)[s.phase.pos]))
  {
    var r := File(wal, s.phase)[s.phase.pos];
    if r.seqNo > s.phase.from {
      ScanLeavesNoGap(nos, wal, owed, s);
      NosOfAppend(s.out, r);
      assert Handled(Scan(s, r)) == Handled(s) + {r.seqNo};
    }
  }

  lemma {:induction false} LeaveKeeps(log: seq<TrafficRec>, wal: seq<TrafficRec>, owed: Option<TrafficRec>, s: Session)
    requires SessionInv(log, wal, owed, s) && s.up
    requires s.phase.Between? || s.phase.Scanning?
    ensures SessionInv(log, wal, owed, s.(phase := Leaving, excused := s.excused + Unsent(log, owed, s)))
  {
    var s' := s.(phase := Leaving, excused := s.excused + Unsent(log, owed, s));
    forall n | n in SeqNos(log) && n > s.hello && n !in Handled(s')
      ensures n in OwedNos(owed)
    {
      assert n !in Handled(s);
      assert n > s.cursor;
      var r :| r in log && r.seqNo == n;
      assert owed == Some(r);
    }
  }

  /** A live sample is the newest record: it is past everything queued, or was just replayed. */
  lemma {:induction false} PushLiveInOrder(out: seq<TrafficRec>, replayed: nat, hello: int, p: TrafficRec)
    requires InOrder(out, replayed, hello) && hello <= p.seqNo
    requires forall i :: 0 <= i < |out| ==> out[i].seqNo <= p.seqNo
    requires p.seqNo in SeqNos(out) ==> |out| == replayed
    ensures InOrder(out + [p], replayed, hello)
  {
    var out' := out + [p];
    if out != [] {
      assert out[0] in out;
      assert hello < p.seqNo;
    }
    assert |out| == replayed ==> forall i :: 0 <= i < |out| - 1 ==> out[i].seqNo < out[|out| - 1].seqNo;
    forall i | 0 <= i < |out|
      ensures out[i].seqNo < p.seqNo || i + 1 == |out| == replayed
    {
      if out[i].seqNo == p.seqNo {
        assert out[i] in out;
      }
    }
    forall i, j | 0 <= i < j < |out'|
      ensures out'[i].seqNo < out'[j].seqNo || (i + 1 == j == replayed && out'[i].seqNo == out'[j].seqNo)
    {
      assert out'[i] == out[i];
    }
  }

  lemma {:induction false} QueuedBelowLast(log: seq<TrafficRec>, rs: seq<TrafficRec>)
    requires Ascending(log) && AllIn(rs, log)
    ensures forall i :: 0 <= i < |rs| ==> rs[i].seqNo <= LastNo(log)
    ensures forall n :: n in SeqNos(rs) ==> n <= LastNo(log)
  {
    LastIsLargest(log);
    forall i | 0 <= i < |rs| ensures rs[i].seqNo <= LastNo(log) {
      assert rs[i] in rs;
      assert rs[i].seqNo in SeqNos(log);
    }
  }

  lemma {:induction false} PushLiveKeepsQueue(log: seq<TrafficRec>, p: TrafficRec, s: Session)
    requires Ascending(log) && log != [] && log[|log| - 1] == p
    requires QueueInv(log, s) && s.phase.Live? && (p.seqNo in SeqNos(s.out) ==> |s.out| == s.replayed)
    requires Settled(SeqNos(log), Handled(s), s.hello, {p.seqNo})
    ensures QueueInv(log, s.(out := s.out + [p]))
  {
    var out := s.out + [p];
    assert InOrder(out, s.replayed, s.hello) by {
      QueuedBelowLast(log, s.out);
      PushLiveInOrder(s.out, s.replayed, s.hello, p);
    }
    assert Gapless(SeqNos(log), Handled(s.(out := out)), s.hello, p.seqNo) by {
      NosOfAppend(s.out, p);
      assert Handled(s.(out := out)) == Handled(s) + {p.seqNo};
      SettledIsGapless(SeqNos(log), Handled(s), s.hello, p.seqNo);
    }
    assert AllIn(out, log) by { AllInAppend(s.out, p, log); }
  }

  lemma SettledIsGapless(nos: set<int>, handled: set<int>, hello: int, n: int)
    requires Settled(nos, handled, hello, {n})
    ensures forall last :: Gapless(nos, handled + {n}, hello, last)
  {}

  lemma {:induction false} OfferKeepsQueue(log: seq<TrafficRec>, wal: seq<TrafficRec>, p: TrafficRec, s: Session,
                                           room: bool)
    requires Ascending(log) && log != [] && log[|log| - 1] == p
    requires QueueInv(log, s) && (s.up ==> WorkInv(SeqNos(log), wal, Some(p), s))
    ensures QueueInv(log, Offer(s, p, room))
  {
    if s.up && s.phase.Live? && room {
      PushLiveKeepsQueue(log, p, s);
    } else {
      ExcuseKeepsQueue(log, s, {p.seqNo});
    }
  }

  lemma {:induction false} OfferKeepsWork(nos: set<int>, wal: seq<TrafficRec>, p: TrafficRec, s: Session, room: bool)
    requires s.up && WorkInv(nos, wal, Some(p), s)
    ensures WorkInv(nos, wal, None, Offer(s, p, room))
  {
    NosOfAppend(s.out, p);
  }

  lemma {:induction false} RotationKeepsWork(log: seq<TrafficRec>, wal: seq<TrafficRec>, kept: seq<TrafficRec>,
                                             owed: Option<TrafficRec>, s: Session)
    requires Ascending(wal) && AllIn(kept, wal)
    requires s.up && WorkInv(SeqNos(log), wal, owed, s)
    ensures WorkInv(SeqNos(log), kept, owed, SeeRotation(wal, kept, s))
  {
    var s' := SeeRotation(wal, kept, s);
    if s.phase.Scanning? {
      var f := File(wal, s.phase);
      assert File(kept, s'.phase) == f;
      forall n | n in SeqNos(log) && n > s.hello && n !in Handled(s')
        ensures n > s.cursor && n in SeqNos(kept) + SeqNos(f)
      {
        assert n !in Handled(s);
        if n !in SeqNos(f) {
          var r :| r in wal && r.seqNo == n;
          assert r !in f;
          assert r in kept;
        }
      }
    } else if s.phase.Between? {
      forall n | n in SeqNos(log) && n > s.hello && n !in Handled(s')
        ensures n > s.cursor && n in SeqNos(kept)
      {
        assert n !in Handled(s);
        var r :| r in wal && r.seqNo == n;
        assert r in kept;
      }
    }
  }

  lemma {:induction false} BetweenKeepsQueue(log: seq<TrafficRec>, s: Session)
    requires QueueInv(log, s) && s.phase.Scanning?
    ensures QueueInv(log, s.(phase := Between(s.phase.round + 1)))
  {
    assert Handled(s.(phase := Between(s.phase.round + 1))) == Handled(s);
  }

  /** A finished scan leaves nothing of the old file behind. */
  lemma {:induction false} BetweenKeepsWork(nos: set<int>, wal: seq<TrafficRec>, owed: Option<TrafficRec>, s: Session)
    requires WorkInv(nos, wal, owed, s) && s.phase.Scanning? && s.phase.pos == |File(wal, s.phase)|
    ensures WorkInv(nos, wal, owed, s.(phase := Between(s.phase.round + 1)))
  {
    var f := File(wal, s.phase);
    assert Handled(s.(phase := Between(s.phase.round + 1))) == Handled(s);
    forall n | n in SeqNos(f) ensures n <= s.cursor {
      var r :| r in f && r.seqNo == n;
      var k :| 0 <= k < |f| && f[k] == r;
    }
  }

  lemma {:induction false} CursorGapless(log: seq<TrafficRec>, s: Session)
    requires QueueInv(log, s) && !s.phase.Live?
    ensures Gapless(SeqNos(log), Handled(s), s.hello, s.cursor)
  {}

  // ----- one session, every step -----

  lemma {:induction false} ScanKeeps(log: seq<TrafficRec>, wal: seq<TrafficRec>, owed: Option<TrafficRec>, s: Session)
    requires SessionInv(log, wal, owed, s) && s.up
    requires AllIn(wal, log)
    requires s.phase.Scanning? && s.phase.pos < |File(wal, s.phase)|
    ensures SessionInv(log, wal, owed, Scan(s, File(wal, s.phase)[s.phase.pos]))
  {
    assert |s.out| == s.replayed && s.hello <= s.cursor;
    CursorGapless(log, s);
    ScanKeepsQueue(log, wal, owed, s);
    ScanKeepsWork(SeqNos(log), wal, owed, s);
  }

  lemma {:induction false} EndScanKeeps(log: seq<TrafficRec>, wal: seq<TrafficRec>, owed: Option<TrafficRec>,
                                        s: Session)
    requires SessionInv(log, wal, owed, s) && s.up
    requires s.phase.Scanning? && s.phase.pos == |File(wal, s.phase)|
    ensures SessionInv(log, wal, owed, s.(phase := Between(s.phase.round + 1)))
  {
    BetweenKeepsQueue(log, s);
    BetweenKeepsWork(SeqNos(log), wal, owed, s);
  }

  lemma {:induction false} OpenFileKeeps(log: seq<TrafficRec>, wal: seq<TrafficRec>, owed: Option<TrafficRec>,
                                         s: Session)
    requires SessionInv(log, wal, owed, s) && s.up && s.phase.Between? && Ascending(wal)
    ensures SessionInv(log, wal, owed, s.(phase := Scanning(s.phase.round, s.cursor, 0, 0, None)))
  {
    var s' := s.(phase := Scanning(s.phase.round, s.cursor, 0, 0, None));
    assert Handled(s') == Handled(s);
    assert SeqNos(wal) + SeqNos(wal) == SeqNos(wal);
  }

  lemma {:induction false} GateKeeps(log: seq<TrafficRec>, wal: seq<TrafficRec>, owed: Option<TrafficRec>, s: Session)
    requires SessionInv(log, wal, owed, s)
    ensures s.up && s.phase.Leaving? ==> SessionInv(log, wal, owed, s.(phase := Live))
    ensures SessionInv(log, wal, owed, s.(up := false))
  {
    assert Handled(s.(phase := Live)) == Handled(s) == Handled(s.(up := false));
  }

  lemma {:induction false} OfferKeeps(log: seq<TrafficRec>, wal: seq<TrafficRec>, p: TrafficRec, s: Session, room: bool)
    requires Ascending(log) && log != [] && log[|log| - 1] == p
    requires SessionInv(log, wal, Some(p), s)
    ensures SessionInv(log, wal, None, Offer(s, p, room))
  {
    OfferKeepsQueue(log, wal, p, s, room);
    if s.up {
      OfferKeepsWork(SeqNos(log), wal, p, s, room);
    }
  }

  lemma {:induction false} ExcuseKeepsQueue(log: seq<TrafficRec>, s: Session, more: set<int>)
    requires QueueInv(log, s)
    ensures QueueInv(log, s.(excused := s.excused + more))
  {
    var s' := s.(excused := s.excused + more);
    assert Handled(s) <= Handled(s');
  }

  lemma {:induction false} FreezeKeepsQueue(log: seq<TrafficRec>, wal: seq<TrafficRec>, s: Session)
    requires QueueInv(log, s) && AllIn(wal, log) && s.phase.Scanning?
    ensures QueueInv(log, s.(phase := s.phase.(frozen := Some(wal))))
  {
    assert Handled(s.(phase := s.phase.(frozen := Some(wal)))) == Handled(s);
  }

  lemma {:induction false} RotationKeepsQueue(log: seq<TrafficRec>, wal: seq<TrafficRec>, kept: seq<TrafficRec>,
                                              s: Session)
    requires QueueInv(log, s) && AllIn(wal, log)
    ensures QueueInv(log, SeeRotation(wal, kept, s))
  {
    if s.up && s.phase.Scanning? && s.phase.frozen.None? {
      FreezeKeepsQueue(log, wal, s);
    } else {
      ExcuseKeepsQueue(log, s, Forgotten(wal, kept, s));
    }
  }

  lemma {:induction false} RotationKeeps(log: seq<TrafficRec>, wal: seq<TrafficRec>, kept: seq<TrafficRec>,
                                         owed: Option<TrafficRec>, s: Session)
    requires Ascending(wal) && AllIn(kept, wal) && AllIn(wal, log)
    requires SessionInv(log, wal, owed, s)
    ensures SessionInv(log, kept, owed, SeeRotation(wal, kept, s))
  {
    RotationKeepsQueue(log, wal, kept, s);
    if s.up {
      RotationKeepsWork(log, wal, kept, owed, s);
    }
  }

  /** Everything a session knows of is at most the newest logged number. */
  lemma {:induction false} SessionBelowLast(log: seq<TrafficRec>, wal: seq<TrafficRec>, s: Session)
    requires Ascending(log) && QueueInv(log, s) && AllIn(wal, log)
    ensures s.cursor <= LastNo(log)
    ensures forall n :: n in SeqNos(s.out) ==> n <= LastNo(log)
    ensures s.phase.Scanning? ==> forall n :: n in SeqNos(File(wal, s.phase)) ==> n <= LastNo(log)
  {
    LastIsLargest(log);
    QueuedBelowLast(log, s.out);
    if s.phase.Scanning? {
      QueuedBelowLast(log, File(wal, s.phase));
    }
  }

  lemma {:induction false} AppendKeeps(log: seq<TrafficRec>, wal: seq<TrafficRec>, p: TrafficRec, s: Session)
    requires Ascending(log) && AllIn(wal, log)
    requires LastNo(log) < p.seqNo && LastNo(wal) < p.seqNo
    requires SessionInv(log, wal, None, s)
    ensures SessionInv(log + [p], wal + [p], Some(p), s)
  {
    AppendKeepsQueue(log, p, s);
    NosOfAppend(log, p);
    SessionBelowLast(log, wal, s);
    if s.up {
      AppendKeepsWork(SeqNos(log), wal, p, s);
    }
  }

  lemma {:induction false} NewSessionInv(a: Agent, hello: int)
    requires LogInv(a.log, a.wal) && 0 <= hello <= LastNo(a.log)
    ensures SessionInv(a.log, a.wal, None, NewSession(a, hello))
    ensures !a.sampler.Fanning? ==> forall id :: SessionInv(a.log, a.wal, Owed(a, id), NewSession(a, hello))
  {
    var s := NewSession(a, hello);
    assert SeqNos(s.out) == {};
    forall n | n in SeqNos(a.log) && n > hello && n !in s.excused
      ensures n in SeqNos(a.wal)
    {
      var r :| r in a.log && r.seqNo == n;
      assert r in a.wal;
    }
    assert Ahead(SeqNos(a.log), Handled(s), hello, hello, SeqNos(a.wal));
  }

  // ----- the whole agent -----

  lemma {:induction false} OneSessionChanges(a: Agent, id: nat, s: Session)
    requires AgentInv(a) && id in a.sessions && SessionInv(a.log, a.wal, Owed(a, id), s)
    ensures AgentInv(a.(sessions := a.sessions[id := s]))
  {
    var a' := a.(sessions := a.sessions[id := s]);
    assert SessionAt(a', id);
    forall i: nat | i != id ensures SessionAt(a', i) == SessionAt(a, i) {
      assert Owed(a', i) == Owed(a, i);
    }
  }

  lemma {:induction false} FannedTo(a: Agent, id: nat, s: Session)
    requires AgentInv(a) && a.sampler.Fanning? && id in a.sessions && SessionInv(a.log, a.wal, None, s)
    ensures AgentInv(a.(sampler := Fanning(a.sampler.rec, a.sampler.todo - {id}), sessions := a.sessions[id := s]))
  {
    var a' := a.(sampler := Fanning(a.sampler.rec, a.sampler.todo - {id}), sessions := a.sessions[id := s]);
    assert Owed(a', id) == None;
    assert SessionAt(a', id);
    forall i: nat | i != id ensures SessionAt(a', i) == SessionAt(a, i) {
      assert Owed(a', i) == Owed(a, i);
    }
  }

  lemma {:induction false} SessionsKept(a: Agent, a': Agent)
    requires AgentInv(a) && SamplerInv(a'.log, a'.counter, a'.sampler)
    requires a'.log == a.log && a'.wal == a.wal && a'.sessions.Keys == a.sessions.Keys
    requires forall id :: id in a.sessions ==>
                            (a'.sessions[id] == a.sessions[id] && (Owed(a', id) == Owed(a, id) ||
                                                                   !a.sessions[id].up)) ||
                            a'.sessions[id] == a.sessions[id].(up := false)
    ensures AgentInv(a')
  {
    forall id: nat { KeptAt(a, a', id); }
  }

  lemma {:induction false} KeptAt(a: Agent, a': Agent, id: nat)
    requires SessionAt(a, id) && a'.log == a.log && a'.wal == a.wal && a'.sessions.Keys == a.sessions.Keys
    requires id in a.sessions ==>
               (a'.sessions[id] == a.sessions[id] && (Owed(a', id) == Owed(a, id) || !a.sessions[id].up)) ||
               a'.sessions[id] == a.sessions[id].(up := false)
    ensures SessionAt(a', id)
  {
    if id in a.sessions {
      GateKeeps(a.log, a.wal, Owed(a, id), a.sessions[id]);
    }
  }

  lemma {:induction false} AppendKeepsLog(a: Agent, rec: TrafficRec)
    requires AgentInv(a) && Can(a, Append(rec))
    ensures LogInv(a.log + [rec], a.wal + [rec])
    ensures LastNo(a.wal) < rec.seqNo
  {
    assert LastNo(a.wal) < rec.seqNo by { LastIsLargest(a.log); assert a.wal != [] ==> a.wal[|a.wal| - 1] in a.wal; }
    AppendKeepsAscending(a.log, rec);
    AppendKeepsAscending(a.wal, rec);
    forall r | r in a.log || r == rec ensures r in a.log + [rec] {}
  }

  lemma {:induction false} RotateKeepsLog(a: Agent, cutoff: int)
    requires AgentInv(a) && Can(a, Rotate(cutoff))
    ensures LogInv(a.log, Young(a.wal, cutoff))
    ensures AllIn(Young(a.wal, cutoff), a.wal)
  {
    YoungMembers(a.wal, cutoff);
    YoungAscending(a.wal, cutoff);
  }

  lemma {:induction false} AppendStepKeeps(a: Agent, rec: TrafficRec)
    requires AgentInv(a) && Can(a, Append(rec))
    ensures AgentInv(Apply(a, Append(rec)))
  {
    AppendKeepsLog(a, rec);
    forall id: nat { AppendedAt(a, rec, id); }
  }

  lemma {:induction false} AppendedAt(a: Agent, rec: TrafficRec, id: nat)
    requires AgentInv(a) && Can(a, Append(rec)) && LastNo(a.wal) < rec.seqNo
    ensures SessionAt(Apply(a, Append(rec)), id)
  {
    if id in a.sessions {
      assert SessionAt(a, id);
      AppendKeeps(a.log, a.wal, rec, a.sessions[id]);
    }
  }

  lemma {:induction false} RotateStepKeeps(a: Agent, cutoff: int)
    requires AgentInv(a) && Can(a, Rotate(cutoff))
    ensures AgentInv(Apply(a, Rotate(cutoff)))
  {
    var kept := Young(a.wal, cutoff);
    assert LogInv(a.log, kept) && AllIn(kept, a.wal) by { RotateKeepsLog(a, cutoff); }
    forall id: nat { RotatedAt(a, cutoff, id); }
  }

  lemma {:induction false} RotatedAt(a: Agent, cutoff: int, id: nat)
    requires AgentInv(a) && Can(a, Rotate(cutoff)) && AllIn(Young(a.wal, cutoff), a.wal)
    ensures SessionAt(Apply(a, Rotate(cutoff)), id)
  {
    if id in a.sessions {
      assert SessionAt(a, id);
      RotationKeeps(a.log, a.wal, Young(a.wal, cutoff), Owed(a, id), a.sessions[id]);
      assert Owed(Apply(a, Rotate(cutoff)), id) == Owed(a, id);
    }
  }

  lemma {:induction false} FanStepKeeps(a: Agent, id: nat, room: bool)
    requires AgentInv(a) && Can(a, Fan(id, room))
    ensures AgentInv(Apply(a, Fan(id, room)))
  {
    var s := Offer(a.sessions[id], a.sampler.rec, room);
    assert SessionInv(a.log, a.wal, None, s) by {
      assert SessionAt(a, id);
      OfferKeeps(a.log, a.wal, a.sampler.rec, a.sessions[id], room);
    }
    FannedTo(a, id, s);
  }

  lemma {:induction false} ReplayStepKeeps(a: Agent, step: AgentStep)
    requires AgentInv(a) && Can(a, step) && (step.OpenFile? || step.ScanRecord?)
    ensures AgentInv(Apply(a, step))
  {
    var s, s' := a.sessions[step.id], Apply(a, step).sessions[step.id];
    assert SessionInv(a.log, a.wal, Owed(a, step.id), s') by {
      assert SessionAt(a, step.id);
      if step.OpenFile? {
        OpenFileKeeps(a.log, a.wal, Owed(a, step.id), s);
      } else {
        ScanKeeps(a.log, a.wal, Owed(a, step.id), s);
      }
    }
    OneSessionChanges(a, step.id, s');
  }

  lemma {:induction false} EndScanStepKeeps(a: Agent, id: nat)
    requires AgentInv(a) && Can(a, EndScan(id))
    ensures AgentInv(Apply(a, EndScan(id)))
  {
    if Apply(a, EndScan(id)).sessions[id].phase.Leaving? {
      LeaveStepKeeps(a, id);
    } else {
      NextRoundKeeps(a, id);
    }
  }

  lemma {:induction false} LeaveStepKeeps(a: Agent, id: nat)
    requires AgentInv(a) && Can(a, Abort(id))
    ensures AgentInv(Apply(a, Abort(id)))
  {
    assert SessionAt(a, id);
    LeaveKeeps(a.log, a.wal, Owed(a, id), a.sessions[id]);
    OneSessionChanges(a, id, Leave(a, id));
  }

  lemma {:induction false} NextRoundKeeps(a: Agent, id: nat)
    requires AgentInv(a) && Can(a, EndScan(id))
    ensures var s := a.sessions[id];
            AgentInv(a.(sessions := a.sessions[id := s.(phase := Between(s.phase.round + 1))]))
  {
    assert SessionAt(a, id);
    EndScanKeeps(a.log, a.wal, Owed(a, id), a.sessions[id]);
    OneSessionChanges(a, id, a.sessions[id].(phase := Between(a.sessions[id].phase.round + 1)));
  }

  lemma {:induction false} GateStepKeeps(a: Agent, step: AgentStep)
    requires AgentInv(a) && Can(a, step) && (step.OpenGate? || step.HangUp?)
    ensures AgentInv(Apply(a, step))
  {
    assert SessionAt(a, step.id);
    GateKeeps(a.log, a.wal, Owed(a, step.id), a.sessions[step.id]);
    OneSessionChanges(a, step.id, Apply(a, step).sessions[step.id]);
  }

  lemma {:induction false} StepKeepsAgentInv(a: Agent, step: AgentStep)
    requires AgentInv(a) && Can(a, step)
    ensures AgentInv(Apply(a, step))
  {
    match step
    case Append(rec) => AppendStepKeeps(a, rec);
    case Rotate(cutoff) => RotateStepKeeps(a, cutoff);
    case TakeNumber => SessionsKept(a, Apply(a, step));
    case StartFanout => SessionsKept(a, Apply(a, step));
    case EndFanout => SessionsKept(a, Apply(a, step));
    case AgentRestart => SessionsKept(a, Apply(a, step));
    case Fan(id, room) => FanStepKeeps(a, id, room);
    case OpenFile(_) => ReplayStepKeeps(a, step);
    case ScanRecord(_) => ReplayStepKeeps(a, step);
    case EndScan(id) => EndScanStepKeeps(a, id);
    case Abort(id) => LeaveStepKeeps(a, id);
    case _ => GateStepKeeps(a, step);
  }

  /** A panel may connect at any moment except while a sample is being fanned out. */
  lemma {:induction false} ConnectKeepsAgentInv(a: Agent, id: nat, hello: int)
    requires AgentInv(a) && id !in a.sessions && !a.sampler.Fanning? && 0 <= hello <= LastNo(a.log)
    ensures AgentInv(a.(sessions := a.sessions[id := NewSession(a, hello)]))
  {
    NewSessionInv(a, hello);
    var a' := a.(sessions := a.sessions[id := NewSession(a, hello)]);
    assert SessionAt(a', id) by { assert Owed(a', id) == Owed(a, id); }
    forall i: nat | i != id ensures SessionAt(a', i) == SessionAt(a, i) {
      assert Owed(a', i) == Owed(a, i);
    }
  }
}
