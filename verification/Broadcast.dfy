/** Panel sessions as they are in memory, and the broadcast of a sample to all of them, tied to `Delivery`'s steps. */
module Broadcast {
  import opened AgentRuns
  import opened Collections
  import opened Records
  import D = Delivery

  const SEND_BUFFER: nat := 128

  /** A panel session: everything ever queued to it, of which the writer has taken the first `written`; the gate on live
      samples; and whether it has been torn down. */
  class Session {
    var out: seq<TrafficRec>
    var written: nat
    var ready: bool
    var done: bool
    ghost var refusals: nat

    ghost predicate Valid()
      reads this
    {
      written <= |out| <= written + SEND_BUFFER
    }

    constructor ()
      ensures Valid() && out == [] && written == 0 && !ready && !done && refusals == 0
    {
      out, written, ready, done, refusals := [], 0, false, false, 0;
    }

    /** The writer has fewer than 128 messages still to take. */
    predicate Room(): (room: bool)
      reads this
      ensures room <==> |out| < written + 128
    {
      |out| - written < SEND_BUFFER
    }

    /** The writer takes what has been queued, in order. */
    method Write()
      requires Valid()
      modifies this`written
      ensures Valid() && old(written) <= written
    {
      var taken: nat := *;
      if 0 <= taken <= |out| - written {
        written := written + taken;
      }
    }

    /** Waits for room, while the writer goes on; gives up when the session has ended or the wait is too long. */
    method SendWait(rec: TrafficRec) returns (sent: bool)
      requires Valid()
      modifies this`out, this`written, this`refusals
      ensures Valid() && old(written) <= written
      ensures refusals == if sent then old(refusals) else old(refusals) + 1
      ensures out == if sent then old(out) + [rec] else old(out)
      ensures done ==> !sent
    {
      sent := false;
      if !done {
        Write();
        var ended: bool := *;
        sent := Room() && !ended;
      }
      if sent {
        out := out + [rec];
      } else {
        refusals := refusals + 1;
      }
    }

    /** Queues without waiting: with the queue full the message is dropped. */
    method Enqueue(rec: TrafficRec)
      requires Valid()
      modifies this`out
      ensures Valid() && out == if |old(out)| < old(written) + 128 then old(out) + [rec] else old(out)
    {
      if Room() {
        out := out + [rec];
      }
    }
  }

  /** A live sample's effect on a session: withheld before the gate is open, dropped when the queue is full. */
  function Offered(out: seq<TrafficRec>, ready: bool, room: bool, rec: TrafficRec): seq<TrafficRec> {
    if !ready || !room then out else out + [rec]
  }

  /** The runs in which the sampler has its sample still to offer to `todo`, and the sessions are these. */
  ghost function Fannings(rec: TrafficRec, todo: set<nat>, all: map<nat, D.Session>): iset<Trail> {
    iset t: Trail |
    t.Possible() && t.End().sampler == D.Fanning(rec, todo) && t.End().sessions == all && todo <= all.Keys
  }

  /** The session that the protocol keeps is the one in memory: same queue, same gate. */
  ghost predicate Mirrors(s: D.Session, out: seq<TrafficRec>, ready: bool) {
    s.up && s.out == out && (s.phase.Live? <==> ready)
  }

  /** Offering a sample keeps it so. */
  lemma {:induction false} OfferMirrors(s: D.Session, out: seq<TrafficRec>, ready: bool, room: bool, rec: TrafficRec)
    requires Mirrors(s, out, ready)
    ensures Mirrors(D.Offer(s, rec, room), Offered(out, ready, room, rec), ready)
  {}

  lemma {:induction false} FannedTo(t: Trail, rec: TrafficRec, todo: set<nat>, all: map<nat, D.Session>, id: nat,
                                    room: bool)
    requires t in Fannings(rec, todo, all) && id in todo && id in all
    ensures t.Then(D.Fan(id, room)) in Fannings(rec, todo - {id}, all[id := D.Offer(all[id], rec, room)])
  {
    OneMore(t, D.Fan(id, room));
  }

  /** The sessions after the sample has been offered to some of them. */
  function OfferedTo(all: map<nat, D.Session>, rec: TrafficRec, ids: set<nat>, rooms: map<nat, bool>)
    : map<nat, D.Session>
    requires ids <= rooms.Keys
  {
    map id | id in all :: if id in ids then D.Offer(all[id], rec, rooms[id]) else all[id]
  }

  lemma {:induction false} OfferedToOneMore(all: map<nat, D.Session>, rec: TrafficRec, ids: set<nat>,
                                            rooms: map<nat, bool>,
                                            id: nat)
    requires ids <= rooms.Keys && id in rooms && id in all && id !in ids
    ensures var now := OfferedTo(all, rec, ids, rooms);
            id in now && OfferedTo(all, rec, ids + {id}, rooms) == now[id := D.Offer(now[id], rec, rooms[id])]
  {}

  /** The protocol can offer its sample to all of `todo`, each with the room that it has. */
  lemma {:induction false} FanAll(t: Trail, rec: TrafficRec, todo: set<nat>, met: set<nat>, all: map<nat, D.Session>,
                                  rooms: map<nat, bool>) returns (t': Trail)
    requires met + todo <= rooms.Keys && met !! todo
    requires t in Fannings(rec, todo, OfferedTo(all, rec, met, rooms))
    ensures t' in Fannings(rec, {}, OfferedTo(all, rec, met + todo, rooms)) && Extends(t', t)
    decreases todo
  {
    if todo == {} {
      t' := t;
      assert met + todo == met;
    } else {
      var id :| id in todo;
      OfferedToOneMore(all, rec, met, rooms, id);
      FannedTo(t, rec, todo, OfferedTo(all, rec, met, rooms), id, rooms[id]);
      t' := FanAll(t.Then(D.Fan(id, rooms[id])), rec, todo - {id}, met + {id}, all, rooms);
      assert met + {id} + (todo - {id}) == met + todo;
    }
  }

  method OfferToEach(sessions: set<Session>, rec: TrafficRec)
    requires forall s :: s in sessions ==> s.Valid()
    modifies sessions
    ensures forall s :: s in sessions ==>
                          s.Valid() && s.out == Offered(old(s.out), s.ready, old(s.Room()), rec) &&
                          s.ready == old(s.ready) && s.written == old(s.written) && s.done == old(s.done)
  {
    var todo := sessions;
    while todo != {}
      invariant todo <= sessions
      invariant forall s :: s in todo ==> s.out == old(s.out)
      invariant forall s :: s in sessions ==>
                              s.ready == old(s.ready) && s.written == old(s.written) && s.done == old(s.done)
      invariant forall s :: s in sessions && s !in todo ==>
                              s.Valid() && s.out == Offered(old(s.out), s.ready, old(s.Room()), rec)
      decreases todo
    {
      var sess := AnyOf(todo);
      todo := todo - {sess};
      if !sess.ready {
        continue;
      }
      sess.Enqueue(rec);
    }
  }

  lemma {:induction false} Fanned(t: Trail, rec: TrafficRec, todo: set<nat>, all: map<nat, D.Session>,
                                  rooms: map<nat, bool>)
    returns (t': Trail)
    requires t in Fannings(rec, todo, all) && todo == rooms.Keys
    ensures t' in Fannings(rec, {}, OfferedTo(all, rec, todo, rooms)) && Extends(t', t)
  {
    assert OfferedTo(all, rec, {}, rooms) == all;
    t' := FanAll(t, rec, todo, {}, all, rooms);
    assert {} + todo == todo;
  }

  /** Offers a live sample to every session, in any order. What that does to the queues the protocol does too, by
      offering the sample to the same sessions, which it knows by their numbers, with the same room. */
  method BroadcastSample(sessions: set<Session>, rec: TrafficRec, ghost at: map<nat, Session>, ghost t: Trail,
                         ghost all: map<nat, D.Session>)
    returns (ghost t': Trail, ghost rooms: map<nat, bool>)
    requires forall s :: s in sessions ==> s.Valid()
    requires t in Fannings(rec, at.Keys, all) && at.Keys <= all.Keys
    requires forall i :: i in at ==> at[i] in sessions && Mirrors(all[i], at[i].out, at[i].ready)
    modifies sessions
    ensures forall s :: s in sessions ==>
                          s.Valid() && s.out == Offered(old(s.out), s.ready, old(s.Room()), rec) &&
                          s.ready == old(s.ready) && s.written == old(s.written) && s.done == old(s.done)
    ensures forall s :: s in sessions ==>
                          s.out == if s.ready && |old(s.out)| < old(s.written) + 128 then old(s.out) + [rec]
                                   else old(s.out)
    ensures rooms == map i | i in at :: old(at[i].Room())
    ensures t' in Fannings(rec, {}, OfferedTo(all, rec, at.Keys, rooms)) && Extends(t', t)
    ensures forall i :: i in at ==> Mirrors(OfferedTo(all, rec, at.Keys, rooms)[i], at[i].out, at[i].ready)
  {
    rooms := map i | i in at :: at[i].Room();
    t' := Fanned(t, rec, at.Keys, all, rooms);
    OfferToEach(sessions, rec);
    forall i | i in at ensures Mirrors(OfferedTo(all, rec, at.Keys, rooms)[i], at[i].out, at[i].ready) {
      OfferMirrors(all[i], old(at[i].out), at[i].ready, rooms[i], rec);
    }
  }
}
