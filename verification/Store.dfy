/** Mappings and their targets: transactions over two tables, any statement of which may fail. */
module Store {
  import opened Options
  import opened Collections
  import Names
  import PortPolicy

  datatype Mapping = Mapping(localPort: int, proto: string, remark: string, enabled: bool, version: int)

  datatype Target = Target(node: int, remotePort: int)

  /** `DuplicateNode` and `DuplicatePort` are the two unique keys of the target table. */
  datatype StoreError = OptimisticConflict | DuplicateNode | DuplicatePort | DbError

  /** The target table: by mapping and node, the public port. */
  type Targets = map<(int, int), int>

  predicate PortTaken(targets: Targets, node: int, port: int) {
    exists k :: k in targets && k.1 == node && targets[k] == port
  }

  function Clash(targets: Targets, id: int, t: Target): Option<StoreError> {
    if (id, t.node) in targets then Some(DuplicateNode)
    else if PortTaken(targets, t.node, t.remotePort) then Some(DuplicatePort)
    else None
  }

  function Inserted(targets: Targets, id: int, ts: seq<Target>): Targets {
    if ts == [] then targets
    else Inserted(targets, id, ts[..|ts| - 1])[(id, ts[|ts| - 1].node) := ts[|ts| - 1].remotePort]
  }

  /** The first unique key that inserting these targets in turn would violate. */
  function FirstClash(targets: Targets, id: int, ts: seq<Target>): Option<StoreError> {
    if ts == [] then None
    else match FirstClash(targets, id, ts[..|ts| - 1])
         case Some(e) => Some(e)
         case None => Clash(Inserted(targets, id, ts[..|ts| - 1]), id, ts[|ts| - 1])
  }

  /** No two targets of a node have the same port. */
  ghost predicate UniquePorts(targets: Targets) {
    forall k, l :: k in targets && l in targets && k.1 == l.1 && targets[k] == targets[l] ==> k == l
  }

  function Without(targets: Targets, id: int): (rest: Targets)
    ensures forall k :: k in rest <==> k in targets && k.0 != id
    ensures forall k :: k in rest ==> rest[k] == targets[k]
  {
    map k | k in targets && k.0 != id :: targets[k]
  }

  function WithoutNode(targets: Targets, node: int): (rest: Targets)
    ensures forall k :: k in rest <==> k in targets && k.1 != node
    ensures forall k :: k in rest ==> rest[k] == targets[k]
  {
    map k | k in targets && k.1 != node :: targets[k]
  }

  // ----- what a refused row meets -----

  /** The mapping has a target on this row's node already, in the table or among the rows before it. */
  ghost predicate MeetsNode(targets: Targets, id: int, ts: seq<Target>, i: int)
    requires 0 <= i < |ts|
  {
    (id, ts[i].node) in targets || exists j :: 0 <= j < i && ts[j].node == ts[i].node
  }

  /** Another target of this row's node has its port. */
  ghost predicate MeetsPort(targets: Targets, ts: seq<Target>, i: int)
    requires 0 <= i < |ts|
  {
    exists k :: k in targets && k.1 == ts[i].node && targets[k] == ts[i].remotePort
  }

  /** None of the first `n` rows meets another. */
  ghost predicate Fit(targets: Targets, id: int, ts: seq<Target>, n: int)
    requires n <= |ts|
  {
    forall i :: 0 <= i < n ==> !MeetsNode(targets, id, ts, i) && !MeetsPort(targets, ts, i)
  }

  /** The first row that meets another is the `i`th, and this is how. */
  ghost predicate Offends(targets: Targets, id: int, ts: seq<Target>, i: int, e: StoreError) {
    && 0 <= i < |ts| && Fit(targets, id, ts, i)
    && if MeetsNode(targets, id, ts, i) then e == DuplicateNode else MeetsPort(targets, ts, i) && e == DuplicatePort
  }

  lemma {:induction false} NextClash(targets: Targets, id: int, ts: seq<Target>, n: nat)
    requires n < |ts|
    ensures Clash(Inserted(targets, id, ts[..n]), id, ts[n]) ==
            if MeetsNode(targets, id, ts, n) then Some(DuplicateNode)
            else if MeetsPort(targets, ts, n) then Some(DuplicatePort)
            else None
  {
    var init, t := ts[..n], ts[n];
    var now := Inserted(targets, id, init);
    InsertedTargets(targets, id, init);
    assert (id, t.node) in now <==> MeetsNode(targets, id, ts, n) by {
      assert forall j :: 0 <= j < n ==> init[j] == ts[j];
    }
    if (id, t.node) !in now {
      assert PortTaken(now, t.node, t.remotePort) <==> MeetsPort(targets, ts, n) by {
        assert forall k: (int, int) ::
            k.1 == t.node ==> (k in now <==> k in targets) && (k in now ==> now[k] == targets[k]);
      }
    }
  }

  lemma {:induction false} FirstClashUpTo(targets: Targets, id: int, ts: seq<Target>, n: nat)
    requires n <= |ts|
    ensures FirstClash(targets, id, ts[..n]) == None <==> Fit(targets, id, ts, n)
    ensures forall e :: FirstClash(targets, id, ts[..n]) == Some(e) <==>
                        exists i :: i < n && Offends(targets, id, ts, i, e)
  {
    if n > 0 {
      assert ts[..n][..n - 1] == ts[..n - 1];
      FirstClashUpTo(targets, id, ts, n - 1);
      NextClash(targets, id, ts, n - 1);
      forall e ensures FirstClash(targets, id, ts[..n]) == Some(e) <==>
                       exists i :: i < n && Offends(targets, id, ts, i, e)
      {
        if FirstClash(targets, id, ts[..n - 1]) == None && FirstClash(targets, id, ts[..n]) == Some(e) {
          assert Offends(targets, id, ts, n - 1, e);
        }
      }
    }
  }

  /** The rows can be inserted exactly if none meets another, and otherwise the error tells what the first one that does
      meets. */
  lemma {:induction false} ClashIff(targets: Targets, id: int, ts: seq<Target>)
    ensures FirstClash(targets, id, ts) == None <==> Fit(targets, id, ts, |ts|)
    ensures forall e :: FirstClash(targets, id, ts) == Some(e) <==> exists i :: Offends(targets, id, ts, i, e)
  {
    assert ts[..|ts|] == ts;
    FirstClashUpTo(targets, id, ts, |ts|);
  }

  /** The mapping has exactly these targets, each with its port, and those of all others are as before. */
  ghost predicate Retargeted(before: Targets, after: Targets, id: int, ts: seq<Target>) {
    && (forall k: (int, int) :: k.0 != id ==> (k in after <==> k in before))
    && (forall k :: k in before && k in after && k.0 != id ==> after[k] == before[k])
    && (forall node :: (id, node) in after <==> exists t :: t in ts && t.node == node)
    && (forall t :: t in ts && (id, t.node) in after ==> after[(id, t.node)] == t.remotePort)
  }

  lemma {:induction false} InsertedPortsAre(targets: Targets, id: int, ts: seq<Target>)
    requires FirstClash(targets, id, ts) == None
    ensures forall t :: t in ts ==> (id, t.node) in Inserted(targets, id, ts) &&
                                    Inserted(targets, id, ts)[(id, t.node)] == t.remotePort
  {
    if ts != [] {
      var init, last := ts[..|ts| - 1], ts[|ts| - 1];
      assert ts == init + [last];
      InsertedPortsAre(targets, id, init);
      assert forall t :: t in init ==> t.node != last.node;
    }
  }

  lemma {:induction false} InsertedRetargets(targets: Targets, id: int, ts: seq<Target>)
    requires FirstClash(Without(targets, id), id, ts) == None
    ensures Retargeted(targets, Inserted(Without(targets, id), id, ts), id, ts)
  {
    InsertedTargets(Without(targets, id), id, ts);
    InsertedPortsAre(Without(targets, id), id, ts);
  }

  lemma {:induction false} InsertKeepsUnique(targets: Targets, id: int, t: Target)
    requires UniquePorts(targets) && Clash(targets, id, t) == None
    ensures UniquePorts(targets[(id, t.node) := t.remotePort])
  {}

  lemma {:induction false} InsertedTargets(targets: Targets, id: int, ts: seq<Target>)
    ensures forall k :: k in Inserted(targets, id, ts) <==>
                        k in targets || (k.0 == id && exists t :: t in ts && t.node == k.1)
    ensures forall k :: k in targets && k.0 != id ==> Inserted(targets, id, ts)[k] == targets[k]
  {
    if ts != [] {
      InsertedTargets(targets, id, ts[..|ts| - 1]);
      assert ts == ts[..|ts| - 1] + [ts[|ts| - 1]];
    }
  }

  /** A successful edit: of which mapping, and the version it was made against. */
  datatype Edit = Edit(id: int, version: int)

  /** Ports are unique per node, every target has its mapping, ids are not given out twice, and no two edits that
      succeeded were made against the same version. */
  ghost predicate Sound(mappings: map<int, Mapping>, targets: Targets, nextId: int, edits: seq<Edit>) {
    && UniquePorts(targets) && nextId >= 1
    && (forall k :: k in targets ==> k.0 in mappings)
    && (forall id :: id in mappings ==> 0 < id < nextId && mappings[id].version >= 1)
    && (forall e :: e in edits ==> e.id < nextId && (e.id in mappings ==> e.version < mappings[e.id].version))
    && (forall i, j :: 0 <= i < j < |edits| ==> edits[i] != edits[j])
  }

  lemma {:induction false} EditKeepsSound(mappings: map<int, Mapping>, targets: Targets, nextId: int, edits: seq<Edit>,
                                          id: int, m: Mapping)
    requires Sound(mappings, targets, nextId, edits) && id in mappings && m.version == mappings[id].version + 1
    ensures Sound(mappings[id := m], targets, nextId, edits + [Edit(id, mappings[id].version)])
  {
    var edits' := edits + [Edit(id, mappings[id].version)];
    forall e | e in edits' ensures e.id < nextId && (e.id in mappings ==> e.version < mappings[id := m][e.id].version) {
      assert e in edits || e == Edit(id, mappings[id].version);
    }
    forall i | 0 <= i < |edits| ensures edits[i] != Edit(id, mappings[id].version) {
      assert edits[i] in edits;
    }
  }

  lemma {:induction false} RetargetKeepsSound(mappings: map<int, Mapping>, targets: Targets, nextId: int,
                                              edits: seq<Edit>,
                                              id: int, ts: seq<Target>)
    requires Sound(mappings, targets, nextId, edits) && id in mappings
    requires UniquePorts(Inserted(Without(targets, id), id, ts))
    ensures Sound(mappings, Inserted(Without(targets, id), id, ts), nextId, edits)
  {
    InsertedTargets(Without(targets, id), id, ts);
  }

  class Store {
    var mappings: map<int, Mapping>
    var targets: Targets
    var nextId: int
    ghost var edits: seq<Edit>
    ghost var failures: nat

    ghost predicate Valid()
      reads this
    {
      Sound(mappings, targets, nextId, edits)
    }

    constructor ()
      ensures Valid() && mappings == map[] && targets == map[] && edits == []
    {
      mappings, targets, nextId, edits, failures := map[], map[], 1, [], 0;
    }

    /** Any statement may fail, and so may a commit. */
    method Attempt() returns (ok: bool)
      modifies this`failures
      ensures failures == if ok then old(failures) else old(failures) + 1
    {
      ok := *;
      if !ok {
        failures := failures + 1;
      }
    }

    /** A statement that violates a unique key fails; any statement may. */
    method InsertTargets(id: int, ts: seq<Target>) returns (err: Option<StoreError>)
      requires UniquePorts(targets)
      modifies this`targets, this`failures
      ensures failures == if err == Some(DbError) then old(failures) + 1 else old(failures)
      ensures err == None ==> targets == Inserted(old(targets), id, ts) && UniquePorts(targets)
      ensures err == None ==> FirstClash(old(targets), id, ts) == None
      ensures err.Some? ==>
                err == Some(DbError) || (err == FirstClash(old(targets), id, ts) && err != Some(OptimisticConflict))
      ensures err == None ==> Fit(old(targets), id, ts, |ts|)
      ensures err.Some? ==> err.value == DbError || exists i :: Offends(old(targets), id, ts, i, err.value)
    {
      ClashIff(targets, id, ts);
      for i := 0 to |ts|
        invariant targets == Inserted(old(targets), id, ts[..i]) && UniquePorts(targets)
        invariant FirstClash(old(targets), id, ts[..i]) == None && failures == old(failures)
      {
        assert ts[..i + 1][..i] == ts[..i];
        var ok := Attempt();
        if !ok {
          return Some(DbError);
        }
        var clash := Clash(targets, id, ts[i]);
        if clash.Some? {
          FirstClashStays(old(targets), id, ts, i + 1);
          return clash;
        }
        InsertKeepsUnique(targets, id, ts[i]);
        targets := targets[(id, ts[i].node) := ts[i].remotePort];
      }
      assert ts[..|ts|] == ts;
      err := None;
    }

    /** Either the mapping is there with all its targets, or nothing has changed. */
    method CreateMapping(m: Mapping, ts: seq<Target>) returns (r: Result<int, StoreError>)
      requires Valid()
      modifies this
      ensures Valid() && edits == old(edits)
      ensures r.Ok? ==>
                && r.value !in old(mappings) && mappings == old(mappings)[r.value := m.(version := 1)]
                && FirstClash(old(targets), r.value, ts) == None && targets == Inserted(old(targets), r.value, ts)
      ensures r.Ok? ==> Fit(old(targets), r.value, ts, |ts|) && Retargeted(old(targets), targets, r.value, ts)
      ensures r.Err? ==> mappings == old(mappings) && targets == old(targets)
      ensures r.Err? ==> r.error == DbError || Some(r.error) == FirstClash(old(targets), old(nextId), ts)
      ensures r.Err? ==> r.error == DbError || exists i :: Offends(old(targets), old(nextId), ts, i, r.error)
      ensures r != Err(OptimisticConflict)
      ensures r == Err(DbError) <==> failures > old(failures)
    {
      var savedMappings, savedTargets := mappings, targets;
      var ok := Attempt();
      if !ok {
        return Err(DbError);
      }
      var id := nextId;
      nextId := nextId + 1;
      mappings := mappings[id := m.(version := 1)];
      var err := InsertTargets(id, ts);
      if err.Some? {
        mappings, targets := savedMappings, savedTargets;
        return Err(err.value);
      }
      ok := Attempt();
      if !ok {
        mappings, targets := savedMappings, savedTargets;
        return Err(DbError);
      }
      InsertedTargets(savedTargets, id, ts);
      assert Without(savedTargets, id) == savedTargets;
      InsertedRetargets(savedTargets, id, ts);
      return Ok(id);
    }

    /** Replaces a mapping and its whole target set, if it still has the version the caller has seen; or changes
        nothing. */
    method UpdateMapping(id: int, seen: int, m: Mapping, ts: seq<Target>) returns (r: Result<(), StoreError>)
      requires Valid()
      modifies this
      ensures Valid() && nextId == old(nextId)
      ensures r.Ok? ==>
                && id in old(mappings) && old(mappings)[id].version == seen
                && mappings == old(mappings)[id := m.(version := seen + 1)]
                && FirstClash(Without(old(targets), id), id, ts) == None
                && targets == Inserted(Without(old(targets), id), id, ts)
                && edits == old(edits) + [Edit(id, seen)]
      ensures r.Ok? ==>
                Fit(Without(old(targets), id), id, ts, |ts|) && Retargeted(old(targets), targets, id, ts)
      ensures r.Err? ==> mappings == old(mappings) && targets == old(targets) && edits == old(edits)
      ensures r == Err(OptimisticConflict) ==> id !in old(mappings) || old(mappings)[id].version != seen
      ensures id !in old(mappings) || old(mappings)[id].version != seen ==>
                r == Err(OptimisticConflict) || r == Err(DbError)
      ensures r.Err? ==>
                r.error == DbError || r.error == OptimisticConflict ||
                Some(r.error) == FirstClash(Without(old(targets), id), id, ts)
      ensures r.Err? ==>
                r.error == DbError || r.error == OptimisticConflict ||
                exists i :: Offends(Without(old(targets), id), id, ts, i, r.error)
      ensures r == Err(DbError) <==> failures > old(failures)
    {
      var savedMappings, savedTargets := mappings, targets;
      var ok := Attempt();
      if !ok {
        return Err(DbError);
      }
      if id !in mappings || mappings[id].version != seen {
        return Err(OptimisticConflict);
      }
      mappings := mappings[id := m.(version := seen + 1)];
      ok := Attempt();
      if !ok {
        mappings := savedMappings;
        return Err(DbError);
      }
      targets := Without(targets, id);
      var err := InsertTargets(id, ts);
      if err.Some? {
        mappings, targets := savedMappings, savedTargets;
        return Err(err.value);
      }
      ok := Attempt();
      if !ok {
        mappings, targets := savedMappings, savedTargets;
        return Err(DbError);
      }
      EditKeepsSound(savedMappings, savedTargets, nextId, edits, id, m.(version := seen + 1));
      edits := edits + [Edit(id, seen)];
      RetargetKeepsSound(mappings, savedTargets, nextId, edits, id, ts);
      InsertedRetargets(savedTargets, id, ts);
      return Ok(());
    }

    method SetMappingEnabled(id: int, seen: int, enabled: bool) returns (r: Result<(), StoreError>)
      requires Valid()
      modifies this
      ensures Valid() && targets == old(targets) && nextId == old(nextId)
      ensures r.Ok? ==>
                && id in old(mappings) && old(mappings)[id].version == seen
                && mappings == old(mappings)[id := old(mappings)[id].(enabled := enabled, version := seen + 1)]
                && edits == old(edits) + [Edit(id, seen)]
      ensures r.Ok? ==>
                && (forall other, node, p ::
                      other != id ==> (Wants(mappings, targets, node, other, p) <==>
                                       Wants(old(mappings), targets, node, other, p)))
                && (forall node, p :: Wants(mappings, targets, node, id, p) <==>
                                      enabled && Wants(SwitchedOn(old(mappings), id), targets, node, id, p))
      ensures r.Err? ==> mappings == old(mappings) && edits == old(edits)
      ensures r == Err(OptimisticConflict) ==> id !in old(mappings) || old(mappings)[id].version != seen
      ensures id !in old(mappings) || old(mappings)[id].version != seen ==>
                r == Err(OptimisticConflict) || r == Err(DbError)
      ensures r.Ok? || r.error == OptimisticConflict || r.error == DbError
      ensures r == Err(DbError) <==> failures > old(failures)
    {
      var ok := Attempt();
      if !ok {
        return Err(DbError);
      }
      if id !in mappings || mappings[id].version != seen {
        return Err(OptimisticConflict);
      }
      EditKeepsSound(mappings, targets, nextId, edits, id, mappings[id].(enabled := enabled, version := seen + 1));
      mappings := mappings[id := mappings[id].(enabled := enabled, version := seen + 1)];
      edits := edits + [Edit(id, seen)];
      return Ok(());
    }

    method DeleteMapping(id: int) returns (r: Result<(), StoreError>)
      requires Valid()
      modifies this
      ensures Valid() && edits == old(edits) && nextId == old(nextId)
      ensures r.Ok? ==>
                && mappings == old(mappings) - {id}
                && (forall k :: k in targets <==> k in old(targets) && k.0 != id)
                && (forall k :: k in targets ==> targets[k] == old(targets)[k])
      ensures r.Err? ==> mappings == old(mappings) && targets == old(targets)
      ensures r.Err? <==> failures > old(failures)
    {
      var savedMappings, savedTargets := mappings, targets;
      var ok := Attempt();
      if !ok {
        return Err(DbError);
      }
      targets := Without(targets, id);
      ok := Attempt();
      if !ok {
        targets := savedTargets;
        return Err(DbError);
      }
      mappings := mappings - {id};
      ok := Attempt();
      if !ok {
        mappings, targets := savedMappings, savedTargets;
        return Err(DbError);
      }
      return Ok(());
    }

    /** Removes a node's targets; the mappings stay. */
    method DeleteNode(node: int) returns (r: Result<(), StoreError>)
      requires Valid()
      modifies this`targets, this`failures
      ensures Valid() && (r.Err? <==> failures > old(failures))
      ensures r.Ok? ==>
                && (forall k :: k in targets <==> k in old(targets) && k.1 != node)
                && (forall k :: k in targets ==> targets[k] == old(targets)[k])
      ensures r.Err? ==> targets == old(targets)
    {
      var saved := targets;
      targets := WithoutNode(targets, node);
      var ok := Attempt();
      if !ok {
        targets := saved;
        return Err(DbError);
      }
      return Ok(());
    }

    /** The tunnels that a node should run, in the order of their mappings: one for each of its targets whose mapping is
        enabled, with that mapping's protocol, local port and remark and that target's port. Their names are distinct
        and tell mapping and node, and their public ports are distinct. */
    method DesiredProxies(node: int) returns (proxies: seq<Proxy>, ghost ids: seq<int>)
      requires Valid()
      ensures forall p :: p in proxies <==> exists id :: Wants(mappings, targets, node, id, p)
      ensures forall id, p :: Wants(mappings, targets, node, id, p) && Names.Int64(id) && Names.Int64(node) ==>
                                Names.ParseProxyName(p.name) == Some((id, node))
      ensures forall i, j :: 0 <= i < j < |ids| ==> ids[i] < ids[j]
      ensures forall id :: id in ids <==> Runs(mappings, targets, id, node)
      ensures proxies == ProxiesFor(mappings, targets, ids, node)
      ensures forall i, j :: 0 <= i < j < |proxies| ==>
                               proxies[i].name != proxies[j].name && proxies[i].remotePort != proxies[j].remotePort
    {
      proxies, ids := [], [];
      var ms, ts := mappings, targets;
      for id := 1 to nextId
        invariant RunningBelow(ms, ts, node, id, ids) && proxies == ProxiesFor(ms, ts, ids, node)
      {
        RunningNext(ms, ts, node, id, ids);
        if Runs(ms, ts, id, node) {
          proxies := proxies + [ProxyFor(ms, ts, id, node)];
          ids := ids + [id];
        }
      }
      AllProxiesDiffer(ms, ts, ids, node);
      ProxiesAreWanted(ms, ts, ids, node);
    }
  }

  /** The tunnel that a node should run for a mapping: for one that is enabled and has a target there. */
  ghost predicate Wants(mappings: map<int, Mapping>, targets: Targets, node: int, id: int, p: Proxy) {
    && id in mappings && mappings[id].enabled && (id, node) in targets
    && p == Proxy(Names.ProxyName(id, node), mappings[id].proto, mappings[id].localPort, targets[(id, node)],
                  mappings[id].remark)
  }

  function SwitchedOn(mappings: map<int, Mapping>, id: int): map<int, Mapping>
    requires id in mappings
  {
    mappings[id := mappings[id].(enabled := true)]
  }

  lemma {:induction false} ProxiesAreWanted(mappings: map<int, Mapping>, targets: Targets, ids: seq<int>, node: int)
    requires forall id :: id in ids <==> Runs(mappings, targets, id, node)
    ensures var proxies := ProxiesFor(mappings, targets, ids, node);
            forall p :: p in proxies <==> exists id :: Wants(mappings, targets, node, id, p)
    ensures forall id, p :: Wants(mappings, targets, node, id, p) && Names.Int64(id) && Names.Int64(node) ==>
                              Names.ParseProxyName(p.name) == Some((id, node))
  {
    var proxies := ProxiesFor(mappings, targets, ids, node);
    forall p ensures p in proxies <==> exists id :: Wants(mappings, targets, node, id, p) {
      if p in proxies {
        var i :| 0 <= i < |ids| && proxies[i] == p;
        assert ids[i] in ids;
        assert Wants(mappings, targets, node, ids[i], p);
      }
      if id :| Wants(mappings, targets, node, id, p) {
        assert Runs(mappings, targets, id, node);
        var i :| 0 <= i < |ids| && ids[i] == id;
        assert proxies[i] == p;
      }
    }
    forall id { Names.ParseOfName(id, node); }
  }

  /** The mappings below `limit` that run on a node, in ascending order. */
  ghost predicate RunningBelow(mappings: map<int, Mapping>, targets: Targets, node: int, limit: int, ids: seq<int>) {
    && (forall i, j :: 0 <= i < j < |ids| ==> ids[i] < ids[j])
    && (forall k :: k in ids <==> k < limit && Runs(mappings, targets, k, node))
  }

  lemma {:induction false} RunningNext(mappings: map<int, Mapping>, targets: Targets, node: int, id: int, ids: seq<int>)
    requires RunningBelow(mappings, targets, node, id, ids)
    ensures RunningBelow(mappings, targets, node, id + 1, if Runs(mappings, targets, id, node) then ids + [id] else ids)
  {
    assert forall i :: 0 <= i < |ids| ==> ids[i] in ids;
    assert forall k :: k in ids + [id] <==> k in ids || k == id;
  }

  function ProxiesFor(mappings: map<int, Mapping>, targets: Targets, ids: seq<int>, node: int): seq<Proxy> {
    seq(|ids|, i requires 0 <= i < |ids| => ProxyFor(mappings, targets, ids[i], node))
  }

  lemma {:induction false} AllProxiesDiffer(mappings: map<int, Mapping>, targets: Targets, ids: seq<int>, node: int)
    requires UniquePorts(targets) && (forall i, j :: 0 <= i < j < |ids| ==> ids[i] < ids[j])
    requires forall id :: id in ids ==> Runs(mappings, targets, id, node)
    ensures var proxies := ProxiesFor(mappings, targets, ids, node);
            forall i, j :: 0 <= i < j < |proxies| ==>
                             proxies[i].name != proxies[j].name && proxies[i].remotePort != proxies[j].remotePort
  {
    var proxies := ProxiesFor(mappings, targets, ids, node);
    forall i, j | 0 <= i < j < |ids|
      ensures proxies[i].name != proxies[j].name && proxies[i].remotePort != proxies[j].remotePort
    {
      assert ids[i] in ids && ids[j] in ids;
      ProxiesDiffer(mappings, targets, ids[i], ids[j], node);
    }
  }

  datatype Proxy = Proxy(name: string, proto: string, localPort: int, remotePort: int, comment: string)

  predicate Runs(mappings: map<int, Mapping>, targets: Targets, id: int, node: int) {
    id in mappings && mappings[id].enabled && (id, node) in targets
  }

  /** The proxy of a target; the mapping and the port are there whenever it runs. */
  function ProxyFor(mappings: map<int, Mapping>, targets: Targets, id: int, node: int): Proxy {
    var m := if id in mappings then mappings[id] else Mapping(0, "", "", false, 0);
    Proxy(Names.ProxyName(id, node), m.proto, m.localPort,
          if (id, node) in targets then targets[(id, node)] else 0, m.remark)
  }

  lemma {:induction false} ProxiesDiffer(mappings: map<int, Mapping>, targets: Targets, id: int, other: int, node: int)
    requires UniquePorts(targets) && id != other && Runs(mappings, targets, id, node) &&
             Runs(mappings, targets, other, node)
    ensures ProxyFor(mappings, targets, id, node).name != ProxyFor(mappings, targets, other, node).name
    ensures ProxyFor(mappings, targets, id, node).remotePort != ProxyFor(mappings, targets, other, node).remotePort
  {
    if Names.ProxyName(id, node) == Names.ProxyName(other, node) {
      Names.NamesAreDistinct(id, node, other, node);
    }
  }

  lemma {:induction false} FirstClashStays(targets: Targets, id: int, ts: seq<Target>, i: nat)
    requires i <= |ts| && FirstClash(targets, id, ts[..i]).Some?
    ensures FirstClash(targets, id, ts) == FirstClash(targets, id, ts[..i])
    decreases |ts| - i
  {
    if i < |ts| {
      assert ts[..i + 1][..i] == ts[..i];
      FirstClashStays(targets, id, ts, i + 1);
    } else {
      assert ts[..i] == ts;
    }
  }
}
