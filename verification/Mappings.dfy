/** Requests that create or edit a mapping: what is checked before the store is asked. */
module Mappings {
  import opened Options
  import opened PortPolicy
  import Names
  import S = Store

  datatype Request = Request(localPort: int, proto: string, remark: string, enabled: bool, version: int,
                             targets: seq<S.Target>)

  datatype Refusal =
    | BadLocalPort
    | BadProto
    | NoTargets
    | SameNodeTwice
    | ReservedPort
    | BadRemotePort
    | LocalNoListen
    | PortBusy
    | EditConflict
    | DbDown

  function Nodes(ts: seq<S.Target>): set<int> {
    set t | t in ts :: t.node
  }

  /** What is wrong with the first offending target. */
  function TargetRefusal(ts: seq<S.Target>): Option<Refusal> {
    if ts == [] then None
    else match TargetRefusal(ts[..|ts| - 1])
         case Some(e) => Some(e)
         case None =>
           var t := ts[|ts| - 1];
           if t.node in Nodes(ts[..|ts| - 1]) then Some(SameNodeTwice)
           else if ValidateRemotePort(t.remotePort).Ok? then None
           else if ReservedReason(t.remotePort).Some? then Some(ReservedPort)
           else Some(BadRemotePort)
  }

  ghost predicate DistinctNodes(ts: seq<S.Target>) {
    forall i, j :: 0 <= i < j < |ts| ==> ts[i].node != ts[j].node
  }

  ghost predicate AcceptedPorts(ts: seq<S.Target>) {
    forall t :: t in ts ==> ValidateRemotePort(t.remotePort).Ok?
  }

  lemma {:induction false} RefusalKinds(ts: seq<S.Target>)
    ensures TargetRefusal(ts) in {None, Some(SameNodeTwice), Some(ReservedPort), Some(BadRemotePort)}
  {
    if ts != [] {
      RefusalKinds(ts[..|ts| - 1]);
    }
  }

  lemma {:induction false} OneMoreNode(ts: seq<S.Target>, t: S.Target)
    ensures DistinctNodes(ts + [t]) <==> DistinctNodes(ts) && t.node !in Nodes(ts)
    ensures AcceptedPorts(ts + [t]) <==> AcceptedPorts(ts) && ValidateRemotePort(t.remotePort).Ok?
  {
    var more := ts + [t];
    assert forall x :: x in more <==> x in ts || x == t;
    if DistinctNodes(more) {
      assert forall i, j :: 0 <= i < j < |ts| ==> more[i] == ts[i] && more[j] == ts[j];
      assert forall i :: 0 <= i < |ts| ==> more[i] == ts[i] && more[|ts|] == t;
    }
  }

  /** The targets pass exactly if no node occurs twice and every public port is one that tunnels may use. */
  lemma {:induction false} TargetsPassIff(ts: seq<S.Target>)
    ensures TargetRefusal(ts) == None <==> DistinctNodes(ts) && AcceptedPorts(ts)
  {
    if ts != [] {
      TargetsPassIff(ts[..|ts| - 1]);
      OneMoreNode(ts[..|ts| - 1], ts[|ts| - 1]);
      assert ts == ts[..|ts| - 1] + [ts[|ts| - 1]];
    }
  }

  lemma {:induction false} RefusalStays(ts: seq<S.Target>, i: nat)
    requires i <= |ts| && TargetRefusal(ts[..i]).Some?
    ensures TargetRefusal(ts) == TargetRefusal(ts[..i])
    decreases |ts| - i
  {
    if i < |ts| {
      assert ts[..i + 1][..i] == ts[..i];
      RefusalStays(ts, i + 1);
    } else {
      assert ts[..i] == ts;
    }
  }

  /** The first target that is not in order is the `i`th, and this is what is wrong with it. */
  ghost predicate FirstWrong(ts: seq<S.Target>, i: int, e: Refusal) {
    && 0 <= i < |ts| && DistinctNodes(ts[..i]) && AcceptedPorts(ts[..i])
    && if exists j :: 0 <= j < i && ts[j].node == ts[i].node then e == SameNodeTwice
       else ValidateRemotePort(ts[i].remotePort).Err? &&
            e == if ts[i].remotePort > 65535 then BadRemotePort else ReservedPort
  }

  lemma {:induction false} LastRefusal(ts: seq<S.Target>, i: nat)
    requires i < |ts| && TargetRefusal(ts[..i]) == None
    ensures forall e :: TargetRefusal(ts[..i + 1]) == Some(e) <==> FirstWrong(ts, i, e)
  {
    TargetsPassIff(ts[..i]);
    assert ts[..i + 1][..i] == ts[..i];
    assert ts[i].node in Nodes(ts[..i]) <==> exists j :: 0 <= j < i && ts[j].node == ts[i].node by {
      assert forall j :: 0 <= j < i ==> ts[..i][j] == ts[j];
      assert forall t :: t in ts[..i] ==> t.node in Nodes(ts[..i]);
    }
  }

  lemma {:induction false} RefusalUpTo(ts: seq<S.Target>, n: nat)
    requires n <= |ts|
    ensures forall e :: TargetRefusal(ts[..n]) == Some(e) <==> exists i :: i < n && FirstWrong(ts, i, e)
  {
    if n > 0 {
      var init := ts[..n - 1];
      assert ts[..n][..n - 1] == init;
      RefusalUpTo(ts, n - 1);
      TargetsPassIff(init);
      if TargetRefusal(init) == None {
        LastRefusal(ts, n - 1);
      }
    }
  }

  /** A refusal tells what is wrong with the first target that is not in order. */
  lemma {:induction false} RefusalIff(ts: seq<S.Target>)
    ensures forall e :: TargetRefusal(ts) == Some(e) <==> exists i :: FirstWrong(ts, i, e)
  {
    assert ts[..|ts|] == ts;
    RefusalUpTo(ts, |ts|);
  }

  ghost predicate WellFormed(req: Request) {
    && 1 <= req.localPort <= 65535 && (req.proto == "tcp" || req.proto == "udp")
    && req.targets != [] && DistinctNodes(req.targets) && AcceptedPorts(req.targets)
  }

  /** Every check on a request holds. */
  ghost predicate Passes(req: Request, listening: bool, busy: set<S.Target>) {
    WellFormed(req) && (req.enabled ==> listening && forall t :: t in req.targets ==> t !in busy)
  }

  /** The checks in their order: this is the first that fails, and the refusal it leads to. */
  ghost predicate FailsWith(req: Request, listening: bool, busy: set<S.Target>, e: Refusal) {
    if !(1 <= req.localPort <= 65535) then e == BadLocalPort
    else if req.proto != "tcp" && req.proto != "udp" then e == BadProto
    else if req.targets == [] then e == NoTargets
    else if !WellFormed(req) then exists i :: FirstWrong(req.targets, i, e)
    else req.enabled && if !listening then e == LocalNoListen
                        else e == PortBusy && exists t :: t in req.targets && t in busy
  }

  /** `listening`: a program listens on the local port; `busy`: the targets that a connected node reports as
      occupied. */
  method Validate(req: Request, listening: bool, busy: set<S.Target>) returns (r: Option<Refusal>)
    ensures r == None <==> Passes(req, listening, busy)
    ensures r.Some? ==> FailsWith(req, listening, busy, r.value)
    ensures TargetRefusal(req.targets).Some? && 1 <= req.localPort <= 65535 &&
            (req.proto == "tcp" || req.proto == "udp") ==>
              r == TargetRefusal(req.targets)
    ensures r != Some(EditConflict) && r != Some(DbDown)
    ensures r == Some(PortBusy) ==> req.enabled && exists t :: t in req.targets && t in busy
  {
    TargetsPassIff(req.targets);
    RefusalKinds(req.targets);
    RefusalIff(req.targets);
    if req.localPort < 1 || req.localPort > 65535 {
      return Some(BadLocalPort);
    }
    if req.proto != "tcp" && req.proto != "udp" {
      return Some(BadProto);
    }
    if |req.targets| == 0 {
      return Some(NoTargets);
    }
    r := CheckTargets(req.targets);
    if r.Some? {
      return;
    }
    if req.enabled {
      if !listening {
        return Some(LocalNoListen);
      }
      for i := 0 to |req.targets|
        invariant forall k :: 0 <= k < i ==> req.targets[k] !in busy
      {
        if req.targets[i] in busy {
          return Some(PortBusy);
        }
      }
    }
    return None;
  }

  method CheckTargets(ts: seq<S.Target>) returns (r: Option<Refusal>)
    ensures r == TargetRefusal(ts)
  {
    var seen: set<int> := {};
    for i := 0 to |ts|
      invariant TargetRefusal(ts[..i]) == None && seen == Nodes(ts[..i])
    {
      var t := ts[i];
      assert ts[..i + 1][..i] == ts[..i] && ts[..i + 1] == ts[..i] + [t];
      if t.node in seen {
        RefusalStays(ts, i + 1);
        return Some(SameNodeTwice);
      }
      seen := seen + {t.node};
      if ValidateRemotePort(t.remotePort).Err? {
        RefusalStays(ts, i + 1);
        return if ReservedReason(t.remotePort).Some? then Some(ReservedPort) else Some(BadRemotePort);
      }
    }
    assert ts[..|ts|] == ts;
    return None;
  }

  // ----- what a checked request can run into in the store -----

  ghost predicate PortsAccepted(targets: S.Targets) {
    forall k :: k in targets ==> ValidateRemotePort(targets[k]).Ok?
  }

  lemma {:induction false} InsertedPorts(targets: S.Targets, id: int, ts: seq<S.Target>)
    requires PortsAccepted(targets) && AcceptedPorts(ts)
    ensures PortsAccepted(S.Inserted(targets, id, ts))
  {
    if ts != [] {
      assert ts == ts[..|ts| - 1] + [ts[|ts| - 1]];
      InsertedPorts(targets, id, ts[..|ts| - 1]);
    }
  }

  /** With distinct nodes and a mapping that has no targets yet, only a port can clash. */
  lemma {:induction false} OnlyPortsClash(targets: S.Targets, id: int, ts: seq<S.Target>)
    requires DistinctNodes(ts) && forall k :: k in targets ==> k.0 != id
    ensures S.FirstClash(targets, id, ts) != Some(S.DuplicateNode)
  {
    if ts != [] {
      var init, t := ts[..|ts| - 1], ts[|ts| - 1];
      OnlyPortsClash(targets, id, init);
      S.InsertedTargets(targets, id, init);
      assert forall x :: x in init ==> x.node != t.node;
    }
  }

  /** A clash of ports is one between a target asked for and another target of its node. */
  lemma {:induction false} PortClashIsReal(targets: S.Targets, id: int, ts: seq<S.Target>)
    ensures S.FirstClash(targets, id, ts) == Some(S.DuplicatePort) ==>
              exists t, k :: t in ts && k in targets && k.1 == t.node && targets[k] == t.remotePort
  {
    S.ClashIff(targets, id, ts);
    if S.FirstClash(targets, id, ts) == Some(S.DuplicatePort) {
      var i :| S.Offends(targets, id, ts, i, S.DuplicatePort);
      assert ts[i] in ts;
    }
  }

  function StoreRefusal(e: S.StoreError): Refusal {
    match e
    case OptimisticConflict => EditConflict
    case DuplicateNode => PortBusy
    case DuplicatePort => PortBusy
    case DbError => DbDown
  }

  /** Creating through the handler keeps every public port acceptable; a refusal leaves the tables as they are, and an
      unchecked clash is always one of ports. */
  method HandleCreate(store: S.Store, req: Request, listening: bool, busy: set<S.Target>)
    returns (r: Result<int, Refusal>)
    requires store.Valid() && PortsAccepted(store.targets)
    modifies store
    ensures store.Valid() && PortsAccepted(store.targets)
    ensures r.Ok? ==>
              && r.value in store.mappings && r.value !in old(store.mappings)
              && store.mappings[r.value] == S.Mapping(req.localPort, req.proto, req.remark, req.enabled, 1)
              && store.targets == S.Inserted(old(store.targets), r.value, req.targets)
    ensures r.Ok? ==> S.Retargeted(old(store.targets), store.targets, r.value, req.targets)
    ensures r.Ok? ==> Passes(req, listening, busy)
    ensures r.Err? ==> store.mappings == old(store.mappings) && store.targets == old(store.targets)
    ensures r == Err(PortBusy) ==>
              (exists t :: t in req.targets && t in busy) ||
              S.FirstClash(old(store.targets), old(store.nextId), req.targets) == Some(S.DuplicatePort)
    ensures r == Err(PortBusy) ==>
              (exists t :: t in req.targets && t in busy) ||
              (exists t, k :: t in req.targets && k in old(store.targets) && k.1 == t.node &&
                              old(store.targets)[k] == t.remotePort)
    ensures r == Err(DbDown) <==> store.failures > old(store.failures)
    ensures r.Err? ==> r.error == PortBusy || r.error == DbDown || !Passes(req, listening, busy)
  {
    var refusal := Validate(req, listening, busy);
    if refusal.Some? {
      return Err(refusal.value);
    }
    OnlyPortsClash(store.targets, store.nextId, req.targets);
    PortClashIsReal(store.targets, store.nextId, req.targets);
    var res := store.CreateMapping(S.Mapping(req.localPort, req.proto, req.remark, req.enabled, 1), req.targets);
    match res {
      case Ok(id) =>
        InsertedPorts(old(store.targets), id, req.targets);
        r := Ok(id);
      case Err(e) =>
        r := Err(StoreRefusal(e));
    }
  }

  method HandleUpdate(store: S.Store, id: int, req: Request, listening: bool, busy: set<S.Target>)
    returns (r: Result<(), Refusal>)
    requires store.Valid() && PortsAccepted(store.targets)
    modifies store
    ensures store.Valid() && PortsAccepted(store.targets)
    ensures r.Ok? ==>
              && id in old(store.mappings) && old(store.mappings)[id].version == req.version
              && store.mappings == old(store.mappings)[id := S.Mapping(req.localPort, req.proto, req.remark,
                                                                       req.enabled, req.version + 1)]
              && store.targets == S.Inserted(S.Without(old(store.targets), id), id, req.targets)
    ensures r.Ok? ==> S.Retargeted(old(store.targets), store.targets, id, req.targets)
    ensures r.Ok? ==> Passes(req, listening, busy)
    ensures r.Err? ==> store.mappings == old(store.mappings) && store.targets == old(store.targets)
    ensures r == Err(EditConflict) ==> id !in old(store.mappings) || old(store.mappings)[id].version != req.version
    ensures r == Err(PortBusy) ==>
              (exists t :: t in req.targets && t in busy) ||
              S.FirstClash(S.Without(old(store.targets), id), id, req.targets) == Some(S.DuplicatePort)
    ensures r == Err(PortBusy) ==>
              (exists t :: t in req.targets && t in busy) ||
              (exists t, k :: t in req.targets && k in old(store.targets) && k.0 != id && k.1 == t.node &&
                              old(store.targets)[k] == t.remotePort)
    ensures Passes(req, listening, busy) && (id !in old(store.mappings) ||
                                             old(store.mappings)[id].version != req.version) ==>
              r == Err(EditConflict) || r == Err(DbDown)
    ensures r == Err(DbDown) <==> store.failures > old(store.failures)
    ensures r.Err? ==>
              r.error == PortBusy || r.error == DbDown || r.error == EditConflict || !Passes(req, listening, busy)
  {
    var refusal := Validate(req, listening, busy);
    if refusal.Some? {
      return Err(refusal.value);
    }
    OnlyPortsClash(S.Without(store.targets, id), id, req.targets);
    PortClashIsReal(S.Without(store.targets, id), id, req.targets);
    var res := store.UpdateMapping(id, req.version, S.Mapping(req.localPort, req.proto, req.remark, req.enabled, 0),
                                   req.targets);
    match res {
      case Ok(_) =>
        InsertedPorts(S.Without(old(store.targets), id), id, req.targets);
        r := Ok(());
      case Err(e) =>
        r := Err(StoreRefusal(e));
    }
  }

  /** So the tunnels a node is told to run have distinct names and distinct ports, and every port is one that the node's
      frps allows, unless it is that of its dashboard. */
  method DesiredPorts(store: S.Store, node: int) returns (proxies: seq<S.Proxy>)
    requires store.Valid() && PortsAccepted(store.targets)
    ensures forall p :: p in proxies <==> exists id :: S.Wants(store.mappings, store.targets, node, id, p)
    ensures forall i, j :: 0 <= i < j < |proxies| ==>
                             proxies[i].name != proxies[j].name && proxies[i].remotePort != proxies[j].remotePort
    ensures forall i :: 0 <= i < |proxies| ==> ValidateRemotePort(proxies[i].remotePort).Ok?
  {
    ghost var ids;
    proxies, ids := store.DesiredProxies(node);
    forall i | 0 <= i < |proxies| ensures ValidateRemotePort(proxies[i].remotePort).Ok? {
      assert ids[i] in ids;
    }
  }

  function NamesOf(proxies: seq<S.Proxy>): set<string> {
    set p | p in proxies :: p.name
  }

  /** Compares the tunnels a node should run with those that its frps reports. Proxies that the panel has not named are
      nobody's business: they are never called superfluous. */
  method Reconcile(desired: seq<S.Proxy>, reported: seq<string>) returns (missing: set<string>, extra: set<string>)
    ensures missing <= NamesOf(desired)
    ensures forall n :: n in extra <==> n in reported && Names.ParseProxyName(n).Some? && n !in NamesOf(desired)
    ensures forall n :: n in extra <==> n in reported && Names.IsPanelName(n) && n !in NamesOf(desired)
    ensures forall m, k :: Names.Int64(m) && Names.Int64(k) && Names.ProxyName(m, k) in NamesOf(desired) ==>
                             (Names.ProxyName(m, k) in missing <==> Names.ProxyName(m, k) !in reported)
  {
    var wanted: set<string> := {};
    for i := 0 to |desired|
      invariant wanted == NamesOf(desired[..i])
    {
      assert desired[..i + 1] == desired[..i] + [desired[i]];
      wanted := wanted + {desired[i].name};
    }
    assert desired[..|desired|] == desired;
    var registered: set<string> := {};
    for i := 0 to |reported|
      invariant forall n :: n in registered <==> n in reported[..i] && Names.ParseProxyName(n).Some?
    {
      assert reported[..i + 1] == reported[..i] + [reported[i]];
      if Names.ParseProxyName(reported[i]).Some? {
        registered := registered + {reported[i]};
      }
    }
    assert reported[..|reported|] == reported;
    missing, extra := wanted - registered, registered - wanted;
    forall n { Names.ForeignIff(n); }
    forall m, k | Names.Int64(m) && Names.Int64(k) ensures Names.ParseProxyName(Names.ProxyName(m, k)).Some? {
      Names.ParseOfName(m, k);
    }
  }
}
