/** Reconciling ufw's allow rules with the ports that are wanted, when any command may fail. */
module Firewall {
  import opened Options
  import Names
  import opened Collections

  datatype Command = Allow(spec: string) | Delete(spec: string)

  /** A command that was issued: how it ended, and the managed rules that were open afterwards. */
  datatype Event = Event(cmd: Command, ok: bool, open: set<string>)

  // ----- the order of the commands -----

  /** Strings in the order of their characters. */
  predicate LessEq(a: string, b: string) {
    if a == [] then true
    else if b == [] then false
    else if a[0] != b[0] then a[0] < b[0]
    else LessEq(a[1..], b[1..])
  }

  lemma {:induction false} OrderIsTotal(a: string, b: string)
    ensures LessEq(a, b) || LessEq(b, a)
    ensures LessEq(a, b) && LessEq(b, a) ==> a == b
  {
    if a != [] && b != [] {
      OrderIsTotal(a[1..], b[1..]);
      assert a == [a[0]] + a[1..] && b == [b[0]] + b[1..];
    }
  }

  lemma {:induction false} OrderIsTransitive(a: string, b: string, c: string)
    requires LessEq(a, b) && LessEq(b, c)
    ensures LessEq(a, c)
  {
    if a != [] && b != [] && c != [] && a[0] == b[0] == c[0] {
      OrderIsTransitive(a[1..], b[1..], c[1..]);
    }
  }

  /** That is: one is a part of the other from its start, or has the smaller character where they first differ. */
  lemma {:induction false} OrderIsLexicographic(a: string, b: string)
    ensures LessEq(a, b) <==> a <= b || exists k :: 0 <= k < |a| && k < |b| && a[..k] == b[..k] && a[k] < b[k]
  {
    if a != [] && b != [] && a[0] == b[0] {
      OrderIsLexicographic(a[1..], b[1..]);
      assert a <= b <==> a[1..] <= b[1..];
      if k :| 0 <= k < |a[1..]| && k < |b[1..]| && a[1..][..k] == b[1..][..k] && a[1..][k] < b[1..][k] {
        assert a[..k + 1] == [a[0]] + a[1..][..k] && b[..k + 1] == [b[0]] + b[1..][..k];
      }
      if k :| 0 <= k < |a| && k < |b| && a[..k] == b[..k] && a[k] < b[k] {
        assert a[1..][..k - 1] == a[..k][1..] && b[1..][..k - 1] == b[..k][1..];
      }
    } else if a != [] && b != [] && a[0] < b[0] {
      assert a[..0] == b[..0];
    } else if a != [] && b != [] {
      assert forall k :: 0 < k <= |a| && k <= |b| ==> a[..k][0] != b[..k][0];
    }
  }

  ghost predicate Sorted(s: seq<string>) {
    forall i, j :: 0 <= i < j < |s| ==> LessEq(s[i], s[j]) && s[i] != s[j]
  }

  function Members(s: seq<string>): set<string> {
    set x | x in s
  }

  method InsertSorted(s: seq<string>, x: string) returns (out: seq<string>)
    requires Sorted(s) && x !in s
    ensures Sorted(out) && Members(out) == Members(s) + {x}
  {
    var k := 0;
    while k < |s| && LessEq(s[k], x)
      invariant 0 <= k <= |s|
      invariant forall i :: 0 <= i < k ==> LessEq(s[i], x)
    {
      k := k + 1;
    }
    InsertedIsSorted(s, k, x);
    InsertedMembers(s, k, x);
    out := s[..k] + [x] + s[k..];
  }

  lemma {:induction false} AboveRest(s: seq<string>, k: nat, x: string, j: nat)
    requires Sorted(s) && k <= j < |s| && !LessEq(s[k], x)
    ensures LessEq(x, s[j])
  {
    OrderIsTotal(s[k], x);
    if j > k {
      OrderIsTransitive(x, s[k], s[j]);
    }
  }

  lemma {:induction false} InsertedMembers(s: seq<string>, k: nat, x: string)
    requires k <= |s|
    ensures Members(s[..k] + [x] + s[k..]) == Members(s) + {x}
  {
    assert s == s[..k] + s[k..];
    assert forall y :: y in s[..k] + [x] + s[k..] <==> y in s[..k] || y == x || y in s[k..];
  }

  lemma {:induction false} InsertedIsSorted(s: seq<string>, k: nat, x: string)
    requires Sorted(s) && x !in s && k <= |s|
    requires (forall i :: 0 <= i < k ==> LessEq(s[i], x)) && (k < |s| ==> !LessEq(s[k], x))
    ensures Sorted(s[..k] + [x] + s[k..])
  {
    var out := s[..k] + [x] + s[k..];
    forall i, j | 0 <= i < j < |out| ensures LessEq(out[i], out[j]) && out[i] != out[j] {
      if i == k {
        AboveRest(s, k, x, j - 1);
        assert out[j] == s[j - 1] && s[j - 1] in s;
      } else if j == k {
        assert out[i] == s[i] && s[i] in s;
      } else {
        assert out[i] == s[if i < k then i else i - 1] && out[j] == s[if j < k then j else j - 1];
      }
    }
  }

  /** A stable order for the keys of a map. */
  method SortedKeys(keys: set<string>) returns (out: seq<string>)
    ensures Sorted(out) && Members(out) == keys
  {
    out := [];
    var todo := keys;
    while todo != {}
      invariant todo <= keys && Sorted(out) && Members(out) == keys - todo
      decreases todo
    {
      var k := AnyOf(todo);
      assert k !in Members(out);
      out := InsertSorted(out, k);
      todo := todo - {k};
    }
  }

  /** There is only one sorted listing of a set, so the commands and their order are determined by the two rule sets. */
  lemma {:induction false} ListingIsUnique(s: seq<string>, t: seq<string>)
    requires Sorted(s) && Sorted(t) && Members(s) == Members(t)
    ensures s == t
    decreases |s|
  {
    if s == [] {
      if t != [] {
        LastIsMember(t);
      }
    } else {
      var x := s[|s| - 1];
      assert x in Members(s);
      assert t != [];
      var y := t[|t| - 1];
      assert y in Members(t);
      assert x == y by {
        LastIsGreatest(s, y);
        LastIsGreatest(t, x);
        OrderIsTotal(x, y);
      }
      WithoutLast(s);
      WithoutLast(t);
      ListingIsUnique(s[..|s| - 1], t[..|t| - 1]);
    }
  }

  lemma LastIsMember(t: seq<string>)
    ensures t != [] ==> t[|t| - 1] in Members(t)
  {}

  lemma LastIsGreatest(s: seq<string>, x: string)
    requires Sorted(s) && x in s
    ensures LessEq(x, s[|s| - 1])
  {
    OrderIsTotal(x, x);
  }

  lemma WithoutLast(s: seq<string>)
    requires Sorted(s) && s != []
    ensures Members(s[..|s| - 1]) == Members(s) - {s[|s| - 1]}
  {
    assert s == s[..|s| - 1] + [s[|s| - 1]];
  }

  // ----- reconciling -----

  ghost predicate IsListing(s: seq<string>, keys: set<string>) {
    Sorted(s) && Members(s) == keys
  }

  function Allows(specs: seq<string>): seq<Command> {
    seq(|specs|, i requires 0 <= i < |specs| => Allow(specs[i]))
  }

  function Deletes(specs: seq<string>): seq<Command> {
    seq(|specs|, i requires 0 <= i < |specs| => Delete(specs[i]))
  }

  function Commands(events: seq<Event>): seq<Command> {
    seq(|events|, i requires 0 <= i < |events| => events[i].cmd)
  }

  /** The first command that failed. */
  function FirstFailed(events: seq<Event>): Option<Command> {
    if events == [] then None
    else if !events[0].ok then Some(events[0].cmd)
    else FirstFailed(events[1..])
  }

  ghost predicate AllOk(events: seq<Event>) {
    forall e :: e in events ==> e.ok
  }

  lemma {:induction false} FirstFailedOfMore(events: seq<Event>, e: Event)
    ensures FirstFailed(events + [e]) ==
            if FirstFailed(events).Some? then FirstFailed(events) else if e.ok then None else Some(e.cmd)
  {
    if events != [] {
      assert (events + [e])[1..] == events[1..] + [e];
      FirstFailedOfMore(events[1..], e);
    } else {
      assert (events + [e])[1..] == [];
    }
  }

  /** The rules that the agent manages. A command that fails changes nothing. */
  class Ufw {
    var open: set<string>
    ghost var events: seq<Event>

    constructor (open: set<string>)
      ensures this.open == open && events == []
    {
      this.open, events := open, [];
    }

    method Run(cmd: Command) returns (ok: bool)
      modifies this
      ensures open == if !ok then old(open) else if cmd.Allow? then old(open) + {cmd.spec} else old(open) - {cmd.spec}
      ensures events == old(events) + [Event(cmd, ok, open)]
    {
      ok := *;
      if ok {
        open := if cmd.Allow? then open + {cmd.spec} else open - {cmd.spec};
      }
      events := events + [Event(cmd, ok, open)];
    }
  }

  function ToLower(s: string): string {
    seq(|s|, i requires 0 <= i < |s| => if 'A' <= s[i] <= 'Z' then (s[i] as int + 32) as char else s[i])
  }

  predicate IsUdp(proto: string): (udp: bool)
    ensures udp <==> |proto| >= 3 && proto[0] in "uU" && proto[1] in "dD" && proto[2] in "pP"
  {
    var l := ToLower(proto);
    assert |l| >= 3 ==> l[..3] == [l[0], l[1], l[2]];
    Names.HasPrefix(l, "udp")
  }

  function RuleSpec(port: int, proto: string): string {
    Names.Itoa(port) + "/" + (if IsUdp(proto) then "udp" else "tcp")
  }

  function Wanted(ports: seq<(int, string)>): set<string> {
    set p | p in ports :: RuleSpec(p.0, p.1)
  }

  /** What a rule says: the number before its first slash, in plain decimal, and the protocol after it. */
  ghost predicate Reads(rule: string, port: int, udp: bool) {
    var i := Names.IndexOf(rule, '/');
    && i < |rule| && Names.IsDecimal(rule[..i]) && Names.IntValue(rule[..i]) == Some(port)
    && rule[i + 1..] == if udp then "udp" else "tcp"
  }

  lemma {:induction false} SplitAtSlash(rule: string, a: string, b: string)
    requires forall k :: 0 <= k < |a| ==> a[k] != '/'
    ensures var i := Names.IndexOf(rule, '/');
            rule == a + "/" + b <==> i < |rule| && rule[..i] == a && rule[i + 1..] == b
  {
    var i := Names.IndexOf(rule, '/');
    if rule == a + "/" + b {
      Names.FirstAt(a, '/', b);
      assert rule[..|a|] == a && rule[|a| + 1..] == b;
    }
    if i < |rule| {
      assert rule == rule[..i] + "/" + rule[i + 1..];
    }
  }

  /** A port and a protocol have one rule, and it reads back as them. */
  lemma {:induction false} RuleReadsBack(rule: string, port: int, proto: string)
    ensures rule == RuleSpec(port, proto) <==> Reads(rule, port, IsUdp(proto))
  {
    var a := Names.Itoa(port);
    var kind := if IsUdp(proto) then "udp" else "tcp";
    Names.ItoaParts(port);
    SplitAtSlash(rule, a, kind);
    Names.ItoaIff(rule[..Names.IndexOf(rule, '/')], port);
  }

  lemma {:induction false} WantedReads(ports: seq<(int, string)>)
    ensures forall rule :: rule in Wanted(ports) <==> exists p :: p in ports && Reads(rule, p.0, IsUdp(p.1))
  {
    forall rule, p: (int, string) { RuleReadsBack(rule, p.0, p.1); }
  }

  datatype SyncError = CannotList | Failed(cmd: Command)

  function FirstError(events: seq<Event>): Option<SyncError> {
    match FirstFailed(events)
    case None => None
    case Some(c) => Some(Failed(c))
  }

  /** The rules that successful commands were about. */
  function Done(events: seq<Event>): set<string> {
    set e | e in events && e.ok :: e.cmd.spec
  }

  ghost predicate KeepsOpen(events: seq<Event>, rules: set<string>) {
    forall e :: e in events ==> rules <= e.open
  }

  lemma {:induction false} ListOneMore(s: seq<string>, i: nat, out: seq<string>, skip: set<string>)
    requires Sorted(s) && i < |s| && Sorted(out) && Members(out) == Members(s[..i]) - skip
    ensures Members(s[..i + 1]) == Members(s[..i]) + {s[i]}
    ensures s[i] !in skip ==> Sorted(out + [s[i]]) && Members(out + [s[i]]) == Members(s[..i + 1]) - skip
    ensures s[i] in skip ==> Members(out) == Members(s[..i + 1]) - skip
  {
    assert s[..i + 1] == s[..i] + [s[i]];
    assert Members(out + [s[i]]) == Members(out) + {s[i]} by {
      assert forall x :: x in out + [s[i]] <==> x in out || x == s[i];
    }
    assert s[i] !in Members(s[..i]);
    forall k | 0 <= k < |out| ensures LessEq(out[k], s[i]) && out[k] != s[i] {
      assert out[k] in Members(out);
      assert out[k] in s[..i];
    }
  }

  lemma {:induction false} OneMoreEvent(events: seq<Event>, e: Event)
    ensures Commands(events + [e]) == Commands(events) + [e.cmd]
    ensures Done(events + [e]) == Done(events) + (if e.ok then {e.cmd.spec} else {})
    ensures forall rules: set<string> :: KeepsOpen(events, rules) && rules <= e.open ==> KeepsOpen(events + [e], rules)
  {
    assert forall x :: x in events + [e] <==> x in events || x == e;
  }

  lemma {:induction false} AllDone(events: seq<Event>, specs: seq<string>)
    requires AllOk(events) && |events| == |specs|
    requires forall i :: 0 <= i < |specs| ==> events[i].cmd.spec == specs[i]
    ensures Done(events) == Members(specs)
  {
    forall x ensures x in Done(events) <==> x in Members(specs) {
      if x in Members(specs) {
        var i :| 0 <= i < |specs| && specs[i] == x;
        assert events[i] in events;
      }
    }
  }

  /** Opens what is missing, one rule at a time, going on past failures. */
  method AddMissing(ufw: Ufw, have: set<string>, want: set<string>)
    returns (err: Option<SyncError>, ghost adds: seq<string>, ghost issued: seq<Event>)
    requires have <= ufw.open
    modifies ufw
    ensures IsListing(adds, want - have) && Commands(issued) == Allows(adds)
    ensures ufw.events == old(ufw.events) + issued && ufw.open == old(ufw.open) + Done(issued)
    ensures KeepsOpen(issued, have) && err == FirstError(issued)
  {
    var keys := SortedKeys(want);
    err, adds, issued := None, [], [];
    for i := 0 to |keys|
      invariant Sorted(adds) && Members(adds) == Members(keys[..i]) - have && Commands(issued) == Allows(adds)
      invariant ufw.events == old(ufw.events) + issued && ufw.open == old(ufw.open) + Done(issued)
      invariant KeepsOpen(issued, have) && err == FirstError(issued)
    {
      ListOneMore(keys, i, adds, have);
      if keys[i] in have {
        continue;
      }
      var ok := ufw.Run(Allow(keys[i]));
      if !ok && err == None {
        err := Some(Failed(Allow(keys[i])));
      }
      ghost var e := Event(Allow(keys[i]), ok, ufw.open);
      OneMoreEvent(issued, e);
      FirstFailedOfMore(issued, e);
      assert Allows(adds + [keys[i]]) == Allows(adds) + [Allow(keys[i])];
      adds, issued := adds + [keys[i]], issued + [e];
    }
    assert keys[..|keys|] == keys;
  }

  /** Drops what is managed and no longer needed, going on past failures. */
  method DropStale(ufw: Ufw, have: set<string>, want: set<string>, earlier: Option<SyncError>)
    returns (err: Option<SyncError>, ghost drops: seq<string>, ghost issued: seq<Event>)
    modifies ufw
    ensures IsListing(drops, have - want) && Commands(issued) == Deletes(drops)
    ensures ufw.events == old(ufw.events) + issued && ufw.open == old(ufw.open) - Done(issued)
    ensures KeepsOpen(issued, old(ufw.open) * want)
    ensures err == if earlier.Some? then earlier else FirstError(issued)
  {
    var keys := SortedKeys(have);
    err, drops, issued := earlier, [], [];
    for i := 0 to |keys|
      invariant Sorted(drops) && Members(drops) == Members(keys[..i]) - want && Commands(issued) == Deletes(drops)
      invariant ufw.events == old(ufw.events) + issued && ufw.open == old(ufw.open) - Done(issued)
      invariant Done(issued) !! want && KeepsOpen(issued, old(ufw.open) * want)
      invariant err == if earlier.Some? then earlier else FirstError(issued)
    {
      ListOneMore(keys, i, drops, want);
      if keys[i] in want {
        continue;
      }
      var ok := ufw.Run(Delete(keys[i]));
      if !ok && err == None {
        err := Some(Failed(Delete(keys[i])));
      }
      ghost var e := Event(Delete(keys[i]), ok, ufw.open);
      OneMoreEvent(issued, e);
      FirstFailedOfMore(issued, e);
      assert Deletes(drops + [keys[i]]) == Deletes(drops) + [Delete(keys[i])];
      drops, issued := drops + [keys[i]], issued + [e];
    }
    assert keys[..|keys|] == keys;
  }

  lemma {:induction false} FirstErrorOfBoth(a: seq<Event>, b: seq<Event>)
    ensures FirstError(a + b) == if FirstError(a).Some? then FirstError(a) else FirstError(b)
  {
    if a == [] {
      assert a + b == b;
    } else {
      assert (a + b)[1..] == a[1..] + b;
      FirstErrorOfBoth(a[1..], b);
    }
  }

  /** Every rule that is wanted and open stays open throughout; every command to open comes before every command to
      close; whatever fails, each command is issued, and the first failure is reported; if none fails, exactly the
      wanted rules are open, that is those that read as the port and the protocol of one of `ports`; and if they already
      were, nothing is done. */
  method UfwSync(ufw: Ufw, available: bool, listed: bool, ports: seq<(int, string)>)
    returns (err: Option<SyncError>, ghost adds: seq<string>, ghost drops: seq<string>, ghost opening: seq<Event>,
             ghost closing: seq<Event>)
    modifies ufw
    ensures ufw.events == old(ufw.events) + opening + closing
    ensures !available || !listed ==> opening == closing == [] && ufw.open == old(ufw.open)
    ensures err == if !available then None else if !listed then Some(CannotList) else FirstError(opening + closing)
    ensures available && listed ==>
              && IsListing(adds, Wanted(ports) - old(ufw.open)) && Commands(opening) == Allows(adds)
              && IsListing(drops, old(ufw.open) - Wanted(ports)) && Commands(closing) == Deletes(drops)
    ensures KeepsOpen(opening + closing, old(ufw.open) * Wanted(ports))
    ensures ufw.open == old(ufw.open) + Done(opening) - Done(closing)
    ensures available && listed && AllOk(opening + closing) ==>
              && ufw.open == Wanted(ports)
              && forall rule :: rule in ufw.open <==> exists p :: p in ports && Reads(rule, p.0, IsUdp(p.1))
    ensures old(ufw.open) == Wanted(ports) ==> opening == closing == []
  {
    err, adds, drops, opening, closing := None, [], [], [], [];
    if !available {
      return;
    }
    if !listed {
      err := Some(CannotList);
      return;
    }
    var have := ufw.open;
    var want := Wanted(ports);
    var first;
    first, adds, opening := AddMissing(ufw, have, want);
    err, drops, closing := DropStale(ufw, have, want, first);
    FirstErrorOfBoth(opening, closing);
    SyncOutcome(have, want, adds, drops, opening, closing);
    WantedReads(ports);
  }

  lemma {:induction false} SyncOutcome(have: set<string>, want: set<string>, adds: seq<string>, drops: seq<string>,
                                       opening: seq<Event>, closing: seq<Event>)
    requires Commands(opening) == Allows(adds) && Members(adds) == want - have
    requires Commands(closing) == Deletes(drops) && Members(drops) == have - want
    ensures AllOk(opening + closing) ==> have + Done(opening) - Done(closing) == want
    ensures have == want ==> opening == closing == []
  {
    assert forall i :: 0 <= i < |opening| ==> opening[i].cmd == Commands(opening)[i];
    assert forall i :: 0 <= i < |closing| ==> closing[i].cmd == Commands(closing)[i];
    assert |opening| == |Commands(opening)| == |adds| && |closing| == |Commands(closing)| == |drops|;
    LastIsMember(adds);
    LastIsMember(drops);
    if AllOk(opening + closing) {
      assert forall e :: e in opening || e in closing ==> e in opening + closing;
      AllDone(opening, adds);
      AllDone(closing, drops);
    }
  }

  /** Uninstalling deletes every managed rule, going on past failures. */
  method RemoveManagedRules(ufw: Ufw, listed: bool)
    returns (err: Option<SyncError>, ghost drops: seq<string>, ghost issued: seq<Event>)
    modifies ufw
    ensures ufw.events == old(ufw.events) + issued && ufw.open == old(ufw.open) - Done(issued)
    ensures !listed ==> issued == [] && err == Some(CannotList)
    ensures listed ==>
              IsListing(drops, old(ufw.open)) && Commands(issued) == Deletes(drops) && err == FirstError(issued)
    ensures listed && AllOk(issued) ==> ufw.open == {}
  {
    drops, issued := [], [];
    if !listed {
      return Some(CannotList), drops, issued;
    }
    var have := ufw.open;
    err, drops, issued := DropStale(ufw, have, {}, None);
    assert have - {} == have;
    SyncOutcome(have, {}, [], drops, [], issued);
    assert [] + issued == issued;
  }
}
