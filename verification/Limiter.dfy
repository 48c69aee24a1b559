/** The two limiters of failed logins: per-address failure histories and bans, swept now and then. */
module Limiter {
  import opened Options
  import opened Collections

  datatype Address = Address(text: string)

  /** How many failures within a window of how long lead to a ban of how long. */
  datatype Policy = Policy(maxFails: int, window: int, banFor: int)

  const SECOND := 1_000_000_000

  /** The agent's handshakes and the panel's logins, in nanoseconds. */
  const AGENT_POLICY := Policy(10, 60 * SECOND, 600 * SECOND)
  const LOGIN_POLICY := Policy(5, 600 * SECOND, 600 * SECOND)

  datatype State = State(fails: map<Address, seq<int>>, banned: map<Address, int>, lastPrune: int)

  const EMPTY := State(map[], map[], 0)

  function Recent(ts: seq<int>, cutoff: int): seq<int> {
    if ts == [] then []
    else Recent(ts[..|ts| - 1], cutoff) + (if ts[|ts| - 1] >= cutoff then [ts[|ts| - 1]] else [])
  }

  function Fails(s: State, ip: Address): seq<int> {
    if ip in s.fails then s.fails[ip] else []
  }

  predicate Lapsed(s: State, ip: Address, now: int) {
    ip in s.banned && now >= s.banned[ip]
  }

  predicate Live(s: State, ip: Address, now: int) {
    ip in s.banned && now < s.banned[ip]
  }

  /** What the first pass of a sweep leaves of an address's history: its recent failures; without any, nothing,
      unless its ban is live. */
  function Kept(s: State, p: Policy, now: int, ip: Address): Option<seq<int>>
    requires ip in s.fails
  {
    var keep := Recent(s.fails[ip], now - p.window);
    if keep != [] then Some(keep) else if Live(s, ip, now) then Some(s.fails[ip]) else None
  }

  function AllKept(s: State, p: Policy, now: int): map<Address, seq<int>> {
    map ip | ip in s.fails && Kept(s, p, now, ip).Some? :: Kept(s, p, now, ip).value
  }

  function LapsedBans(banned: map<Address, int>, now: int): set<Address> {
    set ip | ip in banned && now >= banned[ip]
  }

  /** A sweep drops old failures, and lapsed bans together with what is left of their histories. */
  function Swept(s: State, p: Policy, now: int): State {
    State(AllKept(s, p, now) - LapsedBans(s.banned, now), s.banned - LapsedBans(s.banned, now), s.lastPrune)
  }

  function MaybeSwept(s: State, p: Policy, now: int): State {
    if now - s.lastPrune < p.window then s else Swept(s.(lastPrune := now), p, now)
  }

  function Cleared(s: State, ip: Address): State {
    s.(fails := s.fails - {ip}, banned := s.banned - {ip})
  }

  function AfterBlocked(s: State, ip: Address, now: int): State {
    if Lapsed(s, ip, now) then Cleared(s, ip) else s
  }

  function Recorded(s: State, p: Policy, ip: Address, now: int): State {
    var kept := Recent(Fails(s, ip), now - p.window) + [now];
    s.(fails := s.fails[ip := kept],
    banned := if |kept| >= p.maxFails then s.banned[ip := now + p.banFor] else s.banned)
  }

  /** A table in which some entries have been replaced or dropped. */
  function Filtered<K, V>(m: map<K, V>, kept: map<K, Option<V>>): map<K, V> {
    map k | k in m && (k in kept ==> kept[k].Some?) :: if k in kept then kept[k].value else m[k]
  }

  function Decided<K, V>(m: map<K, V>, k: K, o: Option<V>): map<K, V> {
    match o
    case None => m - {k}
    case Some(v) => m[k := v]
  }

  lemma FilterOne<K, V>(m: map<K, V>, kept: map<K, Option<V>>, k: K, o: Option<V>)
    requires k in m && k !in kept
    ensures Filtered(m, kept[k := o]) == Decided(Filtered(m, kept), k, o)
  {}

  lemma FilterNone<K, V>(m: map<K, V>)
    ensures Filtered(m, map[]) == m
  {}

  lemma AllDecided(s: State, p: Policy, now: int, kept: map<Address, Option<seq<int>>>)
    requires kept.Keys == s.fails.Keys && forall ip :: ip in kept ==> kept[ip] == Kept(s, p, now, ip)
    ensures Filtered(s.fails, kept) == AllKept(s, p, now)
  {}

  lemma Twice<K, V>(m: map<K, V>, a: set<K>, b: set<K>)
    ensures (m - a) - b == m - (a + b)
    ensures m - {} == m
  {}

  class Limiter {
    const policy: Policy
    var fails: map<Address, seq<int>>
    var banned: map<Address, int>
    var lastPrune: int

    function Now(): State
      reads this
    {
      State(fails, banned, lastPrune)
    }

    constructor (policy: Policy)
      ensures this.policy == policy && Now() == EMPTY
    {
      this.policy := policy;
      fails, banned, lastPrune := map[], map[], 0;
    }

    static method FilterRecent(ts: seq<int>, cutoff: int) returns (kept: seq<int>)
      ensures kept == Recent(ts, cutoff)
    {
      kept := [];
      for i := 0 to |ts|
        invariant kept == Recent(ts[..i], cutoff)
      {
        assert ts[..i + 1][..i] == ts[..i];
        if ts[i] >= cutoff {
          kept := kept + [ts[i]];
        }
      }
      assert ts[..|ts|] == ts;
    }

    method Prune(now: int)
      modifies this
      ensures Now() == Swept(old(Now()), policy, now)
    {
      fails := KeepRecent(Now(), policy, now);
      PruneBans(now);
    }

    static method KeepOne(s: State, p: Policy, now: int, ip: Address) returns (o: Option<seq<int>>)
      requires ip in s.fails
      ensures o == Kept(s, p, now, ip)
    {
      var keep := FilterRecent(s.fails[ip], now - p.window);
      if keep == [] {
        o := if ip !in s.banned || now >= s.banned[ip] then None else Some(s.fails[ip]);
      } else {
        o := Some(keep);
      }
    }

    /** First pass: histories without a recent failure go, unless their ban is live. */
    static method KeepRecent(s: State, p: Policy, now: int) returns (left: map<Address, seq<int>>)
      ensures left == AllKept(s, p, now)
    {
      var todo := s.fails.Keys;
      ghost var kept: map<Address, Option<seq<int>>> := map[];
      left := s.fails;
      FilterNone(s.fails);
      while todo != {}
        invariant todo <= s.fails.Keys && kept.Keys == s.fails.Keys - todo
        invariant forall ip :: ip in kept ==> kept[ip] == Kept(s, p, now, ip)
        invariant left == Filtered(s.fails, kept)
        decreases todo
      {
        var ip := AnyOf(todo);
        var o := KeepOne(s, p, now, ip);
        FilterOne(s.fails, kept, ip, o);
        left := Decided(left, ip, o);
        todo, kept := todo - {ip}, kept[ip := o];
      }
      AllDecided(s, p, now, kept);
    }

    /** Second pass: lapsed bans go, and with them what is left of their histories. */
    method PruneBans(now: int)
      modifies this`fails, this`banned
      ensures Now() == State(old(fails) - LapsedBans(old(banned), now), old(banned) - LapsedBans(old(banned), now),
                             old(lastPrune))
    {
      var all, hist := banned, fails;
      var todo, f, b := all.Keys, hist, all;
      ghost var gone: set<Address> := {};
      Twice(all, {}, {});
      Twice(hist, {}, {});
      while todo != {}
        invariant todo <= all.Keys && gone == LapsedBans(all, now) - todo
        invariant b == all - gone && f == hist - gone
        decreases todo
      {
        var ip := AnyOf(todo);
        if now >= all[ip] {
          Twice(all, gone, {ip});
          Twice(hist, gone, {ip});
          b, f := b - {ip}, f - {ip};
          gone := gone + {ip};
        }
        todo := todo - {ip};
      }
      assert gone == LapsedBans(all, now);
      banned, fails := b, f;
    }

    /** At most one sweep per window. */
    method MaybePrune(now: int)
      modifies this
      ensures Now() == MaybeSwept(old(Now()), policy, now)
    {
      if now - lastPrune < policy.window {
        return;
      }
      lastPrune := now;
      Prune(now);
    }

    method Blocked(ip: Address, now: int) returns (blocked: bool)
      modifies this
      ensures blocked == Live(old(Now()), ip, now)
      ensures Now() == AfterBlocked(old(Now()), ip, now)
    {
      if ip !in banned {
        return false;
      }
      if now >= banned[ip] {
        banned, fails := banned - {ip}, fails - {ip};
        return false;
      }
      return true;
    }

    method Fail(ip: Address, now: int)
      modifies this
      ensures Now() == Recorded(MaybeSwept(old(Now()), policy, now), policy, ip, now)
    {
      MaybePrune(now);
      var ts := if ip in fails then fails[ip] else [];
      var kept := FilterRecent(ts, now - policy.window);
      kept := kept + [now];
      fails := fails[ip := kept];
      if |kept| >= policy.maxFails {
        banned := banned[ip := now + policy.banFor];
      }
    }

    method Success(ip: Address)
      modifies this
      ensures Now() == Cleared(old(Now()), ip)
    {
      fails, banned := fails - {ip}, banned - {ip};
    }
  }

  // ----- recent failures -----

  lemma {:induction false} RecentOfLast(ts: seq<int>, t: int, cut: int)
    ensures Recent(ts + [t], cut) == Recent(ts, cut) + (if t >= cut then [t] else [])
  {
    assert (ts + [t])[..|ts|] == ts;
  }

  lemma {:induction false} RecentTwice(ts: seq<int>, cut: int, later: int)
    requires cut <= later
    ensures Recent(Recent(ts, cut), later) == Recent(ts, later)
  {
    if ts != [] {
      var init, last := ts[..|ts| - 1], ts[|ts| - 1];
      RecentTwice(init, cut, later);
      RecentOfLast(Recent(init, cut), last, later);
      assert Recent(init, cut) + [] == Recent(init, cut);
      assert Recent(init, later) + [] == Recent(init, later);
    }
  }

  lemma {:induction false} RecentMembers(ts: seq<int>, cut: int)
    ensures forall t :: t in Recent(ts, cut) ==> t in ts && t >= cut
  {
    if ts != [] {
      RecentMembers(ts[..|ts| - 1], cut);
    }
  }

  // ----- lazy sweeping is invisible -----

  datatype Op = Blocked(ip: Address, now: int) | Fail(ip: Address, now: int) | Success(ip: Address, now: int)

  /** One call, on a limiter that sweeps or on one that never does. */
  function Do(s: State, p: Policy, op: Op, sweeps: bool): State {
    match op
    case Blocked(ip, now) => AfterBlocked(s, ip, now)
    case Fail(ip, now) => Recorded(if sweeps then MaybeSwept(s, p, now) else s, p, ip, now)
    case Success(ip, _) => Cleared(s, ip)
  }

  function Run(p: Policy, ops: seq<Op>, sweeps: bool): State {
    if ops == [] then EMPTY else Do(Run(p, ops[..|ops| - 1], sweeps), p, ops[|ops| - 1], sweeps)
  }

  /** What the callers of `Blocked` are told, in turn. */
  function Answers(p: Policy, ops: seq<Op>, sweeps: bool): seq<bool> {
    if ops == [] then []
    else
      var init, op := ops[..|ops| - 1], ops[|ops| - 1];
      Answers(p, init, sweeps) + (if op.Blocked? then [Live(Run(p, init, sweeps), op.ip, op.now)] else [])
  }

  ghost predicate Ordered(ops: seq<Op>) {
    forall i, j :: 0 <= i < j < |ops| ==> ops[i].now <= ops[j].now
  }

  /** An address whose ban has lapsed has not been forgotten by a sweep, neither by the one now due nor by an earlier
      one. */
  ghost predicate Remembered(p: Policy, ops: seq<Op>, ip: Address, now: int) {
    Lapsed(Run(p, ops, false), ip, now) ==> ip in MaybeSwept(Run(p, ops, true), p, now).banned
  }

  /** No failure is recorded for an address that a sweep has forgotten with its lapsed ban. */
  ghost predicate Guarded(p: Policy, ops: seq<Op>) {
    ops == [] ||
    (Guarded(p, ops[..|ops| - 1]) &&
     (ops[|ops| - 1].Fail? ==> Remembered(p, ops[..|ops| - 1], ops[|ops| - 1].ip, ops[|ops| - 1].now)))
  }

  /** Every failure is recorded right after asking, at the same time, whether the address is blocked. */
  ghost predicate Checked(ops: seq<Op>) {
    forall i :: 0 <= i < |ops| && ops[i].Fail? ==> i > 0 && ops[i - 1] == Blocked(ops[i].ip, ops[i].now)
  }

  lemma {:induction false} CheckedIsGuarded(p: Policy, ops: seq<Op>)
    requires Checked(ops)
    ensures Guarded(p, ops)
  {
    if ops != [] {
      var init, op := ops[..|ops| - 1], ops[|ops| - 1];
      CheckedIsGuarded(p, init);
      if op.Fail? {
        assert init[|init| - 1] == Blocked(op.ip, op.now);
      }
    }
  }

  ghost predicate SameBan(s: State, plain: State, ip: Address) {
    (ip in s.banned <==> ip in plain.banned) && (ip in s.banned ==> s.banned[ip] == plain.banned[ip])
  }

  /** The two limiters agree on an address: same ban, same recent failures; or the plain one still has a lapsed ban,
      and the sweeping one has forgotten the address altogether. */
  ghost predicate Agree(s: State, plain: State, p: Policy, ip: Address, now: int) {
    || (SameBan(s, plain, ip) && Recent(Fails(s, ip), now - p.window) == Recent(Fails(plain, ip), now - p.window))
    || (Lapsed(plain, ip, now) && ip !in s.banned && ip !in s.fails)
  }

  lemma {:induction false} SweepOfBan(s: State, p: Policy, now: int, ip: Address)
    ensures Lapsed(s, ip, now) ==> ip !in Swept(s, p, now).banned && ip !in Swept(s, p, now).fails
    ensures !Lapsed(s, ip, now) ==> SameBan(Swept(s, p, now), s, ip)
    ensures ip !in s.fails ==> ip !in Swept(s, p, now).fails
    ensures ip !in s.banned ==> ip !in Swept(s, p, now).banned
  {}

  lemma {:induction false} SweptFails(s: State, p: Policy, now: int, ip: Address)
    requires !Lapsed(s, ip, now)
    ensures Fails(Swept(s, p, now), ip) ==
            if ip !in s.fails then [] else match Kept(s, p, now, ip) case Some(ts) => ts case None => []
  {}

  lemma {:induction false} SweepOfFails(s: State, p: Policy, now: int, ip: Address)
    requires !Lapsed(s, ip, now)
    ensures Recent(Fails(Swept(s, p, now), ip), now - p.window) == Recent(Fails(s, ip), now - p.window)
  {
    SweptFails(s, p, now, ip);
    RecentTwice(Fails(s, ip), now - p.window, now - p.window);
  }

  lemma {:induction false} SweepKeepsAgreement(s: State, plain: State, p: Policy, now: int, ip: Address)
    requires Agree(s, plain, p, ip, now)
    ensures Agree(MaybeSwept(s, p, now), plain, p, ip, now)
  {
    SweepOfBan(s.(lastPrune := now), p, now, ip);
    if !Lapsed(s, ip, now) {
      SweepOfFails(s.(lastPrune := now), p, now, ip);
    }
  }

  lemma {:induction false} TimeKeepsAgreement(s: State, plain: State, p: Policy, ip: Address, now: int, later: int)
    requires Agree(s, plain, p, ip, now) && now <= later
    ensures Agree(s, plain, p, ip, later)
  {
    RecentTwice(Fails(s, ip), now - p.window, later - p.window);
    RecentTwice(Fails(plain, ip), now - p.window, later - p.window);
  }

  lemma {:induction false} RecordKeepsAgreement(s: State, plain: State, p: Policy, at: Address, now: int, ip: Address)
    requires Agree(s, plain, p, ip, now) && Agree(s, plain, p, at, now) && (Lapsed(plain, at, now) ==> at in s.banned)
    ensures Agree(Recorded(s, p, at, now), Recorded(plain, p, at, now), p, ip, now)
  {}

  lemma {:induction false} OpKeepsAgreement(s: State, plain: State, p: Policy, op: Op, ip: Address)
    requires Agree(s, plain, p, ip, op.now) && Agree(s, plain, p, op.ip, op.now)
    requires op.Fail? && Lapsed(plain, op.ip, op.now) ==> op.ip in MaybeSwept(s, p, op.now).banned
    ensures Agree(Do(s, p, op, true), Do(plain, p, op, false), p, ip, op.now)
  {
    if op.Fail? {
      SweepKeepsAgreement(s, plain, p, op.now, ip);
      SweepKeepsAgreement(s, plain, p, op.now, op.ip);
      RecordKeepsAgreement(MaybeSwept(s, p, op.now), plain, p, op.ip, op.now, ip);
    }
  }

  function LastTime(ops: seq<Op>): int {
    if ops == [] then 0 else ops[|ops| - 1].now
  }

  lemma {:induction false} RunsAgree(p: Policy, ops: seq<Op>, ip: Address, now: int)
    requires Ordered(ops) && Guarded(p, ops) && (ops != [] ==> LastTime(ops) <= now)
    ensures Agree(Run(p, ops, true), Run(p, ops, false), p, ip, now)
    decreases |ops|
  {
    if ops != [] {
      var init, op := ops[..|ops| - 1], ops[|ops| - 1];
      RunsAgree(p, init, ip, op.now);
      RunsAgree(p, init, op.ip, op.now);
      OpKeepsAgreement(Run(p, init, true), Run(p, init, false), p, op, ip);
      TimeKeepsAgreement(Run(p, ops, true), Run(p, ops, false), p, ip, op.now, now);
    }
  }

  /** In every run in order of time in which no failure is recorded for an address that was forgotten with its lapsed
      ban, the limiter that sweeps gives the same answers as one that never does. */
  lemma {:induction false} SweepingIsInvisible(p: Policy, ops: seq<Op>)
    requires Ordered(ops) && Guarded(p, ops)
    ensures Answers(p, ops, true) == Answers(p, ops, false)
  {
    if ops != [] {
      var init, op := ops[..|ops| - 1], ops[|ops| - 1];
      SweepingIsInvisible(p, init);
      RunsAgree(p, init, op.ip, op.now);
    }
  }

  /** That is so whenever callers ask first. */
  lemma {:induction false} SweepingIsInvisibleToCheckingCallers(p: Policy, ops: seq<Op>)
    requires Ordered(ops) && Checked(ops)
    ensures Answers(p, ops, true) == Answers(p, ops, false)
  {
    CheckedIsGuarded(p, ops);
    SweepingIsInvisible(p, ops);
  }

  // ----- when a ban starts -----

  /** The times at which an address has failed since it was last forgotten. */
  function Times(p: Policy, ops: seq<Op>, ip: Address): seq<int> {
    if ops == [] then []
    else
      var init, op := ops[..|ops| - 1], ops[|ops| - 1];
      if op.ip != ip then Times(p, init, ip)
      else match op
           case Fail(_, now) => Times(p, init, ip) + [now]
           case Success(_, _) => []
           case Blocked(_, now) => if Lapsed(Run(p, init, false), ip, now) then [] else Times(p, init, ip)
  }

  lemma {:induction false} FailureIsCounted(kept: seq<int>, times: seq<int>, cut: int, later: int, t: int)
    requires cut <= later && Recent(kept, later) == Recent(times, later)
    ensures Recent(Recent(kept, cut) + [t], later) == Recent(times + [t], later)
  {
    RecentTwice(kept, cut, later);
    RecentOfLast(times, t, later);
    RecentOfLast(Recent(kept, cut), t, later);
  }

  lemma {:induction false} FailsAreTimes(p: Policy, ops: seq<Op>, ip: Address, now: int)
    requires Ordered(ops) && (ops != [] ==> LastTime(ops) <= now)
    ensures Recent(Fails(Run(p, ops, false), ip), now - p.window) == Recent(Times(p, ops, ip), now - p.window)
    decreases |ops|
  {
    if ops != [] {
      var init, op := ops[..|ops| - 1], ops[|ops| - 1];
      FailsAreTimes(p, init, ip, op.now);
      FailsAreTimes(p, init, ip, now);
      if op == Fail(ip, op.now) {
        FailureIsCounted(Fails(Run(p, init, false), ip), Times(p, init, ip), op.now - p.window, now - p.window, op.now);
      }
    }
  }

  /** A ban starts exactly with the failure that reaches the limit within the window, counted since the address was last
      forgotten. */
  lemma {:induction false} BanStartsIff(p: Policy, ops: seq<Op>, ip: Address, now: int)
    requires p.banFor > 0 && Ordered(ops + [Fail(ip, now)]) && !Live(Run(p, ops, false), ip, now)
    ensures Live(Run(p, ops + [Fail(ip, now)], false), ip, now) <==>
            |Recent(Times(p, ops, ip), now - p.window)| + 1 >= p.maxFails
    ensures Guarded(p, ops + [Fail(ip, now)]) ==>
              (Live(Run(p, ops + [Fail(ip, now)], true), ip, now) <==>
               |Recent(Times(p, ops, ip), now - p.window)| + 1 >= p.maxFails)
  {
    var all := ops + [Fail(ip, now)];
    assert forall i :: 0 <= i < |ops| ==> all[i] == ops[i];
    assert all[|ops|] == Fail(ip, now);
    FailsAreTimes(p, ops, ip, now);
    RunThen(p, ops, Fail(ip, now), false);
    if Guarded(p, all) {
      RunsAgree(p, all, ip, now);
    }
  }

  lemma RunThen(p: Policy, ops: seq<Op>, op: Op, sweeps: bool)
    ensures Run(p, ops + [op], sweeps) == Do(Run(p, ops, sweeps), p, op, sweeps)
  {
    assert (ops + [op])[..|ops|] == ops;
  }

  // ----- a failure for a forgotten address -----

  /** Attempts by a caller that asks first, all at one time. */
  function Attempts(n: nat, ip: Address, now: int): seq<Op> {
    if n == 0 then [] else Attempts(n - 1, ip, now) + [Blocked(ip, now), Fail(ip, now)]
  }

  function AtOnce(n: nat, now: int): seq<int> {
    seq(n, _ => now)
  }

  lemma {:induction false} SameTimesAreRecent(n: nat, now: int, cut: int)
    requires cut <= now
    ensures Recent(AtOnce(n, now), cut) == AtOnce(n, now)
  {
    if n > 0 {
      assert AtOnce(n, now)[..n - 1] == AtOnce(n - 1, now);
      SameTimesAreRecent(n - 1, now, cut);
    }
  }

  lemma {:induction false} AttemptsAreChecked(n: nat, ip: Address, now: int)
    ensures Checked(Attempts(n, ip, now)) && forall op :: op in Attempts(n, ip, now) ==> op.now == now
  {
    if n > 0 {
      AttemptsAreChecked(n - 1, ip, now);
      var before := Attempts(n - 1, ip, now);
      assert forall i :: 0 <= i < |before| ==> Attempts(n, ip, now)[i] == before[i];
    }
  }

  /** One more attempt at the same time by an address that is not banned. */
  lemma {:induction false} OneAttempt(p: Policy, ops: seq<Op>, n: nat, ip: Address, now: int, sweeps: bool)
    requires p.window > 0 && (sweeps ==> now - Run(p, ops, sweeps).lastPrune < p.window)
    requires ip !in Run(p, ops, sweeps).banned && Fails(Run(p, ops, sweeps), ip) == AtOnce(n, now)
    ensures var s := Run(p, ops + [Blocked(ip, now), Fail(ip, now)], sweeps);
            && Fails(s, ip) == AtOnce(n + 1, now) && s.lastPrune == Run(p, ops, sweeps).lastPrune
            && (if n + 1 >= p.maxFails then ip in s.banned && s.banned[ip] == now + p.banFor else ip !in s.banned)
  {
    RunThen(p, ops, Blocked(ip, now), sweeps);
    RunThen(p, ops + [Blocked(ip, now)], Fail(ip, now), sweeps);
    assert ops + [Blocked(ip, now)] + [Fail(ip, now)] == ops + [Blocked(ip, now), Fail(ip, now)];
    SameTimesAreRecent(n, now, now - p.window);
    assert AtOnce(n, now) + [now] == AtOnce(n + 1, now);
  }

  lemma {:induction false} OneMoreAttempt(ops: seq<Op>, k: nat, ip: Address, now: int)
    requires k > 0
    ensures ops + Attempts(k - 1, ip, now) + [Blocked(ip, now), Fail(ip, now)] == ops + Attempts(k, ip, now)
  {}

  lemma {:induction false} ManyAttempts(p: Policy, ops: seq<Op>, n: nat, k: nat, ip: Address, now: int, sweeps: bool)
    requires p.window > 0 && (sweeps ==> now - Run(p, ops, sweeps).lastPrune < p.window)
    requires ip !in Run(p, ops, sweeps).banned && Fails(Run(p, ops, sweeps), ip) == AtOnce(n, now)
    requires n < p.maxFails && n + k <= p.maxFails
    ensures var s := Run(p, ops + Attempts(k, ip, now), sweeps);
            && Fails(s, ip) == AtOnce(n + k, now) && s.lastPrune == Run(p, ops, sweeps).lastPrune
            && (if n + k >= p.maxFails then ip in s.banned && s.banned[ip] == now + p.banFor else ip !in s.banned)
  {
    if k == 0 {
      assert ops + [] == ops;
    } else {
      ManyAttempts(p, ops, n, k - 1, ip, now, sweeps);
      OneAttempt(p, ops + Attempts(k - 1, ip, now), n + k - 1, ip, now, sweeps);
      OneMoreAttempt(ops, k, ip, now);
    }
  }

  /** Where the lapsed ban is still there, the first question clears it, so the first attempt counts as the first. */
  lemma {:induction false} AttemptsAfterLapse(p: Policy, ops: seq<Op>, k: nat, ip: Address, now: int)
    requires p.window > 0 && Lapsed(Run(p, ops, false), ip, now) && 1 <= k < p.maxFails
    ensures var s := Run(p, ops + Attempts(k, ip, now), false);
            Fails(s, ip) == AtOnce(k, now) && ip !in s.banned
  {
    assert ops + Attempts(k - 1, ip, now) + [Blocked(ip, now), Fail(ip, now)] == ops + Attempts(k, ip, now);
    if k == 1 {
      assert ops + Attempts(0, ip, now) == ops;
      RunThen(p, ops, Blocked(ip, now), false);
      RunThen(p, ops + [Blocked(ip, now)], Fail(ip, now), false);
      assert ops + [Blocked(ip, now)] + [Fail(ip, now)] == ops + [Blocked(ip, now), Fail(ip, now)];
      assert [] + [now] == AtOnce(1, now);
    } else {
      AttemptsAfterLapse(p, ops, k - 1, ip, now);
      OneAttempt(p, ops + Attempts(k - 1, ip, now), k - 1, ip, now, false);
    }
  }

  lemma {:induction false} AnswersAlign(p: Policy, ops: seq<Op>)
    ensures |Answers(p, ops, true)| == |Answers(p, ops, false)|
  {
    if ops != [] {
      AnswersAlign(p, ops[..|ops| - 1]);
    }
  }

  /** A question to which the two give different answers. */
  lemma {:induction false} QuestionTells(p: Policy, ops: seq<Op>, ip: Address, now: int)
    requires Live(Run(p, ops, true), ip, now) != Live(Run(p, ops, false), ip, now)
    ensures Answers(p, ops + [Blocked(ip, now)], true) != Answers(p, ops + [Blocked(ip, now)], false)
  {
    AnswersAlign(p, ops);
    var q := ops + [Blocked(ip, now)];
    assert q[..|q| - 1] == ops;
    var n := |Answers(p, ops, true)|;
    assert Answers(p, q, true)[n] != Answers(p, q, false)[n];
  }

  /** The two limiters after a failure for an address that the one has forgotten with the ban that lapsed in the
      other. */
  lemma {:induction false} AfterForgotten(p: Policy, ops: seq<Op>, ip: Address, now: int)
    requires p.window > 0 && 1 < p.maxFails && Ordered(ops) && (ops != [] ==> LastTime(ops) <= now)
    requires Guarded(p, ops) && !Remembered(p, ops, ip, now)
    ensures var s := Run(p, ops + [Fail(ip, now)], true);
            Fails(s, ip) == AtOnce(1, now) && ip !in s.banned && now - s.lastPrune < p.window
    ensures var s := Run(p, ops + [Fail(ip, now)], false);
            if |Recent(Fails(Run(p, ops, false), ip), now - p.window)| + 1 >= p.maxFails
            then ip in s.banned && s.banned[ip] == now + p.banFor else Lapsed(s, ip, now)
  {
    RunsAgree(p, ops, ip, now);
    SweepKeepsAgreement(Run(p, ops, true), Run(p, ops, false), p, now, ip);
    RunThen(p, ops, Fail(ip, now), true);
    RunThen(p, ops, Fail(ip, now), false);
    assert [] + [now] == AtOnce(1, now);
  }

  lemma {:induction false} AttemptsInOrder(ops: seq<Op>, more: seq<Op>, now: int)
    requires Ordered(ops) && (ops != [] ==> LastTime(ops) <= now) && forall op :: op in more ==> op.now == now
    ensures Ordered(ops + more)
  {
    forall i, j | 0 <= i < j < |ops + more| ensures (ops + more)[i].now <= (ops + more)[j].now {
      if j >= |ops| {
        assert (ops + more)[j] in more;
        if i >= |ops| {
          assert (ops + more)[i] in more;
        } else if i < |ops| - 1 {
          assert ops[i].now <= ops[|ops| - 1].now;
        }
      }
    }
  }

  /** The guard is exact: after a guarded run, a failure that breaks it can be told. Whatever the policy and the run,
      there is a continuation by a caller that asks before every further attempt in which the answers differ. */
  lemma {:induction false} ForgettingShows(p: Policy, ops: seq<Op>, ip: Address, now: int) returns (more: seq<Op>)
    requires p.window > 0 && p.banFor > 0 && 1 < p.maxFails && Ordered(ops) && (ops != [] ==> LastTime(ops) <= now)
    requires Guarded(p, ops) && !Guarded(p, ops + [Fail(ip, now)])
    ensures Checked(more) && Ordered(ops + [Fail(ip, now)] + more)
    ensures var all := ops + [Fail(ip, now)] + more; Answers(p, all, true) != Answers(p, all, false)
  {
    var ops1 := ops + [Fail(ip, now)];
    assert ops1[..|ops|] == ops;
    AfterForgotten(p, ops, ip, now);
    AttemptsInOrder(ops, [Fail(ip, now)], now);
    var k := if Live(Run(p, ops1, false), ip, now) then 0 else p.maxFails - 1;
    AttemptsAreChecked(k, ip, now);
    more := Attempts(k, ip, now) + [Blocked(ip, now)];
    AttemptsInOrder(ops1, more, now);
    ManyAttempts(p, ops1, 1, k, ip, now, true);
    if k > 0 {
      AttemptsAfterLapse(p, ops1, k, ip, now);
    } else {
      assert ops1 + Attempts(0, ip, now) == ops1;
    }
    QuestionTells(p, ops1 + Attempts(k, ip, now), ip, now);
    assert ops1 + Attempts(k, ip, now) + [Blocked(ip, now)] == ops1 + more;
    ChecksEnd(Attempts(k, ip, now), Blocked(ip, now));
  }

  lemma {:induction false} ChecksEnd(ops: seq<Op>, op: Op)
    requires Checked(ops) && op.Blocked?
    ensures Checked(ops + [op])
  {
    assert forall i :: 0 <= i < |ops| ==> (ops + [op])[i] == ops[i];
  }

  /** An address that fails up to the limit at once, and fails again unasked when its ban has lapsed and a sweep is
      due. */
  lemma {:induction false} UnaskedFailureBreaksGuard(p: Policy, ip: Address)
    requires p.banFor >= p.window > 0 && 1 < p.maxFails
    ensures var ops := Attempts(p.maxFails, ip, 0);
            Ordered(ops + [Fail(ip, p.banFor)]) && Guarded(p, ops) && !Guarded(p, ops + [Fail(ip, p.banFor)])
  {
    var ops := Attempts(p.maxFails, ip, 0);
    AttemptsAreChecked(p.maxFails, ip, 0);
    CheckedIsGuarded(p, ops);
    AllAtZero(p, ip, true);
    AllAtZero(p, ip, false);
    LapsedIsForgotten(p, ops, ip, p.banFor);
    AttemptsInOrder([], ops, 0);
    assert [] + ops == ops;
    AttemptsInOrder(ops, [Fail(ip, p.banFor)], p.banFor);
  }

  /** A sweep that is due forgets an address whose ban has lapsed. */
  lemma {:induction false} LapsedIsForgotten(p: Policy, ops: seq<Op>, ip: Address, now: int)
    requires Lapsed(Run(p, ops, true), ip, now) && Lapsed(Run(p, ops, false), ip, now)
    requires now - Run(p, ops, true).lastPrune >= p.window
    ensures !Guarded(p, ops + [Fail(ip, now)])
  {
    assert (ops + [Fail(ip, now)])[..|ops|] == ops;
    SweepOfBan(Run(p, ops, true).(lastPrune := now), p, now, ip);
  }

  /** Both limiters of the program can be told from ones that never sweep. */
  lemma {:induction false} BothPoliciesShow(p: Policy, ip: Address) returns (ops: seq<Op>)
    requires p == AGENT_POLICY || p == LOGIN_POLICY
    ensures Ordered(ops) && Answers(p, ops, true) != Answers(p, ops, false)
  {
    var burst := Attempts(p.maxFails, ip, 0);
    UnaskedFailureBreaksGuard(p, ip);
    AttemptsAreChecked(p.maxFails, ip, 0);
    AttemptsInOrder([], burst, 0);
    assert [] + burst == burst;
    var more := ForgettingShows(p, burst, ip, p.banFor);
    ops := burst + [Fail(ip, p.banFor)] + more;
  }

  lemma {:induction false} AllAtZero(p: Policy, ip: Address, sweeps: bool)
    requires p.window > 0 && 1 < p.maxFails
    ensures var s := Run(p, Attempts(p.maxFails, ip, 0), sweeps);
            ip in s.banned && s.banned[ip] == p.banFor && s.lastPrune == 0
  {
    assert [] + Attempts(p.maxFails, ip, 0) == Attempts(p.maxFails, ip, 0);
    ManyAttempts(p, [], 0, p.maxFails, ip, 0, sweeps);
  }

  // ----- what is kept stays bounded -----

  /** Every address kept has failed, or has a ban that was live, since a window before the last sweep. */
  ghost predicate Fresh(s: State, p: Policy) {
    && (forall ip :: ip in s.fails ==>
                       (exists t :: t in s.fails[ip] && t >= s.lastPrune - p.window) ||
                       (ip in s.banned && s.banned[ip] > s.lastPrune))
    && (forall ip :: ip in s.banned ==> s.banned[ip] > s.lastPrune)
  }

  lemma {:induction false} SweepMakesFresh(s: State, p: Policy, now: int)
    ensures Fresh(Swept(s.(lastPrune := now), p, now), p)
  {
    var s' := Swept(s.(lastPrune := now), p, now);
    forall ip | ip in s'.fails
      ensures (exists t :: t in s'.fails[ip] && t >= now - p.window) || (ip in s'.banned && s'.banned[ip] > now)
    {
      var keep := Recent(s.fails[ip], now - p.window);
      RecentMembers(s.fails[ip], now - p.window);
      if keep != [] {
        assert s'.fails[ip] == keep;
        assert keep[0] in s'.fails[ip] && keep[0] >= now - p.window;
      } else {
        assert Live(s, ip, now) && ip !in LapsedBans(s.banned, now);
      }
    }
  }

  lemma {:induction false} RecordKeepsFresh(s: State, p: Policy, at: Address, now: int)
    requires Fresh(s, p) && s.lastPrune <= now && p.banFor > 0 && p.window > 0
    ensures Fresh(Recorded(s, p, at, now), p)
  {
    var s' := Recorded(s, p, at, now);
    assert now in s'.fails[at];
    forall ip | ip in s'.fails
      ensures (exists t :: t in s'.fails[ip] && t >= s.lastPrune - p.window) ||
              (ip in s'.banned && s'.banned[ip] > s.lastPrune)
    {
      if ip != at {
        assert ip in s.fails && s'.fails[ip] == s.fails[ip];
      }
    }
  }

  lemma {:induction false} OpKeepsFresh(s: State, p: Policy, op: Op)
    requires Fresh(s, p) && s.lastPrune <= op.now && p.banFor > 0 && p.window > 0
    ensures Fresh(Do(s, p, op, true), p) && Do(s, p, op, true).lastPrune <= op.now
    ensures op.Fail? ==> op.now - Do(s, p, op, true).lastPrune < p.window
  {
    if op.Fail? {
      SweepMakesFresh(s, p, op.now);
      RecordKeepsFresh(MaybeSwept(s, p, op.now), p, op.ip, op.now);
    }
  }

  lemma {:induction false} RunsStayFresh(p: Policy, ops: seq<Op>)
    requires Ordered(ops) && (ops != [] ==> ops[0].now >= 0) && p.banFor > 0 && p.window > 0
    ensures Fresh(Run(p, ops, true), p)
    ensures Run(p, ops, true).lastPrune <= LastTime(ops)
    ensures ops != [] && ops[|ops| - 1].Fail? ==> LastTime(ops) - Run(p, ops, true).lastPrune < p.window
  {
    if ops != [] {
      RunsStayFresh(p, ops[..|ops| - 1]);
      OpKeepsFresh(Run(p, ops[..|ops| - 1], true), p, ops[|ops| - 1]);
    }
  }

  /** After any failure, every address kept has failed within the last two windows, or has a ban that was live within
      the last one: addresses that come once do not pile up. */
  lemma {:induction false} KeptIsRecent(p: Policy, ops: seq<Op>, ip: Address)
    requires Ordered(ops) && ops != [] && ops[0].now >= 0 && ops[|ops| - 1].Fail? && p.banFor > 0 && p.window > 0
    requires ip in Run(p, ops, true).fails || ip in Run(p, ops, true).banned
    ensures var s, now := Run(p, ops, true), LastTime(ops);
            (exists t :: t in Fails(s, ip) && t > now - 2 * p.window) ||
            (ip in s.banned && s.banned[ip] > now - p.window)
  {
    RunsStayFresh(p, ops);
    var s := Run(p, ops, true);
    if ip !in s.banned {
      var t :| t in s.fails[ip] && t >= s.lastPrune - p.window;
      assert t in Fails(s, ip);
    }
  }
}
