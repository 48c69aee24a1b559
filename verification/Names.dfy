/** Numbers in decimal, and the names and keys that are made of them. */
module Names {
  import opened Options
  import opened Collections

  const MIN_INT64 := -0x8000_0000_0000_0000
  const MAX_INT64 := 0x7fff_ffff_ffff_ffff

  predicate Int64(n: int) {
    MIN_INT64 <= n <= MAX_INT64
  }

  predicate IsDigit(c: char) {
    '0' <= c <= '9'
  }

  function Digits(n: nat): (s: string)
    ensures s != [] && forall i :: 0 <= i < |s| ==> IsDigit(s[i])
    ensures s[0] == '0' <==> n == 0
  {
    if n < 10 then [('0' as int + n) as char] else Digits(n / 10) + [('0' as int + n % 10) as char]
  }

  function Itoa(n: int): string {
    if n < 0 then "-" + Digits(-n) else Digits(n)
  }

  function DigitValue(s: string): (v: Option<nat>)
    ensures v.Some? <==> s != [] && forall i :: 0 <= i < |s| ==> IsDigit(s[i])
  {
    if s == [] then None
    else if !IsDigit(s[|s| - 1]) then None
    else if |s| == 1 then Some(s[0] as int - '0' as int)
    else match DigitValue(s[..|s| - 1])
         case None => None
         case Some(v) => Some(10 * v + (s[|s| - 1] as int - '0' as int))
  }

  /** Base ten with an optional sign. */
  function IntValue(s: string): Option<int> {
    var neg := s != [] && s[0] == '-';
    var signed := s != [] && (s[0] == '-' || s[0] == '+');
    match DigitValue(if signed then s[1..] else s)
    case None => None
    case Some(v) => Some(if neg then -(v as int) else v as int)
  }

  /** The same, within 64 bits. */
  function ParseInt(s: string): Option<int> {
    match IntValue(s)
    case None => None
    case Some(n) => if Int64(n) then Some(n) else None
  }

  lemma {:induction false} DigitsReadBack(n: nat)
    ensures DigitValue(Digits(n)) == Some(n)
  {
    if n >= 10 {
      DigitsReadBack(n / 10);
      assert Digits(n)[..|Digits(n)| - 1] == Digits(n / 10);
    }
  }

  lemma {:induction false} ItoaParts(n: int)
    ensures Itoa(n) != [] && (n < 0 <==> Itoa(n)[0] == '-')
    ensures n < 0 ==> Itoa(n)[1..] == Digits(-n)
    ensures Itoa(n)[0] != '+'
    ensures forall i :: 0 <= i < |Itoa(n)| ==> IsDigit(Itoa(n)[i]) || Itoa(n)[i] == '-'
  {}

  /** Exactly the 64-bit numbers survive being written and read. */
  lemma {:induction false} ParseItoa(n: int)
    ensures ParseInt(Itoa(n)) == if Int64(n) then Some(n) else None
  {
    ItoaParts(n);
    if n < 0 {
      DigitsReadBack(-n);
    } else {
      DigitsReadBack(n);
    }
  }

  /** As numbers are printed: digits without a leading zero, behind a minus sign if need be. */
  predicate IsDecimal(s: string) {
    var d := if s != [] && s[0] == '-' then s[1..] else s;
    DigitValue(d).Some? && (d[0] == '0' ==> s == "0")
  }

  lemma {:induction false} DigitsOfMore(v: nat, c: char)
    requires v > 0 && IsDigit(c)
    ensures Digits(10 * v + (c as int - '0' as int)) == Digits(v) + [c]
  {
    var k := c as int - '0' as int;
    assert (10 * v + k) / 10 == v && (10 * v + k) % 10 == k;
  }

  lemma {:induction false} DigitsWriteBack(d: string)
    requires DigitValue(d).Some? && (d[0] == '0' ==> |d| == 1)
    ensures Digits(DigitValue(d).value) == d
  {
    if |d| > 1 {
      var init := d[..|d| - 1];
      DigitsWriteBack(init);
      DigitsOfMore(DigitValue(init).value, d[|d| - 1]);
      assert d == init + [d[|d| - 1]];
    }
  }

  lemma {:induction false} ItoaIsDecimal(n: int)
    ensures IsDecimal(Itoa(n)) && IntValue(Itoa(n)) == Some(n)
  {
    ItoaParts(n);
    DigitsReadBack(if n < 0 then -n else n);
  }

  lemma {:induction false} DecimalIsPrinted(s: string)
    requires IsDecimal(s)
    ensures IntValue(s).Some? && s == Itoa(IntValue(s).value)
  {
    if s[0] == '-' {
      DigitsWriteBack(s[1..]);
      assert s == "-" + s[1..];
    } else {
      DigitsWriteBack(s);
    }
  }

  /** A number has one decimal, and that is the one printed. */
  lemma {:induction false} ItoaIff(s: string, n: int)
    ensures s == Itoa(n) <==> IsDecimal(s) && IntValue(s) == Some(n)
  {
    ItoaIsDecimal(n);
    if IsDecimal(s) {
      DecimalIsPrinted(s);
    }
  }

  lemma {:induction false} DigitsAreInjective(m: nat, n: nat)
    requires Digits(m) == Digits(n)
    ensures m == n
  {
    DigitsReadBack(m);
    DigitsReadBack(n);
  }

  lemma {:induction false} ItoaIsInjective(m: int, n: int)
    requires Itoa(m) == Itoa(n)
    ensures m == n
  {
    ItoaParts(m);
    ItoaParts(n);
    if m < 0 {
      DigitsAreInjective(-m, -n);
    } else {
      DigitsAreInjective(m, n);
    }
  }

  // ----- proxy names -----

  function ProxyName(mapping: int, node: int): string {
    "m" + Itoa(mapping) + "_n" + Itoa(node)
  }

  /** The place of the first `c`, or the length if there is none. */
  function IndexOf(s: string, c: char): (i: nat)
    ensures i <= |s| && (i < |s| ==> s[i] == c) && forall k :: 0 <= k < i ==> s[k] != c
  {
    if s == [] || s[0] == c then 0 else 1 + IndexOf(s[1..], c)
  }

  function ParseProxyName(name: string): Option<(int, int)> {
    if name == [] || name[0] != 'm' then None
    else
      var rest := name[1..];
      var i := IndexOf(rest, '_');
      if i == |rest| || i + 1 >= |rest| || rest[i + 1] != 'n' then None
      else match (ParseInt(rest[..i]), ParseInt(rest[i + 2..]))
           case (Some(m), Some(n)) => Some((m, n))
           case _ => None
  }

  lemma {:induction false} FirstAt(a: string, c: char, b: string)
    requires forall k :: 0 <= k < |a| ==> a[k] != c
    ensures IndexOf(a + [c] + b, c) == |a|
  {
    var s := a + [c] + b;
    assert s[|a|] == c && forall k :: 0 <= k < |a| ==> s[k] == a[k];
  }

  /** A name is split at its first underscore. */
  lemma {:induction false} ParseParts(a: string, b: string)
    requires forall k :: 0 <= k < |a| ==> a[k] != '_'
    ensures ParseProxyName("m" + a + "_n" + b) ==
            match (ParseInt(a), ParseInt(b))
            case (Some(m), Some(n)) => Some((m, n))
            case _ => None
  {
    var rest := a + ['_'] + (['n'] + b);
    assert "m" + a + "_n" + b == "m" + rest;
    assert ("m" + rest)[1..] == rest;
    FirstAt(a, '_', ['n'] + b);
    assert rest[..|a|] == a && rest[|a| + 1] == 'n' && rest[|a| + 2..] == b;
  }

  ghost predicate IsNameOf(name: string, a: string, b: string) {
    '_' !in a && name == "m" + a + "_n" + b
  }

  lemma {:induction false} WholeOfParts(name: string, i: nat)
    requires i + 3 <= |name| && name[0] == 'm' && name[i + 1] == '_' && name[i + 2] == 'n'
    ensures name == "m" + name[1..i + 1] + "_n" + name[i + 3..]
    ensures name[1..][..i] == name[1..i + 1] && name[1..][i + 2..] == name[i + 3..]
  {}

  lemma {:induction false} PartsOf(name: string) returns (a: string, b: string)
    requires ParseProxyName(name).Some?
    ensures IsNameOf(name, a, b) && Some(ParseProxyName(name).value.0) == ParseInt(a)
    ensures Some(ParseProxyName(name).value.1) == ParseInt(b)
  {
    var i := IndexOf(name[1..], '_');
    WholeOfParts(name, i);
    a, b := name[1..i + 1], name[i + 3..];
  }

  /** Exactly the names of this form are the panel's: two 64-bit numbers, each behind its letter. */
  lemma {:induction false} ParsesIff(name: string, m: int, n: int)
    ensures ParseProxyName(name) == Some((m, n)) <==>
            exists a, b :: IsNameOf(name, a, b) && ParseInt(a) == Some(m) && ParseInt(b) == Some(n)
  {
    if ParseProxyName(name) == Some((m, n)) {
      var a, b := PartsOf(name);
    }
    forall a, b | IsNameOf(name, a, b) && ParseInt(a) == Some(m) && ParseInt(b) == Some(n)
      ensures ParseProxyName(name) == Some((m, n))
    {
      ParseParts(a, b);
    }
  }

  ghost predicate IsPanelName(name: string) {
    exists a, b :: IsNameOf(name, a, b) && ParseInt(a).Some? && ParseInt(b).Some?
  }

  /** A proxy that is not named so is foreign. */
  lemma {:induction false} ForeignIff(name: string)
    ensures ParseProxyName(name) == None <==> !IsPanelName(name)
  {
    if ParseProxyName(name).Some? {
      var a, b := PartsOf(name);
      assert IsNameOf(name, a, b) && ParseInt(a).Some? && ParseInt(b).Some?;
    }
    if a, b :| IsNameOf(name, a, b) && ParseInt(a).Some? && ParseInt(b).Some? {
      ParsesIff(name, ParseInt(a).value, ParseInt(b).value);
    }
  }

  /** A name yields back the numbers it was made of, exactly if both are 64-bit numbers. */
  lemma {:induction false} ParseOfName(m: int, n: int)
    ensures ParseProxyName(ProxyName(m, n)) == if Int64(m) && Int64(n) then Some((m, n)) else None
  {
    ItoaParts(m);
    ParseItoa(m);
    ParseItoa(n);
    ParseParts(Itoa(m), Itoa(n));
  }

  lemma {:induction false} SplitName(a: string, b: string, a': string, b': string)
    requires (forall k :: 0 <= k < |a| ==> a[k] != '_') && (forall k :: 0 <= k < |a'| ==> a'[k] != '_')
    requires "m" + a + "_n" + b == "m" + a' + "_n" + b'
    ensures a == a' && b == b'
  {
    var s, s' := a + ['_'] + (['n'] + b), a' + ['_'] + (['n'] + b');
    assert s == ("m" + a + "_n" + b)[1..] && s' == ("m" + a' + "_n" + b')[1..];
    FirstAt(a, '_', ['n'] + b);
    FirstAt(a', '_', ['n'] + b');
    assert a == s[..|a|] && a' == s'[..|a'|] && b == s[|a| + 2..] && b' == s'[|a'| + 2..];
  }

  lemma {:induction false} NamesAreDistinct(m: int, n: int, m': int, n': int)
    requires ProxyName(m, n) == ProxyName(m', n')
    ensures m == m' && n == n'
  {
    ItoaParts(m);
    ItoaParts(m');
    SplitName(Itoa(m), Itoa(n), Itoa(m'), Itoa(n'));
    ItoaIsInjective(m, m');
    ItoaIsInjective(n, n');
  }

  // ----- keys of live statuses -----

  function LiveKey(node: int, port: int): string {
    Itoa(node) + ":" + Itoa(port)
  }

  predicate HasPrefix(s: string, prefix: string) {
    |s| >= |prefix| && s[..|prefix|] == prefix
  }

  lemma {:induction false} PrefixParts(a: string, b: string, c: string)
    requires forall k :: 0 <= k < |a| ==> a[k] != ':'
    requires forall k :: 0 <= k < |b| ==> b[k] != ':'
    ensures HasPrefix(b + ":" + c, a + ":") <==> a == b
  {
    var key := b + ":" + c;
    if HasPrefix(key, a + ":") {
      assert (a + ":")[|a|] == ':' && key[|a|] == ':';
      assert key[|b|] == ':' && forall k :: 0 <= k < |b| ==> key[k] == b[k];
      assert forall k :: 0 <= k < |a| ==> key[k] == (a + ":")[k] == a[k];
      assert |a| == |b|;
    }
  }

  /** A node's prefix matches exactly its own keys: node 1 is not taken for node 12. */
  lemma {:induction false} PrefixIsOwn(node: int, other: int, port: int)
    ensures HasPrefix(LiveKey(other, port), Itoa(node) + ":") <==> node == other
  {
    ItoaParts(other);
    ItoaParts(node);
    PrefixParts(Itoa(node), Itoa(other), Itoa(port));
    if Itoa(node) == Itoa(other) {
      ItoaIsInjective(node, other);
    }
  }

  lemma {:induction false} LiveKeysAreDistinct(node: int, port: int, node': int, port': int)
    requires LiveKey(node, port) == LiveKey(node', port')
    ensures node == node' && port == port'
  {
    PrefixIsOwn(node, node', port');
    PrefixIsOwn(node, node, port);
    var key := LiveKey(node, port);
    assert key[|Itoa(node)| + 1..] == Itoa(port);
    assert LiveKey(node', port')[|Itoa(node)| + 1..] == Itoa(port');
    ItoaIsInjective(port, port');
  }

  function Status(live: map<string, string>, node: int, port: int): string {
    if LiveKey(node, port) in live then live[LiveKey(node, port)] else ""
  }

  /** The status last reported for a tunnel. */
  function Told(told: map<(int, int), string>, node: int, port: int): string {
    if (node, port) in told then told[(node, port)] else ""
  }

  function OwnKeys(keys: set<string>, node: int): set<string> {
    set k | k in keys && HasPrefix(k, Itoa(node) + ":")
  }

  /** The table with keys made of digits stands for one with pairs of numbers as keys. */
  ghost predicate StandsFor(live: map<string, string>, told: map<(int, int), string>) {
    forall node, port :: Status(live, node, port) == Told(told, node, port)
  }

  lemma {:induction false} SettingStandsFor(live: map<string, string>, told: map<(int, int), string>, node: int,
                                            port: int,
                                            status: string)
    requires StandsFor(live, told)
    ensures StandsFor(live[LiveKey(node, port) := status], told[(node, port) := status])
    ensures status == Status(live, node, port) ==> StandsFor(live, told[(node, port) := status])
  {
    forall n, p
      ensures Status(live[LiveKey(node, port) := status], n, p) == Told(told[(node, port) := status], n, p)
      ensures status == Status(live, node, port) ==> Status(live, n, p) == Told(told[(node, port) := status], n, p)
    {
      assert Status(live, n, p) == Told(told, n, p);
      if LiveKey(n, p) == LiveKey(node, port) {
        LiveKeysAreDistinct(n, p, node, port);
      } else {
        assert (n, p) != (node, port);
      }
    }
  }

  /** Without the tunnels of one node. */
  function Others(told: map<(int, int), string>, node: int): map<(int, int), string> {
    map k | k in told && k.0 != node :: told[k]
  }

  lemma {:induction false} ClearingStandsFor(live: map<string, string>, told: map<(int, int), string>, node: int)
    requires StandsFor(live, told)
    ensures StandsFor(live - OwnKeys(live.Keys, node), Others(told, node))
  {
    forall n, p ensures Status(live - OwnKeys(live.Keys, node), n, p) == Told(Others(told, node), n, p) {
      PrefixIsOwn(node, n, p);
      assert Status(live, n, p) == Told(told, n, p);
      assert LiveKey(n, p) in OwnKeys(live.Keys, node) <==> LiveKey(n, p) in live && n == node;
      assert Told(Others(told, node), n, p) == if n == node then "" else Told(told, n, p);
    }
  }

  /** The statuses of tunnels, by key. `told` is history: what has been reported for each tunnel since its node was last
      cleared. */
  class LiveTable {
    var live: map<string, string>
    ghost var told: map<(int, int), string>

    ghost predicate Valid()
      reads this
    {
      StandsFor(live, told)
    }

    constructor ()
      ensures Valid() && told == map[]
    {
      live, told := map[], map[];
    }

    /** Tells whether the status is not the one last reported for this very tunnel. */
    method SetLive(node: int, port: int, status: string) returns (changed: bool)
      requires Valid()
      modifies this
      ensures Valid() && told == old(told)[(node, port) := status]
      ensures changed <==> status != Told(old(told), node, port)
    {
      var k := LiveKey(node, port);
      changed := (if k in live then live[k] else "") != status;
      SettingStandsFor(live, told, node, port, status);
      told := told[(node, port) := status];
      if changed {
        live := live[k := status];
      }
    }

    /** The status last reported for this very tunnel, or none. */
    method GetLive(node: int, port: int) returns (status: string)
      requires Valid()
      ensures status == Told(told, node, port)
    {
      var k := LiveKey(node, port);
      assert Status(live, node, port) == Told(told, node, port);
      status := if k in live then live[k] else "";
    }

    /** Drops the statuses of a node's own tunnels, and no others. */
    method ClearLiveForNode(node: int)
      requires Valid()
      modifies this
      ensures Valid() && told == Others(old(told), node)
    {
      var prefix := Itoa(node) + ":";
      var todo, all := live.Keys, live;
      while todo != {}
        invariant todo <= all.Keys && told == old(told)
        invariant live == all - (OwnKeys(all.Keys, node) - todo)
        decreases todo
      {
        var k := AnyOf(todo);
        if HasPrefix(k, prefix) {
          live := live - {k};
        }
        todo := todo - {k};
      }
      assert OwnKeys(all.Keys, node) - todo == OwnKeys(all.Keys, node);
      ClearingStandsFor(all, told, node);
      told := Others(told, node);
    }
  }

  /** The lowest measured latency of a node's own tunnels; failing that, the latency of its control link. Unknown and
      timed-out values (zero and below) do not count, and neither do other nodes' tunnels. */
  method NodeLatency(linkLat: map<string, int>, ctrlLat: map<int, int>, node: int) returns (ms: int)
    ensures forall port :: LiveKey(node, port) in linkLat ==>
                             linkLat[LiveKey(node, port)] <= 0 || ms <= linkLat[LiveKey(node, port)]
    ensures (exists k :: k in OwnKeys(linkLat.Keys, node) && linkLat[k] == ms > 0) ||
            (ms == (if node in ctrlLat then ctrlLat[node] else 0) && forall k :: k in OwnKeys(linkLat.Keys, node) ==>
                                                                                   linkLat[k] <= 0)
  {
    var prefix := Itoa(node) + ":";
    var todo, best := linkLat.Keys, 0;
    while todo != {}
      invariant todo <= linkLat.Keys && best >= 0
      invariant best > 0 ==> exists k :: k in OwnKeys(linkLat.Keys, node) && linkLat[k] == best
      invariant forall k :: k in OwnKeys(linkLat.Keys, node) && k !in todo ==> linkLat[k] <= 0 || 0 < best <= linkLat[k]
      decreases todo
    {
      var k := AnyOf(todo);
      if HasPrefix(k, prefix) && linkLat[k] > 0 && (best == 0 || linkLat[k] < best) {
        best := linkLat[k];
      }
      todo := todo - {k};
    }
    forall port | LiveKey(node, port) in linkLat
      ensures linkLat[LiveKey(node, port)] <= 0 || 0 < best <= linkLat[LiveKey(node, port)]
    {
      PrefixIsOwn(node, node, port);
    }
    ms := if best > 0 then best else if node in ctrlLat then ctrlLat[node] else 0;
  }
}
