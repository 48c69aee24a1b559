/** Records as lines of a file: what a scan reads back from whole, torn and glued lines. */
module Framing {
  import opened Options

  newtype byte = n: int | 0 <= n < 256

  const NL: byte := 10
  const CR: byte := 13

  /** The record format is library code: all that is known of it is `Sound`. */
  datatype Codec<!T> = Codec(enc: T -> seq<byte>, dec: seq<byte> -> Option<T>)

  /** A record is one nonempty line that reads back as itself; a part of a line, or a part glued
      to the next line, reads as nothing. */
  ghost predicate Sound<T(!new)>(c: Codec<T>) {
    && (forall r :: c.enc(r) != [] && NL !in c.enc(r) && CR !in c.enc(r) && c.dec(c.enc(r)) == Some(r))
    && (forall r, k :: 0 < k < |c.enc(r)| ==> c.dec(c.enc(r)[..k]) == None)
    && (forall r, next, k :: 0 < k <= |c.enc(r)| ==> c.dec(c.enc(r)[..k] + c.enc(next)) == None)
  }

  function Line<T>(c: Codec<T>, r: T): seq<byte> {
    c.enc(r) + [NL]
  }

  function Lines<T>(c: Codec<T>, rs: seq<T>): seq<byte> {
    if rs == [] then [] else Lines(c, rs[..|rs| - 1]) + Line(c, rs[|rs| - 1])
  }

  /** A line without the carriage return that a line scanner strips. */
  function Stripped(line: seq<byte>): seq<byte> {
    if line != [] && line[|line| - 1] == CR then line[..|line| - 1] else line
  }

  /** What one line yields: empty and corrupt lines are passed over. */
  function ReadLine<T>(c: Codec<T>, line: seq<byte>): seq<T> {
    var l := Stripped(line);
    if l == [] then []
    else match c.dec(l)
         case Some(r) => [r]
         case None => []
  }

  /** The records read from `file` when `line` has been read of the current line. */
  function ScanFrom<T>(c: Codec<T>, line: seq<byte>, file: seq<byte>): seq<T>
    decreases |file|
  {
    if file == [] then ReadLine(c, line)
    else if file[0] == NL then ReadLine(c, line) + ScanFrom(c, [], file[1..])
    else ScanFrom(c, line + [file[0]], file[1..])
  }

  function Scan<T>(c: Codec<T>, file: seq<byte>): seq<T> {
    ScanFrom(c, [], file)
  }

  lemma {:induction false} ScanText<T>(c: Codec<T>, line: seq<byte>, text: seq<byte>, file: seq<byte>)
    requires NL !in text
    ensures ScanFrom(c, line, text + file) == ScanFrom(c, line + text, file)
    decreases |text|
  {
    if text == [] {
      assert text + file == file && line + text == line;
    } else {
      assert text[0] in text;
      assert (text + file)[1..] == text[1..] + file;
      assert line + [text[0]] + text[1..] == line + text;
      ScanText(c, line + [text[0]], text[1..], file);
    }
  }

  /** A line that ends yields its record, whatever follows. */
  lemma {:induction false} ScanLine<T>(c: Codec<T>, text: seq<byte>, file: seq<byte>)
    requires NL !in text
    ensures Scan(c, text + [NL] + file) == ReadLine(c, text) + Scan(c, file)
  {
    var rest := [NL] + file;
    assert text + [NL] + file == text + rest;
    ScanText(c, [], text, rest);
    assert [] + text == text && rest[1..] == file;
  }

  lemma {:induction false} ScanTail<T>(c: Codec<T>, text: seq<byte>)
    requires NL !in text
    ensures Scan(c, text) == ReadLine(c, text)
  {
    ScanText(c, [], text, []);
    assert text + [] == text && [] + text == text;
  }

  lemma {:induction false} ReadWhole<T(!new)>(c: Codec<T>, r: T)
    requires Sound(c)
    ensures ReadLine(c, c.enc(r)) == [r]
  {
    var e := c.enc(r);
    assert e[|e| - 1] in e;
  }

  /** A record reads back as well from a line that ends with a carriage return. */
  lemma {:induction false} ReadWithReturn<T(!new)>(c: Codec<T>, r: T, file: seq<byte>)
    requires Sound(c)
    ensures Scan(c, c.enc(r) + [CR] + [NL] + file) == [r] + Scan(c, file)
  {
    var text := c.enc(r) + [CR];
    assert Stripped(text) == c.enc(r);
    ScanLine(c, text, file);
  }

  lemma {:induction false} ReadTorn<T(!new)>(c: Codec<T>, r: T, k: nat)
    requires Sound(c) && k < |c.enc(r)|
    ensures ReadLine(c, c.enc(r)[..k]) == []
  {
    var t := c.enc(r)[..k];
    if t != [] {
      assert t[|t| - 1] in c.enc(r);
    }
  }

  lemma {:induction false} ReadGlued<T(!new)>(c: Codec<T>, r: T, k: nat, next: T)
    requires Sound(c) && 0 < k <= |c.enc(r)|
    ensures ReadLine(c, c.enc(r)[..k] + c.enc(next)) == []
  {
    var t := c.enc(r)[..k] + c.enc(next);
    assert t[|t| - 1] == c.enc(next)[|c.enc(next)| - 1];
    assert t[|t| - 1] in c.enc(next);
  }

  /** Whole lines in front are read first, and do not touch what follows. */
  lemma {:induction false} ScanLines<T(!new)>(c: Codec<T>, rs: seq<T>, file: seq<byte>)
    requires Sound(c)
    ensures Scan(c, Lines(c, rs) + file) == rs + Scan(c, file)
    decreases |rs|
  {
    if rs == [] {
      assert Lines(c, rs) + file == file;
    } else {
      var init, last := rs[..|rs| - 1], rs[|rs| - 1];
      var rest := Line(c, last) + file;
      assert Lines(c, rs) + file == Lines(c, init) + rest;
      ScanLines(c, init, rest);
      ScanLine(c, c.enc(last), file);
      ReadWhole(c, last);
      assert rs == init + [last];
      assert init + ([last] + Scan(c, file)) == rs + Scan(c, file);
    }
  }

  /** A file written by any number of appends reads back as the appended records, in order. */
  lemma {:induction false} ScanOfAppends<T(!new)>(c: Codec<T>, rs: seq<T>)
    requires Sound(c)
    ensures Scan(c, Lines(c, rs)) == rs
  {
    ScanLines(c, rs, []);
    assert Lines(c, rs) + [] == Lines(c, rs);
    assert rs + Scan(c, []) == rs;
  }

  lemma {:induction false} LinesFromFront<T>(c: Codec<T>, rs: seq<T>)
    requires rs != []
    ensures Lines(c, rs) == Line(c, rs[0]) + Lines(c, rs[1..])
    decreases |rs|
  {
    if |rs| == 1 {
      assert rs[..0] == [] && rs[1..] == [];
    } else {
      var init, last := rs[..|rs| - 1], rs[|rs| - 1];
      LinesFromFront(c, init);
      assert init[1..] == rs[1..][..|rs| - 2];
      assert rs[1..][|rs| - 2] == last;
    }
  }

  /** A write torn after `k` of its bytes, and the appends after the restart. A tear at either end does no harm;
      any other loses the torn record and, as that is glued to it, the first record appended afterwards, and
      nothing else. Until something is appended, a record that lacks only its newline still reads back. */
  function AfterTear<T>(c: Codec<T>, r: T, k: nat, later: seq<T>): seq<T> {
    if k == 0 then later
    else if k == |Line(c, r)| then [r] + later
    else if later != [] then later[1..]
    else if k == |c.enc(r)| then [r]
    else []
  }

  lemma {:induction false} ScanTornTail<T(!new)>(c: Codec<T>, r: T, k: nat, later: seq<T>)
    requires Sound(c) && 0 < k <= |c.enc(r)|
    ensures Scan(c, Line(c, r)[..k] + Lines(c, later)) == AfterTear(c, r, k, later)
  {
    var torn := c.enc(r)[..k];
    assert Line(c, r)[..k] == torn;
    if later == [] {
      assert torn + Lines(c, later) == torn;
      ScanTail(c, torn);
      if k == |c.enc(r)| {
        assert torn == c.enc(r);
        ReadWhole(c, r);
      } else {
        ReadTorn(c, r, k);
      }
    } else {
      var glued := torn + c.enc(later[0]);
      LinesFromFront(c, later);
      assert torn + Lines(c, later) == glued + [NL] + Lines(c, later[1..]);
      ScanLine(c, glued, Lines(c, later[1..]));
      ReadGlued(c, r, k, later[0]);
      ScanOfAppends(c, later[1..]);
    }
  }

  /** Exactly what survives a write torn at any byte, followed by any number of appends. */
  lemma {:induction false} ScanOfTornWrite<T(!new)>(c: Codec<T>, before: seq<T>, r: T, k: nat, later: seq<T>)
    requires Sound(c) && k <= |Line(c, r)|
    ensures Scan(c, Lines(c, before) + Line(c, r)[..k] + Lines(c, later)) == before + AfterTear(c, r, k, later)
  {
    var tail := Line(c, r)[..k] + Lines(c, later);
    assert Lines(c, before) + Line(c, r)[..k] + Lines(c, later) == Lines(c, before) + tail;
    ScanLines(c, before, tail);
    if k == 0 {
      assert tail == Lines(c, later);
      ScanOfAppends(c, later);
    } else if k == |Line(c, r)| {
      assert tail == c.enc(r) + [NL] + Lines(c, later);
      ScanLine(c, c.enc(r), Lines(c, later));
      ReadWhole(c, r);
      ScanOfAppends(c, later);
    } else {
      ScanTornTail(c, r, k, later);
    }
  }

  // ----- lists of bits as digits between braces -----

  const OPEN: byte := 123
  const CLOSE: byte := 125

  predicate Digits(b: seq<byte>) {
    forall i :: 0 <= i < |b| ==> b[i] == 48 || b[i] == 49
  }

  function Braced(x: seq<bool>): seq<byte> {
    [OPEN] + seq(|x|, i requires 0 <= i < |x| => if x[i] then 49 else 48) + [CLOSE]
  }

  function Unbraced(b: seq<byte>): Option<seq<bool>> {
    if |b| >= 2 && b[0] == OPEN && b[|b| - 1] == CLOSE && Digits(b[1..|b| - 1]) then
      Some(seq(|b| - 2, i requires 0 <= i < |b| - 2 => b[i + 1] == 49))
    else None
  }

  lemma {:induction false} BracedBytes(x: seq<bool>)
    ensures Braced(x)[1..|x| + 1] == seq(|x|, i requires 0 <= i < |x| => if x[i] then 49 else 48)
    ensures forall b :: b in Braced(x) ==> b == OPEN || b == CLOSE || b == 48 || b == 49
  {}

  lemma {:induction false} BracedReads(x: seq<bool>)
    ensures NL !in Braced(x) && CR !in Braced(x) && Unbraced(Braced(x)) == Some(x)
  {
    BracedBytes(x);
    var b := Braced(x);
    assert |b| - 1 == |x| + 1;
    assert forall i :: 0 <= i < |x| ==> b[i + 1] == if x[i] then 49 else 48;
    assert Unbraced(b).value == x;
  }

  lemma {:induction false} BracedTorn(x: seq<bool>, k: nat)
    requires 0 < k < |Braced(x)|
    ensures Unbraced(Braced(x)[..k]) == None
  {
    assert Braced(x)[..k][k - 1] == Braced(x)[k - 1] != CLOSE;
  }

  lemma {:induction false} BracedGlued(x: seq<bool>, k: nat, y: seq<bool>)
    requires 0 < k <= |Braced(x)|
    ensures Unbraced(Braced(x)[..k] + Braced(y)) == None
  {
    var b := Braced(x)[..k] + Braced(y);
    assert b[1..|b| - 1][k - 1] == b[k] == OPEN;
  }
}
