/** The bytes that a message's signature covers, and what verifying it establishes. */
module Signing {
  import opened Options
  import opened Names

  const REPLAY_TOLERANCE_SEC := 60

  /** What an envelope says, without its signature. */
  datatype Message = Message(ver: int, typ: string, id: string, ts: int, nonce: string, payload: string)

  datatype VerifyError = BadSig | Replay

  /** Hex of the keyed hash; library code. */
  type Mac = (string, string) -> string

  function Canonical(m: Message): string {
    Itoa(m.ver) + ['\n'] + (m.typ + ['\n'] + (m.id + ['\n'] + (Itoa(m.ts) + ['\n'] + (m.nonce + ['\n'] + m.payload))))
  }

  class Envelope {
    var msg: Message
    var sig: string

    constructor (msg: Message, sig: string)
      ensures this.msg == msg && this.sig == sig
    {
      this.msg, this.sig := msg, sig;
    }

    method Sign(token: string, mac: Mac)
      modifies this`sig
      ensures sig == mac(token, Canonical(msg))
    {
      sig := mac(token, Canonical(msg));
    }

    /** The signature is checked first; then, unless `now` is not positive, the clock. */
    method Verify(token: string, now: int, mac: Mac) returns (r: Result<(), VerifyError>)
      ensures r == Outcome(msg, sig, token, now, mac)
    {
      var got := mac(token, Canonical(msg));
      if got != sig {
        return Err(BadSig);
      }
      if now > 0 {
        var d := now - msg.ts;
        if d < 0 {
          d := -d;
        }
        if d > REPLAY_TOLERANCE_SEC {
          return Err(Replay);
        }
      }
      return Ok(());
    }
  }

  function Outcome(m: Message, sig: string, token: string, now: int, mac: Mac): Result<(), VerifyError> {
    if sig != mac(token, Canonical(m)) then Err(BadSig)
    else if now > 0 && !(m.ts - 60 <= now <= m.ts + 60) then Err(Replay)
    else Ok(())
  }

  /** Signing and then verifying under the same token succeeds exactly within the window, or without a clock. */
  method SignThenVerify(e: Envelope, token: string, now: int, mac: Mac) returns (r: Result<(), VerifyError>)
    modifies e`sig
    ensures r.Ok? <==> now <= 0 || (now - e.msg.ts <= 60 && e.msg.ts - now <= 60)
    ensures r.Err? ==> r.error == Replay
  {
    e.Sign(token, mac);
    r := e.Verify(token, now, mac);
  }

  predicate OneLine(s: string) {
    forall i :: 0 <= i < |s| ==> s[i] != '\n'
  }

  /** No field but the payload, which comes last, holds a newline. */
  predicate Plain(m: Message) {
    OneLine(m.typ) && OneLine(m.id) && OneLine(m.nonce)
  }

  lemma {:induction false} SplitLine(a: string, x: string, b: string, y: string)
    requires OneLine(a) && OneLine(b) && a + ['\n'] + x == b + ['\n'] + y
    ensures a == b && x == y
  {
    FirstAt(a, '\n', x);
    FirstAt(b, '\n', y);
    var s := a + ['\n'] + x;
    assert a == s[..|a|] && b == s[..|b|];
    assert x == s[|a| + 1..] && y == s[|b| + 1..];
  }

  lemma {:induction false} NumbersAreOneLine(n: int)
    ensures OneLine(Itoa(n))
  {
    ItoaParts(n);
  }

  /** The signed bytes determine a plain message among the plain ones. */
  lemma {:induction false} CanonicalIsInjective(m: Message, o: Message)
    requires Plain(m) && Plain(o) && Canonical(m) == Canonical(o)
    ensures m == o
  {
    NumbersAreOneLine(m.ver);
    NumbersAreOneLine(o.ver);
    NumbersAreOneLine(m.ts);
    NumbersAreOneLine(o.ts);
    var m5, o5 := m.nonce + ['\n'] + m.payload, o.nonce + ['\n'] + o.payload;
    var m4, o4 := Itoa(m.ts) + ['\n'] + m5, Itoa(o.ts) + ['\n'] + o5;
    var m3, o3 := m.id + ['\n'] + m4, o.id + ['\n'] + o4;
    var m2, o2 := m.typ + ['\n'] + m3, o.typ + ['\n'] + o3;
    SplitLine(Itoa(m.ver), m2, Itoa(o.ver), o2);
    SplitLine(m.typ, m3, o.typ, o3);
    SplitLine(m.id, m4, o.id, o4);
    SplitLine(Itoa(m.ts), m5, Itoa(o.ts), o5);
    SplitLine(m.nonce, m.payload, o.nonce, o.payload);
    ItoaIsInjective(m.ver, o.ver);
    ItoaIsInjective(m.ts, o.ts);
  }

  lemma {:induction false} Regroup(a: string, b: string, rest: string)
    ensures (a + ['\n'] + b) + ['\n'] + rest == a + ['\n'] + (b + ['\n'] + rest)
  {}

  lemma {:induction false} FirstLine(s: string) returns (a: string, b: string)
    requires !OneLine(s)
    ensures s == a + ['\n'] + b
  {
    var i :| 0 <= i < |s| && s[i] == '\n';
    a, b := s[..i], s[i + 1..];
  }

  /** Any other message shares its signed bytes with a different one: the condition on newlines is needed in full. */
  lemma {:induction false} NewlinesAreAmbiguous(m: Message) returns (o: Message)
    requires !Plain(m)
    ensures o != m && Canonical(o) == Canonical(m)
  {
    var rest := Itoa(m.ts) + ['\n'] + (m.nonce + ['\n'] + m.payload);
    if !OneLine(m.typ) {
      var a, b := FirstLine(m.typ);
      o := m.(typ := a, id := b + ['\n'] + m.id);
      Regroup(a, b, m.id + ['\n'] + rest);
      Regroup(b, m.id, rest);
      assert |o.id| > |m.id|;
    } else if !OneLine(m.id) {
      var a, b := FirstLine(m.id);
      o := m.(typ := m.typ + ['\n'] + a, id := b);
      Regroup(a, b, rest);
      Regroup(m.typ, a, b + ['\n'] + rest);
      assert |o.typ| > |m.typ|;
    } else {
      var a, b := FirstLine(m.nonce);
      o := m.(nonce := a, payload := b + ['\n'] + m.payload);
      Regroup(a, b, m.payload);
      assert |o.payload| > |m.payload|;
    }
  }

  /** With a hash that does not collide under the token, no plain message verifies with another one's signature. */
  lemma {:induction false} AlteredMessagesAreRefused(m: Message, o: Message, token: string, now: int, mac: Mac)
    requires Plain(m) && Plain(o) && m != o
    requires forall x, y :: mac(token, x) == mac(token, y) ==> x == y
    ensures Outcome(o, mac(token, Canonical(m)), token, now, mac) == Err(BadSig)
  {
    if mac(token, Canonical(m)) == mac(token, Canonical(o)) {
      CanonicalIsInjective(m, o);
    }
  }
}
