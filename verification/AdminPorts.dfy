/** The panel's allocation of loopback admin ports to frpc processes. */
module AdminPorts {
  import opened PortPolicy

  const SPAN := 101

  /** Go's remainder: it takes the sign of the dividend. */
  function Rem(a: int, b: int): int
    requires b > 0
  {
    if a >= 0 then a % b else -((-a) % b)
  }

  function Base(node: int): int {
    if ADMIN_LOW + node > ADMIN_HIGH then ADMIN_LOW else ADMIN_LOW + node
  }

  /** The `i`th port tried for a node. */
  function Probe(node: int, i: int): int {
    ADMIN_LOW + Rem(Base(node) - ADMIN_LOW + i, SPAN)
  }

  predicate InRange(p: int) {
    ADMIN_LOW <= p <= ADMIN_HIGH
  }

  function Taken(ports: map<int, int>): set<int> {
    set n | n in ports :: ports[n]
  }

  predicate Free(ports: map<int, int>, listening: set<int>, p: int) {
    p !in Taken(ports) && p !in listening
  }

  /** No two nodes have the same port, and all are in the reserved range. */
  ghost predicate Sound(ports: map<int, int>) {
    && (forall n :: n in ports ==> InRange(ports[n]))
    && (forall n, m :: n in ports && m in ports && ports[n] == ports[m] ==> n == m)
  }

  /** For the ids that the database gives out, the probe stays in the range, and each of its ports comes up at exactly
      one of the tries. */
  lemma {:induction false} ProbeVisitsEachOnce(node: int, p: int) returns (i: int)
    requires node >= 0 && InRange(p)
    ensures 0 <= i < SPAN && Probe(node, i) == p
    ensures forall k :: 0 <= k < SPAN && Probe(node, k) == p ==> k == i
  {
    var b := Base(node) - ADMIN_LOW;
    i := if p - ADMIN_LOW >= b then p - ADMIN_LOW - b else p - ADMIN_LOW - b + SPAN;
    forall k | 0 <= k < SPAN { ProbeWraps(node, k); }
  }

  lemma {:induction false} ProbeWraps(node: int, i: int)
    requires node >= 0 && 0 <= i < SPAN
    ensures Probe(node, i) == var k := Base(node) + i; if k <= ADMIN_HIGH then k else k - SPAN
    ensures InRange(Probe(node, i))
  {}

  class FrpcManager {
    var adminPorts: map<int, int>

    constructor ()
      ensures adminPorts == map[]
    {
      adminPorts := map[];
    }

    /** A node keeps its port. A new node gets the first port of its probe that no node has and nothing listens on;
        if there is none, the port it started from. `listening` is what the check of each port finds. */
    method AdminPort(node: int, listening: set<int>) returns (port: int)
      modifies this
      ensures adminPorts == old(adminPorts)[node := port]
      ensures node in old(adminPorts) ==> port == old(adminPorts)[node]
      ensures node !in old(adminPorts) && node >= 0 ==>
                var preferred := if node <= 100 then 7400 + node else 7400;
                Free(old(adminPorts), listening, preferred) ==> port == preferred
      ensures node !in old(adminPorts) ==>
                (exists i :: 0 <= i < SPAN && port == Probe(node, i) && Free(old(adminPorts), listening, port) &&
                             forall k :: 0 <= k < i ==> !Free(old(adminPorts), listening, Probe(node, k))) ||
                (port == Base(node) && forall k :: 0 <= k < SPAN ==> !Free(old(adminPorts), listening, Probe(node, k)))
    {
      if node in adminPorts {
        port := adminPorts[node];
        assert adminPorts[node := port] == adminPorts;
        return;
      }
      var used := Taken(adminPorts);
      if node >= 0 {
        ProbeWraps(node, 0);
      }
      for i := 0 to SPAN
        invariant adminPorts == old(adminPorts)
        invariant forall k :: 0 <= k < i ==> !Free(adminPorts, listening, Probe(node, k))
      {
        var p := Probe(node, i);
        if p in used {
          continue;
        }
        if p in listening {
          continue;
        }
        adminPorts := adminPorts[node := p];
        return p;
      }
      port := Base(node);
      adminPorts := adminPorts[node := port];
    }

    /** The allocation stays sound exactly as long as there is a free port for each new node. */
    method Allocate(node: int, listening: set<int>) returns (port: int)
      requires node >= 0 && Sound(adminPorts)
      modifies this
      ensures adminPorts == old(adminPorts)[node := port] && InRange(port)
      ensures node in old(adminPorts) ==> adminPorts == old(adminPorts)
      ensures node !in old(adminPorts) ==>
                (Free(old(adminPorts), listening, port) <==>
                 exists p :: InRange(p) && Free(old(adminPorts), listening, p))
      ensures node !in old(adminPorts) && Free(old(adminPorts), listening, port) ==> Sound(adminPorts)
    {
      ghost var before := adminPorts;
      port := AdminPort(node, listening);
      if node !in before {
        forall i | 0 <= i < SPAN { ProbeWraps(node, i); }
        if p :| InRange(p) && Free(before, listening, p) {
          ghost var i := ProbeVisitsEachOnce(node, p);
          assert !(forall k :: 0 <= k < SPAN ==> !Free(before, listening, Probe(node, k)));
        }
        if Free(before, listening, port) {
          ExtendedIsSound(before, node, port);
        }
      } else {
        assert before[node := port] == before;
      }
    }
  }

  lemma {:induction false} ExtendedIsSound(ports: map<int, int>, node: int, port: int)
    requires Sound(ports) && InRange(port) && port !in Taken(ports) && node !in ports
    ensures Sound(ports[node := port])
  {
    assert forall n :: n in ports ==> ports[n] in Taken(ports);
  }

  /** The probe stays in the range exactly for the ids that are not negative: Go's remainder takes the sign of the
      dividend, so that a negative id is tried below the range. */
  lemma {:induction false} ProbeStaysInRangeIff(node: int)
    ensures (forall i :: 0 <= i < SPAN ==> InRange(Probe(node, i))) <==> node >= 0
  {
    if node >= 0 {
      forall i | 0 <= i < SPAN { ProbeWraps(node, i); }
    } else {
      NegativeFallsBelow(node);
    }
  }

  lemma {:induction false} NegativeFallsBelow(node: int)
    requires node < 0
    ensures exists i :: 0 <= i < SPAN && !InRange(Probe(node, i))
  {
    if (-node) % SPAN != 0 {
      assert !InRange(Probe(node, 0));
    } else {
      MultipleThenOne(-node);
      assert !InRange(Probe(node, 1));
    }
  }

  /** One below a multiple is not a multiple. */
  lemma {:induction false} MultipleThenOne(m: int)
    requires m > 0 && m % SPAN == 0
    ensures (m - 1) % SPAN == SPAN - 1
  {}
}
