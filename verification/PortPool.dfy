/** The pairs of ports the Supervisor hands out, keeps free, and hands out again. */
module PortPool {
  import opened Mdns

  type Pair = (nat, nat)

  /** The i-th pair above the base port. */
  function NthPair(base: nat, i: nat): Pair {
    (base + 2 * i, base + 2 * i + 1)
  }

  ghost predicate Used(ports: map<string, Pair>, p: Pair) {
    exists u :: u in ports && ports[u] == p
  }

  ghost predicate Among(base: nat, made: nat, p: Pair) {
    exists i: nat :: i < made && p == NthPair(base, i)
  }

  /** Pairs in use and pairs on the free list are disjoint and without repetition,
      and together they are exactly the first `made` pairs above the base. */
  ghost predicate PoolOk(base: nat, made: nat, free: seq<Pair>, ports: map<string, Pair>) {
    && Distinct(free)
    && (forall u, v :: u in ports && v in ports && u != v ==> ports[u] != ports[v])
    && (forall u :: u in ports ==> ports[u] !in free && Among(base, made, ports[u]))
    && (forall p :: p in free ==> Among(base, made, p))
    && (forall i: nat :: i < made ==> NthPair(base, i) in free || Used(ports, NthPair(base, i)))
    && |free| + |ports| == made
  }

  lemma StillUsed(ports: map<string, Pair>, uid: string, q: Pair, p: Pair)
    requires uid !in ports && (Used(ports, p) || p == q)
    ensures Used(ports[uid := q], p)
  {
    if Used(ports, p) {
      var u :| u in ports && ports[u] == p;
      assert u in ports[uid := q];
    } else {
      assert ports[uid := q][uid] == p;
    }
  }

  /** A free pair goes to `uid`. */
  lemma Reuse(base: nat, made: nat, free: seq<Pair>, ports: map<string, Pair>, uid: string)
    requires PoolOk(base, made, free, ports) && free != [] && uid !in ports
    ensures PoolOk(base, made, free[..|free| - 1], ports[uid := free[|free| - 1]])
  {
    var p := free[|free| - 1];
    var rest := free[..|free| - 1];
    assert free == rest + [p];
    assert p in free;
    forall i: nat | i < made ensures NthPair(base, i) in rest || Used(ports[uid := p], NthPair(base, i)) {
      var q := NthPair(base, i);
      assert q in free || Used(ports, q);
      if q !in rest {
        assert Used(ports, q) || q == p;
        StillUsed(ports, uid, p, q);
      }
    }
  }

  lemma AmongMore(base: nat, made: nat, p: Pair)
    requires Among(base, made, p)
    ensures Among(base, made + 1, p) && p != NthPair(base, made)
  {
    var i: nat :| i < made && p == NthPair(base, i);
    assert i < made + 1;
  }

  /** With nothing free, the next pair above all others goes to `uid`. */
  lemma Make(base: nat, made: nat, ports: map<string, Pair>, uid: string)
    requires PoolOk(base, made, [], ports) && uid !in ports
    ensures PoolOk(base, made + 1, [], ports[uid := NthPair(base, made)])
  {
    var p := NthPair(base, made);
    var ports' := ports[uid := p];
    forall u | u in ports ensures Among(base, made + 1, ports[u]) && ports[u] != p {
      AmongMore(base, made, ports[u]);
    }
    assert Among(base, made + 1, p);
    forall i: nat | i < made + 1 ensures Used(ports', NthPair(base, i)) {
      var q := NthPair(base, i);
      assert i < made ==> q in [] || Used(ports, q);
      StillUsed(ports, uid, p, q);
    }
  }

  lemma GoneFromUse(ports: map<string, Pair>, uid: string, q: Pair)
    requires uid in ports && Used(ports, q)
    ensures q == ports[uid] || Used(ports - {uid}, q)
  {
    var u :| u in ports && ports[u] == q;
    if u != uid {
      assert u in ports - {uid} && (ports - {uid})[u] == q;
    }
  }

  /** A departed board's pair goes back on the free list. */
  lemma GiveBack(base: nat, made: nat, free: seq<Pair>, ports: map<string, Pair>, uid: string)
    requires PoolOk(base, made, free, ports) && uid in ports
    ensures PoolOk(base, made, free + [ports[uid]], ports - {uid})
  {
    hide Among;
    hide NthPair;
    var p := ports[uid];
    var ports' := ports - {uid};
    assert ports == ports'[uid := p];
    forall i: nat | i < made ensures NthPair(base, i) in free + [p] || Used(ports', NthPair(base, i)) {
      var q := NthPair(base, i);
      if q !in free {
        GoneFromUse(ports, uid, q);
      }
    }
    hide Used;
  }
}
