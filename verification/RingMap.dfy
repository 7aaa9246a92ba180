/** The ring as the object the server mutates, and the loops that walk it. */
module RingMap {
  import opened Types
  import opened Walk
  import opened Ring

  class RingObject<S(==,!new)> {
    const hash: Hash<S>
    var nodes: seq<Node<S>>
    var servers: set<S>
    var joinCounts: map<S, nat>

    ghost function Value(): (r: HashRing<S>)
      reads this
    {
      HashRing(nodes, servers, joinCounts)
    }

    constructor (hash: Hash<S>)
      ensures this.hash == hash && Value() == HashRing([], {}, map[])
    {
      this.hash := hash;
      nodes, servers, joinCounts := [], {}, map[];
    }

    /** True for a server that is new or rejoins with a higher count; only a new one gets virtual nodes. */
    method Insert(s: S, count: nat) returns (inserted: bool)
      modifies this
      ensures (Value(), inserted) == Ring.Insert(hash, old(Value()), s, count)
    {
      if s in servers {
        if s !in joinCounts {
          if 0 < count {
            joinCounts := joinCounts[s := count];
            return true;
          }
          return false;
        }
        if joinCounts[s] < count {
          joinCounts := joinCounts[s := count];
          return true;
        }
        return false;
      }
      servers := servers + {s};
      joinCounts := joinCounts[s := count];
      PlaceStep(hash, nodes, s, 0);
      for v := 0 to VIRTUAL_THREAD_NUM
        invariant nodes == Place(hash, old(nodes), s, v)
        invariant servers == old(servers) + {s} && joinCounts == old(joinCounts)[s := count]
      {
        PlaceStep(hash, old(nodes), s, v);
        nodes := Add(nodes, hash(s, v), s);
      }
      inserted := true;
    }

    method Remove(s: S)
      modifies this
      ensures Value() == Ring.Remove(hash, old(Value()), s)
    {
      PlaceStep(hash, nodes, s, 0);
      for v := 0 to VIRTUAL_THREAD_NUM
        invariant nodes == Lift(hash, old(nodes), s, v)
        invariant servers == old(servers) && joinCounts == old(joinCounts)
      {
        PlaceStep(hash, old(nodes), s, v);
        nodes := Erase(nodes, hash(s, v));
      }
      servers := servers - {s};
      joinCounts := joinCounts - {s};
    }
  }

  // ---- the walk, iteration by iteration ---------------------------------------------------------

  /** What the loop has collected after `k` iterations, and the node it is at. */
  function Visit<S(==,!new)>(nodes: seq<Node<S>>, h: nat, k: nat): (r: (seq<S>, nat))
    requires nodes != []
    ensures r.1 < |nodes|
    ensures forall s :: s in r.0 ==> Present(nodes, s)
    ensures forall i, j :: 0 <= i < j < |r.0| ==> r.0[i] != r.0[j]
  {
    if k == 0 then ([], Find(nodes, h).value)
    else
      var (found, pos) := Visit(nodes, h, k - 1);
      (if nodes[pos].server in found then found else found + [nodes[pos].server],
       if pos + 1 == |nodes| then 0 else pos + 1)
  }

  lemma {:induction false} VisitPosition<S(!new)>(nodes: seq<Node<S>>, h: nat, k: nat)
    requires k < |nodes|
    ensures var i := LowerBound(nodes, h);
            Visit(nodes, h, k).1 == if i + k < |nodes| then i + k else i + k - |nodes|
  {
    if k > 0 { VisitPosition(nodes, h, k - 1); }
  }

  lemma DistinctStep<S(!new)>(met: seq<S>, k: nat)
    requires k < |met|
    ensures var d := Distinct(met[..k]);
            Distinct(met[..k + 1]) == if met[k] in d then d else d + [met[k]]
  {
    assert met[..k + 1][..k] == met[..k];
  }

  /** One more iteration of the first round meets the next server. */
  lemma VisitNext<S(!new)>(nodes: seq<Node<S>>, h: nat, m: nat, found: seq<S>)
    requires m < |nodes| && found == Visit(nodes, h, m).0
    ensures var x := Met(nodes, h)[m]; Visit(nodes, h, m + 1).0 == if x in found then found else found + [x]
  {
    VisitPosition(nodes, h, m);
    MetAt(nodes, h, m);
  }

  lemma VisitDistinct<S(!new)>(nodes: seq<Node<S>>, h: nat, met: seq<S>, m: nat)
    requires m < |nodes| && met == Met(nodes, h) && Visit(nodes, h, m).0 == Distinct(met[..m])
    ensures Visit(nodes, h, m + 1).0 == Distinct(met[..m + 1])
  {
    VisitNext(nodes, h, m, Distinct(met[..m]));
    DistinctStep(met, m);
  }

  lemma {:induction false} VisitRound<S(!new)>(nodes: seq<Node<S>>, h: nat, met: seq<S>, k: nat)
    requires nodes != [] && k <= |nodes| && met == Met(nodes, h)
    ensures Visit(nodes, h, k).0 == Distinct(met[..k])
  {
    if k == 0 {
      assert met[..0] == [];
    } else {
      VisitRound(nodes, h, met, k - 1);
      VisitDistinct(nodes, h, met, k - 1);
    }
  }

  /** During the first round the loop collects exactly the distinct servers met so far. */
  lemma VisitFirstRound<S(!new)>(nodes: seq<Node<S>>, h: nat, k: nat)
    requires nodes != [] && k <= |nodes|
    ensures Visit(nodes, h, k).0 == Distinct(Met(nodes, h)[..k])
  {
    VisitRound(nodes, h, Met(nodes, h), k);
  }

  /** A whole round collects everybody. */
  lemma WholeRound<S(!new)>(nodes: seq<Node<S>>, h: nat)
    requires nodes != []
    ensures Visit(nodes, h, |nodes|).0 == Ranking(nodes, h)
  {
    VisitFirstRound(nodes, h, |nodes|);
    assert Met(nodes, h)[..|nodes|] == Met(nodes, h);
  }

  lemma {:induction false} NoRepeatBound<S>(xs: seq<S>, ys: seq<S>)
    requires forall i, j :: 0 <= i < j < |xs| ==> xs[i] != xs[j]
    requires forall x :: x in xs ==> x in ys
    ensures |xs| <= |ys|
  {
    if xs != [] {
      var x, front := xs[|xs| - 1], xs[..|xs| - 1];
      assert x in xs;
      var k :| 0 <= k < |ys| && ys[k] == x;
      var rest := ys[..k] + ys[k + 1..];
      forall y | y in front ensures y in rest {
        assert y in xs && y != x;
        var m :| 0 <= m < |ys| && ys[m] == y;
        assert if m < k then rest[m] == y else rest[m - 1] == y;
      }
      NoRepeatBound(front, rest);
    }
  }

  lemma VisitBounded<S(!new)>(nodes: seq<Node<S>>, h: nat, k: nat)
    requires nodes != []
    ensures |Visit(nodes, h, k).0| <= |Ranking(nodes, h)|
  {
    forall s | s in Visit(nodes, h, k).0 ensures s in Ranking(nodes, h) { RankingMembers(nodes, h, s); }
    NoRepeatBound(Visit(nodes, h, k).0, Ranking(nodes, h));
  }

  /**
   * On a non-empty ring the loop ends exactly when the factor is at most the number of distinct servers on it;
   * for a larger factor its guard holds after any number of iterations.
   */
  lemma WalkEnds<S(!new)>(nodes: seq<Node<S>>, h: nat, r: nat)
    requires nodes != []
    ensures (exists k: nat :: |Visit(nodes, h, k).0| >= r) <==> r <= |Ranking(nodes, h)|
  {
    if r <= |Ranking(nodes, h)| {
      WholeRound(nodes, h);
      assert |Visit(nodes, h, |nodes|).0| >= r;
    } else {
      forall k: nat ensures |Visit(nodes, h, k).0| < r { VisitBounded(nodes, h, k); }
    }
  }

  /** The collected prefix is final once it is long enough. */
  lemma CollectedEnough<S(!new)>(nodes: seq<Node<S>>, h: nat, k: nat, r: nat)
    requires k <= |nodes| && |Distinct(Met(nodes, h)[..k])| == r
    ensures Distinct(Met(nodes, h)[..k]) == Owners(nodes, h, r)
  {
    DistinctPrefix(Met(nodes, h), k);
  }

  lemma NotYetAround<S(!new)>(nodes: seq<Node<S>>, h: nat, k: nat, r: nat)
    requires nodes != [] && k <= |nodes| && r <= |Ranking(nodes, h)|
    requires |Visit(nodes, h, k).0| < r
    ensures k < |nodes|
  {
    WholeRound(nodes, h);
  }

  lemma VisitDone<S(!new)>(nodes: seq<Node<S>>, h: nat, k: nat, r: nat)
    requires nodes != [] && k <= |nodes| && |Visit(nodes, h, k).0| == r
    ensures Visit(nodes, h, k).0 == Owners(nodes, h, r)
  {
    VisitFirstRound(nodes, h, k);
    CollectedEnough(nodes, h, k, r);
  }

  /** `responsible_global`: the first `rep` distinct servers clockwise from the key's hash. */
  method ResponsibleGlobal(nodes: seq<Node<Address>>, h: nat, rep: nat) returns (threads: seq<Address>)
    requires nodes == [] || rep <= |Ranking(nodes, h)|
    ensures threads == Owners(nodes, h, rep)
    ensures nodes != [] ==> |threads| == rep
  {
    threads := [];
    var found := Find(nodes, h);
    if found.Some? {
      var pos, i := found.value, 0;
      ghost var k := 0;
      while i < rep
        invariant k <= |nodes| && (threads, pos) == Visit(nodes, h, k)
        invariant i == |threads| <= rep
        decreases |nodes| - k
      {
        NotYetAround(nodes, h, k, rep);
        if nodes[pos].server !in threads {
          threads := threads + [nodes[pos].server];
          i := i + 1;
        }
        pos := if pos + 1 == |nodes| then 0 else pos + 1;
        k := k + 1;
      }
      VisitDone(nodes, h, k, rep);
    }
  }

  /** `responsible_local`: the first `rep` distinct tids clockwise from the key's hash. */
  method ResponsibleLocal(nodes: seq<Node<nat>>, h: nat, rep: nat) returns (tids: seq<nat>)
    requires nodes == [] || rep <= |Ranking(nodes, h)|
    ensures tids == Owners(nodes, h, rep)
    ensures nodes != [] ==> |tids| == rep
  {
    tids := [];
    var found := Find(nodes, h);
    if found.Some? {
      var pos, i := found.value, 0;
      ghost var k := 0;
      while i < rep
        invariant k <= |nodes| && (tids, pos) == Visit(nodes, h, k)
        invariant i == |tids| <= rep
        decreases |nodes| - k
      {
        NotYetAround(nodes, h, k, rep);
        var succeed := nodes[pos].server !in tids;
        tids := if succeed then tids + [nodes[pos].server] else tids;
        pos := if pos + 1 == |nodes| then 0 else pos + 1;
        if succeed {
          i := i + 1;
        }
        k := k + 1;
      }
      VisitDone(nodes, h, k, rep);
    }
  }
}
