/** The consistent-hash ring as a value: its nodes in position order, the clockwise walk, insertion and removal. */
module Ring {
  import opened Types
  import opened Walk

  /** `kVirtualThreadNum`: how many positions a server asks for. */
  const VIRTUAL_THREAD_NUM: nat := 3000

  /** An entry of the ordered map behind a ring. */
  datatype Node<S> = Node(pos: nat, server: S)

  /** The hash of a server's virtual node. */
  type Hash<!S> = (S, nat) -> nat

  datatype HashRing<S> = HashRing(nodes: seq<Node<S>>, servers: set<S>, joinCounts: map<S, nat>)

  ghost predicate Sorted<S>(nodes: seq<Node<S>>) {
    forall i, j :: 0 <= i < j < |nodes| ==> nodes[i].pos < nodes[j].pos
  }

  /** `lower_bound`: the index of the first node at or after `h`; the number of nodes if there is none. */
  function LowerBound<S>(nodes: seq<Node<S>>, h: nat): (i: nat)
    ensures i <= |nodes|
    ensures i < |nodes| ==> h <= nodes[i].pos
    ensures forall j :: 0 <= j < i ==> nodes[j].pos < h
  {
    if nodes == [] || h <= nodes[0].pos then 0 else 1 + LowerBound(nodes[1..], h)
  }

  /** `find`: the lower bound, wrapping to the first node when the hash is past the last one. */
  function Find<S>(nodes: seq<Node<S>>, h: nat): (r: Option<nat>)
    ensures r.None? <==> nodes == []
    ensures r.Some? ==> r.value < |nodes|
  {
    if nodes == [] then None
    else
      var i := LowerBound(nodes, h);
      Some(if i == |nodes| then 0 else i)
  }

  function Servers<S>(nodes: seq<Node<S>>): (r: seq<S>)
    ensures |r| == |nodes|
    ensures forall i :: 0 <= i < |r| ==> r[i] == nodes[i].server
  {
    seq(|nodes|, i requires 0 <= i < |nodes| => nodes[i].server)
  }

  /** The server of every node, in the order a clockwise walk from `h` meets them, across the end of the map. */
  function Met<S>(nodes: seq<Node<S>>, h: nat): (r: seq<S>)
    ensures |r| == |nodes|
  {
    var i := LowerBound(nodes, h);
    Servers(nodes[i..]) + Servers(nodes[..i])
  }

  /** The distinct servers on the ring, in the order the walk from `h` first meets them. */
  function Ranking<S(==,!new)>(nodes: seq<Node<S>>, h: nat): (r: seq<S>)
    ensures forall i, j :: 0 <= i < j < |r| ==> r[i] != r[j]
  {
    Distinct(Met(nodes, h))
  }

  /** The servers that own a key hashed to `h` under factor `r`. */
  function Owners<S(==,!new)>(nodes: seq<Node<S>>, h: nat, r: nat): (o: seq<S>)
    ensures |o| <= r
    ensures forall i, j :: 0 <= i < j < |o| ==> o[i] != o[j]
  {
    Take(Ranking(nodes, h), r)
  }

  /** Some node of the ring belongs to `s`. */
  predicate Present<S(==)>(nodes: seq<Node<S>>, s: S) {
    exists i :: 0 <= i < |nodes| && nodes[i].server == s
  }

  lemma TurnedAt<S>(nodes: seq<Node<S>>, i: nat, k: nat)
    requires i <= |nodes| && k < |nodes|
    ensures (Servers(nodes[i..]) + Servers(nodes[..i]))[k]
         == nodes[if i + k < |nodes| then i + k else i + k - |nodes|].server
  {
    var front, back := Servers(nodes[i..]), Servers(nodes[..i]);
    if i + k < |nodes| {
      assert (front + back)[k] == front[k] == nodes[i..][k].server;
    } else {
      assert (front + back)[k] == back[i + k - |nodes|] == nodes[..i][i + k - |nodes|].server;
    }
  }

  /** The `k`-th server met is the one `k` nodes past the lower bound, across the end of the map. */
  lemma MetAt<S>(nodes: seq<Node<S>>, h: nat, k: nat)
    requires k < |nodes|
    ensures var i := LowerBound(nodes, h);
            Met(nodes, h)[k] == nodes[if i + k < |nodes| then i + k else i + k - |nodes|].server
  {
    TurnedAt(nodes, LowerBound(nodes, h), k);
  }

  lemma MetMembers<S(!new)>(nodes: seq<Node<S>>, h: nat, s: S)
    ensures s in Met(nodes, h) <==> Present(nodes, s)
  {
    var i := LowerBound(nodes, h);
    if s in Met(nodes, h) {
      var k :| 0 <= k < |nodes| && Met(nodes, h)[k] == s;
      MetAt(nodes, h, k);
    }
    if Present(nodes, s) {
      var j :| 0 <= j < |nodes| && nodes[j].server == s;
      MetAt(nodes, h, if j < i then j + |nodes| - i else j - i);
    }
  }

  /** Which servers are ranked does not depend on where the walk starts. */
  lemma RankingMembers<S(!new)>(nodes: seq<Node<S>>, h: nat, s: S)
    ensures s in Ranking(nodes, h) <==> Present(nodes, s)
  {
    MetMembers(nodes, h, s);
  }

  /** The owners for a factor are a prefix of the owners for any larger one. */
  lemma OwnersPrefix<S(!new)>(nodes: seq<Node<S>>, h: nat, r: nat, bigger: nat)
    requires r <= bigger
    ensures Owners(nodes, h, r) == Take(Owners(nodes, h, bigger), r)
    ensures Owners(nodes, h, r) <= Owners(nodes, h, bigger)
  {
  }

  // ---- insertion and removal --------------------------------------------------------------------

  /** Map insertion: an occupied position keeps the server it has. */
  function Add<S>(nodes: seq<Node<S>>, pos: nat, s: S): (r: seq<Node<S>>)
  {
    var i := LowerBound(nodes, pos);
    if i < |nodes| && nodes[i].pos == pos then nodes
    else nodes[..i] + [Node(pos, s)] + nodes[i..]
  }

  /** Map erasure by position, whichever server is there. */
  function Erase<S>(nodes: seq<Node<S>>, pos: nat): (r: seq<Node<S>>)
  {
    var i := LowerBound(nodes, pos);
    if i < |nodes| && nodes[i].pos == pos then nodes[..i] + nodes[i + 1..] else nodes
  }

  /** The positions of the first `n` virtual nodes of `s`. */
  function Positions<S>(hash: Hash<S>, s: S, n: nat): (r: seq<nat>)
    ensures |r| == n && forall v :: 0 <= v < n ==> r[v] == hash(s, v)
  {
    seq(n, v requires 0 <= v < n => hash(s, v))
  }

  function AddAll<S>(nodes: seq<Node<S>>, positions: seq<nat>, s: S): (r: seq<Node<S>>) {
    if positions == [] then nodes
    else Add(AddAll(nodes, positions[..|positions| - 1], s), positions[|positions| - 1], s)
  }

  function EraseAll<S>(nodes: seq<Node<S>>, positions: seq<nat>): (r: seq<Node<S>>) {
    if positions == [] then nodes
    else Erase(EraseAll(nodes, positions[..|positions| - 1]), positions[|positions| - 1])
  }

  /** The nodes after the first `n` virtual nodes of `s` were added. */
  function Place<S>(hash: Hash<S>, nodes: seq<Node<S>>, s: S, n: nat): (r: seq<Node<S>>) {
    AddAll(nodes, Positions(hash, s, n), s)
  }

  /** The nodes after the positions of the first `n` virtual nodes of `s` were erased. */
  function Lift<S>(hash: Hash<S>, nodes: seq<Node<S>>, s: S, n: nat): (r: seq<Node<S>>) {
    EraseAll(nodes, Positions(hash, s, n))
  }

  /** Virtual node by virtual node. */
  lemma PlaceStep<S>(hash: Hash<S>, nodes: seq<Node<S>>, s: S, n: nat)
    ensures Place(hash, nodes, s, 0) == nodes && Lift(hash, nodes, s, 0) == nodes
    ensures Place(hash, nodes, s, n + 1) == Add(Place(hash, nodes, s, n), hash(s, n), s)
    ensures Lift(hash, nodes, s, n + 1) == Erase(Lift(hash, nodes, s, n), hash(s, n))
  {
    assert Positions(hash, s, n + 1)[..n] == Positions(hash, s, n);
  }

  /** `HashRing::insert`: the new ring, and whether this was news (a first insertion or a higher join count). */
  function Insert<S(==)>(hash: Hash<S>, ring: HashRing<S>, s: S, count: nat): (r: (HashRing<S>, bool)) {
    if s in ring.servers then
      if (if s in ring.joinCounts then ring.joinCounts[s] else 0) < count then
        (ring.(joinCounts := ring.joinCounts[s := count]), true)
      else
        (ring, false)
    else
      (HashRing(Place(hash, ring.nodes, s, VIRTUAL_THREAD_NUM), ring.servers + {s}, ring.joinCounts[s := count]), true)
  }

  /** `HashRing::remove`. */
  function Remove<S(==)>(hash: Hash<S>, ring: HashRing<S>, s: S): (r: HashRing<S>) {
    HashRing(Lift(hash, ring.nodes, s, VIRTUAL_THREAD_NUM), ring.servers - {s}, ring.joinCounts - {s})
  }

  ghost predicate Occupied<S(!new)>(nodes: seq<Node<S>>, pos: nat) {
    exists s :: Node(pos, s) in nodes
  }

  /** One of the first `n` virtual nodes of `s` hashes to `pos`. */
  ghost predicate HashesTo<S>(hash: Hash<S>, s: S, n: nat, pos: nat) {
    exists v :: 0 <= v < n && hash(s, v) == pos
  }

  lemma HashesToStep<S>(hash: Hash<S>, s: S, n: nat)
    ensures forall pos :: !HashesTo(hash, s, 0, pos)
    ensures forall pos :: HashesTo(hash, s, n + 1, pos) <==> hash(s, n) == pos || HashesTo(hash, s, n, pos)
  {
    forall pos ensures HashesTo(hash, s, n + 1, pos) <==> hash(s, n) == pos || HashesTo(hash, s, n, pos) {
      if v :| 0 <= v < n && hash(s, v) == pos {
        assert 0 <= v < n + 1;
      } else if hash(s, n) == pos {
        assert 0 <= n < n + 1;
      }
    }
  }

  /** A node at a position is the one the lower bound finds. */
  lemma FoundThere<S(!new)>(nodes: seq<Node<S>>, pos: nat, s: S)
    requires Sorted(nodes) && Node(pos, s) in nodes
    ensures var i := LowerBound(nodes, pos); i < |nodes| && nodes[i] == Node(pos, s)
  {
    var i := LowerBound(nodes, pos);
    var j :| 0 <= j < |nodes| && nodes[j] == Node(pos, s);
    assert i <= j && !(nodes[i].pos < nodes[j].pos);
  }

  lemma LowerBoundFinds<S(!new)>(nodes: seq<Node<S>>, pos: nat)
    requires Sorted(nodes)
    ensures var i := LowerBound(nodes, pos);
            if i < |nodes| && nodes[i].pos == pos then Node(pos, nodes[i].server) in nodes
            else !Occupied(nodes, pos)
    ensures forall s, t :: Node(pos, s) in nodes && Node(pos, t) in nodes ==> s == t
  {
    var i := LowerBound(nodes, pos);
    forall s | Node(pos, s) in nodes ensures i < |nodes| && nodes[i] == Node(pos, s) {
      FoundThere(nodes, pos, s);
    }
  }

  lemma PutInSorted<S(!new)>(nodes: seq<Node<S>>, i: nat, node: Node<S>)
    requires Sorted(nodes) && i <= |nodes| && (i < |nodes| ==> node.pos < nodes[i].pos)
    requires forall j :: 0 <= j < i ==> nodes[j].pos < node.pos
    ensures Sorted(nodes[..i] + [node] + nodes[i..])
  {
    var r := nodes[..i] + [node] + nodes[i..];
    forall a, b | 0 <= a < b < |r| ensures r[a].pos < r[b].pos {
      assert r[a] == if a < i then nodes[a] else if a == i then node else nodes[a - 1];
      assert r[b] == if b < i then nodes[b] else if b == i then node else nodes[b - 1];
    }
  }

  lemma AddSorted<S(!new)>(nodes: seq<Node<S>>, pos: nat, s: S)
    requires Sorted(nodes)
    ensures Sorted(Add(nodes, pos, s))
  {
    var i := LowerBound(nodes, pos);
    if !(i < |nodes| && nodes[i].pos == pos) {
      PutInSorted(nodes, i, Node(pos, s));
    }
  }

  lemma AddMembers<S(!new)>(nodes: seq<Node<S>>, pos: nat, s: S)
    requires Sorted(nodes)
    ensures forall n :: n in Add(nodes, pos, s) <==> n in nodes || (n == Node(pos, s) && !Occupied(nodes, pos))
  {
    LowerBoundFinds(nodes, pos);
    var i := LowerBound(nodes, pos);
    assert nodes == nodes[..i] + nodes[i..];
  }

  lemma EraseMembers<S(!new)>(nodes: seq<Node<S>>, pos: nat)
    requires Sorted(nodes)
    ensures Sorted(Erase(nodes, pos))
    ensures forall n :: n in Erase(nodes, pos) <==> n in nodes && n.pos != pos
  {
    LowerBoundFinds(nodes, pos);
    var i := LowerBound(nodes, pos);
    if i < |nodes| && nodes[i].pos == pos {
      CutMembers(nodes, i);
    } else {
      forall n | n in nodes ensures n.pos != pos { assert n == Node(n.pos, n.server); }
    }
  }

  lemma CutMembers<S(!new)>(nodes: seq<Node<S>>, i: nat)
    requires Sorted(nodes) && i < |nodes|
    ensures Sorted(nodes[..i] + nodes[i + 1..])
    ensures forall n :: n in nodes[..i] + nodes[i + 1..] <==> n in nodes && n.pos != nodes[i].pos
  {
    assert nodes == nodes[..i] + [nodes[i]] + nodes[i + 1..];
  }

  /** Exactly which nodes a placement yields: the old ones, and the newcomer wherever it found a free position. */
  lemma {:induction false} PlaceMembers<S(!new)>(hash: Hash<S>, nodes: seq<Node<S>>, s: S, n: nat)
    requires Sorted(nodes)
    ensures Sorted(Place(hash, nodes, s, n))
    ensures forall m :: m in Place(hash, nodes, s, n) <==>
              m in nodes || (m.server == s && HashesTo(hash, s, n, m.pos) && !Occupied(nodes, m.pos))
  {
    PlaceStep(hash, nodes, s, if n > 0 then n - 1 else 0);
    HashesToStep(hash, s, if n > 0 then n - 1 else 0);
    if n > 0 {
      PlaceMembers(hash, nodes, s, n - 1);
      var before, pos := Place(hash, nodes, s, n - 1), hash(s, n - 1);
      AddSorted(before, pos, s);
      AddMembers(before, pos, s);
      forall m ensures m in Place(hash, nodes, s, n) <==>
                m in nodes || (m.server == s && HashesTo(hash, s, n, m.pos) && !Occupied(nodes, m.pos))
      {
        if m == Node(pos, s) {
          if Occupied(nodes, pos) {
            var t :| Node(pos, t) in nodes;
            assert Node(pos, t) in before;
          } else if Occupied(before, pos) {
            var t :| Node(pos, t) in before;
            assert Node(pos, t).server == s;
          }
        }
      }
    }
  }

  lemma {:induction false} LiftMembers<S(!new)>(hash: Hash<S>, nodes: seq<Node<S>>, s: S, n: nat)
    requires Sorted(nodes)
    ensures Sorted(Lift(hash, nodes, s, n))
    ensures forall m :: m in Lift(hash, nodes, s, n) <==> m in nodes && !HashesTo(hash, s, n, m.pos)
  {
    PlaceStep(hash, nodes, s, if n > 0 then n - 1 else 0);
    HashesToStep(hash, s, if n > 0 then n - 1 else 0);
    if n > 0 {
      LiftMembers(hash, nodes, s, n - 1);
      EraseMembers(Lift(hash, nodes, s, n - 1), hash(s, n - 1));
    }
  }

  /** Ordered maps with the same entries are the same. */
  lemma {:induction false} SortedUnique<S(!new)>(a: seq<Node<S>>, b: seq<Node<S>>)
    requires Sorted(a) && Sorted(b)
    requires forall n :: n in a <==> n in b
    ensures a == b
  {
    HasMember(a);
    HasMember(b);
    if a == [] || b == [] {
    } else {
      assert a[|a| - 1] in b;
      var x, y := a[|a| - 1], b[|b| - 1];
      assert y in a;
      assert x.pos <= y.pos && y.pos <= x.pos;
      var fa, fb := a[..|a| - 1], b[..|b| - 1];
      forall n ensures n in fa <==> n in fb {
        if n in fa { assert n in a; assert n.pos < x.pos; assert n in b; }
        if n in fb { assert n in b; assert n.pos < y.pos; assert n in a; }
      }
      SortedUnique(fa, fb);
    }
  }

  /**
   * Removing a server right after a first insertion restores the members; it restores the nodes exactly when none of
   * its positions was taken, as `erase` clears whatever server sits at a position, and the counts exactly when none
   * was left over for it.
   */
  lemma RemoveUndoesInsert<S(!new)>(hash: Hash<S>, ring: HashRing<S>, s: S, count: nat)
    requires Sorted(ring.nodes) && s !in ring.servers
    ensures var back := Remove(hash, Insert(hash, ring, s, count).0, s);
            && back.servers == ring.servers
            && (back.joinCounts == ring.joinCounts <==> s !in ring.joinCounts)
            && (back.nodes == ring.nodes
                <==> forall m :: m in ring.nodes ==> !HashesTo(hash, s, VIRTUAL_THREAD_NUM, m.pos))
  {
    var placed := Place(hash, ring.nodes, s, VIRTUAL_THREAD_NUM);
    var back := Lift(hash, placed, s, VIRTUAL_THREAD_NUM);
    PlaceMembers(hash, ring.nodes, s, VIRTUAL_THREAD_NUM);
    LiftMembers(hash, placed, s, VIRTUAL_THREAD_NUM);
    if forall m :: m in ring.nodes ==> !HashesTo(hash, s, VIRTUAL_THREAD_NUM, m.pos) {
      SortedUnique(back, ring.nodes);
    }
    CountsBack(ring.joinCounts, s, count);
  }

  lemma CountsBack<S(!new)>(counts: map<S, nat>, s: S, count: nat)
    ensures counts[s := count] - {s} == counts <==> s !in counts
  {
    if s !in counts {
      assert counts[s := count] - {s} == counts;
    }
  }

  // ---- minimal disruption -----------------------------------------------------------------------

  lemma {:induction false} WithoutAppend<S(!new)>(a: seq<S>, b: seq<S>, s: S)
    ensures Without(a + b, s) == Without(a, s) + Without(b, s)
  {
    if b == [] {
      assert a + b == a;
    } else {
      var front := b[..|b| - 1];
      WithoutAppend(a, front, s);
      assert (a + b)[..|a + b| - 1] == a + front;
    }
  }

  lemma LowerBoundIs<S>(nodes: seq<Node<S>>, h: nat, i: nat)
    requires i <= |nodes|
    requires i < |nodes| ==> h <= nodes[i].pos
    requires forall j :: 0 <= j < i ==> nodes[j].pos < h
    ensures LowerBound(nodes, h) == i
  {
    var l := LowerBound(nodes, h);
    assert !(l < i) && !(i < l);
  }

  lemma WithoutServers<S(!new)>(a: seq<Node<S>>, pos: nat, b: seq<Node<S>>, s: S)
    ensures Without(Servers(a + [Node(pos, s)] + b), s) == Without(Servers(a + b), s)
  {
    assert Servers(a + [Node(pos, s)] + b) == Servers(a) + [s] + Servers(b);
    assert Servers(a + b) == Servers(a) + Servers(b);
    WithoutAppend(Servers(a), Servers(b), s);
    WithoutAppend(Servers(a) + [s], Servers(b), s);
    WithoutAppend(Servers(a), [s], s);
    assert Without([s], s) == [];
  }

  lemma SplitAhead<T>(xs: seq<T>, x: T, i: nat, j: nat)
    requires i <= j <= |xs|
    ensures var after := xs[..j] + [x] + xs[j..];
            after[..i] == xs[..i] && after[i..] == xs[i..j] + [x] + xs[j..] && xs[i..] == xs[i..j] + xs[j..]
  {
  }

  lemma LowerBoundStays<S>(nodes: seq<Node<S>>, pos: nat, s: S, h: nat, i: nat, j: nat)
    requires i == LowerBound(nodes, h) && i <= j <= |nodes| && h <= pos
    ensures LowerBound(nodes[..j] + [Node(pos, s)] + nodes[j..], h) == i
  {
    LowerBoundIs(nodes[..j] + [Node(pos, s)] + nodes[j..], h, i);
  }

  /** Passing over `s`, the walk does not notice that a node of `s` was added: before the end of the map, */
  lemma AddMetAhead<S(!new)>(nodes: seq<Node<S>>, pos: nat, s: S, h: nat, i: nat, j: nat)
    requires i == LowerBound(nodes, h) && i <= j <= |nodes| && h <= pos
    ensures Without(Met(nodes[..j] + [Node(pos, s)] + nodes[j..], h), s) == Without(Met(nodes, h), s)
  {
    var after := nodes[..j] + [Node(pos, s)] + nodes[j..];
    LowerBoundStays(nodes, pos, s, h, i, j);
    SplitAhead(nodes, Node(pos, s), i, j);
    var ahead, ahead', behind := Servers(nodes[i..]), Servers(after[i..]), Servers(nodes[..i]);
    assert Met(after, h) == ahead' + behind && Met(nodes, h) == ahead + behind;
    WithoutServers(nodes[i..j], pos, nodes[j..], s);
    WithoutAppend(ahead, behind, s);
    WithoutAppend(ahead', behind, s);
  }

  lemma LowerBoundShifts<S>(nodes: seq<Node<S>>, pos: nat, s: S, h: nat, i: nat, j: nat)
    requires i == LowerBound(nodes, h) && j <= i && pos < h
    ensures LowerBound(nodes[..j] + [Node(pos, s)] + nodes[j..], h) == i + 1
  {
    var after := nodes[..j] + [Node(pos, s)] + nodes[j..];
    forall x | 0 <= x < i + 1 ensures after[x].pos < h {
      assert after[x] == if x < j then nodes[x] else if x == j then Node(pos, s) else nodes[x - 1];
    }
    LowerBoundIs(after, h, i + 1);
  }

  lemma SplitBehind<T>(xs: seq<T>, x: T, i: nat, j: nat)
    requires j <= i <= |xs|
    ensures var after := xs[..j] + [x] + xs[j..];
            after[i + 1..] == xs[i..] && after[..i + 1] == xs[..j] + [x] + xs[j..i] && xs[..i] == xs[..j] + xs[j..i]
  {
  }

  /** or after it. */
  lemma AddMetBehind<S(!new)>(nodes: seq<Node<S>>, pos: nat, s: S, h: nat, i: nat, j: nat)
    requires i == LowerBound(nodes, h) && j <= i && pos < h
    ensures Without(Met(nodes[..j] + [Node(pos, s)] + nodes[j..], h), s) == Without(Met(nodes, h), s)
  {
    var after := nodes[..j] + [Node(pos, s)] + nodes[j..];
    LowerBoundShifts(nodes, pos, s, h, i, j);
    SplitBehind(nodes, Node(pos, s), i, j);
    var ahead, behind, behind' := Servers(nodes[i..]), Servers(nodes[..i]), Servers(after[..i + 1]);
    assert Met(after, h) == ahead + behind' && Met(nodes, h) == ahead + behind;
    WithoutServers(nodes[..j], pos, nodes[j..i], s);
    WithoutAppend(ahead, behind, s);
    WithoutAppend(ahead, behind', s);
  }

  /** Passing over `s`, every walk meets the same servers in the same order. */
  ghost predicate SameWalks<S(!new)>(a: seq<Node<S>>, b: seq<Node<S>>, s: S) {
    forall h :: Without(Met(a, h), s) == Without(Met(b, h), s)
  }

  lemma AddMet<S(!new)>(nodes: seq<Node<S>>, pos: nat, s: S)
    requires Sorted(nodes)
    ensures SameWalks(Add(nodes, pos, s), nodes, s)
  {
    var j := LowerBound(nodes, pos);
    forall h: nat ensures Without(Met(Add(nodes, pos, s), h), s) == Without(Met(nodes, h), s) {
      var i := LowerBound(nodes, h);
      if h <= pos {
        assert i <= j;
        AddMetAhead(nodes, pos, s, h, i, j);
      } else {
        assert j <= i;
        AddMetBehind(nodes, pos, s, h, i, j);
      }
    }
  }

  lemma SameWalksTrans<S(!new)>(a: seq<Node<S>>, b: seq<Node<S>>, c: seq<Node<S>>, s: S)
    requires SameWalks(a, b, s) && SameWalks(b, c, s)
    ensures SameWalks(a, c, s)
  {
  }

  lemma PlaceMet<S(!new)>(hash: Hash<S>, nodes: seq<Node<S>>, s: S, n: nat)
    requires Sorted(nodes)
    ensures SameWalks(Place(hash, nodes, s, n), nodes, s)
  {
    var placed, v := nodes, 0;
    PlaceStep(hash, nodes, s, 0);
    while v < n
      invariant v <= n && placed == Place(hash, nodes, s, v)
      invariant Sorted(placed) && SameWalks(placed, nodes, s)
    {
      var next := Add(placed, hash(s, v), s);
      PlaceStep(hash, nodes, s, v);
      AddSorted(placed, hash(s, v), s);
      AddMet(placed, hash(s, v), s);
      SameWalksTrans(next, placed, nodes, s);
      placed, v := next, v + 1;
    }
  }

  /** `now` is `was` with `s` put in at place `i` and, when `was` was full, its last owner dropped. */
  predicate Displaces<S(==)>(was: seq<S>, now: seq<S>, s: S, i: nat, full: bool) {
    && i <= |was|
    && if full then i < |was| && now == was[..i] + [s] + was[i..|was| - 1]
               else now == was[..i] + [s] + was[i..]
  }

  /** The same for any length of prefix of two rankings. */
  lemma TakeDisplaces<S(!new)>(before: seq<S>, after: seq<S>, s: S, i: nat, r: nat)
    requires i <= |before| && after == before[..i] + [s] + before[i..]
    ensures if i < r then Displaces(Take(before, r), Take(after, r), s, i, |Take(before, r)| == r)
            else Take(after, r) == Take(before, r)
  {
    var was, now := Take(before, r), Take(after, r);
    if i < r && r <= |before| {
      assert was[..i] == before[..i] && was[i..|was| - 1] == before[i..r - 1];
      assert now == before[..i] + [s] + before[i..r - 1];
    }
  }

  /**
   * Minimal disruption. Placing a server that has no node yet, collisions or not, leaves the owners of a key
   * as they were, or puts the newcomer among them and drops exactly the last one (none, if there were too few).
   */
  lemma MinimalDisruption<S(!new)>(hash: Hash<S>, nodes: seq<Node<S>>, s: S, n: nat, h: nat, r: nat)
    returns (i: nat)
    requires Sorted(nodes) && !Present(nodes, s)
    ensures var was, now := Owners(nodes, h, r), Owners(Place(hash, nodes, s, n), h, r);
            if s in now then Displaces(was, now, s, i, |was| == r) else now == was
  {
    var placed := Place(hash, nodes, s, n);
    var before, after := Ranking(nodes, h), Ranking(placed, h);
    MetMembers(nodes, h, s);
    PlaceMet(hash, nodes, s, n);
    WithoutAbsent(Met(nodes, h), s);
    DistinctWithout(Met(placed, h), s);
    i := 0;
    if s in after {
      i := WithoutUnique(after, s);
      TakeDisplaces(before, after, s, i, r);
      if i >= r { RankedAbsent(before, s, r, h, nodes); }
    } else {
      WithoutAbsent(after, s);
    }
  }

  lemma RankedAbsent<S(!new)>(before: seq<S>, s: S, r: nat, h: nat, nodes: seq<Node<S>>)
    requires before == Ranking(nodes, h) && !Present(nodes, s)
    ensures s !in Take(before, r)
  {
    RankingMembers(nodes, h, s);
  }

  // ---- rings with equal members -----------------------------------------------------------------

  /** The node map is ordered and every server found on it is a member. */
  ghost predicate Sound<S(!new)>(ring: HashRing<S>) {
    && Sorted(ring.nodes)
    && forall n :: n in ring.nodes ==> n.server in ring.servers
  }

  /** No two of the servers hash to the same position. */
  ghost predicate CollisionFree<S(!new)>(hash: Hash<S>, all: set<S>) {
    forall s, t, pos :: s in all && t in all && s != t ==>
      !(HashesTo(hash, s, VIRTUAL_THREAD_NUM, pos) && HashesTo(hash, t, VIRTUAL_THREAD_NUM, pos))
  }

  /** The nodes of the ring are exactly the positions its members hash to. */
  ghost predicate Exact<S(!new)>(hash: Hash<S>, ring: HashRing<S>) {
    && Sorted(ring.nodes)
    && forall n :: n in ring.nodes <==> n.server in ring.servers && HashesTo(hash, n.server, VIRTUAL_THREAD_NUM, n.pos)
  }

  lemma InsertKeepsSound<S(!new)>(hash: Hash<S>, ring: HashRing<S>, s: S, count: nat)
    requires Sound(ring)
    ensures Sound(Insert(hash, ring, s, count).0)
  {
    PlaceMembers(hash, ring.nodes, s, VIRTUAL_THREAD_NUM);
  }

  lemma InsertKeepsExact<S(!new)>(hash: Hash<S>, ring: HashRing<S>, s: S, count: nat)
    requires Exact(hash, ring)
    requires CollisionFree(hash, ring.servers + {s})
    ensures Exact(hash, Insert(hash, ring, s, count).0)
  {
    if s !in ring.servers {
      PlaceMembers(hash, ring.nodes, s, VIRTUAL_THREAD_NUM);
      forall pos | HashesTo(hash, s, VIRTUAL_THREAD_NUM, pos) ensures !Occupied(ring.nodes, pos) {
        forall t ensures Node(pos, t) !in ring.nodes {
          var n := Node(pos, t);
          assert n.server in ring.servers ==> n.server in ring.servers + {s} && n.server != s;
        }
      }
    }
  }

  /** Without collisions, rings with the same members have the same nodes, in whatever order the members came. */
  lemma ExactDetermined<S(!new)>(hash: Hash<S>, a: HashRing<S>, b: HashRing<S>)
    requires Exact(hash, a) && Exact(hash, b)
    requires a.servers == b.servers
    ensures a.nodes == b.nodes
  {
    SortedUnique(a.nodes, b.nodes);
  }
}
