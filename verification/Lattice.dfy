/** Merge functions of the core lattices, and what makes a merge a join. */
module Lattice {

  type Join<!V> = (V, V) -> V

  /** On the values of `c`, `j` is closed, commutative, idempotent and associative. */
  ghost predicate IsJoinOn<V(!new)>(c: V -> bool, j: Join<V>) {
    && (forall a, b :: c(a) && c(b) ==> c(j(a, b)) && j(a, b) == j(b, a))
    && (forall a :: c(a) ==> j(a, a) == a)
    && (forall a, b, d :: c(a) && c(b) && c(d) ==> j(j(a, b), d) == j(a, j(b, d)))
  }

  function Everything<V>(): (c: V -> bool) {
    v => true
  }

  /** The order a merge induces: merging `a` into `b` changes nothing. */
  predicate Leq<V(==)>(j: Join<V>, a: V, b: V) {
    j(a, b) == b
  }

  lemma LeqTrans<V(!new)>(c: V -> bool, j: Join<V>, x: V, y: V, z: V)
    requires IsJoinOn(c, j) && c(x) && c(y) && c(z)
    requires Leq(j, x, y) && Leq(j, y, z)
    ensures Leq(j, x, z)
  {
    assert j(j(x, y), z) == j(x, j(y, z));
  }

  lemma LeqAntisymmetric<V(!new)>(c: V -> bool, j: Join<V>, x: V, y: V)
    requires IsJoinOn(c, j) && c(x) && c(y)
    requires Leq(j, x, y) && Leq(j, y, x)
    ensures x == y
  {
  }

  /** A merge is the least value above both. */
  lemma JoinIsLeast<V(!new)>(c: V -> bool, j: Join<V>, x: V, y: V, z: V)
    requires IsJoinOn(c, j) && c(x) && c(y) && c(z)
    ensures Leq(j, x, j(x, y)) && Leq(j, y, j(x, y))
    ensures Leq(j, j(x, y), z) <==> Leq(j, x, z) && Leq(j, y, z)
  {
    assert j(j(x, x), y) == j(x, j(x, y));
    assert j(j(y, y), x) == j(y, j(y, x));
    assert j(j(x, y), z) == j(x, j(y, z));
    assert j(j(y, x), z) == j(y, j(x, z));
    if Leq(j, j(x, y), z) {
      LeqTrans(c, j, x, j(x, y), z);
      LeqTrans(c, j, y, j(x, y), z);
    }
  }

  // ---- MaxLattice at `unsigned` -----------------------------------------------------------------

  const TWO_31: int := 0x8000_0000
  const TWO_32: int := 0x1_0000_0000

  type uint32 = x: nat | x < TWO_32

  /** Storing an `unsigned` in an `int`. */
  function ToInt(x: uint32): (r: int) {
    if x < TWO_31 then x else x - TWO_32
  }

  /** Converting back for the comparison with an `unsigned`. */
  function ToUnsigned(x: int): (r: uint32)
    requires -TWO_31 <= x < TWO_31
  {
    if x < 0 then x + TWO_32 else x
  }

  /** `MaxLattice::do_merge`, which compares through a signed copy of the element. */
  function MaxMerge(element: uint32, e: uint32): (r: uint32)
    ensures r == if element < e then e else element
  {
    if ToUnsigned(ToInt(element)) < e then e else element
  }

  // ---- LWWPairLattice ---------------------------------------------------------------------------

  datatype Lww = Lww(timestamp: nat, value: string)

  /** `LWWPairLattice::do_merge`: the incoming pair wins ties. */
  function LwwMerge(element: Lww, p: Lww): (r: Lww) {
    if p.timestamp >= element.timestamp then p else element
  }

  /** The order of arrival matters exactly for different pairs with one timestamp. */
  lemma LwwCommutes(a: Lww, b: Lww)
    ensures LwwMerge(a, b) == LwwMerge(b, a) <==> (a.timestamp != b.timestamp || a == b)
  {
  }

  /** Last-writer-wins merging is a join on a set of pairs exactly when timestamps tell the pairs apart. */
  lemma LwwIsJoinOn(c: Lww -> bool)
    ensures IsJoinOn(c, LwwMerge) <==> forall a, b :: c(a) && c(b) && a.timestamp == b.timestamp ==> a == b
  {
    if IsJoinOn(c, LwwMerge) {
      forall a, b | c(a) && c(b) && a.timestamp == b.timestamp ensures a == b {
        LwwCommutes(a, b);
      }
    }
  }

  class LwwPairLattice {
    var timestamp: nat
    var value: string

    method Merge(p: Lww)
      modifies this
      ensures Lww(timestamp, value) == LwwMerge(old(Lww(timestamp, value)), p)
    {
      if p.timestamp >= timestamp {
        timestamp := p.timestamp;
        value := p.value;
      }
    }
  }

  // ---- SetLattice and OrderedSetLattice ---------------------------------------------------------

  function Union(a: set<string>, b: set<string>): (r: set<string>) {
    a + b
  }

  lemma UnionIsJoin()
    ensures IsJoinOn(Everything<set<string>>(), Union)
  {
    forall a: set<string>, b: set<string>, d: set<string> ensures Union(Union(a, b), d) == Union(a, Union(b, d)) {
      assert (a + b) + d == a + (b + d);
    }
    forall a: set<string>, b: set<string> ensures Union(a, b) == Union(b, a) {
      assert a + b == b + a;
    }
    forall a: set<string> ensures Union(a, a) == a {
      assert a + a == a;
    }
  }

  class SetLattice {
    var element: set<string>

    /** Inserts the incoming elements one by one, in any order. */
    method Merge(e: set<string>)
      modifies this
      ensures element == Union(old(element), e)
    {
      var rest := e;
      while rest != {}
        invariant rest <= e && element == old(element) + (e - rest)
        decreases rest
      {
        var x :| x in rest;
        element := element + {x};
        rest := rest - {x};
      }
    }
  }

  // ---- MapLattice -------------------------------------------------------------------------------

  /** The pointwise merge of two maps. */
  function MapJoin<K, V>(j: Join<V>, m: map<K, V>, n: map<K, V>): (r: map<K, V>)
    ensures r.Keys == m.Keys + n.Keys
  {
    map k | k in m.Keys + n.Keys :: if k in m && k in n then j(m[k], n[k]) else if k in m then m[k] else n[k]
  }

  /** The merge of maps whose values merge by `j`. */
  function OnMaps<K, V>(j: Join<V>): (r: Join<map<K, V>>) {
    (m, n) => MapJoin(j, m, n)
  }

  /** The maps with all values in `c`. */
  function MapsInto<K, V>(c: V -> bool): (d: map<K, V> -> bool) {
    m => forall k :: k in m ==> c(m[k])
  }

  lemma MapJoinCommutes<K(!new), V(!new)>(c: V -> bool, j: Join<V>, m: map<K, V>, n: map<K, V>)
    requires IsJoinOn(c, j)
    requires (forall k :: k in m ==> c(m[k])) && (forall k :: k in n ==> c(n[k]))
    ensures MapJoin(j, m, n) == MapJoin(j, n, m)
  {
    assert forall k :: k in m && k in n ==> j(m[k], n[k]) == j(n[k], m[k]);
  }

  lemma MapJoinIdempotent<K(!new), V(!new)>(c: V -> bool, j: Join<V>, m: map<K, V>)
    requires IsJoinOn(c, j)
    requires forall k :: k in m ==> c(m[k])
    ensures MapJoin(j, m, m) == m
  {
  }

  lemma MapJoinAssociative<K(!new), V(!new)>(c: V -> bool, j: Join<V>, m: map<K, V>, n: map<K, V>, o: map<K, V>)
    requires IsJoinOn(c, j)
    requires (forall k :: k in m ==> c(m[k])) && (forall k :: k in n ==> c(n[k])) && (forall k :: k in o ==> c(o[k]))
    ensures MapJoin(j, MapJoin(j, m, n), o) == MapJoin(j, m, MapJoin(j, n, o))
  {
    var l, r := MapJoin(j, MapJoin(j, m, n), o), MapJoin(j, m, MapJoin(j, n, o));
    assert l.Keys == r.Keys;
    forall k | k in l ensures l[k] == r[k] {
      if k in m && k in n && k in o {
        assert j(j(m[k], n[k]), o[k]) == j(m[k], j(n[k], o[k]));
      }
    }
  }

  /** Map merge inherits the laws from its values, so it does so to any depth of nesting. */
  lemma MapJoinIsJoin<K(!new), V(!new)>(c: V -> bool, j: Join<V>)
    requires IsJoinOn(c, j)
    ensures IsJoinOn(MapsInto<K, V>(c), OnMaps<K, V>(j))
  {
    var d, jm := MapsInto<K, V>(c), OnMaps<K, V>(j);
    forall m, n | d(m) && d(n) ensures d(jm(m, n)) && jm(m, n) == jm(n, m) {
      MapJoinCommutes(c, j, m, n);
    }
    forall m | d(m) ensures jm(m, m) == m {
      MapJoinIdempotent(c, j, m);
    }
    forall m, n, o | d(m) && d(n) && d(o) ensures jm(jm(m, n), o) == jm(m, jm(n, o)) {
      MapJoinAssociative(c, j, m, n, o);
    }
  }

  /** Below in the map order: every key is there, with a value below. */
  lemma MapLeq<K(!new), V(!new)>(j: Join<V>, m: map<K, V>, n: map<K, V>)
    ensures MapJoin(j, m, n) == n <==> forall k :: k in m ==> k in n && Leq(j, m[k], n[k])
  {
    var r := MapJoin(j, m, n);
    if forall k :: k in m ==> k in n && Leq(j, m[k], n[k]) {
      forall k | k in r ensures k in n && r[k] == n[k] {
      }
      assert r.Keys == n.Keys;
      assert r == n;
    }
    if r == n {
      forall k | k in m ensures k in n && Leq(j, m[k], n[k]) {
        assert k in r && r[k] == n[k];
      }
    }
  }

  class MapLattice<K(==,!new), V> {
    var element: map<K, V>
    const join: Join<V>

    constructor (join: Join<V>, element: map<K, V>)
      ensures this.join == join && this.element == element
    {
      this.join, this.element := join, element;
    }

    method InsertPair(k: K, v: V)
      modifies this
      ensures element == old(element)[k := if k in old(element) then join(old(element)[k], v) else v]
    {
      if k in element {
        element := element[k := join(element[k], v)];
      } else {
        element := element[k := v];
      }
    }

    /** Merges the incoming pairs one by one, in any order. */
    method Merge(m: map<K, V>)
      modifies this
      ensures element == MapJoin(join, old(element), m)
    {
      var rest := m.Keys;
      while rest != {}
        invariant rest <= m.Keys
        invariant element == MapJoin(join, old(element), m - rest)
        decreases rest
      {
        var k :| k in rest;
        InsertPair(k, m[k]);
        rest := rest - {k};
      }
      assert m - {} == m;
    }
  }
}
