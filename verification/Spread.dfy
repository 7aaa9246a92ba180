/**
 * How the writes to one key spread among the threads that replicate it, with the messages of all kinds reduced to what
 * they carry: the protocol behind the gossip round, apart from how the storage threads implement it.
 */
module Spread {
  import opened Types
  import opened Lattice

  /** A value that is going to be merged at `to`, wherever it waits. */
  datatype Parcel<V> = Parcel(to: ServerThread, value: V)

  datatype View<V> = View(
    val: map<ServerThread, V>,        // what the threads hold
    dirty: set<ServerThread>,         // the threads that owe the others a round of gossip
    transit: set<Parcel<V>>,
    accepted: set<V>)                 // the writes acknowledged so far

  /** A preorder of values. */
  type Order<!V> = (V, V) -> bool

  function MergeAt<V>(j: Join<V>, val: map<ServerThread, V>, w: ServerThread, x: V): (r: map<ServerThread, V>) {
    val[w := if w in val then j(val[w], x) else x]
  }

  /** On the values of `c` merging by `j` yields the least value above both, in the preorder `le`. */
  ghost predicate RaisesOn<V(!new)>(c: V -> bool, le: Order<V>, j: Join<V>) {
    && (forall a, b :: c(a) && c(b) ==> c(j(a, b)) && le(a, j(a, b)) && le(b, j(a, b)))
    && (forall a, b, ub :: c(a) && c(b) && c(ub) && le(a, ub) && le(b, ub) ==> le(j(a, b), ub))
    && (forall a :: c(a) ==> le(a, a))
    && Ordered(c, le)
  }

  /** The order is transitive on the carrier. */
  ghost predicate Ordered<V(!new)>(c: V -> bool, le: Order<V>) {
    forall x, y, z :: c(x) && c(y) && c(z) && le(x, y) && le(y, z) ==> le(x, z)
  }

  /** A join raises in the order it induces. */
  lemma JoinRaises<V(!new)>(c: V -> bool, le: Order<V>, j: Join<V>)
    requires IsJoinOn(c, j) && forall a, b :: c(a) && c(b) ==> (le(a, b) <==> Leq(j, a, b))
    ensures RaisesOn(c, le, j)
  {
    forall x, y, z | c(x) && c(y) && c(z) && le(x, y) && le(y, z) ensures le(x, z) {
      LeqTrans(c, j, x, y, z);
    }
    forall a, b, ub | c(a) && c(b) && c(ub) && le(a, ub) && le(b, ub) ensures le(j(a, b), ub) {
      JoinIsLeast(c, j, a, b, ub);
    }
    forall a, b | c(a) && c(b) ensures le(a, j(a, b)) && le(b, j(a, b)) {
      JoinIsLeast(c, j, a, b, a);
    }
  }

  lemma OrderTrans<V(!new)>(c: V -> bool, le: Order<V>, x: V, y: V, z: V)
    requires Ordered(c, le) && c(x) && c(y) && c(z) && le(x, y) && le(y, z)
    ensures le(x, z)
  {
  }

  /** A merge is above both of its parts, and above what was below either. */
  lemma RaisedAbove<V(!new)>(c: V -> bool, le: Order<V>, j: Join<V>, was: V, x: V, y: V)
    requires RaisesOn(c, le, j) && c(was) && c(x) && c(y)
    ensures c(j(was, x)) && le(was, j(was, x)) && le(x, j(was, x))
    ensures le(y, was) || le(y, x) ==> le(y, j(was, x))
  {
    if le(y, was) { OrderTrans(c, le, y, was, j(was, x)); }
    if le(y, x) { OrderTrans(c, le, y, x, j(was, x)); }
  }

  ghost predicate Bounds<V(!new)>(c: V -> bool, le: Order<V>, accepted: set<V>, ub: V) {
    c(ub) && forall p :: p in accepted ==> le(p, ub)
  }

  ghost predicate Carried<V(!new)>(c: V -> bool, v: View<V>) {
    && (forall w :: w in v.val ==> c(v.val[w]))
    && (forall q :: q in v.transit ==> c(q.value))
    && (forall p :: p in v.accepted ==> c(p))
  }

  // ---- what is held was written -----------------------------------------------------------------

  /** How a value came about: single writes, merged in some shape. */
  datatype Lineage<V> = One(value: V) | Two(left: Lineage<V>, right: Lineage<V>)

  function Folded<V>(j: Join<V>, h: Lineage<V>): (r: V) {
    match h
    case One(v) => v
    case Two(l, r) => j(Folded(j, l), Folded(j, r))
  }

  predicate MadeOf<V(==)>(h: Lineage<V>, accepted: set<V>) {
    match h
    case One(v) => v in accepted
    case Two(l, r) => MadeOf(l, accepted) && MadeOf(r, accepted)
  }

  ghost predicate Built<V(!new)>(j: Join<V>, accepted: set<V>, x: V) {
    exists h :: MadeOf(h, accepted) && Folded(j, h) == x
  }

  lemma {:induction false} MadeOfMore<V(!new)>(h: Lineage<V>, a: set<V>, b: set<V>)
    requires MadeOf(h, a) && a <= b
    ensures MadeOf(h, b)
  {
    match h
    case One(_) =>
    case Two(l, r) => MadeOfMore(l, a, b); MadeOfMore(r, a, b);
  }

  lemma BuiltMore<V(!new)>(j: Join<V>, a: set<V>, b: set<V>, x: V)
    requires Built(j, a, x) && a <= b
    ensures Built(j, b, x)
  {
    var h :| MadeOf(h, a) && Folded(j, h) == x;
    MadeOfMore(h, a, b);
  }

  lemma BuiltOne<V(!new)>(j: Join<V>, accepted: set<V>, x: V)
    requires x in accepted
    ensures Built(j, accepted, x)
  {
    assert MadeOf(One(x), accepted) && Folded(j, One(x)) == x;
  }

  lemma BuiltTwo<V(!new)>(j: Join<V>, accepted: set<V>, x: V, y: V)
    requires Built(j, accepted, x) && Built(j, accepted, y)
    ensures Built(j, accepted, j(x, y))
  {
    var h :| MadeOf(h, accepted) && Folded(j, h) == x;
    var i :| MadeOf(i, accepted) && Folded(j, i) == y;
    assert MadeOf(Two(h, i), accepted) && Folded(j, Two(h, i)) == j(x, y);
  }

  /** What is made of writes is below every bound of them. */
  lemma {:induction false} FoldedBelow<V(!new)>(c: V -> bool, le: Order<V>, j: Join<V>, accepted: set<V>, h: Lineage<V>,
                                                 ub: V)
    requires RaisesOn(c, le, j) && (forall p :: p in accepted ==> c(p)) && MadeOf(h, accepted)
    requires Bounds(c, le, accepted, ub)
    ensures c(Folded(j, h)) && le(Folded(j, h), ub)
  {
    match h
    case One(_) =>
    case Two(l, r) =>
      FoldedBelow(c, le, j, accepted, l, ub);
      FoldedBelow(c, le, j, accepted, r, ub);
  }

  lemma {:induction false} MadeOfNothing<V>(h: Lineage<V>)
    ensures !MadeOf(h, {})
  {
    match h
    case One(_) =>
    case Two(l, _) => MadeOfNothing(l);
  }

  /** Nothing is held or under way but what the accepted writes merge to. */
  ghost predicate Justified<V(!new)>(j: Join<V>, v: View<V>) {
    && (forall w :: w in v.val ==> Built(j, v.accepted, v.val[w]))
    && (forall q :: q in v.transit ==> Built(j, v.accepted, q.value))
  }

  // ---- what was written arrives -----------------------------------------------------------------

  /** Write `p` is at `w`, or under way to it, or held by a thread that will send it. */
  ghost predicate Reaches<V(!new)>(le: Order<V>, v: View<V>, p: V, w: ServerThread) {
    || (w in v.val && le(p, v.val[w]))
    || (exists q :: q in v.transit && q.to == w && le(p, q.value))
    || (exists u :: u in v.dirty && u in v.val && le(p, v.val[u]))
  }

  ghost predicate Covered<V(!new)>(le: Order<V>, owners: seq<ServerThread>, v: View<V>) {
    forall p, w :: p in v.accepted && w in owners ==> Reaches(le, v, p, w)
  }

  ghost predicate Spreads<V(!new)>(c: V -> bool, le: Order<V>, j: Join<V>, owners: seq<ServerThread>, v: View<V>) {
    && Carried(c, v) && Justified(j, v) && Covered(le, owners, v)
    && (forall u :: u in v.dirty ==> u in v.val && u in owners)
  }

  lemma NothingSpreads<V(!new)>(c: V -> bool, le: Order<V>, j: Join<V>, owners: seq<ServerThread>)
    ensures Spreads(c, le, j, owners, View(map[], {}, {}, {}))
  {
  }

  /** `now` is above `x` and above what `w` held. */
  ghost predicate Raised<V(!new)>(c: V -> bool, le: Order<V>, val: map<ServerThread, V>, w: ServerThread, x: V,
                                  now: V) {
    c(now) && le(x, now) && (w in val ==> le(val[w], now))
  }

  lemma MergeRaises<V(!new)>(c: V -> bool, le: Order<V>, j: Join<V>, val: map<ServerThread, V>, w: ServerThread, x: V)
    requires RaisesOn(c, le, j) && c(x) && (w in val ==> c(val[w]))
    ensures Raised(c, le, val, w, x, MergeAt(j, val, w, x)[w])
  {
  }

  /** What reached `t` before still does when `w` holds more and more threads owe a round. */
  lemma RaisedReaches<V(!new)>(c: V -> bool, le: Order<V>, v: View<V>, w: ServerThread, x: V, now: V, v': View<V>, p: V,
                               t: ServerThread)
    requires Ordered(c, le) && Carried(c, v) && Raised(c, le, v.val, w, x, now) && c(p)
    requires v'.val == v.val[w := now] && v.dirty <= v'.dirty && v'.transit == v.transit
    requires Reaches(le, v, p, t)
    ensures Reaches(le, v', p, t)
  {
    if u :| u in v.dirty && u in v.val && le(p, v.val[u]) {
      assert u in v'.dirty && u in v'.val && le(p, v'.val[u]);
    } else if q :| q in v.transit && q.to == t && le(p, q.value) {
      assert q in v'.transit;
    } else {
      assert t in v.val && le(p, v.val[t]);
    }
  }

  lemma MergeJustified<V(!new)>(j: Join<V>, v: View<V>, w: ServerThread, x: V, accepted: set<V>)
    requires Justified(j, v) && v.accepted <= accepted && Built(j, accepted, x)
    ensures Justified(j, v.(val := MergeAt(j, v.val, w, x), accepted := accepted))
  {
    forall y | Built(j, v.accepted, y) ensures Built(j, accepted, y) {
      BuiltMore(j, v.accepted, accepted, y);
    }
    if w in v.val { BuiltTwo(j, accepted, v.val[w], x); }
  }

  lemma PutCovered<V(!new)>(c: V -> bool, le: Order<V>, owners: seq<ServerThread>, v: View<V>, w: ServerThread, x: V,
                            now: V, v': View<V>)
    requires Ordered(c, le) && Carried(c, v) && Covered(le, owners, v) && Raised(c, le, v.val, w, x, now)
    requires v' == View(v.val[w := now], v.dirty + {w}, v.transit, v.accepted + {x})
    ensures Covered(le, owners, v')
  {
    forall p, t | p in v'.accepted && t in owners ensures Reaches(le, v', p, t) {
      if p == x {
        assert w in v'.dirty && w in v'.val && le(p, v'.val[w]);
      } else {
        RaisedReaches(c, le, v, w, x, now, v', p, t);
      }
    }
  }

  /** A write is accepted at a thread responsible for the key. */
  lemma PutKeeps<V(!new)>(c: V -> bool, le: Order<V>, j: Join<V>, owners: seq<ServerThread>, v: View<V>,
                          w: ServerThread, x: V)
    requires RaisesOn(c, le, j) && Spreads(c, le, j, owners, v) && c(x) && w in owners
    ensures Spreads(c, le, j, owners, View(MergeAt(j, v.val, w, x), v.dirty + {w}, v.transit, v.accepted + {x}))
  {
    var v' := View(MergeAt(j, v.val, w, x), v.dirty + {w}, v.transit, v.accepted + {x});
    MergeRaises(c, le, j, v.val, w, x);
    BuiltOne(j, v'.accepted, x);
    MergeJustified(j, v, w, x, v'.accepted);
    PutCovered(c, le, owners, v, w, x, v'.val[w], v');
  }

  /** A parcel is merged where it was going. */
  lemma ArriveKeeps<V(!new)>(c: V -> bool, le: Order<V>, j: Join<V>, owners: seq<ServerThread>, v: View<V>,
                             w: ServerThread, x: V)
    requires RaisesOn(c, le, j) && Spreads(c, le, j, owners, v) && Parcel(w, x) in v.transit
    ensures Spreads(c, le, j, owners, v.(val := MergeAt(j, v.val, w, x)))
    ensures le(x, MergeAt(j, v.val, w, x)[w])
  {
    var v' := v.(val := MergeAt(j, v.val, w, x));
    assert c(Parcel(w, x).value) && Built(j, v.accepted, Parcel(w, x).value);
    MergeRaises(c, le, j, v.val, w, x);
    MergeJustified(j, v, w, x, v.accepted);
    forall p, t | p in v'.accepted && t in owners ensures Reaches(le, v', p, t) {
      RaisedReaches(c, le, v, w, x, v'.val[w], v', p, t);
    }
  }

  /** Parcels that have been merged are no longer needed. */
  lemma ForgetKeeps<V(!new)>(c: V -> bool, le: Order<V>, j: Join<V>, owners: seq<ServerThread>, v: View<V>,
                             transit: set<Parcel<V>>)
    requires Ordered(c, le) && Spreads(c, le, j, owners, v) && transit <= v.transit
    requires forall q :: q in v.transit && q !in transit ==> q.to in v.val && le(q.value, v.val[q.to])
    ensures Spreads(c, le, j, owners, v.(transit := transit))
  {
    var v' := v.(transit := transit);
    forall p, w | p in v'.accepted && w in owners ensures Reaches(le, v', p, w) {
      assert Reaches(le, v, p, w);
      if q :| q in v.transit && q.to == w && le(p, q.value) {
        if q in transit {
          assert q in v'.transit;
        } else {
          assert le(q.value, v.val[w]);
        }
      }
    }
  }

  lemma SendCovered<V(!new)>(le: Order<V>, owners: seq<ServerThread>, v: View<V>, u: ServerThread, v': View<V>)
    requires Covered(le, owners, v) && u in v.val
    requires v'.val == v.val && v'.accepted == v.accepted && v'.dirty == v.dirty - {u} && v.transit <= v'.transit
    requires forall w :: w in owners && w != u ==> Parcel(w, v.val[u]) in v'.transit
    ensures Covered(le, owners, v')
  {
    forall p, w | p in v'.accepted && w in owners ensures Reaches(le, v', p, w) {
      assert Reaches(le, v, p, w);
      if q :| q in v.transit && q.to == w && le(p, q.value) {
        assert q in v'.transit;
      } else if t :| t in v.dirty && t in v.val && le(p, v.val[t]) {
        if t == u && w != u {
          assert Parcel(w, v.val[u]).to == w;
        } else if t != u {
          assert t in v'.dirty;
        }
      }
    }
  }

  /** A thread that owes a round sends what it holds to all others. */
  lemma SendKeeps<V(!new)>(c: V -> bool, le: Order<V>, j: Join<V>, owners: seq<ServerThread>, v: View<V>,
                           u: ServerThread)
    requires Spreads(c, le, j, owners, v) && u in v.dirty
    ensures Spreads(c, le, j, owners, v.(dirty := v.dirty - {u},
                                         transit := v.transit + set w | w in owners && w != u :: Parcel(w, v.val[u])))
  {
    var v' := v.(dirty := v.dirty - {u}, transit := v.transit + set w | w in owners && w != u :: Parcel(w, v.val[u]));
    forall w | w in owners && w != u ensures Parcel(w, v.val[u]) in v'.transit {
    }
    SendCovered(le, owners, v, u, v');
    forall q | q in v'.transit ensures q in v.transit || q.value == v.val[u] {
    }
  }

  // ---- a quiet state ----------------------------------------------------------------------------

  /** `x` is a join of the writes: above all of them and below everything that is. */
  ghost predicate IsJoinOf<V(!new)>(c: V -> bool, le: Order<V>, accepted: set<V>, x: V) {
    Bounds(c, le, accepted, x) && forall ub :: Bounds(c, le, accepted, ub) ==> le(x, ub)
  }

  /** The order tells values apart. */
  ghost predicate Antisymmetric<V(!new)>(c: V -> bool, le: Order<V>) {
    forall x, y :: c(x) && c(y) && le(x, y) && le(y, x) ==> x == y
  }

  lemma JoinUnique<V(!new)>(c: V -> bool, le: Order<V>, accepted: set<V>, x: V, y: V)
    requires IsJoinOf(c, le, accepted, x) && IsJoinOf(c, le, accepted, y)
    ensures le(x, y) && le(y, x) && (Antisymmetric(c, le) ==> x == y)
  {
  }

  lemma BuiltBelow<V(!new)>(c: V -> bool, le: Order<V>, j: Join<V>, accepted: set<V>, x: V)
    requires RaisesOn(c, le, j) && (forall p :: p in accepted ==> c(p)) && Built(j, accepted, x)
    ensures forall ub :: Bounds(c, le, accepted, ub) ==> le(x, ub)
  {
    var h :| MadeOf(h, accepted) && Folded(j, h) == x;
    forall ub | Bounds(c, le, accepted, ub) ensures le(x, ub) {
      FoldedBelow(c, le, j, accepted, h, ub);
    }
  }

  /** With nothing under way and nothing owed, every replica holds a join of the accepted writes, merged from them. */
  lemma QuietConverges<V(!new)>(c: V -> bool, le: Order<V>, j: Join<V>, owners: seq<ServerThread>, v: View<V>)
    requires RaisesOn(c, le, j) && Spreads(c, le, j, owners, v)
    requires v.dirty == {} && v.transit == {} && v.accepted != {}
    ensures forall w :: w in owners ==>
              w in v.val && IsJoinOf(c, le, v.accepted, v.val[w]) && Built(j, v.accepted, v.val[w])
  {
    forall w | w in owners ensures w in v.val && IsJoinOf(c, le, v.accepted, v.val[w]) {
      var some :| some in v.accepted;
      assert Reaches(le, v, some, w);
      forall p | p in v.accepted ensures le(p, v.val[w]) {
        assert Reaches(le, v, p, w);
      }
      BuiltBelow(c, le, j, v.accepted, v.val[w]);
    }
  }

  /** Before the first write nothing is held or under way. */
  lemma NothingHeld<V(!new)>(c: V -> bool, le: Order<V>, j: Join<V>, owners: seq<ServerThread>, v: View<V>)
    requires Spreads(c, le, j, owners, v) && v.accepted == {}
    ensures v.val == map[] && v.transit == {}
  {
    forall x ensures !Built(j, {}, x) {
      forall h ensures !MadeOf(h, {}) { MadeOfNothing<V>(h); }
    }
  }
}
