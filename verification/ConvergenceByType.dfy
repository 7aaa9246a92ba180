/** What convergence means for each lattice type, and what it means for causal values, whose merge is not a join. */
module ConvergenceByType {
  import opened Types
  import opened Lattice
  import opened Causal
  import opened Values
  import opened Server
  import opened Spread
  import opened GossipNet
  import opened GossipConvergence

  // ---- sets and pairs ---------------------------------------------------------------------------

  predicate HasClock(v: Value) {
    v.SingleCausalValue? || v.MultiCausalValue?
  }

  /** Where merging is a join, its order tells values apart. */
  lemma JoinAgrees(c: Value -> bool)
    requires IsJoinOn(c, Combine) && forall v :: c(v) ==> !HasClock(v)
    ensures RaisesOn(c, Below, Combine) && Antisymmetric(c, Below)
  {
    JoinRaises(c, Below, Combine);
    forall x, y | c(x) && c(y) && Below(x, y) && Below(y, x) ensures x == y {
      LeqAntisymmetric(c, Combine, x, y);
    }
  }

  /** Non-empty sets. */
  predicate SomeSet(v: Value) {
    v.SetValue? && v.elements != {}
  }

  predicate SomeOrderedSet(v: Value) {
    v.OrderedSetValue?
  }

  /** Last-writer-wins pairs from `writes`. */
  function PairsOf(writes: Lww -> bool): (c: Value -> bool) {
    (v: Value) => v.LwwValue? && writes(v.lww)
  }

  lemma SetsMerge()
    ensures IsJoinOn(SomeSet, Combine)
    ensures RaisesOn(SomeSet, Below, Combine) && Antisymmetric(SomeSet, Below)
    ensures forall v :: SomeSet(v) ==> TypeOf(v) == SET && Readable(v)
  {
    forall a, b | SomeSet(a) && SomeSet(b) ensures SomeSet(Combine(a, b)) && Combine(a, b) == Combine(b, a) {
      assert a.elements + b.elements == b.elements + a.elements;
    }
    forall a | SomeSet(a) ensures Combine(a, a) == a {
      assert a.elements + a.elements == a.elements;
    }
    forall a, b, e | SomeSet(a) && SomeSet(b) && SomeSet(e)
      ensures Combine(Combine(a, b), e) == Combine(a, Combine(b, e))
    {
      assert (a.elements + b.elements) + e.elements == a.elements + (b.elements + e.elements);
    }
    JoinAgrees(SomeSet);
  }

  lemma OrderedSetsMerge()
    ensures IsJoinOn(SomeOrderedSet, Combine)
    ensures RaisesOn(SomeOrderedSet, Below, Combine) && Antisymmetric(SomeOrderedSet, Below)
    ensures forall v :: SomeOrderedSet(v) ==> TypeOf(v) == ORDERED_SET && Readable(v)
  {
    forall a, b | SomeOrderedSet(a) && SomeOrderedSet(b)
      ensures SomeOrderedSet(Combine(a, b)) && Combine(a, b) == Combine(b, a)
    {
      assert a.ordered + b.ordered == b.ordered + a.ordered;
    }
    forall a | SomeOrderedSet(a) ensures Combine(a, a) == a {
      assert a.ordered + a.ordered == a.ordered;
    }
    forall a, b, e | SomeOrderedSet(a) && SomeOrderedSet(b) && SomeOrderedSet(e)
      ensures Combine(Combine(a, b), e) == Combine(a, Combine(b, e))
    {
      assert (a.ordered + b.ordered) + e.ordered == a.ordered + (b.ordered + e.ordered);
    }
    JoinAgrees(SomeOrderedSet);
  }

  /** No two different writes share a timestamp. */
  ghost predicate Apart(writes: Lww -> bool) {
    forall a, b :: writes(a) && writes(b) && a.timestamp == b.timestamp ==> a == b
  }

  lemma PairBelow(a: Value, b: Value)
    requires a.LwwValue? && b.LwwValue?
    ensures Below(a, b) <==> a.lww.timestamp <= b.lww.timestamp
    ensures Combine(a, b) == if a.lww.timestamp <= b.lww.timestamp then b else a
  {
  }

  lemma PairsRaise(writes: Lww -> bool)
    ensures RaisesOn(PairsOf(writes), Below, Combine)
  {
    forall a: Value, b: Value | a.LwwValue? && b.LwwValue?
      ensures Below(a, b) <==> a.lww.timestamp <= b.lww.timestamp
      ensures Combine(a, b) == if a.lww.timestamp <= b.lww.timestamp then b else a
    {
      PairBelow(a, b);
    }
  }

  lemma PairsApart(writes: Lww -> bool)
    ensures Antisymmetric(PairsOf(writes), Below) <==> Apart(writes)
  {
    var c := PairsOf(writes);
    forall x, y | c(x) && c(y) && Below(x, y) && Below(y, x) ensures x.lww.timestamp == y.lww.timestamp {
      PairBelow(x, y);
      PairBelow(y, x);
    }
    if Antisymmetric(c, Below) {
      forall a, b | writes(a) && writes(b) && a.timestamp == b.timestamp ensures a == b {
        PairBelow(LwwValue(a), LwwValue(b));
        PairBelow(LwwValue(b), LwwValue(a));
        assert c(LwwValue(a)) && c(LwwValue(b));
      }
    }
  }

  lemma PairsJoin(writes: Lww -> bool)
    ensures IsJoinOn(PairsOf(writes), Combine) <==> Apart(writes)
  {
    var c := PairsOf(writes);
    if IsJoinOn(c, Combine) {
      forall a, b | writes(a) && writes(b) && a.timestamp == b.timestamp ensures a == b {
        assert c(LwwValue(a)) && c(LwwValue(b));
        assert Combine(LwwValue(a), LwwValue(b)) == Combine(LwwValue(b), LwwValue(a));
      }
    }
  }

  lemma PairsRead(writes: Lww -> bool)
    ensures (forall v :: PairsOf(writes)(v) ==> TypeOf(v) == LWW && Readable(v))
       <==> forall a :: writes(a) ==> a.value != ""
  {
    var c := PairsOf(writes);
    if forall v :: c(v) ==> Readable(v) {
      forall a | writes(a) ensures a.value != "" {
        assert c(LwwValue(a));
      }
    }
  }

  /**
   * Last-writer-wins pairs always rise to a latest one. Their order tells them apart, and merging them is a join,
   * exactly when no two different writes share a timestamp; all of them read as present exactly when none is empty.
   * When the replicas of such a key agree is the matter of `TiedWrites.PairsAgreeExactly`.
   */
  lemma PairsMerge(writes: Lww -> bool)
    ensures RaisesOn(PairsOf(writes), Below, Combine)
    ensures Antisymmetric(PairsOf(writes), Below) <==> Apart(writes)
    ensures IsJoinOn(PairsOf(writes), Combine) <==> Apart(writes)
    ensures (forall v :: PairsOf(writes)(v) ==> TypeOf(v) == LWW && Readable(v))
       <==> forall a :: writes(a) ==> a.value != ""
  {
    PairsRaise(writes);
    PairsApart(writes);
    PairsJoin(writes);
    PairsRead(writes);
  }

  // ---- causal values ----------------------------------------------------------------------------

  /** On the values of `c`, `get` finds the version, versions merge by `j`, and the order is that of their clocks. */
  ghost predicate ExtractsBy<V(!new)>(c: Value -> bool, le: Order<Value>, m: Join<Value>, get: Value -> Version<V>,
                                      j: Join<V>) {
    && (forall a, b :: c(a) && c(b) ==> c(m(a, b)) && get(m(a, b)) == MergeVersions(j, get(a), get(b)))
    && (forall a, b :: c(a) && c(b) ==> (le(a, b) <==> ClockLeq(get(a).clock, get(b).clock)))
  }

  ghost predicate Extracts<V(!new)>(c: Value -> bool, get: Value -> Version<V>, j: Join<V>) {
    ExtractsBy(c, Below, Combine, get, j)
  }

  /** The merge tree a value came from. */
  function TreeOf<V>(get: Value -> Version<V>, l: Lineage<Value>): (r: Tree<V>) {
    match l
    case One(v) => Tree.Write(get(v))
    case Two(a, b) => Tree.Join(TreeOf(get, a), TreeOf(get, b))
  }

  lemma {:induction false} TreeEval<V(!new)>(c: Value -> bool, get: Value -> Version<V>, j: Join<V>, bottom: V,
                                             l: Lineage<Value>, accepted: set<Value>)
    requires Extracts(c, get, j) && MadeOf(l, accepted) && forall p :: p in accepted ==> c(p)
    ensures c(Folded(Combine, l)) && Eval(j, bottom, TreeOf(get, l)) == get(Folded(Combine, l))
  {
    match l
    case One(_) =>
    case Two(a, b) =>
      TreeEval(c, get, j, bottom, a, accepted);
      TreeEval(c, get, j, bottom, b, accepted);
  }

  lemma {:induction false} TreeHas<V(!new)>(get: Value -> Version<V>, l: Lineage<Value>, accepted: set<Value>,
                                            w: Version<V>)
    requires MadeOf(l, accepted) && Has(TreeOf(get, l), w)
    ensures exists p :: p in accepted && get(p) == w
  {
    match l
    case One(_) =>
    case Two(a, b) => if Has(TreeOf(get, a), w) { TreeHas(get, a, accepted, w); } else { TreeHas(get, b, accepted, w); }
  }

  /** The versions of the accepted writes. */
  ghost predicate Versions<V(!new)>(get: Value -> Version<V>, accepted: set<Value>, w: Version<V>) {
    exists p :: p in accepted && get(p) == w
  }

  /**
   * Each write bears a tick of its own: a clock that has seen the tick dominates the write, and clocks are not reused.
   */
  ghost predicate Stamped<V(!new)>(get: Value -> Version<V>, accepted: set<Value>, origin: Version<V> -> string) {
    && (forall w :: Versions(get, accepted, w) ==> origin(w) in w.clock)
    && (forall v, w :: Versions(get, accepted, v) && Versions(get, accepted, w) && origin(w) in v.clock ==>
          v.clock[origin(w)] < w.clock[origin(w)] || ClockLeq(w.clock, v.clock))
    && (forall v, w :: Versions(get, accepted, v) && Versions(get, accepted, w) && v.clock == w.clock ==> v == w)
  }

  /** No other accepted write dominates `p`. */
  ghost predicate Latest<V(!new)>(get: Value -> Version<V>, accepted: set<Value>, p: Value) {
    p in accepted && forall q :: q in accepted && ClockLeq(get(p).clock, get(q).clock) ==> get(q) == get(p)
  }

  /** Every clock is below `clock`, and every entry of it comes from one of them. */
  ghost predicate JoinsClocks<V(!new)>(get: Value -> Version<V>, accepted: set<Value>, clock: Clock) {
    && (forall p :: p in accepted ==> ClockLeq(get(p).clock, clock))
    && (forall k :: k in clock ==> exists p :: p in accepted && k in get(p).clock && get(p).clock[k] == clock[k])
  }

  /** The tree of what a replica holds, with one accepted write set beside it. */
  lemma Beside<V(!new)>(get: Value -> Version<V>, accepted: set<Value>, origin: Version<V> -> string, l: Lineage<Value>,
                        p: Value)
    requires MadeOf(l, accepted) && Stamped(get, accepted, origin) && Latest(get, accepted, p)
    ensures var whole := Tree.Join(TreeOf(get, l), Tree.Write(get(p)));
            WellFormed(whole, origin) && Maximal(whole, get(p))
  {
    var whole := Tree.Join(TreeOf(get, l), Tree.Write(get(p)));
    forall w | Has(whole, w) ensures Versions(get, accepted, w) {
      if Has(TreeOf(get, l), w) {
        TreeHas(get, l, accepted, w);
      } else {
        assert Has(Tree.Write(get(p)), w) && p in accepted;
      }
    }
    forall v | Has(whole, v) && ClockLeq(get(p).clock, v.clock) ensures v == get(p) {
      var q :| q in accepted && get(q) == v;
    }
  }

  /** What a replica holds of a latest write: the write took part in the merge, so its value is kept. */
  lemma LatestKept<V(!new)>(c: Value -> bool, get: Value -> Version<V>, j: Join<V>, bottom: V, accepted: set<Value>,
                            origin: Version<V> -> string, l: Lineage<Value>, p: Value)
    requires Extracts(c, get, j) && IsJoinOn(Everything<V>(), j) && (forall q :: q in accepted ==> c(q))
    requires MadeOf(l, accepted) && Stamped(get, accepted, origin) && Latest(get, accepted, p)
    requires ClockLeq(get(p).clock, get(Folded(Combine, l)).clock)
    ensures Has(TreeOf(get, l), get(p)) && Leq(j, get(p).value, get(Folded(Combine, l)).value)
  {
    var t := TreeOf(get, l);
    var whole := Tree.Join(t, Tree.Write(get(p)));
    TreeEval(c, get, j, bottom, l, accepted);
    Beside(get, accepted, origin, l, p);
    var v := CoveredByOne(j, bottom, whole, t, get(p), origin);
    assert Has(whole, v);
    KeepsMaximal(Everything<V>(), j, bottom, whole, t, origin, get(p));
  }

  /** Accepted write `p` has seen all others. */
  ghost predicate Dominates<V(!new)>(get: Value -> Version<V>, accepted: set<Value>, p: Value) {
    p in accepted && forall q :: q in accepted ==> ClockLeq(get(q).clock, get(p).clock)
  }

  lemma DominatingLatest<V(!new)>(get: Value -> Version<V>, accepted: set<Value>, origin: Version<V> -> string,
                                  p: Value)
    requires Stamped(get, accepted, origin) && Dominates(get, accepted, p)
    ensures Latest(get, accepted, p)
  {
    forall q | q in accepted && ClockLeq(get(p).clock, get(q).clock) ensures get(q) == get(p) {
      ClockLaws(get(p).clock, get(q).clock, get(p).clock);
      assert Versions(get, accepted, get(p)) && Versions(get, accepted, get(q));
    }
  }

  /** A write that has seen all others is all that a replica holds. */
  lemma DominatingHeld<V(!new)>(c: Value -> bool, get: Value -> Version<V>, j: Join<V>, bottom: V, accepted: set<Value>,
                                origin: Version<V> -> string, l: Lineage<Value>, p: Value)
    requires Extracts(c, get, j) && IsJoinOn(Everything<V>(), j) && (forall q :: q in accepted ==> c(q))
    requires MadeOf(l, accepted) && Stamped(get, accepted, origin) && Dominates(get, accepted, p)
    requires ClockLeq(get(p).clock, get(Folded(Combine, l)).clock)
    ensures get(Folded(Combine, l)) == get(p)
  {
    var t := TreeOf(get, l);
    var whole := Tree.Join(t, Tree.Write(get(p)));
    DominatingLatest(get, accepted, origin, p);
    LatestKept(c, get, j, bottom, accepted, origin, l, p);
    Beside(get, accepted, origin, l, p);
    forall w | Has(t, w) ensures ClockLeq(w.clock, get(p).clock) {
      TreeHas(get, l, accepted, w);
    }
    assert forall w :: Has(t, w) ==> Has(whole, w);
    DominatingWins(j, bottom, whole, t, origin, get(p));
    TreeEval(c, get, j, bottom, l, accepted);
  }

  lemma ClocksJoin<V(!new)>(c: Value -> bool, get: Value -> Version<V>, j: Join<V>, bottom: V, accepted: set<Value>,
                            l: Lineage<Value>)
    requires Extracts(c, get, j) && (forall q :: q in accepted ==> c(q)) && MadeOf(l, accepted)
    requires forall p :: p in accepted ==> Below(p, Folded(Combine, l))
    ensures JoinsClocks(get, accepted, get(Folded(Combine, l)).clock)
  {
    TreeEval(c, get, j, bottom, l, accepted);
    var clock := get(Folded(Combine, l)).clock;
    forall k | k in clock ensures exists p :: p in accepted && k in get(p).clock && get(p).clock[k] == clock[k] {
      var w := ClockAttained(j, bottom, TreeOf(get, l), k);
      TreeHas(get, l, accepted, w);
    }
  }

  /** What a replica of a causal key holds when all is quiet. */
  ghost predicate CausallyConverged<V(!new)>(get: Value -> Version<V>, j: Join<V>, bottom: V, accepted: set<Value>,
                                             origin: Version<V> -> string, x: Value) {
    && JoinsClocks(get, accepted, get(x).clock)
    && (Stamped(get, accepted, origin) ==>
          && (forall p :: Latest(get, accepted, p) ==> Leq(j, get(p).value, get(x).value))
          && (forall p :: Dominates(get, accepted, p) ==> get(x) == get(p)))
    && (forall top :: Leq(j, bottom, top) && (forall p :: p in accepted ==> Leq(j, get(p).value, top)) ==>
          Leq(j, get(x).value, top))
  }

  lemma HeldConverged<V(!new)>(c: Value -> bool, get: Value -> Version<V>, j: Join<V>, bottom: V, accepted: set<Value>,
                               origin: Version<V> -> string, x: Value)
    requires Extracts(c, get, j) && IsJoinOn(Everything<V>(), j) && (forall q :: q in accepted ==> c(q))
    requires IsJoinOf(c, Below, accepted, x) && Built(Combine, accepted, x)
    ensures CausallyConverged(get, j, bottom, accepted, origin, x)
  {
    var l :| MadeOf(l, accepted) && Folded(Combine, l) == x;
    ClocksJoin(c, get, j, bottom, accepted, l);
    if Stamped(get, accepted, origin) {
      forall p | Latest(get, accepted, p) ensures Leq(j, get(p).value, get(x).value) {
        LatestKept(c, get, j, bottom, accepted, origin, l, p);
      }
      forall p | Dominates(get, accepted, p) ensures get(x) == get(p) {
        DominatingHeld(c, get, j, bottom, accepted, origin, l, p);
      }
    }
    forall top | Leq(j, bottom, top) && forall p :: p in accepted ==> Leq(j, get(p).value, top)
      ensures Leq(j, get(x).value, top)
    {
      WrittenOnly(c, get, j, bottom, accepted, l, top);
    }
  }

  lemma WrittenOnly<V(!new)>(c: Value -> bool, get: Value -> Version<V>, j: Join<V>, bottom: V, accepted: set<Value>,
                             l: Lineage<Value>, top: V)
    requires Extracts(c, get, j) && IsJoinOn(Everything<V>(), j) && (forall q :: q in accepted ==> c(q))
    requires MadeOf(l, accepted) && Leq(j, bottom, top) && forall p :: p in accepted ==> Leq(j, get(p).value, top)
    ensures Leq(j, get(Folded(Combine, l)).value, top)
  {
    var t := TreeOf(get, l);
    TreeEval(c, get, j, bottom, l, accepted);
    forall w | Has(t, w) ensures Leq(j, w.value, top) {
      TreeHas(get, l, accepted, w);
    }
    NothingUnwritten(Everything<V>(), j, bottom, t, top);
  }

  // ---- the two causal types ---------------------------------------------------------------------

  /** Single-key causal values with something to read. */
  predicate SomeSingle(v: Value) {
    v.SingleCausalValue? && v.single.value != {}
  }

  predicate SomeMulti(v: Value) {
    v.MultiCausalValue? && v.multi.value.values != {}
  }

  function SingleOf(v: Value): (r: Version<set<string>>) {
    if v.SingleCausalValue? then v.single else Version(map[], {})
  }

  function MultiOf(v: Value): (r: Version<Tagged>) {
    if v.MultiCausalValue? then v.multi else Version(map[], NO_TAGS)
  }

  ghost predicate Closed(c: Value -> bool) {
    forall a, b :: c(a) && c(b) ==> c(Combine(a, b))
  }

  lemma SingleExtracts(c: Value -> bool)
    requires Closed(c) && forall v :: c(v) ==> v.SingleCausalValue?
    ensures Extracts(c, SingleOf, Union)
  {
  }

  lemma MultiExtracts(c: Value -> bool)
    requires Closed(c) && forall v :: c(v) ==> v.MultiCausalValue?
    ensures Extracts(c, MultiOf, TaggedJoin)
  {
  }

  lemma MergedAbove<V(!new)>(c: Value -> bool, le: Order<Value>, m: Join<Value>, get: Value -> Version<V>, j: Join<V>,
                             a: Value, b: Value, ub: Value)
    requires ExtractsBy(c, le, m, get, j) && c(a) && c(b) && c(ub)
    ensures le(a, m(a, b)) && le(b, m(a, b)) && (le(a, ub) && le(b, ub) ==> le(m(a, b), ub))
  {
    ClockJoinLeast(get(a).clock, get(b).clock, get(ub).clock);
    assert get(m(a, b)).clock == ClockJoin(get(a).clock, get(b).clock);
  }

  lemma ClocksOrder<V(!new)>(c: Value -> bool, le: Order<Value>, m: Join<Value>, get: Value -> Version<V>, j: Join<V>,
                             x: Value, y: Value, z: Value)
    requires ExtractsBy(c, le, m, get, j) && c(x) && c(y) && c(z)
    ensures le(x, x) && (le(x, y) && le(y, z) ==> le(x, z))
  {
    ClockLaws(get(x).clock, get(y).clock, get(z).clock);
  }

  lemma ClocksRaise<V(!new)>(c: Value -> bool, le: Order<Value>, m: Join<Value>, get: Value -> Version<V>, j: Join<V>)
    requires ExtractsBy(c, le, m, get, j)
    ensures RaisesOn(c, le, m)
  {
    forall a, b, ub | c(a) && c(b) && c(ub)
      ensures le(a, m(a, b)) && le(b, m(a, b)) && (le(a, ub) && le(b, ub) ==> le(m(a, b), ub))
    {
      MergedAbove(c, le, m, get, j, a, b, ub);
    }
    forall a, b | c(a) && c(b) ensures le(a, m(a, b)) && le(b, m(a, b)) {
      MergedAbove(c, le, m, get, j, a, b, a);
    }
    forall x, y, z | c(x) && c(y) && c(z) ensures le(x, x) && (le(x, y) && le(y, z) ==> le(x, z)) {
      ClocksOrder(c, le, m, get, j, x, y, z);
    }
    forall x | c(x) ensures le(x, x) {
      ClocksOrder(c, le, m, get, j, x, x, x);
    }
  }

  /** Causal values rise by their clocks. */
  lemma CausalRises()
    ensures RaisesOn(SomeSingle, Below, Combine) && RaisesOn(SomeMulti, Below, Combine)
    ensures forall v :: SomeSingle(v) ==> TypeOf(v) == SINGLE_CAUSAL && Readable(v)
    ensures forall v :: SomeMulti(v) ==> TypeOf(v) == MULTI_CAUSAL && Readable(v)
  {
    SingleExtracts(SomeSingle);
    MultiExtracts(SomeMulti);
    ClocksRaise(SomeSingle, Below, Combine, SingleOf, Union);
    ClocksRaise(SomeMulti, Below, Combine, MultiOf, TaggedJoin);
  }

  /**
   * Causal keys. In every run, whenever nothing about a single-key causal key is under way: each replica's clock is
   * the join of the clocks of the accepted writes, so all replicas have the same clock; its elements were all written;
   * and if each write bears a tick of its own, every element of every write that no other dominates is there, and a
   * write that dominates all others is exactly what the replica holds. `TiedWrites.TiedClocks` shows that the values of
   * two replicas can differ all the same.
   */
  lemma SingleCausalConverges(d: Deployment, nets: seq<Net>, steps: seq<NetStep>, i: nat, key: Key, w: ServerThread,
                              origin: Version<set<string>> -> string)
    requires Sane(d) && IsNetRun(d, nets, steps) && NetInit(d, nets[0]) && d.kind(key) == SINGLE_CAUSAL
    requires i < |nets| && Quiet(nets[i], key) && AcceptedFor(nets[i], key) != {} && w in Replicas(d, key)
    ensures w in nets[i].servers && Val(nets[i].servers[w], key).Some?
    ensures CausallyConverged(SingleOf, Union, {}, AcceptedFor(nets[i], key), origin,
                              Val(nets[i].servers[w], key).value)
  {
    ReplicasConverge(d, nets, steps, i, key);
    AcceptedCarried(d, nets, steps, i, key);
    SingleHeld(d, key, AcceptedFor(nets[i], key), origin, Val(nets[i].servers[w], key).value);
  }

  lemma SingleHeld(d: Deployment, key: Key, accepted: set<Value>, origin: Version<set<string>> -> string, x: Value)
    requires Merging(d) && Typed(d) && d.kind(key) == SINGLE_CAUSAL && forall p :: p in accepted ==> d.carrier(key)(p)
    requires IsJoinOf(d.carrier(key), Below, accepted, x) && Built(Combine, accepted, x)
    ensures CausallyConverged(SingleOf, Union, {}, accepted, origin, x)
  {
    CarrierIs(d, key);
    SingleExtracts(d.carrier(key));
    UnionIsJoin();
    HeldConverged(d.carrier(key), SingleOf, Union, {}, accepted, origin, x);
  }

  /** The same for multi-key causal keys, dependencies included. */
  lemma MultiCausalConverges(d: Deployment, nets: seq<Net>, steps: seq<NetStep>, i: nat, key: Key, w: ServerThread,
                             origin: Version<Tagged> -> string)
    requires Sane(d) && IsNetRun(d, nets, steps) && NetInit(d, nets[0]) && d.kind(key) == MULTI_CAUSAL
    requires i < |nets| && Quiet(nets[i], key) && AcceptedFor(nets[i], key) != {} && w in Replicas(d, key)
    ensures w in nets[i].servers && Val(nets[i].servers[w], key).Some?
    ensures CausallyConverged(MultiOf, TaggedJoin, NO_TAGS, AcceptedFor(nets[i], key), origin,
                              Val(nets[i].servers[w], key).value)
  {
    ReplicasConverge(d, nets, steps, i, key);
    AcceptedCarried(d, nets, steps, i, key);
    MultiHeld(d, key, AcceptedFor(nets[i], key), origin, Val(nets[i].servers[w], key).value);
  }

  lemma MultiHeld(d: Deployment, key: Key, accepted: set<Value>, origin: Version<Tagged> -> string, x: Value)
    requires Merging(d) && Typed(d) && d.kind(key) == MULTI_CAUSAL && forall p :: p in accepted ==> d.carrier(key)(p)
    requires IsJoinOf(d.carrier(key), Below, accepted, x) && Built(Combine, accepted, x)
    ensures CausallyConverged(MultiOf, TaggedJoin, NO_TAGS, accepted, origin, x)
  {
    CarrierIs(d, key);
    MultiExtracts(d.carrier(key));
    TaggedJoinIsJoin();
    HeldConverged(d.carrier(key), MultiOf, TaggedJoin, NO_TAGS, accepted, origin, x);
  }

  lemma CarrierIs(d: Deployment, key: Key)
    requires Merging(d) && Typed(d)
    ensures Closed(d.carrier(key)) && forall v :: d.carrier(key)(v) ==> TypeOf(v) == d.kind(key)
  {
    assert Joins(d, key) && OneType(d, key);
  }

  lemma AcceptedCarried(d: Deployment, nets: seq<Net>, steps: seq<NetStep>, i: nat, key: Key)
    requires Sane(d) && IsNetRun(d, nets, steps) && NetInit(d, nets[0]) && i < |nets|
    ensures forall p :: p in AcceptedFor(nets[i], key) ==> d.carrier(key)(p)
  {
    RunKeepsNet(d, nets, steps);
    assert Good(d, nets[i], key);
    GoodCarried(d, nets[i], key);
  }

  lemma GoodCarried(d: Deployment, net: Net, key: Key)
    requires Carried(d.carrier(key), ViewOf(net, key))
    ensures forall p :: p in AcceptedFor(net, key) ==> d.carrier(key)(p)
  {
    forall p | p in AcceptedFor(net, key) ensures d.carrier(key)(p) {
      assert GossipNet.Write(key, p) in net.accepted;
      assert p in ViewOf(net, key).accepted;
    }
  }

  /** Two clocks that join the same clocks are the same. */
  lemma SameClocks<V(!new)>(get: Value -> Version<V>, accepted: set<Value>, a: Clock, b: Clock)
    requires JoinsClocks(get, accepted, a) && JoinsClocks(get, accepted, b)
    ensures a == b
  {
    AttainedLeq(get, accepted, a, b);
    AttainedLeq(get, accepted, b, a);
    ClockLaws(a, b, a);
  }

  lemma AttainedLeq<V(!new)>(get: Value -> Version<V>, accepted: set<Value>, a: Clock, b: Clock)
    requires JoinsClocks(get, accepted, a) && JoinsClocks(get, accepted, b)
    ensures ClockLeq(a, b)
  {
    forall k | k in a ensures k in b && a[k] <= b[k] {
      EntryBelow(get, accepted, a, b, k);
    }
    ClockLeqPointwise(a, b);
  }

  lemma EntryBelow<V(!new)>(get: Value -> Version<V>, accepted: set<Value>, a: Clock, b: Clock, k: string)
    requires JoinsClocks(get, accepted, a) && JoinsClocks(get, accepted, b) && k in a
    ensures k in b && a[k] <= b[k]
  {
    var p :| p in accepted && k in get(p).clock && get(p).clock[k] == a[k];
    ClockLeqPointwise(get(p).clock, b);
  }
}
