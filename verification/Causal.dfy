/**
 * The vector-clock merge of the causal lattices. It is written once, for any merge of the values that ride on the
 * clock: sets of strings for single-key causality, and those together with a dependency map for multi-key causality.
 */
module Causal {
  import opened Lattice

  type Clock = map<string, uint32>

  datatype Version<V> = Version(clock: Clock, value: V)

  function ClockJoin(a: Clock, b: Clock): (r: Clock) {
    MapJoin(MaxMerge, a, b)
  }

  predicate ClockLeq(a: Clock, b: Clock) {
    ClockJoin(a, b) == b
  }

  /**
   * `do_merge`: an incoming clock that dominates (or equals) replaces, a concurrent one merges, an older one is
   * ignored.
   */
  function MergeVersions<V>(j: Join<V>, element: Version<V>, p: Version<V>): (r: Version<V>) {
    var clock := ClockJoin(element.clock, p.clock);
    if clock == p.clock then Version(clock, p.value)
    else if clock != element.clock then Version(clock, j(element.value, p.value))
    else Version(clock, element.value)
  }

  // ---- the order of clocks ----------------------------------------------------------------------

  lemma MaxIsJoin()
    ensures IsJoinOn(Everything<uint32>(), MaxMerge)
  {
  }

  lemma ClockLeqPointwise(a: Clock, b: Clock)
    ensures ClockLeq(a, b) <==> forall k :: k in a ==> k in b && a[k] <= b[k]
  {
    MapLeq(MaxMerge, a, b);
    assert forall k :: k in a && k in b ==> (Leq(MaxMerge, a[k], b[k]) <==> a[k] <= b[k]);
  }

  lemma ClockEquations(a: Clock, b: Clock, c: Clock)
    ensures ClockJoin(a, b) == ClockJoin(b, a)
    ensures ClockJoin(a, a) == a
    ensures ClockJoin(ClockJoin(a, b), c) == ClockJoin(a, ClockJoin(b, c))
  {
    MaxIsJoin();
    MapJoinCommutes(Everything<uint32>(), MaxMerge, a, b);
    MapJoinIdempotent(Everything<uint32>(), MaxMerge, a);
    MapJoinAssociative(Everything<uint32>(), MaxMerge, a, b, c);
  }

  lemma ClockLaws(a: Clock, b: Clock, c: Clock)
    ensures ClockJoin(a, b) == ClockJoin(b, a)
    ensures ClockJoin(a, a) == a
    ensures ClockJoin(ClockJoin(a, b), c) == ClockJoin(a, ClockJoin(b, c))
    ensures ClockLeq(a, b) && ClockLeq(b, c) ==> ClockLeq(a, c)
    ensures ClockLeq(a, b) && ClockLeq(b, a) ==> a == b
  {
    ClockEquations(a, b, c);
  }

  lemma ClockJoinLeast(a: Clock, b: Clock, c: Clock)
    ensures ClockLeq(a, ClockJoin(a, b)) && ClockLeq(b, ClockJoin(a, b))
    ensures ClockLeq(ClockJoin(a, b), c) <==> ClockLeq(a, c) && ClockLeq(b, c)
  {
    ClockEquations(a, a, b);
    ClockEquations(b, b, a);
    ClockEquations(a, b, c);
    ClockLaws(a, ClockJoin(a, b), c);
    ClockLaws(b, ClockJoin(a, b), c);
  }

  // ---- the laws a single merge keeps ------------------------------------------------------------

  lemma MergeIdempotent<V>(j: Join<V>, a: Version<V>)
    ensures MergeVersions(j, a, a) == a
  {
    ClockLaws(a.clock, a.clock, a.clock);
  }

  /** Two versions merge to the same thing either way exactly when their clocks differ or they are equal. */
  lemma MergeCommutes<V(!new)>(c: V -> bool, j: Join<V>, a: Version<V>, b: Version<V>)
    requires IsJoinOn(c, j) && c(a.value) && c(b.value)
    ensures MergeVersions(j, a, b) == MergeVersions(j, b, a) <==> (a.clock != b.clock || a == b)
  {
    ClockLaws(a.clock, b.clock, a.clock);
  }

  /** Merging is associative on these clocks, whatever the values. */
  ghost predicate AssociativeOn(a: Clock, b: Clock, c: Clock) {
    forall x: set<string>, y: set<string>, z: set<string> ::
      MergeVersions(Union, MergeVersions(Union, Version(a, x), Version(b, y)), Version(c, z))
        == MergeVersions(Union, Version(a, x), MergeVersions(Union, Version(b, y), Version(c, z)))
  }

  predicate Concurrent(a: Clock, b: Clock) {
    !ClockLeq(a, b) && !ClockLeq(b, a)
  }

  /** A condition on three clocks alone: the middle one settles matters, or none is covered by the others together. */
  predicate Regroupable(a: Clock, b: Clock, c: Clock) {
    || ClockLeq(a, b)
    || (ClockLeq(c, b) && c != b)
    || (ClockLeq(b, a) && ClockLeq(b, c))
    || ClockLeq(ClockJoin(a, b), c)
    || (ClockLeq(ClockJoin(b, c), a) && ClockJoin(b, c) != a)
    || (Concurrent(a, b) && Concurrent(a, c) && Concurrent(b, c)
        && !ClockLeq(a, ClockJoin(b, c)) && !ClockLeq(c, ClockJoin(a, b)))
  }

  /** Every order fact about three clocks and their pairwise joins. */
  lemma ThreeClocks(a: Clock, b: Clock, c: Clock)
    ensures ClockJoin(ClockJoin(a, b), c) == ClockJoin(a, ClockJoin(b, c))
    ensures ClockJoin(a, b) == a <==> ClockLeq(b, a)
    ensures ClockJoin(b, c) == b <==> ClockLeq(c, b)
    ensures ClockJoin(ClockJoin(a, b), c) == ClockJoin(a, b) <==> ClockLeq(c, ClockJoin(a, b))
    ensures ClockJoin(a, ClockJoin(b, c)) == a <==> ClockLeq(ClockJoin(b, c), a)
    ensures ClockLeq(ClockJoin(a, b), c) <==> ClockLeq(a, c) && ClockLeq(b, c)
    ensures ClockLeq(ClockJoin(b, c), a) <==> ClockLeq(b, a) && ClockLeq(c, a)
    ensures ClockLeq(a, b) || ClockLeq(a, c) ==> ClockLeq(a, ClockJoin(b, c))
    ensures ClockLeq(c, a) || ClockLeq(c, b) ==> ClockLeq(c, ClockJoin(a, b))
    ensures ClockLeq(a, b) ==> ClockJoin(a, b) == b
    ensures ClockLeq(b, c) ==> ClockJoin(b, c) == c
    ensures ClockLeq(a, b) && ClockLeq(b, c) ==> ClockLeq(a, c)
    ensures ClockLeq(c, b) && ClockLeq(b, a) ==> ClockLeq(c, a)
    ensures ClockLeq(a, c) && ClockLeq(c, b) ==> ClockLeq(a, b)
    ensures ClockLeq(b, a) && ClockLeq(a, c) ==> ClockLeq(b, c)
    ensures ClockLeq(c, a) && ClockLeq(a, b) ==> ClockLeq(c, b)
    ensures ClockLeq(b, c) && ClockLeq(c, a) ==> ClockLeq(b, a)
    ensures ClockLeq(a, b) && ClockLeq(b, a) ==> a == b
    ensures ClockLeq(a, c) && ClockLeq(c, a) ==> a == c
    ensures ClockLeq(b, c) && ClockLeq(c, b) ==> b == c
    ensures ClockLeq(a, a) && ClockLeq(b, b) && ClockLeq(c, c)
  {
    ClockLaws(a, b, c);
    ClockLaws(c, b, a);
    ClockLaws(a, c, b);
    ClockLaws(b, a, c);
    ClockLaws(c, a, b);
    ClockLaws(b, c, a);
    ClockLaws(ClockJoin(a, b), c, a);
    ClockLaws(a, ClockJoin(b, c), a);
    ClockJoinLeast(a, b, c);
    ClockJoinLeast(b, c, a);
    ClockLaws(a, b, ClockJoin(b, c));
    ClockLaws(a, c, ClockJoin(b, c));
    ClockLaws(c, a, ClockJoin(a, b));
    ClockLaws(c, b, ClockJoin(a, b));
  }

  lemma RegroupableSuffices(a: Clock, b: Clock, c: Clock, x: set<string>, y: set<string>, z: set<string>)
    requires Regroupable(a, b, c)
    ensures MergeVersions(Union, MergeVersions(Union, Version(a, x), Version(b, y)), Version(c, z))
         == MergeVersions(Union, Version(a, x), MergeVersions(Union, Version(b, y), Version(c, z)))
  {
    ThreeClocks(a, b, c);
    assert (x + y) + z == x + (y + z);
  }

  /** Which elements survive one merge. */
  lemma Survives(e: Version<set<string>>, p: Version<set<string>>, s: string)
    ensures MergeVersions(Union, e, p).clock == ClockJoin(e.clock, p.clock)
    ensures s in MergeVersions(Union, e, p).value <==>
              if ClockLeq(e.clock, p.clock) then s in p.value
              else if ClockLeq(p.clock, e.clock) then s in e.value
              else s in e.value || s in p.value
  {
    ClockEquations(e.clock, p.clock, e.clock);
  }

  /** What survives of three one-element values, merged from the left, */
  lemma SurvivorsLeft(a: Clock, b: Clock, c: Clock, x: string, y: string, z: string)
    requires x != y && y != z && x != z
    ensures var l := MergeVersions(Union, MergeVersions(Union, Version(a, {x}), Version(b, {y})),
                                   Version(c, {z})).value;
            var last := ClockLeq(ClockJoin(a, b), c);
            && (x in l <==> !last && !ClockLeq(a, b))
            && (y in l <==> !last && (ClockLeq(a, b) || !ClockLeq(b, a)))
            && (z in l <==> last || !ClockLeq(c, ClockJoin(a, b)))
  {
    var m := MergeVersions(Union, Version(a, {x}), Version(b, {y}));
    forall s ensures s in {x, y, z} ==> (s in m.value <==>
                if ClockLeq(a, b) then s == y else if ClockLeq(b, a) then s == x else s != z) {
      Survives(Version(a, {x}), Version(b, {y}), s);
    }
    Survives(m, Version(c, {z}), x);
    Survives(m, Version(c, {z}), y);
    Survives(m, Version(c, {z}), z);
  }

  /** and from the right. */
  lemma SurvivorsRight(a: Clock, b: Clock, c: Clock, x: string, y: string, z: string)
    requires x != y && y != z && x != z
    ensures var r := MergeVersions(Union, Version(a, {x}),
                                   MergeVersions(Union, Version(b, {y}), Version(c, {z}))).value;
            var first := !ClockLeq(a, ClockJoin(b, c)) && ClockLeq(ClockJoin(b, c), a);
            && (x in r <==> !ClockLeq(a, ClockJoin(b, c)))
            && (y in r <==> !first && !ClockLeq(b, c))
            && (z in r <==> !first && (ClockLeq(b, c) || !ClockLeq(c, b)))
  {
    var m := MergeVersions(Union, Version(b, {y}), Version(c, {z}));
    forall s ensures s in {x, y, z} ==> (s in m.value <==>
                if ClockLeq(b, c) then s == z else if ClockLeq(c, b) then s == y else s != x) {
      Survives(Version(b, {y}), Version(c, {z}), s);
    }
    Survives(Version(a, {x}), m, x);
    Survives(Version(a, {x}), m, y);
    Survives(Version(a, {x}), m, z);
  }

  lemma IrregularDiffers(a: Clock, b: Clock, c: Clock, x: string, y: string, z: string)
    requires !Regroupable(a, b, c)
    requires x != y && y != z && x != z
    ensures !AssociativeOn(a, b, c)
  {
    SurvivorsLeft(a, b, c, x, y, z);
    SurvivorsRight(a, b, c, x, y, z);
    ThreeClocks(a, b, c);
  }

  /**
   * Lattice merges are meant to be associative. The causal merge is associative, for all values, exactly on the clocks
   * that are `Regroupable`; `NotAssociative` shows a failure.
   */
  lemma AssociativeExactly(a: Clock, b: Clock, c: Clock)
    ensures AssociativeOn(a, b, c) <==> Regroupable(a, b, c)
  {
    if Regroupable(a, b, c) {
      forall x: set<string>, y: set<string>, z: set<string>
        ensures MergeVersions(Union, MergeVersions(Union, Version(a, x), Version(b, y)), Version(c, z))
             == MergeVersions(Union, Version(a, x), MergeVersions(Union, Version(b, y), Version(c, z)))
      {
        RegroupableSuffices(a, b, c, x, y, z);
      }
    } else {
      IrregularDiffers(a, b, c, "x", "y", "z");
    }
  }

  /** A clock, one of somebody else's, and a later one of the first. */
  lemma OthersBetween(a: Clock, b: Clock, c: Clock, p: string, q: string)
    requires p in a && p in c && p !in b && q in b && q !in a && q !in c && a[p] < c[p] && ClockLeq(a, c)
    ensures !Regroupable(a, b, c)
  {
    ClockLeqPointwise(a, b);
    ClockLeqPointwise(b, a);
    ClockLeqPointwise(c, b);
    ClockLeqPointwise(b, c);
    ClockLeqPointwise(c, a);
    ClockJoinLeast(a, b, c);
    ClockJoinLeast(b, c, a);
  }

  lemma NotAssociative()
    ensures !AssociativeOn(map["p" := 1], map["q" := 1], map["p" := 2])
  {
    var a: Clock, b: Clock, c: Clock := map["p" := 1], map["q" := 1], map["p" := 2];
    ClockLeqPointwise(a, c);
    assert "q" in b && "p" in a && a["p"] == 1 && c["p"] == 2;
    OthersBetween(a, b, c, "p", "q");
    AssociativeExactly(a, b, c);
  }

  // ---- merging many writes ----------------------------------------------------------------------

  /** How replicas combine writes: in any shape, with repetitions, starting from the empty element. */
  datatype Tree<V> = Empty | Write(version: Version<V>) | Join(left: Tree<V>, right: Tree<V>)

  function Eval<V>(j: Join<V>, bottom: V, t: Tree<V>): (r: Version<V>) {
    match t
    case Empty => Version(map[], bottom)
    case Write(w) => w
    case Join(l, r) => MergeVersions(j, Eval(j, bottom, l), Eval(j, bottom, r))
  }

  predicate Has<V(==)>(t: Tree<V>, w: Version<V>) {
    match t
    case Empty => false
    case Write(v) => v == w
    case Join(l, r) => Has(l, w) || Has(r, w)
  }

  /**
   * Each write bears a tick of its own: a clock that has seen the tick dominates the write, and clocks are not reused.
   */
  ghost predicate WellFormed<V(!new)>(t: Tree<V>, origin: Version<V> -> string) {
    && (forall w :: Has(t, w) ==> origin(w) in w.clock)
    && (forall v, w :: Has(t, v) && Has(t, w) && origin(w) in v.clock && v.clock[origin(w)] >= w.clock[origin(w)] ==>
          ClockLeq(w.clock, v.clock))
    && (forall v, w :: Has(t, v) && Has(t, w) && v.clock == w.clock ==> v == w)
  }

  /** No other write of the tree dominates `w`. */
  ghost predicate Maximal<V(!new)>(t: Tree<V>, w: Version<V>) {
    Has(t, w) && forall v :: Has(t, v) && ClockLeq(w.clock, v.clock) ==> v == w
  }

  ghost predicate ValuesIn<V(!new)>(t: Tree<V>, c: V -> bool) {
    forall w :: Has(t, w) ==> c(w.value)
  }

  lemma {:induction false} EvalInCarrier<V(!new)>(c: V -> bool, j: Join<V>, bottom: V, t: Tree<V>)
    requires IsJoinOn(c, j) && c(bottom) && ValuesIn(t, c)
    ensures c(Eval(j, bottom, t).value)
  {
    match t
    case Empty =>
    case Write(w) => assert Has(t, w);
    case Join(l, r) =>
      assert forall w :: Has(l, w) || Has(r, w) ==> Has(t, w);
      EvalInCarrier(c, j, bottom, l);
      EvalInCarrier(c, j, bottom, r);
  }

  /** The clock of the result is the join of the clocks: it is above each of them, */
  lemma BelowJoin(w: Clock, a: Clock, b: Clock)
    requires ClockLeq(w, a) || ClockLeq(w, b)
    ensures ClockLeq(w, ClockJoin(a, b))
  {
    ClockJoinLeast(a, b, a);
    ClockLaws(w, a, ClockJoin(a, b));
    ClockLaws(w, b, ClockJoin(a, b));
  }

  lemma {:induction false} ClockAbove<V>(j: Join<V>, bottom: V, t: Tree<V>, w: Version<V>)
    requires Has(t, w)
    ensures ClockLeq(w.clock, Eval(j, bottom, t).clock)
    decreases t
  {
    match t
    case Write(v) => ClockEquations(w.clock, w.clock, w.clock);
    case Join(l, r) =>
      if Has(l, w) {
        ClockAbove(j, bottom, l, w);
      } else {
        ClockAbove(j, bottom, r, w);
      }
      BelowJoin(w.clock, Eval(j, bottom, l).clock, Eval(j, bottom, r).clock);
  }

  /** and every entry of it comes from one of them. */
  lemma {:induction false} ClockAttained<V>(j: Join<V>, bottom: V, t: Tree<V>, k: string) returns (w: Version<V>)
    requires k in Eval(j, bottom, t).clock
    ensures Has(t, w) && k in w.clock && w.clock[k] == Eval(j, bottom, t).clock[k]
    decreases t
  {
    match t
    case Write(v) => w := v;
    case Join(l, r) =>
      var a, b := Eval(j, bottom, l).clock, Eval(j, bottom, r).clock;
      if k in a && (k !in b || b[k] <= a[k]) {
        w := ClockAttained(j, bottom, l, k);
      } else {
        w := ClockAttained(j, bottom, r, k);
      }
  }

  /** A write covered by the clock of a whole tree is dominated by one write of that tree. */
  lemma CoveredByOne<V(!new)>(j: Join<V>, bottom: V, whole: Tree<V>, part: Tree<V>, w: Version<V>,
                              origin: Version<V> -> string) returns (v: Version<V>)
    requires WellFormed(whole, origin) && Has(whole, w)
    requires forall x :: Has(part, x) ==> Has(whole, x)
    requires ClockLeq(w.clock, Eval(j, bottom, part).clock)
    ensures Has(part, v) && ClockLeq(w.clock, v.clock)
  {
    ClockLeqPointwise(w.clock, Eval(j, bottom, part).clock);
    v := ClockAttained(j, bottom, part, origin(w));
    assert Has(whole, v);
  }

  /**
   * Whatever the merge tree, the result holds the value of every maximal write.
   */
  lemma {:induction false} KeepsMaximal<V(!new)>(c: V -> bool, j: Join<V>, bottom: V, whole: Tree<V>, t: Tree<V>,
                                                 origin: Version<V> -> string, w: Version<V>)
    requires IsJoinOn(c, j) && c(bottom) && ValuesIn(whole, c)
    requires WellFormed(whole, origin)
    requires forall x :: Has(t, x) ==> Has(whole, x)
    requires Maximal(t, w)
    ensures Leq(j, w.value, Eval(j, bottom, t).value)
    decreases t
  {
    match t
    case Empty =>
    case Write(v) =>
      assert Has(whole, w);
    case Join(l, r) =>
      assert forall x :: Has(l, x) || Has(r, x) ==> Has(t, x);
      var a, b := Eval(j, bottom, l), Eval(j, bottom, r);
      EvalInCarrier(c, j, bottom, l);
      EvalInCarrier(c, j, bottom, r);
      KeptBySide(c, j, bottom, whole, t, l, r, origin, w);
      KeptBySide(c, j, bottom, whole, t, r, l, origin, w);
      if Has(l, w) { KeepsMaximal(c, j, bottom, whole, l, origin, w); }
      if Has(r, w) { KeepsMaximal(c, j, bottom, whole, r, origin, w); }
      assert c(w.value) by { assert Has(whole, w); }
      ClockLaws(a.clock, b.clock, a.clock);
      JoinIsLeast(c, j, a.value, b.value, w.value);
      if Has(l, w) { LeqTrans(c, j, w.value, a.value, j(a.value, b.value)); }
      if Has(r, w) { LeqTrans(c, j, w.value, b.value, j(a.value, b.value)); }
  }

  /** When the other side's clock covers this side's, a maximal write of this side was also merged on the other. */
  lemma KeptBySide<V(!new)>(c: V -> bool, j: Join<V>, bottom: V, whole: Tree<V>, t: Tree<V>, side: Tree<V>,
                            other: Tree<V>, origin: Version<V> -> string, w: Version<V>)
    requires WellFormed(whole, origin)
    requires forall x :: Has(t, x) ==> Has(whole, x)
    requires forall x :: Has(t, x) <==> Has(side, x) || Has(other, x)
    requires Maximal(t, w)
    ensures Has(side, w) ==> Maximal(side, w)
    ensures Has(side, w) && ClockLeq(Eval(j, bottom, side).clock, Eval(j, bottom, other).clock) ==> Has(other, w)
  {
    if Has(side, w) && ClockLeq(Eval(j, bottom, side).clock, Eval(j, bottom, other).clock) {
      ClockAbove(j, bottom, side, w);
      ClockLaws(w.clock, Eval(j, bottom, side).clock, Eval(j, bottom, other).clock);
      var v := CoveredByOne(j, bottom, whole, other, w, origin);
      assert v == w;
    }
  }

  /** Nothing unwritten: the result is below any value that is above all the writes. */
  lemma {:induction false} NothingUnwritten<V(!new)>(c: V -> bool, j: Join<V>, bottom: V, t: Tree<V>, top: V)
    requires IsJoinOn(c, j) && c(bottom) && ValuesIn(t, c) && c(top)
    requires Leq(j, bottom, top) && forall w :: Has(t, w) ==> Leq(j, w.value, top)
    ensures Leq(j, Eval(j, bottom, t).value, top)
  {
    match t
    case Empty =>
    case Write(w) => assert Has(t, w);
    case Join(l, r) =>
      assert forall w :: Has(l, w) || Has(r, w) ==> Has(t, w);
      NothingUnwritten(c, j, bottom, l, top);
      NothingUnwritten(c, j, bottom, r, top);
      EvalInCarrier(c, j, bottom, l);
      EvalInCarrier(c, j, bottom, r);
      MergeBelow(c, j, Eval(j, bottom, l), Eval(j, bottom, r), top);
  }

  lemma MergeBelow<V(!new)>(c: V -> bool, j: Join<V>, a: Version<V>, b: Version<V>, top: V)
    requires IsJoinOn(c, j) && c(a.value) && c(b.value) && c(top)
    requires Leq(j, a.value, top) && Leq(j, b.value, top)
    ensures Leq(j, MergeVersions(j, a, b).value, top)
  {
    JoinIsLeast(c, j, a.value, b.value, top);
  }

  /** A write that dominates all others is the whole result. */
  lemma {:induction false} DominatingWins<V(!new)>(j: Join<V>, bottom: V, whole: Tree<V>, t: Tree<V>,
                                                   origin: Version<V> -> string, d: Version<V>)
    requires WellFormed(whole, origin)
    requires forall x :: Has(t, x) ==> Has(whole, x)
    requires Has(t, d) && forall w :: Has(t, w) ==> ClockLeq(w.clock, d.clock)
    ensures Eval(j, bottom, t) == d
    decreases t
  {
    match t
    case Empty =>
    case Write(v) =>
    case Join(l, r) =>
      assert forall x :: Has(l, x) || Has(r, x) ==> Has(t, x);
      var a, b := Eval(j, bottom, l), Eval(j, bottom, r);
      BoundedClock(j, bottom, l, d.clock);
      BoundedClock(j, bottom, r, d.clock);
      ClockLaws(a.clock, d.clock, b.clock);
      ClockLaws(b.clock, d.clock, a.clock);
      if Has(l, d) { DominatingWins(j, bottom, whole, l, origin, d); }
      if Has(r, d) { DominatingWins(j, bottom, whole, r, origin, d); }
      else if ClockLeq(d.clock, b.clock) {
        var v := CoveredByOne(j, bottom, whole, r, d, origin);
        assert Has(whole, v) && Has(whole, d) && ClockLeq(v.clock, d.clock);
        ClockLaws(v.clock, d.clock, v.clock);
      }
  }

  /** A bound of every clock in the tree bounds the result's clock. */
  lemma {:induction false} BoundedClock<V(!new)>(j: Join<V>, bottom: V, t: Tree<V>, bound: Clock)
    requires forall w :: Has(t, w) ==> ClockLeq(w.clock, bound)
    ensures ClockLeq(Eval(j, bottom, t).clock, bound)
  {
    match t
    case Empty => ClockLeqPointwise(map[], bound);
    case Write(w) => assert Has(t, w);
    case Join(l, r) =>
      assert forall w :: Has(l, w) || Has(r, w) ==> Has(t, w);
      BoundedClock(j, bottom, l, bound);
      BoundedClock(j, bottom, r, bound);
      ClockJoinLeast(Eval(j, bottom, l).clock, Eval(j, bottom, r).clock, bound);
  }

  // ---- the two causal lattices ------------------------------------------------------------------

  class SingleKeyCausalLattice {
    var clock: Clock
    var value: set<string>

    method Merge(p: Version<set<string>>)
      modifies this
      ensures Version(clock, value) == MergeVersions(Union, old(Version(clock, value)), p)
    {
      var prev := clock;
      clock := ClockJoin(clock, p.clock);
      if clock == p.clock {
        value := p.value;
      } else if clock != prev {
        value := value + p.value;
      }
    }
  }

  /** What rides on the clock of a multi-key causal element. */
  datatype Tagged = Tagged(dependencies: map<string, Clock>, values: set<string>)

  function DependencyJoin(a: map<string, Clock>, b: map<string, Clock>): (r: map<string, Clock>) {
    MapJoin(ClockJoin, a, b)
  }

  function TaggedJoin(a: Tagged, b: Tagged): (r: Tagged) {
    Tagged(DependencyJoin(a.dependencies, b.dependencies), a.values + b.values)
  }

  class MultiKeyCausalLattice {
    var clock: Clock
    var dependencies: map<string, Clock>
    var value: set<string>

    method Merge(p: Version<Tagged>)
      modifies this
      ensures Version(clock, Tagged(dependencies, value))
           == MergeVersions(TaggedJoin, old(Version(clock, Tagged(dependencies, value))), p)
    {
      var prev := clock;
      clock := ClockJoin(clock, p.clock);
      if clock == p.clock {
        dependencies := p.value.dependencies;
        value := p.value.values;
      } else if clock != prev {
        dependencies := DependencyJoin(dependencies, p.value.dependencies);
        value := value + p.value.values;
      }
    }
  }

  lemma ClockJoinIsJoin()
    ensures IsJoinOn(Everything<Clock>(), ClockJoin)
  {
    forall a: Clock, b: Clock ensures ClockJoin(a, b) == ClockJoin(b, a) { ClockEquations(a, b, a); }
    forall a: Clock ensures ClockJoin(a, a) == a { ClockEquations(a, a, a); }
    forall a: Clock, b: Clock, c: Clock ensures ClockJoin(ClockJoin(a, b), c) == ClockJoin(a, ClockJoin(b, c)) {
      ClockEquations(a, b, c);
    }
  }

  lemma TaggedEquations(a: Tagged, b: Tagged, c: Tagged)
    ensures TaggedJoin(a, b) == TaggedJoin(b, a)
    ensures TaggedJoin(a, a) == a
    ensures TaggedJoin(TaggedJoin(a, b), c) == TaggedJoin(a, TaggedJoin(b, c))
  {
    ClockJoinIsJoin();
    MapJoinCommutes(Everything<Clock>(), ClockJoin, a.dependencies, b.dependencies);
    MapJoinIdempotent(Everything<Clock>(), ClockJoin, a.dependencies);
    MapJoinAssociative(Everything<Clock>(), ClockJoin, a.dependencies, b.dependencies, c.dependencies);
    assert a.values + b.values == b.values + a.values && a.values + a.values == a.values;
    assert (a.values + b.values) + c.values == a.values + (b.values + c.values);
  }

  lemma TaggedJoinIsJoin()
    ensures IsJoinOn(Everything<Tagged>(), TaggedJoin)
  {
    forall a: Tagged, b: Tagged ensures TaggedJoin(a, b) == TaggedJoin(b, a) { TaggedEquations(a, b, a); }
    forall a: Tagged ensures TaggedJoin(a, a) == a { TaggedEquations(a, a, a); }
    forall a: Tagged, b: Tagged, c: Tagged
      ensures TaggedJoin(TaggedJoin(a, b), c) == TaggedJoin(a, TaggedJoin(b, c))
    {
      TaggedEquations(a, b, c);
    }
  }

  /** Every string some write of the tree carries. */
  function Written(t: Tree<set<string>>): (r: set<string>)
    ensures forall s :: s in r <==> exists w :: Has(t, w) && s in w.value
  {
    match t
    case Empty => {}
    case Write(w) => assert Has(t, w); w.value
    case Join(l, r) => Written(l) + Written(r)
  }

  /** Single-key causality: over any merge tree of well-formed writes no maximal write loses a value. */
  lemma SingleKeyKeepsMaximal(t: Tree<set<string>>, origin: Version<set<string>> -> string, w: Version<set<string>>)
    requires WellFormed(t, origin) && Maximal(t, w)
    ensures w.value <= Eval(Union, {}, t).value
  {
    UnionIsJoin();
    KeepsMaximal(Everything<set<string>>(), Union, {}, t, t, origin, w);
    assert w.value <= w.value + Eval(Union, {}, t).value;
  }

  /** And every value kept was written. */
  lemma SingleKeyNothingUnwritten(t: Tree<set<string>>)
    ensures Eval(Union, {}, t).value <= Written(t)
  {
    UnionIsJoin();
    var top, v := Written(t), Eval(Union, {}, t).value;
    forall w | Has(t, w) ensures Leq(Union, w.value, top) {
      assert w.value <= top;
      assert w.value + top == top;
    }
    assert {} + top == top;
    NothingUnwritten(Everything<set<string>>(), Union, {}, t, top);
    assert v <= v + top;
  }

  const NO_TAGS := Tagged(map[], {})

  /** Multi-key causality: the dependencies of a maximal write survive with its values. */
  lemma MultiKeyKeepsMaximal(t: Tree<Tagged>, origin: Version<Tagged> -> string, w: Version<Tagged>)
    requires WellFormed(t, origin) && Maximal(t, w)
    ensures var r := Eval(TaggedJoin, NO_TAGS, t).value;
            && w.value.values <= r.values
            && forall k :: k in w.value.dependencies ==>
                 k in r.dependencies && ClockLeq(w.value.dependencies[k], r.dependencies[k])
  {
    TaggedJoinIsJoin();
    KeepsMaximal(Everything<Tagged>(), TaggedJoin, NO_TAGS, t, t, origin, w);
    var r := Eval(TaggedJoin, NO_TAGS, t).value;
    MapLeq(ClockJoin, w.value.dependencies, r.dependencies);
    assert w.value.values <= w.value.values + r.values;
  }

  /** And what survives is no more than the writes' values and dependencies together. */
  lemma MultiKeyNothingUnwritten(t: Tree<Tagged>, top: Tagged)
    requires forall w :: Has(t, w) ==> Leq(TaggedJoin, w.value, top)
    ensures Leq(TaggedJoin, Eval(TaggedJoin, NO_TAGS, t).value, top)
  {
    TaggedJoinIsJoin();
    assert DependencyJoin(map[], top.dependencies) == top.dependencies && {} + top.values == top.values;
    NothingUnwritten(Everything<Tagged>(), TaggedJoin, NO_TAGS, t, top);
  }
}
