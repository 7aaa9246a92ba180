/** What a key can hold: one value of one lattice type, as the in-memory stores merge and read it. */
module Values {
  import opened Lattice
  import opened Causal

  /** `NONE` is what a message that declares no type carries. */
  datatype LatticeType = NONE | LWW | SET | ORDERED_SET | SINGLE_CAUSAL | MULTI_CAUSAL

  datatype Value =
    | LwwValue(lww: Lww)
    | SetValue(elements: set<string>)
    | OrderedSetValue(ordered: set<string>)
    | SingleCausalValue(single: Version<set<string>>)
    | MultiCausalValue(multi: Version<Tagged>)

  function TypeOf(v: Value): (t: LatticeType)
    ensures t != NONE
  {
    match v
    case LwwValue(_) => LWW
    case SetValue(_) => SET
    case OrderedSetValue(_) => ORDERED_SET
    case SingleCausalValue(_) => SINGLE_CAUSAL
    case MultiCausalValue(_) => MULTI_CAUSAL
  }

  /** The element a store creates for a key it has not seen. */
  function Bottom(t: LatticeType): (v: Value)
    requires t != NONE
    ensures TypeOf(v) == t
  {
    match t
    case LWW => LwwValue(Lww(0, ""))
    case SET => SetValue({})
    case ORDERED_SET => OrderedSetValue({})
    case SINGLE_CAUSAL => SingleCausalValue(Version(map[], {}))
    case MULTI_CAUSAL => MultiCausalValue(Version(map[], NO_TAGS))
  }

  /** The merge of two values of one type; values of different types are kept apart. */
  function Combine(element: Value, v: Value): (r: Value)
    ensures TypeOf(r) == TypeOf(element)
  {
    match (element, v)
    case (LwwValue(a), LwwValue(b)) => LwwValue(LwwMerge(a, b))
    case (SetValue(a), SetValue(b)) => SetValue(Union(a, b))
    case (OrderedSetValue(a), OrderedSetValue(b)) => OrderedSetValue(Union(a, b))
    case (SingleCausalValue(a), SingleCausalValue(b)) => SingleCausalValue(MergeVersions(Union, a, b))
    case (MultiCausalValue(a), MultiCausalValue(b)) => MultiCausalValue(MergeVersions(TaggedJoin, a, b))
    case _ => element
  }

  /** What a value has seen: for causal values the clock, for the others whatever merging it in would not change. */
  predicate Below(a: Value, b: Value) {
    match (a, b)
    case (SingleCausalValue(x), SingleCausalValue(y)) => ClockLeq(x.clock, y.clock)
    case (MultiCausalValue(x), MultiCausalValue(y)) => ClockLeq(x.clock, y.clock)
    case _ => Leq(Combine, a, b)
  }

  /** A store reads back a value with no error; an empty string or set reads as a missing key. */
  predicate Readable(v: Value) {
    match v
    case LwwValue(l) => l.value != ""
    case SetValue(s) => s != {}
    case OrderedSetValue(_) => true
    case SingleCausalValue(c) => c.value != {}
    case MultiCausalValue(c) => c.value.values != {}
  }

  /** What a key has before anything is put reads as missing, except as an ordered set. */
  lemma BottomReads(t: LatticeType)
    requires t != NONE
    ensures Readable(Bottom(t)) <==> t == ORDERED_SET
  {
  }

  /** The first value put for a key is kept as it is. */
  lemma CombineBottom(v: Value)
    ensures Combine(Bottom(TypeOf(v)), v) == v
  {
    match v
    case LwwValue(_) =>
    case SetValue(s) => assert {} + s == s;
    case OrderedSetValue(s) => assert {} + s == s;
    case SingleCausalValue(c) => ClockLeqPointwise(map[], c.clock);
    case MultiCausalValue(c) => ClockLeqPointwise(map[], c.clock);
  }
}
