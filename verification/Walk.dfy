/** Sequences without repetition: what a clockwise walk collects, and how it changes when elements are put in. */
module Walk {

  /** The first occurrences in `xs`, in order. */
  function Distinct<T(==,!new)>(xs: seq<T>): (r: seq<T>)
    ensures forall x :: x in r <==> x in xs
    ensures forall i, j :: 0 <= i < j < |r| ==> r[i] != r[j]
  {
    if xs == [] then []
    else
      var front := Distinct(xs[..|xs| - 1]);
      var x := xs[|xs| - 1];
      assert forall y :: y in xs <==> y in xs[..|xs| - 1] || y == x;
      if x in front then front else front + [x]
  }

  /** `xs` without the occurrences of `x`. */
  function Without<T(==,!new)>(xs: seq<T>, x: T): (r: seq<T>)
    ensures forall y :: y in r <==> y in xs && y != x
  {
    if xs == [] then []
    else
      var front := Without(xs[..|xs| - 1], x);
      var last := xs[|xs| - 1];
      assert forall y :: y in xs <==> y in xs[..|xs| - 1] || y == last;
      if last == x then front else front + [last]
  }

  /** The first `r` elements, or all of them when there are fewer. */
  function Take<T>(xs: seq<T>, r: nat): (t: seq<T>)
    ensures |t| == if r <= |xs| then r else |xs|
    ensures t <= xs
  {
    if r <= |xs| then xs[..r] else xs
  }

  lemma HasMember<T(!new)>(xs: seq<T>)
    ensures xs == [] || exists x :: x in xs
  {
    if xs != [] { assert xs[0] in xs; }
  }

  /** What a longer walk collects extends what a shorter one did. */
  lemma {:induction false} DistinctPrefix<T(!new)>(xs: seq<T>, k: nat)
    requires k <= |xs|
    ensures Distinct(xs[..k]) <= Distinct(xs)
    decreases |xs|
  {
    if k < |xs| {
      var front := xs[..|xs| - 1];
      DistinctPrefix(front, k);
      assert front[..k] == xs[..k];
    } else {
      assert xs[..k] == xs;
    }
  }

  lemma {:induction false} DistinctWithout<T(!new)>(xs: seq<T>, x: T)
    ensures Without(Distinct(xs), x) == Distinct(Without(xs, x))
  {
    if xs != [] {
      var front, last := xs[..|xs| - 1], xs[|xs| - 1];
      DistinctWithout(front, x);
      var d := Distinct(front);
      if last !in d {
        assert (d + [last])[..|d|] == d;
        if last != x {
          var w := Without(front, x);
          assert (w + [last])[..|w|] == w;
        }
      } else if last != x {
        var w := Without(front, x);
        assert (w + [last])[..|w|] == w;
      }
    }
  }

  lemma {:induction false} WithoutAbsent<T(!new)>(xs: seq<T>, x: T)
    requires x !in xs
    ensures Without(xs, x) == xs
  {
    if xs != [] {
      WithoutAbsent(xs[..|xs| - 1], x);
    }
  }

  lemma PutInBefore<T>(w: seq<T>, x: T, i: nat, last: T)
    requires i <= |w|
    ensures (w + [last])[..i] + [x] + (w + [last])[i..] == w[..i] + [x] + w[i..] + [last]
  {
    assert (w + [last])[..i] == w[..i] && (w + [last])[i..] == w[i..] + [last];
  }

  /** A repetition-free sequence holding `x` is the sequence without it, with `x` put in at one place. */
  lemma {:induction false} WithoutUnique<T(!new)>(xs: seq<T>, x: T) returns (i: nat)
    requires forall a, b :: 0 <= a < b < |xs| ==> xs[a] != xs[b]
    requires x in xs
    ensures i <= |Without(xs, x)|
    ensures xs == Without(xs, x)[..i] + [x] + Without(xs, x)[i..]
  {
    var front, last := xs[..|xs| - 1], xs[|xs| - 1];
    if last == x {
      WithoutAbsent(front, x);
      i := |front|;
      assert Without(xs, x) == front;
      assert front[..i] + [x] + front[i..] == xs;
    } else {
      i := WithoutUnique(front, x);
      var w := Without(front, x);
      assert Without(xs, x) == w + [last];
      PutInBefore(w, x, i, last);
      assert xs == front + [last];
    }
  }

  /** A loop over a set has done one more element. */
  lemma OneMore<T(!new)>(all: set<T>, rest: set<T>, x: T)
    requires rest <= all && x in rest
    ensures all - (rest - {x}) == all - rest + {x} && x !in all - rest
  {
  }

  lemma SubsetSize<T>(a: set<T>, b: set<T>)
    requires a <= b
    ensures |a| <= |b|
    ensures |a| == |b| <==> a == b
  {
    assert b == a + (b - a);
  }
}
