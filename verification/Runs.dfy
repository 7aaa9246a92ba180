/** Runs of any state machine: sequences of states joined by steps. */
module Runs {

  /** What a step does: from which state to which. */
  type Relation<!S, !T> = (S, T, S) -> bool

  ghost predicate Chain<S(!new), T(!new)>(rel: Relation<S, T>, states: seq<S>, steps: seq<T>) {
    && |states| == |steps| + 1
    && forall i :: 0 <= i < |steps| ==> rel(states[i], steps[i], states[i + 1])
  }

  lemma Append<S(!new), T(!new)>(rel: Relation<S, T>, states: seq<S>, steps: seq<T>, step: T, next: S)
    requires Chain(rel, states, steps) && rel(states[|steps|], step, next)
    ensures Chain(rel, states + [next], steps + [step])
  {
    var states', steps' := states + [next], steps + [step];
    forall i | 0 <= i < |steps'| ensures rel(states'[i], steps'[i], states'[i + 1]) {
      if i < |steps| {
        assert states'[i] == states[i] && states'[i + 1] == states[i + 1] && steps'[i] == steps[i];
      }
    }
  }

  /** What holds at `a` and is kept by every step up to `b` holds at `b`. */
  lemma {:induction false} Along(p: nat -> bool, a: nat, b: nat)
    requires a <= b && p(a) && forall m :: a <= m < b && p(m) ==> p(m + 1)
    ensures p(b)
  {
    if a < b { Along(p, a, b - 1); }
  }

  /** What holds in the `a`-th state and is kept by every step holds in every later state. */
  lemma InductFrom<S(!new), T(!new)>(rel: Relation<S, T>, inv: S -> bool, states: seq<S>, steps: seq<T>, a: nat)
    requires Chain(rel, states, steps) && a < |states| && inv(states[a])
    requires forall s, t, s' :: inv(s) && rel(s, t, s') ==> inv(s')
    ensures forall i :: a <= i < |states| ==> inv(states[i])
  {
    forall i | a <= i < |states| ensures inv(states[i]) {
      var p := (m: nat) => m < |states| && inv(states[m]);
      forall m | a <= m < i && p(m) ensures p(m + 1) {
        assert rel(states[m], steps[m], states[m + 1]);
      }
      Along(p, a, i);
    }
  }

  ghost predicate EndsIn<S(!new), T(!new)>(rel: Relation<S, T>, init: S -> bool, states: seq<S>, steps: seq<T>, s: S) {
    Chain(rel, states, steps) && init(states[0]) && states[|steps|] == s
  }

  /** Some run from an initial state ends in `s`. */
  ghost predicate Reached<S(!new), T(!new)>(rel: Relation<S, T>, init: S -> bool, s: S) {
    exists states, steps :: EndsIn(rel, init, states, steps, s)
  }

  lemma ReachedFirst<S(!new), T(!new)>(rel: Relation<S, T>, init: S -> bool, s: S)
    requires init(s)
    ensures Reached(rel, init, s)
  {
    var steps: seq<T> := [];
    assert EndsIn(rel, init, [s], steps, s);
  }

  lemma ReachedNext<S(!new), T(!new)>(rel: Relation<S, T>, init: S -> bool, s: S, step: T, s': S)
    requires Reached(rel, init, s) && rel(s, step, s')
    ensures Reached(rel, init, s')
  {
    var before, done :| EndsIn(rel, init, before, done, s);
    Append(rel, before, done, step, s');
    assert EndsIn(rel, init, before + [s'], done + [step], s');
  }

  lemma RunTo<S(!new), T(!new)>(rel: Relation<S, T>, init: S -> bool, s: S) returns (states: seq<S>, steps: seq<T>)
    requires Reached(rel, init, s)
    ensures Chain(rel, states, steps) && init(states[0]) && states[|steps|] == s
  {
    states, steps :| EndsIn(rel, init, states, steps, s);
  }
}
