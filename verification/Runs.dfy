/**
  Runs of a labelled transition system, and the two induction principles every
  protocol of this project is proved with: an invariant holds in every state of
  every run, and a measure that each step lowers bounds the length of every run.
 */
module Runs {

  /** A system: which states it may start in, and which steps it may take. */
  datatype System<!S> = System(init: S -> bool, next: (S, S) -> bool)

  ghost predicate IsRun<S(!new)>(sys: System<S>, run: seq<S>) {
    && |run| > 0
    && sys.init(run[0])
    && forall i :: 0 <= i < |run| - 1 ==> sys.next(run[i], run[i + 1])
  }

  ghost predicate Inductive<S(!new)>(sys: System<S>, inv: S -> bool) {
    && (forall s :: sys.init(s) ==> inv(s))
    && (forall s, t :: inv(s) && sys.next(s, t) ==> inv(t))
  }

  lemma {:induction false} InvariantAt<S(!new)>(sys: System<S>, inv: S -> bool, run: seq<S>, i: nat)
    requires IsRun(sys, run) && Inductive(sys, inv) && i < |run|
    ensures inv(run[i])
  {
    if i > 0 {
      InvariantAt(sys, inv, run, i - 1);
      assert sys.next(run[i - 1], run[i - 1 + 1]);
    }
  }

  /** What holds initially and is kept by every step holds throughout every run. */
  lemma Invariant<S(!new)>(sys: System<S>, inv: S -> bool, run: seq<S>)
    requires IsRun(sys, run) && Inductive(sys, inv)
    ensures forall i :: 0 <= i < |run| ==> inv(run[i])
  {
    forall i | 0 <= i < |run| ensures inv(run[i]) {
      InvariantAt(sys, inv, run, i);
    }
  }

  /** A measure that drops with each step bounds the run. */
  lemma {:induction false} BoundedLength<S(!new)>(sys: System<S>, measure: S -> nat, run: seq<S>, i: nat)
    requires IsRun(sys, run) && i < |run|
    requires forall k :: 0 <= k < |run| - 1 ==> measure(run[k + 1]) < measure(run[k])
    ensures i + measure(run[i]) <= measure(run[0])
  {
    if i > 0 {
      BoundedLength(sys, measure, run, i - 1);
      assert measure(run[i - 1 + 1]) < measure(run[i - 1]);
    }
  }

  /** A measure that drops by exactly one with each step counts the steps. */
  lemma {:induction false} ExactLength<S(!new)>(sys: System<S>, measure: S -> nat, run: seq<S>, i: nat)
    requires IsRun(sys, run) && i < |run|
    requires forall k :: 0 <= k < |run| - 1 ==> measure(run[k + 1]) + 1 == measure(run[k])
    ensures i + measure(run[i]) == measure(run[0])
  {
    if i > 0 {
      ExactLength(sys, measure, run, i - 1);
      assert measure(run[i - 1 + 1]) + 1 == measure(run[i - 1]);
    }
  }

  /** A relation kept by every step and reflexive and transitive relates any two states of a run. */
  lemma {:induction false} Monotone<S(!new)>(sys: System<S>, rel: (S, S) -> bool, run: seq<S>, i: nat, j: nat)
    requires IsRun(sys, run) && i <= j < |run|
    requires forall s :: rel(s, s)
    requires forall s, t, u :: rel(s, t) && rel(t, u) ==> rel(s, u)
    requires forall k :: 0 <= k < |run| - 1 ==> rel(run[k], run[k + 1])
    ensures rel(run[i], run[j])
    decreases j
  {
    if i < j {
      Monotone(sys, rel, run, i, j - 1);
      assert rel(run[j - 1], run[j - 1 + 1]);
    }
  }

  /** How many steps of a run changed the state. */
  ghost function Changes<S(!new)>(run: seq<S>): nat
    requires |run| > 0
  {
    if |run| == 1 then 0
    else Changes(run[..|run| - 1]) + (if run[|run| - 1] != run[|run| - 2] then 1 else 0)
  }

  /** A measure that every step lowers, unless it changes nothing at all, bounds the changes. */
  lemma {:induction false} BoundedChanges<S(!new)>(measure: S -> nat, run: seq<S>)
    requires |run| > 0
    requires forall k :: 0 <= k < |run| - 1 ==> run[k + 1] == run[k] || measure(run[k + 1]) < measure(run[k])
    ensures Changes(run) + measure(run[|run| - 1]) <= measure(run[0])
  {
    if |run| > 1 {
      var init := run[..|run| - 1];
      forall k | 0 <= k < |init| - 1 ensures init[k + 1] == init[k] || measure(init[k + 1]) < measure(init[k]) {
        assert run[k + 1] == run[k] || measure(run[k + 1]) < measure(run[k]);
      }
      BoundedChanges(measure, init);
      var k := |run| - 2;
      assert run[k + 1] == run[k] || measure(run[k + 1]) < measure(run[k]);
    }
  }
}
