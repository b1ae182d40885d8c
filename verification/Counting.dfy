/** Sums over a sequence of threads: how many are in a given phase, or what they hold together. */
module Counting {

  function Sum<T>(s: seq<T>, weight: T -> nat): nat {
    if s == [] then 0 else weight(s[0]) + Sum(s[1..], weight)
  }

  /** One thread moves: the sum changes by the change of that thread's weight. */
  lemma {:induction false} SumUpdate<T>(s: seq<T>, i: nat, x: T, weight: T -> nat)
    requires i < |s|
    ensures Sum(s[i := x], weight) + weight(s[i]) == Sum(s, weight) + weight(x)
  {
    if i > 0 {
      assert s[i := x][1..] == s[1..][i - 1 := x];
      SumUpdate(s[1..], i - 1, x, weight);
    } else {
      assert s[i := x][1..] == s[1..];
    }
  }

  lemma {:induction false} SumAtLeast<T>(s: seq<T>, i: nat, weight: T -> nat)
    requires i < |s|
    ensures weight(s[i]) <= Sum(s, weight)
  {
    if i > 0 {
      SumAtLeast(s[1..], i - 1, weight);
    }
  }

  /** The witness behind a positive sum. */
  lemma {:induction false} SumWitness<T>(s: seq<T>, weight: T -> nat) returns (i: nat)
    requires Sum(s, weight) > 0
    ensures i < |s| && weight(s[i]) > 0
  {
    if weight(s[0]) > 0 {
      i := 0;
    } else {
      var k := SumWitness(s[1..], weight);
      i := k + 1;
    }
  }

  /** If all weights are k, the sum is k times the length. */
  lemma {:induction false} SumConstant<T>(s: seq<T>, weight: T -> nat, k: nat)
    requires forall i :: 0 <= i < |s| ==> weight(s[i]) == k
    ensures Sum(s, weight) == k * |s|
  {
    if s != [] {
      SumConstant(s[1..], weight, k);
      assert k * |s| == k + k * (|s| - 1);
    }
  }
}
