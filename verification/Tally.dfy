/** Weighted sums over sequences, the arithmetic behind every accounting law of the project. */
module Tally {

  datatype Option<+T> = None | Some(value: T)

  /** The sum of the weights of all elements. */
  ghost function Sum<T>(s: seq<T>, w: T -> int): int {
    if s == [] then 0 else Sum(s[..|s| - 1], w) + w(s[|s| - 1])
  }

  /** How often `x` occurs. */
  ghost function Count<T>(s: seq<T>, x: T): nat {
    multiset(s)[x]
  }

  lemma SumAppend<T>(s: seq<T>, x: T, w: T -> int)
    ensures Sum(s + [x], w) == Sum(s, w) + w(x)
  {
    assert (s + [x])[..|s|] == s;
  }

  lemma {:induction false} SumUpdate<T>(s: seq<T>, i: nat, x: T, w: T -> int)
    requires i < |s|
    ensures Sum(s[i := x], w) == Sum(s, w) - w(s[i]) + w(x)
  {
    var n := |s| - 1;
    if i == n {
      assert s[i := x][..n] == s[..n];
    } else {
      assert s[i := x][..n] == s[..n][i := x];
      SumUpdate(s[..n], i, x, w);
    }
  }

  /** A weight that is zero on every element sums to zero. */
  lemma {:induction false} SumZero<T>(s: seq<T>, w: T -> int)
    requires forall x | x in s :: w(x) == 0
    ensures Sum(s, w) == 0
  {
    if s != [] {
      SumZero(s[..|s| - 1], w);
    }
  }
}
