/** Measures that bound how long something can go on. */
module Measure {
  /** What is left to do, over the first n of the things that have something left. */
  ghost function Total(left: nat -> nat, n: nat): nat {
    if n == 0 then 0 else Total(left, n - 1) + left(n - 1)
  }

  /** When nothing grows, the total shrinks by at least what any one of them does. */
  lemma {:induction false} TotalShrinks(before: nat -> nat, after: nat -> nat, n: nat, i: nat)
    requires i < n && forall k: nat | k < n :: after(k) <= before(k)
    ensures Total(after, n) + before(i) <= Total(before, n) + after(i)
  {
    if i < n - 1 {
      TotalShrinks(before, after, n - 1, i);
    } else {
      TotalStays(before, after, n - 1);
    }
  }

  lemma {:induction false} TotalStays(before: nat -> nat, after: nat -> nat, n: nat)
    requires forall k: nat | k < n :: after(k) <= before(k)
    ensures Total(after, n) <= Total(before, n)
  {
    if n > 0 {
      TotalStays(before, after, n - 1);
    }
  }
}
