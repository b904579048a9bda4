/** Sums and prefix sums of integer weight sequences, shared by every other module. */
module Sums {

  /** The total of a weight sequence, accumulated from the front as the source's loops do. */
  function Sum(s: seq<int>): int
  {
    if s == [] then 0 else Sum(s[..|s| - 1]) + s[|s| - 1]
  }

  predicate NonNegative(s: seq<int>)
  {
    forall i :: 0 <= i < |s| ==> s[i] >= 0
  }

  function Min(a: int, b: int): int
  {
    if a <= b then a else b
  }

  /** Extending a prefix by one slot adds that slot's weight. */
  lemma SumPrefixStep(s: seq<int>, i: int)
    requires 0 <= i < |s|
    ensures Sum(s[..i + 1]) == Sum(s[..i]) + s[i]
  {
    assert s[..i + 1][..i] == s[..i];
  }

  /** The total can also be taken from the back: the first slot plus the rest. */
  lemma {:induction false} SumCons(s: seq<int>)
    requires |s| > 0
    ensures Sum(s) == s[0] + Sum(s[1..])
  {
    if |s| > 1 {
      SumCons(s[..|s| - 1]);
      assert s[..|s| - 1][1..] == s[1..][..|s| - 2];
    }
  }

  /** A prefix of the tail is the tail of a prefix. */
  lemma SumConsPrefix(s: seq<int>, i: int)
    requires 0 < i <= |s|
    ensures Sum(s[..i]) == s[0] + Sum(s[1..][..i - 1])
  {
    SumCons(s[..i]);
    assert s[..i][1..] == s[1..][..i - 1];
  }

  lemma {:induction false} SumNonNegative(s: seq<int>)
    requires NonNegative(s)
    ensures Sum(s) >= 0
  {
    if s != [] {
      SumNonNegative(s[..|s| - 1]);
    }
  }

  /** With non-negative weights, prefix sums never decrease. */
  lemma {:induction false} PrefixMonotone(s: seq<int>, i: int, j: int)
    requires NonNegative(s)
    requires 0 <= i <= j <= |s|
    ensures Sum(s[..i]) <= Sum(s[..j])
    decreases j - i
  {
    if i < j {
      PrefixMonotone(s, i, j - 1);
      SumPrefixStep(s, j - 1);
    }
  }

  /** Replacing one slot changes the total by the difference. */
  lemma {:induction false} SumUpdate(s: seq<int>, i: int, v: int)
    requires 0 <= i < |s|
    ensures Sum(s[i := v]) == Sum(s) - s[i] + v
  {
    var t := s[i := v];
    if i == |s| - 1 {
      assert t[..|t| - 1] == s[..|s| - 1];
    } else {
      SumUpdate(s[..|s| - 1], i, v);
      assert t[..|t| - 1] == s[..|s| - 1][i := v];
    }
  }

  /** The integers lo, lo + 1, ..., hi - 1. */
  function Interval(lo: int, hi: int): set<int>
    decreases hi - lo
  {
    if hi <= lo then {} else Interval(lo, hi - 1) + {hi - 1}
  }

  /** Interval holds exactly the integers of the half-open range, hi - lo of them. */
  lemma {:induction false} IntervalSize(lo: int, hi: int)
    requires lo <= hi
    ensures forall r :: r in Interval(lo, hi) <==> lo <= r < hi
    ensures |Interval(lo, hi)| == hi - lo
    decreases hi - lo
  {
    if lo < hi {
      IntervalSize(lo, hi - 1);
    }
  }
}
