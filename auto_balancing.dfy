/**
 * The auto-balance rule of WeightedArray.AutoBalance: the shortfall below 100 is handed
 * out one unit at a time, round-robin from slot 0, so every slot gains the quotient and
 * the first (deficit mod length) slots gain one more.
 */
module AutoBalancing {
  import opened Sums

  /** How far the total falls short of 100 (nothing when it already reaches 100). */
  function Deficit(w: seq<int>): (d: nat)
    ensures Sum(w) < 100 ==> Sum(w) + d == 100
    ensures Sum(w) >= 100 ==> d == 0
  {
    if Sum(w) < 100 then 100 - Sum(w) else 0
  }

  /** Every slot gains q, and the slots below rm gain one more. */
  function Deal(w: seq<int>, q: int, rm: int): (r: seq<int>)
    ensures |r| == |w|
  {
    seq(|w|, i requires 0 <= i < |w| => w[i] + q + (if i < rm then 1 else 0))
  }

  /** The weights after auto-balancing. */
  function AutoBalanced(w: seq<int>): (r: seq<int>)
    requires |w| > 0
    ensures |r| == |w|
  {
    Deal(w, Deficit(w) / |w|, Deficit(w) % |w|)
  }

  /** Over the first k slots a deal hands out k * q units plus one for each slot below rm. */
  lemma {:induction false} DealPrefix(w: seq<int>, q: int, rm: nat, k: nat)
    requires k <= |w|
    ensures Sum(Deal(w, q, rm)[..k]) == Sum(w[..k]) + k * q + Min(k, rm)
  {
    if k > 0 {
      DealPrefix(w, q, rm, k - 1);
      SumPrefixStep(Deal(w, q, rm), k - 1);
      SumPrefixStep(w, k - 1);
      assert (k - 1) * q + q == k * q;
    }
  }

  /** Auto-balancing brings a total below 100 up to exactly 100 and leaves a larger one alone. */
  lemma AutoBalancedTotal(w: seq<int>)
    requires |w| > 0
    ensures Sum(w) < 100 ==> Sum(AutoBalanced(w)) == 100
    ensures Sum(w) >= 100 ==> AutoBalanced(w) == w
  {
    var n, d := |w|, Deficit(w);
    DivMod(d, n);
    DealPrefix(w, d / n, d % n, n);
    assert AutoBalanced(w)[..n] == AutoBalanced(w);
    assert w[..n] == w;
    if Sum(w) >= 100 {
      assert Deal(w, 0, 0) == w;
    }
  }

  lemma DivMod(d: nat, n: nat)
    requires n > 0
    ensures n * (d / n) + d % n == d && 0 <= d % n < n
    ensures d == 0 ==> d / n == 0 && d % n == 0
  {
  }

  /**
   * Every slot gains the floor or the ceiling of deficit / length; the slots that gain the
   * ceiling are exactly the lowest (deficit mod length) indices.
   */
  lemma AutoBalancedFair(w: seq<int>, i: int)
    requires 0 <= i < |w|
    ensures var d, n, gain := Deficit(w), |w|, AutoBalanced(w)[i] - w[i];
      (gain == d / n && (i >= d % n)) ||
      (gain == d / n + 1 && d % n != 0 && i < d % n)
  {
    assert AutoBalanced(w)[i] == w[i] + Deficit(w) / |w| + (if i < Deficit(w) % |w| then 1 else 0);
  }

  /** Auto-balancing never lowers a weight, so non-negative weights stay non-negative. */
  lemma AutoBalancedGrows(w: seq<int>)
    requires |w| > 0
    ensures forall i :: 0 <= i < |w| ==> AutoBalanced(w)[i] >= w[i]
    ensures NonNegative(w) ==> NonNegative(AutoBalanced(w))
  {
  }

  lemma MulLe(a: int, b: int, n: nat)
    requires a <= b
    ensures a * n <= b * n
  {
  }

  /** Quotient and remainder are the only such pair: d == q * n + r with 0 <= r < n fixes both. */
  lemma DivModUnique(d: nat, n: nat, q: nat, r: nat)
    requires r < n && q * n + r == d
    ensures q == d / n && r == d % n
  {
    var q', r' := d / n, d % n;
    assert q' * n + r' == d && 0 <= r' < n;
    if q < q' {
      MulLe(q + 1, q', n);
    } else if q' < q {
      MulLe(q' + 1, q, n);
    }
  }
}
