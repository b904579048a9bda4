/**
 * The weighted pick of WeightedArray.GetElement: a draw r in [0, 100) selects the first slot
 * whose running total exceeds r.
 */
module Picking {
  import opened Sums
  import opened WeightLabels

  /** The outcome of a scan: the slot found, or Miss when no running total exceeds the draw. */
  datatype Draw = Hit(slot: nat) | Miss

  /** The running total through slot j (`_curThreshold` after slot j). */
  function Through(w: seq<int>, j: int): int
    requires 0 <= j < |w|
  {
    Sum(w[..j + 1])
  }

  /** The first of the first k slots whose running total exceeds the draw r. */
  function SelectIn(w: seq<int>, r: int, k: nat): (d: Draw)
    requires k <= |w|
    ensures d.Hit? ==> d.slot < k && r < Through(w, d.slot)
    ensures d.Hit? ==> forall j :: 0 <= j < d.slot ==> Through(w, j) <= r
    ensures d.Miss? ==> forall j :: 0 <= j < k ==> Through(w, j) <= r
  {
    if k == 0 then Miss
    else match SelectIn(w, r, k - 1)
      case Hit(i) => Hit(i)
      case Miss => if r < Sum(w[..k]) then Hit(k - 1) else Miss
  }

  /** Once a slot is found, scanning further slots does not change the outcome. */
  lemma {:induction false} SelectInStable(w: seq<int>, r: int, k: nat, m: nat)
    requires k <= m <= |w| && SelectIn(w, r, k).Hit?
    ensures SelectIn(w, r, m) == SelectIn(w, r, k)
    decreases m - k
  {
    if k < m {
      SelectInStable(w, r, k, m - 1);
    }
  }

  function Select(w: seq<int>, r: int): Draw
  {
    SelectIn(w, r, |w|)
  }

  /** A slot selected by a draw r >= 0 has positive weight, and the running total before it is at most r. */
  lemma SelectedSlotHasWeight(w: seq<int>, r: int)
    requires 0 <= r && Select(w, r).Hit?
    ensures var i := Select(w, r).slot;
      i < |w| && w[i] > 0 && Sum(w[..i]) <= r < Sum(w[..i + 1])
  {
    var i := Select(w, r).slot;
    SumPrefixStep(w, i);
    if i > 0 {
      assert Through(w, i - 1) <= r;
      assert w[..i - 1 + 1] == w[..i];
    }
  }

  /** Non-negative weights that sum to 100 leave no draw in [0, 100) unselected. */
  lemma SelectHitsWhenBalanced(w: seq<int>, r: int)
    requires NonNegative(w) && Sum(w) == 100
    requires 0 <= r < 100
    ensures Select(w, r).Hit?
  {
    assert w != [];
    assert w[..|w| - 1 + 1] == w;
    assert r < Through(w, |w| - 1);
  }

  /** With non-negative weights, a draw r >= 0 selects slot i exactly when r falls in i's stretch of running totals. */
  lemma SelectExactly(w: seq<int>, r: int, i: int)
    requires NonNegative(w) && 0 <= r && 0 <= i < |w|
    ensures Select(w, r) == Hit(i) <==> Sum(w[..i]) <= r < Sum(w[..i + 1])
  {
    if Select(w, r) == Hit(i) {
      SelectedSlotHasWeight(w, r);
    }
    if Sum(w[..i]) <= r < Sum(w[..i + 1]) {
      assert r < Through(w, i);
      forall k | 0 <= k < i
        ensures Through(w, k) <= r
      {
        PrefixMonotone(w, k + 1, i);
      }
    }
  }

  /**
   * With non-negative weights summing to 100, exactly w[i] of the 100 draws select slot i:
   * each slot's chance is its weight in percent.
   */
  lemma DrawsPerSlot(w: seq<int>, i: int)
    requires NonNegative(w) && Sum(w) == 100 && 0 <= i < |w|
    ensures |set r | 0 <= r < 100 && Select(w, r) == Hit(i)| == w[i]
  {
    var lo, hi := Sum(w[..i]), Sum(w[..i + 1]);
    SumPrefixStep(w, i);
    SumNonNegative(w[..i]);
    PrefixMonotone(w, i + 1, |w|);
    assert w[..|w|] == w;
    IntervalSize(lo, hi);
    forall r | 0 <= r < 100
      ensures Select(w, r) == Hit(i) <==> r in Interval(lo, hi)
    {
      SelectExactly(w, r, i);
    }
    assert (set r | 0 <= r < 100 && Select(w, r) == Hit(i)) == Interval(lo, hi);
  }

  /**
   * The label beside a slot names exactly the draws that select it: a draw r >= 0 selects
   * slot i exactly when r + 1 lies in i's range label.
   */
  lemma LabelNamesDraws(w: seq<int>, r: int, i: int)
    requires NonNegative(w) && 0 <= r && 0 <= i < |w|
    ensures Select(w, r) == Hit(i) <==>
      (LabelAt(w, i).Range? && LabelAt(w, i).first <= r + 1 <= LabelAt(w, i).last)
  {
    SelectExactly(w, r, i);
    SumPrefixStep(w, i);
  }
}
