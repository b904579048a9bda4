/**
 * The range labels GenerateWeightLabels writes beside each weight: the draws 1..100
 * that select the slot, or "not included" for a slot of weight 0.
 */
module WeightLabels {
  import opened Sums

  /**
   * A slot's label. Unset stands for the null string a freshly allocated label array holds;
   * Range(first, last) stands for the text "first - last".
   */
  datatype Label = Unset | NotIncluded | Range(first: int, last: int)

  /** The label of slot i: the slots before it use the numbers 1 .. Sum(w[..i]). */
  function LabelAt(w: seq<int>, i: int): Label
    requires 0 <= i < |w|
  {
    if w[i] == 0 then NotIncluded
    else
      var first := 1 + Sum(w[..i]);
      Range(first, first + w[i] - 1)
  }

  /**
   * A nonzero slot's range ends at the running total through it, and holds exactly w[i]
   * numbers.
   */
  lemma LabelEndsAtRunningTotal(w: seq<int>, i: int)
    requires 0 <= i < |w| && w[i] != 0
    ensures LabelAt(w, i).Range?
    ensures LabelAt(w, i).first == 1 + Sum(w[..i])
    ensures LabelAt(w, i).last == Sum(w[..i + 1])
    ensures LabelAt(w, i).last - LabelAt(w, i).first + 1 == w[i]
  {
    SumPrefixStep(w, i);
  }

  /** With non-negative weights the ranges of two nonzero slots never overlap, in slot order. */
  lemma LabelsDisjoint(w: seq<int>, i: int, j: int)
    requires NonNegative(w)
    requires 0 <= i < j < |w| && w[i] != 0 && w[j] != 0
    ensures LabelAt(w, i).last < LabelAt(w, j).first
  {
    SumPrefixStep(w, i);
    PrefixMonotone(w, i + 1, j);
  }

  /**
   * The ranges leave no gap: when every slot strictly between two nonzero slots has weight 0,
   * the second range starts right after the first.
   */
  lemma {:induction false} LabelsContiguous(w: seq<int>, i: int, j: int)
    requires 0 <= i < j < |w| && w[i] != 0 && w[j] != 0
    requires forall k :: i < k < j ==> w[k] == 0
    ensures LabelAt(w, j).first == LabelAt(w, i).last + 1
  {
    ZeroSlotsAddNothing(w, i + 1, j);
    SumPrefixStep(w, i);
  }

  lemma {:induction false} ZeroSlotsAddNothing(w: seq<int>, lo: int, hi: int)
    requires 0 <= lo <= hi <= |w|
    requires forall k :: lo <= k < hi ==> w[k] == 0
    ensures Sum(w[..hi]) == Sum(w[..lo])
    decreases hi - lo
  {
    if lo < hi {
      ZeroSlotsAddNothing(w, lo, hi - 1);
      SumPrefixStep(w, hi - 1);
    }
  }
}
