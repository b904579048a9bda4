/**
 * WeightedArray<T>: parallel arrays of values, integer weights and range labels, with a
 * copy of the weights as they were at the previous validation. Validate() brings the
 * arrays back to a consistent state after an edit; GetElement() picks a value with
 * probability proportional to its weight.
 */
module WeightedArrays {
  import opened Sums
  import opened Rebalancing
  import opened AutoBalancing
  import opened WeightLabels
  import opened Picking

  datatype Option<T> = None | Some(value: T)

  /** The length SetLength keeps: the requested length cut into 0..100. */
  function ClampLength(n: int): (m: nat)
    ensures m <= 100
    ensures 0 <= n <= 100 ==> m == n
    ensures n > 100 ==> m == 100
    ensures n <= 0 ==> m == 0
  {
    if n > 100 then 100 else if n <= 0 then 0 else n
  }

  /** SetLength reallocates unless the length is 0 or the values already have that length. */
  predicate Resizes(len: nat, valuesLength: nat)
  {
    len != 0 && valuesLength != len
  }

  /**
   * The contents ResizeArray produces: the common prefix of s, then either the last element
   * of s (copyLast) or blank; an empty s gives all blanks.
   */
  function Resized<U>(s: seq<U>, n: nat, copyLast: bool, blank: U): (r: seq<U>)
    ensures |r| == n
  {
    seq(n, i requires 0 <= i < n =>
      if |s| == 0 then blank
      else if i < |s| then s[i]
      else if copyLast then s[|s| - 1]
      else blank)
  }

  /** Growing an array and shrinking it back to its old length restores it. */
  lemma ResizeRoundTrip<U>(s: seq<U>, n: nat, copyLast: bool, blank: U)
    requires |s| <= n
    ensures Resized(Resized(s, n, copyLast, blank), |s|, copyLast, blank) == s
  {
  }

  /** Resizing an array to its own length changes nothing. */
  lemma ResizeSameLength<U>(s: seq<U>, copyLast: bool, blank: U)
    ensures Resized(s, |s|, copyLast, blank) == s
  {
  }

  /** The weights once SetLength has run. */
  function WeightsAfterSetLength(len: nat, valuesLength: nat, w: seq<int>): seq<int>
  {
    if Resizes(len, valuesLength) then Resized(w, len, false, 0) else w
  }

  /** The previous weights once SetLength has run: a resize that finds them missing or mismatched copies the weights. */
  function PreviousAfterSetLength(len: nat, valuesLength: nat, prev: Option<seq<int>>, w: seq<int>): Option<seq<int>>
  {
    if Resizes(len, valuesLength) && (prev.None? || |prev.value| != len) then Some(w) else prev
  }

  /** RebalanceWeights only records the weights on its first call, and rebalances afterwards. */
  predicate FirstCall(prev: Option<seq<int>>, w: seq<int>)
  {
    prev.None? || |prev.value| != |w|
  }

  /** The weights RebalanceWeights leaves. */
  function RebalanceOutcome(prev: Option<seq<int>>, w: seq<int>): seq<int>
    requires !FirstCall(prev, w) ==> |w| > 0
  {
    if FirstCall(prev, w) then w else Rebalanced(prev.value, w)
  }

  /** Padding with 0 keeps non-negative weights non-negative. */
  lemma ResizedNonNegative(w: seq<int>, n: nat)
    requires NonNegative(w)
    ensures NonNegative(Resized(w, n, false, 0))
  {
  }

  /**
   * A validation that does not auto-balance keeps non-negative weights non-negative, and
   * once previous weights are known it leaves them summing to at most 100.
   */
  lemma ValidatedWeightsBounded(len: nat, valuesLength: nat, prev: Option<seq<int>>, w: seq<int>)
    requires NonNegative(w)
    requires var w1 := WeightsAfterSetLength(len, valuesLength, w);
      !FirstCall(PreviousAfterSetLength(len, valuesLength, prev, w1), w1) ==> |w1| > 0
    ensures var w1 := WeightsAfterSetLength(len, valuesLength, w);
      var p1 := PreviousAfterSetLength(len, valuesLength, prev, w1);
      NonNegative(RebalanceOutcome(p1, w1)) &&
      (!FirstCall(p1, w1) ==> Sum(RebalanceOutcome(p1, w1)) <= 100)
  {
    var w1 := WeightsAfterSetLength(len, valuesLength, w);
    var p1 := PreviousAfterSetLength(len, valuesLength, prev, w1);
    ResizedNonNegative(w, len);
    if !FirstCall(p1, w1) {
      RebalancedBounds(p1.value, w1);
    }
  }

  /**
   * Lengthening the balanced weights [2, 98] to 3 slots: SetLength copies the resized
   * weights into the previous ones, so RebalanceWeights sees no raised slot and, counting
   * slot 0 twice, takes 2 away: the weights end as [1, 97, 0].
   */
  lemma LengtheningLosesWeight()
    ensures var w := WeightsAfterSetLength(3, 2, [2, 98]);
      w == [2, 98, 0] &&
      RebalanceOutcome(PreviousAfterSetLength(3, 2, Some([2, 98]), w), w) == [1, 97, 0]
  {
    var w := [2, 98, 0];
    assert WeightsAfterSetLength(3, 2, [2, 98]) == w;
    assert PreviousAfterSetLength(3, 2, Some([2, 98]), w) == Some(w);
    assert LastRaised(w, w, 1) == 0 && LastRaised(w, w, 2) == 0;
    assert ChangedIndex(w, w) == 0;
    assert UnchangedSum(w, w, 1) == 2 && UnchangedSum(w, w, 2) == 100;
    assert UnchangedSum(w, w, 3) == 100;
    assert Claimed(w, w) == 102 && Redistributes(w, w);
    assert NextIndex(0, 0, 3) == 1 && NextIndex(1, 0, 3) == 2 && NextIndex(2, 0, 3) == 0;
    assert w[1 := 97] == [2, 97, 0] && [2, 97, 0][0 := 1] == [1, 97, 0];
    assert Redistribute(w, 0, 0, 2, 0) == Redistribute([2, 97, 0], 0, 1, 1, 0);
    assert Redistribute([2, 97, 0], 0, 1, 1, 0) == Redistribute([2, 97, 0], 0, 2, 1, 1);
    assert Redistribute([2, 97, 0], 0, 2, 1, 1) == Redistribute([1, 97, 0], 0, 0, 0, 0) == [1, 97, 0];
    assert Redistributed(w, w) == [1, 97, 0];
    assert ClampFrom([0], 98) == [0];
    assert ClampFrom([97, 0], 1) == [97, 0];
  }

  /**
   * A script's OnValidate calls Validate after every inspector edit. Setting the length to 2
   * gives two empty slots; raising the first slider to 60 keeps that weight, and the sum is
   * then marked as falling short of 100.
   */
  method InspectorSession() returns (first: seq<int>, second: seq<int>, fulfilled: bool)
    ensures first == [0, 0] && second == [60, 0] && !fulfilled
  {
    var a := new WeightedArray<int>(0);
    a.length := 2;
    a.Validate();
    first := a.weights[..];
    assert Resized([], 2, false, 0) == [0, 0];
    SessionStep([0, 0], [0, 0]);
    assert a.previousWeights[..] == [0, 0];
    a.weights[0] := 60;
    assert a.previousWeights[..] == [0, 0] && a.weights[..] == [60, 0];
    assert a.length == 2 && a.values.Length == 2;
    a.Validate();
    second := a.weights[..];
    fulfilled := a.isWeightSumFulfilled;
    SessionStep([0, 0], [60, 0]);
  }

  /** Two slots with nothing unchanged carrying weight: rebalancing keeps them, and the claim is w[0]. */
  lemma SessionStep(prev: seq<int>, w: seq<int>)
    requires prev == [0, 0] && (w == [0, 0] || w == [60, 0])
    ensures Rebalanced(prev, w) == w && !Fulfilled(prev, w)
  {
    assert LastRaised(prev, w, 1) == 0 && LastRaised(prev, w, 2) == 0;
    assert UnchangedSum(prev, w, 1) == 0 && UnchangedSum(prev, w, 2) == 0;
    assert Claimed(prev, w) == w[0];
    assert ClampFrom(w[1..], w[0]) == w[1..];
    assert [w[0]] + w[1..] == w;
  }

  class WeightedArray<T(0)> {
    var values: array<T>
    var weights: array<int>
    var labels: array<Label>
    var length: int
    var hasBeenValidated: bool
    var isWeightSumFulfilled: bool
    var doAutoBalance: bool
    var previousWeights: array?<int>
    /** What a fresh array of values holds (C#'s default of T). */
    const blank: T

    /** The three parallel arrays have one length, and no two arrays are the same object. */
    ghost predicate Valid()
      reads this
    {
      values.Length == weights.Length == labels.Length &&
      values as object != weights && values as object != labels && weights as object != labels &&
      (previousWeights != null ==> previousWeights != weights && previousWeights as object != values)
    }

    ghost function PreviousSeq(): Option<seq<int>>
      reads this, previousWeights
    {
      if previousWeights == null then None else Some(previousWeights[..])
    }

    /**
     * The states in which Validate does not index past an array: auto-balancing with a
     * deficit reads slot 0 and copies the weights into the previous ones; rebalancing reads
     * slot 0 of the weights when the previous weights are present with the same length.
     */
    ghost predicate CanValidate()
      reads this
    {
      if doAutoBalance then
        weights.Length > 0 && previousWeights != null && previousWeights.Length >= weights.Length
      else
        weights.Length > 0 || ClampLength(length) > 0 || previousWeights == null || previousWeights.Length > 0
    }

    /** A freshly created array: no values, no previous weights, nothing validated. */
    constructor (blank: T)
      ensures Valid() && this.blank == blank
      ensures fresh(values) && fresh(weights) && fresh(labels)
      ensures values.Length == 0 && length == 0 && previousWeights == null
      ensures !hasBeenValidated && !isWeightSumFulfilled && !doAutoBalance
    {
      values := new T[0];
      weights := new int[0];
      labels := new Label[0];
      length := 0;
      hasBeenValidated := false;
      isWeightSumFulfilled := false;
      doAutoBalance := false;
      previousWeights := null;
      this.blank := blank;
    }

    /** The requested length of the array. */
    function Length(): (n: int)
      reads this
      ensures n == length
    {
      length
    }

    method GetElementAtIndex(i: int) returns (v: T)
      requires 0 <= i < values.Length
      ensures v == values[i]
    {
      v := values[i];
    }

    /** Updates the weights after an edit, then regenerates the labels and records the weights. */
    method Validate()
      requires Valid() && CanValidate()
      modifies this, weights, labels, previousWeights
      ensures Valid() && hasBeenValidated
      ensures values == old(values) || fresh(values)
      ensures weights == old(weights) || fresh(weights)
      ensures labels == old(labels) || fresh(labels)
      ensures previousWeights == old(previousWeights) || fresh(previousWeights)
      ensures previousWeights != null && previousWeights.Length >= weights.Length
      ensures !old(doAutoBalance) ==> previousWeights.Length == weights.Length
      ensures previousWeights[..weights.Length] == weights[..]
      ensures forall i :: 0 <= i < weights.Length ==> labels[i] == LabelAt(weights[..], i)
      ensures old(doAutoBalance) ==>
        !doAutoBalance && isWeightSumFulfilled && length == old(length) &&
        values == old(values) && weights == old(weights) && previousWeights == old(previousWeights) &&
        weights[..] == AutoBalanced(old(weights[..]))
      ensures !old(doAutoBalance) ==>
        var len := ClampLength(old(length));
        var w := WeightsAfterSetLength(len, old(values.Length), old(weights[..]));
        var prev := PreviousAfterSetLength(len, old(values.Length), old(PreviousSeq()), w);
        length == len && doAutoBalance == old(doAutoBalance) &&
        values[..] == (if Resizes(len, old(values.Length)) then Resized(old(values[..]), len, true, blank) else old(values[..])) &&
        weights[..] == RebalanceOutcome(prev, w) &&
        isWeightSumFulfilled == (if FirstCall(prev, w) then old(isWeightSumFulfilled) else Fulfilled(prev.value, w))
    {
      hasBeenValidated := true;

      if doAutoBalance {
        AutoBalance();
        GenerateWeightLabels();
        SetPreviousValues();
        return;
      }

      SetLength();
      RebalanceWeights();
      GenerateWeightLabels();
      SetPreviousValues();
    }

    /** Clamps the length into 0..100 and resizes the three arrays to it. */
    method SetLength()
      requires Valid()
      modifies this
      ensures Valid()
      ensures length == ClampLength(old(length))
      ensures hasBeenValidated == old(hasBeenValidated) && isWeightSumFulfilled == old(isWeightSumFulfilled)
      ensures doAutoBalance == old(doAutoBalance)
      ensures !Resizes(length, old(values.Length)) ==>
        values == old(values) && weights == old(weights) && labels == old(labels) &&
        previousWeights == old(previousWeights)
      ensures Resizes(length, old(values.Length)) ==>
        fresh(values) && fresh(weights) && fresh(labels) &&
        values[..] == Resized(old(values[..]), length, true, blank) &&
        weights[..] == Resized(old(weights[..]), length, false, 0) &&
        labels[..] == Resized(old(labels[..]), length, false, Unset)
      ensures Resizes(length, old(values.Length)) && (old(previousWeights) == null || old(previousWeights).Length != length) ==>
        fresh(previousWeights) && previousWeights[..] == weights[..]
      ensures Resizes(length, old(values.Length)) && old(previousWeights) != null && old(previousWeights).Length == length ==>
        previousWeights == old(previousWeights)
    {
      if length > 100 {
        length := 100;
      } else if length <= 0 {
        length := 0;
      }

      if length == 0 || values.Length == length {
        return;
      }

      values := ResizeArray(values, length, true, blank);
      weights := ResizeArray(weights, length, false, 0);
      labels := ResizeArray(labels, length, false, Unset);

      if previousWeights == null || previousWeights.Length != weights.Length {
        previousWeights := new int[weights.Length];
        SetPreviousValues();
      }
    }

    /**
     * Rebalances the weights after the user moved one slider: on the first call only records
     * them; afterwards redistributes any surplus over 100 and clamps the running total.
     */
    method RebalanceWeights()
      requires Valid()
      requires weights.Length > 0 || previousWeights == null || previousWeights.Length != weights.Length
      modifies this, weights
      ensures Valid()
      ensures values == old(values) && weights == old(weights) && labels == old(labels) && length == old(length)
      ensures hasBeenValidated == old(hasBeenValidated) && doAutoBalance == old(doAutoBalance)
      ensures FirstCall(old(PreviousSeq()), old(weights[..])) ==>
        fresh(previousWeights) && weights[..] == old(weights[..]) && previousWeights[..] == weights[..] &&
        isWeightSumFulfilled == old(isWeightSumFulfilled)
      ensures !FirstCall(old(PreviousSeq()), old(weights[..])) ==>
        previousWeights == old(previousWeights) && previousWeights[..] == old(previousWeights[..]) &&
        weights[..] == Rebalanced(old(previousWeights[..]), old(weights[..])) &&
        isWeightSumFulfilled == Fulfilled(old(previousWeights[..]), old(weights[..]))
    {
      if previousWeights == null || previousWeights.Length != weights.Length {
        previousWeights := new int[weights.Length];
        SetPreviousValues();
        return;
      }

      ghost var prev, w0 := previousWeights[..], weights[..];
      var changed, weightSum := FindChange(previousWeights, weights);

      if weightSum + weights[changed] < 100 {
        isWeightSumFulfilled := false;
      } else {
        isWeightSumFulfilled := true;
      }

      var surplus := weightSum + weights[changed] - 100;

      if weightSum > 0 && weightSum + weights[changed] > 100 {
        RedistributeSurplus(weights, changed, surplus);
      }
      assert weights[..] == Redistributed(prev, w0);

      ClampToHundred(weights);
    }

    /**
     * The scan for the changed slider: the last slot whose weight rose since the previous
     * validation (0 if none did), and the sum of the weights that did not change.
     */
    static method FindChange(previous: array<int>, w: array<int>) returns (changed: nat, weightSum: int)
      requires previous.Length == w.Length > 0
      ensures changed == ChangedIndex(previous[..], w[..])
      ensures weightSum == UnchangedSum(previous[..], w[..], w.Length)
    {
      changed := 0;
      weightSum := 0;
      for i := 0 to previous.Length
        invariant changed == LastRaised(previous[..], w[..], i)
        invariant weightSum == UnchangedSum(previous[..], w[..], i)
      {
        if previous[i] != w[i] {
          if w[i] - previous[i] > 0 {
            changed := i;
          }
        } else {
          weightSum := weightSum + w[i];
        }
      }
    }

    /**
     * The redistribution loop: takes 1 at a time from the nonzero slots after the changed one,
     * round-robin, until the surplus is gone; gives the changed slot 100 if a whole round
     * found nothing to take.
     */
    static method RedistributeSurplus(w: array<int>, changed: nat, surplus: int)
      requires changed < w.Length && surplus > 0
      modifies w
      ensures w[..] == Redistribute(old(w[..]), changed, changed, surplus, 0)
    {
      var n := w.Length;
      var valuesToRedistro := surplus;
      var iterationSinceLastChange := 0;
      var index := changed;
      while valuesToRedistro > 0 && iterationSinceLastChange < n - 1
        invariant 0 <= index < n && valuesToRedistro >= 0
        invariant Redistribute(w[..], changed, index, valuesToRedistro, iterationSinceLastChange)
          == Redistribute(old(w[..]), changed, changed, surplus, 0)
        decreases valuesToRedistro, n - iterationSinceLastChange
      {
        index := index + 1;
        if index == changed {
          index := index + 1;
        }
        if index >= n {
          index := 0;
        }

        if w[index] != 0 {
          w[index] := w[index] - 1;
          valuesToRedistro := valuesToRedistro - 1;
          iterationSinceLastChange := 0;
        } else {
          iterationSinceLastChange := iterationSinceLastChange + 1;
        }
      }

      if iterationSinceLastChange >= n - 1 {
        w[changed] := 100;
      }
    }

    /** The clamp pass: cuts the slot whose running total passes 100 and zeroes every later slot. */
    static method ClampToHundred(w: array<int>)
      modifies w
      ensures w[..] == Clamp(old(w[..]))
    {
      ghost var mid := w[..];
      var total := 0;
      for i := 0 to w.Length
        invariant w[..i] + ClampFrom(mid[i..], total) == Clamp(mid)
        invariant w[i..] == mid[i..]
      {
        ghost var before, done := total, w[..i];
        assert mid[i..] == [mid[i]] + mid[i + 1..];
        if total == 100 {
          w[i] := 0;
        } else if total + w[i] > 100 {
          w[i] := w[i] - ((w[i] + total) - 100);
          total := 100;
        } else {
          total := total + w[i];
        }
        assert ClampFrom(mid[i..], before) == [w[i]] + ClampFrom(mid[i + 1..], total);
        assert w[..i] == done;
        assert w[..i + 1] == done + [w[i]];
      }
      assert w[..] == w[..w.Length];
    }

    /** Records the current weights as the previous ones. */
    method SetPreviousValues()
      requires Valid() && previousWeights != null && weights.Length <= previousWeights.Length
      modifies previousWeights
      ensures previousWeights[..weights.Length] == weights[..]
      ensures previousWeights[weights.Length..] == old(previousWeights[weights.Length..])
    {
      for i := 0 to weights.Length
        invariant previousWeights[..i] == weights[..i]
        invariant previousWeights[weights.Length..] == old(previousWeights[weights.Length..])
      {
        previousWeights[i] := weights[i];
      }
    }

    /** Writes each slot's range label from the running total of the weights before it. */
    method GenerateWeightLabels()
      requires Valid()
      modifies labels
      ensures forall i :: 0 <= i < weights.Length ==> labels[i] == LabelAt(weights[..], i)
    {
      var labelTotal := 1;
      for i := 0 to weights.Length
        modifies labels
        invariant labelTotal == 1 + Sum(weights[..i])
        invariant forall j :: 0 <= j < i ==> labels[j] == LabelAt(weights[..], j)
      {
        if weights[i] == 0 {
          labels[i] := NotIncluded;
        } else {
          labels[i] := Range(labelTotal, labelTotal + weights[i] - 1);
        }
        SumPrefixStep(weights[..], i);
        assert weights[..][..i] == weights[..i] && weights[..][..i + 1] == weights[..i + 1];
        labelTotal := labelTotal + weights[i];
      }
    }

    /**
     * A fresh array of the given length holding the common prefix of the source; past the
     * source's end, the source's last element (copyLast) or blanks.
     */
    static method ResizeArray<U>(source: array?<U>, n: nat, copyLast: bool, blank: U) returns (r: array<U>)
      ensures fresh(r)
      ensures r[..] == Resized(if source == null then [] else source[..], n, copyLast, blank)
    {
      r := new U[n](_ => blank);

      if source == null || (n == 0 || source.Length == 0) {
        r := new U[n](_ => blank);
        return;
      }

      ghost var s := source[..];
      for i := 0 to n
        invariant forall j :: 0 <= j < i ==> r[j] == Resized(s, n, copyLast, blank)[j]
        invariant forall j :: i <= j < n ==> r[j] == blank
      {
        if i < source.Length {
          r[i] := source[i];
        } else if copyLast {
          r[i] := source[source.Length - 1];
        } else {
          break;
        }
      }
    }

    /**
     * Picks a value by weight: draw is the random number in [0, 100) the source takes from
     * Random.Range(0, 100). Falls back to the first value when no running total exceeds it.
     */
    method GetElement(draw: int) returns (v: T)
      requires Valid() && 0 <= draw < 100
      requires values.Length > 0
      ensures match Select(weights[..], draw)
        case Hit(i) => i < values.Length && v == values[i]
        case Miss => v == values[0]
    {
      var threshold := 0;
      for i := 0 to weights.Length
        modifies {}
        invariant threshold == Sum(weights[..i])
        invariant SelectIn(weights[..], draw, i) == Miss
      {
        SumPrefixStep(weights[..], i);
        assert weights[..][..i] == weights[..i] && weights[..][..i + 1] == weights[..i + 1];
        threshold := threshold + weights[i];

        if draw < threshold {
          SelectInStable(weights[..], draw, i + 1, weights.Length);
          return values[i];
        }
      }

      return values[0];
    }

    /**
     * Spreads the shortfall below 100 one unit at a time over the slots, round-robin from
     * slot 0, and clears the auto-balance request.
     */
    method AutoBalance()
      requires Valid() && weights.Length > 0
      modifies this, weights
      ensures Valid()
      ensures values == old(values) && weights == old(weights) && labels == old(labels)
      ensures length == old(length) && previousWeights == old(previousWeights) && hasBeenValidated == old(hasBeenValidated)
      ensures weights[..] == AutoBalanced(old(weights[..]))
      ensures !doAutoBalance && isWeightSumFulfilled
    {
      var total := Total(weights);
      var redistro := 100 - total;
      DealRoundRobin(weights, redistro);

      doAutoBalance := false;
      isWeightSumFulfilled := true;
    }

    /** The total of the weights. */
    static method Total(w: array<int>) returns (total: int)
      ensures total == Sum(w[..])
    {
      total := 0;
      for i := 0 to w.Length
        invariant total == Sum(w[..i])
      {
        SumPrefixStep(w[..], i);
        assert w[..][..i] == w[..i] && w[..][..i + 1] == w[..i + 1];
        total := total + w[i];
      }
      assert w[..] == w[..w.Length];
    }

    /**
     * The auto-balance loop: hands out the shortfall one unit at a time, round-robin from
     * slot 0; nothing when there is no shortfall.
     */
    static method DealRoundRobin(w: array<int>, shortfall: int)
      requires w.Length > 0
      modifies w
      ensures var d := if shortfall > 0 then shortfall else 0;
        w[..] == Deal(old(w[..]), d / w.Length, d % w.Length)
    {
      var n := w.Length;
      ghost var d := if shortfall > 0 then shortfall else 0;
      ghost var rounds := 0;
      var redistro := shortfall;
      var index := 0;
      while redistro > 0
        invariant 0 <= index < n && rounds >= 0
        invariant rounds * n + index == d - (if redistro > 0 then redistro else 0)
        invariant forall i :: 0 <= i < n ==> w[i] == old(w[i]) + rounds + (if i < index then 1 else 0)
      {
        w[index] := w[index] + 1;

        index := index + 1;
        if index >= n {
          index := 0;
          rounds := rounds + 1;
        }

        redistro := redistro - 1;
      }
      DivModUnique(d, n, rounds, index);
    }
  }
}
