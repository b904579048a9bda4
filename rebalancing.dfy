/**
 * The slider-rebalancing rule of WeightedArray.RebalanceWeights, stated on sequences:
 * which slot the user raised, whether the weights reach 100, the round-robin
 * redistribution of the surplus, and the final clamp of the running total to 100.
 */
module Rebalancing {
  import opened Sums

  /** Slot j was raised: its weight is above the one recorded at the previous validation. */
  predicate Raised(prev: seq<int>, w: seq<int>, j: int)
    requires |prev| == |w| && 0 <= j < |w|
  {
    w[j] > prev[j]
  }

  predicate SomeRaised(prev: seq<int>, w: seq<int>)
    requires |prev| == |w|
  {
    exists j :: 0 <= j < |w| && Raised(prev, w, j)
  }

  /** The last raised slot among the first k, or 0 when none of them was raised. */
  function LastRaised(prev: seq<int>, w: seq<int>, k: nat): (c: nat)
    requires |prev| == |w| && k <= |w|
    ensures k > 0 ==> c < k
    ensures forall j :: c < j < k ==> !Raised(prev, w, j)
    ensures (exists j :: 0 <= j < k && Raised(prev, w, j)) ==> Raised(prev, w, c)
  {
    if k == 0 then 0
    else if w[k - 1] > prev[k - 1] then k - 1
    else LastRaised(prev, w, k - 1)
  }

  /** The slot the source treats as "changed" (`_changedIndex`). */
  function ChangedIndex(prev: seq<int>, w: seq<int>): (c: nat)
    requires |prev| == |w| > 0
    ensures c < |w|
  {
    LastRaised(prev, w, |w|)
  }

  /** The sum of the weights among the first k that equal their previous value (`_weightSum`). */
  function UnchangedSum(prev: seq<int>, w: seq<int>, k: nat): (s: int)
    requires |prev| == |w| && k <= |w|
    ensures NonNegative(w) ==> 0 <= s <= Sum(w[..k])
  {
    if k == 0 then 0
    else
      var rest := UnchangedSum(prev, w, k - 1);
      SumPrefixStep(w, k - 1);
      if prev[k - 1] == w[k - 1] then rest + w[k - 1] else rest
  }

  /** The sum the source compares with 100: the unchanged weights plus the changed slot. */
  function Claimed(prev: seq<int>, w: seq<int>): int
    requires |prev| == |w| > 0
  {
    UnchangedSum(prev, w, |w|) + w[ChangedIndex(prev, w)]
  }

  /** The value `m_isWeightSumFulfilled` takes on a rebalancing pass. */
  predicate Fulfilled(prev: seq<int>, w: seq<int>)
    requires |prev| == |w| > 0
  {
    Claimed(prev, w) >= 100
  }

  /** The surplus is redistributed only when some unchanged weight exists and the claim exceeds 100. */
  predicate Redistributes(prev: seq<int>, w: seq<int>)
    requires |prev| == |w| > 0
  {
    UnchangedSum(prev, w, |w|) > 0 && Claimed(prev, w) > 100
  }

  /**
   * One step of the round-robin cursor: advance, skip the changed slot, then wrap.
   * The skip is tested before the wrap, so a changed slot 0 is not skipped after wrapping.
   */
  function NextIndex(index: nat, changed: nat, n: nat): (i: nat)
    requires index < n && changed < n
    ensures i < n
  {
    var i := index + 1;
    var i := if i == changed then i + 1 else i;
    if i >= n then 0 else i
  }

  /**
   * The redistribution loop from a given loop state: take 1 from the next nonzero slot
   * until the surplus is gone or a full round found nothing; a round that found nothing
   * gives the changed slot 100.
   */
  function Redistribute(w: seq<int>, changed: nat, index: nat, surplus: int, idle: nat): seq<int>
    requires changed < |w| && index < |w|
    decreases if surplus > 0 then surplus else 0, |w| - idle
  {
    if surplus > 0 && idle < |w| - 1 then
      var i := NextIndex(index, changed, |w|);
      if w[i] != 0 then Redistribute(w[i := w[i] - 1], changed, i, surplus - 1, 0)
      else Redistribute(w, changed, i, surplus, idle + 1)
    else if idle >= |w| - 1 then w[changed := 100]
    else w
  }

  /** The clamp pass from running total `total`: no running total may pass 100. */
  function ClampFrom(w: seq<int>, total: int): (r: seq<int>)
    ensures |r| == |w|
  {
    if w == [] then []
    else if total == 100 then [0] + ClampFrom(w[1..], 100)
    else if total + w[0] > 100 then [w[0] - ((w[0] + total) - 100)] + ClampFrom(w[1..], 100)
    else [w[0]] + ClampFrom(w[1..], total + w[0])
  }

  function Clamp(w: seq<int>): seq<int>
  {
    ClampFrom(w, 0)
  }

  /** The weights after redistribution, before the clamp pass. */
  function Redistributed(prev: seq<int>, w: seq<int>): seq<int>
    requires |prev| == |w| > 0
  {
    if Redistributes(prev, w) then
      var c := ChangedIndex(prev, w);
      Redistribute(w, c, c, Claimed(prev, w) - 100, 0)
    else w
  }

  /** The weights RebalanceWeights leaves once the previous weights are known. */
  function Rebalanced(prev: seq<int>, w: seq<int>): seq<int>
    requires |prev| == |w| > 0
  {
    Clamp(Redistributed(prev, w))
  }

  // ---------------------------------------------------------------------------
  // Properties of the redistribution loop

  lemma {:induction false} RedistributeShape(w: seq<int>, changed: nat, index: nat, surplus: int, idle: nat)
    requires changed < |w| && index < |w|
    requires NonNegative(w) && surplus >= 0
    ensures var r := Redistribute(w, changed, index, surplus, idle);
      |r| == |w| && NonNegative(r) &&
      (forall j :: 0 <= j < |w| && j != changed ==> 0 <= r[j] <= w[j]) &&
      (r[changed] <= w[changed] || r[changed] == 100) &&
      (Sum(r) == Sum(w) - surplus || r[changed] == 100)
    decreases surplus, |w| - idle
  {
    if surplus > 0 && idle < |w| - 1 {
      var i := NextIndex(index, changed, |w|);
      if w[i] != 0 {
        SumUpdate(w, i, w[i] - 1);
        RedistributeShape(w[i := w[i] - 1], changed, i, surplus - 1, 0);
      } else {
        RedistributeShape(w, changed, i, surplus, idle + 1);
      }
    }
  }

  // ---------------------------------------------------------------------------
  // Properties of the clamp pass

  /**
   * Every running total of the clamped weights is the original running total cut at 100.
   */
  lemma {:induction false} ClampFromPrefix(w: seq<int>, total: int, i: int)
    requires NonNegative(w) && 0 <= total <= 100
    requires 0 <= i <= |w|
    ensures |ClampFrom(w, total)| == |w|
    ensures total + Sum(ClampFrom(w, total)[..i]) == Min(100, total + Sum(w[..i]))
    decreases |w|
  {
    if w == [] {
    } else {
      var next := Min(100, total + w[0]);
      assert NonNegative(w[1..]);
      assert ClampFrom(w, total) == [next - total] + ClampFrom(w[1..], next);
      ClampFromPrefix(w[1..], next, if i == 0 then 0 else i - 1);
      if i > 0 {
        SumConsPrefix(ClampFrom(w, total), i);
        SumConsPrefix(w, i);
        SumNonNegative(w[1..][..i - 1]);
      }
    }
  }

  /**
   * The clamp pass as a closed form: slot i keeps what fits under 100 after the slots before it.
   */
  lemma ClampAt(w: seq<int>, i: int)
    requires NonNegative(w) && 0 <= i < |w|
    ensures |Clamp(w)| == |w|
    ensures Clamp(w)[i] == Min(100, Sum(w[..i + 1])) - Min(100, Sum(w[..i]))
    ensures 0 <= Clamp(w)[i] <= w[i]
  {
    ClampFromPrefix(w, 0, i);
    ClampFromPrefix(w, 0, i + 1);
    SumPrefixStep(Clamp(w), i);
    SumPrefixStep(w, i);
    SumNonNegative(w[..i]);
  }

  /** After the clamp pass no running total exceeds 100 and no weight is negative or raised. */
  lemma ClampBounds(w: seq<int>)
    requires NonNegative(w)
    ensures |Clamp(w)| == |w| && NonNegative(Clamp(w))
    ensures forall i :: 0 <= i < |w| ==> Clamp(w)[i] <= w[i]
    ensures forall i :: 0 <= i <= |w| ==> Sum(Clamp(w)[..i]) == Min(100, Sum(w[..i]))
    ensures Sum(Clamp(w)) == Min(100, Sum(w))
  {
    ClampFromPrefix(w, 0, 0);
    forall i | 0 <= i < |w|
      ensures 0 <= Clamp(w)[i] <= w[i]
    {
      ClampAt(w, i);
    }
    forall i | 0 <= i <= |w|
      ensures Sum(Clamp(w)[..i]) == Min(100, Sum(w[..i]))
    {
      ClampFromPrefix(w, 0, i);
    }
    assert Clamp(w)[..|w|] == Clamp(w) && w[..|w|] == w;
  }

  /** Weights whose running total stays within 100 pass the clamp unchanged. */
  lemma ClampKeepsBalanced(w: seq<int>)
    requires NonNegative(w) && Sum(w) <= 100
    ensures Clamp(w) == w
  {
    ClampFromPrefix(w, 0, 0);
    forall i | 0 <= i < |w|
      ensures Clamp(w)[i] == w[i]
    {
      ClampAt(w, i);
      SumPrefixStep(w, i);
      PrefixMonotone(w, i + 1, |w|);
      SumNonNegative(w[..i]);
      assert w[..|w|] == w;
    }
  }

  /** Clamping twice is clamping once. */
  lemma ClampIdempotent(w: seq<int>)
    requires NonNegative(w)
    ensures Clamp(Clamp(w)) == Clamp(w)
  {
    ClampBounds(w);
    SumNonNegative(w);
    ClampKeepsBalanced(Clamp(w));
  }

  // ---------------------------------------------------------------------------
  // Properties of the whole rebalancing pass

  /** The changed slot, when really raised, is not among the unchanged weights. */
  lemma {:induction false} UnchangedSumWithRaised(prev: seq<int>, w: seq<int>, c: nat, k: nat)
    requires |prev| == |w| && NonNegative(w)
    requires c < k <= |w| && Raised(prev, w, c)
    ensures UnchangedSum(prev, w, k) + w[c] <= Sum(w[..k])
  {
    SumPrefixStep(w, k - 1);
    if k - 1 > c {
      UnchangedSumWithRaised(prev, w, c, k - 1);
    }
  }

  /** Rebalancing keeps weights non-negative and the total, and every running total, within 100. */
  lemma RebalancedBounds(prev: seq<int>, w: seq<int>)
    requires |prev| == |w| > 0 && NonNegative(w)
    ensures |Rebalanced(prev, w)| == |w| && NonNegative(Rebalanced(prev, w))
    ensures forall i :: 0 <= i <= |w| ==> Sum(Rebalanced(prev, w)[..i]) <= 100
    ensures Sum(Rebalanced(prev, w)) <= 100
  {
    var mid := Redistributed(prev, w);
    if Redistributes(prev, w) {
      var c := ChangedIndex(prev, w);
      RedistributeShape(w, c, c, Claimed(prev, w) - 100, 0);
    }
    ClampBounds(mid);
  }

  /**
   * When the user raised a slider and the claimed sum reaches 100, the weights end
   * summing to exactly 100.
   */
  lemma RebalancedReachesHundred(prev: seq<int>, w: seq<int>)
    requires |prev| == |w| > 0 && NonNegative(w)
    requires SomeRaised(prev, w) && Fulfilled(prev, w)
    ensures Sum(Rebalanced(prev, w)) == 100
  {
    var c := ChangedIndex(prev, w);
    UnchangedSumWithRaised(prev, w, c, |w|);
    assert w[..|w|] == w;
    var mid := Redistributed(prev, w);
    if Redistributes(prev, w) {
      RedistributeShape(w, c, c, Claimed(prev, w) - 100, 0);
      if mid[c] == 100 {
        SumUpdate(mid, c, 0);
        SumNonNegative(mid[c := 0]);
      }
    }
    ClampBounds(mid);
  }

  // ---------------------------------------------------------------------------
  // The changed slot when no slot was raised

  /**
   * Slot 0 raised to 3 while slot 1 stays at 99: the surplus of 2 is taken from slot 1 and
   * then, after the cursor wraps, from slot 0 itself, which the user had just raised.
   */
  lemma ChangedSlotZeroLosesWeight()
    ensures Rebalanced([0, 99], [3, 99]) == [2, 98]
  {
    var prev, w := [0, 99], [3, 99];
    assert LastRaised(prev, w, 1) == 0;
    assert ChangedIndex(prev, w) == 0;
    assert UnchangedSum(prev, w, 1) == 0;
    assert UnchangedSum(prev, w, 2) == 99;
    assert Claimed(prev, w) == 102 && Redistributes(prev, w);
    assert NextIndex(0, 0, 2) == 1 && NextIndex(1, 0, 2) == 0;
    assert w[1 := 98] == [3, 98] && [3, 98][0 := 2] == [2, 98];
    assert Redistribute(w, 0, 0, 2, 0) == Redistribute([3, 98], 0, 1, 1, 0);
    assert Redistribute([3, 98], 0, 1, 1, 0) == Redistribute([2, 98], 0, 0, 0, 0) == [2, 98];
    assert Redistributed(prev, w) == [2, 98];
    assert ClampFrom([98], 2) == [98];
  }

  /**
   * With no slot raised, ChangedIndex falls back to slot 0, whose weight is already among
   * the unchanged ones and is counted a second time: validating the balanced weights
   * [2, 98] unchanged takes 2 away and leaves [1, 97].
   */
  lemma UnraisedWeightsLoseWeight()
    ensures Rebalanced([2, 98], [2, 98]) == [1, 97]
    ensures Sum(Rebalanced([2, 98], [2, 98])) == 98
  {
    var w := [2, 98];
    assert LastRaised(w, w, 1) == 0;
    assert ChangedIndex(w, w) == 0;
    assert UnchangedSum(w, w, 1) == 2;
    assert UnchangedSum(w, w, 2) == 100;
    assert Claimed(w, w) == 102 && Redistributes(w, w);
    assert NextIndex(0, 0, 2) == 1 && NextIndex(1, 0, 2) == 0;
    assert w[1 := 97] == [2, 97] && [2, 97][0 := 1] == [1, 97];
    assert Redistribute(w, 0, 0, 2, 0) == Redistribute([2, 97], 0, 1, 1, 0);
    assert Redistribute([2, 97], 0, 1, 1, 0) == Redistribute([1, 97], 0, 0, 0, 0) == [1, 97];
    assert Redistributed(w, w) == [1, 97];
    assert ClampFrom([97], 1) == [97];
    assert Sum([1, 97]) == 98 by {
      assert [1, 97][..1] == [1];
      assert [1][..0] == [];
    }
  }

  /** The sum compared with 100 when the changed slot counts only if it was really raised. */
  function ClaimedIntended(prev: seq<int>, w: seq<int>): int
    requires |prev| == |w| > 0
  {
    UnchangedSum(prev, w, |w|) + (if SomeRaised(prev, w) then w[ChangedIndex(prev, w)] else 0)
  }

  /** Rebalancing that redistributes only when the claim, so counted, exceeds 100. */
  function RebalancedIntended(prev: seq<int>, w: seq<int>): seq<int>
    requires |prev| == |w| > 0
  {
    var c := ChangedIndex(prev, w);
    var claimed := ClaimedIntended(prev, w);
    var mid := if UnchangedSum(prev, w, |w|) > 0 && claimed > 100 then Redistribute(w, c, c, claimed - 100, 0) else w;
    Clamp(mid)
  }

  /** When a slot was raised, the corrected rule is the source's rule. */
  lemma IntendedAgreesWhenRaised(prev: seq<int>, w: seq<int>)
    requires |prev| == |w| > 0 && SomeRaised(prev, w)
    ensures RebalancedIntended(prev, w) == Rebalanced(prev, w)
  {
  }

  /**
   * Validating weights that no slider raised leaves a consistent weight set (non-negative,
   * total at most 100) exactly as it was.
   */
  lemma IntendedKeepsUnraised(prev: seq<int>, w: seq<int>)
    requires |prev| == |w| > 0 && NonNegative(w) && Sum(w) <= 100
    requires !SomeRaised(prev, w)
    ensures RebalancedIntended(prev, w) == w
  {
    assert w[..|w|] == w;
    ClampKeepsBalanced(w);
  }
}
