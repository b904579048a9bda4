# WeightedArray in Dafny

This project models `WeightedArray<T>` from the WeightedArray package for Unity. The class
keeps three parallel arrays: the values, their integer weights (percentages meant to sum to
100) and a range label shown beside each weight. It also keeps a copy of the weights as they
were at the previous validation. The inspector calls `Validate()` after every edit. It clamps
the array length and resizes the arrays. It then rebalances the weights after the user moved
one slider, or spreads the shortfall below 100 when auto-balance was requested. Last, it
rewrites the labels and records the weights. `GetElement()` picks a value with probability
proportional to its weight.

The model is one Dafny class, `WeightedArrays.WeightedArray`. It has the same fields, and its
methods update them in place as the C# code does. Each method is proved against a function on
sequences, and the properties of those functions are lemmas. The modules are:

- `Sums` (sums.dfy): sums and prefix sums of weight sequences.
- `Rebalancing` (rebalancing.dfy): the rules of `RebalanceWeights`. These cover which slot was
  raised, whether the claimed total reaches 100, the round-robin redistribution loop
  (`Redistribute`) and the clamp pass (`Clamp`).
- `AutoBalancing` (auto_balancing.dfy): the closed form of `AutoBalance`. Every slot gains
  deficit / length, and the lowest deficit mod length slots gain one more.
- `WeightLabels` (weight_labels.dfy): the label datatype and the label of each slot.
- `Picking` (picking.dfy): the weighted pick as a function of the draw.
- `WeightedArrays` (weighted_array.dfy): the class. It also holds the length clamp and the
  resize rule.

`RebalanceWeights` and `AutoBalance` run their loops through static helper methods on the
weight array: `FindChange`, `RedistributeSurplus`, `ClampToHundred`, `Total` and
`DealRoundRobin`. Each helper holds one loop of the source, unchanged, so each proof stays
small.

Labels are the datatype `Unset | NotIncluded | Range(first, last)`. `Unset` is the null string
of a freshly allocated label array, and `Range(a, b)` is the text "a - b". The draw that
`GetElement` takes from `Random.Range(0, 100)` is a parameter `0 <= draw < 100`. C#'s
`default(T)` is the constructor parameter `blank`. `Mathf.Sign(w[i] - prev[i]) > 0` at line
103 is the comparison `w[i] > prev[i]`.

The source's own failure cases are preconditions, because the C# code throws there:

- `CanValidate` states when `Validate` reads slot 0 of an empty weight array.
  - Auto-balancing an empty array reads slot 0 at line 286.
  - Rebalancing with an empty array reads slot 0 at line 114, when the previous weights are
    present with the same length.
- It also covers auto-balancing without previous weights, where line 191 dereferences null.
- `GetElement` needs a non-empty array, because its fallback reads `m_values[0]` at line 261.
- `GetElementAtIndex` needs an index inside the array, because `m_values[i]` at line 269 throws
  for any other.

The lemmas about weight sums assume non-negative weights. The inspector's sliders only produce
weights in 0..100.

The code and its own comments disagree in two places; the model follows the code.

- The comment on `AutoBalance` (Runtime/WeightedArray.cs:272-273) says it makes the sum equal
  to 100 by evenly distributing the difference. The code only fills a shortfall and leaves a
  total above 100 alone (`AutoBalancedTotal`).
- The inspector asks that the "Weights must equal 100" (Runtime/WeightedArray.cs:377), but
  rebalancing does not ensure it; see Findings. After rebalancing, the total reaches exactly
  100 when a slider was raised and the claimed total reaches 100 (`RebalancedReachesHundred`).
  Otherwise the total is only bounded by 100 (`RebalancedBounds`).

## Model

| member | source | states |
|---|---|---|
| `WeightedArrays.WeightedArray.constructor` | Runtime/WeightedArray.cs:16-31 | a new array holds three fresh, empty arrays, no previous weights, length 0 and every flag false |
| `WeightedArrays.WeightedArray.Length` | Runtime/WeightedArray.cs:304-307 | returns the requested length field |
| `WeightedArrays.WeightedArray.GetElementAtIndex` | Runtime/WeightedArray.cs:267-270 | returns the value stored at index i, for any index inside the array |
| `WeightedArrays.WeightedArray.Validate` | Runtime/WeightedArray.cs:37-53 | marks the array validated. On the auto-balance path it keeps the length and arrays and the weights become `AutoBalanced(old weights)`. Otherwise it applies SetLength and then RebalanceWeights to the clamped length, resized arrays and previous weights. Both paths end with every label equal to `LabelAt` of the final weights and the previous weights equal to the weights; without auto-balance they also have the weights' length. Each array field is either the old array or a fresh one |
| `WeightedArrays.InspectorSession` | Runtime/WeightedArray.cs:37-53 | the inspector's sequence of calls: a new array given length 2 validates to weights [0, 0]; raising slot 0 to 60 and validating again keeps [60, 0] and marks the sum as short of 100 |
| `WeightedArrays.ClampLength` | Runtime/WeightedArray.cs:58-65 | the kept length is in 0..100: above 100 becomes 100, 0 or below becomes 0, anything else stays |
| `WeightedArrays.WeightedArray.SetLength` | Runtime/WeightedArray.cs:56-82 | clamps the length. When the length is 0 or the values already have it, no array changes. Otherwise values, weights and labels are fresh arrays of exactly that length: values padded with their last element, weights with 0, labels with `Unset`. Missing or mismatched previous weights become a fresh copy of the new weights |
| `WeightedArrays.WeightedArray.ResizeArray` | Runtime/WeightedArray.cs:214-240 | returns a fresh array of the requested length holding the common prefix, padded with the last old element or with blanks. A null or empty source gives all blanks |
| `WeightedArrays.ResizeRoundTrip` | Runtime/WeightedArray.cs:214-240 | growing an array and resizing it back to its old length restores it |
| `WeightedArrays.ResizeSameLength` | Runtime/WeightedArray.cs:214-240 | resizing to the current length leaves the contents as they are |
| `WeightedArrays.ResizedNonNegative` | Runtime/WeightedArray.cs:73 | padding the weights with 0 keeps them non-negative |
| `WeightedArrays.WeightedArray.RebalanceWeights` | Runtime/WeightedArray.cs:85-183 | with previous weights missing or of another length, it only records a copy of the weights and changes nothing else. Otherwise the weights become `Rebalanced(prev, w)`, the previous weights stay, and the fulfilled flag becomes `Fulfilled(prev, w)` |
| `WeightedArrays.WeightedArray.FindChange` | Runtime/WeightedArray.cs:96-112 | returns the last slot whose weight rose (0 if none did) and the sum of the weights equal to their previous value |
| `Rebalancing.LastRaised` | Runtime/WeightedArray.cs:99-107 | the changed slot lies inside the array and no later slot was raised. If any slot was raised, the changed slot was |
| `Rebalancing.ChangedIndex` | Runtime/WeightedArray.cs:96-107 | the changed slot is a valid index of a non-empty array |
| `Rebalancing.UnchangedSum` | Runtime/WeightedArray.cs:97-111 | with non-negative weights, the sum of unchanged weights lies between 0 and the total |
| `Rebalancing.UnchangedSumWithRaised` | Runtime/WeightedArray.cs:99-112 | a really raised slot is not among the unchanged ones, so the unchanged sum plus its weight is at most the total |
| `Rebalancing.NextIndex` | Runtime/WeightedArray.cs:135-144 | every slot the redistribution cursor visits lies inside the array |
| `WeightedArrays.WeightedArray.RedistributeSurplus` | Runtime/WeightedArray.cs:124-162 | the loop ends, and the weights it leaves are `Redistribute` of the old ones from the changed slot, with the whole surplus and no idle steps |
| `Rebalancing.RedistributeShape` | Runtime/WeightedArray.cs:128-161 | starting from non-negative weights, redistribution keeps every weight non-negative. It never raises a slot other than the changed one, and the changed slot either does not rise or becomes 100. Either the total falls by exactly the surplus or the changed slot was set to 100 |
| `Rebalancing.ChangedSlotZeroLosesWeight` | Runtime/WeightedArray.cs:135-148 | the skip test comes before the wrap-around, so a changed slot 0 is itself decremented: raising slot 0 to 3 beside 99 ends as [2, 98] |
| `WeightedArrays.WeightedArray.ClampToHundred` | Runtime/WeightedArray.cs:164-182 | the weights it leaves are `Clamp` of the old ones |
| `Rebalancing.ClampFromPrefix` | Runtime/WeightedArray.cs:165-182 | from a running total t in 0..100, every running total of the clamped weights is the original running total cut at 100 |
| `Rebalancing.ClampAt` | Runtime/WeightedArray.cs:168-181 | slot i keeps min(100, total through i) - min(100, total before i), a value between 0 and its old weight. The slot that crosses 100 is cut to fill exactly 100 and every later slot becomes 0 |
| `Rebalancing.ClampBounds` | Runtime/WeightedArray.cs:164-182 | after the clamp pass, weights are non-negative and none is raised. Every running total is the old one cut at 100, so the total is min(100, old total) |
| `Rebalancing.ClampKeepsBalanced` | Runtime/WeightedArray.cs:164-182 | non-negative weights with total at most 100 pass the clamp unchanged |
| `Rebalancing.ClampIdempotent` | Runtime/WeightedArray.cs:164-182 | clamping twice gives the same weights as clamping once |
| `Rebalancing.RebalancedBounds` | Runtime/WeightedArray.cs:114-182 | rebalancing non-negative weights leaves them non-negative, with every running total and the total at most 100 |
| `Rebalancing.RebalancedReachesHundred` | Runtime/WeightedArray.cs:114-182 | when a slider was raised and the claimed total (unchanged weights + changed slot) reaches 100, the weights end summing to exactly 100 |
| `Rebalancing.UnraisedWeightsLoseWeight` | Runtime/WeightedArray.cs:96-128 | with no raised slot, slot 0 is counted twice, so validating the unchanged balanced weights [2, 98] gives [1, 97], total 98 |
| `WeightedArrays.LengtheningLosesWeight` | Runtime/WeightedArray.cs:72-80 | lengthening [2, 98] to 3 slots copies the weights into the previous ones, and the following rebalance turns [2, 98, 0] into [1, 97, 0] |
| `Rebalancing.IntendedAgreesWhenRaised` | Runtime/WeightedArray.cs:114-128 | the corrected rule and the rule as written agree whenever some slot was raised |
| `Rebalancing.IntendedKeepsUnraised` | Runtime/WeightedArray.cs:114-128 | under the corrected rule, non-negative weights with total at most 100 and no raised slot are left exactly as they are |
| `WeightedArrays.ValidatedWeightsBounded` | Runtime/WeightedArray.cs:49-50 | a validation without auto-balance keeps non-negative weights non-negative. Once previous weights of the same length exist, it leaves a total of at most 100 |
| `WeightedArrays.WeightedArray.SetPreviousValues` | Runtime/WeightedArray.cs:187-193 | the previous weights equal the weights slot by slot, and any slots past the weights' length are untouched |
| `WeightedArrays.WeightedArray.GenerateWeightLabels` | Runtime/WeightedArray.cs:196-211 | every label is `LabelAt` of the weights: `NotIncluded` for weight 0, otherwise `Range(1 + sum of earlier weights, that + w[i] - 1)` |
| `WeightLabels.LabelEndsAtRunningTotal` | Runtime/WeightedArray.cs:198-209 | a nonzero slot's range starts one past the total before it, ends at the total through it, and holds exactly w[i] numbers |
| `WeightLabels.LabelsDisjoint` | Runtime/WeightedArray.cs:198-209 | with non-negative weights, the ranges of two nonzero slots never overlap and follow slot order |
| `WeightLabels.LabelsContiguous` | Runtime/WeightedArray.cs:198-209 | a range starts right after the previous nonzero slot's range, so the ranges leave no gap |
| `WeightedArrays.WeightedArray.GetElement` | Runtime/WeightedArray.cs:245-262 | returns the value of the slot `Select(weights, draw)` finds, or the first value when none is found |
| `Picking.SelectIn` | Runtime/WeightedArray.cs:250-258 | a found slot is the first whose running total exceeds the draw. When none is found, no running total exceeds it |
| `Picking.SelectedSlotHasWeight` | Runtime/WeightedArray.cs:250-258 | a slot selected by a draw of at least 0 has positive weight, and the draw lies between the running totals before and through it |
| `Picking.SelectHitsWhenBalanced` | Runtime/WeightedArray.cs:250-261 | with non-negative weights summing to 100, every draw in [0, 100) finds a slot, so the fallback to the first value is unreachable |
| `Picking.SelectExactly` | Runtime/WeightedArray.cs:250-258 | with non-negative weights, draw r selects slot i exactly when total before i <= r < total through i |
| `Picking.DrawsPerSlot` | Runtime/WeightedArray.cs:245-258 | with non-negative weights summing to 100, exactly w[i] of the 100 possible draws select slot i |
| `Picking.LabelNamesDraws` | Runtime/WeightedArray.cs:198-209 | draw r selects slot i exactly when r + 1 lies in slot i's range label, so the labels show which draws pick each value |
| `WeightedArrays.WeightedArray.AutoBalance` | Runtime/WeightedArray.cs:274-299 | the weights become `AutoBalanced(old weights)`, the auto-balance request is cleared, and the sum is marked fulfilled |
| `WeightedArrays.WeightedArray.Total` | Runtime/WeightedArray.cs:276-280 | returns the sum of the weights |
| `WeightedArrays.WeightedArray.DealRoundRobin` | Runtime/WeightedArray.cs:282-295 | handing out the shortfall d one unit at a time from slot 0 leaves each slot with d / n more, and the slots below d mod n with one more still |
| `AutoBalancing.Deficit` | Runtime/WeightedArray.cs:282 | the shortfall brings a total below 100 exactly to 100, and is 0 when the total reaches 100 |
| `AutoBalancing.DealPrefix` | Runtime/WeightedArray.cs:284-295 | dealing gives the first k slots k * q units plus one for each slot below the remainder |
| `AutoBalancing.AutoBalancedTotal` | Runtime/WeightedArray.cs:276-298 | a non-empty array whose total is below 100 ends with total exactly 100. A total of 100 or more leaves the weights unchanged |
| `AutoBalancing.AutoBalancedFair` | Runtime/WeightedArray.cs:282-295 | each slot gains floor(d / n), or floor(d / n) + 1 = ceil(d / n) when d mod n is not 0. The slots that gain the extra unit are exactly the lowest d mod n indices |
| `AutoBalancing.AutoBalancedGrows` | Runtime/WeightedArray.cs:284-295 | auto-balancing never lowers a weight, so non-negative weights stay non-negative |

## Left out

- Editor/WeightedArrayEditor.cs and the `#if UNITY_EDITOR` drawer at Runtime/WeightedArray.cs:310-499 are IMGUI rendering inside the Unity Editor, with float layout arithmetic. Neither is part of this model.
- `Random.Range(0, 100)` in `GetElement` becomes the `draw` parameter. `Debug.LogError` is logging and is dropped.
- The `[SerializeField]` and `[System.Serializable]` attributes and Unity's serialization lifecycle are not modelled. The fields are plain state.
- Null values, weights or labels arrays are not modelled. Unity serializes these arrays as empty, never null, so the model gives them non-null arrays. The previous weights are not serialized and are a nullable array, as in the source.
- The label text is not modelled. The integer-to-string concatenation is the numeric pair `Range(first, last)`.
- C#'s 32-bit overflow is not modelled; integers are unbounded. Weights come from 0..100 sliders and the length is clamped to 100, so every sum fits.
- `default(T)` cannot be named for a type parameter in Dafny. It is the constructor argument `blank`, which the resize of the values uses.
- WeightedArrays.WeightedArray.Validate: on the auto-balance path it states only the prefix of the previous weights that the weights cover. Beyond that prefix the source leaves the slots as they were, and so does `SetPreviousValues`.

## Findings

| source | as written | input that shows it | evidently intended | confidence | as-written member | corrected member |
|---|---|---|---|---|---|---|
| Runtime/WeightedArray.cs:96-128 | when no slot was raised, `_changedIndex` stays 0. Slot 0's weight is already in `_weightSum` and is added a second time (lines 114, 124, 128), so a surplus that does not exist is taken away | previous = weights = [2, 98], which gives [1, 97]. The same happens after lengthening [2, 98] to 3 slots, because SetLength copies the weights into the previous ones first: [1, 97, 0] | the changed slot's weight counts only when some slot was really raised; an unedited, consistent weight set is left alone | not executed; high | `Rebalancing.UnraisedWeightsLoseWeight` | `Rebalancing.IntendedKeepsUnraised` |

`Rebalancing.RebalancedIntended` is the corrected rule. It counts the changed slot only when
some slot was raised. `Rebalancing.IntendedAgreesWhenRaised` proves that it agrees with the
source whenever a slider was raised. `Rebalancing.IntendedKeepsUnraised` proves that it leaves
unraised, consistent weights exactly as they are. The class itself keeps the source's
behaviour (`WeightedArrays.LengtheningLosesWeight` shows it through `SetLength` and
`RebalanceWeights`), because it models the code as written.
