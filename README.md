# RandomGen: a weighted random generator, modelled in Dafny

`RandomGen` holds an array of integer outcomes (`randomNums`) and a parallel
array of probabilities. Construction checks, in a fixed order and stopping at
the first failure, that both arrays are present and equally long, that every
probability lies in [0, 1] (no probability below 0 or above 1), and that the
probabilities sum to 1; a failed check
raises an `IllegalArgumentException` whose message names the cause. A draw
(`nextNum`) draws a uniform value `u` in [0, 1) from its `Random`, walks the probabilities keeping
a running sum, and returns the outcome at the first index whose running sum
exceeds `u`; if no index qualifies it returns the last outcome.

The model is one module, `Solution` (`random_gen.dfy`):

- `RandomGen` is a class whose two `const` array fields are the arrays handed
  to it (the Java class stores the caller's arrays, not copies).
- `RandomGen.Create` is the Java constructor: it runs `ValidateInputs`, a
  loop that accumulates the running sum and stops at the first out-of-range
  probability, and either returns `Err` with one of the three
  `ValidationError` causes or stores the arrays through the Dafny constructor.
- `RandomGen.NextNum(u)` is the draw, with the uniform value as a parameter.
  It is proved against `Select`, a pure function defined by the
  "first running sum exceeding `u`, else the last index" rule, and
  `PrefixSum` states what the loop's running sum is.
- The lemmas show what that rule means for an accepted probability list. The
  draws in [0, 1) that select index `k` are exactly those in
  [PrefixSum(p, k), PrefixSum(p, k + 1)), an interval of length `p[k]`. For
  such a list the fallback is never needed. A zero-probability outcome is
  never selected, and an outcome of probability 1 always is. Selection is
  monotone in `u`.

A second module, `Client` (`client_scenarios.dfy`), is a caller that derives,
from the definitions and contracts of `Solution`, the outcomes of the scenarios in RandomGenTest.java:
one valid construction, the null, length, range and sum errors with their exact
messages, the single outcome 42 with probability 1, and the bounds of a draw from
the five-outcome distribution. Two scenarios are added beyond those tests: two
empty arrays, and the draw 0.5 on the five-outcome distribution.

## Model

| member | source | states |
|---|---|---|
| Solution.MessagesDistinct | src/main/java/com/mah/task/solution/RandomGen.java:49-65 | the three causes carry different messages, so a caller can tell them apart by text |
| Solution.RandomGen.ValidateInputs | src/main/java/com/mah/task/solution/RandomGen.java:49-65 | a null array or a length mismatch gives the length error before anything else; with equal lengths any probability below 0 or above 1 gives the range error, never the sum error; all in range but a sum other than 1 gives the sum error; otherwise no error, and then the arrays are non-empty |
| Solution.RandomGen.Create | src/main/java/com/mah/task/solution/RandomGen.java:23-28 | construction fails with exactly the first violated check's error, and on success yields a fresh instance whose fields are the given arrays themselves, of equal non-zero length |
| Solution.RandomGen.constructor | src/main/java/com/mah/task/solution/RandomGen.java:25-27 | called only on validated arrays (equal lengths, an accepted probability list), it stores the arrays passed in and the instance invariant (equal, non-zero lengths) holds |
| Solution.RandomGen.NextNum | src/main/java/com/mah/task/solution/RandomGen.java:35-47 | the draw for `u` returns the outcome at the index `Select` picks for the current probabilities, so always an element of `randomNums`; it changes no state |
| Solution.Select | src/main/java/com/mah/task/solution/RandomGen.java:37-46 | the selected index is in range, no running sum up to it is above `u`, and its own running sum exceeds `u` unless it is the last index: the first-exceeding rule with last-element fallback |
| Solution.SelectFrom | src/main/java/com/mah/task/solution/RandomGen.java:39-44 | resuming the scan at index i after earlier running sums did not exceed `u` finds an index at or after i with the same first-exceeding property |
| Solution.SelectUnique | src/main/java/com/mah/task/solution/RandomGen.java:39-46 | the first-exceeding rule determines a single index: any index with that property is the one `Select` returns |
| Solution.SelectFallback | src/main/java/com/mah/task/solution/RandomGen.java:46 | when no running sum exceeds `u`, the last index is selected |
| Solution.DistributionNonEmpty | src/main/java/com/mah/task/solution/RandomGen.java:54-64 | an accepted probability list is never empty, since the empty sum is 0 |
| Solution.PrefixSumMonotone | src/main/java/com/mah/task/solution/RandomGen.java:39-43 | with non-negative probabilities the running sum never decreases |
| Solution.PrefixSumBounds | src/main/java/com/mah/task/solution/RandomGen.java:54-62 | for an accepted list every running sum lies in [0, 1] |
| Solution.PairBelowPrefixSum | src/main/java/com/mah/task/solution/RandomGen.java:54-62 | two distinct non-negative probabilities together are at most a running sum that covers both |
| Solution.SelectedIntervalContainsDraw | src/main/java/com/mah/task/solution/RandomGen.java:36-46 | for an accepted list and `u` in [0,1) the running sums before and after the selected index bracket `u`, so the fallback is never needed, and the selected outcome has positive probability |
| Solution.SelectIffInInterval | src/main/java/com/mah/task/solution/RandomGen.java:36-46 | for an accepted list and `u` in [0,1), index k is selected if and only if `u` is in [PrefixSum(k), PrefixSum(k+1)), an interval whose length is the k-th probability |
| Solution.SelectMonotone | src/main/java/com/mah/task/solution/RandomGen.java:39-43 | for u1 <= u2 the index selected for u1 is at most the index selected for u2 |
| Solution.CertainOutcome | src/test/java/com/mah/task/solution/RandomGenTest.java:53-92 | in an accepted list, an outcome with probability 1 is selected by every draw in [0,1) |

## Left out

- The `Random` field and `nextFloat()`: the uniform value is the parameter `u` of `NextNum`. The lemmas assume it lies in [0, 1), as `nextFloat()` guarantees. Advancing the generator's state is not modelled, so `NextNum` changes nothing.
- Solution.RandomGen.NextNum: does not require `u` in [0, 1); its contract holds for any `u` and for any contents of the arrays.
- IEEE-754 `float` arithmetic: probabilities, running sums and the sum check are exact reals. The Java class's `!=` test on a float sum can reject a split whose exact sum is 1, or accept one whose exact sum is not 1. The model's check is the exact one. For a draw in [0, 1) an accepted list never reaches the last-element fallback at line 46 (`SelectedIntervalContainsDraw`); in the Java class it is reached only after the caller changes the shared probability array. `SelectFallback` states what the fallback returns when it is reached.
- The exceptions themselves: a failed construction is an `Err` value of `Create`. The message text is given by `Message`; `String.format` is not modelled beyond prefix concatenation.
- Aliasing: the instance keeps references to the caller's arrays, as the Java class does, so a caller may still change their contents after construction. `Valid()` therefore promises only the lengths, which cannot change. The distribution lemmas apply while the contents still form an accepted list.
- The statistical test over 1,000,000 draws is not modelled. Its exact-arithmetic counterpart is `SelectIffInInterval`: the set of draws that return outcome k has measure equal to its probability.
- NaN: a NaN probability passes the range check at line 56 (both comparisons are false) and is then reported as the sum error at line 62, because the sum becomes NaN. Reals have no NaN, so the model has no such input.
