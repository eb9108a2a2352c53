# RandomGen: a verified model of a discrete weighted sampler

`RandomGen` draws numbers according to configured probabilities.
`init_generator(gen)` takes a dict that maps outcomes to probabilities.
It flattens the dict into a list of outcomes (`_random_nums`) and a list of probabilities (`_probabilities`), both in insertion order.
It then runs three checks in a fixed order:

1. every outcome and probability is a number;
2. every probability lies in [0, 1];
3. the probabilities sum to 1 within `math.isclose`'s tolerance.

Each failed check raises a `ValueError`.
Only when all three pass does it store the running sums (`_acc_prob`).
`next_num()` draws `u = random.random()` and returns the first outcome whose running sum is strictly greater than `u`.

The model has four modules:

- `Cumulative` (`cumulative.dfy`) covers the left-to-right `Sum`, the running totals `Accumulate` built the way `itertools.accumulate` builds them, and the interval `[Lo(acc, i), acc[i])` owned by each outcome. Its lemmas prove that the table is monotone, that each interval's width equals its probability, and that "first entry above u" means the same as "u falls in the interval".
- `RandomGen` (`randomgen.dfy`) covers the sampler. The class attributes become an explicit `State` value. `Init` models `init_generator` and returns the new state together with `Ok` or the raised error. `NextNum` models `next_num`, with the draw passed in as a parameter. Its results are `Drawn(index, value)`, `NoValue` (the loop falls through and returns `None`) and `IndexError` (`_acc_prob` is shorter than `_random_nums`).
- `Findings` (`findings.dfy`) holds the two discrepancies listed below. For each one, it has the as-written behaviour on a concrete input and a corrected definition with its property proved.
- `Scenarios` (`scenarios.dfy`) proves the model's verdict on the mappings at tests/test_randomgen.py lines 25, 28 and 41-44.

Probabilities and draws are exact `real`s. A Python value is `Num(x)` when it is a `numbers.Number` and `NonNum` otherwise. The dict is a sequence of (outcome, probability) pairs in insertion order. `None` means no dict was given.

Three facts about the code shape the model:

- `init_generator` calls `math.isclose(sum, 1.0, abs_tol=sys.float_info.epsilon)` and keeps `math.isclose`'s default relative tolerance of 1e-9. The accepted sums are therefore those within about 1e-9 of 1, not only those within 2^-52. `RandomGen.IsClose` implements CPython's definition with both constants.
- The empty dict (and `None`) is rejected by the sum check, because the empty sum 0 is not close to 1.
- A raising `init_generator` has already replaced the outcome and probability lists. Only the cumulative table keeps its old value. This is the first finding.

## Model

| member | source | states |
|---|---|---|
| Cumulative.RunningTotals | randomgen/randomgen.py:53 | Running totals from a start value have one entry per probability. Entry k is the start value plus the sum of the first k + 1 probabilities. |
| Cumulative.Accumulate | randomgen/randomgen.py:52-53 | The cumulative table is as long as the probability list. Entry k equals the sum of `p[0..k]`, and the last entry equals the whole sum. |
| Cumulative.SumCons | randomgen/randomgen.py:47-48 | Putting a probability in front of a list adds it to the list's sum. |
| Cumulative.SumNonNegative | randomgen/randomgen.py:45-48 | Probabilities that passed the range check have a non-negative sum. |
| Cumulative.AccumulateStep | randomgen/randomgen.py:53 | Consecutive cumulative entries differ by exactly the probability between them. |
| Cumulative.AccumulateMonotone | randomgen/randomgen.py:45-53 | With non-negative probabilities, the cumulative table is non-decreasing. |
| Cumulative.IntervalWidth | randomgen/randomgen.py:69-72 | The interval `[acc[i-1], acc[i])` of outcome i has width `p[i]`. For i = 0 the interval is `[0, acc[0])`. |
| Cumulative.FirstAboveIffInInterval | randomgen/randomgen.py:67-73 | With non-negative probabilities and u >= 0, index k is the first whose entry exceeds u exactly when u lies in k's interval. Both directions are proved. |
| Cumulative.FirstAboveHasPositiveWidth | randomgen/randomgen.py:67-73 | A draw u >= 0 never stops at an outcome of probability 0, because that outcome's interval is empty. |
| Cumulative.FirstExists | randomgen/randomgen.py:67-73 | If some entry up to n exceeds u, then the first such index exists and is at most n. |
| RandomGen.CloseToOneBounds | randomgen/randomgen.py:47-50 | A sum accepted as close to 1 is at least 1 - 1e-9, so it is positive. |
| RandomGen.ZeroNotCloseToOne | randomgen/randomgen.py:47-50 | The empty sum 0 is not close to 1. |
| RandomGen.Init | randomgen/randomgen.py:21-53 | `None` is the empty dict, and both fail the sum check. The lists always take the dict's entries in insertion order, even when a check raises. A non-numeric entry raises the non-numeric error no matter what the other entries are. Otherwise a probability outside [0, 1] raises the range error. Otherwise a sum not close to 1 raises the sum error. The call succeeds exactly when all three checks pass. A raising call leaves the cumulative table unchanged. A succeeding call stores `acc[k] = sum(p[0..k])`. |
| RandomGen.InitOkAccepted | randomgen/randomgen.py:33-53 | After a succeeding call, the state holds the mapping's outcomes in order. The probabilities are numeric, lie in [0, 1] and sum close to 1, and the table holds their running sums. |
| RandomGen.AcceptedTable | randomgen/randomgen.py:45-53 | The cumulative table of an accepted configuration has one entry per outcome and is non-decreasing. Its last entry is close to 1. |
| RandomGen.AcceptedNonEmpty | randomgen/randomgen.py:47-50 | An accepted configuration has at least one outcome, and its table is as long as its outcome list. |
| RandomGen.Scan | randomgen/randomgen.py:67-73 | The loop from index i returns the outcome at the first index whose entry exceeds u. It returns `None` exactly when no entry for an outcome exceeds u. It raises `IndexError` exactly when the table is shorter than the outcome list and no entry in the table exceeds u. |
| RandomGen.NextNum | randomgen/randomgen.py:55-73 | `next_num` returns an outcome exactly when some index is the first to exceed u. That outcome is the one at this index. The `None` and `IndexError` cases are described as for `Scan`. |
| RandomGen.NextNumIffFirstAbove | randomgen/randomgen.py:67-73 | Outcome k is returned exactly when `u < acc[k]` and `acc[j] <= u` for every j < k. |
| RandomGen.NextNumInInterval | randomgen/randomgen.py:67-73 | On an accepted configuration, outcome k is returned exactly when u lies in `[acc[k-1], acc[k])`. That interval's width is k's probability. |
| RandomGen.NextNumNeverZeroProbability | randomgen/randomgen.py:67-73 | On an accepted configuration, `next_num` never returns an outcome with probability 0. |
| RandomGen.NextNumInSupport | randomgen/randomgen.py:65-73 | On an accepted configuration with `0 <= u < acc[last]`, `next_num` returns a configured outcome, and that outcome has positive probability. |
| RandomGen.NextNumTotalBelowTolerance | randomgen/randomgen.py:47-73 | On an accepted configuration, every draw below 1 - 1e-9 returns an outcome. |
| Findings.ConsistentNeverIndexError | randomgen/randomgen.py:67-73 | If the sampler is unconfigured or holds an accepted configuration, `next_num` never indexes past the cumulative table. |
| Findings.RejectedInitLeavesStaleTable | randomgen/randomgen.py:33-53 | As written: right after start-up, `{5: 2.0}` raises the range error but stays in the outcome list. The sampler is then no longer consistent, and `next_num` raises `IndexError`. |
| Findings.CertainOutcomeConfigured | tests/test_randomgen.py:26 | From start-up, `{-1: 1.0}` is accepted and stores the table `[1.0]`. |
| Findings.RejectedInitSuppliesDraws | randomgen/randomgen.py:33-53 | As written: after `{-1: 1.0}` is accepted, `{5: 0.5, 6: 0.6}` raises the sum error. Even so, `next_num` with u = 0.2 returns 5, which is not an outcome of the accepted configuration. |
| Findings.InitAtomic | randomgen/randomgen.py:31-53 | Corrected: the call gives the same verdict as `init_generator`. A raising call leaves the whole state unchanged, and a succeeding call stores exactly the state `init_generator` stores. The call keeps the sampler unconfigured or accepted. |
| Findings.InitAtomicSequenceConsistent | randomgen/randomgen.py:21-53 | Corrected: any sequence of calls, failed or not, keeps the sampler unconfigured or accepted. |
| Findings.AcceptedShortSumFallsThrough | randomgen/randomgen.py:47-73 | As written: `{1: 0.9999999999}` is accepted, yet `next_num` with u = 0.99999999995 falls through and returns `None`. |
| Findings.ScaledScanDraws | randomgen/randomgen.py:60-73 | Corrected: on an accepted configuration, the scan for the draw scaled by the total stops at the first index whose cumulative entry exceeds it, and that index has positive probability. |
| Findings.NextNumScaled | randomgen/randomgen.py:55-73 | Corrected: the draw is scaled by the total weight, as `random.choices` does. On an accepted configuration, every u in [0, 1) then returns the first outcome whose cumulative entry exceeds `u * total`, and that outcome has positive probability. |
| Findings.NextNumScaledAgreesOnExactTotal | randomgen/randomgen.py:60-73 | Corrected: when the cumulative table ends at exactly 1, the scaled draw returns the same result as `next_num` for every u. |
| Scenarios.SumTooLargeRejected | tests/test_randomgen.py:41 | A mapping whose probabilities sum to 1.09 raises the sum error. |
| Scenarios.NegativeProbabilityRejected | tests/test_randomgen.py:42 | A mapping with a probability of -0.1 raises the range error. |
| Scenarios.NonNumericRejected | tests/test_randomgen.py:43-44 | The two five-entry mappings, one with the string probability `"0.58"` and one with the string outcome `"3"`, raise the non-numeric error before the range and sum checks run. |
| Scenarios.FiveOutcomesAccepted | tests/test_randomgen.py:25 | `{-1: 0.01, 0: 0.3, 1: 0.58, 2: 0.1, 3: 0.01}` is accepted. |
| Scenarios.CertainOutcomeAlwaysDrawn | tests/test_randomgen.py:28 | `{-1: 1.0, 1: 0.0, 2: 0}` is accepted, and every draw in [0, 1) returns -1. |

## Findings

| source | as written | input that shows it | evidently intended | confidence | as-written member | corrected member |
|---|---|---|---|---|---|---|
| randomgen/randomgen.py:33-53 | The outcome and probability lists are replaced before the checks run. The cumulative table is replaced only after they pass. | `{-1: 1.0}` is accepted, then `{5: 0.5, 6: 0.6}` raises. After that, `next_num` with u = 0.2 returns 5. Also, from start-up, `{5: 2.0}` raises and `next_num` then indexes an empty table (`Findings.RejectedInitLeavesStaleTable`). | A mapping that `init_generator` rejects with a `ValueError` supplies no later draws: `next_num` keeps drawing from the last accepted mapping, whose lists and table stay aligned as line 53 builds them. | medium, not executed | Findings.RejectedInitSuppliesDraws | Findings.InitAtomic |
| randomgen/randomgen.py:47-73 | Sums up to about 1e-9 below 1 are accepted, and the scan compares the unscaled draw with the table. | After `{1: 0.9999999999}` is accepted, `next_num` with u = 0.99999999995 returns `None`. | `next_num` always returns an outcome. Its docstring says it is equivalent to `random.choices`, which scales the draw by the total. | high, not executed | Findings.AcceptedShortSumFallsThrough | Findings.NextNumScaled |

## Left out

- `random.random()` is not modelled. The draw is the parameter `u`, and its range [0, 1) becomes a precondition of `NextNum`.
- Floating-point arithmetic is not modelled. Sums are exact reals, and NaN, infinities and rounding in `sum` and `accumulate` are not covered. `math.isclose` is modelled only for finite values.
- Python's numeric types are reduced to `Num`/`NonNum`. `bool` counts as a number there too. Mixed types that fail later, such as a `complex` probability (fails the comparison) or a `Decimal` added to a `float` (fails in `sum`), are not modelled.
- Duplicate dict keys, and Python treating `1` and `1.0` as the same key, are not modelled. Outcomes are a sequence in insertion order, and no property depends on their being distinct.
- The class-level sharing of state between `RandomGen` instances is not modelled, and neither are races between threads. The state is passed explicitly.
- The statistical convergence test and the long-run frequency claim are not modelled, because they are probabilistic. The interval-width lemmas are the provable stand-in. The version test is not modelled either.
- RandomGen.NextNumInSupport: covers only draws below the last cumulative entry, not every draw in [0, 1). The source does not keep the stronger promise; see the second finding.
