# visualhasher allocation engine in Dafny

This project models the allocation engine of visualhasher, a Java program. The engine throws balls into boxes and shows how full the boxes get. The repository holds two generations of the engine, and both are modelled.

- The first generation (`domain`) has `ChainingHashFunctionWorker`, `LinearOpenAddressingHashFunctionWorker` and `QuadraticOpenAddressingHashFunctionWorker` over `AbstractHashFunctionWorker`. Its results are `HashFunctionResult` records. Its boxes are `ComputedBox` and the view's `Box`.
- The second generation (`domain/logics`) has `DoubleChoiceHashFunctionWorker` and a second `QuadraticOpenAddressingHashFunctionWorker`. They work on the `AbstractBox` hierarchy: `ComputationBox` and `ColoredUniqueBallBox`. They publish `HashFunctionIntermediaryResult` chunks.
- Both generations share the bounds: `NumberOfBoxes`, `DrawsRange`, `Range`, `CommonIntegerRange` and `BoxesRange`. They also share the exceptions that describe a value against an interval.
- The view boxes `CommonBaseBox` and `OpenAddessingBox` are modelled too.

Every `doInBackground` is a method over a row of box objects. Two inputs stand in for what the Java code asks its environment:

- **Drawn indexes.** The indexes that `compute()` would draw come in a sequence `rand`, each entry a box index. The first-generation quadratic worker takes `starts`, three starts per draw.
- **Cancellation.** `isCancelled()` is the oracle `Cancellation`. Its calls are counted from 0 in the order the worker makes them. It answers true from the call at which the cancellation arrived onwards, because a cancelled `SwingWorker` stays cancelled.

Each worker is proved against a pure function of these inputs. The functions are:

- `Tally` for chaining;
- `DoubleChoiceCounts` for double choice;
- `LinearCounts` and `LinearColors` for linear probing;
- `QuadraticRun` for quadratic probing.

Properties proved about these functions include the following.

- **Ball counts.** Chaining and double choice put exactly one ball per draw. Open addressing fills exactly one empty box per draw.
- **No full circle.** A linear probe never comes back to its first box.
- **Quadratic probing can give up.** It can fail while boxes are still empty.
- **Most-filled tracker.** The tracker each worker keeps always names the largest count and exactly the boxes holding it.
- **Progress.** The reported values are non-decreasing and end at 100.
- **Summary text.** It is the sorted list of most-filled boxes, and it is never blank.

Java `int` arithmetic is written out where it matters:

- `Math.addExact` and `Math.incrementExact` throw past `MAX_INT`;
- `ComputedBox`'s `++` and `--` wrap;
- `Range.hashCode` wraps.

Exceptions become `Result`/`Outcome` values. They carry the exception class, its message and its cause.

Where the code differs from what its names and documentation suggest, the model follows the code:

- The second-generation class is named `QuadraticOpenAddressingHashFunctionWorker`, but it probes linearly, one box at a time.
- The first-generation quadratic worker records whether a ball landed in the very first box drawn. It does this with `ComputedBox.setFirstBox`, not with a colour.
- The first-generation linear worker passes a colour to `Box.incrementBalls(color)`, which ignores it.
- The first generation draws with `Math.round(Math.random() * (boxes - 1))`, which is not uniform (see Findings).
- The summary heading is "Most filled boxes (" in the first generation and "Most filled box (" in the second.

## Model

| member | source | states |
|---|---|---|
| Allocation.Tally | src/main/java/com/adavid/visualhasher/domain/ChainingHashFunctionWorker.java:84-91 | The chaining counts after draws `ds` form a row of `n` boxes. |
| Allocation.TallyCounts | src/main/java/com/adavid/visualhasher/domain/ChainingHashFunctionWorker.java:84-91 | Box `k` holds exactly as many balls as `k` was drawn. |
| Allocation.TallySum | src/main/java/com/adavid/visualhasher/domain/ChainingHashFunctionWorker.java:84-91 | Chaining neither loses nor duplicates a ball: the counts add up to the number of draws, and no box holds more. |
| Allocation.Choose | src/main/java/com/adavid/visualhasher/domain/logics/DoubleChoiceHashFunctionWorker.java:125-130 | The chosen box is one of the two drawn boxes and holds the smaller count. The first box wins whenever its count is not larger, so a tie goes to the first draw. |
| Allocation.DoubleChoiceSlot | src/main/java/com/adavid/visualhasher/domain/logics/DoubleChoiceHashFunctionWorker.java:121-132 | Draw `j` puts its ball into one of its two drawn boxes: the one that held fewer balls at that moment, the first on a tie. |
| Allocation.DoubleChoiceSum | src/main/java/com/adavid/visualhasher/domain/logics/DoubleChoiceHashFunctionWorker.java:121-132 | Every double-choice draw adds exactly one ball: after `k` draws the counts add up to `k` and each lies in [0, k]. |
| Allocation.DoubleChoiceOfEqualPairs | src/main/java/com/adavid/visualhasher/domain/logics/DoubleChoiceHashFunctionWorker.java:125-130 | When both indexes of every draw agree, double choice gives exactly the chaining counts. |
| Allocation.DoubleChoiceCounts | src/main/java/com/adavid/visualhasher/domain/logics/DoubleChoiceHashFunctionWorker.java:121-132 | The double-choice counts form a row of `n` boxes. `DoubleChoiceSlot` and `DoubleChoiceSum` state what each draw does to them. |
| Allocation.LinearCounts | src/main/java/com/adavid/visualhasher/domain/LinearOpenAddressingHashFunctionWorker.java:87-113 | The linear-probing counts form a row of `n` boxes. `LinearCountsFill` states how they fill. |
| Allocation.LinearColors | src/main/java/com/adavid/visualhasher/domain/logics/QuadraticOpenAddressingHashFunctionWorker.java:195-218 | There is one colour per box. `RedBoxesAreFilled` relates the colours to the counts. |
| Allocation.QuadIndex | src/main/java/com/adavid/visualhasher/domain/QuadraticOpenAddressingHashFunctionWorker.java:111-113 | The box a quadratic probe looks at always lies in the row. |
| Allocation.QuadraticRun | src/main/java/com/adavid/visualhasher/domain/QuadraticOpenAddressingHashFunctionWorker.java:94-128 | A running quadratic run keeps one count and one flag per box. `QuadraticRunFill` states how it fills. |
| Allocation.LinearSlot | src/main/java/com/adavid/visualhasher/domain/LinearOpenAddressingHashFunctionWorker.java:92-106 | The linear probe ends at an empty box, or reports -1. |
| Allocation.LinearSlotSpec | src/main/java/com/adavid/visualhasher/domain/LinearOpenAddressingHashFunctionWorker.java:95-106 | The probe finds nothing exactly when every box from step `d` on is full. Otherwise it stops at the first empty box of the wrap-around walk. |
| Allocation.LinearSlotFound | src/main/java/com/adavid/visualhasher/domain/LinearOpenAddressingHashFunctionWorker.java:95-106 | While some box is empty, the probe from any first box finds one. |
| Allocation.NoFullCircle | src/main/java/com/adavid/visualhasher/domain/LinearOpenAddressingHashFunctionWorker.java:100-105 | A probe that has passed only full boxes is not back at its first box while a box is empty, so `AlreadyMadeLoopException` cannot be thrown. |
| Allocation.LinearCountsFill | src/main/java/com/adavid/visualhasher/domain/LinearOpenAddressingHashFunctionWorker.java:87-113 | After `k` of at most `n` linear-probing draws, every box holds 0 or 1 ball and exactly `k` boxes are filled. |
| Allocation.FilledStays | src/main/java/com/adavid/visualhasher/domain/LinearOpenAddressingHashFunctionWorker.java:95-113 | A box that a draw puts a ball in holds exactly one ball after every later draw, because a probe only stops at an empty box. |
| Allocation.RedBoxesAreFilled | src/main/java/com/adavid/visualhasher/domain/logics/QuadraticOpenAddressingHashFunctionWorker.java:195-219 | A box is RED exactly when some earlier draw found its drawn box full and moved its ball on into it. A RED box holds exactly one ball. |
| Allocation.QuadSearch | src/main/java/com/adavid/visualhasher/domain/QuadraticOpenAddressingHashFunctionWorker.java:107-114 | The search stops at a step between its start and MAX_TRY + 1. A step up to MAX_TRY finds an empty box, and every earlier step looked at a full one. |
| Allocation.QuadAttempt | src/main/java/com/adavid/visualhasher/domain/QuadraticOpenAddressingHashFunctionWorker.java:102-128 | A draw places its ball in an empty box, or gives up reporting exactly the starts it tried. |
| Allocation.PlacedFrom | src/main/java/com/adavid/visualhasher/domain/QuadraticOpenAddressingHashFunctionWorker.java:102-125 | The ball goes where the first successful start's search stops. `original` is set only for the first start at step 0. |
| Allocation.ExhaustedAll | src/main/java/com/adavid/visualhasher/domain/QuadraticOpenAddressingHashFunctionWorker.java:102-147 | When every start's search fails, the draw gives up with all three starts. |
| Allocation.QuadDraw | src/main/java/com/adavid/visualhasher/domain/QuadraticOpenAddressingHashFunctionWorker.java:94-128 | A draw keeps the row's size while the run goes on, and a run that gave up never resumes. |
| Allocation.GaveUpIsFinal | src/main/java/com/adavid/visualhasher/domain/QuadraticOpenAddressingHashFunctionWorker.java:134-147 | Once a draw gives up, the run stays given up with that draw's starts. |
| Allocation.QuadraticRunFill | src/main/java/com/adavid/visualhasher/domain/QuadraticOpenAddressingHashFunctionWorker.java:94-128 | While the run goes on, after `k` draws every box holds 0 or 1 ball, `k` boxes are filled, and a box marked original is filled. |
| Allocation.QuadraticRunCanGiveUp | src/main/java/com/adavid/visualhasher/domain/QuadraticOpenAddressingHashFunctionWorker.java:120-147 | Unlike linear probing, quadratic probing can give up while boxes are still empty. With four boxes, a probe from box 0 reaches only boxes 0 and 1. |
| Bounds.NewNumberOfBoxes | src/main/java/com/adavid/visualhasher/domain/utility/NumberOfBoxes.java:40-47 | A box count is accepted exactly when it is at least 2 and is given back unchanged. Otherwise the error names the value. |
| Bounds.NewDrawsRange | src/main/java/com/adavid/visualhasher/domain/utility/DrawsRange.java:25-28 | The draw range runs from `boxes / 2` to `boxes`, with 1 <= min <= max, and contains exactly the values between. |
| Bounds.DrawsRangeDeterminedByBoxes | src/main/java/com/adavid/visualhasher/domain/utility/DrawsRange.java:45-57 | Two draw ranges are equal exactly when their box counts are. Both ends are inside and their neighbours outside. |
| Bounds.DrawsRangeToStringNamesBounds | src/main/java/com/adavid/visualhasher/domain/utility/DrawsRange.java:64-66 | Two draw ranges print alike exactly when their intervals are equal. |
| Bounds.NewBoxesRange | src/main/java/com/adavid/visualhasher/domain/utility/BoxesRange.java:40-42 | A `BoxesRange` contains exactly the values from 2 to the box count. |
| BoundsMessages.NewValueInBounds | src/main/java/com/adavid/visualhasher/domain/exceptions/ValueInBoundsException.java:38-51 | The in-bounds exception is built exactly for a value inside the interval. For a value outside, building it throws the out-of-bounds exception instead. |
| BoundsMessages.NewValueOutOfBounds | src/main/java/com/adavid/visualhasher/domain/exceptions/ValueOutOfBoundsException.java:38-51 | The out-of-bounds exception is built exactly for a value outside the interval. For a value inside, building it throws the in-bounds exception. |
| BoundsMessages.InOutMirror | src/main/java/com/adavid/visualhasher/domain/exceptions/ValueInBoundsException.java:42-51 | For every value exactly one of the two constructors succeeds, and the other throws what it builds. |
| BoundsMessages.NewDrawsOutOfBounds | src/main/java/com/adavid/visualhasher/domain/exceptions/DrawsOutOfBoundsException.java:63-76 | The draws exception is built exactly for a count outside the draw range. A count inside throws `ValueInBoundsException`. |
| BoundsMessages.DrawsTextNamesValue | src/main/java/com/adavid/visualhasher/domain/exceptions/DrawsOutOfBoundsException.java:67-76 | The rejected draw count can be parsed back out of the message. |
| BoxRows.NewRow | src/main/java/com/adavid/visualhasher/domain/ChainingHashFunctionWorker.java:72-78 | The row holds `n` fresh, empty view boxes. |
| BoxRows.IncrementAt | src/main/java/com/adavid/visualhasher/domain/ChainingHashFunctionWorker.java:91 | The incremented box gains exactly one ball, and no other box of the row changes. |
| BoxRows.NewComputedRow | src/main/java/com/adavid/visualhasher/domain/QuadraticOpenAddressingHashFunctionWorker.java:77-83 | The row holds `n` fresh computed boxes, box `i` having id `i`. All are empty, coloured and not original. |
| BoxRows.PlaceAt | src/main/java/com/adavid/visualhasher/domain/QuadraticOpenAddressingHashFunctionWorker.java:120-122 | The chosen box gains one ball and records `original`, and no other box changes. |
| BoxRows.NewBoxRow | src/main/java/com/adavid/visualhasher/domain/logics/DoubleChoiceHashFunctionWorker.java:95-100 | The row holds `n` fresh empty boxes of one kind, box `i` having id `i`. Unique-ball boxes are GREEN. |
| ChainingWorker.Draw | src/main/java/com/adavid/visualhasher/domain/ChainingHashFunctionWorker.java:84-103 | After draw `i` the counts are the chaining tally of the first `i + 1` indexes, and the tracker still describes them. |
| ChainingWorker.DrawAll | src/main/java/com/adavid/visualhasher/domain/ChainingHashFunctionWorker.java:82-103 | The loop stops at the first poll that answers true. The counts are the tally of the draws made, and progress holds 0 then one value per draw. |
| ChainingWorker.DoInBackground | src/main/java/com/adavid/visualhasher/domain/ChainingHashFunctionWorker.java:69-124 | The run never fails, and it completes exactly when the poll after the loop is not cancelled. A cancelled run has reported progress up to that poll. A completed run holds the tally of all draws and reports 0..98, 99, 100. Its information lists the largest count and exactly the boxes holding it. |
| ComputedBoxes.ComputedBox.constructor | src/main/java/com/adavid/visualhasher/domain/ComputedBox.java:44-50 | The box holds the given id, count and flags, unchecked. |
| ComputedBoxes.ComputedBox.SetFirstBox | src/main/java/com/adavid/visualhasher/domain/ComputedBox.java:78-80 | Only the `original` flag changes. |
| ComputedBoxes.ComputedBox.SetBalls | src/main/java/com/adavid/visualhasher/domain/ComputedBox.java:88-90 | Any count is stored, negative ones included. |
| ComputedBoxes.ComputedBox.Clear | src/main/java/com/adavid/visualhasher/domain/ComputedBox.java:93-95 | The count becomes 0, and the flag is kept. |
| ComputedBoxes.ComputedBox.IncrementsBalls | src/main/java/com/adavid/visualhasher/domain/ComputedBox.java:98-100 | One more ball, except that MAX_INT wraps to MIN_INT. |
| ComputedBoxes.ComputedBox.DecrementBalls | src/main/java/com/adavid/visualhasher/domain/ComputedBox.java:103-105 | One ball fewer, with no lower bound: MIN_INT wraps to MAX_INT. |
| ComputedBoxes.ComputedBoxToStringNamesFields | src/main/java/com/adavid/visualhasher/domain/ComputedBox.java:113-115 | Two computed boxes print alike exactly when they agree on colour flag, id, `original` flag and count. |
| DomainObjects.IncrementAlwaysRejected | src/main/java/com/adavid/visualhasher/domain/objects/ColoredUniqueBallBox.java:128-136 | As written, the increment guard rejects every count a unique-ball box can hold. The documented guard rejects only the full box. |
| DomainObjects.AbstractBox.constructor | src/main/java/com/adavid/visualhasher/domain/objects/AbstractBox.java:36-51 | A box built from a valid id and count holds them, with maximum 0. |
| DomainObjects.AbstractBox.NewComputationBox | src/main/java/com/adavid/visualhasher/domain/objects/AbstractBox.java:36-51 | Creation succeeds exactly for a non-negative id and count. The id is checked first, and each failure carries its own message. |
| DomainObjects.AbstractBox.NewEmptyComputationBox | src/main/java/com/adavid/visualhasher/domain/objects/ComputationBox.java:37-39 | Creation succeeds exactly for a non-negative id and gives an empty box. |
| DomainObjects.AbstractBox.NewColoredUniqueBallBox | src/main/java/com/adavid/visualhasher/domain/objects/ColoredUniqueBallBox.java:66-75 | Creation succeeds exactly for a non-negative id and a count of 0 or 1. A negative count is rejected by the base check before the check for too many balls. |
| DomainObjects.AbstractBox.NewEmptyColoredUniqueBallBox | src/main/java/com/adavid/visualhasher/domain/objects/ColoredUniqueBallBox.java:48-50 | Creation succeeds exactly for a non-negative id and gives an empty GREEN box. |
| DomainObjects.AbstractBox.SetBallsBase | src/main/java/com/adavid/visualhasher/domain/objects/AbstractBox.java:81-87 | A negative count is rejected and changes nothing. Any other count is stored. |
| DomainObjects.AbstractBox.IncrementsBallsBase | src/main/java/com/adavid/visualhasher/domain/objects/AbstractBox.java:94-96 | One more ball, or an `ArithmeticException` at MAX_INT with the box unchanged. |
| DomainObjects.AbstractBox.DecrementBalls | src/main/java/com/adavid/visualhasher/domain/objects/AbstractBox.java:99-103 | One ball fewer, never below zero. |
| DomainObjects.AbstractBox.ResetBalls | src/main/java/com/adavid/visualhasher/domain/objects/AbstractBox.java:106-108 | The count becomes 0, and the maximum and colour are kept. |
| DomainObjects.AbstractBox.SetMaximumBallsBase | src/main/java/com/adavid/visualhasher/domain/objects/AbstractBox.java:117-123 | A negative maximum is rejected and changes nothing. Any other maximum is stored. |
| DomainObjects.AbstractBox.ComputationIncrementsBalls | src/main/java/com/adavid/visualhasher/domain/objects/ComputationBox.java:64-66 | One more ball unless at MAX_INT. |
| DomainObjects.AbstractBox.ComputationSetBalls | src/main/java/com/adavid/visualhasher/domain/objects/ComputationBox.java:69-71 | The count is set exactly when it is non-negative. |
| DomainObjects.AbstractBox.ComputationSetMaximumBalls | src/main/java/com/adavid/visualhasher/domain/objects/ComputationBox.java:74-76 | The maximum is set exactly when it is non-negative. |
| DomainObjects.AbstractBox.ComputationToString | src/main/java/com/adavid/visualhasher/domain/objects/ComputationBox.java:79-81 | The text is non-empty and starts with the class name. |
| DomainObjects.ComputationToStringNamesFields | src/main/java/com/adavid/visualhasher/domain/objects/ComputationBox.java:79-81 | Two computation boxes print alike exactly when they agree on id, count and maximum count. |
| DomainObjects.ContainsBallsIsFull | src/main/java/com/adavid/visualhasher/domain/objects/ColoredUniqueBallBox.java:148-151 | A coloured unique-ball box contains balls exactly when it holds its one ball, and is empty exactly when it holds none. |
| DomainObjects.AbstractBox.ColoredSetBalls | src/main/java/com/adavid/visualhasher/domain/objects/ColoredUniqueBallBox.java:103-110 | Only 0 or 1 is accepted. More than one ball is rejected before the negative check, and each failure has its own message. |
| DomainObjects.AbstractBox.ColoredSetMaximumBalls | src/main/java/com/adavid/visualhasher/domain/objects/ColoredUniqueBallBox.java:113-120 | Only a maximum of 0 or 1 is accepted, with the same order of checks. |
| DomainObjects.AbstractBox.ColoredIncrementsBalls | src/main/java/com/adavid/visualhasher/domain/objects/ColoredUniqueBallBox.java:129-136 | As written the call always throws, naming the current count, and the box never changes. |
| DomainObjects.AbstractBox.ColoredIncrementsBallsIntended | src/main/java/com/adavid/visualhasher/domain/objects/ColoredUniqueBallBox.java:129-136 | With the documented guard, an empty box receives its ball and a full box throws. Either way the box ends full. |
| DomainObjects.AbstractBox.SetColor | src/main/java/com/adavid/visualhasher/domain/objects/ColoredUniqueBallBox.java:144-146 | The colour is stored, and the counts are kept. |
| DoubleChoiceWorker.IncrementComputationBox | src/main/java/com/adavid/visualhasher/domain/logics/DoubleChoiceHashFunctionWorker.java:132 | The chosen box gains one ball. No other count and no maximum changes. |
| DoubleChoiceWorker.SetMaximumAll | src/main/java/com/adavid/visualhasher/domain/logics/DoubleChoiceHashFunctionWorker.java:154-156 | Every box learns the maximum, and no count changes. |
| DoubleChoiceWorker.PublishedChunksGrow | src/main/java/com/adavid/visualhasher/domain/logics/DoubleChoiceHashFunctionWorker.java:143-145 | Each draw appends its own chunk, so chunk `j` is the summary after draw `j` and the box that received its ball. |
| DoubleChoiceWorker.DrawStep | src/main/java/com/adavid/visualhasher/domain/logics/DoubleChoiceHashFunctionWorker.java:121-132 | Draw `i` adds one ball to a box that holds at most `i`, which is below the int limit. Counts stay non-negative. |
| DoubleChoiceWorker.SetMaxima | src/main/java/com/adavid/visualhasher/domain/logics/DoubleChoiceHashFunctionWorker.java:154-160 | After a full run every box's maximum is the largest count, and the information is the summary of the row. |
| DoubleChoiceWorker.DoubleChoiceHashFunctionWorker.constructor | src/main/java/com/adavid/visualhasher/domain/logics/DoubleChoiceHashFunctionWorker.java:95-100 | A valid worker starts with one empty ComputationBox per index and no final information. |
| DoubleChoiceWorker.DoubleChoiceHashFunctionWorker.New | src/main/java/com/adavid/visualhasher/domain/logics/DoubleChoiceHashFunctionWorker.java:72-104 | Construction succeeds exactly when the draw count lies in the worker's draw range. Otherwise it raises the same error as every worker. |
| DoubleChoiceWorker.DoubleChoiceHashFunctionWorker.ChooseBox | src/main/java/com/adavid/visualhasher/domain/logics/DoubleChoiceHashFunctionWorker.java:122-130 | The chosen index is the double-choice slot of draw `i`. |
| DoubleChoiceWorker.DoubleChoiceHashFunctionWorker.PlaceBall | src/main/java/com/adavid/visualhasher/domain/logics/DoubleChoiceHashFunctionWorker.java:132-141 | The chosen box gains one ball, the tracker still describes the row, and no maximum changes. |
| DoubleChoiceWorker.DoubleChoiceHashFunctionWorker.Draw | src/main/java/com/adavid/visualhasher/domain/logics/DoubleChoiceHashFunctionWorker.java:121-147 | After draw `i` the counts are the double-choice counts of `i + 1` draws, and the published chunk is draw `i`'s. |
| DoubleChoiceWorker.DoubleChoiceHashFunctionWorker.DrawAll | src/main/java/com/adavid/visualhasher/domain/logics/DoubleChoiceHashFunctionWorker.java:119-148 | The loop makes exactly as many draws as the polls allow, each publishing its chunk. The counts are the double-choice counts of those draws. |
| DoubleChoiceWorker.DoubleChoiceHashFunctionWorker.Finish | src/main/java/com/adavid/visualhasher/domain/logics/DoubleChoiceHashFunctionWorker.java:150-162 | After a run that was not cancelled: progress 99 and 100, every maximum set to the largest count, and the final information kept. |
| DoubleChoiceWorker.DoubleChoiceHashFunctionWorker.DoInBackground | src/main/java/com/adavid/visualhasher/domain/logics/DoubleChoiceHashFunctionWorker.java:114-165 | The counts are those of the draws the polls allowed, and every draw published its chunk. A cancelled run leaves the maxima and the final information alone. A finished run reports 0..100, sets every maximum to the largest count, and keeps the summary of the row. |
| FirstGeneration.Report | src/main/java/com/adavid/visualhasher/domain/ChainingHashFunctionWorker.java:109-123 | The result holds the row, with the heading naming the largest count followed by exactly the boxes holding it, in ascending order. The order in which they were listed does not matter. |
| Intervals.NewRange | src/main/java/com/adavid/visualhasher/domain/utility/Range.java:24-28 | The bounds are stored in order, whichever order they are given in. |
| Intervals.NewRangeSymmetric | src/main/java/com/adavid/visualhasher/domain/utility/Range.java:24-28 | The order of the constructor's arguments does not matter. |
| Intervals.ContainsIsClosedInterval | src/main/java/com/adavid/visualhasher/domain/utility/Range.java:36-38 | The min/max formulation of `contains` is the closed interval test. |
| Intervals.RangeEqualsContract | src/main/java/com/adavid/visualhasher/domain/utility/Range.java:40-62 | `equals` is an equivalence, `hashCode` agrees with it, and equal ranges contain the same values. |
| Intervals.HashCodeCollides | src/main/java/com/adavid/visualhasher/domain/utility/Range.java:41-45 | Two different ranges can share a hash code: [0, 62] and [1, 31] both hash to 62. |
| Intervals.RangeToStringNamesBounds | src/main/java/com/adavid/visualhasher/domain/utility/Range.java:65-67 | Two ranges print alike exactly when they have the same bounds. |
| Intervals.BoxesRangeToStringNamesBounds | src/main/java/com/adavid/visualhasher/domain/utility/BoxesRange.java:52-54 | Two boxes ranges print alike exactly when they have the same bounds. |
| LinearProbingWorker.Draw | src/main/java/com/adavid/visualhasher/domain/LinearOpenAddressingHashFunctionWorker.java:87-124 | Unless a poll saw the cancellation, the counts after draw `i` are the linear-probing counts of `i + 1` draws, and the tracker follows. A cancelled draw changes nothing. |
| LinearProbingWorker.DrawAll | src/main/java/com/adavid/visualhasher/domain/LinearOpenAddressingHashFunctionWorker.java:85-125 | The loop stops at the first cancelled poll. When it draws all, the counts are the linear-probing counts and the tracker describes them. |
| LinearProbingWorker.DoInBackground | src/main/java/com/adavid/visualhasher/domain/LinearOpenAddressingHashFunctionWorker.java:72-146 | The run never fails: the loop-detection throw is unreachable. It completes when never cancelled and is cancelled when the cancellation comes by the last draw's first poll. A completed run holds the linear-probing counts and their summary. |
| OpenAddressingWorker.ColorAndIncrement | src/main/java/com/adavid/visualhasher/domain/logics/QuadraticOpenAddressingHashFunctionWorker.java:216-219 | The box takes its colour. As written the increment then throws and the count stays. With the documented guard an empty box gains its ball. |
| OpenAddressingWorker.PublishedChunksGrow | src/main/java/com/adavid/visualhasher/domain/logics/QuadraticOpenAddressingHashFunctionWorker.java:230-232 | Each draw appends its own chunk. |
| OpenAddressingWorker.LinearDrawStep | src/main/java/com/adavid/visualhasher/domain/logics/QuadraticOpenAddressingHashFunctionWorker.java:195-219 | Draw `i` fills the empty box the linear probe settles on. It colours it RED exactly when the drawn box was full. |
| OpenAddressingWorker.FirstDrawKeepsColors | src/main/java/com/adavid/visualhasher/domain/logics/QuadraticOpenAddressingHashFunctionWorker.java:216-218 | The first draw finds its box empty, so it colours it GREEN, as it already was. |
| OpenAddressingWorker.QuadraticOpenAddressingHashFunctionWorker.constructor | src/main/java/com/adavid/visualhasher/domain/logics/QuadraticOpenAddressingHashFunctionWorker.java:105-110 | A valid worker starts with one empty GREEN unique-ball box per index, an empty tracker and no final information. |
| OpenAddressingWorker.QuadraticOpenAddressingHashFunctionWorker.New | src/main/java/com/adavid/visualhasher/domain/logics/QuadraticOpenAddressingHashFunctionWorker.java:83-114 | Construction succeeds exactly when the draw count lies in the worker's draw range. Otherwise it raises the same error as every worker. |
| OpenAddressingWorker.QuadraticOpenAddressingHashFunctionWorker.Look | src/main/java/com/adavid/visualhasher/domain/logics/QuadraticOpenAddressingHashFunctionWorker.java:195-214 | Unless a poll saw the cancellation, the probe returns the linear slot of draw `i`, and `doLoop` says whether the drawn box was full. Nothing changes. |
| OpenAddressingWorker.QuadraticOpenAddressingHashFunctionWorker.Observe | src/main/java/com/adavid/visualhasher/domain/logics/QuadraticOpenAddressingHashFunctionWorker.java:221-228 | The worker's tracker fields still describe the row after the box gains its ball. |
| OpenAddressingWorker.QuadraticOpenAddressingHashFunctionWorker.Place | src/main/java/com/adavid/visualhasher/domain/logics/QuadraticOpenAddressingHashFunctionWorker.java:216-232 | The colours become those of `i + 1` draws. As written the increment fails and the counts stay. With the documented guard the counts become those of `i + 1` draws and the chunk is draw `i`'s. |
| OpenAddressingWorker.QuadraticOpenAddressingHashFunctionWorker.Record | src/main/java/com/adavid/visualhasher/domain/logics/QuadraticOpenAddressingHashFunctionWorker.java:221-232 | The tracker follows the filled box, and the chunk is the summary of the row with that box. |
| OpenAddressingWorker.QuadraticOpenAddressingHashFunctionWorker.Draw | src/main/java/com/adavid/visualhasher/domain/logics/QuadraticOpenAddressingHashFunctionWorker.java:195-234 | One pass: a seen cancellation leaves the row as it was. As written the first increment fails unless cancelled by poll 2. With the documented guard the row becomes that of `i + 1` draws. |
| OpenAddressingWorker.QuadraticOpenAddressingHashFunctionWorker.Step | src/main/java/com/adavid/visualhasher/domain/logics/QuadraticOpenAddressingHashFunctionWorker.java:195-235 | A successful pass publishes its chunk, reports its progress and moves to the next draw. Otherwise nothing moves on. |
| OpenAddressingWorker.QuadraticOpenAddressingHashFunctionWorker.DrawAll | src/main/java/com/adavid/visualhasher/domain/logics/QuadraticOpenAddressingHashFunctionWorker.java:195-235 | The loop ends at the first cancellation, the first rejected increment or the last draw. The row is that of the draws made, and every one of them published its chunk. |
| OpenAddressingWorker.QuadraticOpenAddressingHashFunctionWorker.DoInBackground | src/main/java/com/adavid/visualhasher/domain/logics/QuadraticOpenAddressingHashFunctionWorker.java:121-257 | As written, the run fails with the rejected increment unless cancelled by poll 2, leaving the row empty and nothing published. With the documented guard it never fails and fills one box per draw, RED for a displaced ball. A completed run's tracker is the most-filled summary. The final information is never assigned. |
| Probing.Probe | src/main/java/com/adavid/visualhasher/domain/LinearOpenAddressingHashFunctionWorker.java:95-106 | Unless cancelled, the probe stops at the linear slot, and it moved on exactly when the first box was full. A probe from an empty box polls once. |
| Probing.Search | src/main/java/com/adavid/visualhasher/domain/QuadraticOpenAddressingHashFunctionWorker.java:107-114 | Unless cancelled, the search stops at the step `QuadSearch` finds and at the box that step names. |
| Probing.Retry | src/main/java/com/adavid/visualhasher/domain/QuadraticOpenAddressingHashFunctionWorker.java:102-128 | Unless the last poll was cancelled, the outcome is `QuadAttempt`'s: the box found with its `original` flag, or all three starts recorded in order. |
| QuadraticWorker.GiveUpHeadIsSafe | src/main/java/com/adavid/visualhasher/domain/QuadraticOpenAddressingHashFunctionWorker.java:135-146 | Cutting the trailing separator never eats into the message's heading. |
| QuadraticWorker.Attempt | src/main/java/com/adavid/visualhasher/domain/QuadraticOpenAddressingHashFunctionWorker.java:102-132 | Between the draw's polls, the retry loop's outcome is `QuadAttempt`'s unless the last poll saw the cancellation. |
| QuadraticWorker.GivesUp | src/main/java/com/adavid/visualhasher/domain/QuadraticOpenAddressingHashFunctionWorker.java:134-147 | A draw whose starts all fail leaves the run given up with those starts. |
| QuadraticWorker.PlacesBall | src/main/java/com/adavid/visualhasher/domain/QuadraticOpenAddressingHashFunctionWorker.java:120-122 | A draw that finds an empty box adds its ball there and sets the box's `original` flag. |
| QuadraticWorker.PlaceBall | src/main/java/com/adavid/visualhasher/domain/QuadraticOpenAddressingHashFunctionWorker.java:120-156 | The found box gains its ball and its `original` flag, and the tracker follows. |
| QuadraticWorker.Draw | src/main/java/com/adavid/visualhasher/domain/QuadraticOpenAddressingHashFunctionWorker.java:94-159 | One draw ends cancelled, failed with the message naming its three starts, or placed as `QuadraticRun` says. Failed and cancelled draws leave the counts alone. |
| QuadraticWorker.DrawAll | src/main/java/com/adavid/visualhasher/domain/QuadraticOpenAddressingHashFunctionWorker.java:87-159 | The loop ends at the first cancellation, the first draw that gives up, or the last draw. When it draws all, the row is the run's. |
| QuadraticWorker.GaveUpAtEnd | src/main/java/com/adavid/visualhasher/domain/QuadraticOpenAddressingHashFunctionWorker.java:134-147 | A run that gave up at some draw is given up the same way at the end. |
| QuadraticWorker.Summarize | src/main/java/com/adavid/visualhasher/domain/QuadraticOpenAddressingHashFunctionWorker.java:165-179 | The result holds the row and the most-filled summary of its counts, after progress 99 and 100. |
| QuadraticWorker.Conclude | src/main/java/com/adavid/visualhasher/domain/QuadraticOpenAddressingHashFunctionWorker.java:161-179 | After the loop: a run that gave up fails, a cancelled poll cancels the run, and otherwise the run completes with progress 99 and 100 and the most-filled summary. |
| QuadraticWorker.DoInBackground | src/main/java/com/adavid/visualhasher/domain/QuadraticOpenAddressingHashFunctionWorker.java:74-180 | A failed run is one whose `QuadraticRun` gave up, with the exception naming that draw's starts. A completed run holds the run's counts and flags, progress 0..100 and their summary. Without a cancellation the run is never cancelled. |
| Results.CheckInformation | src/main/java/com/adavid/visualhasher/domain/logics/HashFunctionResult.java:100-121 | Information is accepted exactly when present, non-empty and not blank. Each rejection carries its own cause, null first, then empty, then blank. |
| Results.CheckBoxes | src/main/java/com/adavid/visualhasher/domain/logics/HashFunctionResult.java:123-139 | A list is accepted exactly when present with at least two boxes. Each rejection carries its own cause. |
| Results.NewLogicsResult | src/main/java/com/adavid/visualhasher/domain/logics/HashFunctionResult.java:100-140 | The record is built exactly from valid information and a valid list. Information is checked before the list. |
| Results.NewDomainResult | src/main/java/com/adavid/visualhasher/domain/HashFunctionResult.java:99-139 | The same checks for the first generation, whose messages say "boxes". |
| Results.NewIntermediaryResult | src/main/java/com/adavid/visualhasher/domain/logics/HashFunctionIntermediaryResult.java:45-74 | The chunk is built exactly from valid information and a present box. |
| Results.InformationCheckedFirst | src/main/java/com/adavid/visualhasher/domain/logics/HashFunctionResult.java:100-139 | When both are bad, the information error is the one raised. |
| Results.VisibleStartIsValid | src/main/java/com/adavid/visualhasher/domain/logics/HashFunctionResult.java:115-121 | Text starting with a visible character is accepted. |
| Runs.CancellationIsSticky | src/main/java/com/adavid/visualhasher/domain/ChainingHashFunctionWorker.java:84-107 | Once a poll answers true, every later poll does too. |
| Runs.DrawsMade | src/main/java/com/adavid/visualhasher/domain/logics/DoubleChoiceHashFunctionWorker.java:121 | The loop `i < draws && !isCancelled()` makes every draw unless a poll before the last answers true. It stops right there, and all earlier polls answered false. |
| Runs.ProgressUpTo | src/main/java/com/adavid/visualhasher/domain/ChainingHashFunctionWorker.java:82-102 | Progress starts at 0 and adds one value per draw. |
| Runs.ProgressUpToMonotone | src/main/java/com/adavid/visualhasher/domain/ChainingHashFunctionWorker.java:102 | The values reported during the loop never decrease and stay within [0, 98]. |
| Runs.ProgressTraceMonotone | src/main/java/com/adavid/visualhasher/domain/ChainingHashFunctionWorker.java:82-121 | A finished run reports non-decreasing values from 0 to 100. |
| Runs.ProgressUpToIsPrefix | src/main/java/com/adavid/visualhasher/domain/ChainingHashFunctionWorker.java:102-109 | What a cancelled run has reported is the start of what a finished run reports. |
| SecondGeneration.FinalTracker | src/main/java/com/adavid/visualhasher/domain/logics/DoubleChoiceHashFunctionWorker.java:154-160 | At the end the tracker's maximum is the largest count and fits in an int, and `generateInformation` yields the summary of the row. |
| SecondGeneration.PublishChunk | src/main/java/com/adavid/visualhasher/domain/logics/DoubleChoiceHashFunctionWorker.java:143-145 | The published chunk carries the row's summary and the box that received the ball, and the record accepts it. |
| Text.IntToString | src/main/java/com/adavid/visualhasher/domain/ChainingHashFunctionWorker.java:111 | The printed integer is non-empty and starts with '-' exactly when negative. |
| Text.IntToStringRoundTrip | src/main/java/com/adavid/visualhasher/domain/ChainingHashFunctionWorker.java:111 | Every printed integer parses back to itself. |
| Text.IntToStringInjective | src/main/java/com/adavid/visualhasher/domain/ChainingHashFunctionWorker.java:111 | Distinct integers print differently. |
| Text.NotBlankWitness | src/main/java/com/adavid/visualhasher/domain/logics/HashFunctionResult.java:115-121 | A string with one non-whitespace character is not blank. |
| Text.Join | src/main/java/com/adavid/visualhasher/domain/ChainingHashFunctionWorker.java:113-119 | The joined list is empty exactly when the list is. |
| Text.StripSeparator | src/main/java/com/adavid/visualhasher/domain/ChainingHashFunctionWorker.java:117-119 | A trailing ", " is cut, and any other text is left alone. |
| Text.StripAppendEach | src/main/java/com/adavid/visualhasher/domain/ChainingHashFunctionWorker.java:111-119 | Appending each index and ", " and then cutting the trailing separator gives the heading followed by the indexes joined by ", ". |
| Text.BuildList | src/main/java/com/adavid/visualhasher/domain/ChainingHashFunctionWorker.java:113-119 | The StringBuilder loop yields the heading followed by the joined list. |
| Tracking.StartTracksZeros | src/main/java/com/adavid/visualhasher/domain/ChainingHashFunctionWorker.java:74-75 | The starting tracker (0, no indexes) describes an empty row. |
| Tracking.ObservePreserves | src/main/java/com/adavid/visualhasher/domain/ChainingHashFunctionWorker.java:93-100 | The update keeps the tracker exact when a box gains one ball: largest count, and exactly the boxes holding it, each once. |
| Tracking.ObserveBall | src/main/java/com/adavid/visualhasher/domain/ChainingHashFunctionWorker.java:93-100 | The worker's update code keeps the tracker exact. |
| Tracking.TrackedMaximumIsAttained | src/main/java/com/adavid/visualhasher/domain/ChainingHashFunctionWorker.java:93-100 | A positive maximum is held by the first listed box. |
| Tracking.MaxCount | src/main/java/com/adavid/visualhasher/domain/ChainingHashFunctionWorker.java:93-96 | The largest count bounds every box and is held by one, or is 0. |
| Tracking.IndexesWith | src/main/java/com/adavid/visualhasher/domain/ChainingHashFunctionWorker.java:113 | The boxes holding a given count, strictly ascending and all of them. |
| Tracking.TrackerIsMostFilled | src/main/java/com/adavid/visualhasher/domain/ChainingHashFunctionWorker.java:93-113 | An exact tracker, once its list is sorted, is the most-filled summary of the row, so the result depends only on the final counts. |
| Tracking.SortAscending | src/main/java/com/adavid/visualhasher/domain/ChainingHashFunctionWorker.java:113 | The sorted list is ascending and a permutation of the input. |
| Tracking.HeadingsAreSafe | src/main/java/com/adavid/visualhasher/domain/ChainingHashFunctionWorker.java:111-119 | Neither heading ends with the separator, so cutting it never eats into the heading. |
| Tracking.SummaryOfTracker | src/main/java/com/adavid/visualhasher/domain/ChainingHashFunctionWorker.java:111-119 | The summary built from an exact tracker depends only on the counts. |
| Tracking.SummaryNotBlank | src/main/java/com/adavid/visualhasher/domain/ChainingHashFunctionWorker.java:111-123 | A summary is never blank, so the result record accepts it. |
| Tracking.GenerateInformation | src/main/java/com/adavid/visualhasher/domain/logics/DoubleChoiceHashFunctionWorker.java:178-190 | `generateInformation` gives the heading followed by the tracked indexes in ascending order, and the text is never blank. |
| Tracking.GenerateInformationOfTracker | src/main/java/com/adavid/visualhasher/domain/logics/DoubleChoiceHashFunctionWorker.java:178-190 | From an exact tracker it reports the summary of the row. |
| ViewBoxes.HalfwayReachesTargetIff | src/main/java/com/adavid/visualhasher/presentation/views/components/Box.java:81-101 | `setBalls` reaches its target exactly when the target is the current count, 0, or one ball away. |
| ViewBoxes.HalfwayBetween | src/main/java/com/adavid/visualhasher/presentation/views/components/Box.java:81-101 | The count moves toward the target and never past it. |
| ViewBoxes.HalfwayExamples | src/main/java/com/adavid/visualhasher/presentation/views/components/boxes/CommonBaseBox.java:156-176 | A box holding 0 balls asked for 4 ends with 2. A `CommonBaseBox` holding 10 balls asked for 2 ends with 6. |
| ViewBoxes.Box.constructor | src/main/java/com/adavid/visualhasher/presentation/views/components/Box.java:38-39 | The box holds the given count. |
| ViewBoxes.Box.Empty | src/main/java/com/adavid/visualhasher/presentation/views/components/Box.java:34-36 | The box is empty. |
| ViewBoxes.Box.IncrementBalls | src/main/java/com/adavid/visualhasher/presentation/views/components/Box.java:125-129 | One more ball, or an `ArithmeticException` at MAX_INT with the box unchanged. The colour is ignored. |
| ViewBoxes.Box.IncrementBallsDefault | src/main/java/com/adavid/visualhasher/presentation/views/components/Box.java:111-113 | The same with the default colour. |
| ViewBoxes.Box.DecrementBalls | src/main/java/com/adavid/visualhasher/presentation/views/components/Box.java:115-123 | An empty box throws `RuntimeException` and stays empty. Any other box loses one ball and then throws `ArrayIndexOutOfBoundsException` for index `balls - 1`, because nothing is ever added to its panel. |
| ViewBoxes.Box.DecrementBallsIntended | src/main/java/com/adavid/visualhasher/presentation/views/components/Box.java:115-123 | The corrected decrement: one ball fewer and no exception, except that an empty box throws and stays empty. |
| ViewBoxes.Box.Clear | src/main/java/com/adavid/visualhasher/presentation/views/components/Box.java:103-109 | The count becomes 0. |
| ViewBoxes.Box.SetBalls | src/main/java/com/adavid/visualhasher/presentation/views/components/Box.java:81-101 | A negative target throws and changes nothing. A positive target below the count fails at the first decrement, one ball lower, with `ArrayIndexOutOfBoundsException`. Every other target succeeds and leaves the count halfway, at `HalfwayCount`. |
| ViewBoxes.Box.SetBallsIntended | src/main/java/com/adavid/visualhasher/presentation/views/components/Box.java:81-101 | With the distance taken once before the loop and the corrected decrement, every non-negative target is reached exactly. |
| ViewBoxes.BoxToStringNamesBalls | src/main/java/com/adavid/visualhasher/presentation/views/components/Box.java:136-138 | Two view boxes print alike exactly when they hold the same count. |
| ViewBoxes.CommonBaseBox.constructor | src/main/java/com/adavid/visualhasher/presentation/views/components/boxes/CommonBaseBox.java:54-70 | The box holds the given id, count and colour. |
| ViewBoxes.CommonBaseBox.NewNumeric | src/main/java/com/adavid/visualhasher/presentation/views/components/boxes/CommonBaseBox.java:54-70 | Creation succeeds exactly for a non-negative id and count, the id checked first. The box is GREEN. |
| ViewBoxes.CommonBaseBox.NewColored | src/main/java/com/adavid/visualhasher/presentation/views/components/boxes/CommonBaseBox.java:100-108 | Creation succeeds exactly for a non-negative id. The box holds one ball when filled and none otherwise, in the given colour. |
| ViewBoxes.CommonBaseBox.IncrementsBalls | src/main/java/com/adavid/visualhasher/presentation/views/components/boxes/CommonBaseBox.java:187-190 | One more ball, or an `ArithmeticException` at MAX_INT. |
| ViewBoxes.CommonBaseBox.DecrementBalls | src/main/java/com/adavid/visualhasher/presentation/views/components/boxes/CommonBaseBox.java:193-200 | One ball fewer. An empty box throws. |
| ViewBoxes.CommonBaseBox.Clear | src/main/java/com/adavid/visualhasher/presentation/views/components/boxes/CommonBaseBox.java:179-184 | The count becomes 0, and the colour is kept. |
| ViewBoxes.CommonBaseBox.SetBalls | src/main/java/com/adavid/visualhasher/presentation/views/components/boxes/CommonBaseBox.java:156-176 | The same halfway loop as `Box.setBalls`. |
| ViewBoxes.CommonBaseBox.SetColor | src/main/java/com/adavid/visualhasher/presentation/views/components/boxes/CommonBaseBox.java:211-217 | As written the stored colour does not change. |
| ViewBoxes.CommonBaseBox.SetColorIntended | src/main/java/com/adavid/visualhasher/presentation/views/components/boxes/CommonBaseBox.java:211-217 | The corrected setter stores the colour. |
| ViewBoxes.SetColorIsLost | src/main/java/com/adavid/visualhasher/presentation/views/components/boxes/CommonBaseBox.java:207-217 | A GREEN box told to turn RED still reports GREEN. |
| ViewBoxes.SetColorIntendedIsKept | src/main/java/com/adavid/visualhasher/presentation/views/components/boxes/CommonBaseBox.java:207-217 | With the corrected setter it reports RED. |
| ViewBoxes.OpenAddessingBox.constructor | src/main/java/com/adavid/visualhasher/presentation/views/components/boxes/OpenAddessingBox.java:58-60 | The box wraps a valid base box. |
| ViewBoxes.OpenAddessingBox.New | src/main/java/com/adavid/visualhasher/presentation/views/components/boxes/OpenAddessingBox.java:58-60 | Creation succeeds exactly for a non-negative id. The box holds one ball when filled and none otherwise, in the given colour. |
| ViewBoxes.OpenAddessingBox.NewDefault | src/main/java/com/adavid/visualhasher/presentation/views/components/boxes/OpenAddessingBox.java:45-47 | Creation succeeds exactly for a non-negative id, and the box reports GREEN. |
| ViewBoxes.OpenAddessingBox.IncrementsBalls | src/main/java/com/adavid/visualhasher/presentation/views/components/boxes/OpenAddessingBox.java:68-71 | One more ball unless at MAX_INT. The reported colour stays what it was, because `setColor` drops its argument. |
| ViewBoxes.OpenAddessingBox.IncrementsBallsDefault | src/main/java/com/adavid/visualhasher/presentation/views/components/boxes/OpenAddessingBox.java:63-65 | The same with GREEN. |
| WorkerSetup.NewWorker | src/main/java/com/adavid/visualhasher/domain/AbstractHashFunctionWorker.java:50-71 | A worker is built exactly when `boxes / 2 <= draws <= boxes`. Otherwise the error is `IllegalNumberOfDrawsException` caused by the `DrawsOutOfBoundsException` naming the count. |
| WorkerSetup.ValidWorkerDraws | src/main/java/com/adavid/visualhasher/domain/AbstractHashFunctionWorker.java:50-64 | A valid worker draws at least once and at most once per box. |
| WorkerSetup.ComputeRounded | src/main/java/com/adavid/visualhasher/domain/AbstractHashFunctionWorker.java:92-95 | The first generation's draw always names a box. |
| WorkerSetup.ComputeRoundedPreimage | src/main/java/com/adavid/visualhasher/domain/AbstractHashFunctionWorker.java:92-95 | Box `k` is drawn exactly for the random values whose scaled value lies within a half of `k`. |
| WorkerSetup.ComputeRoundedIsNotUniform | src/main/java/com/adavid/visualhasher/domain/AbstractHashFunctionWorker.java:92-95 | With three boxes or more, box 0 is reached by an interval half as wide as box 1's. |
| WorkerSetup.ComputeUniform | src/main/java/com/adavid/visualhasher/domain/logics/AbstractHashFunctionWorker.java:93-97 | The second generation's draw always names a box. |
| WorkerSetup.ComputeUniformPreimage | src/main/java/com/adavid/visualhasher/domain/logics/AbstractHashFunctionWorker.java:93-97 | Every box is reached by an interval of width 1/boxes. |

## Left out

- The Swing user interface is not modelled: `process`, `done`, the `JList`/`JTextArea` updates, and the text areas and panels of the view boxes. The one exception is that the ball panel of `Box` stays empty, which is what makes its `decrementBalls` throw. The workers' `publish` calls are modelled as the sequence of chunks they hand over.
- `Math.random` and `ThreadLocalRandom` are replaced by the sequence of drawn indexes. Floating point appears only in `WorkerSetup`, where `real` stands for the `double` drawn in [0, 1).
- Progress `i * 100 / draws` and the first generation's quadratic `firstIndex + delta * delta` are computed without 32-bit overflow. They could only overflow far beyond the 100000-box cap of the user interface.
- The first-generation `DoubleChoiceHashFunctionWorker` in `domain` is an empty stub and is not part of this model.
- The worker constructors rewrap a bad `NumberOfBoxes` as `IllegalNumberOfBoxesException`. This path is not modelled, because the `NumberOfBoxes` they receive has already been validated and the rewrap cannot happen.
- `Probing.Probe` and `Probing.Search` read the row's counts as values, because the probe loops only read boxes and never change them.
- The second-generation quadratic worker builds a final summary and then discards it, so `finalInformation` is never assigned. The model keeps `finalInformation` unchanged and does not build the discarded text.
- The unused `retry` counter of the second-generation quadratic worker and the commented-out code are not modelled.
- The private constructors that only throw, the capability interfaces, and the classes that only declare an exception are not modelled.
- The first-generation `HashFunctionResult` declares a list of `ComputedBox` while the chaining and linear workers hand it view `Box` rows. The model takes the box type as a type parameter, so both uses fit.
- The `hashCode` and `equals` of `DrawsRange` and `CommonIntegerRange` beyond what `Intervals` and `Bounds` state are not modelled. The `toString` methods are modelled as text, and lemmas state that each text determines the fields it prints; the exact characters are not restated.
- ViewBoxes.Box.constructor: requires a non-negative count, which the Java constructor does not check; every caller passes 0.
- DomainObjects.AbstractBox.ComputationToString: its own contract states only that the text is non-empty and starts with the class name; `ComputationToStringNamesFields` states that the text determines the id, the count and the maximum count.
- ViewBoxes.CommonBaseBox.SetBalls: models the same halfway loop as `Box.setBalls`; the corrected loop is given for `Box` only, as `SetBallsIntended`.
- The drawn indexes (`rand`, `starts`) must be long enough for every draw the worker may make. A worker never reads past them.

## Findings

| source | as written | input that shows it | evidently intended | confidence | as-written member | corrected member |
|---|---|---|---|---|---|---|
| src/main/java/com/adavid/visualhasher/domain/objects/ColoredUniqueBallBox.java:129-136 | `incrementsBalls` throws when `1 >= balls` | An empty box (0 balls): the increment throws `IllegalNumberOfBallsException`. The second-generation quadratic worker therefore fails at its first draw. | Throw only when the box already holds its ball (`balls >= 1`) | high; not executed | DomainObjects.IncrementAlwaysRejected | DomainObjects.AbstractBox.ColoredIncrementsBallsIntended |
| src/main/java/com/adavid/visualhasher/presentation/views/components/Box.java:81-101 | `setBalls` runs its loop while `i < target - balls` and `balls` grows inside the loop | A box with 0 balls and `setBalls(4)` ends with 2 balls. The same loop in `CommonBaseBox` (CommonBaseBox.java:156-176) takes a box with 10 balls and `setBalls(2)` to 6. | The box ends with exactly the target count | high; not executed | ViewBoxes.HalfwayExamples | ViewBoxes.Box.SetBallsIntended |
| src/main/java/com/adavid/visualhasher/presentation/views/components/Box.java:115-123 | `decrementBalls` removes component `balls - 1` from a panel that nothing is ever added to | A box with 10 balls: `decrementBalls` leaves 9 balls and throws `ArrayIndexOutOfBoundsException` for index 8. `setBalls(2)` on it therefore stops after one ball. | One ball fewer and no exception | high; not executed | ViewBoxes.Box.DecrementBalls | ViewBoxes.Box.DecrementBallsIntended |
| src/main/java/com/adavid/visualhasher/presentation/views/components/boxes/CommonBaseBox.java:211-217 | `setColor` does not store the colour it receives | A GREEN box told `setColor(RED)`: `getColor` still returns GREEN. | The box reports the colour it was given | high; not executed | ViewBoxes.SetColorIsLost | ViewBoxes.SetColorIntendedIsKept |
| src/main/java/com/adavid/visualhasher/domain/AbstractHashFunctionWorker.java:92-95 | `compute` is `Math.round(Math.random() * (boxes - 1))` | With 3 boxes, box 0 is drawn only for random < 0.25 and box 1 for random in [0.25, 0.75), so box 1 is twice as likely. | A uniform draw, as the second generation's `nextInt(0, boxes)` | medium; not executed | WorkerSetup.ComputeRoundedIsNotUniform | WorkerSetup.ComputeUniformPreimage |
