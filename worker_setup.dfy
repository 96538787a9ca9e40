/** What the four workers of both generations share before they draw: the
  * validated pair (number of boxes, number of draws) that their
  * constructors accept, the index `compute` draws, and the three ways a
  * `doInBackground` can end. */
module WorkerSetup {
  import opened Wrappers
  import opened JavaInt
  import opened Errors
  import opened Bounds
  import opened BoundsMessages

  /** A constructed worker: `getBoxes()` and `getDraws()`. */
  datatype Worker = Worker(boxes: NumberOfBoxes, draws: Int32)
  {
    /** The draw count lies in the worker's `DrawsRange`. */
    predicate Valid() { boxes / 2 <= draws <= boxes }
  }

  const INVALID_DRAWS: string := "Cannot create an AbstractHashFunctionWorker with an invalid number of draws."

  /** The constructor check shared by both `AbstractHashFunctionWorker`s and
    * by the second-generation workers that repeat it: a draw count outside
    * `DrawsRange(boxes)` throws `IllegalNumberOfDrawsException` caused by a
    * `DrawsOutOfBoundsException` naming the count and the interval. */
  function NewWorker(boxes: NumberOfBoxes, draws: Int32): (r: Result<Worker, Error>)
    ensures r.Success? <==> boxes / 2 <= draws <= boxes
    ensures r.Success? ==> r.value.Valid() && r.value.boxes == boxes && r.value.draws == draws
    ensures r.Failure? ==> r.error == IllegalNumberOfDraws(INVALID_DRAWS,
              Some(DrawsOutOfBounds(DrawsText(draws, NewDrawsRange(boxes)), None)))
  {
    var interval := NewDrawsRange(boxes);
    if !interval.Contains(draws) then
      match NewDrawsOutOfBounds(draws, interval, None)
      case Success(cause) => Failure(IllegalNumberOfDraws(INVALID_DRAWS, Some(cause)))
      case Failure(thrown) => Failure(thrown)
    else
      Success(Worker(boxes, draws))
  }

  /** A valid worker draws at least once and never more often than it has
    * boxes. */
  lemma ValidWorkerDraws(w: Worker)
    requires w.Valid()
    ensures 1 <= w.draws <= w.boxes
  {
  }

  /** `random * n` for a `random` in [0, 1). */
  function Scaled(random: real, n: int): (y: real)
    requires 0.0 <= random < 1.0 && n > 0
    ensures 0.0 <= y < n as real
  {
    ProductBelow(random, n as real);
    random * (n as real)
  }

  lemma ProductBelow(x: real, y: real)
    requires 0.0 <= x < 1.0 && y > 0.0
    ensures 0.0 <= x * y < y
  {
  }

  lemma FloorBetween(y: real, lo: int, hi: int)
    requires lo as real <= y < hi as real
    ensures lo <= y.Floor < hi
  {
  }

  /** The first generation's `compute`: `Math.round(random * (boxes - 1))`
    * for a `random` in [0, 1), with `Math.round(d)` = floor(d + 1/2). */
  function ComputeRounded(boxes: NumberOfBoxes, random: real): (k: int)
    requires 0.0 <= random < 1.0
    ensures 0 <= k < boxes
  {
    var y := Scaled(random, boxes - 1) + 0.5;
    FloorBetween(y, 0, boxes);
    y.Floor
  }

  /** Which random values `ComputeRounded` sends to box `k`: those whose
    * scaled value lies within a half of `k`. The interval is cut at 0 for
    * the first box and at `boxes - 1` for the last, so those two boxes are
    * drawn half as often as each of the others. */
  lemma ComputeRoundedPreimage(boxes: NumberOfBoxes, random: real, k: int)
    requires 0.0 <= random < 1.0 && 0 <= k < boxes
    ensures ComputeRounded(boxes, random) == k
            <==> (k as real - 0.5) <= Scaled(random, boxes - 1) < (k as real + 0.5)
  {
  }

  /** With three boxes or more, the random values that reach the first box
    * form an interval half as wide as those that reach the second. */
  lemma ComputeRoundedIsNotUniform(boxes: NumberOfBoxes, random: real)
    requires boxes >= 3 && 0.0 <= random < 1.0
    ensures var span := (boxes - 1) as real;
            (ComputeRounded(boxes, random) == 0 <==> random < 0.5 / span)
            && (ComputeRounded(boxes, random) == 1 <==> 0.5 / span <= random < 1.5 / span)
  {
    var span := (boxes - 1) as real;
    ComputeRoundedPreimage(boxes, random, 0);
    ComputeRoundedPreimage(boxes, random, 1);
    ScaledBelow(random, span, 0.5);
    ScaledBelow(random, span, 1.5);
  }

  lemma ScaledBelow(x: real, span: real, c: real)
    requires span > 0.0
    ensures x * span < c <==> x < c / span
  {
    assert (c / span) * span == c;
    if x < c / span {
      assert x * span < (c / span) * span;
    }
  }

  /** `ThreadLocalRandom.nextInt(0, boxes)`, the second generation's
    * `compute` (and the first generation's, corrected): the integer part of
    * `random * boxes`. */
  function ComputeUniform(boxes: NumberOfBoxes, random: real): (k: int)
    requires 0.0 <= random < 1.0
    ensures 0 <= k < boxes
  {
    var y := Scaled(random, boxes);
    FloorBetween(y, 0, boxes);
    y.Floor
  }

  /** Every box gets an interval of random values of the same width,
    * 1/boxes. */
  lemma ComputeUniformPreimage(boxes: NumberOfBoxes, random: real, k: int)
    requires 0.0 <= random < 1.0 && 0 <= k < boxes
    ensures ComputeUniform(boxes, random) == k <==> k as real <= Scaled(random, boxes) < (k + 1) as real
  {
  }

  /** The oracle of drawn indexes a run consumes: every entry is a box. */
  predicate IndexesIn(rand: seq<int>, boxes: int)
  {
    forall i :: 0 <= i < |rand| ==> 0 <= rand[i] < boxes
  }

  /** How `doInBackground` ends: it returns its value (`Completed`), returns
    * `null` after a cancellation (`Cancelled`), or throws (`Failed`). */
  datatype RunOutcome<R> = Completed(value: R) | Cancelled | Failed(error: Error)
}
