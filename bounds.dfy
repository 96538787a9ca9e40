/** The two validated quantities of a run: `NumberOfBoxes` (at least two
  * boxes) and `DrawsRange` (the accepted numbers of draws, from half the
  * boxes to all of them), with the `BoxesRange` built from a box count. */
module Bounds {
  import opened Wrappers
  import opened JavaInt
  import opened Text
  import opened Errors
  import opened Intervals

  /** A Java `int` of at least 2: the values a `NumberOfBoxes` can hold. */
  type NumberOfBoxes = n: int | 2 <= n <= MAX_INT witness 2

  const BOXES_MESSAGE_HEAD: string := "Cannot create a NumberOfBoxes with an invalid number of boxes. Value: "
  const BOXES_MESSAGE_TAIL: string := ", min: 2, max: inf. Please give a value between 2 and the positive integer infinity."

  function NumberOfBoxesMessage(boxes: int): string
  {
    BOXES_MESSAGE_HEAD + IntToString(boxes) + BOXES_MESSAGE_TAIL
  }

  /** The constructor `NumberOfBoxes(boxes)`; `getAsInt` gives back `boxes`. */
  function NewNumberOfBoxes(boxes: Int32): (r: Result<NumberOfBoxes, Error>)
    ensures r.Success? <==> boxes >= 2
    ensures r.Success? ==> r.value == boxes
    ensures r.Failure? ==> r.error == IllegalNumberOfBoxes(NumberOfBoxesMessage(boxes))
  {
    if 2 > boxes then Failure(IllegalNumberOfBoxes(NumberOfBoxesMessage(boxes))) else Success(boxes)
  }

  /** `DrawsRange`: the interval `[boxes / 2, boxes]`. */
  datatype DrawsRange = DrawsRange(interval: Range)
  {
    predicate Contains(v: int) { interval.Contains(v) }
    function Min(): Int32 { interval.min }
    function Max(): Int32 { interval.max }
    function HashCode(): Int32 { interval.HashCode() }
    function ConvertToRange(): Range { interval }
    /** `toString`: "DrawsRange{interval=Range{min=…, max=…}}". */
    function ToString(): string { DRAWS_RANGE_HEAD + (interval.ToString() + CLOSE) }
  }

  const DRAWS_RANGE_HEAD: string := "DrawsRange{interval="

  /** The text of a draw range names both ends of its interval. */
  lemma DrawsRangeToStringNamesBounds(a: DrawsRange, b: DrawsRange)
    ensures a.ToString() == b.ToString() <==> a.interval == b.interval
  {
    if a.ToString() == b.ToString() {
      PrefixCancel(DRAWS_RANGE_HEAD, a.interval.ToString() + CLOSE, b.interval.ToString() + CLOSE);
      SuffixCancel(a.interval.ToString(), b.interval.ToString(), CLOSE);
      RangeToStringNamesBounds(a.interval, b.interval);
    }
  }

  /** The constructor `DrawsRange(boxes)`. */
  function NewDrawsRange(boxes: NumberOfBoxes): (d: DrawsRange)
    ensures d.Min() == boxes / 2 && d.Max() == boxes
    ensures 1 <= d.Min() <= d.Max() && d.interval.Valid()
    ensures forall v :: d.Contains(v) <==> boxes / 2 <= v <= boxes
  {
    DrawsRange(NewRange(boxes / 2, boxes))
  }

  /** `DrawsRange.equals` compares the intervals. */
  predicate DrawsRangeEquals(a: DrawsRange, b: DrawsRange)
  {
    RangeEquals(a.interval, b.interval)
  }

  /** Two box counts give equal draw ranges exactly when they are equal, and
    * both ends of a draw range are accepted. */
  lemma DrawsRangeDeterminedByBoxes(a: NumberOfBoxes, b: NumberOfBoxes)
    ensures DrawsRangeEquals(NewDrawsRange(a), NewDrawsRange(b)) <==> a == b
    ensures NewDrawsRange(a).Contains(a / 2) && NewDrawsRange(a).Contains(a)
    ensures !NewDrawsRange(a).Contains(a / 2 - 1) && !NewDrawsRange(a).Contains(a + 1)
  {
  }

  /** The constructor `BoxesRange(boxes)`: from 2 to `boxes`. */
  function NewBoxesRange(boxes: NumberOfBoxes): (r: BoxesRange)
    ensures r.bounds.min == 2 && r.bounds.max == boxes
    ensures forall v :: r.bounds.Contains(v) <==> 2 <= v <= boxes
  {
    BoxesRange(NewRange(2, boxes))
  }
}
