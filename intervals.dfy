/** Closed integer intervals: `domain/utility/Range` and the
  * `CommonIntegerRange` base of `BoxesRange`. Both normalise their bounds
  * the same way and test membership the same way, so both are modelled by
  * the one datatype `Range`. */
module Intervals {
  import opened JavaInt
  import opened Text

  const RANGE_HEAD: string := "Range{min="
  const BOXES_RANGE_HEAD: string := "BoxesRange{min="
  const MAX_SEP: string := ", max="
  const CLOSE: string := "}"

  datatype Range = Range(min: Int32, max: Int32)
  {
    /** Every range built by `NewRange` has its bounds in order. */
    predicate Valid() { min <= max }

    /** `contains`: `max(v, min) == min(v, max)`. */
    predicate Contains(v: int) { Max(v, min) == Min(v, max) }

    /** `hashCode`: `31 * min + max` in 32-bit arithmetic. */
    function HashCode(): Int32 { Wrap(Wrap(31 * min) + max) }

    /** `toString`: "Range{min=…, max=…}". */
    function ToString(): string
    {
      RANGE_HEAD + (IntToString(min) + (MAX_SEP + (IntToString(max) + CLOSE)))
    }
  }

  /** The text of a range names both bounds: two ranges print alike
    * exactly when their bounds agree. */
  lemma RangeToStringNamesBounds(a: Range, b: Range)
    ensures a.ToString() == b.ToString() <==> a.min == b.min && a.max == b.max
  {
    if a.ToString() == b.ToString() {
      TwoIntsText(RANGE_HEAD, a.min, b.min, MAX_SEP, a.max, b.max, CLOSE);
    }
  }

  /** The constructor `Range(bound1, bound2)`: the bounds in either order. */
  function NewRange(bound1: Int32, bound2: Int32): (r: Range)
    ensures r.Valid()
    ensures (r.min == bound1 && r.max == bound2) || (r.min == bound2 && r.max == bound1)
  {
    Range(Min(bound1, bound2), Max(bound1, bound2))
  }

  /** The order of the constructor's arguments does not matter. */
  lemma NewRangeSymmetric(a: Int32, b: Int32)
    ensures NewRange(a, b) == NewRange(b, a)
  {
  }

  /** The min/max formulation of `contains` is the closed interval test. */
  lemma ContainsIsClosedInterval(r: Range, v: int)
    requires r.Valid()
    ensures r.Contains(v) <==> r.min <= v <= r.max
  {
  }

  /** `equals`: same class, same bounds. */
  predicate RangeEquals(a: Range, b: Range)
  {
    a.min == b.min && a.max == b.max
  }

  /** `equals` is an equivalence and `hashCode` agrees with it. */
  lemma RangeEqualsContract(a: Range, b: Range, c: Range)
    ensures RangeEquals(a, a)
    ensures RangeEquals(a, b) ==> RangeEquals(b, a)
    ensures RangeEquals(a, b) && RangeEquals(b, c) ==> RangeEquals(a, c)
    ensures RangeEquals(a, b) ==> a.HashCode() == b.HashCode()
    ensures RangeEquals(a, b) ==> forall v :: a.Contains(v) == b.Contains(v)
  {
  }

  /** Equal bounds give equal hash codes, but the 32-bit hash is not
    * injective: two different ranges can share one. */
  lemma HashCodeCollides()
    ensures NewRange(0, 62).Valid() && NewRange(1, 31).Valid()
    ensures !RangeEquals(NewRange(0, 62), NewRange(1, 31))
    ensures NewRange(0, 62).HashCode() == NewRange(1, 31).HashCode() == 62
  {
  }

  /** `BoxesRange(boxes)`: the `CommonIntegerRange` from 2 to `boxes`. */
  datatype BoxesRange = BoxesRange(bounds: Range)
  {
    /** `toString`: "BoxesRange{min=…, max=…}". */
    function ToString(): string
    {
      BOXES_RANGE_HEAD + (IntToString(bounds.min) + (MAX_SEP + (IntToString(bounds.max) + CLOSE)))
    }
  }

  /** The text of a `BoxesRange` names both bounds. */
  lemma BoxesRangeToStringNamesBounds(a: BoxesRange, b: BoxesRange)
    ensures a.ToString() == b.ToString() <==> a.bounds == b.bounds
  {
    if a.ToString() == b.ToString() {
      TwoIntsText(BOXES_RANGE_HEAD, a.bounds.min, b.bounds.min, MAX_SEP, a.bounds.max, b.bounds.max, CLOSE);
    }
  }
}
