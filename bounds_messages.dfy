/** The exceptions that describe a value against an interval. Building one
  * computes its message, and that computation checks the claim the
  * exception makes: an "out of bounds" exception for a value that is in
  * the interval throws the "in bounds" exception instead, and vice versa.
  * A constructor therefore either yields its exception or throws the
  * other one; the `Result` says which. */
module BoundsMessages {
  import opened Wrappers
  import opened Text
  import opened Errors
  import opened Intervals
  import opened Bounds

  const IN_INTERVAL: string := "' is in the interval. Value: "
  const OUTSIDE_INTERVAL: string := "' is outside the interval. Value: "
  const GIVE_OUTSIDE: string := ".Please give a value outside the interval: "
  const GIVE_INSIDE: string := ".Please give a value inside the interval: "

  function InBoundsText(v: int, r: Range): string
  {
    "The number '" + IntToString(v) + IN_INTERVAL + IntToString(v)
    + ", min: " + IntToString(r.min) + ", max: " + IntToString(r.max)
    + GIVE_OUTSIDE + IntToString(r.min) + " and " + IntToString(r.max) + "."
  }

  function OutOfBoundsText(v: int, r: Range): string
  {
    "The number '" + IntToString(v) + OUTSIDE_INTERVAL + IntToString(v)
    + ", min: " + IntToString(r.min) + ", max: " + IntToString(r.max)
    + GIVE_INSIDE + IntToString(r.min) + " and " + IntToString(r.max) + "."
  }

  const DRAWS_PREFIX: string := "The number of draws is outside the interval. Value: "

  function DrawsText(v: int, d: DrawsRange): string
  {
    DRAWS_PREFIX + IntToString(v) + DrawsTail(d)
  }

  const GIVE_BETWEEN: string := ". Please give a value between: "

  function DrawsTail(d: DrawsRange): string
  {
    ", min: " + IntToString(d.Min()) + ", max: " + IntToString(d.Max())
    + GIVE_BETWEEN + IntToString(d.Min()) + " and " + IntToString(d.Max()) + "."
  }

  /** `new ValueInBoundsException(value, interval, cause)`; the
    * two-argument constructor passes no cause. */
  function NewValueInBounds(v: int, r: Range, cause: Option<Error>): (res: Result<Error, Error>)
    ensures res.Success? <==> r.Contains(v)
    ensures res.Success? ==> res.value == ValueInBounds(InBoundsText(v, r), cause)
    ensures res.Failure? ==> res.error == ValueOutOfBounds(OutOfBoundsText(v, r), None)
    decreases if r.Contains(v) then 0 else 1
  {
    if !r.Contains(v) then
      match NewValueOutOfBounds(v, r, None)
      case Success(thrown) => Failure(thrown)
      case Failure(e) => Failure(e)
    else
      Success(ValueInBounds(InBoundsText(v, r), cause))
  }

  /** `new ValueOutOfBoundsException(value, interval, cause)`. */
  function NewValueOutOfBounds(v: int, r: Range, cause: Option<Error>): (res: Result<Error, Error>)
    ensures res.Success? <==> !r.Contains(v)
    ensures res.Success? ==> res.value == ValueOutOfBounds(OutOfBoundsText(v, r), cause)
    ensures res.Failure? ==> res.error == ValueInBounds(InBoundsText(v, r), None)
    decreases if r.Contains(v) then 1 else 0
  {
    if r.Contains(v) then
      match NewValueInBounds(v, r, None)
      case Success(thrown) => Failure(thrown)
      case Failure(e) => Failure(e)
    else
      Success(ValueOutOfBounds(OutOfBoundsText(v, r), cause))
  }

  /** The two constructors mirror each other: for every value exactly one of
    * them succeeds, and the one that fails throws what the other builds. */
  lemma InOutMirror(v: int, r: Range)
    ensures NewValueInBounds(v, r, None).Success? != NewValueOutOfBounds(v, r, None).Success?
    ensures NewValueInBounds(v, r, None).Failure? ==>
              NewValueInBounds(v, r, None).error == NewValueOutOfBounds(v, r, None).value
    ensures NewValueOutOfBounds(v, r, None).Failure? ==>
              NewValueOutOfBounds(v, r, None).error == NewValueInBounds(v, r, None).value
  {
  }

  /** `new DrawsOutOfBoundsException(value, interval, cause)`: a draw count
    * inside the interval throws `ValueInBoundsException` instead. */
  function NewDrawsOutOfBounds(v: int, d: DrawsRange, cause: Option<Error>): (res: Result<Error, Error>)
    ensures res.Success? <==> !d.Contains(v)
    ensures res.Success? ==> res.value == DrawsOutOfBounds(DrawsText(v, d), cause)
    ensures res.Failure? ==> res.error == ValueInBounds(InBoundsText(v, d.interval), None)
  {
    if d.Contains(v) then
      match NewValueInBounds(v, d.interval, None)
      case Success(thrown) => Failure(thrown)
      case Failure(e) => Failure(e)
    else
      Success(DrawsOutOfBounds(DrawsText(v, d), cause))
  }

  /** The rejected draw count can be read back from the message. */
  lemma DrawsTextNamesValue(v: int, d: DrawsRange)
    ensures var m := DrawsText(v, d);
            var k := |DRAWS_PREFIX| + |IntToString(v)|;
            k <= |m| && m[..|DRAWS_PREFIX|] == DRAWS_PREFIX
            && ParseInt(m[|DRAWS_PREFIX|..k]) == Some(v)
  {
    SliceOfConcat(DRAWS_PREFIX, IntToString(v), DrawsTail(d));
    IntToStringRoundTrip(v);
  }
}
