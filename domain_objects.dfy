/** The second-generation boxes: `AbstractBox` with its subclasses
  * `ComputationBox` (any number of balls, used by double choice) and
  * `ColoredUniqueBallBox` (at most one ball and a colour, used by open
  * addressing). One class stands for the hierarchy; `kind` records which
  * subclass an object is, and a subclass's own methods require that kind. */
module DomainObjects {
  import opened Wrappers
  import opened JavaInt
  import opened Text
  import opened Errors
  import opened Colors

  datatype BoxKind = Computation | ColoredUniqueBall

  const DEFAULT_COLOR: Color := Green

  const INVALID_ID: string :=
    "Cannot create an AbstractBox with an invalid ID. The ID is less than 0. Please give an ID greater or equal to 0."
  const INVALID_BALLS: string :=
    "Cannot create an AbstractBox with an invalid number of balls. The number of balls is less than 0. Please give a number between 0 and 1."
  const TOO_MANY_BALLS: string :=
    "Cannot create a ColoredUniqueBallBox with an invalid number of balls. The number of balls is greater than 1. Please give a number between 0 and 1."
  const SET_NEGATIVE_BALLS: string :=
    "Cannot set the number of balls for an AbstractBox with an invalid number of balls. The number of balls is less than 0. Please give a number greater or equal to 0."
  const SET_NEGATIVE_MAX: string :=
    "Cannot set the number of maxBalls for an AbstractBox with an invalid number of balls. The number of balls is less than 0. Please give a number greater or equal to 0."
  const SET_TOO_MANY_BALLS: string :=
    "Cannot set the number of balls for a ColoredUniqueBallBox with an invalid number of balls. The number of balls is greater than 1. Please give a number between 0 and 1."
  const SET_TOO_MANY_MAX: string :=
    "Cannot set the number of maxBalls for a ColoredUniqueBallBox with an invalid number of balls. The number of balls is greater than 1. Please give a number between 0 and 1."

  const COMPUTATION_HEAD: string := "ComputationBox{id: "
  const BALLS_FIELD: string := ", balls: "
  const MAX_BALLS_FIELD: string := ", maxBalls: "
  const CLOSE: string := "}"

  const INCREMENT_REJECTED_HEAD: string :=
    "Cannot increment the number of balls for a ColoredUniqueBallBox. The number of balls if equal or greater than 1. Value: "
  const INCREMENT_REJECTED_TAIL: string := " Please check the logic of this call."

  function IncrementRejectedText(balls: int): string
  {
    INCREMENT_REJECTED_HEAD + IntToString(balls) + INCREMENT_REJECTED_TAIL
  }

  /** The guard of `ColoredUniqueBallBox.incrementsBalls` as written: it
    * throws when the box holds one ball or fewer. */
  predicate IncrementRejected(balls: int) { 1 >= balls }

  /** The guard its documentation describes: throw when the box already
    * holds its one ball. */
  predicate IncrementRejectedIntended(balls: int) { balls >= 1 }

  /** As written, the guard rejects every count a unique-ball box can hold,
    * so no ColoredUniqueBallBox can ever receive a ball. */
  lemma IncrementAlwaysRejected(balls: int)
    requires 0 <= balls <= 1
    ensures IncrementRejected(balls)
    ensures IncrementRejectedIntended(balls) <==> balls == 1
  {
  }

  class AbstractBox {
    const kind: BoxKind
    const id: Int32
    var balls: Int32
    var maxBalls: Int32
    /** Meaningful for ColoredUniqueBall boxes only. */
    var color: Color

    /** The states the constructors and setters allow. */
    ghost predicate Valid()
      reads this
    {
      id >= 0 && balls >= 0 && maxBalls >= 0
      && (kind == ColoredUniqueBall ==> balls <= 1 && maxBalls <= 1)
    }

    constructor (kind: BoxKind, id: Int32, balls: Int32, color: Color)
      requires id >= 0 && balls >= 0
      requires kind == ColoredUniqueBall ==> balls <= 1
      ensures Valid()
      ensures this.kind == kind && this.id == id && this.balls == balls
      ensures this.maxBalls == 0 && this.color == color
    {
      this.kind := kind;
      this.id := id;
      this.balls := balls;
      this.maxBalls := 0;
      this.color := color;
    }

    /** `new ComputationBox(id, balls)`: the `AbstractBox` checks, id first. */
    static method NewComputationBox(id: Int32, balls: Int32) returns (r: Result<AbstractBox, Error>)
      ensures r.Success? <==> id >= 0 && balls >= 0
      ensures id < 0 ==> r == Failure(IllegalBoxId(INVALID_ID))
      ensures id >= 0 && balls < 0 ==> r == Failure(IllegalNumberOfBalls(INVALID_BALLS))
      ensures r.Success? ==> fresh(r.value) && r.value.Valid() && r.value.kind == Computation
                             && r.value.id == id && r.value.balls == balls && r.value.maxBalls == 0
    {
      if 0 > id {
        return Failure(IllegalBoxId(INVALID_ID));
      }
      if 0 > balls {
        return Failure(IllegalNumberOfBalls(INVALID_BALLS));
      }
      var box := new AbstractBox(Computation, id, balls, DEFAULT_COLOR);
      r := Success(box);
    }

    /** `new ComputationBox(id)`: no balls yet. */
    static method NewEmptyComputationBox(id: Int32) returns (r: Result<AbstractBox, Error>)
      ensures r.Success? <==> id >= 0
      ensures id < 0 ==> r == Failure(IllegalBoxId(INVALID_ID))
      ensures r.Success? ==> fresh(r.value) && r.value.Valid() && r.value.kind == Computation
                             && r.value.id == id && r.value.balls == 0 && r.value.maxBalls == 0
    {
      r := NewComputationBox(id, 0);
    }

    /** `new ColoredUniqueBallBox(id, balls, color)`; the two-argument
      * constructor passes GREEN. */
    static method NewColoredUniqueBallBox(id: Int32, balls: Int32, color: Color) returns (r: Result<AbstractBox, Error>)
      ensures r.Success? <==> 0 <= id && 0 <= balls <= 1
      ensures id < 0 ==> r == Failure(IllegalBoxId(INVALID_ID))
      ensures id >= 0 && balls < 0 ==> r == Failure(IllegalNumberOfBalls(INVALID_BALLS))
      ensures id >= 0 && balls > 1 ==> r == Failure(IllegalNumberOfBalls(TOO_MANY_BALLS))
      ensures r.Success? ==> fresh(r.value) && r.value.Valid() && r.value.kind == ColoredUniqueBall
                             && r.value.id == id && r.value.balls == balls && r.value.maxBalls == 0
                             && r.value.color == color
    {
      if 0 > id {
        return Failure(IllegalBoxId(INVALID_ID));
      }
      if 0 > balls {
        return Failure(IllegalNumberOfBalls(INVALID_BALLS));
      }
      if 1 < balls {
        return Failure(IllegalNumberOfBalls(TOO_MANY_BALLS));
      }
      var box := new AbstractBox(ColoredUniqueBall, id, balls, color);
      r := Success(box);
    }

    /** `new ColoredUniqueBallBox(id)`: empty and GREEN. */
    static method NewEmptyColoredUniqueBallBox(id: Int32) returns (r: Result<AbstractBox, Error>)
      ensures r.Success? <==> id >= 0
      ensures id < 0 ==> r == Failure(IllegalBoxId(INVALID_ID))
      ensures r.Success? ==> fresh(r.value) && r.value.Valid() && r.value.kind == ColoredUniqueBall
                             && r.value.id == id && r.value.balls == 0 && r.value.maxBalls == 0
                             && r.value.color == DEFAULT_COLOR
    {
      r := NewColoredUniqueBallBox(id, 0, DEFAULT_COLOR);
    }

    // ------------------------------------------------- AbstractBox (final)

    /** `setBallsBase`: negative counts are rejected. Callers in the
      * unique-ball subclass never pass more than one. */
    method SetBallsBase(b: Int32) returns (o: Outcome<Error>)
      requires Valid()
      requires kind == ColoredUniqueBall ==> b <= 1
      modifies this
      ensures Valid()
      ensures o.Pass? <==> b >= 0
      ensures o.Fail? ==> o.error == IllegalNumberOfBalls(SET_NEGATIVE_BALLS)
      ensures balls == (if b >= 0 then b else old(balls))
      ensures maxBalls == old(maxBalls) && color == old(color)
    {
      if 0 > b {
        return Fail(IllegalNumberOfBalls(SET_NEGATIVE_BALLS));
      }
      balls := b;
      o := Pass;
    }

    /** `incrementsBallsBase`: `Math.incrementExact`, which throws
      * `ArithmeticException` instead of wrapping past MAX_INT. */
    method IncrementsBallsBase() returns (o: Outcome<Error>)
      requires Valid()
      requires kind == ColoredUniqueBall ==> balls == 0
      modifies this
      ensures Valid()
      ensures o.Pass? <==> old(balls) < MAX_INT
      ensures o.Fail? ==> o.error == Arithmetic(INTEGER_OVERFLOW)
      ensures balls == (if o.Pass? then old(balls) + 1 else old(balls))
      ensures maxBalls == old(maxBalls) && color == old(color)
    {
      if balls == MAX_INT {
        return Fail(Arithmetic(INTEGER_OVERFLOW));
      }
      balls := balls + 1;
      o := Pass;
    }

    /** `decrementBalls`: one ball fewer, never below zero. */
    method DecrementBalls()
      requires Valid()
      modifies this
      ensures Valid()
      ensures balls == (if old(balls) > 0 then old(balls) - 1 else 0)
      ensures maxBalls == old(maxBalls) && color == old(color)
    {
      if 0 < balls {
        balls := balls - 1;
      }
    }

    /** `resetBalls`. */
    method ResetBalls()
      requires Valid()
      modifies this
      ensures Valid() && balls == 0
      ensures maxBalls == old(maxBalls) && color == old(color)
    {
      balls := 0;
    }

    /** `setMaximumBallsBase`: negative maxima are rejected. */
    method SetMaximumBallsBase(m: Int32) returns (o: Outcome<Error>)
      requires Valid()
      requires kind == ColoredUniqueBall ==> m <= 1
      modifies this
      ensures Valid()
      ensures o.Pass? <==> m >= 0
      ensures o.Fail? ==> o.error == IllegalNumberOfBalls(SET_NEGATIVE_MAX)
      ensures maxBalls == (if m >= 0 then m else old(maxBalls))
      ensures balls == old(balls) && color == old(color)
    {
      if 0 > m {
        return Fail(IllegalNumberOfBalls(SET_NEGATIVE_MAX));
      }
      maxBalls := m;
      o := Pass;
    }

    // ------------------------------------------------------ ComputationBox

    /** `ComputationBox.incrementsBalls`. */
    method ComputationIncrementsBalls() returns (o: Outcome<Error>)
      requires Valid() && kind == Computation
      modifies this
      ensures Valid()
      ensures o.Pass? <==> old(balls) < MAX_INT
      ensures balls == (if o.Pass? then old(balls) + 1 else old(balls))
      ensures maxBalls == old(maxBalls)
    {
      o := IncrementsBallsBase();
    }

    /** `ComputationBox.setBalls`. */
    method ComputationSetBalls(b: Int32) returns (o: Outcome<Error>)
      requires Valid() && kind == Computation
      modifies this
      ensures Valid()
      ensures o.Pass? <==> b >= 0
      ensures balls == (if b >= 0 then b else old(balls)) && maxBalls == old(maxBalls)
    {
      o := SetBallsBase(b);
    }

    /** `ComputationBox.setMaximumBalls`. */
    method ComputationSetMaximumBalls(m: Int32) returns (o: Outcome<Error>)
      requires Valid() && kind == Computation
      modifies this
      ensures Valid()
      ensures o.Pass? <==> m >= 0
      ensures maxBalls == (if m >= 0 then m else old(maxBalls)) && balls == old(balls)
    {
      o := SetMaximumBallsBase(m);
    }

    /** `ComputationBox.toString`. */
    function ComputationToString(): (s: string)
      reads this
      ensures |s| > 0 && s[0] == 'C'
    {
      COMPUTATION_HEAD + (IntToString(id) + (BALLS_FIELD + (IntToString(balls)
      + (MAX_BALLS_FIELD + (IntToString(maxBalls) + CLOSE)))))
    }

    // ------------------------------------------------ ColoredUniqueBallBox

    /** `ColoredUniqueBallBox.setBalls`: more than one ball is rejected
      * before the base check. */
    method ColoredSetBalls(b: Int32) returns (o: Outcome<Error>)
      requires Valid() && kind == ColoredUniqueBall
      modifies this
      ensures Valid()
      ensures o.Pass? <==> 0 <= b <= 1
      ensures b > 1 ==> o == Fail(IllegalNumberOfBalls(SET_TOO_MANY_BALLS))
      ensures b < 0 ==> o == Fail(IllegalNumberOfBalls(SET_NEGATIVE_BALLS))
      ensures balls == (if o.Pass? then b else old(balls))
      ensures maxBalls == old(maxBalls) && color == old(color)
    {
      if 1 < b {
        return Fail(IllegalNumberOfBalls(SET_TOO_MANY_BALLS));
      }
      o := SetBallsBase(b);
    }

    /** `ColoredUniqueBallBox.setMaximumBalls`. */
    method ColoredSetMaximumBalls(m: Int32) returns (o: Outcome<Error>)
      requires Valid() && kind == ColoredUniqueBall
      modifies this
      ensures Valid()
      ensures o.Pass? <==> 0 <= m <= 1
      ensures m > 1 ==> o == Fail(IllegalNumberOfBalls(SET_TOO_MANY_MAX))
      ensures m < 0 ==> o == Fail(IllegalNumberOfBalls(SET_NEGATIVE_MAX))
      ensures maxBalls == (if o.Pass? then m else old(maxBalls))
      ensures balls == old(balls) && color == old(color)
    {
      if 1 < m {
        return Fail(IllegalNumberOfBalls(SET_TOO_MANY_MAX));
      }
      o := SetMaximumBallsBase(m);
    }

    /** `ColoredUniqueBallBox.incrementsBalls` as written: the guard
      * `1 >= balls` holds for every count the box can have, so the call
      * always throws and the box never changes. */
    method ColoredIncrementsBalls() returns (o: Outcome<Error>)
      requires Valid() && kind == ColoredUniqueBall
      modifies this
      ensures o == Fail(IllegalNumberOfBalls(IncrementRejectedText(old(balls))))
      ensures balls == old(balls) && maxBalls == old(maxBalls) && color == old(color)
    {
      if IncrementRejected(balls) {
        return Fail(IllegalNumberOfBalls(IncrementRejectedText(balls)));
      }
      assert false;
    }

    /** `ColoredUniqueBallBox.incrementsBalls` with the documented guard:
      * an empty box receives its ball, a full one throws. */
    method ColoredIncrementsBallsIntended() returns (o: Outcome<Error>)
      requires Valid() && kind == ColoredUniqueBall
      modifies this
      ensures Valid()
      ensures o.Pass? <==> old(balls) == 0
      ensures o.Fail? ==> o.error == IllegalNumberOfBalls(IncrementRejectedText(old(balls)))
      ensures balls == 1 && maxBalls == old(maxBalls) && color == old(color)
    {
      if IncrementRejectedIntended(balls) {
        return Fail(IllegalNumberOfBalls(IncrementRejectedText(balls)));
      }
      o := IncrementsBallsBase();
    }

    /** `ColoredUniqueBallBox.setColor`. */
    method SetColor(c: Color)
      requires Valid() && kind == ColoredUniqueBall
      modifies this
      ensures Valid() && color == c
      ensures balls == old(balls) && maxBalls == old(maxBalls)
    {
      color := c;
    }

    /** `ColoredUniqueBallBox.containsBalls`: the box holds its ball. */
    predicate ContainsBalls()
      reads this
    {
      0 != balls
    }
  }

  /** The text of a `ComputationBox` names its id, its count and its
    * maximum: two boxes print alike exactly when they agree on all three. */
  lemma ComputationToStringNamesFields(a: AbstractBox, b: AbstractBox)
    ensures a.ComputationToString() == b.ComputationToString()
            <==> a.id == b.id && a.balls == b.balls && a.maxBalls == b.maxBalls
  {
    if a.ComputationToString() == b.ComputationToString() {
      var m1 := MAX_BALLS_FIELD + (IntToString(a.maxBalls) + CLOSE);
      var m2 := MAX_BALLS_FIELD + (IntToString(b.maxBalls) + CLOSE);
      var b1 := BALLS_FIELD + (IntToString(a.balls) + m1);
      var b2 := BALLS_FIELD + (IntToString(b.balls) + m2);
      PrefixCancel(COMPUTATION_HEAD, IntToString(a.id) + b1, IntToString(b.id) + b2);
      IntFieldsAgree(a.id, b.id, b1, b2);
      PrefixCancel(BALLS_FIELD, IntToString(a.balls) + m1, IntToString(b.balls) + m2);
      IntFieldsAgree(a.balls, b.balls, m1, m2);
      PrefixCancel(MAX_BALLS_FIELD, IntToString(a.maxBalls) + CLOSE, IntToString(b.maxBalls) + CLOSE);
      IntFieldsAgree(a.maxBalls, b.maxBalls, CLOSE, CLOSE);
    }
  }

  /** `containsBalls` of a unique-ball box: it holds its one ball. */
  lemma ContainsBallsIsFull(box: AbstractBox)
    requires box.Valid() && box.kind == ColoredUniqueBall
    ensures box.ContainsBalls() <==> box.balls == 1
    ensures !box.ContainsBalls() <==> box.balls == 0
  {
  }
}
