/** The view-side boxes: `Box` (first generation) and `CommonBaseBox` with
  * its subclass `OpenAddessingBox` (second generation). Only their ball
  * counts, ids and colours are modelled; their Swing text areas and panels
  * are not. */
module ViewBoxes {
  import opened Wrappers
  import opened JavaInt
  import opened Text
  import opened Errors
  import opened Colors

  const CANNOT_DECREMENTE: string := "Cannot decremente the number of balls. The number of balls must be over or equal to zero."
  const CANNOT_DECREASE: string := "Cannot decrease the number of balls. The number of balls must be over or equal to zero."
  const NEGATIVE_TARGET: string := "The number of balls must be over or equal to zero."

  // --------------------------------------------------- setBalls, as written

  /** The count `setBalls(t)` leaves in a box that held `b`. Its loops test
    * `i < t - balls` (or `i < balls - t`) against the count they are
    * changing, so each pass closes the gap by two and the loop stops
    * halfway: the count moves by the rounded-up half of the distance. */
  function HalfwayCount(b: int, t: int): int
  {
    if t == b then b
    else if t == 0 then 0
    else if t > b then b + (t - b + 1) / 2
    else b - (b - t + 1) / 2
  }

  /** `setBalls` reaches its target only when it is already there, is
    * zero, or is one ball away. */
  lemma HalfwayReachesTargetIff(b: int, t: int)
    requires b >= 0 && t >= 0
    ensures HalfwayCount(b, t) == t <==> (t == b || t == 0 || t == b + 1 || t == b - 1)
  {
  }

  /** The count always moves toward the target and never past it. */
  lemma HalfwayBetween(b: int, t: int)
    requires b >= 0 && t >= 0
    ensures t > b ==> b < HalfwayCount(b, t) <= t
    ensures 0 < t < b ==> t <= HalfwayCount(b, t) < b
  {
  }

  /** A box holding 0 balls asked for 4 ends with 2; a `CommonBaseBox`
    * holding 10 asked for 2 ends with 6. */
  lemma HalfwayExamples()
    ensures HalfwayCount(0, 4) == 2
    ensures HalfwayCount(10, 2) == 6
  {
  }

  // --------------------------------------------------------------- Box

  class Box {
    var balls: Int32

    ghost predicate Valid()
      reads this
    {
      balls >= 0
    }

    /** `new Box(balls)`. */
    constructor (balls: Int32)
      requires balls >= 0
      ensures Valid() && this.balls == balls
    {
      this.balls := balls;
    }

    /** `new Box()`: an empty box. */
    constructor Empty()
      ensures Valid() && balls == 0
    {
      balls := 0;
    }

    /** `incrementBalls(color)`: `Math.addExact`, so MAX_INT throws; the
      * colour is accepted and ignored. */
    method IncrementBalls(ballColor: Color) returns (o: Outcome<Error>)
      requires Valid()
      modifies this
      ensures Valid()
      ensures o.Pass? <==> old(balls) < MAX_INT
      ensures o.Fail? ==> o.error == Arithmetic(INTEGER_OVERFLOW)
      ensures balls == (if o.Pass? then old(balls) + 1 else old(balls))
    {
      if balls == MAX_INT {
        return Fail(Arithmetic(INTEGER_OVERFLOW));
      }
      balls := balls + 1;
      o := Pass;
    }

    /** `incrementBalls()`: with the default colour. */
    method IncrementBallsDefault() returns (o: Outcome<Error>)
      requires Valid()
      modifies this
      ensures Valid()
      ensures o.Pass? <==> old(balls) < MAX_INT
      ensures balls == (if o.Pass? then old(balls) + 1 else old(balls))
    {
      o := IncrementBalls(Green);
    }

    /** `decrementBalls` as written: an empty box throws. Otherwise the
      * count drops and then `ballsPanel.remove(balls - 1)` runs. Nothing
      * ever adds a component to `ballsPanel` (the `add` in
      * `incrementBalls` is commented out, and `clear` swaps in a new empty
      * panel), so that removal always throws
      * `ArrayIndexOutOfBoundsException`, after the count has changed. */
    method DecrementBalls() returns (o: Outcome<Error>)
      requires Valid()
      modifies this
      ensures Valid()
      ensures old(balls) == 0 ==> o == Fail(Runtime(CANNOT_DECREMENTE)) && balls == 0
      ensures old(balls) > 0 ==> o == Fail(ArrayIndexOutOfBounds(old(balls) - 2)) && balls == old(balls) - 1
    {
      if 0 >= balls {
        return Fail(Runtime(CANNOT_DECREMENTE));
      }
      balls := balls - 1;
      o := Fail(ArrayIndexOutOfBounds(balls - 1));
    }

    /** `decrementBalls` without the removal from the never-filled panel:
      * one ball fewer, and an empty box throws. */
    method DecrementBallsIntended() returns (o: Outcome<Error>)
      requires Valid()
      modifies this
      ensures Valid()
      ensures o.Pass? <==> old(balls) > 0
      ensures o.Fail? ==> o.error == Runtime(CANNOT_DECREMENTE)
      ensures balls == (if o.Pass? then old(balls) - 1 else old(balls))
    {
      if 0 >= balls {
        return Fail(Runtime(CANNOT_DECREMENTE));
      }
      balls := balls - 1;
      o := Pass;
    }

    /** `clear`. */
    method Clear()
      requires Valid()
      modifies this
      ensures Valid() && balls == 0
    {
      if 0 != balls {
        balls := 0;
      }
    }

    /** `setBalls(t)` as written: a negative target throws. Upwards the
      * count ends at `HalfwayCount`, because the loop bound is re-read as
      * the count grows, and no increment can overflow. Downwards to a
      * positive target, the first `decrementBalls` throws after taking one
      * ball off. */
    method SetBalls(t: Int32) returns (o: Outcome<Error>)
      requires Valid()
      modifies this
      ensures Valid()
      ensures o.Pass? <==> t >= 0 && !(0 < t < old(balls))
      ensures t < 0 ==> o == Fail(IllegalArgument(NEGATIVE_TARGET)) && balls == old(balls)
      ensures 0 < t < old(balls) ==> o == Fail(ArrayIndexOutOfBounds(old(balls) - 2)) && balls == old(balls) - 1
      ensures o.Pass? ==> balls == HalfwayCount(old(balls), t)
    {
      if 0 > t {
        return Fail(IllegalArgument(NEGATIVE_TARGET));
      }
      o := Pass;
      if t != balls {
        if 0 == t {
          Clear();
        } else if t > balls {
          var i := 0;
          while i < t - balls
            invariant Valid()
            invariant 0 <= i && balls == old(balls) + i && balls <= t
            invariant 2 * i <= t - old(balls) + 1
            decreases t - balls - i
          {
            var step := IncrementBallsDefault();
            assert step.Pass?;
            i := i + 1;
          }
        } else {
          // The loop's test `i < balls - t` holds on entry, and its first
          // `decrementBalls` throws, which ends the loop.
          o := DecrementBalls();
        }
      }
    }

    /** `setBalls(t)` with the distance taken once before the loop and the
      * corrected `decrementBalls`: the box ends with exactly `t` balls. */
    method SetBallsIntended(t: Int32) returns (o: Outcome<Error>)
      requires Valid()
      modifies this
      ensures Valid()
      ensures o.Pass? <==> t >= 0
      ensures o.Fail? ==> o.error == IllegalArgument(NEGATIVE_TARGET) && balls == old(balls)
      ensures o.Pass? ==> balls == t
    {
      if 0 > t {
        return Fail(IllegalArgument(NEGATIVE_TARGET));
      }
      o := Pass;
      if t != balls {
        if 0 == t {
          Clear();
        } else if t > balls {
          var missing := t - balls;
          for i := 0 to missing
            invariant Valid() && balls == old(balls) + i
          {
            var step := IncrementBallsDefault();
            assert step.Pass?;
          }
        } else {
          var surplus := balls - t;
          for i := 0 to surplus
            invariant Valid() && balls == old(balls) - i
          {
            var step := DecrementBallsIntended();
            assert step.Pass?;
          }
        }
      }
    }

    /** `toString`: "Box{balls=…}". */
    function ToString(): string
      reads this
    {
      BOX_HEAD + (IntToString(balls) + BOX_CLOSE)
    }
  }

  const BOX_HEAD: string := "Box{balls="
  const BOX_CLOSE: string := "}"

  /** The text of a box names its count: two boxes print alike exactly
    * when they hold the same number of balls. */
  lemma BoxToStringNamesBalls(a: Box, b: Box)
    ensures a.ToString() == b.ToString() <==> a.balls == b.balls
  {
    if a.ToString() == b.ToString() {
      PrefixCancel(BOX_HEAD, IntToString(a.balls) + BOX_CLOSE, IntToString(b.balls) + BOX_CLOSE);
      IntFieldsAgree(a.balls, b.balls, BOX_CLOSE, BOX_CLOSE);
    }
  }

  // ------------------------------------------------------- CommonBaseBox

  const INVALID_ID: string :=
    "Cannot create a box with an ID less than 0. Please give an ID greater or equal to 0."
  const INVALID_BALLS: string :=
    "Cannot create a NumberBox with a number less than 0. Please give a number greater or equal to 0."

  class CommonBaseBox {
    const id: Int32
    var balls: Int32
    var color: Color

    ghost predicate Valid()
      reads this
    {
      id >= 0 && balls >= 0
    }

    constructor (id: Int32, balls: Int32, color: Color)
      requires id >= 0 && balls >= 0
      ensures Valid() && this.id == id && this.balls == balls && this.color == color
    {
      this.id := id;
      this.balls := balls;
      this.color := color;
    }

    /** The numeric constructor `CommonBaseBox(id, balls)`: GREEN. */
    static method NewNumeric(id: Int32, balls: Int32) returns (r: Result<CommonBaseBox, Error>)
      ensures r.Success? <==> id >= 0 && balls >= 0
      ensures id < 0 ==> r == Failure(IllegalBoxId(INVALID_ID))
      ensures id >= 0 && balls < 0 ==> r == Failure(IllegalNumberOfBalls(INVALID_BALLS))
      ensures r.Success? ==> fresh(r.value) && r.value.Valid() && r.value.id == id
                             && r.value.balls == balls && r.value.color == Green
    {
      if 0 > id {
        return Failure(IllegalBoxId(INVALID_ID));
      }
      if 0 > balls {
        return Failure(IllegalNumberOfBalls(INVALID_BALLS));
      }
      var box := new CommonBaseBox(id, balls, Green);
      r := Success(box);
    }

    /** The colour constructor `CommonBaseBox(id, filled, color)`: one ball
      * when filled, none otherwise. */
    static method NewColored(id: Int32, filled: bool, color: Color) returns (r: Result<CommonBaseBox, Error>)
      ensures r.Success? <==> id >= 0
      ensures id < 0 ==> r == Failure(IllegalBoxId(INVALID_ID))
      ensures r.Success? ==> fresh(r.value) && r.value.Valid() && r.value.id == id
                             && r.value.balls == (if filled then 1 else 0) && r.value.color == color
    {
      if 0 > id {
        return Failure(IllegalBoxId(INVALID_ID));
      }
      var box := new CommonBaseBox(id, if filled then 1 else 0, color);
      r := Success(box);
    }

    /** `incrementsBalls`: `Math.addExact`. */
    method IncrementsBalls() returns (o: Outcome<Error>)
      requires Valid()
      modifies this
      ensures Valid()
      ensures o.Pass? <==> old(balls) < MAX_INT
      ensures o.Fail? ==> o.error == Arithmetic(INTEGER_OVERFLOW)
      ensures balls == (if o.Pass? then old(balls) + 1 else old(balls)) && color == old(color)
    {
      if balls == MAX_INT {
        return Fail(Arithmetic(INTEGER_OVERFLOW));
      }
      balls := balls + 1;
      o := Pass;
    }

    /** `decrementBalls`: an empty box throws. */
    method DecrementBalls() returns (o: Outcome<Error>)
      requires Valid()
      modifies this
      ensures Valid()
      ensures o.Pass? <==> old(balls) > 0
      ensures o.Fail? ==> o.error == Runtime(
        CANNOT_DECREASE)
      ensures balls == (if o.Pass? then old(balls) - 1 else old(balls)) && color == old(color)
    {
      if 0 >= balls {
        return Fail(Runtime(CANNOT_DECREASE));
      }
      balls := balls - 1;
      o := Pass;
    }

    /** `clear`. */
    method Clear()
      requires Valid()
      modifies this
      ensures Valid() && balls == 0 && color == old(color)
    {
      if 0 != balls {
        balls := 0;
      }
    }

    /** `setBalls(t)` as written: the same halfway loops as `Box.setBalls`. */
    method SetBalls(t: Int32) returns (o: Outcome<Error>)
      requires Valid()
      modifies this
      ensures Valid() && color == old(color)
      ensures o.Pass? <==> t >= 0
      ensures o.Fail? ==> o.error == IllegalArgument(NEGATIVE_TARGET) && balls == old(balls)
      ensures o.Pass? ==> balls == HalfwayCount(old(balls), t)
    {
      if 0 > t {
        return Fail(IllegalArgument(NEGATIVE_TARGET));
      }
      o := Pass;
      if t != balls {
        if 0 == t {
          Clear();
        } else if t > balls {
          var i := 0;
          while i < t - balls
            invariant Valid() && color == old(color)
            invariant 0 <= i && balls == old(balls) + i && balls <= t
            invariant 2 * i <= t - old(balls) + 1
            decreases t - balls - i
          {
            var step := IncrementsBalls();
            assert step.Pass?;
            i := i + 1;
          }
        } else {
          var i := 0;
          while i < balls - t
            invariant Valid() && color == old(color)
            invariant 0 <= i && balls == old(balls) - i && balls >= t
            invariant 2 * i <= old(balls) - t + 1
            decreases balls - t - i
          {
            var step := DecrementBalls();
            assert step.Pass?;
            i := i + 1;
          }
        }
      }
    }

    /** `getColor`. */
    function GetColor(): Color
      reads this
    {
      color
    }

    /** `setColor` as written: it rewrites the ball's text and never assigns
      * the colour, so `getColor` keeps answering the constructor's colour. */
    method SetColor(c: Color)
      requires Valid()
      modifies this
      ensures Valid() && balls == old(balls) && color == old(color)
    {
    }

    /** `setColor` storing the colour it is given. */
    method SetColorIntended(c: Color)
      requires Valid()
      modifies this
      ensures Valid() && balls == old(balls) && color == c
    {
      color := c;
    }
  }

  /** A GREEN box told to turn RED still reports GREEN. */
  method SetColorIsLost() returns (reported: Color)
    ensures reported == Green
  {
    var box := new CommonBaseBox(0, 1, Green);
    box.SetColor(Red);
    reported := box.GetColor();
  }

  /** The same box with the intended setter reports RED. */
  method SetColorIntendedIsKept() returns (reported: Color)
    ensures reported == Red
  {
    var box := new CommonBaseBox(0, 1, Green);
    box.SetColorIntended(Red);
    reported := box.GetColor();
  }

  // ---------------------------------------------------- OpenAddessingBox

  /** `OpenAddessingBox`: a `CommonBaseBox` whose increment also sets the
    * colour of the new ball. */
  class OpenAddessingBox {
    const base: CommonBaseBox

    ghost predicate Valid()
      reads this, base
    {
      base.Valid()
    }

    constructor (base: CommonBaseBox)
      requires base.Valid()
      ensures Valid() && this.base == base
    {
      this.base := base;
    }

    /** `new OpenAddessingBox(id, filled, color)`. */
    static method New(id: Int32, filled: bool, color: Color) returns (r: Result<OpenAddessingBox, Error>)
      ensures r.Success? <==> id >= 0
      ensures id < 0 ==> r == Failure(IllegalBoxId(INVALID_ID))
      ensures r.Success? ==> fresh(r.value) && fresh(r.value.base) && r.value.Valid()
                             && r.value.base.id == id && r.value.base.balls == (if filled then 1 else 0)
                             && r.value.GetColor() == color
    {
      var made := CommonBaseBox.NewColored(id, filled, color);
      if made.Failure? {
        return Failure(made.error);
      }
      var box := new OpenAddessingBox(made.value);
      r := Success(box);
    }

    /** `new OpenAddessingBox(id, filled)`: GREEN. */
    static method NewDefault(id: Int32, filled: bool) returns (r: Result<OpenAddessingBox, Error>)
      ensures r.Success? <==> id >= 0
      ensures r.Success? ==> fresh(r.value) && fresh(r.value.base) && r.value.Valid()
                             && r.value.base.id == id && r.value.base.balls == (if filled then 1 else 0)
                             && r.value.GetColor() == Green
    {
      r := New(id, filled, Green);
    }

    /** `incrementsBalls(color)`: one more ball; because `setColor` drops
      * its argument, the reported colour stays what it was. */
    method IncrementsBalls(c: Color) returns (o: Outcome<Error>)
      requires Valid()
      modifies base
      ensures Valid()
      ensures o.Pass? <==> old(base.balls) < MAX_INT
      ensures base.balls == (if o.Pass? then old(base.balls) + 1 else old(base.balls))
      ensures GetColor() == old(GetColor())
    {
      o := base.IncrementsBalls();
      if o.Fail? {
        return;
      }
      base.SetColor(c);
    }

    /** `incrementsBalls()`: with GREEN. */
    method IncrementsBallsDefault() returns (o: Outcome<Error>)
      requires Valid()
      modifies base
      ensures Valid()
      ensures o.Pass? <==> old(base.balls) < MAX_INT
      ensures base.balls == (if o.Pass? then old(base.balls) + 1 else old(base.balls))
      ensures GetColor() == old(GetColor())
    {
      o := IncrementsBalls(Green);
    }

    /** `getColor`. */
    function GetColor(): Color
      reads this, base
    {
      base.color
    }
  }
}
