/** `ComputedBox`, the box of the first-generation quadratic worker: a
  * count of balls, whether the box is coloured, and whether its ball landed
  * at the first index drawn. Nothing is validated and the count is a plain
  * Java `int`, so `++` and `--` wrap around. */
module ComputedBoxes {
  import opened JavaInt
  import opened Text

  function BoolToString(b: bool): string { if b then "true" else "false" }

  const COMPUTED_HEAD: string := "ComputedBox{colored="
  const ID_SEP: string := ", id="
  const ORIGINAL_SEP: string := ", original="
  const BALLS_SEP: string := ", balls="
  const CLOSE: string := "}"

  /** A printed boolean followed by more text can be read back. */
  lemma BoolFieldsAgree(x: bool, y: bool, r1: string, r2: string)
    requires BoolToString(x) + r1 == BoolToString(y) + r2
    ensures x == y && r1 == r2
  {
    // "true" and "false" differ in their first character.
    assert (BoolToString(x) + r1)[0] == if x then 't' else 'f';
    assert (BoolToString(y) + r2)[0] == if y then 't' else 'f';
    PrefixCancel(BoolToString(x), r1, r2);
  }

  class ComputedBox {
    const colored: bool
    const id: Int32
    var original: bool
    var balls: Int32

    constructor (id: Int32, balls: Int32, colored: bool, originalDraw: bool)
      ensures this.id == id && this.balls == balls
      ensures this.colored == colored && this.original == originalDraw
    {
      this.id := id;
      this.balls := balls;
      this.colored := colored;
      this.original := originalDraw;
    }

    /** `setFirstBox`. */
    method SetFirstBox(original: bool)
      modifies this
      ensures this.original == original && balls == old(balls)
    {
      this.original := original;
    }

    /** `setBalls`: any value, negative ones included. */
    method SetBalls(b: Int32)
      modifies this
      ensures balls == b && original == old(original)
    {
      balls := b;
    }

    /** `clear`. */
    method Clear()
      modifies this
      ensures balls == 0 && original == old(original)
    {
      balls := 0;
    }

    /** `incrementsBalls`: `balls++` in 32-bit arithmetic, so MAX_INT
      * becomes MIN_INT. */
    method IncrementsBalls()
      modifies this
      ensures old(balls) < MAX_INT ==> balls == old(balls) + 1
      ensures old(balls) == MAX_INT ==> balls == MIN_INT
      ensures original == old(original)
    {
      balls := Wrap(balls + 1);
    }

    /** `decrementBalls`: `balls--`, with no lower bound, so MIN_INT
      * becomes MAX_INT. */
    method DecrementBalls()
      modifies this
      ensures old(balls) > MIN_INT ==> balls == old(balls) - 1
      ensures old(balls) == MIN_INT ==> balls == MAX_INT
      ensures original == old(original)
    {
      balls := Wrap(balls - 1);
    }

    /** `toString`: "ComputedBox{colored=…, id=…, original=…, balls=…}". */
    function ToString(): string
      reads this
    {
      COMPUTED_HEAD + (BoolToString(colored) + (ID_SEP + (IntToString(id)
      + (ORIGINAL_SEP + (BoolToString(original) + (BALLS_SEP + (IntToString(balls) + CLOSE)))))))
    }
  }

  /** The text of a computed box names all four of its fields: two boxes
    * print alike exactly when they agree on all of them. */
  lemma ComputedBoxToStringNamesFields(a: ComputedBox, b: ComputedBox)
    ensures a.ToString() == b.ToString()
            <==> a.colored == b.colored && a.id == b.id && a.original == b.original && a.balls == b.balls
  {
    if a.ToString() == b.ToString() {
      var t1 := BALLS_SEP + (IntToString(a.balls) + CLOSE);
      var t2 := BALLS_SEP + (IntToString(b.balls) + CLOSE);
      var o1 := ORIGINAL_SEP + (BoolToString(a.original) + t1);
      var o2 := ORIGINAL_SEP + (BoolToString(b.original) + t2);
      var i1 := ID_SEP + (IntToString(a.id) + o1);
      var i2 := ID_SEP + (IntToString(b.id) + o2);
      PrefixCancel(COMPUTED_HEAD, BoolToString(a.colored) + i1, BoolToString(b.colored) + i2);
      BoolFieldsAgree(a.colored, b.colored, i1, i2);
      PrefixCancel(ID_SEP, IntToString(a.id) + o1, IntToString(b.id) + o2);
      IntFieldsAgree(a.id, b.id, o1, o2);
      PrefixCancel(ORIGINAL_SEP, BoolToString(a.original) + t1, BoolToString(b.original) + t2);
      BoolFieldsAgree(a.original, b.original, t1, t2);
      PrefixCancel(BALLS_SEP, IntToString(a.balls) + CLOSE, IntToString(b.balls) + CLOSE);
      IntFieldsAgree(a.balls, b.balls, CLOSE, CLOSE);
    }
  }
}
