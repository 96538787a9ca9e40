/** The rows of box objects a run fills: their ball counts read as a
  * sequence, and the loops that build them. A row holds distinct objects,
  * so updating one box leaves the counts of the others alone. */
module BoxRows {
  import opened Wrappers
  import opened JavaInt
  import opened Errors
  import opened Colors
  import opened Runs
  import opened ViewBoxes
  import opened ComputedBoxes
  import opened DomainObjects

  // ------------------------------------------------------ first generation

  predicate DistinctBoxes(bs: seq<Box>)
  {
    forall i, j :: 0 <= i < j < |bs| ==> bs[i] != bs[j]
  }

  /** The ball counts of a row of view boxes. */
  function Counts(bs: seq<Box>): seq<int>
    reads bs
  {
    seq(|bs|, i reads bs requires 0 <= i < |bs| => bs[i].balls)
  }

  ghost predicate ValidRow(bs: seq<Box>)
    reads bs
  {
    DistinctBoxes(bs) && forall i :: 0 <= i < |bs| ==> bs[i].Valid()
  }

  /** The loop `for i < boxesSize: boxes.add(new Box(0))`. */
  method NewRow(n: nat) returns (bs: seq<Box>)
    ensures |bs| == n && ValidRow(bs) && Counts(bs) == Zeros(n)
    ensures forall i :: 0 <= i < n ==> fresh(bs[i])
  {
    bs := [];
    while |bs| < n
      invariant |bs| <= n && ValidRow(bs)
      invariant forall i :: 0 <= i < |bs| ==> fresh(bs[i]) && bs[i].balls == 0
    {
      var b := new Box(0);
      bs := bs + [b];
    }
  }

  /** `boxes.get(k).incrementBalls(color)`, or `incrementBalls()` when no
    * colour is passed: box `k` gains a ball and no other box changes. */
  method IncrementAt(bs: seq<Box>, k: int, color: Option<Color>)
    requires ValidRow(bs) && 0 <= k < |bs| && bs[k].balls < MAX_INT
    modifies bs[k]
    ensures ValidRow(bs) && Counts(bs) == old(Counts(bs))[k := old(bs[k].balls) + 1]
    ensures bs[k].balls == old(Counts(bs))[k] + 1
  {
    ghost var before := Counts(bs);
    var o;
    if color.Some? {
      o := bs[k].IncrementBalls(color.value);
    } else {
      o := bs[k].IncrementBallsDefault();
    }
    assert forall j :: 0 <= j < |bs| && j != k ==> bs[j] != bs[k];
  }

  predicate DistinctComputed(bs: seq<ComputedBox>)
  {
    forall i, j :: 0 <= i < j < |bs| ==> bs[i] != bs[j]
  }

  function ComputedCounts(bs: seq<ComputedBox>): seq<int>
    reads bs
  {
    seq(|bs|, i reads bs requires 0 <= i < |bs| => bs[i].balls)
  }

  /** The `original` flags of a row of computed boxes. */
  function Originals(bs: seq<ComputedBox>): seq<bool>
    reads bs
  {
    seq(|bs|, i reads bs requires 0 <= i < |bs| => bs[i].original)
  }

  /** The loop `for i < boxesSize: boxes.add(new ComputedBox(i, 0, true, false))`. */
  method NewComputedRow(n: Int32) returns (bs: seq<ComputedBox>)
    requires n >= 0
    ensures |bs| == n && DistinctComputed(bs)
    ensures ComputedCounts(bs) == Zeros(n) && Originals(bs) == seq(n, _ => false)
    ensures forall i :: 0 <= i < n ==> fresh(bs[i]) && bs[i].id == i && bs[i].colored
  {
    bs := [];
    while |bs| < n
      invariant |bs| <= n && DistinctComputed(bs)
      invariant forall i :: 0 <= i < |bs| ==> fresh(bs[i]) && bs[i].balls == 0 && !bs[i].original
      invariant forall i :: 0 <= i < |bs| ==> bs[i].id == i && bs[i].colored
    {
      var b := new ComputedBox(|bs|, 0, true, false);
      bs := bs + [b];
    }
  }

  /** `boxes.get(k).setFirstBox(original)` then `incrementsBalls()`: box
    * `k` gains a ball and records `original`; no other box changes. */
  method PlaceAt(bs: seq<ComputedBox>, k: int, original: bool)
    requires DistinctComputed(bs) && 0 <= k < |bs| && bs[k].balls < MAX_INT
    modifies bs[k]
    ensures ComputedCounts(bs) == old(ComputedCounts(bs))[k := old(bs[k].balls) + 1]
    ensures Originals(bs) == old(Originals(bs))[k := original]
    ensures bs[k].balls == old(ComputedCounts(bs))[k] + 1
  {
    bs[k].SetFirstBox(original);
    bs[k].IncrementsBalls();
    assert forall j :: 0 <= j < |bs| && j != k ==> bs[j] != bs[k];
  }

  // ----------------------------------------------------- second generation

  predicate DistinctAbstract(bs: seq<AbstractBox>)
  {
    forall i, j :: 0 <= i < j < |bs| ==> bs[i] != bs[j]
  }

  function BoxCounts(bs: seq<AbstractBox>): seq<int>
    reads bs
  {
    seq(|bs|, i reads bs requires 0 <= i < |bs| => bs[i].balls)
  }

  function BoxColors(bs: seq<AbstractBox>): seq<Color>
    reads bs
  {
    seq(|bs|, i reads bs requires 0 <= i < |bs| => bs[i].color)
  }

  /** A row of valid boxes of one kind, the `i`-th with id `i`. */
  ghost predicate KindRow(bs: seq<AbstractBox>, kind: BoxKind)
    reads bs
  {
    DistinctAbstract(bs)
    && forall i :: 0 <= i < |bs| ==> bs[i].Valid() && bs[i].kind == kind && bs[i].id == i
  }

  /** The constructor loop of the second-generation workers:
    * `boxes.add(new ComputationBox(i, 0))` or
    * `boxes.add(new ColoredUniqueBallBox(i, 0))` for every `i < boxesSize`. */
  method NewBoxRow(n: Int32, kind: BoxKind) returns (bs: seq<AbstractBox>)
    requires n >= 0
    ensures |bs| == n && KindRow(bs, kind)
    ensures BoxCounts(bs) == Zeros(n)
    ensures kind == ColoredUniqueBall ==> BoxColors(bs) == Greens(n)
    ensures forall i :: 0 <= i < n ==> fresh(bs[i]) && bs[i].maxBalls == 0
  {
    bs := [];
    while |bs| < n
      invariant |bs| <= n && KindRow(bs, kind)
      invariant forall i :: 0 <= i < |bs| ==> fresh(bs[i]) && bs[i].balls == 0 && bs[i].maxBalls == 0
      invariant kind == ColoredUniqueBall ==> forall i :: 0 <= i < |bs| ==> bs[i].color == Green
    {
      var r: Result<AbstractBox, Error>;
      if kind == Computation {
        r := AbstractBox.NewEmptyComputationBox(|bs|);
      } else {
        r := AbstractBox.NewEmptyColoredUniqueBallBox(|bs|);
      }
      var b := r.value;
      bs := bs + [b];
    }
  }
}
