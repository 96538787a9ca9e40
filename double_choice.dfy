/** The second-generation `DoubleChoiceHashFunctionWorker`: each draw
  * picks two boxes and puts its ball into the less filled of them (the
  * first on a tie) and publishes the running summary; a run that is not
  * cancelled then gives every box the largest count as its maximum and
  * keeps the final summary in `finalInformation`. */
module DoubleChoiceWorker {
  import opened Wrappers
  import opened JavaInt
  import opened Errors
  import opened Bounds
  import opened Runs
  import opened Tracking
  import opened Results
  import opened WorkerSetup
  import opened Allocation
  import opened DomainObjects
  import opened BoxRows
  import opened SecondGeneration

  /** `boxes.get(k).incrementsBalls()` on a row of ComputationBoxes, where
    * box `k` is below the int limit so the increment cannot overflow. */
  method IncrementComputationBox(bs: seq<AbstractBox>, k: int)
    requires KindRow(bs, Computation) && 0 <= k < |bs| && bs[k].balls < MAX_INT
    modifies bs[k]
    ensures KindRow(bs, Computation)
    ensures BoxCounts(bs) == old(BoxCounts(bs))[k := old(BoxCounts(bs))[k] + 1]
    ensures forall j :: 0 <= j < |bs| ==> bs[j].maxBalls == old(bs[j].maxBalls)
  {
    var o := bs[k].ComputationIncrementsBalls();
  }

  /** `for (final var box : boxes) box.setMaximumBalls(m)`: every box
    * learns `m`, no count changes. */
  method SetMaximumAll(bs: seq<AbstractBox>, m: Int32)
    requires KindRow(bs, Computation) && m >= 0
    modifies bs
    ensures KindRow(bs, Computation) && BoxCounts(bs) == old(BoxCounts(bs))
    ensures forall j :: 0 <= j < |bs| ==> bs[j].maxBalls == m
  {
    var k := 0;
    while k < |bs|
      invariant 0 <= k <= |bs| && KindRow(bs, Computation)
      invariant forall j :: 0 <= j < |bs| ==> bs[j].balls == old(bs[j].balls)
      invariant forall j :: 0 <= j < k ==> bs[j].maxBalls == m
    {
      var o := bs[k].ComputationSetMaximumBalls(m);
      k := k + 1;
    }
  }

  /** The chunk draw `j` publishes: the summary of the counts after it,
    * and the box that received its ball. */
  function Chunk(bs: seq<AbstractBox>, rand: seq<int>, j: nat): HashFunctionIntermediaryResult<AbstractBox>
    requires 2 * j + 2 <= |rand| && IndexesIn(rand, |bs|)
  {
    HashFunctionIntermediaryResult(BoxInformation(DoubleChoiceCounts(|bs|, rand, j + 1)),
                                   bs[DoubleChoiceSlot(|bs|, rand, j)])
  }

  /** The chunks published by the first `k` draws, in order. */
  predicate PublishedChunks(bs: seq<AbstractBox>, rand: seq<int>,
                            published: seq<HashFunctionIntermediaryResult<AbstractBox>>, k: nat)
    requires 2 * k <= |rand| && IndexesIn(rand, |bs|)
  {
    |published| == k && forall j {:trigger Chunk(bs, rand, j)} :: 0 <= j < k ==> published[j] == Chunk(bs, rand, j)
  }

  /** One more draw adds its chunk at the end. */
  lemma PublishedChunksGrow(bs: seq<AbstractBox>, rand: seq<int>,
                            published: seq<HashFunctionIntermediaryResult<AbstractBox>>, k: nat,
                            chunk: HashFunctionIntermediaryResult<AbstractBox>)
    requires 2 * k + 2 <= |rand| && IndexesIn(rand, |bs|)
    requires PublishedChunks(bs, rand, published, k)
    requires chunk == Chunk(bs, rand, k)
    ensures PublishedChunks(bs, rand, published + [chunk], k + 1)
  {
    var p := published + [chunk];
    forall j | 0 <= j < k + 1
      ensures p[j] == Chunk(bs, rand, j)
    {
      if j < k {
        assert p[j] == published[j];
      }
    }
  }

  /** Draw `i` adds one ball to a box holding at most `i`, so below the
    * int limit, and every count stays non-negative. */
  lemma DrawStep(n: nat, rand: seq<int>, i: nat, c: seq<int>, k: int)
    requires 2 * i + 2 <= |rand| && IndexesIn(rand, n) && i < MAX_INT
    requires c == DoubleChoiceCounts(n, rand, i) && k == DoubleChoiceSlot(n, rand, i)
    ensures 0 <= k < |c| && 0 <= c[k] < MAX_INT
    ensures DoubleChoiceCounts(n, rand, i + 1) == c[k := c[k] + 1]
    ensures forall j :: 0 <= j < |c| ==> c[j] >= 0
  {
    DoubleChoiceSum(n, rand, i);
  }

  /** The end of a run that was not cancelled: every box learns the
    * largest count, and `generateInformation` gives the summary. */
  method SetMaxima(bs: seq<AbstractBox>, ghost counts: seq<int>, maxBalls: int, indexes: seq<int>)
    returns (information: string)
    requires KindRow(bs, Computation) && BoxCounts(bs) == counts
    requires forall k :: 0 <= k < |counts| ==> 0 <= counts[k] <= MAX_INT
    requires TracksMaximum(counts, Tracker(maxBalls, indexes))
    modifies bs
    ensures KindRow(bs, Computation) && BoxCounts(bs) == counts
    ensures information == BoxInformation(counts)
    ensures forall k :: 0 <= k < |bs| ==> bs[k].maxBalls == MostFilled(counts).maxBalls
  {
    FinalTracker(counts, Tracker(maxBalls, indexes));
    SetMaximumAll(bs, maxBalls);
    information := GenerateInformation(maxBalls, indexes);
  }

  class DoubleChoiceHashFunctionWorker {
    const boxes: seq<AbstractBox>
    const draws: nat
    /** Null until a run completes. */
    var finalInformation: Option<string>

    ghost predicate Valid()
      reads boxes
    {
      1 <= draws <= |boxes| <= MAX_INT && KindRow(boxes, Computation)
    }

    /** The public constructor once its draw check has passed: one empty
      * ComputationBox per index. */
    constructor (w: Worker)
      requires w.Valid()
      ensures Valid() && |boxes| == w.boxes && draws == w.draws && finalInformation.None?
      ensures BoxCounts(boxes) == Zeros(w.boxes)
      ensures forall k :: 0 <= k < |boxes| ==> fresh(boxes[k]) && boxes[k].maxBalls == 0
    {
      ValidWorkerDraws(w);
      var bs := NewBoxRow(w.boxes, Computation);
      boxes := bs;
      draws := w.draws;
      finalInformation := None;
    }

    /** The public constructor: a draw count outside the worker's
      * `DrawsRange` throws the draws error of every worker. */
    static method New(boxes: NumberOfBoxes, draws: Int32) returns (r: Result<DoubleChoiceHashFunctionWorker, Error>)
      ensures r.Success? <==> boxes / 2 <= draws <= boxes
      ensures r.Failure? ==> r.error == NewWorker(boxes, draws).error
      ensures r.Success? ==>
                && fresh(r.value) && r.value.Valid() && r.value.finalInformation.None?
                && |r.value.boxes| == boxes && r.value.draws == draws
                && BoxCounts(r.value.boxes) == Zeros(boxes)
                && forall k :: 0 <= k < boxes ==> fresh(r.value.boxes[k]) && r.value.boxes[k].maxBalls == 0
    {
      var w := NewWorker(boxes, draws);
      if w.Failure? {
        return Failure(w.error);
      }
      var x := new DoubleChoiceHashFunctionWorker(w.value);
      r := Success(x);
    }

    /** The choice between the two computed boxes `rand[2i]` and
      * `rand[2i+1]`: the second only when it is a different box holding
      * fewer balls. */
    method ChooseBox(rand: seq<int>, i: nat) returns (indexBox: int)
      requires Valid() && 2 * i + 2 <= |rand| && IndexesIn(rand, |boxes|)
      requires BoxCounts(boxes) == DoubleChoiceCounts(|boxes|, rand, i)
      ensures indexBox == DoubleChoiceSlot(|boxes|, rand, i)
    {
      var indexBox1 := rand[2 * i];
      var indexBox2 := rand[2 * i + 1];
      assert boxes[indexBox1].balls == BoxCounts(boxes)[indexBox1];
      assert boxes[indexBox2].balls == BoxCounts(boxes)[indexBox2];
      indexBox := indexBox1;
      if indexBox1 != indexBox2 && boxes[indexBox1].balls > boxes[indexBox2].balls {
        indexBox := indexBox2;
      }
    }

    /** `incrementsBalls()` on the chosen box, then the tracker update. */
    method PlaceBall(ghost counts: seq<int>, indexBox: int, maxBalls: int, indexes: seq<int>)
      returns (maxBalls': int, indexes': seq<int>)
      requires Valid() && BoxCounts(boxes) == counts
      requires 0 <= indexBox < |counts| && 0 <= counts[indexBox] < MAX_INT
      requires TracksMaximum(counts, Tracker(maxBalls, indexes))
      modifies boxes
      ensures Valid() && BoxCounts(boxes) == counts[indexBox := counts[indexBox] + 1]
      ensures TracksMaximum(BoxCounts(boxes), Tracker(maxBalls', indexes'))
      ensures forall k :: 0 <= k < |boxes| ==> boxes[k].maxBalls == old(boxes[k].maxBalls)
    {
      assert boxes[indexBox].balls == counts[indexBox];
      IncrementComputationBox(boxes, indexBox);
      var balls := boxes[indexBox].balls;
      assert balls == BoxCounts(boxes)[indexBox];
      maxBalls', indexes' := ObserveBall(counts, maxBalls, indexes, indexBox, balls);
    }

    /** The body of the draw loop: the two computed boxes, the choice of
      * the less filled, its increment, the tracker update and the
      * published chunk. */
    method Draw(rand: seq<int>, i: nat, maxBalls: int, indexes: seq<int>)
      returns (maxBalls': int, indexes': seq<int>, chunk: HashFunctionIntermediaryResult<AbstractBox>)
      requires Valid() && i < draws && 2 * draws <= |rand| && IndexesIn(rand, |boxes|)
      requires BoxCounts(boxes) == DoubleChoiceCounts(|boxes|, rand, i)
      requires TracksMaximum(BoxCounts(boxes), Tracker(maxBalls, indexes))
      modifies boxes
      ensures Valid() && BoxCounts(boxes) == DoubleChoiceCounts(|boxes|, rand, i + 1)
      ensures TracksMaximum(BoxCounts(boxes), Tracker(maxBalls', indexes'))
      ensures chunk == Chunk(boxes, rand, i)
      ensures forall k :: 0 <= k < |boxes| ==> boxes[k].maxBalls == old(boxes[k].maxBalls)
    {
      ghost var counts := DoubleChoiceCounts(|boxes|, rand, i);
      var indexBox := ChooseBox(rand, i);
      DrawStep(|boxes|, rand, i, counts, indexBox);
      maxBalls', indexes' := PlaceBall(counts, indexBox, maxBalls, indexes);
      chunk := PublishChunk(BoxCounts(boxes), maxBalls', indexes', boxes[indexBox]);
    }

    /** The draw loop of `doInBackground()`: poll `i` comes before draw
      * `i`, and the loop stops at the first poll answering true. */
    method DrawAll(rand: seq<int>, cancel: Cancellation)
      returns (i: nat, maxBalls: int, indexes: seq<int>, progress: seq<int>,
               published: seq<HashFunctionIntermediaryResult<AbstractBox>>)
      requires Valid() && 2 * draws <= |rand| && IndexesIn(rand, |boxes|)
      requires BoxCounts(boxes) == Zeros(|boxes|)
      modifies boxes
      ensures i == DrawsMade(cancel, draws) && progress == ProgressUpTo(i, draws)
      ensures Valid() && BoxCounts(boxes) == DoubleChoiceCounts(|boxes|, rand, i)
      ensures TracksMaximum(BoxCounts(boxes), Tracker(maxBalls, indexes))
      ensures PublishedChunks(boxes, rand, published, i)
      ensures forall k :: 0 <= k < |boxes| ==> boxes[k].maxBalls == old(boxes[k].maxBalls)
    {
      maxBalls, indexes := 0, [];
      StartTracksZeros(BoxCounts(boxes));
      progress, published := [0], [];
      i := 0;
      while i < draws && !IsCancelled(cancel, i)
        invariant 0 <= i <= draws && Valid()
        invariant BoxCounts(boxes) == DoubleChoiceCounts(|boxes|, rand, i)
        invariant TracksMaximum(BoxCounts(boxes), Tracker(maxBalls, indexes))
        invariant progress == ProgressUpTo(i, draws)
        invariant PublishedChunks(boxes, rand, published, i)
        invariant i > 0 ==> !IsCancelled(cancel, i - 1)
        invariant forall k :: 0 <= k < |boxes| ==> boxes[k].maxBalls == old(boxes[k].maxBalls)
      {
        var chunk;
        maxBalls, indexes, chunk := Draw(rand, i, maxBalls, indexes);
        PublishedChunksGrow(boxes, rand, published, i, chunk);
        published := published + [chunk];
        progress := progress + [DrawProgress(i, draws)];
        i := i + 1;
      }
    }

    /** What follows a loop that was not cancelled: every box learns the
      * largest count, then the final summary is kept. */
    method Finish(ghost counts: seq<int>, maxBalls: int, indexes: seq<int>, progress: seq<int>)
      returns (progress': seq<int>)
      requires Valid() && BoxCounts(boxes) == counts
      requires forall k :: 0 <= k < |counts| ==> 0 <= counts[k] <= MAX_INT
      requires TracksMaximum(counts, Tracker(maxBalls, indexes))
      modifies this, boxes
      ensures Valid() && BoxCounts(boxes) == counts
      ensures progress' == progress + [99, 100]
      ensures finalInformation == Some(BoxInformation(counts))
      ensures forall k :: 0 <= k < |boxes| ==> boxes[k].maxBalls == MostFilled(counts).maxBalls
    {
      var information := SetMaxima(boxes, counts, maxBalls, indexes);
      Conclude(information);
      progress' := progress + [99, 100];
    }

    /** `finalInformation = generateInformation(maxBalls, maxBoxesIndexes)`. */
    method Conclude(information: string)
      modifies this
      ensures finalInformation == Some(information)
    {
      finalInformation := Some(information);
    }

    /** `doInBackground()`. Draw `i` chooses between boxes `rand[2i]` and
      * `rand[2i+1]`; `cancel` answers the calls to `isCancelled()` in
      * order: one before each draw and one after the loop. A cancelled run
      * leaves the maxima and `finalInformation` as they were. */
    method DoInBackground(rand: seq<int>, cancel: Cancellation)
      returns (progress: seq<int>, published: seq<HashFunctionIntermediaryResult<AbstractBox>>)
      requires Valid() && 2 * draws <= |rand| && IndexesIn(rand, |boxes|)
      requires BoxCounts(boxes) == Zeros(|boxes|)
      modifies this, boxes
      ensures Valid()
      ensures BoxCounts(boxes) == DoubleChoiceCounts(|boxes|, rand, DrawsMade(cancel, draws))
      ensures PublishedChunks(boxes, rand, published, DrawsMade(cancel, draws))
      ensures IsCancelled(cancel, draws) ==>
                && progress == ProgressUpTo(DrawsMade(cancel, draws), draws)
                && finalInformation == old(finalInformation)
                && forall k :: 0 <= k < |boxes| ==> boxes[k].maxBalls == old(boxes[k].maxBalls)
      ensures !IsCancelled(cancel, draws) ==>
                && DrawsMade(cancel, draws) == draws
                && progress == ProgressTrace(draws)
                && finalInformation == Some(BoxInformation(DoubleChoiceCounts(|boxes|, rand, draws)))
                && forall k :: 0 <= k < |boxes| ==>
                     boxes[k].maxBalls == MostFilled(DoubleChoiceCounts(|boxes|, rand, draws)).maxBalls
    {
      var i, maxBalls, indexes;
      i, maxBalls, indexes, progress, published := DrawAll(rand, cancel);
      var polls := if i < draws then i + 1 else i;
      if IsCancelled(cancel, polls) {
        return;
      }
      DoubleChoiceSum(|boxes|, rand, draws);
      progress := Finish(BoxCounts(boxes), maxBalls, indexes, progress);
    }
  }
}
