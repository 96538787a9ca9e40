/** The second-generation `QuadraticOpenAddressingHashFunctionWorker`.
  * Whatever its name says, its draw loop probes linearly: from the drawn
  * box it moves one box on (wrapping past the last) while the box looked
  * at holds a ball, colours the box it stops at RED when it moved and
  * GREEN when it did not, and puts the ball there. Its boxes are
  * ColoredUniqueBallBoxes, whose `incrementsBalls` as written rejects
  * every call; `IncrementGuard` chooses between that code and the guard
  * its documentation describes. */
module OpenAddressingWorker {
  import opened Wrappers
  import opened JavaInt
  import opened Errors
  import opened Bounds
  import opened Colors
  import opened Runs
  import opened Tracking
  import opened Results
  import opened WorkerSetup
  import opened Allocation
  import opened DomainObjects
  import opened BoxRows
  import opened Probing
  import opened SecondGeneration

  /** Which `ColoredUniqueBallBox.incrementsBalls` a run calls: the code as
    * written, or the documented guard. */
  datatype IncrementGuard = AsWritten | Intended

  /** `setColor(color)` then `incrementsBalls()` on box `k` of a row of
    * unique-ball boxes. As written the increment always throws; with the
    * documented guard it throws only on a full box, which then stays
    * full. */
  method ColorAndIncrement(bs: seq<AbstractBox>, k: int, color: Color, guard: IncrementGuard)
    returns (o: Outcome<Error>)
    requires KindRow(bs, ColoredUniqueBall) && 0 <= k < |bs|
    modifies bs[k]
    ensures KindRow(bs, ColoredUniqueBall)
    ensures BoxColors(bs) == old(BoxColors(bs))[k := color]
    ensures guard == AsWritten ==>
              && o == Fail(IllegalNumberOfBalls(IncrementRejectedText(old(BoxCounts(bs))[k])))
              && BoxCounts(bs) == old(BoxCounts(bs))
    ensures guard == Intended ==>
              && (o.Pass? <==> old(BoxCounts(bs))[k] == 0)
              && BoxCounts(bs) == old(BoxCounts(bs))[k := 1]
  {
    assert bs[k].balls == BoxCounts(bs)[k];
    bs[k].SetColor(color);
    if guard == AsWritten {
      o := bs[k].ColoredIncrementsBalls();
    } else {
      o := bs[k].ColoredIncrementsBallsIntended();
    }
  }

  /** The chunk draw `j` publishes: the summary of the counts after it,
    * and the box that received its ball. */
  function Chunk(bs: seq<AbstractBox>, rand: seq<int>, j: nat): HashFunctionIntermediaryResult<AbstractBox>
    requires j < |bs| && j < |rand| && IndexesIn(rand, |bs|)
  {
    var c := LinearCounts(|bs|, rand, j);
    LinearCountsFill(|bs|, rand, j);
    LinearSlotFound(c, rand[j]);
    HashFunctionIntermediaryResult(BoxInformation(LinearCounts(|bs|, rand, j + 1)), bs[LinearSlot(c, rand[j], 0)])
  }

  /** The chunks published by the first `k` draws, in order. */
  predicate PublishedChunks(bs: seq<AbstractBox>, rand: seq<int>,
                            published: seq<HashFunctionIntermediaryResult<AbstractBox>>, k: nat)
    requires k <= |bs| && k <= |rand| && IndexesIn(rand, |bs|)
  {
    |published| == k && forall j {:trigger Chunk(bs, rand, j)} :: 0 <= j < k ==> published[j] == Chunk(bs, rand, j)
  }

  /** One more draw adds its chunk at the end. */
  lemma PublishedChunksGrow(bs: seq<AbstractBox>, rand: seq<int>,
                            published: seq<HashFunctionIntermediaryResult<AbstractBox>>, k: nat,
                            chunk: HashFunctionIntermediaryResult<AbstractBox>)
    requires k < |bs| && k < |rand| && IndexesIn(rand, |bs|)
    requires PublishedChunks(bs, rand, published, k) && chunk == Chunk(bs, rand, k)
    ensures PublishedChunks(bs, rand, published + [chunk], k + 1)
  {
    var p := published + [chunk];
    forall j | 0 <= j < k + 1
      ensures p[j] == Chunk(bs, rand, j)
    {
      if j < k {
        assert p[j] == published[j];
      }
    }
  }

  /** Draw `i` fills the box the linear probe from `rand[i]` settles on,
    * an empty one, and colours it by whether the drawn box was full. */
  lemma LinearDrawStep(n: nat, rand: seq<int>, i: nat, c: seq<int>, k: int, color: Color)
    requires 0 < n && i < n && i < |rand| && IndexesIn(rand, n)
    requires c == LinearCounts(n, rand, i) && k == LinearSlot(c, rand[i], 0)
    requires color == if c[rand[i]] != 0 then Red else Green
    ensures 0 <= k < |c| && c[k] == 0 && Bits(c) && Occurrences(c, 1) < |c|
    ensures LinearCounts(n, rand, i + 1) == c[k := 1]
    ensures LinearColors(n, rand, i + 1) == LinearColors(n, rand, i)[k := color]
    ensures Bits(c[k := 1])
  {
    LinearCountsFill(n, rand, i);
    LinearSlotFound(c, rand[i]);
  }

  /** The first draw of a run finds its box empty, so it colours it GREEN,
    * the colour every box starts with. */
  lemma FirstDrawKeepsColors(n: nat, rand: seq<int>)
    requires 0 < n && 1 <= |rand| && IndexesIn(rand, n)
    ensures LinearColors(n, rand, 1) == LinearColors(n, rand, 0)
  {
    var s := LinearSlot(LinearCounts(n, rand, 0), rand[0], 0);
    if s != -1 {
      assert LinearCounts(n, rand, 0)[rand[0]] == 0;
      assert LinearColors(n, rand, 1) == LinearColors(n, rand, 0)[s := Green];
    }
  }

  class QuadraticOpenAddressingHashFunctionWorker {
    const boxes: seq<AbstractBox>
    const draws: nat
    /** The most-filled tracker: fields of the worker in this class. */
    var maxBalls: int
    var maxBoxesIndexes: seq<int>
    /** Never assigned: stays null. */
    var finalInformation: Option<string>

    ghost predicate Valid()
      reads boxes
    {
      1 <= draws <= |boxes| <= MAX_INT && KindRow(boxes, ColoredUniqueBall)
    }

    /** The public constructor once its draw check has passed: one empty
      * GREEN ColoredUniqueBallBox per index. */
    constructor (w: Worker)
      requires w.Valid()
      ensures Valid() && |boxes| == w.boxes && draws == w.draws
      ensures maxBalls == 0 && maxBoxesIndexes == [] && finalInformation.None?
      ensures BoxCounts(boxes) == Zeros(w.boxes) && BoxColors(boxes) == Greens(w.boxes)
      ensures forall k :: 0 <= k < |boxes| ==> fresh(boxes[k])
    {
      ValidWorkerDraws(w);
      var bs := NewBoxRow(w.boxes, ColoredUniqueBall);
      boxes := bs;
      draws := w.draws;
      maxBalls := 0;
      maxBoxesIndexes := [];
      finalInformation := None;
    }

    /** The public constructor: a draw count outside the worker's
      * `DrawsRange` throws the draws error of every worker. */
    static method New(boxes: NumberOfBoxes, draws: Int32)
      returns (r: Result<QuadraticOpenAddressingHashFunctionWorker, Error>)
      ensures r.Success? <==> boxes / 2 <= draws <= boxes
      ensures r.Failure? ==> r.error == NewWorker(boxes, draws).error
      ensures r.Success? ==>
                && fresh(r.value) && r.value.Valid()
                && |r.value.boxes| == boxes && r.value.draws == draws
                && r.value.maxBalls == 0 && r.value.maxBoxesIndexes == [] && r.value.finalInformation.None?
                && BoxCounts(r.value.boxes) == Zeros(boxes)
                && BoxColors(r.value.boxes) == Greens(boxes)
    {
      var w := NewWorker(boxes, draws);
      if w.Failure? {
        return Failure(w.error);
      }
      var x := new QuadraticOpenAddressingHashFunctionWorker(w.value);
      r := Success(x);
    }

    /** The polls and the probe of draw `i`: the loop condition's poll,
      * the probe from `rand[i]` (polling before each box it looks at), and
      * the poll after it. Nothing changes. */
    method Look(rand: seq<int>, i: nat, cancel: Cancellation, polls: nat)
      returns (stop: bool, index: int, doLoop: bool, polls': nat)
      requires Valid() && i < draws && draws <= |rand| && IndexesIn(rand, |boxes|)
      requires BoxCounts(boxes) == LinearCounts(|boxes|, rand, i)
      ensures polls' > polls && (stop <==> IsCancelled(cancel, polls' - 1))
      ensures 0 <= index < |boxes|
      ensures !stop ==>
                var c := LinearCounts(|boxes|, rand, i);
                index == LinearSlot(c, rand[i], 0) && (doLoop <==> c[rand[i]] != 0)
      ensures i == 0 ==> (stop <==> IsCancelled(cancel, polls + 2))
    {
      ghost var c := LinearCounts(|boxes|, rand, i);
      LinearCountsFill(|boxes|, rand, i);
      index, doLoop := rand[i], false;
      stop := IsCancelled(cancel, polls);
      polls' := polls + 1;
      if stop {
        CancellationIsSticky(cancel, polls, polls + 2);
        return;
      }
      index, doLoop, polls' := Probe(BoxCounts(boxes), rand[i], cancel, polls');
      stop := IsCancelled(cancel, polls');
      if stop && i == 0 {
        CancellationIsSticky(cancel, polls', polls + 2);
      }
      polls' := polls' + 1;
    }

    /** The tracker update on the worker's fields after box `k` of a row
      * with counts `counts` has received its ball. */
    method Observe(ghost counts: seq<int>, k: int, balls: int)
      requires TracksMaximum(counts, Tracker(maxBalls, maxBoxesIndexes))
      requires 0 <= k < |counts| && counts[k] >= 0 && balls == counts[k] + 1
      modifies this
      ensures TracksMaximum(counts[k := balls], Tracker(maxBalls, maxBoxesIndexes))
      ensures finalInformation == old(finalInformation)
    {
      maxBalls, maxBoxesIndexes := ObserveBall(counts, maxBalls, maxBoxesIndexes, k, balls);
    }

    /** `setColor`, `incrementsBalls`, and on success the tracker update
      * and the chunk to publish, for the box the probe of draw `i` chose. */
    method Place(rand: seq<int>, i: nat, index: int, doLoop: bool, guard: IncrementGuard)
      returns (failure: Option<Error>, chunk: HashFunctionIntermediaryResult<AbstractBox>)
      requires Valid() && i < draws && draws <= |rand| && IndexesIn(rand, |boxes|)
      requires BoxCounts(boxes) == LinearCounts(|boxes|, rand, i)
      requires BoxColors(boxes) == LinearColors(|boxes|, rand, i)
      requires index == LinearSlot(LinearCounts(|boxes|, rand, i), rand[i], 0)
      requires doLoop <==> LinearCounts(|boxes|, rand, i)[rand[i]] != 0
      requires TracksMaximum(BoxCounts(boxes), Tracker(maxBalls, maxBoxesIndexes))
      modifies this, boxes
      ensures Valid() && finalInformation == old(finalInformation)
      ensures BoxColors(boxes) == LinearColors(|boxes|, rand, i + 1)
      ensures guard == AsWritten ==>
                && failure == Some(IllegalNumberOfBalls(IncrementRejectedText(0)))
                && BoxCounts(boxes) == old(BoxCounts(boxes))
                && maxBalls == old(maxBalls) && maxBoxesIndexes == old(maxBoxesIndexes)
      ensures guard == Intended ==>
                && failure.None?
                && BoxCounts(boxes) == LinearCounts(|boxes|, rand, i + 1)
                && TracksMaximum(BoxCounts(boxes), Tracker(maxBalls, maxBoxesIndexes))
                && chunk == Chunk(boxes, rand, i)
    {
      ghost var c := BoxCounts(boxes);
      var color := if doLoop then Red else Green;
      LinearDrawStep(|boxes|, rand, i, c, index, color);
      var o := ColorAndIncrement(boxes, index, color, guard);
      chunk := HashFunctionIntermediaryResult("", boxes[index]);
      if o.Fail? {
        return Some(o.error), chunk;
      }
      failure := None;
      chunk := Record(c, index);
    }

    /** After box `k` of a row with counts `counts` has received its ball:
      * the tracker update, and the chunk to publish. */
    method Record(ghost counts: seq<int>, k: int) returns (chunk: HashFunctionIntermediaryResult<AbstractBox>)
      requires Valid() && 0 <= k < |counts| && |counts| == |boxes|
      requires Bits(counts) && counts[k] == 0 && BoxCounts(boxes) == counts[k := 1]
      requires TracksMaximum(counts, Tracker(maxBalls, maxBoxesIndexes))
      modifies this
      ensures TracksMaximum(BoxCounts(boxes), Tracker(maxBalls, maxBoxesIndexes))
      ensures chunk == HashFunctionIntermediaryResult(BoxInformation(BoxCounts(boxes)), boxes[k])
      ensures finalInformation == old(finalInformation)
    {
      var balls := boxes[k].balls;
      assert balls == BoxCounts(boxes)[k];
      Observe(counts, k, balls);
      chunk := PublishChunk(BoxCounts(boxes), maxBalls, maxBoxesIndexes, boxes[k]);
    }
  
    /** The row and the tracker after the first `i` draws of a run whose
      * increments all succeeded. */
    ghost predicate Drawn(rand: seq<int>, i: nat)
      reads this, boxes
      requires Valid() && i <= draws <= |rand| && IndexesIn(rand, |boxes|)
    {
      && BoxCounts(boxes) == LinearCounts(|boxes|, rand, i)
      && BoxColors(boxes) == LinearColors(|boxes|, rand, i)
      && TracksMaximum(BoxCounts(boxes), Tracker(maxBalls, maxBoxesIndexes))
    }

    /** One pass of the draw loop: the polls and the probe of draw `i`,
      * then, unless a poll saw the cancellation, the colour, the increment
      * and the tracker update. `stop` says a poll saw the cancellation;
      * `polls'` counts the polls made so far. */
    method Draw(rand: seq<int>, i: nat, cancel: Cancellation, polls: nat, guard: IncrementGuard)
      returns (stop: bool, failure: Option<Error>, chunk: HashFunctionIntermediaryResult<AbstractBox>, polls': nat)
      requires Valid() && i < draws && draws <= |rand| && IndexesIn(rand, |boxes|)
      requires Drawn(rand, i)
      requires cancel.Never? || polls <= cancel.poll
      requires guard == AsWritten ==> i == 0 && polls == 0
      modifies this, boxes
      ensures Valid() && finalInformation == old(finalInformation) && polls' > polls
      ensures stop || failure.Some? ==> Drawn(rand, i)
      ensures stop ==>
                && failure.None? && IsCancelled(cancel, polls')
                && (guard == AsWritten ==> IsCancelled(cancel, 2))
      ensures !stop ==> cancel.Never? || polls' <= cancel.poll
      ensures !stop && guard == AsWritten ==>
                && failure == Some(IllegalNumberOfBalls(IncrementRejectedText(0)))
                && !IsCancelled(cancel, 2)
      ensures !stop && guard == Intended ==>
                && failure.None? && Drawn(rand, i + 1) && chunk == Chunk(boxes, rand, i)
    {
      var index, doLoop;
      stop, index, doLoop, polls' := Look(rand, i, cancel, polls);
      chunk := HashFunctionIntermediaryResult("", boxes[index]);
      failure := None;
      if stop {
        CancellationIsSticky(cancel, polls' - 1, polls');
        return;
      }
      failure, chunk := Place(rand, i, index, doLoop, guard);
      if guard == AsWritten {
        FirstDrawKeepsColors(|boxes|, rand);
      }
    }

    /** One pass of the draw loop with its bookkeeping: on success, the
      * chunk is published, the progress reported and `i` moves on. */
    method Step(rand: seq<int>, i: nat, cancel: Cancellation, polls: nat, guard: IncrementGuard,
                progress: seq<int>, published: seq<HashFunctionIntermediaryResult<AbstractBox>>)
      returns (stop: bool, failure: Option<Error>, polls': nat, i': nat, progress': seq<int>,
               published': seq<HashFunctionIntermediaryResult<AbstractBox>>)
      requires Valid() && i < draws && draws <= |rand| && IndexesIn(rand, |boxes|)
      requires Drawn(rand, i)
      requires progress == ProgressUpTo(i, draws) && PublishedChunks(boxes, rand, published, i)
      requires cancel.Never? || polls <= cancel.poll
      requires guard == AsWritten ==> i == 0 && polls == 0
      modifies this, boxes
      ensures Valid() && finalInformation == old(finalInformation) && polls' > polls
      ensures i' == (if stop || failure.Some? then i else i + 1) && Drawn(rand, i')
      ensures progress' == ProgressUpTo(i', draws) && PublishedChunks(boxes, rand, published', i')
      ensures stop ==>
                && failure.None? && IsCancelled(cancel, polls')
                && (guard == AsWritten ==> IsCancelled(cancel, 2))
      ensures !stop ==> cancel.Never? || polls' <= cancel.poll
      ensures !stop && guard == AsWritten ==>
                && failure == Some(IllegalNumberOfBalls(IncrementRejectedText(0)))
                && !IsCancelled(cancel, 2)
      ensures guard == Intended ==> failure.None?
    {
      var chunk;
      stop, failure, chunk, polls' := Draw(rand, i, cancel, polls, guard);
      i', progress', published' := i, progress, published;
      if !stop && failure.None? {
        PublishedChunksGrow(boxes, rand, published, i, chunk);
        published' := published + [chunk];
        progress' := progress + [DrawProgress(i, draws)];
        assert progress' == ProgressUpTo(i + 1, draws);
        i' := i + 1;
      }
    }

    /** The draw loop of `doInBackground()`, from the empty row to the
      * first cancellation, the first rejected increment, or the last
      * draw. `polls` counts the polls made. */
    method DrawAll(rand: seq<int>, cancel: Cancellation, guard: IncrementGuard)
      returns (i: nat, polls: nat, failure: Option<Error>, progress: seq<int>,
               published: seq<HashFunctionIntermediaryResult<AbstractBox>>)
      requires Valid() && draws <= |rand| && IndexesIn(rand, |boxes|)
      requires BoxCounts(boxes) == Zeros(|boxes|) && BoxColors(boxes) == Greens(|boxes|)
      requires maxBalls == 0 && maxBoxesIndexes == []
      modifies this, boxes
      ensures Valid() && finalInformation == old(finalInformation)
      ensures i <= draws && Drawn(rand, i)
      ensures progress == ProgressUpTo(i, draws) && PublishedChunks(boxes, rand, published, i)
      ensures failure.None? && i < draws ==> IsCancelled(cancel, polls)
      ensures failure.None? && i == draws ==> polls >= draws && (cancel.Never? || polls <= cancel.poll)
      ensures guard == AsWritten ==>
                && i == 0
                && (failure.Some? <==> !IsCancelled(cancel, 2))
                && (failure.Some? ==> failure.value == IllegalNumberOfBalls(IncrementRejectedText(0)))
      ensures guard == Intended ==> failure.None?
    {
      StartTracksZeros(BoxCounts(boxes));
      progress, published := [0], [];
      polls, i := 0, 0;
      failure := None;
      var stop := false;
      while i < draws && !stop && failure.None?
        invariant Valid() && finalInformation == old(finalInformation)
        invariant 0 <= i <= draws && polls >= i && Drawn(rand, i)
        invariant progress == ProgressUpTo(i, draws) && PublishedChunks(boxes, rand, published, i)
        invariant stop ==>
                    && i < draws && failure.None? && IsCancelled(cancel, polls)
                    && (guard == AsWritten ==> IsCancelled(cancel, 2))
        invariant !stop ==> cancel.Never? || polls <= cancel.poll
        invariant failure.Some? ==>
                    && guard == AsWritten && i < draws && !IsCancelled(cancel, 2)
                    && failure.value == IllegalNumberOfBalls(IncrementRejectedText(0))
        invariant guard == AsWritten ==> i == 0 && (polls == 0 || stop || failure.Some?)
        invariant guard == Intended ==> failure.None?
        decreases draws - i, if stop || failure.Some? then 0 else 1
      {
        stop, failure, polls, i, progress, published :=
          Step(rand, i, cancel, polls, guard, progress, published);
      }
    }

    /** `doInBackground()`. Draw `i` starts its probe at box `rand[i]`;
      * `cancel` answers the calls to `isCancelled()` in order: before each
      * draw, before each box a probe looks at, after each probe, and after
      * the loop. As written, the first increment throws
      * `IllegalNumberOfBallsException`, which ends the run unless it was
      * cancelled by then. With the documented guard the run fills one box
      * per draw; the summary it builds at the end is not kept anywhere. */
    method DoInBackground(rand: seq<int>, cancel: Cancellation, guard: IncrementGuard)
      returns (outcome: RunOutcome<()>, progress: seq<int>,
               published: seq<HashFunctionIntermediaryResult<AbstractBox>>)
      requires Valid() && draws <= |rand| && IndexesIn(rand, |boxes|)
      requires BoxCounts(boxes) == Zeros(|boxes|) && BoxColors(boxes) == Greens(|boxes|)
      requires maxBalls == 0 && maxBoxesIndexes == []
      modifies this, boxes
      ensures Valid() && finalInformation == old(finalInformation)
      ensures |published| <= draws && PublishedChunks(boxes, rand, published, |published|)
      ensures guard == AsWritten ==>
                && published == [] && progress == [0] && BoxCounts(boxes) == Zeros(|boxes|)
                && (outcome.Cancelled? <==> IsCancelled(cancel, 2))
                && (!outcome.Cancelled? ==> outcome == Failed(IllegalNumberOfBalls(IncrementRejectedText(0))))
      ensures guard == Intended ==>
                && !outcome.Failed?
                && (cancel.Never? ==> outcome.Completed?)
                && (cancel.FromPoll? && cancel.poll <= draws ==> outcome.Cancelled?)
                && BoxCounts(boxes) == LinearCounts(|boxes|, rand, |published|)
                && BoxColors(boxes) == LinearColors(|boxes|, rand, |published|)
                && (outcome.Cancelled? ==> progress == ProgressUpTo(|published|, draws))
                && (outcome.Completed? ==>
                      && |published| == draws && progress == ProgressTrace(draws)
                      && Tracker(maxBalls, SortAscending(maxBoxesIndexes)) == MostFilled(BoxCounts(boxes)))
    {
      var i, polls, failure;
      i, polls, failure, progress, published := DrawAll(rand, cancel, guard);
      if failure.Some? {
        return Failed(failure.value), progress, published;
      }
      if IsCancelled(cancel, polls) {
        return Cancelled, progress, published;
      }
      progress := progress + [99];
      LinearCountsFill(|boxes|, rand, draws);
      TrackerIsMostFilled(BoxCounts(boxes), Tracker(maxBalls, maxBoxesIndexes));
      var information := GenerateInformation(maxBalls, maxBoxesIndexes);
      progress := progress + [100];
      outcome := Completed(());
    }
  }
}
