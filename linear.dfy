/** The first-generation `LinearOpenAddressingHashFunctionWorker`: each
  * draw walks from the drawn box to the next empty one, wrapping past the
  * last box, and puts its ball there. */
module LinearProbingWorker {
  import opened Wrappers
  import opened JavaInt
  import opened Errors
  import opened Colors
  import opened Runs
  import opened Tracking
  import opened Results
  import opened WorkerSetup
  import opened Allocation
  import opened ViewBoxes
  import opened BoxRows
  import opened FirstGeneration
  import opened Probing

  /** The body of the draw loop: a poll for cancellation, the probe from
    * `rand[i]` (polling before each box it looks at), one more poll, then
    * the ball and the tracker update. `polls` counts the polls made before;
    * `cancelled` is the answer of the last poll made. */
  method Draw(boxes: seq<Box>, rand: seq<int>, i: nat, maxBalls: int, indexes: seq<int>,
              cancel: Cancellation, polls: nat)
    returns (cancelled: bool, maxBalls': int, indexes': seq<int>, polls': nat)
    requires i < |rand| && i < |boxes| && IndexesIn(rand, |boxes|)
    requires ValidRow(boxes) && Counts(boxes) == LinearCounts(|boxes|, rand, i)
    requires TracksMaximum(Counts(boxes), Tracker(maxBalls, indexes))
    modifies boxes
    ensures polls' > polls && (cancelled <==> IsCancelled(cancel, polls' - 1))
    ensures ValidRow(boxes)
    ensures cancelled ==> Counts(boxes) == old(Counts(boxes)) && maxBalls' == maxBalls && indexes' == indexes
    ensures !cancelled ==> Counts(boxes) == LinearCounts(|boxes|, rand, i + 1)
                           && TracksMaximum(Counts(boxes), Tracker(maxBalls', indexes'))
  {
    var n := |boxes|;
    ghost var before := Counts(boxes);
    LinearCountsFill(n, rand, i);
    maxBalls', indexes' := maxBalls, indexes;
    cancelled := IsCancelled(cancel, polls);
    polls' := polls + 1;
    if cancelled {
      return;
    }
    var first := rand[i];
    var index, doLoop;
    index, doLoop, polls' := Probe(Counts(boxes), first, cancel, polls');
    cancelled := IsCancelled(cancel, polls');
    polls' := polls' + 1;
    if cancelled {
      return;
    }
    assert index == LinearSlot(before, first, 0) && before[index] == 0;
    assert LinearCounts(n, rand, i + 1) == before[index := 1];
    var color := if doLoop then Red else Green;
    IncrementAt(boxes, index, Some(color));
    var balls := boxes[index].balls;
    assert balls == 1 && Counts(boxes) == before[index := balls];
    maxBalls', indexes' := ObserveBall(before, maxBalls, indexes, index, balls);
  }

  /** The draw loop of `doInBackground()`, from the empty row to the
    * first cancellation or the last draw. */
  method DrawAll(boxes: seq<Box>, draws: nat, rand: seq<int>, cancel: Cancellation)
    returns (i: nat, polls: nat, maxBalls: int, indexes: seq<int>, progress: seq<int>)
    requires 0 < draws <= |boxes| && draws <= |rand| && IndexesIn(rand, |boxes|)
    requires ValidRow(boxes) && Counts(boxes) == Zeros(|boxes|)
    modifies boxes
    ensures i <= draws && progress == ProgressUpTo(i, draws)
    ensures i < draws ==> IsCancelled(cancel, polls)
    ensures i == draws ==> polls >= draws && Counts(boxes) == LinearCounts(|boxes|, rand, draws)
    ensures ValidRow(boxes) && TracksMaximum(Counts(boxes), Tracker(maxBalls, indexes))
  {
    maxBalls, indexes := 0, [];
    StartTracksZeros(Counts(boxes));
    progress := [0];
    polls, i := 0, 0;
    while i < draws
      invariant 0 <= i <= draws && polls >= i
      invariant ValidRow(boxes)
      invariant Counts(boxes) == LinearCounts(|boxes|, rand, i)
      invariant TracksMaximum(Counts(boxes), Tracker(maxBalls, indexes))
      invariant progress == ProgressUpTo(i, draws)
      invariant cancel.Never? || polls <= cancel.poll
    {
      var cancelled;
      cancelled, maxBalls, indexes, polls := Draw(boxes, rand, i, maxBalls, indexes, cancel, polls);
      if cancelled {
        return;
      }
      progress := progress + [DrawProgress(i, draws)];
      i := i + 1;
    }
  }

  /** `doInBackground()`. Draw `i` starts its probe at box `rand[i]`;
    * `cancel` answers the calls to `isCancelled()` in order: before each
    * draw, before each box a probe looks at, after each probe, and after
    * the loop. No probe ever comes back to its first box: a valid worker
    * draws at most as often as it has boxes, so an empty box remains. */
  method DoInBackground(w: Worker, rand: seq<int>, cancel: Cancellation)
    returns (outcome: RunOutcome<HashFunctionResult<Box>>, progress: seq<int>)
    requires w.Valid() && |rand| >= w.draws && IndexesIn(rand, w.boxes)
    ensures !outcome.Failed?
    ensures cancel.Never? ==> outcome.Completed?
    ensures cancel.FromPoll? && cancel.poll <= w.draws ==> outcome.Cancelled?
    ensures outcome.Cancelled? ==> cancel.FromPoll? && 1 <= |progress| <= w.draws + 1
                                   && progress == ProgressUpTo(|progress| - 1, w.draws)
    ensures outcome.Completed? ==>
              var boxes := outcome.value.boxes;
              && progress == ProgressTrace(w.draws)
              && |boxes| == w.boxes && ValidRow(boxes)
              && (forall k :: 0 <= k < |boxes| ==> fresh(boxes[k]))
              && Counts(boxes) == LinearCounts(w.boxes, rand, w.draws)
              && outcome.value.information == FinalInformation(LinearCounts(w.boxes, rand, w.draws))
  {
    var boxes := NewRow(w.boxes);
    var i, polls, maxBalls, indexes;
    i, polls, maxBalls, indexes, progress := DrawAll(boxes, w.draws, rand, cancel);
    if IsCancelled(cancel, polls) {
      return Cancelled, progress;
    }
    progress := progress + [99];
    var result := Report(boxes, Counts(boxes), maxBalls, indexes);
    progress := progress + [100];
    outcome := Completed(result);
  }
}
