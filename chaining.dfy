/** The first-generation `ChainingHashFunctionWorker`: every draw puts one
  * more ball into the drawn box, and the result lists the most filled
  * boxes. */
module ChainingWorker {
  import opened Wrappers
  import opened JavaInt
  import opened Text
  import opened Runs
  import opened Tracking
  import opened Results
  import opened WorkerSetup
  import opened Allocation
  import opened ViewBoxes
  import opened BoxRows
  import opened FirstGeneration

  /** The body of the draw loop: box `rand[i]` gets one more ball, and
    * the most-filled tracker follows. */
  method Draw(boxes: seq<Box>, rand: seq<int>, i: nat, maxBalls: int, indexes: seq<int>)
    returns (maxBalls': int, indexes': seq<int>)
    requires i < |rand| && i < MAX_INT && IndexesIn(rand, |boxes|)
    requires ValidRow(boxes) && Counts(boxes) == Tally(|boxes|, rand[..i])
    requires TracksMaximum(Counts(boxes), Tracker(maxBalls, indexes))
    modifies boxes
    ensures ValidRow(boxes) && Counts(boxes) == Tally(|boxes|, rand[..i + 1])
    ensures TracksMaximum(Counts(boxes), Tracker(maxBalls', indexes'))
  {
    var n := |boxes|;
    var index := rand[i];
    ghost var before := Counts(boxes);
    assert IndexesIn(rand[..i], n) by {
      assert forall j :: 0 <= j < i ==> rand[..i][j] == rand[j];
    }
    TallySum(n, rand[..i]);
    assert boxes[index].balls == before[index] <= i < MAX_INT;
    IncrementAt(boxes, index, None);
    assert rand[..i + 1][..i] == rand[..i];
    assert Tally(n, rand[..i + 1]) == before[index := before[index] + 1];
    var balls := boxes[index].balls;
    assert Counts(boxes) == before[index := balls];
    maxBalls', indexes' := ObserveBall(before, maxBalls, indexes, index, balls);
  }

  /** The draw loop of `doInBackground()`: before draw `i` it polls for
    * the `i`-th time, and it stops at the first poll answering true. */
  method DrawAll(boxes: seq<Box>, draws: nat, rand: seq<int>, cancel: Cancellation)
    returns (i: nat, maxBalls: int, indexes: seq<int>, progress: seq<int>)
    requires 0 < draws <= |boxes| && |boxes| <= MAX_INT && draws <= |rand| && IndexesIn(rand, |boxes|)
    requires ValidRow(boxes) && Counts(boxes) == Zeros(|boxes|)
    modifies boxes
    ensures i <= draws && progress == ProgressUpTo(i, draws)
    ensures (i < draws ==> IsCancelled(cancel, i)) && (i > 0 ==> !IsCancelled(cancel, i - 1))
    ensures ValidRow(boxes) && Counts(boxes) == Tally(|boxes|, rand[..i])
    ensures TracksMaximum(Counts(boxes), Tracker(maxBalls, indexes))
  {
    maxBalls, indexes := 0, [];
    StartTracksZeros(Counts(boxes));
    progress := [0];
    i := 0;
    while i < draws
      invariant 0 <= i <= draws
      invariant ValidRow(boxes) && Counts(boxes) == Tally(|boxes|, rand[..i])
      invariant TracksMaximum(Counts(boxes), Tracker(maxBalls, indexes))
      invariant progress == ProgressUpTo(i, draws)
      invariant i > 0 ==> !IsCancelled(cancel, i - 1)
    {
      if IsCancelled(cancel, i) {
        return;
      }
      maxBalls, indexes := Draw(boxes, rand, i, maxBalls, indexes);
      progress := progress + [DrawProgress(i, draws)];
      i := i + 1;
    }
  }

  /** `doInBackground()`. Draw `i` puts its ball into box `rand[i]`;
    * `cancel` answers the calls to `isCancelled()` in order: one before
    * each draw and one after the loop. */
  method DoInBackground(w: Worker, rand: seq<int>, cancel: Cancellation)
    returns (outcome: RunOutcome<HashFunctionResult<Box>>, progress: seq<int>)
    requires w.Valid() && |rand| >= w.draws && IndexesIn(rand, w.boxes)
    ensures !outcome.Failed?
    ensures outcome.Completed? <==> !IsCancelled(cancel, w.draws)
    ensures outcome.Cancelled? ==> cancel.FromPoll? && progress == ProgressUpTo(cancel.poll, w.draws)
    ensures outcome.Completed? ==>
              var boxes := outcome.value.boxes;
              && progress == ProgressTrace(w.draws)
              && |boxes| == w.boxes && ValidRow(boxes)
              && (forall k :: 0 <= k < |boxes| ==> fresh(boxes[k]))
              && Counts(boxes) == Tally(w.boxes, rand[..w.draws])
              && outcome.value.information == FinalInformation(Tally(w.boxes, rand[..w.draws]))
  {
    ValidWorkerDraws(w);
    var boxes := NewRow(w.boxes);
    var i, maxBalls, indexes;
    i, maxBalls, indexes, progress := DrawAll(boxes, w.draws, rand, cancel);
    var polls := if i < w.draws then i + 1 else i;
    if IsCancelled(cancel, polls) {
      if i < w.draws {
        CancellationIsSticky(cancel, i, w.draws);
      }
      return Cancelled, progress;
    }
    progress := progress + [99];
    var result := Report(boxes, Counts(boxes), maxBalls, indexes);
    progress := progress + [100];
    outcome := Completed(result);
  }
}
