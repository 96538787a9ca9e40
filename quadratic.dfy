/** The first-generation `QuadraticOpenAddressingHashFunctionWorker`: each
  * draw probes `first + delta * delta` (modulo the number of boxes) for
  * `delta` from 0 to `MAX_TRY`, tries up to `MAX_COMPUTE` starts, and
  * throws `CannotComputeIndexException` naming the starts when all fail.
  * Its row holds `ComputedBox`es, whose `original` flag records a ball
  * placed into the very box first drawn. */
module QuadraticWorker {
  import opened Wrappers
  import opened JavaInt
  import opened Errors
  import opened Text
  import opened Runs
  import opened Tracking
  import opened Results
  import opened WorkerSetup
  import opened Allocation
  import opened ComputedBoxes
  import opened BoxRows
  import opened FirstGeneration
  import opened Probing

  const GIVE_UP_HEAD: string := "Cannot compute the box index. Try 50 quadratics increments with this first indexes: "

  /** The message of the exception a draw throws when all its starts fail. */
  function GiveUpMessage(starts: seq<int>): string
  {
    GIVE_UP_HEAD + Join(starts)
  }

  /** The heading ends with ": ", so cutting a trailing separator never
    * eats into it, and the message names the starts in order. */
  lemma GiveUpHeadIsSafe()
    ensures !EndsWith(GIVE_UP_HEAD, SEPARATOR)
  {
    assert GIVE_UP_HEAD[|GIVE_UP_HEAD| - 2] == ':';
  }

  /** `QuadraticRun(n, starts, i) == r`, stated through a quantifier so
    * that the verifier unfolds the run only where a proof names it. */
  ghost predicate RunIs(n: nat, starts: seq<seq<int>>, i: nat, r: QuadRun)
    requires n > 0 && i <= |starts| && StartsIn(starts, n)
  {
    forall k :: i <= k <= i ==> QuadraticRun(n, starts, k) == r
  }

  lemma RunIsIntro(n: nat, starts: seq<seq<int>>, i: nat, r: QuadRun)
    requires n > 0 && i <= |starts| && StartsIn(starts, n) && QuadraticRun(n, starts, i) == r
    ensures RunIs(n, starts, i, r)
  {
    forall k | i <= k <= i
      ensures QuadraticRun(n, starts, k) == r
    {
      assert k == i;
    }
  }

  lemma RunIsElim(n: nat, starts: seq<seq<int>>, i: nat, r: QuadRun)
    requires n > 0 && i <= |starts| && StartsIn(starts, n) && RunIs(n, starts, i, r)
    ensures QuadraticRun(n, starts, i) == r
  {
  }

  lemma RunIsSame(n: nat, starts: seq<seq<int>>, i: nat, r: QuadRun, r': QuadRun)
    requires n > 0 && i <= |starts| && StartsIn(starts, n) && RunIs(n, starts, i, r) && r == r'
    ensures RunIs(n, starts, i, r')
  {
  }

  /** The retry loop of a draw between the poll before it and the poll
    * after it. `stop` is the answer of the last poll; when it is false,
    * the outcome is `QuadAttempt`'s on `counts`. */
  method Attempt(counts: seq<int>, tries: seq<int>, cancel: Cancellation, polls: nat)
    returns (stop: bool, placed: bool, index: int, original: bool, firstIndexes: seq<int>, polls': nat)
    requires |tries| == MAX_COMPUTE && IndexesIn(tries, |counts|)
    ensures polls' > polls && (stop <==> IsCancelled(cancel, polls' - 1))
    ensures !stop ==> (placed ==> AttemptIs(counts, tries, Placed(index, original)))
                      && (!placed ==> AttemptIs(counts, tries, Exhausted(firstIndexes)))
  {
    placed, index, original, firstIndexes := false, 0, false, [];
    stop := IsCancelled(cancel, polls);
    polls' := polls + 1;
    if stop {
      return;
    }
    placed, index, original, firstIndexes, polls' := Retry(counts, tries, cancel, polls');
    stop := IsCancelled(cancel, polls');
    polls' := polls' + 1;
  }

  /** A draw whose starts all fail leaves the run given up with them. */
  lemma GivesUp(n: nat, starts: seq<seq<int>>, i: nat, c: seq<int>, o: seq<bool>, firstIndexes: seq<int>)
    requires n > 0 && i < |starts| && StartsIn(starts, n) && |c| == n && |o| == n
    requires RunIs(n, starts, i, Running(c, o)) && AttemptIs(c, starts[i], Exhausted(firstIndexes))
    ensures firstIndexes == starts[i] && RunIs(n, starts, i + 1, GaveUp(starts[i]))
  {
    AttemptIsSound(c, starts[i], Exhausted(firstIndexes));
    RunStepIs(n, starts, i, c, o, Exhausted(firstIndexes));
    PlaceIs(c, o, Exhausted(firstIndexes));
    RunIsSame(n, starts, i + 1, Place(c, o, Exhausted(firstIndexes)), GaveUp(starts[i]));
  }

  /** The run after one more draw is `Place` of the draw's attempt. */
  lemma RunStepIs(n: nat, starts: seq<seq<int>>, i: nat, c: seq<int>, o: seq<bool>, p: QuadPlacement)
    requires n > 0 && i < |starts| && StartsIn(starts, n) && |c| == n && |o| == n
    requires RunIs(n, starts, i, Running(c, o)) && AttemptIs(c, starts[i], p)
    ensures p.Placed? ==> 0 <= p.slot < n
    ensures RunIs(n, starts, i + 1, Place(c, o, p))
  {
    RunIsElim(n, starts, i, Running(c, o));
    AttemptIsElim(c, starts[i], p);
    QuadraticRunStep(n, starts, i, c, o);
    RunIsIntro(n, starts, i + 1, Place(c, o, p));
  }

  /** A draw that finds box `index` empty adds its ball there and sets
    * the box's `original` flag. */
  lemma PlacesBall(n: nat, starts: seq<seq<int>>, i: nat, c: seq<int>, o: seq<bool>, index: int, original: bool)
    requires n > 0 && i < |starts| && StartsIn(starts, n) && |c| == n && |o| == n
    requires RunIs(n, starts, i, Running(c, o)) && AttemptIs(c, starts[i], Placed(index, original))
    ensures 0 <= index < n && c[index] == 0
    ensures RunIs(n, starts, i + 1, Running(c[index := 1], o[index := original]))
  {
    AttemptIsSound(c, starts[i], Placed(index, original));
    RunStepIs(n, starts, i, c, o, Placed(index, original));
    PlaceIs(c, o, Placed(index, original));
    assert c[index := c[index] + 1] == c[index := 1];
    RunIsSame(n, starts, i + 1, Place(c, o, Placed(index, original)), Running(c[index := 1], o[index := original]));
  }

  /** The end of a draw that found the empty box `index`: the ball goes
    * into it, with `original` set when it is the first box drawn, and the
    * tracker of the most filled boxes sees its new count. */
  method PlaceBall(boxes: seq<ComputedBox>, index: int, original: bool, maxBalls: int, indexes: seq<int>)
    returns (maxBalls': int, indexes': seq<int>)
    requires DistinctComputed(boxes) && 0 <= index < |boxes| && ComputedCounts(boxes)[index] == 0
    requires TracksMaximum(ComputedCounts(boxes), Tracker(maxBalls, indexes))
    modifies boxes
    ensures ComputedCounts(boxes) == old(ComputedCounts(boxes))[index := 1]
    ensures Originals(boxes) == old(Originals(boxes))[index := original]
    ensures TracksMaximum(ComputedCounts(boxes), Tracker(maxBalls', indexes'))
  {
    ghost var before := ComputedCounts(boxes);
    PlaceAt(boxes, index, original);
    var balls := boxes[index].balls;
    maxBalls', indexes' := ObserveBall(before, maxBalls, indexes, index, balls);
  }

  /** The body of the draw loop: a poll, the retry loop, one more poll,
    * then either the exception naming the three starts, or the ball with
    * its `original` flag and the tracker update. `end` is `Cancelled` when
    * the last poll answered true, `Failed` when the draw gave up and
    * `Completed` when it placed its ball. */
  method Draw(boxes: seq<ComputedBox>, starts: seq<seq<int>>, i: nat, maxBalls: int, indexes: seq<int>,
              cancel: Cancellation, polls: nat)
    returns (end: RunOutcome<()>, maxBalls': int, indexes': seq<int>, polls': nat)
    requires |boxes| > 0 && i < |starts| && StartsIn(starts, |boxes|) && DistinctComputed(boxes)
    requires RunIs(|boxes|, starts, i, Running(ComputedCounts(boxes), Originals(boxes)))
    requires TracksMaximum(ComputedCounts(boxes), Tracker(maxBalls, indexes))
    modifies boxes
    ensures polls' > polls && (end.Cancelled? <==> IsCancelled(cancel, polls' - 1))
    ensures !end.Completed? ==> ComputedCounts(boxes) == old(ComputedCounts(boxes))
    ensures end.Failed? ==> RunIs(|boxes|, starts, i + 1, GaveUp(starts[i]))
                            && end.error == CannotComputeIndex(GiveUpMessage(starts[i]))
    ensures end.Completed? ==>
              RunIs(|boxes|, starts, i + 1, Running(ComputedCounts(boxes), Originals(boxes)))
              && TracksMaximum(ComputedCounts(boxes), Tracker(maxBalls', indexes'))
  {
    maxBalls', indexes' := maxBalls, indexes;
    var before := ComputedCounts(boxes);
    var stop, placed, index, original, firstIndexes;
    stop, placed, index, original, firstIndexes, polls' := Attempt(before, starts[i], cancel, polls);
    if stop {
      return Cancelled, maxBalls', indexes', polls';
    }
    if !placed {
      GivesUp(|boxes|, starts, i, before, Originals(boxes), firstIndexes);
      GiveUpHeadIsSafe();
      var message := BuildList(GIVE_UP_HEAD, firstIndexes);
      return Failed(CannotComputeIndex(message)), maxBalls', indexes', polls';
    }
    ghost var flags := Originals(boxes);
    PlacesBall(|boxes|, starts, i, before, flags, index, original);
    maxBalls', indexes' := PlaceBall(boxes, index, original, maxBalls, indexes);
    RunIsSame(|boxes|, starts, i + 1, Running(before[index := 1], flags[index := original]),
              Running(ComputedCounts(boxes), Originals(boxes)));
    end := Completed(());
  }

  /** The draw loop of `doInBackground()`, from the empty row to the first
    * cancellation, the first draw that gives up, or the last draw. */
  method DrawAll(boxes: seq<ComputedBox>, draws: nat, starts: seq<seq<int>>, cancel: Cancellation)
    returns (end: RunOutcome<()>, i: nat, polls: nat, maxBalls: int, indexes: seq<int>, progress: seq<int>)
    requires 0 < draws <= |boxes| && draws <= |starts| && StartsIn(starts, |boxes|) && DistinctComputed(boxes)
    requires ComputedCounts(boxes) == Zeros(|boxes|) && Originals(boxes) == seq(|boxes|, _ => false)
    modifies boxes
    ensures i <= draws && polls >= i && progress == ProgressUpTo(i, draws)
    ensures end.Cancelled? ==> polls > 0 && IsCancelled(cancel, polls - 1)
    ensures end.Failed? ==> i < draws && RunIs(|boxes|, starts, i + 1, GaveUp(starts[i]))
                            && end.error == CannotComputeIndex(GiveUpMessage(starts[i]))
    ensures end.Completed? ==>
              i == draws
              && RunIs(|boxes|, starts, draws, Running(ComputedCounts(boxes), Originals(boxes)))
              && TracksMaximum(ComputedCounts(boxes), Tracker(maxBalls, indexes))
  {
    maxBalls, indexes := 0, [];
    StartTracksZeros(ComputedCounts(boxes));
    assert RunIs(|boxes|, starts, 0, Running(ComputedCounts(boxes), Originals(boxes)));
    progress := [0];
    polls, i := 0, 0;
    end := Completed(());
    while i < draws
      invariant 0 <= i <= draws && polls >= i && end.Completed?
      invariant RunIs(|boxes|, starts, i, Running(ComputedCounts(boxes), Originals(boxes)))
      invariant TracksMaximum(ComputedCounts(boxes), Tracker(maxBalls, indexes))
      invariant progress == ProgressUpTo(i, draws)
    {
      end, maxBalls, indexes, polls := Draw(boxes, starts, i, maxBalls, indexes, cancel, polls);
      if !end.Completed? {
        return;
      }
      progress := progress + [DrawProgress(i, draws)];
      i := i + 1;
    }
  }

  /** A run that gave up at draw `i` is given up, the same way, after
    * any later draw. */
  lemma GaveUpAtEnd(n: nat, starts: seq<seq<int>>, i: nat, m: nat, s: seq<int>)
    requires n > 0 && i <= m <= |starts| && StartsIn(starts, n) && RunIs(n, starts, i, GaveUp(s))
    ensures QuadraticRun(n, starts, m) == GaveUp(s)
  {
    RunIsElim(n, starts, i, GaveUp(s));
    GaveUpIsFinal(n, starts, i, m);
  }

  /** A run still going after its last draw holds counts of 0 and 1. */
  lemma RunningAtEnd(n: nat, starts: seq<seq<int>>, m: nat, c: seq<int>, o: seq<bool>)
    requires n > 0 && m <= |starts| && StartsIn(starts, n) && RunIs(n, starts, m, Running(c, o))
    ensures QuadraticRun(n, starts, m) == Running(c, o)
    ensures forall k :: 0 <= k < |c| ==> c[k] >= 0
  {
    RunIsElim(n, starts, m, Running(c, o));
    QuadraticRunFill(n, starts, m);
  }

  /** The end of a run that drew all its balls: progress 99, the summary
    * of the most filled boxes, progress 100. */
  method Summarize(boxes: seq<ComputedBox>, maxBalls: int, indexes: seq<int>, progress: seq<int>)
    returns (result: HashFunctionResult<ComputedBox>, progress': seq<int>)
    requires |boxes| >= 2 && forall k :: 0 <= k < |ComputedCounts(boxes)| ==> ComputedCounts(boxes)[k] >= 0
    requires TracksMaximum(ComputedCounts(boxes), Tracker(maxBalls, indexes))
    ensures result.boxes == boxes && result.information == FinalInformation(ComputedCounts(boxes))
    ensures progress' == progress + [99, 100]
  {
    progress' := progress + [99];
    result := Report(boxes, ComputedCounts(boxes), maxBalls, indexes);
    progress' := progress' + [100];
  }

  /** `doInBackground()`. Draw `i` takes its starts, in order, from
    * `starts[i]`; `cancel` answers the calls to `isCancelled()` in order:
    * before each draw, before each start, before each box a search looks
    * at, after each search, after each retry loop, and after the draw loop.
    * The run ends with the exception of the first draw whose three starts
    * all fail, with the most-filled summary after the last draw, or with
    * nothing when cancelled. */
  method DoInBackground(w: Worker, starts: seq<seq<int>>, cancel: Cancellation)
    returns (outcome: RunOutcome<HashFunctionResult<ComputedBox>>, progress: seq<int>)
    requires w.Valid() && |starts| >= w.draws && StartsIn(starts, w.boxes)
    ensures cancel.Never? ==> !outcome.Cancelled?
    ensures cancel.FromPoll? && cancel.poll <= w.draws ==> !outcome.Completed?
    ensures outcome.Cancelled? ==> cancel.FromPoll? && 1 <= |progress| <= w.draws + 1
                                   && progress == ProgressUpTo(|progress| - 1, w.draws)
    ensures outcome.Failed? ==>
              var run := QuadraticRun(w.boxes, starts, w.draws);
              run.GaveUp? && outcome.error == CannotComputeIndex(GiveUpMessage(run.starts))
    ensures outcome.Completed? ==>
              var boxes := outcome.value.boxes;
              var run := QuadraticRun(w.boxes, starts, w.draws);
              && run.Running?
              && progress == ProgressTrace(w.draws)
              && |boxes| == w.boxes && DistinctComputed(boxes)
              && (forall k :: 0 <= k < |boxes| ==> fresh(boxes[k]) && boxes[k].id == k && boxes[k].colored)
              && ComputedCounts(boxes) == run.counts && Originals(boxes) == run.originals
              && outcome.value.information == FinalInformation(run.counts)
  {
    ValidWorkerDraws(w);
    var boxes := NewComputedRow(w.boxes);
    var end, i, polls, maxBalls, indexes;
    end, i, polls, maxBalls, indexes, progress := DrawAll(boxes, w.draws, starts, cancel);
    outcome, progress := Conclude(boxes, w.draws, starts, cancel, end, i, polls, maxBalls, indexes, progress);
  }

  /** What `doInBackground()` does once its draw loop has ended: rethrow
    * the exception of a draw that gave up, poll once more, and summarize
    * the row when not cancelled. */
  method Conclude(boxes: seq<ComputedBox>, draws: nat, starts: seq<seq<int>>, cancel: Cancellation,
                  end: RunOutcome<()>, i: nat, polls: nat, maxBalls: int, indexes: seq<int>, progress: seq<int>)
    returns (outcome: RunOutcome<HashFunctionResult<ComputedBox>>, progress': seq<int>)
    requires |boxes| >= 2 && 0 < draws <= |boxes| && draws <= |starts| && StartsIn(starts, |boxes|)
    requires i <= draws && polls >= i && progress == ProgressUpTo(i, draws)
    requires end.Cancelled? ==> polls > 0 && IsCancelled(cancel, polls - 1)
    requires end.Failed? ==> i < draws && RunIs(|boxes|, starts, i + 1, GaveUp(starts[i]))
                             && end.error == CannotComputeIndex(GiveUpMessage(starts[i]))
    requires end.Completed? ==>
               i == draws
               && RunIs(|boxes|, starts, draws, Running(ComputedCounts(boxes), Originals(boxes)))
               && TracksMaximum(ComputedCounts(boxes), Tracker(maxBalls, indexes))
    ensures cancel.Never? ==> !outcome.Cancelled?
    ensures cancel.FromPoll? && cancel.poll <= draws ==> !outcome.Completed?
    ensures outcome.Cancelled? ==> cancel.FromPoll? && 1 <= |progress'| <= draws + 1
                                   && progress' == ProgressUpTo(|progress'| - 1, draws)
    ensures outcome.Failed? ==>
              var run := QuadraticRun(|boxes|, starts, draws);
              run.GaveUp? && outcome.error == CannotComputeIndex(GiveUpMessage(run.starts))
    ensures outcome.Completed? ==>
              var run := QuadraticRun(|boxes|, starts, draws);
              && run.Running?
              && progress' == ProgressTrace(draws)
              && outcome.value.boxes == boxes
              && ComputedCounts(boxes) == run.counts && Originals(boxes) == run.originals
              && outcome.value.information == FinalInformation(run.counts)
  {
    progress' := progress;
    if end.Failed? {
      GaveUpAtEnd(|boxes|, starts, i + 1, draws, starts[i]);
      return Failed(end.error), progress';
    }
    if end.Cancelled? || IsCancelled(cancel, polls) {
      return Cancelled, progress';
    }
    RunningAtEnd(|boxes|, starts, draws, ComputedCounts(boxes), Originals(boxes));
    var result;
    result, progress' := Summarize(boxes, maxBalls, indexes, progress);
    outcome := Completed(result);
  }
}
