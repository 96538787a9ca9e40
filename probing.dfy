/** The probe loops of the open-addressing workers. The linear probe moves
  * one box on (wrapping past the last) while the box looked at holds a
  * ball; the quadratic probe looks at `first + delta * delta` for growing
  * `delta`, and retries from new starts when a start fails. Each loop
  * polls for cancellation before each look. None changes a box, so each
  * works on the ball counts of the row. */
module Probing {
  import opened WorkerSetup
  import opened Runs
  import opened Allocation

  /** `while (!isCancelled() && 0 != boxes.get(indexBox).getBalls())` over
    * a row whose ball counts are `counts`, starting at `first` with `polls`
    * polls already made. Unless it was cancelled, the probe stops at the
    * box linear probing chooses, and it moved on at least once exactly when
    * `first` was full. The throw on coming back to `first` cannot happen:
    * some box of a row with fewer balls than boxes is empty. A probe from
    * an empty box polls once. */
  method Probe(counts: seq<int>, first: int, cancel: Cancellation, polls: nat)
    returns (index: int, doLoop: bool, polls': nat)
    requires 0 <= first < |counts| && Bits(counts) && Occurrences(counts, 1) < |counts|
    ensures polls' > polls && 0 <= index < |counts|
    ensures !IsCancelled(cancel, polls' - 1) ==>
              index == LinearSlot(counts, first, 0) && (doLoop <==> counts[first] != 0)
    ensures counts[first] == 0 ==> polls' == polls + 1
  {
    var n := |counts|;
    index, doLoop, polls' := first, false, polls;
    ghost var d := 0;
    ModBelowTwice(first, n);
    var probing := true;
    while probing
      invariant 0 <= d < n && index == Step(first, d, n)
      invariant forall e :: 0 <= e < d ==> counts[Step(first, e, n)] != 0
      invariant doLoop <==> d > 0
      invariant polls' >= polls
      invariant !probing ==> polls' > polls && (IsCancelled(cancel, polls' - 1) || counts[index] == 0)
      invariant counts[first] == 0 ==> d == 0 && polls' == (if probing then polls else polls + 1)
      decreases n - d, probing
    {
      var stop := IsCancelled(cancel, polls');
      polls' := polls' + 1;
      if stop || counts[index] == 0 {
        probing := false;
      } else {
        doLoop := true;
        StepNext(first, d, n);
        index := (index + 1) % n;
        d := d + 1;
        if first == index {
          // the source throws AlreadyMadeLoopException here
          NoFullCircle(counts, first, d);
          assert false;
        }
      }
    }
    if !IsCancelled(cancel, polls' - 1) {
      LinearSlotIs(counts, first, d);
      assert Step(first, 0, n) == first;
    }
  }

  /** The inner loop of the first-generation quadratic worker:
    * `while (!isCancelled() && 0 != balls(indexBox) && MAX_TRY >= delta)`
    * `{ ++delta; indexBox = (firstIndex + delta * delta) % boxesSize; }`.
    * Unless it was cancelled, it stops at the step `QuadSearch` finds. */
  method Search(counts: seq<int>, first: int, cancel: Cancellation, polls: nat)
    returns (delta: nat, index: int, polls': nat)
    requires 0 <= first < |counts|
    ensures polls' > polls && 0 <= index < |counts| && delta <= MAX_TRY + 1
    ensures !IsCancelled(cancel, polls' - 1) ==>
              delta == QuadSearch(counts, first, 0) && index == QuadIndex(first, delta, |counts|)
  {
    var n := |counts|;
    ModBoxesIsMod(first, n);
    delta, index, polls' := 0, first, polls;
    ghost var goal := QuadSearch(counts, first, delta);
    var searching := true;
    while searching
      invariant delta <= MAX_TRY + 1 && index == QuadIndex(first, delta, n) && 0 <= index < n
      invariant goal == QuadSearch(counts, first, delta)
      invariant polls' >= polls
      invariant !searching ==> polls' > polls
      invariant !searching && !IsCancelled(cancel, polls' - 1) ==> QuadSearch(counts, first, delta) == delta
      decreases MAX_TRY + 1 - delta, searching
    {
      var stop := IsCancelled(cancel, polls');
      polls' := polls' + 1;
      if stop || counts[index] == 0 || MAX_TRY < delta {
        searching := false;
      } else {
        delta := delta + 1;
        index := (first + delta * delta) % n;
        ModBoxesIsMod(first + delta * delta, n);
      }
    }
  }

  /** The retry loop of the first-generation quadratic worker for one draw:
    * `while (!isCancelled() && MAX_COMPUTE > retry)` it takes the next
    * start from `tries`, records it, searches from it, stops on a
    * cancelled poll, and breaks out with the box found when the search
    * stayed within `MAX_TRY`. Unless the last poll was cancelled, the
    * outcome is `QuadAttempt`'s: the box found and whether it was the
    * first one probed from the first start, or all three starts recorded.
    * A placement is only reported when the last poll was not cancelled. */
  method Retry(counts: seq<int>, tries: seq<int>, cancel: Cancellation, polls: nat)
    returns (placed: bool, index: int, original: bool, firstIndexes: seq<int>, polls': nat)
    requires |tries| == MAX_COMPUTE && IndexesIn(tries, |counts|)
    ensures polls' > polls
    ensures placed ==> !IsCancelled(cancel, polls' - 1)
    ensures !IsCancelled(cancel, polls' - 1) ==>
              (placed ==> AttemptIs(counts, tries, Placed(index, original)))
              && (!placed ==> AttemptIs(counts, tries, Exhausted(firstIndexes)))
  {
    var retry := 0;
    placed, index, original, firstIndexes, polls' := false, 0, false, [], polls;
    while true
      invariant retry <= MAX_COMPUTE && polls' >= polls && !placed && |firstIndexes| == retry
      invariant forall j :: 0 <= j < retry ==> firstIndexes[j] == tries[j] && QuadSearch(counts, tries[j], 0) > MAX_TRY
      decreases MAX_COMPUTE - retry
    {
      var stop := IsCancelled(cancel, polls');
      polls' := polls' + 1;
      if stop || MAX_COMPUTE <= retry {
        if !stop {
          assert firstIndexes == tries;
          ExhaustedAll(counts, tries);
          AttemptIsIntro(counts, tries, Exhausted(tries));
        }
        return;
      }
      var first := tries[retry];
      firstIndexes := firstIndexes + [first];
      var delta, found;
      delta, found, polls' := Search(counts, first, cancel, polls');
      var cut := IsCancelled(cancel, polls');
      polls' := polls' + 1;
      if cut {
        return;
      }
      if MAX_TRY >= delta {
        PlacedFrom(counts, tries, retry, delta);
        AttemptIsIntro(counts, tries, Placed(found, retry == 0 && delta == 0));
        placed, index, original := true, found, retry == 0 && delta == 0;
        return;
      }
      retry := retry + 1;
    }
  }
}
