/** The four placement rules as functions of the drawn indexes: the ball
  * counts a run leaves behind after `k` draws, whatever objects hold
  * them. The worker methods are proved to produce exactly these counts. */
module Allocation {
  import opened JavaInt
  import opened Colors
  import opened Runs
  import opened WorkerSetup

  /** Every entry is 0 or 1: what an open-addressing row may hold. */
  predicate Bits(c: seq<int>)
  {
    forall i :: 0 <= i < |c| ==> 0 <= c[i] <= 1
  }

  /** Changing one entry changes the number of occurrences of `x` by what
    * left and what came in. */
  lemma {:induction false} OccurrencesUpdate(s: seq<int>, j: int, v: int, x: int)
    requires 0 <= j < |s|
    ensures Occurrences(s[j := v], x)
            == Occurrences(s, x) - (if s[j] == x then 1 else 0) + (if v == x then 1 else 0)
    decreases |s|
  {
    var t := s[j := v];
    if j < |s| - 1 {
      OccurrencesUpdate(s[..|s| - 1], j, v, x);
      assert t[..|t| - 1] == s[..|s| - 1][j := v];
    } else {
      assert t[..|t| - 1] == s[..|s| - 1];
    }
  }

  lemma {:induction false} OccurrencesOfZeros(n: nat, x: int)
    requires x != 0
    ensures Occurrences(Zeros(n), x) == 0
  {
    if n > 0 {
      OccurrencesOfZeros(n - 1, x);
      assert Zeros(n)[..n - 1] == Zeros(n - 1);
    }
  }

  // --------------------------------------------------------------- chaining

  /** Chaining: each drawn index gets one more ball. */
  function Tally(n: nat, ds: seq<int>): (c: seq<int>)
    ensures |c| == n
  {
    if ds == [] then Zeros(n)
    else
      var c := Tally(n, ds[..|ds| - 1]);
      var d := ds[|ds| - 1];
      if 0 <= d < n then c[d := c[d] + 1] else c
  }

  /** A box holds as many balls as its index was drawn. */
  lemma {:induction false} TallyCounts(n: nat, ds: seq<int>)
    ensures forall k :: 0 <= k < n ==> Tally(n, ds)[k] == Occurrences(ds, k)
  {
    if ds != [] {
      TallyCounts(n, ds[..|ds| - 1]);
    }
  }

  /** Every draw adds exactly one ball: the counts add up to the number of
    * draws, and no box holds more. */
  lemma {:induction false} TallySum(n: nat, ds: seq<int>)
    requires IndexesIn(ds, n)
    ensures Sum(Tally(n, ds)) == |ds|
    ensures forall k :: 0 <= k < n ==> 0 <= Tally(n, ds)[k] <= |ds|
  {
    if ds == [] {
      SumZeros(n);
    } else {
      var init := ds[..|ds| - 1];
      assert IndexesIn(init, n) by {
        assert forall i :: 0 <= i < |init| ==> init[i] == ds[i];
      }
      TallySum(n, init);
      SumUpdate(Tally(n, init), ds[|ds| - 1], 1);
    }
  }

  // ---------------------------------------------------------- double choice

  /** The double-choice rule: the second box only when it is a different
    * box holding strictly fewer balls. */
  function Choose(c: seq<int>, a: int, b: int): (k: int)
    requires 0 <= a < |c| && 0 <= b < |c|
    ensures k == a || k == b
    ensures c[k] == Min(c[a], c[b])
    ensures c[a] <= c[b] ==> k == a
  {
    if a != b && c[a] > c[b] then b else a
  }

  /** The counts after `k` double-choice draws; draw `i` uses the indexes
    * `rand[2i]` and `rand[2i+1]`. */
  function DoubleChoiceCounts(n: nat, rand: seq<int>, k: nat): (c: seq<int>)
    requires 2 * k <= |rand| && IndexesIn(rand, n)
    ensures |c| == n
  {
    if k == 0 then Zeros(n)
    else
      var c := DoubleChoiceCounts(n, rand, k - 1);
      var j := Choose(c, rand[2 * k - 2], rand[2 * k - 1]);
      c[j := c[j] + 1]
  }

  /** The box draw `j` of double choice puts its ball into: the less
    * filled of `rand[2j]` and `rand[2j+1]`, the first on a tie. */
  function DoubleChoiceSlot(n: nat, rand: seq<int>, j: nat): (k: int)
    requires 2 * j + 2 <= |rand| && IndexesIn(rand, n)
    ensures 0 <= k < n && (k == rand[2 * j] || k == rand[2 * j + 1])
    ensures var c := DoubleChoiceCounts(n, rand, j);
            && c[k] <= c[rand[2 * j]] && c[k] <= c[rand[2 * j + 1]]
            && DoubleChoiceCounts(n, rand, j + 1) == c[k := c[k] + 1]
  {
    Choose(DoubleChoiceCounts(n, rand, j), rand[2 * j], rand[2 * j + 1])
  }

  /** Every double-choice draw adds exactly one ball. */
  lemma {:induction false} DoubleChoiceSum(n: nat, rand: seq<int>, k: nat)
    requires 2 * k <= |rand| && IndexesIn(rand, n)
    ensures Sum(DoubleChoiceCounts(n, rand, k)) == k
    ensures forall j :: 0 <= j < n ==> 0 <= DoubleChoiceCounts(n, rand, k)[j] <= k
  {
    if k == 0 {
      SumZeros(n);
    } else {
      var c := DoubleChoiceCounts(n, rand, k - 1);
      DoubleChoiceSum(n, rand, k - 1);
      SumUpdate(c, Choose(c, rand[2 * k - 2], rand[2 * k - 1]), 1);
    }
  }

  /** When both indexes of every draw agree, double choice is chaining. */
  lemma {:induction false} DoubleChoiceOfEqualPairs(n: nat, rand: seq<int>, k: nat)
    requires 2 * k <= |rand| && IndexesIn(rand, n)
    requires forall i :: 0 <= i < k ==> rand[2 * i] == rand[2 * i + 1]
    ensures DoubleChoiceCounts(n, rand, k) == Tally(n, seq(k, i requires 0 <= i < k => rand[2 * i]))
  {
    if k > 0 {
      DoubleChoiceOfEqualPairs(n, rand, k - 1);
      var firsts := seq(k, i requires 0 <= i < k => rand[2 * i]);
      assert firsts[..k - 1] == seq(k - 1, i requires 0 <= i < k - 1 => rand[2 * i]);
      assert rand[2 * (k - 1)] == rand[2 * (k - 1) + 1];
    }
  }

  // ---------------------------------------------------------- linear probing

  /** The box `e` steps after `first`, wrapping past the last box once. */
  function Step(first: int, e: int, n: int): (b: int)
    requires 0 <= first < n && 0 <= e <= n
    ensures 0 <= b < n
  {
    if first + e < n then first + e else first + e - n
  }

  /** The box a linear probe from `first` settles on: the first empty box
    * at step `d` or later, or -1 when the steps up to the `n`-th find none. */
  function LinearSlot(c: seq<int>, first: int, d: nat): (s: int)
    requires 0 <= first < |c|
    ensures s == -1 || (0 <= s < |c| && c[s] == 0)
    decreases |c| - d
  {
    if d >= |c| then -1
    else if c[Step(first, d, |c|)] == 0 then Step(first, d, |c|)
    else LinearSlot(c, first, d + 1)
  }

  /** The probe finds nothing exactly when every box from step `d` on is
    * full, and otherwise stops at the first empty one. */
  lemma {:induction false} LinearSlotSpec(c: seq<int>, first: int, d: nat)
    requires 0 <= first < |c|
    ensures LinearSlot(c, first, d) == -1 <==> forall e :: d <= e < |c| ==> c[Step(first, e, |c|)] != 0
    ensures LinearSlot(c, first, d) != -1 ==>
              exists e :: d <= e < |c| && LinearSlot(c, first, d) == Step(first, e, |c|)
                          && forall f :: d <= f < e ==> c[Step(first, f, |c|)] != 0
    decreases |c| - d
  {
    if d < |c| && c[Step(first, d, |c|)] != 0 {
      LinearSlotSpec(c, first, d + 1);
    }
  }

  /** A row with fewer filled boxes than boxes has an empty one. */
  lemma {:induction false} EmptyBox(c: seq<int>) returns (k: int)
    requires Bits(c) && Occurrences(c, 1) < |c|
    ensures 0 <= k < |c| && c[k] == 0
  {
    var last := |c| - 1;
    if c[last] == 0 {
      k := last;
    } else {
      assert Bits(c[..last]);
      k := EmptyBox(c[..last]);
      assert c[k] == c[..last][k];
    }
  }

  /** While a box is empty, the linear probe finds one. */
  lemma LinearSlotFound(c: seq<int>, first: int)
    requires 0 <= first < |c| && Bits(c) && Occurrences(c, 1) < |c|
    ensures LinearSlot(c, first, 0) != -1
  {
    var k := EmptyBox(c);
    LinearSlotSpec(c, first, 0);
    var e := if k >= first then k - first else k - first + |c|;
    ModBelowTwice(first + e, |c|);
    assert Step(first, e, |c|) == k;
  }

  /** A probe that has passed only full boxes is not back at its first box
    * while some box is empty. */
  lemma NoFullCircle(c: seq<int>, first: int, d: int)
    requires 0 <= first < |c| && 0 < d <= |c| && Bits(c) && Occurrences(c, 1) < |c|
    requires forall e :: 0 <= e < d ==> c[Step(first, e, |c|)] != 0
    ensures Step(first, d, |c|) != first
  {
    ModBelowTwice(first + d, |c|);
    if d == |c| {
      LinearSlotFound(c, first);
      LinearSlotSpec(c, first, 0);
    }
  }

  /** Moving one box on from step `d` reaches step `d + 1`. */
  lemma StepNext(first: int, d: int, n: int)
    requires 0 <= first < n && 0 <= d < n
    ensures (Step(first, d, n) + 1) % n == Step(first, d + 1, n)
    ensures d + 1 == n ==> Step(first, d + 1, n) == first
  {
    ModBelowTwice(first + d, n);
    ModBelowTwice(first + d + 1, n);
    if first + d + 1 < n {
    } else if first + d + 1 == n {
      ModBelowTwice(n, n);
    } else {
      ModBelowTwice(first + d + 1 - n, n);
    }
  }

  lemma ModBelowTwice(x: int, n: int)
    requires 0 <= x < 2 * n
    ensures x % n == (if x < n then x else x - n)
  {
    if x >= n {
      assert (x - n) % n == x - n;
    }
  }

  /** The box a probe stops at, when every box before it was full, is the
    * one `LinearSlot` names. */
  lemma LinearSlotIs(c: seq<int>, first: int, d: int)
    requires 0 <= first < |c| && 0 <= d < |c|
    requires c[Step(first, d, |c|)] == 0
    requires forall e :: 0 <= e < d ==> c[Step(first, e, |c|)] != 0
    ensures LinearSlot(c, first, 0) == Step(first, d, |c|)
  {
    var s := LinearSlot(c, first, 0);
    LinearSlotSpec(c, first, 0);
    var e :| 0 <= e < |c| && s == Step(first, e, |c|) && forall f :: 0 <= f < e ==> c[Step(first, f, |c|)] != 0;
  }

  /** The counts after `k` linear-probing draws from the starts `rand`. */
  function LinearCounts(n: nat, rand: seq<int>, k: nat): (c: seq<int>)
    requires n > 0 && k <= |rand| && IndexesIn(rand, n)
    ensures |c| == n
  {
    if k == 0 then Zeros(n)
    else
      var c := LinearCounts(n, rand, k - 1);
      var s := LinearSlot(c, rand[k - 1], 0);
      if s == -1 then c else c[s := 1]
  }

  /** Up to `n` draws, linear probing fills one more empty box per draw:
    * every box holds 0 or 1 ball and `k` boxes are filled. */
  lemma {:induction false} LinearCountsFill(n: nat, rand: seq<int>, k: nat)
    requires n > 0 && k <= |rand| && IndexesIn(rand, n) && k <= n
    ensures Bits(LinearCounts(n, rand, k))
    ensures Occurrences(LinearCounts(n, rand, k), 1) == k
    ensures Sum(LinearCounts(n, rand, k)) == k
  {
    var c := LinearCounts(n, rand, k);
    if k == 0 {
      OccurrencesOfZeros(n, 1);
    } else {
      var prev := LinearCounts(n, rand, k - 1);
      LinearCountsFill(n, rand, k - 1);
      LinearSlotFound(prev, rand[k - 1]);
      var s := LinearSlot(prev, rand[k - 1], 0);
      OccurrencesUpdate(prev, s, 1, 1);
    }
    SumOfBits(c);
  }

  /** The colours the second-generation open-addressing run gives its
    * boxes: GREEN when the first probed box was empty, RED when the probe
    * had to move on. Boxes start GREEN. */
  function LinearColors(n: nat, rand: seq<int>, k: nat): (colors: seq<Color>)
    requires n > 0 && k <= |rand| && IndexesIn(rand, n)
    ensures |colors| == n
  {
    if k == 0 then Greens(n)
    else
      var c := LinearCounts(n, rand, k - 1);
      var colors := LinearColors(n, rand, k - 1);
      var s := LinearSlot(c, rand[k - 1], 0);
      if s == -1 then colors else colors[s := if c[rand[k - 1]] != 0 then Red else Green]
  }

  /** Draw `i` found the box it drew full and moved its ball on into box
    * `j`. */
  predicate Displaced(n: nat, rand: seq<int>, i: nat, j: int)
    requires n > 0 && i < |rand| && IndexesIn(rand, n)
  {
    var c := LinearCounts(n, rand, i);
    LinearSlot(c, rand[i], 0) == j && c[rand[i]] != 0
  }

  /** A box filled by draw `i` stays filled after every later draw. */
  lemma {:induction false} FilledStays(n: nat, rand: seq<int>, i: nat, m: nat)
    requires n > 0 && i < m <= |rand| && IndexesIn(rand, n)
    requires LinearSlot(LinearCounts(n, rand, i), rand[i], 0) != -1
    ensures LinearCounts(n, rand, m)[LinearSlot(LinearCounts(n, rand, i), rand[i], 0)] == 1
  {
    if m > i + 1 {
      FilledStays(n, rand, i, m - 1);
    }
  }

  /** A box is RED exactly when some earlier draw found its drawn box full
    * and moved its ball on into it; a RED box is filled. */
  lemma {:induction false} RedBoxesAreFilled(n: nat, rand: seq<int>, k: nat)
    requires n > 0 && k <= |rand| && IndexesIn(rand, n)
    ensures forall j :: 0 <= j < n ==>
              (LinearColors(n, rand, k)[j] == Red <==> exists i :: 0 <= i < k && Displaced(n, rand, i, j))
    ensures forall j :: 0 <= j < n && LinearColors(n, rand, k)[j] == Red ==> LinearCounts(n, rand, k)[j] == 1
  {
    if k > 0 {
      RedBoxesAreFilled(n, rand, k - 1);
      var c := LinearCounts(n, rand, k - 1);
      var s := LinearSlot(c, rand[k - 1], 0);
      forall j | 0 <= j < n
        ensures LinearColors(n, rand, k)[j] == Red <==> exists i :: 0 <= i < k && Displaced(n, rand, i, j)
      {
        if j == s {
          // By the previous step, a box an earlier draw moved a ball into
          // is RED and full, but the last draw found `s` empty.
          assert LinearColors(n, rand, k)[j] == Red <==> Displaced(n, rand, k - 1, j);
        } else {
          assert LinearColors(n, rand, k)[j] == LinearColors(n, rand, k - 1)[j];
          assert !Displaced(n, rand, k - 1, j);
          if exists i :: 0 <= i < k && Displaced(n, rand, i, j) {
            var i :| 0 <= i < k && Displaced(n, rand, i, j);
            assert i < k - 1;
          }
        }
      }
    }
  }

  // -------------------------------------------------------- quadratic probing

  /** `MAX_TRY`: the largest probe step of one start. */
  const MAX_TRY: nat := 50
  /** `MAX_COMPUTE`: the number of starts drawn before giving up. */
  const MAX_COMPUTE: nat := 3

  /** `x % n` for a non-negative `x`, by repeated subtraction (Java's `%`
    * and Dafny's agree there). */
  function ModBoxes(x: nat, n: nat): (r: nat)
    requires n > 0
    ensures r < n
  {
    if x < n then x else ModBoxes(x - n, n)
  }

  lemma {:induction false} ModBoxesIsMod(x: nat, n: nat)
    requires n > 0
    ensures ModBoxes(x, n) == x % n
  {
    if x >= n {
      ModBoxesIsMod(x - n, n);
      ModShift(x, n);
    }
  }

  /** Taking `n` away leaves the remainder modulo `n` alone. */
  lemma ModShift(x: nat, n: nat)
    requires n > 0 && x >= n
    ensures (x - n) % n == x % n
  {
    var q1, r1 := (x - n) / n, (x - n) % n;
    var q2, r2 := x / n, x % n;
    assert x - n == n * q1 + r1 && x == n * q2 + r2;
    assert n * q2 + r2 == n * (q1 + 1) + r1;
    if q2 > q1 + 1 {
      MulAtLeast(n, q2 - q1 - 1);
      assert false;
    } else if q2 < q1 + 1 {
      MulAtLeast(n, q1 + 1 - q2);
      assert false;
    }
  }

  /** `(first + delta * delta) % n`: the box a quadratic probe from `first`
    * looks at in step `delta`. */
  function QuadIndex(first: nat, delta: nat, n: nat): (b: nat)
    requires n > 0
    ensures b < n
  {
    ModBoxes(first + delta * delta, n)
  }

  /** The step at which a quadratic probe from `first` stops: the first
    * step from `delta` on that finds an empty box, or `MAX_TRY + 1` when
    * none up to `MAX_TRY` does. */
  function QuadSearch(c: seq<int>, first: int, delta: nat): (d: nat)
    requires 0 <= first < |c| && delta <= MAX_TRY + 1
    ensures delta <= d <= MAX_TRY + 1
    ensures d <= MAX_TRY ==> c[QuadIndex(first, d, |c|)] == 0
    ensures forall e :: delta <= e < d ==> c[QuadIndex(first, e, |c|)] != 0
    decreases MAX_TRY + 1 - delta
  {
    if c[QuadIndex(first, delta, |c|)] == 0 || delta > MAX_TRY then delta
    else QuadSearch(c, first, delta + 1)
  }

  /** The outcome of one draw: the box found and whether it is the first
    * box probed from the first start, or the starts that all failed. */
  datatype QuadPlacement = Placed(slot: int, original: bool) | Exhausted(starts: seq<int>)

  /** One draw tries the starts `tries[retry..]` in turn. */
  function QuadAttempt(c: seq<int>, tries: seq<int>, retry: nat): (p: QuadPlacement)
    requires |tries| == MAX_COMPUTE && retry <= MAX_COMPUTE && IndexesIn(tries, |c|)
    ensures p.Placed? ==> 0 <= p.slot < |c| && c[p.slot] == 0
    ensures p.Exhausted? ==> p.starts == tries
    decreases MAX_COMPUTE - retry
  {
    if retry == MAX_COMPUTE then Exhausted(tries)
    else
      var d := QuadSearch(c, tries[retry], 0);
      if d <= MAX_TRY then Placed(QuadIndex(tries[retry], d, |c|), retry == 0 && d == 0)
      else QuadAttempt(c, tries, retry + 1)
  }

  /** One start of a draw: the draw places its ball from `tries[retry]`
    * when the search from it stays within `MAX_TRY`, and otherwise goes on
    * with the next start. */
  lemma QuadAttemptStep(c: seq<int>, tries: seq<int>, retry: nat, d: nat)
    requires |tries| == MAX_COMPUTE && retry < MAX_COMPUTE && IndexesIn(tries, |c|)
    requires d == QuadSearch(c, tries[retry], 0)
    ensures d <= MAX_TRY ==>
              QuadAttempt(c, tries, retry) == Placed(QuadIndex(tries[retry], d, |c|), retry == 0 && d == 0)
    ensures d > MAX_TRY ==> QuadAttempt(c, tries, retry) == QuadAttempt(c, tries, retry + 1)
  {
  }

  /** When every start before `retry` fails, the draw places its ball where
    * the starts from `retry` on place it. */
  lemma {:induction false} QuadAttemptSkips(c: seq<int>, tries: seq<int>, retry: nat)
    requires |tries| == MAX_COMPUTE && retry <= MAX_COMPUTE && IndexesIn(tries, |c|)
    requires forall j :: 0 <= j < retry ==> QuadSearch(c, tries[j], 0) > MAX_TRY
    ensures QuadAttempt(c, tries, 0) == QuadAttempt(c, tries, retry)
    decreases retry
  {
    if retry > 0 {
      QuadAttemptSkips(c, tries, retry - 1);
      QuadAttemptStep(c, tries, retry - 1, QuadSearch(c, tries[retry - 1], 0));
    }
  }

  /** The draw places its ball from the first start whose search stays
    * within `MAX_TRY`. */
  lemma PlacedFrom(c: seq<int>, tries: seq<int>, retry: nat, d: nat)
    requires |tries| == MAX_COMPUTE && retry < MAX_COMPUTE && IndexesIn(tries, |c|)
    requires forall j :: 0 <= j < retry ==> QuadSearch(c, tries[j], 0) > MAX_TRY
    requires d == QuadSearch(c, tries[retry], 0) && d <= MAX_TRY
    ensures QuadAttempt(c, tries, 0) == Placed(QuadIndex(tries[retry], d, |c|), retry == 0 && d == 0)
  {
    QuadAttemptSkips(c, tries, retry);
    QuadAttemptStep(c, tries, retry, d);
  }

  /** The draw gives up, with all its starts, when every search fails. */
  lemma ExhaustedAll(c: seq<int>, tries: seq<int>)
    requires |tries| == MAX_COMPUTE && IndexesIn(tries, |c|)
    requires forall j :: 0 <= j < MAX_COMPUTE ==> QuadSearch(c, tries[j], 0) > MAX_TRY
    ensures QuadAttempt(c, tries, 0) == Exhausted(tries)
  {
    QuadAttemptSkips(c, tries, MAX_COMPUTE);
  }

  /** `QuadAttempt(c, tries, 0) == p`, stated through a quantifier so that
    * the verifier unfolds the attempt only where a proof names it. */
  ghost predicate AttemptIs(c: seq<int>, tries: seq<int>, p: QuadPlacement)
    requires |tries| == MAX_COMPUTE && IndexesIn(tries, |c|)
  {
    forall r :: 0 <= r <= 0 ==> QuadAttempt(c, tries, r) == p
  }

  lemma AttemptIsIntro(c: seq<int>, tries: seq<int>, p: QuadPlacement)
    requires |tries| == MAX_COMPUTE && IndexesIn(tries, |c|) && QuadAttempt(c, tries, 0) == p
    ensures AttemptIs(c, tries, p)
  {
    forall r | 0 <= r <= 0
      ensures QuadAttempt(c, tries, r) == p
    {
      assert r == 0;
    }
  }

  lemma AttemptIsElim(c: seq<int>, tries: seq<int>, p: QuadPlacement)
    requires |tries| == MAX_COMPUTE && IndexesIn(tries, |c|) && AttemptIs(c, tries, p)
    ensures QuadAttempt(c, tries, 0) == p
  {
  }

  /** An attempt places its ball in an empty box, or gives up with the
    * starts it was given. */
  lemma AttemptIsSound(c: seq<int>, tries: seq<int>, p: QuadPlacement)
    requires |tries| == MAX_COMPUTE && IndexesIn(tries, |c|) && AttemptIs(c, tries, p)
    ensures p.Placed? ==> 0 <= p.slot < |c| && c[p.slot] == 0
    ensures p.Exhausted? ==> p.starts == tries
  {
    AttemptIsElim(c, tries, p);
  }

  /** The state of a first-generation quadratic run after some draws: the
    * counts and `original` flags of its boxes, or the starts of the draw
    * that gave up. */
  datatype QuadRun = Running(counts: seq<int>, originals: seq<bool>) | GaveUp(starts: seq<int>)

  /** One draw of a quadratic run; a run that gave up stays so. */
  function QuadDraw(r: QuadRun, tries: seq<int>): (next: QuadRun)
    requires r.Running? ==> |r.counts| == |r.originals| && |tries| == MAX_COMPUTE && IndexesIn(tries, |r.counts|)
    ensures next.Running? ==> r.Running? && |next.counts| == |r.counts| && |next.originals| == |r.originals|
  {
    match r
    case GaveUp(starts) => GaveUp(starts)
    case Running(c, o) => Place(c, o, QuadAttempt(c, tries, 0))
  }

  /** The state after a placement: the box gains a ball and records whether
    * it was the first one probed; an exhausted draw gives up. */
  function Place(c: seq<int>, o: seq<bool>, p: QuadPlacement): (next: QuadRun)
    requires |c| == |o| && (p.Placed? ==> 0 <= p.slot < |c|)
    ensures next.Running? ==> |next.counts| == |c| && |next.originals| == |o|
  {
    match p
    case Exhausted(starts) => GaveUp(starts)
    case Placed(j, first) => Running(c[j := c[j] + 1], o[j := first])
  }

  /** The starts each draw may use: `MAX_COMPUTE` boxes per draw. */
  predicate StartsIn(starts: seq<seq<int>>, n: int)
  {
    forall i :: 0 <= i < |starts| ==> |starts[i]| == MAX_COMPUTE && IndexesIn(starts[i], n)
  }

  /** The run after `k` draws; draw `i` takes its starts from `starts[i]`. */
  function QuadraticRun(n: nat, starts: seq<seq<int>>, k: nat): (r: QuadRun)
    requires n > 0 && k <= |starts| && StartsIn(starts, n)
    ensures r.Running? ==> |r.counts| == n && |r.originals| == n
  {
    if k == 0 then Running(Zeros(n), seq(n, _ => false))
    else QuadDraw(QuadraticRun(n, starts, k - 1), starts[k - 1])
  }

  /** One more draw of a running run: `QuadAttempt` on its counts decides. */
  lemma QuadraticRunStep(n: nat, starts: seq<seq<int>>, i: nat, c: seq<int>, o: seq<bool>)
    requires n > 0 && i < |starts| && StartsIn(starts, n) && |c| == n && |o| == n
    requires QuadraticRun(n, starts, i) == Running(c, o)
    ensures QuadraticRun(n, starts, i + 1) == Place(c, o, QuadAttempt(c, starts[i], 0))
  {
  }

  lemma PlaceIs(c: seq<int>, o: seq<bool>, p: QuadPlacement)
    requires |c| == |o| && (p.Placed? ==> 0 <= p.slot < |c|)
    ensures p.Placed? ==> Place(c, o, p) == Running(c[p.slot := c[p.slot] + 1], o[p.slot := p.original])
    ensures p.Exhausted? ==> Place(c, o, p) == GaveUp(p.starts)
  {
  }

  /** A run that gave up stays given up, with the starts of the draw that
    * failed. */
  lemma {:induction false} GaveUpIsFinal(n: nat, starts: seq<seq<int>>, k: nat, m: nat)
    requires n > 0 && k <= m <= |starts| && StartsIn(starts, n)
    requires QuadraticRun(n, starts, k).GaveUp?
    ensures QuadraticRun(n, starts, m) == QuadraticRun(n, starts, k)
    decreases m
  {
    if k < m {
      GaveUpIsFinal(n, starts, k, m - 1);
      var r := QuadraticRun(n, starts, m - 1);
      assert QuadraticRun(n, starts, m) == QuadDraw(r, starts[m - 1]);
    }
  }

  /** Facts about a running quadratic state: every box holds 0 or 1 ball,
    * `k` boxes are filled, and a box marked original is filled. */
  predicate QuadFilled(r: QuadRun, k: nat)
    requires r.Running? && |r.counts| == |r.originals|
  {
    Bits(r.counts) && Occurrences(r.counts, 1) == k
    && forall j :: 0 <= j < |r.counts| && r.originals[j] ==> r.counts[j] == 1
  }

  /** A quadratic state after `k` draws: still running with `k` boxes
    * filled, or given up. */
  predicate FilledAfter(r: QuadRun, k: nat)
  {
    r.Running? ==> |r.counts| == |r.originals| && QuadFilled(r, k) && Sum(r.counts) == k
  }

  /** While a quadratic run goes on, each draw fills one more empty box. */
  lemma {:induction false} QuadraticRunFill(n: nat, starts: seq<seq<int>>, k: nat)
    requires n > 0 && k <= |starts| && StartsIn(starts, n)
    ensures FilledAfter(QuadraticRun(n, starts, k), k)
  {
    if k == 0 {
      StartFilled(n);
    } else {
      QuadraticRunFill(n, starts, k - 1);
      QuadDrawFills(QuadraticRun(n, starts, k - 1), starts[k - 1], k - 1);
    }
  }

  lemma StartFilled(n: nat)
    ensures FilledAfter(Running(Zeros(n), seq(n, _ => false)), 0)
  {
    OccurrencesOfZeros(n, 1);
    SumZeros(n);
  }

  /** One draw keeps the facts, with one more box filled. */
  lemma QuadDrawFills(r: QuadRun, tries: seq<int>, k: nat)
    requires r.Running? ==> |r.counts| == |r.originals| && |tries| == MAX_COMPUTE && IndexesIn(tries, |r.counts|)
    requires FilledAfter(r, k)
    ensures FilledAfter(QuadDraw(r, tries), k + 1)
  {
    if r.Running? {
      var c, o := r.counts, r.originals;
      var p := QuadAttempt(c, tries, 0);
      assert QuadDraw(r, tries) == Place(c, o, p);
      PlaceFills(c, o, p, k);
    }
  }

  /** Putting a ball into an empty box of a filled state keeps the facts;
    * giving up ends them. */
  lemma PlaceFills(c: seq<int>, o: seq<bool>, p: QuadPlacement, k: nat)
    requires |c| == |o| && (p.Placed? ==> 0 <= p.slot < |c| && c[p.slot] == 0)
    requires FilledAfter(Running(c, o), k)
    ensures FilledAfter(Place(c, o, p), k + 1)
  {
    if p.Placed? {
      var c' := c[p.slot := 1];
      OccurrencesUpdate(c, p.slot, 1, 1);
      SumOfBits(c');
    }
  }

  /** A square leaves remainder 0 or 1 modulo 4. */
  lemma {:induction false} SquareModFour(d: nat)
    ensures (d * d) % 4 == 0 || (d * d) % 4 == 1
  {
    if d >= 2 {
      SquareModFour(d - 2);
      SquareStep(d - 2);
    }
  }

  lemma SquareStep(d: nat)
    ensures (d + 2) * (d + 2) == d * d + 4 * (d + 1)
  {
  }

  /** With four boxes, a probe from box 0 only ever visits boxes 0 and 1. */
  lemma QuadSearchFromZeroOfFour(c: seq<int>, delta: nat)
    requires |c| == 4 && c[0] == 1 && c[1] == 1 && delta <= MAX_TRY + 1
    ensures QuadSearch(c, 0, delta) == MAX_TRY + 1
    decreases MAX_TRY + 1 - delta
  {
    SquareModFour(delta);
    ModBoxesIsMod(delta * delta, 4);
    if delta <= MAX_TRY {
      QuadSearchFromZeroOfFour(c, delta + 1);
    }
  }

  /** Unlike linear probing, quadratic probing can give up while boxes are
    * still empty: with four boxes, after boxes 0 and 1 are filled, three
    * starts at 0 fail and the third draw throws. */
  lemma QuadraticRunCanGiveUp()
    ensures QuadraticRun(4, [[0, 0, 0], [1, 1, 1], [0, 0, 0]], 3) == GaveUp([0, 0, 0])
  {
    var starts := [[0, 0, 0], [1, 1, 1], [0, 0, 0]];
    var c2 := QuadraticRunFirstTwo(starts);
    ThreeStartsAtZeroFail(c2);
  }

  /** With boxes 0 and 1 of four filled, three starts at 0 all fail. */
  lemma ThreeStartsAtZeroFail(c: seq<int>)
    requires |c| == 4 && c[0] == 1 && c[1] == 1
    ensures QuadAttempt(c, [0, 0, 0], 0) == Exhausted([0, 0, 0])
  {
    var tries: seq<int> := [0, 0, 0];
    assert |tries| == MAX_COMPUTE && IndexesIn(tries, |c|);
    QuadSearchFromZeroOfFour(c, 0);
    assert QuadAttempt(c, tries, 2) == Exhausted(tries);
    assert QuadAttempt(c, tries, 1) == Exhausted(tries);
  }

  lemma QuadraticRunFirstTwo(starts: seq<seq<int>>) returns (c2: seq<int>)
    requires starts == [[0, 0, 0], [1, 1, 1], [0, 0, 0]]
    ensures StartsIn(starts, 4)
    ensures QuadraticRun(4, starts, 2).Running? && QuadraticRun(4, starts, 2).counts == c2
    ensures |c2| == 4 && c2[0] == 1 && c2[1] == 1
  {
    var z := Zeros(4);
    assert QuadraticRun(4, starts, 0) == Running(z, seq(4, _ => false));
    assert QuadSearch(z, 0, 0) == 0;
    assert QuadAttempt(z, [0, 0, 0], 0) == Placed(0, true);
    var r1 := QuadraticRun(4, starts, 1);
    assert r1.Running? && r1.counts == z[0 := 1];
    var c1 := r1.counts;
    assert QuadSearch(c1, 1, 0) == 0;
    assert QuadAttempt(c1, [1, 1, 1], 0) == Placed(1, true);
    c2 := c1[1 := 1];
  }
}
