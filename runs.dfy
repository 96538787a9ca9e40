/** What every worker's `doInBackground` shares: the cancellation flag it
  * polls, the progress values it reports, and counting over box contents.
  *
  * `isCancelled()` is an oracle. A `SwingWorker` that has been cancelled
  * stays cancelled, so the oracle is a threshold: poll number `t` (counting
  * from 0 in the order the worker makes its calls) answers true exactly
  * when `t` has reached the poll at which cancellation arrived. */
module Runs {
  import opened JavaInt

  datatype Cancellation = Never | FromPoll(poll: nat)

  predicate IsCancelled(c: Cancellation, t: nat)
  {
    c.FromPoll? && t >= c.poll
  }

  /** Once a poll has answered true, every later poll does too. */
  lemma CancellationIsSticky(c: Cancellation, t: nat, u: nat)
    requires IsCancelled(c, t) && t <= u
    ensures IsCancelled(c, u)
  {
  }

  /** How many draws a loop `for (i = 0; i < draws && !isCancelled(); ++i)`
    * makes, poll `i` being made before draw `i`: all of them, unless a poll
    * before the last draw answers true. */
  function DrawsMade(c: Cancellation, draws: nat): (k: nat)
    ensures k <= draws
    ensures k < draws ==> IsCancelled(c, k)
    ensures forall j :: 0 <= j < k ==> !IsCancelled(c, j)
  {
    if c.FromPoll? && c.poll < draws then c.poll else draws
  }

  // --------------------------------------------------------------- progress

  /** `Math.min(98, i * 100 / draws)`, reported after draw `i`. */
  function DrawProgress(i: nat, draws: nat): int
    requires draws > 0
  {
    Min(98, i * 100 / draws)
  }

  /** The progress values of the first `k` draws, after the initial 0. */
  function ProgressUpTo(k: nat, draws: nat): (p: seq<int>)
    requires draws > 0
    ensures |p| == k + 1 && p[0] == 0
  {
    if k == 0 then [0] else ProgressUpTo(k - 1, draws) + [DrawProgress(k - 1, draws)]
  }

  /** Every value a finished run reports: 0, one value per draw, 99, 100. */
  function ProgressTrace(draws: nat): seq<int>
    requires draws > 0
  {
    ProgressUpTo(draws, draws) + [99, 100]
  }

  predicate IsPrefix(p: seq<int>, q: seq<int>)
  {
    |p| <= |q| && p == q[..|p|]
  }

  predicate Monotone(p: seq<int>)
  {
    forall i, j :: 0 <= i <= j < |p| ==> p[i] <= p[j]
  }

  lemma {:induction false} ProgressUpToMonotone(k: nat, draws: nat)
    requires draws > 0 && k <= draws
    ensures Monotone(ProgressUpTo(k, draws))
    ensures forall i :: 0 <= i < |ProgressUpTo(k, draws)| ==> 0 <= ProgressUpTo(k, draws)[i] <= 98
  {
    if k > 0 {
      ProgressUpToMonotone(k - 1, draws);
      var p := ProgressUpTo(k - 1, draws);
      if k >= 2 {
        assert p[k - 1] == DrawProgress(k - 2, draws) by {
          assert p == ProgressUpTo(k - 2, draws) + [DrawProgress(k - 2, draws)];
        }
        assert (k - 2) * 100 / draws <= (k - 1) * 100 / draws by {
          DivMonotone((k - 2) * 100, (k - 1) * 100, draws);
        }
      }
      assert 0 <= (k - 1) * 100 / draws;
    }
  }

  lemma DivMonotone(a: nat, b: nat, d: nat)
    requires a <= b && d > 0
    ensures a / d <= b / d
  {
    var qa, qb := a / d, b / d;
    if qa > qb {
      assert a == d * qa + a % d && b == d * qb + b % d;
      MulAtLeast(d, qa - qb);
      assert false;
    }
  }

  lemma {:induction false} MulAtLeast(d: nat, k: nat)
    requires k >= 1
    ensures d * k >= d
  {
    if k > 1 {
      MulAtLeast(d, k - 1);
      assert d * k == d * (k - 1) + d;
    }
  }

  /** A finished run reports non-decreasing values from 0 to 100. */
  lemma ProgressTraceMonotone(draws: nat)
    requires draws > 0
    ensures Monotone(ProgressTrace(draws))
    ensures ProgressTrace(draws)[0] == 0 && ProgressTrace(draws)[|ProgressTrace(draws)| - 1] == 100
    ensures forall i :: 0 <= i < |ProgressTrace(draws)| ==> 0 <= ProgressTrace(draws)[i] <= 100
  {
    ProgressUpToMonotone(draws, draws);
  }

  /** What a cancelled run has reported is the start of what a finished one
    * would have reported. */
  lemma {:induction false} ProgressUpToIsPrefix(k: nat, draws: nat)
    requires 0 < draws && k <= draws
    ensures IsPrefix(ProgressUpTo(k, draws), ProgressTrace(draws))
    decreases draws - k
  {
    if k < draws {
      ProgressUpToIsPrefix(k + 1, draws);
      assert ProgressUpTo(k + 1, draws)[..k + 1] == ProgressUpTo(k, draws);
    }
  }

  // --------------------------------------------------------------- counting

  /** The total number of balls. */
  function Sum(s: seq<int>): int
  {
    if s == [] then 0 else Sum(s[..|s| - 1]) + s[|s| - 1]
  }

  /** How many times `k` occurs in `s`. */
  function Occurrences(s: seq<int>, k: int): nat
  {
    if s == [] then 0 else Occurrences(s[..|s| - 1], k) + (if s[|s| - 1] == k then 1 else 0)
  }

  function Zeros(n: nat): (z: seq<int>)
    ensures |z| == n && forall i :: 0 <= i < n ==> z[i] == 0
  {
    seq(n, _ => 0)
  }

  lemma {:induction false} SumZeros(n: nat)
    ensures Sum(Zeros(n)) == 0
  {
    if n > 0 {
      SumZeros(n - 1);
      assert Zeros(n)[..n - 1] == Zeros(n - 1);
    }
  }

  /** Adding `d` to one entry adds `d` to the total. */
  lemma {:induction false} SumUpdate(s: seq<int>, k: int, d: int)
    requires 0 <= k < |s|
    ensures Sum(s[k := s[k] + d]) == Sum(s) + d
    decreases |s|
  {
    var t := s[k := s[k] + d];
    if k < |s| - 1 {
      SumUpdate(s[..|s| - 1], k, d);
      assert t[..|t| - 1] == s[..|s| - 1][k := s[k] + d];
    } else {
      assert t[..|t| - 1] == s[..|s| - 1];
    }
  }

  /** The entries of a list of zeros and ones add up to the number of ones. */
  lemma {:induction false} SumOfBits(s: seq<int>)
    requires forall i :: 0 <= i < |s| ==> 0 <= s[i] <= 1
    ensures Sum(s) == Occurrences(s, 1)
  {
    if s != [] {
      SumOfBits(s[..|s| - 1]);
    }
  }
}
