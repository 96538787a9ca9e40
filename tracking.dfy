/** The most-filled-box tracker every worker keeps while it draws, and the
  * summary text built from it. After each placement the worker raises
  * `maxBalls` when the box it just filled went above it (forgetting the
  * indexes it had listed), and then lists that box when its count equals
  * `maxBalls`. */
module Tracking {
  import opened JavaInt
  import opened Text

  datatype Tracker = Tracker(maxBalls: int, indexes: seq<int>)

  const START: Tracker := Tracker(0, [])

  /** The tracker update after box `index` now holds `balls`. */
  function Observe(t: Tracker, index: int, balls: int): Tracker
  {
    var raised := if t.maxBalls != Max(t.maxBalls, balls) then Tracker(Max(t.maxBalls, balls), []) else t;
    if balls == raised.maxBalls then Tracker(raised.maxBalls, raised.indexes + [index]) else raised
  }

  predicate NoDuplicates(s: seq<int>)
  {
    forall i, j :: 0 <= i < j < |s| ==> s[i] != s[j]
  }

  /** The tracker describes `counts`: `maxBalls` is the largest count, and
    * the listed indexes are exactly the boxes holding it (none while every
    * box is empty), each listed once. */
  ghost predicate TracksMaximum(counts: seq<int>, t: Tracker)
  {
    && t.maxBalls >= 0
    && (forall k :: 0 <= k < |counts| ==> counts[k] <= t.maxBalls)
    && (forall k :: k in t.indexes <==> 0 <= k < |counts| && 0 < t.maxBalls == counts[k])
    && (t.maxBalls > 0 ==> t.indexes != [])
    && NoDuplicates(t.indexes)
  }

  /** An all-empty row of boxes is described by the starting tracker. */
  lemma StartTracksZeros(counts: seq<int>)
    requires forall k :: 0 <= k < |counts| ==> counts[k] == 0
    ensures TracksMaximum(counts, START)
  {
  }

  /** The tracker stays exact when one box gains one ball. */
  lemma ObservePreserves(counts: seq<int>, t: Tracker, k: int)
    requires TracksMaximum(counts, t)
    requires 0 <= k < |counts| && counts[k] >= 0
    ensures TracksMaximum(counts[k := counts[k] + 1], Observe(t, k, counts[k] + 1))
  {
    var b := counts[k] + 1;
    var c := counts[k := b];
    var r := Observe(t, k, b);
    if b > t.maxBalls {
      assert r == Tracker(b, [k]);
      forall j | 0 <= j < |c|
        ensures c[j] <= r.maxBalls && (j in r.indexes <==> 0 < r.maxBalls == c[j])
      {
        if j != k {
          assert c[j] == counts[j] <= t.maxBalls < b;
        }
      }
    } else if b == t.maxBalls {
      assert r == Tracker(b, t.indexes + [k]);
      assert k !in t.indexes;
      forall j | 0 <= j < |c|
        ensures j in r.indexes <==> 0 < r.maxBalls == c[j]
      {
        assert j in r.indexes <==> j in t.indexes || j == k;
      }
    } else {
      assert r == t;
      assert k !in t.indexes;
    }
  }

  /** The update each worker runs after putting a ball into box `k` of
    * `counts`: `maxBalls = Math.max(maxBalls, balls)` (clearing the list
    * when it rises), then `add(k)` when the box reaches the maximum. */
  method ObserveBall(ghost counts: seq<int>, maxBalls: int, indexes: seq<int>, k: int, balls: int)
    returns (maxBalls': int, indexes': seq<int>)
    requires TracksMaximum(counts, Tracker(maxBalls, indexes))
    requires 0 <= k < |counts| && counts[k] >= 0 && balls == counts[k] + 1
    ensures TracksMaximum(counts[k := balls], Tracker(maxBalls', indexes'))
  {
    ObservePreserves(counts, Tracker(maxBalls, indexes), k);
    maxBalls', indexes' := maxBalls, indexes;
    if maxBalls' != Max(maxBalls', balls) {
      maxBalls' := Max(maxBalls', balls);
      indexes' := [];
    }
    if balls == maxBalls' {
      indexes' := indexes' + [k];
    }
  }

  /** Once a box is full to the maximum the tracker names at least one box
    * and its maximum is attained. */
  lemma TrackedMaximumIsAttained(counts: seq<int>, t: Tracker)
    requires TracksMaximum(counts, t) && t.maxBalls > 0
    ensures 0 <= t.indexes[0] < |counts| && counts[t.indexes[0]] == t.maxBalls
  {
    assert t.indexes[0] in t.indexes;
  }

  // -------------------------------------------- what the tracker must equal

  /** The largest count (0 for no boxes). */
  function MaxCount(counts: seq<int>): (m: int)
    ensures forall k :: 0 <= k < |counts| ==> counts[k] <= m
    ensures m == 0 || exists k :: 0 <= k < |counts| && counts[k] == m
  {
    if counts == [] then 0
    else
      var init := counts[..|counts| - 1];
      var m := Max(MaxCount(init), counts[|counts| - 1]);
      assert forall k :: 0 <= k < |init| ==> init[k] == counts[k];
      assert m == 0 || exists k :: 0 <= k < |counts| && counts[k] == m by {
        if m == counts[|counts| - 1] {
          assert counts[|counts| - 1] == m;
        } else if m != 0 {
          var k :| 0 <= k < |init| && init[k] == m;
          assert counts[k] == m;
        }
      }
      m
  }

  /** The indexes of the boxes holding exactly `m` balls, in ascending order. */
  function IndexesWith(counts: seq<int>, m: int): (r: seq<int>)
    ensures StrictlyAscending(r)
    ensures forall x :: x in r <==> 0 <= x < |counts| && counts[x] == m
  {
    if counts == [] then []
    else
      var init := counts[..|counts| - 1];
      var prev := IndexesWith(init, m);
      var r := prev + (if counts[|counts| - 1] == m then [|counts| - 1] else []);
      AppendLargerKeepsAscending(prev, |counts| - 1);
      assert forall k :: 0 <= k < |init| ==> init[k] == counts[k];
      assert forall x :: x in r <==> x in prev || (counts[|counts| - 1] == m && x == |counts| - 1);
      r
  }

  lemma AppendLargerKeepsAscending(prev: seq<int>, y: int)
    requires StrictlyAscending(prev)
    requires forall x :: x in prev ==> x < y
    ensures StrictlyAscending(prev + [y])
  {
    forall i, j | 0 <= i < j < |prev| + 1
      ensures (prev + [y])[i] < (prev + [y])[j]
    {
      if j == |prev| {
        assert prev[i] in prev;
      }
    }
  }

  /** The most filled boxes of `counts`: the tracker a run must end with,
    * up to the order of its list. */
  function MostFilled(counts: seq<int>): Tracker
  {
    var m := MaxCount(counts);
    Tracker(m, if m > 0 then IndexesWith(counts, m) else [])
  }

  predicate StrictlyAscending(s: seq<int>)
  {
    forall i, j :: 0 <= i < j < |s| ==> s[i] < s[j]
  }

  /** Two strictly ascending lists with the same elements are equal. */
  lemma {:induction false} StrictlyAscendingUnique(a: seq<int>, b: seq<int>)
    requires StrictlyAscending(a) && StrictlyAscending(b)
    requires forall x :: x in a <==> x in b
    ensures a == b
    decreases |a|
  {
    if a != [] {
      assert a[0] in a;
      assert a[0] in b;
    }
    if b != [] {
      assert b[0] in b;
      assert b[0] in a;
    }
    if a != [] && b != [] {
      assert a[0] == b[0] by {
        assert a[0] in a && b[0] in b;
        var i :| 0 <= i < |b| && b[i] == a[0];
        var j :| 0 <= j < |a| && a[j] == b[0];
        assert a[0] >= b[0] && b[0] >= a[0];
      }
      assert a == [a[0]] + a[1..] && b == [b[0]] + b[1..];
      forall x
        ensures x in a[1..] <==> x in b[1..]
      {
        if x in a[1..] {
          var k :| 0 <= k < |a[1..]| && a[1..][k] == x;
          assert x == a[k + 1] > a[0];
          assert x in b;
        }
        if x in b[1..] {
          var k :| 0 <= k < |b[1..]| && b[1..][k] == x;
          assert x == b[k + 1] > b[0];
          assert x in a;
        }
      }
      StrictlyAscendingUnique(a[1..], b[1..]);
    }
  }

  lemma {:induction false} NoDuplicatesMultiplicity(s: seq<int>, x: int)
    requires NoDuplicates(s)
    ensures multiset(s)[x] <= 1
  {
    if s != [] {
      NoDuplicatesMultiplicity(s[1..], x);
      assert s == [s[0]] + s[1..];
      if x == s[0] {
        assert x !in s[1..];
      }
    }
  }

  lemma RepeatCountsTwice(s: seq<int>, i: int, j: int)
    requires 0 <= i < j < |s| && s[i] == s[j]
    ensures multiset(s)[s[i]] >= 2
  {
    var x := s[i];
    assert s == s[..i] + [x] + s[i + 1..j] + [x] + s[j + 1..];
  }

  lemma AscendingWithoutRepeatsIsStrict(s: seq<int>)
    requires Ascending(s)
    requires forall x :: multiset(s)[x] <= 1
    ensures StrictlyAscending(s)
  {
    forall i, j | 0 <= i < j < |s|
      ensures s[i] < s[j]
    {
      if s[i] == s[j] {
        RepeatCountsTwice(s, i, j);
        assert false;
      }
    }
  }

  lemma TrackedMaximumIsMaxCount(counts: seq<int>, t: Tracker)
    requires TracksMaximum(counts, t)
    requires forall k :: 0 <= k < |counts| ==> counts[k] >= 0
    ensures t.maxBalls == MaxCount(counts)
  {
    var m := MaxCount(counts);
    if t.maxBalls > 0 {
      TrackedMaximumIsAttained(counts, t);
    }
  }

  lemma SortedTrackerList(indexes: seq<int>)
    requires NoDuplicates(indexes)
    ensures StrictlyAscending(SortAscending(indexes))
    ensures forall x :: x in SortAscending(indexes) <==> x in indexes
  {
    var sorted := SortAscending(indexes);
    forall x
      ensures multiset(sorted)[x] <= 1
    {
      NoDuplicatesMultiplicity(indexes, x);
    }
    AscendingWithoutRepeatsIsStrict(sorted);
    forall x
      ensures x in sorted <==> x in indexes
    {
      assert x in sorted <==> x in multiset(sorted);
      assert x in indexes <==> x in multiset(indexes);
    }
  }

  /** A tracker that describes `counts` is, once its list is sorted, the
    * most filled boxes of `counts`. */
  lemma TrackerIsMostFilled(counts: seq<int>, t: Tracker)
    requires TracksMaximum(counts, t)
    requires forall k :: 0 <= k < |counts| ==> counts[k] >= 0
    ensures Tracker(t.maxBalls, SortAscending(t.indexes)) == MostFilled(counts)
  {
    var m := MaxCount(counts);
    TrackedMaximumIsMaxCount(counts, t);
    var sorted := SortAscending(t.indexes);
    SortedTrackerList(t.indexes);
    var expected := MostFilled(counts).indexes;
    assert forall x :: x in sorted <==> x in expected;
    StrictlyAscendingUnique(sorted, expected);
  }

  // ---------------------------------------------------------------- sorting

  predicate Ascending(s: seq<int>)
  {
    forall i, j :: 0 <= i < j < |s| ==> s[i] <= s[j]
  }

  /** `x` placed before the first element it does not exceed. */
  function Insert(x: int, s: seq<int>): (r: seq<int>)
    ensures multiset(r) == multiset(s) + multiset{x}
  {
    if s == [] then [x]
    else if x <= s[0] then [x] + s
    else
      assert s == [s[0]] + s[1..];
      [s[0]] + Insert(x, s[1..])
  }

  /** Inserting into an ascending list keeps it ascending. */
  lemma {:induction false} InsertAscending(x: int, s: seq<int>)
    requires Ascending(s)
    ensures Ascending(Insert(x, s))
  {
    if s != [] && x > s[0] {
      var t := Insert(x, s[1..]);
      InsertAscending(x, s[1..]);
      forall j | 0 <= j < |t|
        ensures s[0] <= t[j]
      {
        assert t[j] in multiset(t);
        assert t[j] in multiset(s[1..]) || t[j] == x;
      }
    }
  }

  /** `stream().sorted()`: the indexes in ascending order. */
  function SortAscending(s: seq<int>): (r: seq<int>)
    ensures Ascending(r) && multiset(r) == multiset(s)
  {
    if s == [] then []
    else
      assert s == [s[0]] + s[1..];
      var rest := SortAscending(s[1..]);
      InsertAscending(s[0], rest);
      Insert(s[0], rest)
  }

  // ---------------------------------------------------------------- summary

  /** "Most filled boxes (k balls): ", the first generation's heading. */
  function BoxesHeading(maxBalls: int): string
  {
    "Most filled boxes (" + IntToString(maxBalls) + " balls): "
  }

  /** "Most filled box (k balls): ", the second generation's heading. */
  function BoxHeading(maxBalls: int): string
  {
    "Most filled box (" + IntToString(maxBalls) + " balls): "
  }

  /** Both headings end with ": ", never with the list separator, and start
    * with a visible letter. */
  lemma HeadingsAreSafe(maxBalls: int)
    ensures !EndsWith(BoxesHeading(maxBalls), SEPARATOR) && !EndsWith(BoxHeading(maxBalls), SEPARATOR)
    ensures BoxesHeading(maxBalls)[0] == 'M' && BoxHeading(maxBalls)[0] == 'M'
  {
    var h1 := BoxesHeading(maxBalls);
    var h2 := BoxHeading(maxBalls);
    assert h1[|h1| - 2] == ':';
    assert h2[|h2| - 2] == ':';
  }

  /** The summary of the most filled boxes: the heading, then their indexes
    * in ascending order separated by ", ". */
  function Summary(heading: string, t: Tracker): string
  {
    heading + Join(SortAscending(t.indexes))
  }

  /** The summary a run ends with depends only on the final counts. */
  lemma SummaryOfTracker(heading: string, counts: seq<int>, t: Tracker)
    requires TracksMaximum(counts, t)
    requires forall k :: 0 <= k < |counts| ==> counts[k] >= 0
    ensures t.maxBalls == MostFilled(counts).maxBalls
    ensures Summary(heading, t) == heading + Join(MostFilled(counts).indexes)
  {
    TrackerIsMostFilled(counts, t);
  }

  /** A summary is never blank, so every result record accepts it. */
  lemma SummaryNotBlank(maxBalls: int, t: Tracker)
    ensures !IsBlank(Summary(BoxesHeading(maxBalls), t))
    ensures !IsBlank(Summary(BoxHeading(maxBalls), t))
  {
    HeadingsAreSafe(maxBalls);
    NotBlankWitness(Summary(BoxesHeading(maxBalls), t), 0);
    NotBlankWitness(Summary(BoxHeading(maxBalls), t), 0);
  }

  /** The second generation's summary of a row with ball counts
    * `counts`: the largest count, then the boxes holding it in ascending
    * order. */
  function BoxInformation(counts: seq<int>): string
  {
    BoxHeading(MostFilled(counts).maxBalls) + Join(MostFilled(counts).indexes)
  }

  /** `generateInformation(maxBalls, maxBoxesIndexes)` of the second
    * generation: the StringBuilder loop over the sorted indexes, with its
    * trailing separator cut. */
  function GenerateInformation(maxBalls: int, indexes: seq<int>): (s: string)
    ensures s == Summary(BoxHeading(maxBalls), Tracker(maxBalls, indexes))
    ensures !IsBlank(s)
  {
    HeadingsAreSafe(maxBalls);
    StripAppendEach(BoxHeading(maxBalls), SortAscending(indexes));
    SummaryNotBlank(maxBalls, Tracker(maxBalls, indexes));
    StripSeparator(BoxHeading(maxBalls) + AppendEach(SortAscending(indexes)))
  }

  /** What the second generation's `generateInformation` reports from a
    * tracker that follows a row: the summary of the row itself. */
  lemma GenerateInformationOfTracker(counts: seq<int>, t: Tracker)
    requires TracksMaximum(counts, t)
    requires forall k :: 0 <= k < |counts| ==> counts[k] >= 0
    ensures t.maxBalls == MostFilled(counts).maxBalls
    ensures GenerateInformation(t.maxBalls, t.indexes) == BoxInformation(counts)
  {
    SummaryOfTracker(BoxHeading(t.maxBalls), counts, t);
  }
}
