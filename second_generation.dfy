/** What the second-generation workers share around their draw loops:
  * the chunk each draw publishes, and the tracker they hold at the end. */
module SecondGeneration {
  import opened Wrappers
  import opened JavaInt
  import opened Tracking
  import opened Results
  import opened DomainObjects

  /** At the end of a run the tracker holds the largest count, which fits
    * in an int, and reports the summary of the row. */
  lemma FinalTracker(counts: seq<int>, t: Tracker)
    requires TracksMaximum(counts, t)
    requires forall k :: 0 <= k < |counts| ==> 0 <= counts[k] <= MAX_INT
    ensures 0 <= t.maxBalls <= MAX_INT && t.maxBalls == MostFilled(counts).maxBalls
    ensures GenerateInformation(t.maxBalls, t.indexes) == BoxInformation(counts)
  {
    GenerateInformationOfTracker(counts, t);
    if t.maxBalls > 0 {
      TrackedMaximumIsAttained(counts, t);
    }
  }

  /** The chunk `publish` receives after a draw: the summary of the
    * counts, which the record accepts as it is never blank, and the box
    * that received the ball. */
  method PublishChunk(ghost counts: seq<int>, maxBalls: int, indexes: seq<int>, box: AbstractBox)
    returns (chunk: HashFunctionIntermediaryResult<AbstractBox>)
    requires TracksMaximum(counts, Tracker(maxBalls, indexes))
    requires forall k :: 0 <= k < |counts| ==> counts[k] >= 0
    ensures chunk == HashFunctionIntermediaryResult(BoxInformation(counts), box)
  {
    GenerateInformationOfTracker(counts, Tracker(maxBalls, indexes));
    var information := GenerateInformation(maxBalls, indexes);
    var r := NewIntermediaryResult(Some(information), Some(box));
    chunk := r.value;
  }
}
