/** The end every first-generation worker shares: after its last draw it
  * reports 99, builds "Most filled boxes (m balls): " followed by the
  * sorted indexes of the most filled boxes, reports 100 and returns a
  * `HashFunctionResult` holding that text and its row of boxes. */
module FirstGeneration {
  import opened Wrappers
  import opened Text
  import opened Tracking
  import opened Results

  /** The information a finished first-generation run reports for the
    * final counts. */
  function FinalInformation(counts: seq<int>): string
  {
    BoxesHeading(MostFilled(counts).maxBalls) + Join(MostFilled(counts).indexes)
  }

  /** The information built from the tracker, and the result record, which
    * accepts it: the text names the largest count and exactly the boxes
    * that hold it, whatever order they were listed in. */
  method Report<B>(boxes: seq<B>, ghost counts: seq<int>, maxBalls: int, indexes: seq<int>)
    returns (result: HashFunctionResult<B>)
    requires |boxes| >= 2 && forall k :: 0 <= k < |counts| ==> counts[k] >= 0
    requires TracksMaximum(counts, Tracker(maxBalls, indexes))
    ensures result.boxes == boxes && result.information == FinalInformation(counts)
  {
    HeadingsAreSafe(maxBalls);
    var information := BuildList(BoxesHeading(maxBalls), SortAscending(indexes));
    SummaryOfTracker(BoxesHeading(maxBalls), counts, Tracker(maxBalls, indexes));
    SummaryNotBlank(maxBalls, Tracker(maxBalls, indexes));
    var r := NewDomainResult(Some(information), Some(boxes));
    result := r.value;
  }
}
