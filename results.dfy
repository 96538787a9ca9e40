/** The records a run hands to the view: `HashFunctionResult` (both
  * generations) and `HashFunctionIntermediaryResult`. Their compact
  * constructors validate the fields in a fixed order and throw on the
  * first bad one; a `null` argument is `None`. The box type is a parameter
  * because the generations store different box classes. */
module Results {
  import opened Wrappers
  import opened Text
  import opened Errors

  datatype HashFunctionResult<B> = HashFunctionResult(information: string, boxes: seq<B>)

  datatype HashFunctionIntermediaryResult<B> = HashFunctionIntermediaryResult(information: string, box: B)

  /** Accepted information: present, and neither empty nor blank. */
  predicate ValidInformation(information: Option<string>)
  {
    information.Some? && !IsBlank(information.value)
  }

  /** Accepted list: present with at least two boxes. */
  predicate ValidBoxes<B>(boxes: Option<seq<B>>)
  {
    boxes.Some? && |boxes.value| >= 2
  }

  // The fixed parts of the messages the records' constructors throw.
  const INFORMATION_NULL: string := "The string 'information' is null. The string must not be null."
  const INFORMATION_EMPTY: string := "The string 'information' is empty. The string must not be empty."
  const INFORMATION_BLANK: string := "The string 'information' is filled with blanked characters. The string must be filled with not blank characters."
  const INTERMEDIARY_INVALID_BOX: string := "Cannot create the HashFunctionIntermediaryResult, the given box is invalid."
  const BOX_NULL: string := "The box is null. The box must not be null."
  const LIST_NULL_TAIL: string := " is null. The list must not be null."
  const LIST_EMPTY_TAIL: string := " is empty. The list must not be empty."
  const LIST_INVALID_TAIL: string := " is invalid."
  const LIST_INVALID_HEAD: string := "Cannot create the HashFunctionResult, the given list of "

  /** The information checks shared by the three records; `invalid` is the
    * record's own INVALID_INFORMATION text. */
  function CheckInformation(information: Option<string>, invalid: string): (e: Option<Error>)
    ensures e.None? <==> ValidInformation(information)
    ensures information.None? ==> e == Some(IllegalInformation(invalid, Some(NullPointer(
              INFORMATION_NULL))))
    ensures information.Some? && information.value == "" ==> e == Some(IllegalInformation(invalid, Some(EmptyString(
              INFORMATION_EMPTY))))
    ensures information.Some? && information.value != "" && IsBlank(information.value) ==>
              e == Some(IllegalInformation(invalid, Some(BlankString(
              INFORMATION_BLANK))))
  {
    if information.None? then
      Some(IllegalInformation(invalid, Some(NullPointer(INFORMATION_NULL))))
    else if information.value == "" then
      Some(IllegalInformation(invalid, Some(EmptyString(INFORMATION_EMPTY))))
    else if IsBlank(information.value) then
      Some(IllegalInformation(invalid, Some(BlankString(
        INFORMATION_BLANK))))
    else
      None
  }

  /** The list checks of a `HashFunctionResult`; `noun` is "box" in the
    * second generation and "boxes" in the first, the only difference
    * between their messages. */
  function CheckBoxes<B>(boxes: Option<seq<B>>, noun: string): (e: Option<Error>)
    ensures e.None? <==> ValidBoxes(boxes)
    ensures boxes.None? ==> e == Some(IllegalBoxesList(InvalidBoxesList(noun), Some(NullPointer(
              "The list of " + noun + LIST_NULL_TAIL))))
    ensures boxes.Some? && |boxes.value| == 0 ==> e == Some(IllegalBoxesList(InvalidBoxesList(noun), Some(EmptyBoxesList(
              "The list of " + noun + LIST_EMPTY_TAIL))))
    ensures boxes.Some? && |boxes.value| == 1 ==> e == Some(IllegalBoxesList(InvalidBoxesList(noun)
              + " The list of " + noun + " has only " + "1"
              + " " + noun + ". The list of " + noun + " must have 2 or more "
              + noun + ".", None))
  {
    if boxes.None? then
      Some(IllegalBoxesList(InvalidBoxesList(noun), Some(NullPointer("The list of " + noun + LIST_NULL_TAIL))))
    else if |boxes.value| == 0 then
      Some(IllegalBoxesList(InvalidBoxesList(noun), Some(EmptyBoxesList("The list of " + noun + LIST_EMPTY_TAIL))))
    else if 2 > |boxes.value| then
      assert IntToString(1) == "1";
      Some(IllegalBoxesList(InvalidBoxesList(noun) + " The list of " + noun + " has only " + IntToString(|boxes.value|)
        + " " + noun + ". The list of " + noun + " must have 2 or more " + noun + ".", None))
    else
      None
  }

  function InvalidBoxesList(noun: string): string
  {
    LIST_INVALID_HEAD + noun + LIST_INVALID_TAIL
  }

  const RESULT_INVALID_INFORMATION: string := "Cannot create the HashFunctionResult the given information is invalid."

  /** The second-generation `HashFunctionResult` constructor. */
  function NewLogicsResult<B>(information: Option<string>, boxes: Option<seq<B>>): (r: Result<HashFunctionResult<B>, Error>)
    ensures r.Success? <==> ValidInformation(information) && ValidBoxes(boxes)
    ensures r.Success? ==> r.value == HashFunctionResult(information.value, boxes.value)
    ensures !ValidInformation(information) ==> r.Failure? && r.error.IllegalInformation?
    ensures ValidInformation(information) && !ValidBoxes(boxes) ==> r.Failure? && r.error.IllegalBoxesList?
    ensures r.Failure? ==> Some(r.error) in {CheckInformation(information, RESULT_INVALID_INFORMATION), CheckBoxes(boxes, "box")}
  {
    match CheckInformation(information, RESULT_INVALID_INFORMATION)
    case Some(e) => Failure(e)
    case None =>
      match CheckBoxes(boxes, "box")
      case Some(e) => Failure(e)
      case None => Success(HashFunctionResult(information.value, boxes.value))
  }

  /** The first-generation `HashFunctionResult` constructor. */
  function NewDomainResult<B>(information: Option<string>, boxes: Option<seq<B>>): (r: Result<HashFunctionResult<B>, Error>)
    ensures r.Success? <==> ValidInformation(information) && ValidBoxes(boxes)
    ensures r.Success? ==> r.value == HashFunctionResult(information.value, boxes.value)
    ensures !ValidInformation(information) ==> r.Failure? && r.error.IllegalInformation?
    ensures ValidInformation(information) && !ValidBoxes(boxes) ==> r.Failure? && r.error.IllegalBoxesList?
    ensures r.Failure? ==> Some(r.error) in {CheckInformation(information, RESULT_INVALID_INFORMATION), CheckBoxes(boxes, "boxes")}
  {
    match CheckInformation(information, RESULT_INVALID_INFORMATION)
    case Some(e) => Failure(e)
    case None =>
      match CheckBoxes(boxes, "boxes")
      case Some(e) => Failure(e)
      case None => Success(HashFunctionResult(information.value, boxes.value))
  }

  const INTERMEDIARY_INVALID_INFORMATION: string :=
    "Cannot create the HashFunctionIntermediaryResult the given information is invalid."

  /** The `HashFunctionIntermediaryResult` constructor: information as for
    * the final result, then a present box (the list-size check the
    * documentation mentions is not in the code). */
  function NewIntermediaryResult<B>(information: Option<string>, box: Option<B>): (r: Result<HashFunctionIntermediaryResult<B>, Error>)
    ensures r.Success? <==> ValidInformation(information) && box.Some?
    ensures r.Success? ==> r.value == HashFunctionIntermediaryResult(information.value, box.value)
    ensures !ValidInformation(information) ==> r == Failure(CheckInformation(information, INTERMEDIARY_INVALID_INFORMATION).value)
    ensures ValidInformation(information) && box.None? ==>
              r == Failure(IllegalBox(INTERMEDIARY_INVALID_BOX,
                                      Some(NullPointer(BOX_NULL))))
  {
    match CheckInformation(information, INTERMEDIARY_INVALID_INFORMATION)
    case Some(e) => Failure(e)
    case None =>
      if box.None? then
        Failure(IllegalBox(INTERMEDIARY_INVALID_BOX,
                           Some(NullPointer(BOX_NULL))))
      else
        Success(HashFunctionIntermediaryResult(information.value, box.value))
  }

  /** The information check precedes the list check: bad information is
    * reported even when the list is bad too. */
  lemma InformationCheckedFirst<B>(information: Option<string>, boxes: Option<seq<B>>)
    requires !ValidInformation(information) && !ValidBoxes(boxes)
    ensures NewLogicsResult(information, boxes).error == CheckInformation(information, RESULT_INVALID_INFORMATION).value
    ensures NewDomainResult(information, boxes).error == CheckInformation(information, RESULT_INVALID_INFORMATION).value
  {
  }

  /** A text that starts with a visible character is accepted as information. */
  lemma VisibleStartIsValid(information: string)
    requires |information| > 0 && !IsJavaWhitespace(information[0])
    ensures ValidInformation(Some(information))
  {
    NotBlankWitness(information, 0);
  }
}
