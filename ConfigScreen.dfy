/**
 * The closing-time field of the configuration screen: the text filter on
 * edits, the error and enabling predicates, the save handler's own range
 * check, and the re-synchronisation of the text with the cached delay.  The
 * range 5..120 is enforced here only; the controller writes any delay.
 */
module ConfigScreen {
  import opened Wrappers
  import opened Model
  import opened KotlinText
  import opened Control

  /** `seconds in 5..120` */
  predicate InRange(seconds: int) {
    5 <= seconds <= 120
  }

  /** An edit is taken only if the new text is empty or all digits. */
  predicate AcceptsEdit(newValue: string) {
    newValue == "" || AllDigits(newValue)
  }

  /** The delay the save button would write, if the text parses to one in range. */
  function SaveRequest(input: string): (r: Option<Int32>)
    ensures r.Some? <==> ToIntOrNull(input).Some? && InRange(ToIntOrNull(input).value)
    ensures r.Some? ==> r == ToIntOrNull(input) && InRange(r.value)
  {
    var seconds := ToIntOrNull(input);
    if seconds.Some? && InRange(seconds.value) then seconds else None
  }

  /** The field is shown in error when it holds text that is not a delay in range. */
  function IsError(input: string): (r: bool)
    ensures r <==> input != "" && SaveRequest(input).None?
  {
    input != "" &&
    match ToIntOrNull(input)
    case Some(seconds) => !InRange(seconds)
    case None => true
  }

  /** The save button is enabled when not loading and the text is a delay in range. */
  function SaveEnabled(isLoading: bool, input: string): (r: bool)
    ensures r <==> !isLoading && SaveRequest(input).Some?
  {
    !isLoading && input != "" &&
    match ToIntOrNull(input)
    case Some(seconds) => InRange(seconds)
    case None => false
  }

  /** With text present and nothing loading, the field is in error exactly when saving is disabled. */
  lemma ErrorIffSaveDisabled(input: string)
    requires input != ""
    ensures IsError(input) <==> !SaveEnabled(false, input)
  {
  }

  /** The range is inclusive: 4 and 121 are refused, 5 and 120 accepted. */
  lemma RangeBoundaries()
    ensures SaveRequest("4").None? && SaveRequest("121").None?
    ensures SaveRequest("5") == Some(5) && SaveRequest("120") == Some(120)
    ensures IsError("4") && IsError("121") && !IsError("5") && !IsError("120")
  {
    assert DigitsValue("4") == 4;
    assert DigitsValue("5") == 5;
    assert DigitsValue("12") == 12 && DigitsValue("120") == 120 && DigitsValue("121") == 121;
  }

  /**
   * The text written back from a cached delay reads back as that delay, is in
   * error exactly when the delay is out of range, and would be accepted as an
   * edit exactly when the delay is not negative.
   */
  lemma ResyncRoundTrip(seconds: Int32)
    ensures ToIntOrNull(IntToString(seconds)) == Some(seconds)
    ensures IsError(IntToString(seconds)) <==> !InRange(seconds)
    ensures AcceptsEdit(IntToString(seconds)) <==> seconds >= 0
  {
    ToIntOrNullOfToString(seconds);
  }

  /** The screen's remembered text field. */
  class TimeInputField {
    var timeInput: string

    /** First composition: the text of the cached delay. */
    constructor (tiempoCierreSegundos: Int32)
      ensures timeInput == IntToString(tiempoCierreSegundos)
    {
      timeInput := IntToString(tiempoCierreSegundos);
    }

    /** `onValueChange`: keep the new text only if it passes the filter. */
    method OnValueChange(newValue: string)
      modifies this
      ensures timeInput == if AcceptsEdit(newValue) then newValue else old(timeInput)
      ensures AllDigits(old(timeInput)) ==> AllDigits(timeInput)
    {
      if newValue == "" || AllDigits(newValue) {
        timeInput := newValue;
      }
    }

    /** The effect keyed on the cached delay: show that delay again. */
    method Resync(tiempoCierreSegundos: Int32)
      modifies this
      ensures timeInput == IntToString(tiempoCierreSegundos)
      ensures ToIntOrNull(timeInput) == Some(tiempoCierreSegundos)
    {
      timeInput := IntToString(tiempoCierreSegundos);
      ToIntOrNullOfToString(tiempoCierreSegundos);
    }

    /** `onClick` of the save button: write the delay only if it parses and is in range. */
    method OnSaveClick(viewModel: ControlViewModel, now: Int64)
      requires viewModel.Valid()
      modifies viewModel
      ensures viewModel.Valid()
      ensures SaveRequest(timeInput).Some? ==>
        viewModel.Abs() == SetClosingTimeStep(old(viewModel.Abs()), SaveRequest(timeInput).value, now)
      ensures SaveRequest(timeInput).None? ==> viewModel.Abs() == old(viewModel.Abs())
    {
      var seconds := ToIntOrNull(timeInput);
      if seconds.Some? && 5 <= seconds.value <= 120 {
        viewModel.SetClosingTime(seconds.value, now);
      }
    }
  }
}
