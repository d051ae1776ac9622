/** `handle_delta_control`: relative ("delta") control. While its gating
    button is held, turning the shared potentiometer by whole steps of 512
    raw units nudges a held 0..127 value, and each nudge sends one CC. */
module Delta {
  import opened Events
  import opened Analog

  /** The three variables one delta instance keeps between calls: the held
      value, the reference sample and the last gate level. */
  datatype DeltaVars = DeltaVars(valueRef: int, refAdc: Option<int>, prevState: bool)

  /** The tuple `(value_ref, ref_adc, button_pressed)` the function returns,
      with the CC it sent, if any. */
  datatype DeltaResult = DeltaResult(valueRef: int, refAdc: Option<int>, prevState: bool, sent: Option<Message>)
  {
    /** The returned tuple, which the caller stores back into its variables. */
    function Vars(): DeltaVars {
      DeltaVars(valueRef, refAdc, prevState)
    }
  }

  function Abs(x: int): int {
    if x < 0 then -x else x
  }

  /** One call of `handle_delta_control(raw_adc, cc_num, value_ref, ref_adc,
      prev_state, button_pressed)`. */
  function HandleDelta(rawAdc: int, ccNum: int, valueRef: int, refAdc: Option<int>,
                       prevState: bool, buttonPressed: bool): (r: DeltaResult)
    ensures r.prevState == buttonPressed
  {
    var ref := if buttonPressed && !prevState then Some(rawAdc) else refAdc;
    if buttonPressed && ref.Some? then
      var delta := TruncDiv(ref.value - rawAdc, 512);
      if Abs(delta) >= 1 then
        var newVal := Clamp(valueRef + delta);
        if newVal != valueRef then
          DeltaResult(newVal, Some(rawAdc), buttonPressed, Some(ControlChange(ccNum, newVal)))
        else
          DeltaResult(valueRef, ref, buttonPressed, None)
      else
        DeltaResult(valueRef, ref, buttonPressed, None)
    else
      DeltaResult(valueRef, ref, buttonPressed, None)
  }

  /** The shape of every result: a released button forgets nothing and
      sends nothing; a fresh press only takes the sample as reference; a CC
      is sent exactly when the value changes, carries the new value, and
      moves the reference to the sample; otherwise the reference stays.
      A value in range stays in range. */
  lemma HandleDeltaShape(rawAdc: int, ccNum: int, valueRef: int, refAdc: Option<int>,
                         prevState: bool, buttonPressed: bool)
    ensures var r := HandleDelta(rawAdc, ccNum, valueRef, refAdc, prevState, buttonPressed);
      (!buttonPressed ==> r == DeltaResult(valueRef, refAdc, false, None)) &&
      (buttonPressed && !prevState ==> r == DeltaResult(valueRef, Some(rawAdc), true, None)) &&
      (r.sent.Some? <==> r.valueRef != valueRef) &&
      (r.sent.Some? ==>
        r.sent == Some(ControlChange(ccNum, r.valueRef)) && r.refAdc == Some(rawAdc) && DataByte(r.valueRef)) &&
      (r.sent.None? && buttonPressed && prevState ==> r.refAdc == refAdc) &&
      (DataByte(valueRef) ==> DataByte(r.valueRef))
  {
  }

  /** When the held value starts in range, a CC is sent exactly when the
      button was already held, a reference sample exists, the sample has
      moved at least 512 from it, and the value is not already pinned at
      the end it would move towards (a lower sample raises the value). */
  lemma DeltaSendsExactly(rawAdc: int, ccNum: int, valueRef: int, refAdc: Option<int>,
                          prevState: bool, buttonPressed: bool)
    requires DataByte(valueRef)
    ensures HandleDelta(rawAdc, ccNum, valueRef, refAdc, prevState, buttonPressed).sent.Some? <==>
      buttonPressed && prevState && refAdc.Some? &&
      ((refAdc.value - rawAdc >= 512 && valueRef < 127) || (rawAdc - refAdc.value >= 512 && valueRef > 0))
  {
  }

  /** A sent CC moves the value in the direction of the turn, by at most one
      per whole 512-unit step, and by exactly that many unless it stops at
      0 or 127. */
  lemma DeltaMovesByWholeSteps(rawAdc: int, ccNum: int, valueRef: int, refAdc: Option<int>,
                               prevState: bool, buttonPressed: bool)
    requires DataByte(valueRef)
    requires HandleDelta(rawAdc, ccNum, valueRef, refAdc, prevState, buttonPressed).sent.Some?
    ensures refAdc.Some?
    ensures var r := HandleDelta(rawAdc, ccNum, valueRef, refAdc, prevState, buttonPressed);
      var steps := TruncDiv(refAdc.value - rawAdc, 512);
      (refAdc.value > rawAdc ==> valueRef < r.valueRef <= valueRef + steps) &&
      (refAdc.value < rawAdc ==> valueRef + steps <= r.valueRef < valueRef) &&
      (r.valueRef == valueRef + steps || r.valueRef == 0 || r.valueRef == 127)
  {
  }

  /** Calling again with the same sample and the same button level sends
      nothing and changes nothing: after a send the reference is the sample
      itself, and otherwise the same decision is taken again. */
  lemma DeltaRepeatIsSilent(rawAdc: int, ccNum: int, valueRef: int, refAdc: Option<int>,
                            prevState: bool, buttonPressed: bool)
    ensures var r := HandleDelta(rawAdc, ccNum, valueRef, refAdc, prevState, buttonPressed);
      var r2 := HandleDelta(rawAdc, ccNum, r.valueRef, r.refAdc, r.prevState, buttonPressed);
      r2.sent == None && r2.valueRef == r.valueRef && r2.refAdc == r.refAdc && r2.prevState == r.prevState
  {
  }

  /** The step truncates toward zero: a sample 600 above the reference is
      one step (floor division would make it two), and the worked example
      of a 10000-unit drop from 64 gives 83. */
  lemma DeltaExamples()
    ensures HandleDelta(30600, 1, 64, Some(30000), true, true)
         == DeltaResult(63, Some(30600), true, Some(ControlChange(1, 63)))
    ensures HandleDelta(30000, 1, 64, Some(40000), true, true)
         == DeltaResult(83, Some(30000), true, Some(ControlChange(1, 83)))
  {
  }
}
