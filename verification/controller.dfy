/** The main loop of the firmware (`while True`): the module-level state it
    updates, one iteration as a function of that state and of the levels and
    samples read during it, and a `Controller` class whose `Step` performs
    the iteration statement by statement and is proved to agree with it. */
module Controller {
  import opened Events
  import opened Analog
  import opened Delta
  import opened Buttons
  import opened Indicator
  import opened Display

  /** `CC_MAP`: the controller mux channel 0 sends on, indexed by mode. */
  const CcMap: seq<int> := [20, 21, 22, 23, 24, 25, 26, 27, 28]

  /** Everything read from the hardware during one iteration. Digital levels
      are true when released (pulled up). `keys` are the eight key levels of
      the key scan; `mux` the samples of mux channels 1..7; `direct` the two
      direct inputs. The delta and encoder buttons are keys 0, 3, 5 and 2 read
      again later in the iteration, so they are separate levels here. */
  datatype Sample = Sample(
    modeButton: bool,
    keys: seq<bool>,
    mux: seq<int>,
    direct: seq<int>,
    deltaButton1: bool,
    deltaButton2: bool,
    encoderLeft: bool,
    encoderRight: bool)

  predicate WellFormed(input: Sample) {
    |input.keys| == 8 && |input.mux| == 7 && |input.direct| == 2
  }

  /** The module-level variables of the loop. `delta1` holds `cc1_value`,
      `ref_adc1` and `prev_button1`, the variables of the delta instance on
      controller 1; `delta2` holds `cc10_value`, `ref_adc10` and
      `prev_button2`, those of the instance on controller 30. */
  datatype State = State(
    modeVar: nat,
    lastModeVar: int,
    lastModeButtonState: bool,
    lastStates: seq<bool>,
    lastValues: seq<int>,
    delta1: DeltaVars,
    delta2: DeltaVars,
    lastEncoderLeft: bool,
    lastEncoderRight: bool)

  /** The values the variables hold when the loop starts. */
  function Initial(): State {
    State(0, -1, true, [true, true, true, true, true, true, true, true],
          [-1, -1, -1, -1, -1, -1, -1, -1, -1],
          DeltaVars(64, None, true), DeltaVars(64, None, true), true, true)
  }

  /** What the loop keeps true of its variables between iterations. */
  predicate Valid(s: State) {
    s.modeVar < 7 && -1 <= s.lastModeVar < 7 &&
    |s.lastStates| == 8 && |s.lastValues| == 9 &&
    (forall i :: 0 <= i < 9 ==> -1 <= s.lastValues[i] <= 127) &&
    DataByte(s.delta1.valueRef) && DataByte(s.delta2.valueRef)
  }

  /** A state and the events produced while reaching it. */
  datatype Out = Out(st: State, events: seq<Event>)

  /** Lines 181-184: the digits are rewritten on every iteration, the
      static LED pattern only when the mode differs from the last one
      shown. */
  function Refresh(s: State): (o: Out)
    ensures o.st == s.(lastModeVar := s.modeVar)
  {
    var shown := ModeDisplay(s.modeVar);
    if s.modeVar != s.lastModeVar then
      Out(s.(lastModeVar := s.modeVar), shown + [Shift(Leds, StillByte(s.modeVar))])
    else
      Out(s, shown)
  }

  /** Line 187: the mode a press moves to; after mode 6 comes mode 0. */
  function NextMode(m: nat): nat {
    (m + 1) % 7
  }

  /** Lines 185-187: the mode advances on a mode-button press edge. */
  function PollMode(s: State, level: bool): (t: State)
    ensures t == s.(modeVar := t.modeVar, lastModeButtonState := level)
  {
    var p := HandleButtonPress(level, s.lastModeButtonState);
    s.(modeVar := if p.pressed then NextMode(s.modeVar) else s.modeVar,
       lastModeButtonState := p.last)
  }

  /** Keys 0 and 3 are the delta buttons in mode 1 and play no note there. */
  predicate Suppressed(mode: int, i: int) {
    mode == 1 && (i == 0 || i == 3)
  }

  /** Lines 191-204 for key i: a press edge sends NoteOn and lights the key's
      LED (`key_light_press(7 - i)`), a release edge sends NoteOff and, in
      modes other than 1, 2, 5 and 6, turns the LEDs off
      (`light_ic1_led(9)`). */
  function KeyEvents(mode: nat, i: nat, current: bool, last: bool): seq<Event>
  {
    if !current && last then
      if Suppressed(mode, i) then []
      else [Send(NoteOn(NoteNumber(mode, i), 127))] + LedWrite(KeyLightPress(mode, 7 - i))
    else if current && !last then
      if Suppressed(mode, i) then []
      else [Send(NoteOff(NoteNumber(mode, i), 0))] +
           (if mode != 1 && mode != 2 && mode != 5 && mode != 6 then [Shift(Leds, LedBit(9))] else [])
    else []
  }

  /** Lines 190-205 over keys 0..n-1: every key's level is remembered,
      whether or not it played a note. */
  function ScanKeys(s: State, keys: seq<bool>, n: nat): (o: Out)
    requires |s.lastStates| == 8 && |keys| == 8 && n <= 8
    ensures o.st == s.(lastStates := o.st.lastStates) && |o.st.lastStates| == 8
  {
    if n == 0 then Out(s, [])
    else
      var o := ScanKeys(s, keys, n - 1);
      var i := n - 1;
      Out(o.st.(lastStates := o.st.lastStates[i := keys[i]]),
          o.events + KeyEvents(s.modeVar, i, keys[i], s.lastStates[i]))
  }

  /** After scanning keys 0..n-1 each of them is remembered at its level
      and the keys not yet scanned keep their old levels. */
  lemma {:induction false} ScanKeysRemembers(s: State, keys: seq<bool>, n: nat)
    requires |s.lastStates| == 8 && |keys| == 8 && n <= 8
    ensures var t := ScanKeys(s, keys, n).st;
      (forall j :: 0 <= j < n ==> t.lastStates[j] == keys[j]) &&
      (forall j :: n <= j < 8 ==> t.lastStates[j] == s.lastStates[j])
  {
    if n > 0 {
      ScanKeysRemembers(s, keys, n - 1);
    }
  }

  /** Lines 218-222 and 227-230: the quantized sample of slot idx is sent on
      controller cc only when it differs from the value last sent from that
      slot, which it then replaces. */
  function SendOnChange(s: State, idx: nat, raw: int, cc: int): (o: Out)
    requires idx < |s.lastValues|
    ensures o.st == s.(lastValues := s.lastValues[idx := AdcToMidi(raw)])
  {
    var midiVal := AdcToMidi(raw);
    if midiVal != s.lastValues[idx] then
      Out(s.(lastValues := s.lastValues[idx := midiVal]), [Send(ControlChange(cc, midiVal))])
    else
      Out(s, [])
  }

  /** Lines 213-217: in mode 1 the channel-0 sample feeds delta instance 1
      (CC 1, gated by key 0) and then instance 2 (CC 30, gated by key 3);
      a gate is pressed when its line reads low. */
  function DeltaPair(s: State, raw: int, level1: bool, level2: bool): (o: Out)
    ensures o.st == s.(delta1 := o.st.delta1, delta2 := o.st.delta2)
  {
    var d1 := HandleDelta(raw, 1, s.delta1.valueRef, s.delta1.refAdc, s.delta1.prevState, !level1);
    var d2 := HandleDelta(raw, 30, s.delta2.valueRef, s.delta2.refAdc, s.delta2.prevState, !level2);
    Out(s.(delta1 := d1.Vars(), delta2 := d2.Vars()),
        SendOpt(d1.sent) + SendOpt(d2.sent))
  }

  /** Lines 208-222 for mux channel i: select line value i + 1, then in mode
      1 channel 0 goes to the delta instances instead of being sent;
      otherwise the sample is sent on change, on `CC_MAP[mode]` for
      channel 0 and on i + 1 for the others. */
  function MuxChannel(s: State, input: Sample, i: nat): (o: Out)
    requires |s.lastValues| == 9 && |input.mux| == 7 && i < 7 && s.modeVar < |CcMap|
    ensures o.st == s.(lastValues := o.st.lastValues, delta1 := o.st.delta1, delta2 := o.st.delta2)
    ensures |o.st.lastValues| == 9
  {
    var sel := SelectChannel(i + 1);
    var raw := input.mux[i];
    var c := if i == 0 && s.modeVar == 1 then DeltaPair(s, raw, input.deltaButton1, input.deltaButton2)
             else SendOnChange(s, i, raw, if i == 0 then CcMap[s.modeVar] else i + 1);
    Out(c.st, [sel] + c.events)
  }

  /** On channel i outside the delta path the slot takes the quantized
      sample; on the delta path no slot changes. The held delta values stay
      MIDI data bytes. */
  lemma MuxChannelValues(s: State, input: Sample, i: nat)
    requires |s.lastValues| == 9 && |input.mux| == 7 && i < 7 && s.modeVar < |CcMap|
    ensures var t := MuxChannel(s, input, i).st;
      (i == 0 && s.modeVar == 1 ==> t.lastValues == s.lastValues) &&
      (!(i == 0 && s.modeVar == 1) ==> t.lastValues == s.lastValues[i := AdcToMidi(input.mux[i])]) &&
      (DataByte(s.delta1.valueRef) && DataByte(s.delta2.valueRef) ==>
         DataByte(t.delta1.valueRef) && DataByte(t.delta2.valueRef))
  {
    if i == 0 && s.modeVar == 1 {
      var v1, v2 := s.delta1, s.delta2;
      HandleDeltaShape(input.mux[0], 1, v1.valueRef, v1.refAdc, v1.prevState, !input.deltaButton1);
      HandleDeltaShape(input.mux[0], 30, v2.valueRef, v2.refAdc, v2.prevState, !input.deltaButton2);
    }
  }

  /** Lines 207-222 over mux channels 0..n-1. Only the last-sent values and
      the delta variables change. */
  function ScanMux(s: State, input: Sample, n: nat): (o: Out)
    requires |s.lastValues| == 9 && |input.mux| == 7 && n <= 7 && s.modeVar < |CcMap|
    ensures o.st == s.(lastValues := o.st.lastValues, delta1 := o.st.delta1, delta2 := o.st.delta2)
    ensures |o.st.lastValues| == 9
  {
    if n == 0 then Out(s, [])
    else
      var o := ScanMux(s, input, n - 1);
      var c := MuxChannel(o.st, input, n - 1);
      Out(c.st, o.events + c.events)
  }

  /** The slots not yet scanned keep their values, every scanned slot
      outside the delta path holds its quantized sample, in mode 1 slot 0
      keeps its value, and the held delta values stay MIDI data bytes. */
  lemma {:induction false} ScanMuxValues(s: State, input: Sample, n: nat)
    requires |s.lastValues| == 9 && |input.mux| == 7 && n <= 7 && s.modeVar < |CcMap|
    ensures var t := ScanMux(s, input, n).st;
      (forall j :: n <= j < 9 ==> t.lastValues[j] == s.lastValues[j]) &&
      (forall j :: 0 <= j < n && !(j == 0 && s.modeVar == 1) ==> t.lastValues[j] == AdcToMidi(input.mux[j])) &&
      (s.modeVar == 1 ==> t.lastValues[0] == s.lastValues[0]) &&
      (DataByte(s.delta1.valueRef) && DataByte(s.delta2.valueRef) ==>
         DataByte(t.delta1.valueRef) && DataByte(t.delta2.valueRef))
  {
    if n > 0 {
      ScanMuxValues(s, input, n - 1);
      MuxChannelValues(ScanMux(s, input, n - 1).st, input, n - 1);
    }
  }

  /** Lines 224-230 over the first n of the pairs (slot 7, CC 8) and
      (slot 8, CC 9). */
  function ScanDirect(s: State, input: Sample, n: nat): (o: Out)
    requires |s.lastValues| == 9 && |input.direct| == 2 && n <= 2
    ensures o.st == s.(lastValues := o.st.lastValues)
    ensures |o.st.lastValues| == 9
  {
    if n == 0 then Out(s, [])
    else
      var o := ScanDirect(s, input, n - 1);
      var c := SendOnChange(o.st, 7 + (n - 1), input.direct[n - 1], 8 + (n - 1));
      Out(c.st, o.events + c.events)
  }

  /** After the first n direct inputs, their slots hold their quantized
      samples and every other slot keeps its value. */
  lemma {:induction false} ScanDirectValues(s: State, input: Sample, n: nat)
    requires |s.lastValues| == 9 && |input.direct| == 2 && n <= 2
    ensures var t := ScanDirect(s, input, n).st;
      (forall j :: 0 <= j < 9 && !(7 <= j < 7 + n) ==> t.lastValues[j] == s.lastValues[j]) &&
      (forall j :: 0 <= j < n ==> t.lastValues[7 + j] == AdcToMidi(input.direct[j]))
  {
    if n > 0 {
      ScanDirectValues(s, input, n - 1);
    }
  }

  /** Lines 232-245: in mode 2 only, a press edge on the left encoder button
      sends CC 10 = 127 and one on the right sends CC 10 = 1; the remembered
      encoder levels change only in that mode. */
  function PollEncoder(s: State, input: Sample): (o: Out)
    ensures o.st == s.(lastEncoderLeft := o.st.lastEncoderLeft, lastEncoderRight := o.st.lastEncoderRight)
  {
    if s.modeVar == 2 then
      var l := input.encoderLeft;
      var r := input.encoderRight;
      Out(s.(lastEncoderLeft := l, lastEncoderRight := r),
          (if !l && s.lastEncoderLeft then [Send(ControlChange(10, 127))] else []) +
          (if !r && s.lastEncoderRight then [Send(ControlChange(10, 1))] else []))
    else
      Out(s, [])
  }

  /** What each part of one iteration leaves: the display refresh, the
      state after the mode-button poll, the key scan, the mux bank, the
      direct inputs and the encoder. */
  datatype Phases = Phases(refresh: Out, polled: State, keys: Out, mux: Out, direct: Out, encoder: Out)

  /** The parts of one iteration, lines 180-247, in the source's order,
      each starting from the state the previous one left. */
  function StepPhases(s: State, input: Sample): Phases
    requires Valid(s) && WellFormed(input)
  {
    var r := Refresh(s);
    var m := PollMode(r.st, input.modeButton);
    var k := ScanKeys(m, input.keys, 8);
    var x := ScanMux(k.st, input, 7);
    var d := ScanDirect(x.st, input, 2);
    Phases(r, m, k, x, d, PollEncoder(d.st, input))
  }

  /** One iteration of the loop: the state the last part leaves, and the
      events of all parts in order. The mode shown at its start becomes
      `last_mode_var`, and the mode-button level read is remembered. */
  function StepSpec(s: State, input: Sample): (o: Out)
    requires Valid(s) && WellFormed(input)
    ensures o.st.lastModeVar == s.modeVar && o.st.lastModeButtonState == input.modeButton
  {
    var p := StepPhases(s, input);
    Out(p.encoder.st, p.refresh.events + p.keys.events + p.mux.events + p.direct.events + p.encoder.events)
  }

  /** An iteration keeps the loop's variables within their ranges: the mode
      below 7, every remembered level and value present, the last-sent
      values quantized samples or the initial -1, and the held delta values
      MIDI data bytes. */
  lemma StepKeepsValid(s: State, input: Sample)
    requires Valid(s) && WellFormed(input)
    ensures Valid(StepSpec(s, input).st)
  {
    var r := Refresh(s);
    var m := PollMode(r.st, input.modeButton);
    var k := ScanKeys(m, input.keys, 8);
    var x := ScanMux(k.st, input, 7);
    var d := ScanDirect(x.st, input, 2);
    ScanMuxValues(k.st, input, 7);
    ScanDirectValues(x.st, input, 2);
    assert Valid(x.st) by {
      forall j | 0 <= j < 9
        ensures -1 <= x.st.lastValues[j] <= 127
      {
        if j == 0 && m.modeVar == 1 {
          assert x.st.lastValues[0] == s.lastValues[0];
        } else if j < 7 {
          assert x.st.lastValues[j] == AdcToMidi(input.mux[j]);
        } else {
          assert x.st.lastValues[j] == s.lastValues[j];
        }
      }
    }
    assert Valid(d.st) by {
      forall j | 0 <= j < 9
        ensures -1 <= d.st.lastValues[j] <= 127
      {
        if j < 7 {
          assert d.st.lastValues[j] == x.st.lastValues[j];
        } else {
          assert d.st.lastValues[j] == AdcToMidi(input.direct[j - 7]);
        }
      }
    }
    assert StepSpec(s, input).st == PollEncoder(d.st, input).st;
  }

  /** Every sample of a run is well formed. */
  predicate AllWellFormed(inputs: seq<Sample>) {
    forall i :: 0 <= i < |inputs| ==> WellFormed(inputs[i])
  }

  /** The loop run for as many iterations as there are samples, one sample
      per iteration. */
  function Run(s: State, inputs: seq<Sample>): (o: Out)
    requires Valid(s) && AllWellFormed(inputs)
    ensures Valid(o.st)
  {
    if |inputs| == 0 then Out(s, [])
    else
      var o := Run(s, inputs[..|inputs| - 1]);
      var last := inputs[|inputs| - 1];
      StepKeepsValid(o.st, last);
      var t := StepSpec(o.st, last);
      Out(t.st, o.events + t.events)
  }

  /** Running n + 1 iterations is running n and then one more. */
  lemma RunExtend(s: State, inputs: seq<Sample>, n: nat)
    requires Valid(s) && AllWellFormed(inputs) && n < |inputs|
    ensures AllWellFormed(inputs[..n]) && AllWellFormed(inputs[..n + 1])
    ensures var o := Run(s, inputs[..n]);
      Run(s, inputs[..n + 1]) == Out(StepSpec(o.st, inputs[n]).st, o.events + StepSpec(o.st, inputs[n]).events)
  {
    assert inputs[..n + 1][..n] == inputs[..n];
  }

  /** The events of one iteration, appended part by part to a log, are the
      log followed by the iteration's events. */
  lemma Regroup(log: seq<Event>, r: seq<Event>, k: seq<Event>, x: seq<Event>, d: seq<Event>, e: seq<Event>)
    ensures log + r + (k + x + d) + e == log + (r + k + x + d + e)
  {
    AppendAssoc(log, r, k + x + d);
    AppendAssoc(r, k + x, d);
    AppendAssoc(r, k, x);
    AppendAssoc(log, r + k + x + d, e);
  }

  /** The branches of lines 192-204 for key i, collecting what they send
      and write. */
  method KeyMessages(mode: nat, i: nat, current: bool, last: bool) returns (sent: seq<Event>)
    ensures sent == KeyEvents(mode, i, current, last)
  {
    sent := [];
    if !current && last {
      if !(mode == 1 && (i == 0 || i == 3)) {
        var note := NoteNumber(mode, i);
        sent := sent + [Send(NoteOn(note, 127))];
        sent := sent + LedWrite(KeyLightPress(mode, 7 - i));
      }
    } else if current && !last {
      if !(mode == 1 && (i == 0 || i == 3)) {
        var note := NoteNumber(mode, i);
        sent := sent + [Send(NoteOff(note, 0))];
        if mode != 1 && mode != 2 && mode != 5 && mode != 6 {
          sent := sent + [Shift(Leds, LedBit(9))];
        }
      }
    }
  }

  /** The loop's variables as fields, and `log`, the events the loop has
      produced so far (MIDI sends, shifter writes, selector settings), in
      order. */
  class Controller {
    var modeVar: nat
    var lastModeVar: int
    var lastModeButtonState: bool
    var lastStates: seq<bool>
    var lastValues: seq<int>
    var delta1: DeltaVars
    var delta2: DeltaVars
    var lastEncoderLeft: bool
    var lastEncoderRight: bool
    var log: seq<Event>

    function Snapshot(): State
      reads this
    {
      State(modeVar, lastModeVar, lastModeButtonState, lastStates, lastValues,
            delta1, delta2,
            lastEncoderLeft, lastEncoderRight)
    }

    /** The module-level initialisations (lines 41-47, 121, 125, 173). */
    constructor ()
      ensures Snapshot() == Initial() && log == []
    {
      modeVar := 0;
      lastModeVar := -1;
      lastModeButtonState := true;
      lastStates := [true, true, true, true, true, true, true, true];
      lastValues := [-1, -1, -1, -1, -1, -1, -1, -1, -1];
      delta1 := DeltaVars(64, None, true);
      delta2 := DeltaVars(64, None, true);
      lastEncoderLeft, lastEncoderRight := true, true;
      log := [];
    }

    /** One pass of the `while True` body. */
    method Step(input: Sample)
      requires Valid(Snapshot()) && WellFormed(input)
      modifies this
      ensures Snapshot() == StepSpec(old(Snapshot()), input).st
      ensures log == old(log) + StepSpec(old(Snapshot()), input).events
    {
      ghost var p := StepPhases(Snapshot(), input);
      ghost var log0 := log;
      RefreshDisplay();
      PollModeButton(input.modeButton);
      ScanInputs(input);
      PollEncoderButtons(input);
      Regroup(log0, p.refresh.events, p.keys.events, p.mux.events, p.direct.events, p.encoder.events);
    }

    /** Lines 190-230: the key scan, the mux bank and the direct inputs. */
    method ScanInputs(input: Sample)
      requires modeVar < 7 && |lastStates| == 8 && |lastValues| == 9 && WellFormed(input)
      modifies this
      ensures var k := ScanKeys(old(Snapshot()), input.keys, 8);
        var x := ScanMux(k.st, input, 7);
        var d := ScanDirect(x.st, input, 2);
        Snapshot() == d.st && log == old(log) + (k.events + x.events + d.events)
    {
      ghost var log0 := log;
      ghost var k := ScanKeys(Snapshot(), input.keys, 8);
      ScanKeyBank(input.keys);
      ghost var x := ScanMux(k.st, input, 7);
      ScanMuxBank(input);
      AppendAssoc(log0, k.events, x.events);
      ghost var d := ScanDirect(x.st, input, 2);
      ScanDirectInputs(input);
      AppendAssoc(log0, k.events + x.events, d.events);
    }

    /** The `while True` loop, for one iteration per sample. */
    method Loop(inputs: seq<Sample>)
      requires Valid(Snapshot()) && AllWellFormed(inputs)
      modifies this
      ensures Snapshot() == Run(old(Snapshot()), inputs).st
      ensures log == old(log) + Run(old(Snapshot()), inputs).events
    {
      ghost var s0 := Snapshot();
      ghost var log0 := log;
      for n := 0 to |inputs|
        invariant AllWellFormed(inputs[..n])
        invariant Snapshot() == Run(s0, inputs[..n]).st
        invariant log == log0 + Run(s0, inputs[..n]).events
      {
        ghost var before := Run(s0, inputs[..n]);
        RunExtend(s0, inputs, n);
        Step(inputs[n]);
        AppendAssoc(log0, before.events, StepSpec(before.st, inputs[n]).events);
      }
      assert inputs[..|inputs|] == inputs;
    }

    method RefreshDisplay()
      modifies this
      ensures Snapshot() == Refresh(old(Snapshot())).st
      ensures log == old(log) + Refresh(old(Snapshot())).events
    {
      log := log + ModeDisplay(modeVar);
      if modeVar != lastModeVar {
        log := log + [Shift(Leds, StillByte(modeVar))];
        lastModeVar := modeVar;
      }
    }

    method PollModeButton(level: bool)
      modifies this
      ensures Snapshot() == PollMode(old(Snapshot()), level)
      ensures log == old(log)
    {
      var p := HandleButtonPress(level, lastModeButtonState);
      lastModeButtonState := p.last;
      if p.pressed {
        modeVar := (modeVar + 1) % 7;
      }
    }

    method ScanKeyBank(keys: seq<bool>)
      requires |lastStates| == 8 && |keys| == 8
      modifies this`lastStates, this`log
      ensures Snapshot() == ScanKeys(old(Snapshot()), keys, 8).st
      ensures log == old(log) + ScanKeys(old(Snapshot()), keys, 8).events
    {
      ghost var s0 := Snapshot();
      ghost var log0 := log;
      for i := 0 to 8
        invariant lastStates == ScanKeys(s0, keys, i).st.lastStates
        invariant log == log0 + ScanKeys(s0, keys, i).events
      {
        ScanKeysRemembers(s0, keys, i);
        assert lastStates[i] == s0.lastStates[i];
        ScanKey(i, keys[i]);
        AppendAssoc(log0, ScanKeys(s0, keys, i).events, KeyEvents(s0.modeVar, i, keys[i], s0.lastStates[i]));
      }
    }

    /** The body of the key loop for key i. */
    method ScanKey(i: nat, current: bool)
      requires i < 8 && |lastStates| == 8
      modifies this`lastStates, this`log
      ensures lastStates == old(lastStates)[i := current]
      ensures log == old(log) + KeyEvents(modeVar, i, current, old(lastStates[i]))
    {
      var sent := KeyMessages(modeVar, i, current, lastStates[i]);
      log := log + sent;
      lastStates := lastStates[i := current];
    }

    method ScanMuxBank(input: Sample)
      requires |lastValues| == 9 && |input.mux| == 7 && modeVar < |CcMap|
      modifies this`lastValues, this`delta1, this`delta2, this`log
      ensures Snapshot() == ScanMux(old(Snapshot()), input, 7).st
      ensures log == old(log) + ScanMux(old(Snapshot()), input, 7).events
    {
      ghost var s0 := Snapshot();
      ghost var log0 := log;
      for i := 0 to 7
        invariant Snapshot() == ScanMux(s0, input, i).st
        invariant log == log0 + ScanMux(s0, input, i).events
      {
        ScanMuxSlot(input, i);
      }
    }

    /** The body of the mux loop for channel i: select the channel, sample
        it, and either run the two delta instances or send on change. */
    method ScanMuxSlot(input: Sample, i: nat)
      requires |lastValues| == 9 && |input.mux| == 7 && i < 7 && modeVar < |CcMap|
      modifies this`lastValues, this`delta1, this`delta2, this`log
      ensures Snapshot() == MuxChannel(old(Snapshot()), input, i).st
      ensures log == old(log) + MuxChannel(old(Snapshot()), input, i).events
    {
      ghost var s0 := Snapshot();
      var ch := i + 1;
      log := log + [SelectChannel(ch)];
      var raw := input.mux[i];
      if i == 0 && modeVar == 1 {
        var b1 := input.deltaButton1;
        var b2 := input.deltaButton2;
        ScanDeltaPair(raw, b1, b2);
        AppendAssoc(old(log), [SelectChannel(ch)], DeltaPair(s0, raw, b1, b2).events);
      } else {
        var cc := if i == 0 then CcMap[modeVar] else i + 1;
        SendIfChanged(i, raw, cc);
        AppendAssoc(old(log), [SelectChannel(ch)], SendOnChange(s0, i, raw, cc).events);
      }
    }

    /** Lines 214-217: read the two gates and run both delta instances. */
    method ScanDeltaPair(raw: int, level1: bool, level2: bool)
      modifies this`delta1, this`delta2, this`log
      ensures Snapshot() == DeltaPair(old(Snapshot()), raw, level1, level2).st
      ensures log == old(log) + DeltaPair(old(Snapshot()), raw, level1, level2).events
    {
      var b1 := !level1;
      var b2 := !level2;
      var d1 := HandleDelta(raw, 1, delta1.valueRef, delta1.refAdc, delta1.prevState, b1);
      delta1 := d1.Vars();
      var d2 := HandleDelta(raw, 30, delta2.valueRef, delta2.refAdc, delta2.prevState, b2);
      delta2 := d2.Vars();
      log := log + (SendOpt(d1.sent) + SendOpt(d2.sent));
    }

    /** Send slot idx's quantized sample on controller cc if it changed. */
    method SendIfChanged(idx: nat, raw: int, cc: int)
      requires idx < |lastValues|
      modifies this`lastValues, this`log
      ensures Snapshot() == SendOnChange(old(Snapshot()), idx, raw, cc).st
      ensures log == old(log) + SendOnChange(old(Snapshot()), idx, raw, cc).events
    {
      var midiVal := AdcToMidi(raw);
      if midiVal != lastValues[idx] {
        log := log + [Send(ControlChange(cc, midiVal))];
        lastValues := lastValues[idx := midiVal];
      }
    }

    method ScanDirectInputs(input: Sample)
      requires |lastValues| == 9 && |input.direct| == 2
      modifies this`lastValues, this`log
      ensures Snapshot() == ScanDirect(old(Snapshot()), input, 2).st
      ensures log == old(log) + ScanDirect(old(Snapshot()), input, 2).events
    {
      ghost var s0 := Snapshot();
      ghost var log0 := log;
      for k := 0 to 2
        invariant Snapshot() == ScanDirect(s0, input, k).st
        invariant log == log0 + ScanDirect(s0, input, k).events
      {
        SendIfChanged(7 + k, input.direct[k], 8 + k);
      }
    }

    method PollEncoderButtons(input: Sample)
      modifies this
      ensures Snapshot() == PollEncoder(old(Snapshot()), input).st
      ensures log == old(log) + PollEncoder(old(Snapshot()), input).events
    {
      if modeVar == 2 {
        var lState := input.encoderLeft;
        var rState := input.encoderRight;
        if !lState && lastEncoderLeft {
          log := log + [Send(ControlChange(10, 127))];
        }
        if !rState && lastEncoderRight {
          log := log + [Send(ControlChange(10, 1))];
        }
        lastEncoderLeft := lState;
        lastEncoderRight := rState;
      }
    }
  }
}
