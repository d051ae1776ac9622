/** What one iteration of the main loop does, proved about `StepSpec`: the
    MIDI messages it sends (all of them, and only those), what it writes to
    the digits and the LED bank, how the variables move, and how the mode
    evolves over a run of iterations. */
module ControllerProps {
  import opened Events
  import opened Analog
  import opened Delta
  import opened Buttons
  import opened Indicator
  import opened Display
  import opened Controller

  // ---------------------------------------------------------------------
  // The messages each part of the iteration may send.

  /** msg is the note key i plays on an edge: NoteOn with velocity 127 when
      the line falls, NoteOff with velocity 0 when it rises, both numbered
      by the mode, and neither for a suppressed key. */
  predicate KeyEdgeNote(mode: nat, i: nat, current: bool, last: bool, msg: Message) {
    !Suppressed(mode, i) &&
    ((!current && last && msg == NoteOn(NoteNumber(mode, i), 127)) ||
     (current && !last && msg == NoteOff(NoteNumber(mode, i), 0)))
  }

  /** The controller mux channel j sends on outside the delta path:
      `CC_MAP[mode]` for channel 0, j + 1 for the others. */
  function MuxControl(mode: nat, j: nat): (c: int)
    requires mode < |CcMap|
    ensures j == 0 ==> c == 20 + mode
    ensures j != 0 ==> c == j + 1
  {
    assert CcMap[mode] == 20 + mode;
    if j == 0 then CcMap[mode] else j + 1
  }

  /** msg is the CC mux channel j sends: outside the delta path, when its
      quantized sample differs from the value last sent from the slot. */
  predicate KnobChange(mode: nat, j: nat, raw: int, last: int, msg: Message)
    requires mode < |CcMap|
  {
    !(j == 0 && mode == 1) && AdcToMidi(raw) != last &&
    msg == ControlChange(MuxControl(mode, j), AdcToMidi(raw))
  }

  /** msg is the CC direct input k sends (controller 8 + k, slot 7 + k). */
  predicate DirectChange(k: nat, raw: int, last: int, msg: Message) {
    AdcToMidi(raw) != last && msg == ControlChange(8 + k, AdcToMidi(raw))
  }

  /** msg is the CC a delta instance sends: its new held value, on its
      controller, exactly when the held value moved. */
  predicate DeltaNudge(cc: int, before: int, after: int, msg: Message) {
    after != before && msg == ControlChange(cc, after)
  }

  /** msg is the CC an encoder button sends in mode 2: 127 for a press edge
      on the left button, 1 for one on the right. */
  predicate EncoderTurn(mode: nat, s: State, input: Sample, msg: Message) {
    mode == 2 &&
    ((!input.encoderLeft && s.lastEncoderLeft && msg == ControlChange(10, 127)) ||
     (!input.encoderRight && s.lastEncoderRight && msg == ControlChange(10, 1)))
  }

  lemma KeyEventsSend(mode: nat, i: nat, current: bool, last: bool, msg: Message)
    ensures Send(msg) in KeyEvents(mode, i, current, last) <==> KeyEdgeNote(mode, i, current, last, msg)
  {
  }

  /** Some key below n has an edge note exactly when some key below n - 1
      does or key n - 1 does. */
  lemma KeyEdgeUpTo(mode: nat, keys: seq<bool>, last: seq<bool>, n: nat, msg: Message)
    requires 0 < n <= |keys| && n <= |last|
    ensures (exists i :: 0 <= i < n && KeyEdgeNote(mode, i, keys[i], last[i], msg)) <==>
      (exists i :: 0 <= i < n - 1 && KeyEdgeNote(mode, i, keys[i], last[i], msg)) ||
      KeyEdgeNote(mode, n - 1, keys[n - 1], last[n - 1], msg)
  {
    if exists i :: 0 <= i < n && KeyEdgeNote(mode, i, keys[i], last[i], msg) {
      var i :| 0 <= i < n && KeyEdgeNote(mode, i, keys[i], last[i], msg);
      if i < n - 1 {
        assert 0 <= i < n - 1 && KeyEdgeNote(mode, i, keys[i], last[i], msg);
      }
    }
    if exists i :: 0 <= i < n - 1 && KeyEdgeNote(mode, i, keys[i], last[i], msg) {
      var i :| 0 <= i < n - 1 && KeyEdgeNote(mode, i, keys[i], last[i], msg);
      assert 0 <= i < n && KeyEdgeNote(mode, i, keys[i], last[i], msg);
    }
  }

  /** The key scan sends exactly the edge notes of the keys scanned. */
  lemma {:induction false} ScanKeysSend(s: State, keys: seq<bool>, n: nat, msg: Message)
    requires |s.lastStates| == 8 && |keys| == 8 && n <= 8
    ensures Send(msg) in ScanKeys(s, keys, n).events <==>
      exists i :: 0 <= i < n && KeyEdgeNote(s.modeVar, i, keys[i], s.lastStates[i], msg)
  {
    if n > 0 {
      ScanKeysSend(s, keys, n - 1, msg);
      KeyEventsSend(s.modeVar, n - 1, keys[n - 1], s.lastStates[n - 1], msg);
      KeyEdgeUpTo(s.modeVar, keys, s.lastStates, n, msg);
    }
  }

  lemma SendOnChangeSend(s: State, idx: nat, raw: int, cc: int, msg: Message)
    requires idx < |s.lastValues|
    ensures Send(msg) in SendOnChange(s, idx, raw, cc).events <==>
      AdcToMidi(raw) != s.lastValues[idx] && msg == ControlChange(cc, AdcToMidi(raw))
  {
  }

  /** The two delta instances send their moved held values, and nothing
      else. */
  lemma DeltaPairSend(s: State, raw: int, level1: bool, level2: bool, msg: Message)
    ensures var o := DeltaPair(s, raw, level1, level2);
      Send(msg) in o.events <==>
        DeltaNudge(1, s.delta1.valueRef, o.st.delta1.valueRef, msg) ||
        DeltaNudge(30, s.delta2.valueRef, o.st.delta2.valueRef, msg)
  {
  }

  /** Over the mux scan, the delta variables are those the delta pair leaves
      when mode 1 scans channel 0, and untouched otherwise. */
  lemma {:induction false} ScanMuxDelta(s: State, input: Sample, n: nat)
    requires |s.lastValues| == 9 && |input.mux| == 7 && n <= 7 && s.modeVar < |CcMap|
    ensures var o := ScanMux(s, input, n);
      var t := if s.modeVar == 1 && n > 0
               then DeltaPair(s, input.mux[0], input.deltaButton1, input.deltaButton2).st else s;
      o.st.delta1 == t.delta1 && o.st.delta2 == t.delta2
  {
    if n > 1 {
      ScanMuxDelta(s, input, n - 1);
    }
  }

  /** Some channel below n changes exactly when some channel below n - 1
      does or channel n - 1 does. */
  lemma KnobChangeUpTo(mode: nat, mux: seq<int>, last: seq<int>, n: nat, msg: Message)
    requires mode < |CcMap| && 0 < n <= |mux| && n <= |last|
    ensures (exists i :: 0 <= i < n && KnobChange(mode, i, mux[i], last[i], msg)) <==>
      (exists i :: 0 <= i < n - 1 && KnobChange(mode, i, mux[i], last[i], msg)) ||
      KnobChange(mode, n - 1, mux[n - 1], last[n - 1], msg)
  {
    if exists i :: 0 <= i < n && KnobChange(mode, i, mux[i], last[i], msg) {
      var i :| 0 <= i < n && KnobChange(mode, i, mux[i], last[i], msg);
      if i < n - 1 {
        assert 0 <= i < n - 1 && KnobChange(mode, i, mux[i], last[i], msg);
      }
    }
    if exists i :: 0 <= i < n - 1 && KnobChange(mode, i, mux[i], last[i], msg) {
      var i :| 0 <= i < n - 1 && KnobChange(mode, i, mux[i], last[i], msg);
      assert 0 <= i < n && KnobChange(mode, i, mux[i], last[i], msg);
    }
  }

  /** The mux scan sends the changed samples of the channels scanned and,
      in mode 1, what the delta pair sends. */
  lemma {:induction false} ScanMuxSend(s: State, input: Sample, n: nat, msg: Message)
    requires |s.lastValues| == 9 && |input.mux| == 7 && n <= 7 && s.modeVar < |CcMap|
    ensures Send(msg) in ScanMux(s, input, n).events <==>
      (exists j :: 0 <= j < n && KnobChange(s.modeVar, j, input.mux[j], s.lastValues[j], msg)) ||
      (s.modeVar == 1 && n > 0 &&
       Send(msg) in DeltaPair(s, input.mux[0], input.deltaButton1, input.deltaButton2).events)
  {
    if n > 0 {
      ScanMuxSend(s, input, n - 1, msg);
      var o := ScanMux(s, input, n - 1);
      var j := n - 1;
      ScanMuxValues(s, input, n - 1);
      assert o.st.lastValues[j] == s.lastValues[j] && o.st.modeVar == s.modeVar;
      if j == 0 {
        assert o.st == s;
      }
      var c := MuxChannel(o.st, input, j);
      assert Send(msg) in ScanMux(s, input, n).events <==> Send(msg) in o.events || Send(msg) in c.events;
      if !(j == 0 && s.modeVar == 1) {
        SendOnChangeSend(o.st, j, input.mux[j], MuxControl(s.modeVar, j), msg);
        assert Send(msg) in c.events <==> KnobChange(s.modeVar, j, input.mux[j], s.lastValues[j], msg);
      } else {
        assert Send(msg) in c.events <==>
          Send(msg) in DeltaPair(s, input.mux[0], input.deltaButton1, input.deltaButton2).events;
      }
      KnobChangeUpTo(s.modeVar, input.mux, s.lastValues, n, msg);
    }
  }

  /** The direct inputs send their changed samples. */
  lemma {:induction false} ScanDirectSend(s: State, input: Sample, n: nat, msg: Message)
    requires |s.lastValues| == 9 && |input.direct| == 2 && n <= 2
    ensures Send(msg) in ScanDirect(s, input, n).events <==>
      exists k :: 0 <= k < n && DirectChange(k, input.direct[k], s.lastValues[7 + k], msg)
  {
    if n > 0 {
      ScanDirectSend(s, input, n - 1, msg);
      var o := ScanDirect(s, input, n - 1);
      ScanDirectValues(s, input, n - 1);
      assert o.st.lastValues[7 + (n - 1)] == s.lastValues[7 + (n - 1)];
      SendOnChangeSend(o.st, 7 + (n - 1), input.direct[n - 1], 8 + (n - 1), msg);
    }
  }

  // ---------------------------------------------------------------------
  // One iteration.

  /** The mode advances on a mode-button press edge, and every later part
      of the iteration plays in the new mode; the static LED pattern is
      marked shown for the mode at the start; every key level is
      remembered. */
  lemma StepModeAndKeys(s: State, input: Sample)
    requires Valid(s) && WellFormed(input)
    ensures var o := StepSpec(s, input);
      o.st.modeVar == (if !input.modeButton && s.lastModeButtonState then NextMode(s.modeVar) else s.modeVar) &&
      o.st.lastModeButtonState == input.modeButton &&
      o.st.lastModeVar == s.modeVar &&
      o.st.lastStates == input.keys
  {
    var p := StepPhases(s, input);
    ScanKeysRemembers(p.polled, input.keys, 8);
    assert p.keys.st.lastStates == input.keys;
  }

  /** Each slot outside the delta path remembers its quantized sample; in
      mode 1 channel 0's slot keeps the value it had. */
  lemma StepLastValues(s: State, input: Sample)
    requires Valid(s) && WellFormed(input)
    ensures var o := StepSpec(s, input); var m := o.st.modeVar;
      (forall j :: 0 <= j < 7 ==>
         o.st.lastValues[j] == if j == 0 && m == 1 then s.lastValues[0] else AdcToMidi(input.mux[j])) &&
      o.st.lastValues[7] == AdcToMidi(input.direct[0]) &&
      o.st.lastValues[8] == AdcToMidi(input.direct[1])
  {
    var p := StepPhases(s, input);
    ScanMuxValues(p.keys.st, input, 7);
    ScanDirectValues(p.mux.st, input, 2);
    assert forall j :: 0 <= j < 7 ==> p.direct.st.lastValues[j] == p.mux.st.lastValues[j];
  }

  /** Outside mode 1 the delta variables keep their values. */
  lemma {:induction false} ScanMuxKeepsDelta(s: State, input: Sample, n: nat)
    requires |s.lastValues| == 9 && |input.mux| == 7 && n <= 7 && s.modeVar < |CcMap|
    requires s.modeVar != 1
    ensures var o := ScanMux(s, input, n);
      o.st.delta1 == s.delta1 && o.st.delta2 == s.delta2
  {
    if n > 0 {
      ScanMuxKeepsDelta(s, input, n - 1);
    }
  }

  /** Two states agree on the variables of both delta instances. */
  predicate SameDelta(a: State, b: State) {
    a.delta1 == b.delta1 && a.delta2 == b.delta2
  }

  /** The delta variables change only in mode 1. */
  lemma StepDeltaOnlyInMode1(s: State, input: Sample)
    requires Valid(s) && WellFormed(input)
    ensures StepSpec(s, input).st.modeVar != 1 ==> SameDelta(StepSpec(s, input).st, s)
  {
    var p := StepPhases(s, input);
    if p.polled.modeVar != 1 {
      ScanMuxKeepsDelta(p.keys.st, input, 7);
    }
  }

  /** The remembered encoder levels follow the buttons in mode 2 and are
      left alone in every other mode. */
  lemma StepEncoderOnlyInMode2(s: State, input: Sample)
    requires Valid(s) && WellFormed(input)
    ensures var o := StepSpec(s, input); var m := o.st.modeVar;
      (m == 2 ==> o.st.lastEncoderLeft == input.encoderLeft && o.st.lastEncoderRight == input.encoderRight) &&
      (m != 2 ==> o.st.lastEncoderLeft == s.lastEncoderLeft && o.st.lastEncoderRight == s.lastEncoderRight)
  {
  }

  /** The refresh sends nothing; what an iteration sends is what its key
      scan, mux bank, direct inputs and encoder poll send. */
  lemma StepSendsByPart(s: State, input: Sample, msg: Message)
    requires Valid(s) && WellFormed(input)
    ensures var p := StepPhases(s, input);
      Send(msg) in StepSpec(s, input).events <==>
        Send(msg) in p.keys.events || Send(msg) in p.mux.events ||
        Send(msg) in p.direct.events || Send(msg) in p.encoder.events
  {
    var p := StepPhases(s, input);
    assert Send(msg) !in p.refresh.events;
  }

  /** The key scan of an iteration sends the edge notes of the keys, in
      the mode the poll left. */
  lemma StepKeysSend(s: State, input: Sample, msg: Message)
    requires Valid(s) && WellFormed(input)
    ensures var p := StepPhases(s, input);
      Send(msg) in p.keys.events <==>
        exists i :: 0 <= i < 8 && KeyEdgeNote(p.polled.modeVar, i, input.keys[i], s.lastStates[i], msg)
  {
    var p := StepPhases(s, input);
    ScanKeysSend(p.polled, input.keys, 8, msg);
  }

  /** The mux bank of an iteration sends the changed samples of its
      channels and the moved held values of the delta instances. */
  lemma StepMuxSend(s: State, input: Sample, msg: Message)
    requires Valid(s) && WellFormed(input)
    ensures var p := StepPhases(s, input); var m := p.polled.modeVar;
      Send(msg) in p.mux.events <==>
        (exists j :: 0 <= j < 7 && KnobChange(m, j, input.mux[j], s.lastValues[j], msg)) ||
        DeltaNudge(1, s.delta1.valueRef, p.mux.st.delta1.valueRef, msg) ||
        DeltaNudge(30, s.delta2.valueRef, p.mux.st.delta2.valueRef, msg)
  {
    var p := StepPhases(s, input);
    ScanMuxSend(p.keys.st, input, 7, msg);
    ScanMuxDelta(p.keys.st, input, 7);
    if p.polled.modeVar == 1 {
      DeltaPairSend(p.keys.st, input.mux[0], input.deltaButton1, input.deltaButton2, msg);
    }
  }

  /** The direct inputs of an iteration send their changed samples. */
  lemma StepDirectSend(s: State, input: Sample, msg: Message)
    requires Valid(s) && WellFormed(input)
    ensures var p := StepPhases(s, input);
      Send(msg) in p.direct.events <==>
        exists k :: 0 <= k < 2 && DirectChange(k, input.direct[k], s.lastValues[7 + k], msg)
  {
    var p := StepPhases(s, input);
    ScanDirectSend(p.mux.st, input, 2, msg);
    ScanMuxValues(p.keys.st, input, 7);
    assert p.mux.st.lastValues[7] == s.lastValues[7] && p.mux.st.lastValues[8] == s.lastValues[8];
  }

  /** The encoder poll of an iteration sends its press edges in mode 2. */
  lemma StepEncoderSend(s: State, input: Sample, msg: Message)
    requires Valid(s) && WellFormed(input)
    ensures var p := StepPhases(s, input);
      Send(msg) in p.encoder.events <==> EncoderTurn(p.polled.modeVar, s, input, msg)
  {
  }

  /** Everything one iteration sends, and nothing else: the edge notes of
      the keys, the changed samples of the mux channels and the direct
      inputs, the moved held values of the delta instances, and the encoder
      edges in mode 2, all in the mode the iteration ends in. */
  lemma StepSendsExactly(s: State, input: Sample, msg: Message)
    requires Valid(s) && WellFormed(input)
    ensures var o := StepSpec(s, input); var m := o.st.modeVar;
      Send(msg) in o.events <==>
        (exists i :: 0 <= i < 8 && KeyEdgeNote(m, i, input.keys[i], s.lastStates[i], msg)) ||
        (exists j :: 0 <= j < 7 && KnobChange(m, j, input.mux[j], s.lastValues[j], msg)) ||
        DeltaNudge(1, s.delta1.valueRef, o.st.delta1.valueRef, msg) ||
        DeltaNudge(30, s.delta2.valueRef, o.st.delta2.valueRef, msg) ||
        (exists k :: 0 <= k < 2 && DirectChange(k, input.direct[k], s.lastValues[7 + k], msg)) ||
        EncoderTurn(m, s, input, msg)
  {
    var p := StepPhases(s, input);
    StepSendsByPart(s, input, msg);
    StepKeysSend(s, input, msg);
    StepMuxSend(s, input, msg);
    StepDirectSend(s, input, msg);
    StepEncoderSend(s, input, msg);
    assert StepSpec(s, input).st == p.encoder.st;
    assert p.encoder.st.modeVar == p.polled.modeVar;
    assert p.encoder.st.delta1 == p.mux.st.delta1 && p.encoder.st.delta2 == p.mux.st.delta2;
  }

  /** Every message an iteration sends fits MIDI: notes are at most 79,
      velocities 127 or 0, controllers and values data bytes. */
  lemma StepMessagesWellFormed(s: State, input: Sample)
    requires Valid(s) && WellFormed(input)
    ensures forall msg :: Send(msg) in StepSpec(s, input).events ==> WellFormedMessage(msg)
  {
    forall msg | Send(msg) in StepSpec(s, input).events
      ensures WellFormedMessage(msg)
    {
      StepSendsExactly(s, input, msg);
      StepKeepsValid(s, input);
    }
  }

  /** Key i sends NoteOn exactly on a press edge, except keys 0 and 3 in
      mode 1; no other key and no other part of the iteration sends that
      note. */
  lemma StepKeyNoteOn(s: State, input: Sample, i: nat)
    requires Valid(s) && WellFormed(input) && i < 8
    ensures var o := StepSpec(s, input); var m := o.st.modeVar;
      Send(NoteOn(NoteNumber(m, i), 127)) in o.events <==>
        !input.keys[i] && s.lastStates[i] && !Suppressed(m, i)
  {
    var o := StepSpec(s, input);
    var m := o.st.modeVar;
    StepSendsExactly(s, input, NoteOn(NoteNumber(m, i), 127));
    assert forall j :: 0 <= j < 8 && NoteNumber(m, j) == NoteNumber(m, i) ==> j == i;
  }

  /** Key i sends NoteOff exactly on a release edge, with the note of the
      mode current at the release, except keys 0 and 3 in mode 1. */
  lemma StepKeyNoteOff(s: State, input: Sample, i: nat)
    requires Valid(s) && WellFormed(input) && i < 8
    ensures var o := StepSpec(s, input); var m := o.st.modeVar;
      Send(NoteOff(NoteNumber(m, i), 0)) in o.events <==>
        input.keys[i] && !s.lastStates[i] && !Suppressed(m, i)
  {
    var o := StepSpec(s, input);
    var m := o.st.modeVar;
    StepSendsExactly(s, input, NoteOff(NoteNumber(m, i), 0));
    assert forall j :: 0 <= j < 8 && NoteNumber(m, j) == NoteNumber(m, i) ==> j == i;
  }

  /** Among the mux channels only channel j sends on controller j + 1. */
  lemma KnobChangeOnly(m: nat, mux: seq<int>, last: seq<int>, j: nat, v: int)
    requires m < |CcMap| && |mux| == 7 && |last| == 9 && 1 <= j < 7
    ensures (exists i :: 0 <= i < 7 && KnobChange(m, i, mux[i], last[i], ControlChange(j + 1, v))) <==>
      v == AdcToMidi(mux[j]) && v != last[j]
  {
    var msg := ControlChange(j + 1, v);
    assert forall i :: 0 <= i < 7 && KnobChange(m, i, mux[i], last[i], msg) ==> i == j;
    assert KnobChange(m, j, mux[j], last[j], msg) <==> v == AdcToMidi(mux[j]) && v != last[j];
  }

  /** No mux channel sends on controllers 8 or 9. */
  lemma KnobNeverDirect(m: nat, mux: seq<int>, last: seq<int>, k: nat, v: int)
    requires m < |CcMap| && |mux| == 7 && |last| == 9 && k < 2
    ensures !exists i :: 0 <= i < 7 && KnobChange(m, i, mux[i], last[i], ControlChange(8 + k, v))
  {
  }

  /** Among the direct inputs only input k sends on controller 8 + k. */
  lemma DirectChangeOnly(direct: seq<int>, last: seq<int>, k: nat, v: int)
    requires |direct| == 2 && |last| == 9 && k < 2
    ensures (exists i :: 0 <= i < 2 && DirectChange(i, direct[i], last[7 + i], ControlChange(8 + k, v))) <==>
      v == AdcToMidi(direct[k]) && v != last[7 + k]
  {
    assert forall i :: 0 <= i < 2 && DirectChange(i, direct[i], last[7 + i], ControlChange(8 + k, v)) ==> i == k;
  }

  /** Mux channels 1..6 each own a controller (2..7): it is sent exactly
      when the channel's quantized sample changed, with that sample. */
  lemma StepKnobControl(s: State, input: Sample, j: nat, v: int)
    requires Valid(s) && WellFormed(input) && 1 <= j < 7
    ensures Send(ControlChange(j + 1, v)) in StepSpec(s, input).events <==>
      v == AdcToMidi(input.mux[j]) && v != s.lastValues[j]
  {
    var msg := ControlChange(j + 1, v);
    var m := StepSpec(s, input).st.modeVar;
    StepSendsExactly(s, input, msg);
    KnobChangeOnly(m, input.mux, s.lastValues, j, v);
  }

  /** Mux channel 0 sends on `CC_MAP[mode]` exactly when its sample changed,
      except in mode 1, where it drives the delta instances instead. */
  lemma StepChannelZeroControl(s: State, input: Sample, v: int)
    requires Valid(s) && WellFormed(input)
    ensures var o := StepSpec(s, input); var m := o.st.modeVar;
      Send(ControlChange(MuxControl(m, 0), v)) in o.events <==>
        m != 1 && v == AdcToMidi(input.mux[0]) && v != s.lastValues[0]
  {
    var o := StepSpec(s, input);
    StepSendsExactly(s, input, ControlChange(MuxControl(o.st.modeVar, 0), v));
  }

  /** The direct inputs send on controllers 8 and 9 exactly when their
      quantized samples changed. */
  lemma StepDirectControl(s: State, input: Sample, k: nat, v: int)
    requires Valid(s) && WellFormed(input) && k < 2
    ensures Send(ControlChange(8 + k, v)) in StepSpec(s, input).events <==>
      v == AdcToMidi(input.direct[k]) && v != s.lastValues[7 + k]
  {
    var msg := ControlChange(8 + k, v);
    var p := StepPhases(s, input);
    StepSendsByPart(s, input, msg);
    StepKeysSend(s, input, msg);
    StepMuxSend(s, input, msg);
    StepDirectSend(s, input, msg);
    StepEncoderSend(s, input, msg);
    KnobNeverDirect(p.polled.modeVar, input.mux, s.lastValues, k, v);
    DirectChangeOnly(input.direct, s.lastValues, k, v);
  }

  /** Controllers 1 and 30 carry the delta instances' held values: each is
      sent, with the new value, exactly when that value moved, which only
      happens in mode 1. */
  lemma StepDeltaControl(s: State, input: Sample, v: int)
    requires Valid(s) && WellFormed(input)
    ensures var o := StepSpec(s, input);
      var v1, v2 := o.st.delta1.valueRef, o.st.delta2.valueRef;
      (Send(ControlChange(1, v)) in o.events <==> v1 != s.delta1.valueRef && v == v1) &&
      (Send(ControlChange(30, v)) in o.events <==> v2 != s.delta2.valueRef && v == v2) &&
      (v1 != s.delta1.valueRef || v2 != s.delta2.valueRef ==> o.st.modeVar == 1)
  {
    StepSendsExactly(s, input, ControlChange(1, v));
    StepSendsExactly(s, input, ControlChange(30, v));
    StepDeltaOnlyInMode1(s, input);
  }

  /** Controller 10 is the encoder: 127 on a press edge of the left button
      and 1 on one of the right, in mode 2 only. */
  lemma StepEncoderControl(s: State, input: Sample, v: int)
    requires Valid(s) && WellFormed(input)
    ensures var o := StepSpec(s, input);
      Send(ControlChange(10, v)) in o.events <==>
        o.st.modeVar == 2 &&
        ((v == 127 && !input.encoderLeft && s.lastEncoderLeft) ||
         (v == 1 && !input.encoderRight && s.lastEncoderRight))
  {
    StepSendsExactly(s, input, ControlChange(10, v));
  }

  // ---------------------------------------------------------------------
  // Repeating an iteration.

  /** The delta pair reads only the delta variables of its state. */
  lemma DeltaPairLocal(a: State, b: State, raw: int, level1: bool, level2: bool)
    requires SameDelta(a, b)
    ensures SameDelta(DeltaPair(a, raw, level1, level2).st, DeltaPair(b, raw, level1, level2).st)
  {
  }

  /** Running the delta pair again on the same sample and gate levels
      leaves its variables as they are. */
  lemma DeltaPairRepeat(t: State, raw: int, level1: bool, level2: bool)
    ensures var u := DeltaPair(t, raw, level1, level2).st;
      SameDelta(DeltaPair(u, raw, level1, level2).st, u)
  {
    DeltaRepeatIsSilent(raw, 1, t.delta1.valueRef, t.delta1.refAdc, t.delta1.prevState, !level1);
    DeltaRepeatIsSilent(raw, 30, t.delta2.valueRef, t.delta2.refAdc, t.delta2.prevState, !level2);
  }

  /** If t holds the delta variables the pair left from s, and u those it
      left from t, then u holds the same ones as t. */
  lemma DeltaPairSettles(s: State, t: State, u: State, raw: int, level1: bool, level2: bool)
    requires SameDelta(t, DeltaPair(s, raw, level1, level2).st)
    requires SameDelta(u, DeltaPair(t, raw, level1, level2).st)
    ensures SameDelta(u, t)
  {
    DeltaPairLocal(t, DeltaPair(s, raw, level1, level2).st, raw, level1, level2);
    DeltaPairRepeat(s, raw, level1, level2);
  }

  /** In mode 1 an iteration leaves the delta variables where the delta
      pair leaves them, run on the state the iteration started from. */
  lemma StepDeltaState(s: State, input: Sample)
    requires Valid(s) && WellFormed(input)
    ensures var o := StepSpec(s, input);
      o.st.modeVar == 1 ==>
        SameDelta(o.st, DeltaPair(s, input.mux[0], input.deltaButton1, input.deltaButton2).st)
  {
    var p := StepPhases(s, input);
    assert StepSpec(s, input).st == p.encoder.st && p.encoder.st.modeVar == p.polled.modeVar;
    if p.polled.modeVar == 1 {
      var raw, l1, l2 := input.mux[0], input.deltaButton1, input.deltaButton2;
      ScanMuxDelta(p.keys.st, input, 7);
      assert SameDelta(p.mux.st, DeltaPair(p.keys.st, raw, l1, l2).st);
      DeltaPairLocal(p.keys.st, s, raw, l1, l2);
      assert SameDelta(p.encoder.st, p.mux.st);
    }
  }

  /** Repeating an iteration on the same readings leaves the delta
      variables where the first one left them. */
  lemma StepRepeatKeepsDelta(s: State, input: Sample)
    requires Valid(s) && WellFormed(input)
    ensures Valid(StepSpec(s, input).st) &&
      SameDelta(StepSpec(StepSpec(s, input).st, input).st, StepSpec(s, input).st)
  {
    StepKeepsValid(s, input);
    var t := StepSpec(s, input).st;
    StepModeAndKeys(s, input);
    StepModeAndKeys(t, input);
    StepDeltaOnlyInMode1(t, input);
    if t.modeVar == 1 {
      StepDeltaState(s, input);
      StepDeltaState(t, input);
      DeltaPairSettles(s, t, StepSpec(t, input).st, input.mux[0], input.deltaButton1, input.deltaButton2);
    }
  }

  /** An iteration that reads exactly what the previous one read sends no
      MIDI at all: no key or button has an edge, every sample equals the
      value already sent from its slot, and the delta instances have
      already caught up with the sample. */
  lemma StepRepeatIsSilent(s: State, input: Sample)
    requires Valid(s) && WellFormed(input)
    ensures Valid(StepSpec(s, input).st) &&
      forall msg :: Send(msg) !in StepSpec(StepSpec(s, input).st, input).events
  {
    StepRepeatKeepsDelta(s, input);
    var t := StepSpec(s, input).st;
    StepModeAndKeys(s, input);
    StepModeAndKeys(t, input);
    StepLastValues(s, input);
    StepEncoderOnlyInMode2(s, input);
    var o2 := StepSpec(t, input);
    assert o2.st.modeVar == t.modeVar;
    forall msg | Send(msg) in o2.events
      ensures false
    {
      StepSendsExactly(t, input, msg);
    }
  }

  // ---------------------------------------------------------------------
  // The digits and the LED bank.

  /** A key's events start with its note. */
  lemma {:induction false} ScanKeysFirst(s: State, keys: seq<bool>, n: nat)
    requires |s.lastStates| == 8 && |keys| == 8 && n <= 8
    ensures var e := ScanKeys(s, keys, n).events; |e| > 0 ==> e[0].Send?
  {
    if n > 0 {
      ScanKeysFirst(s, keys, n - 1);
    }
  }

  /** The mux scan starts by setting the selector lines. */
  lemma {:induction false} ScanMuxFirst(s: State, input: Sample, n: nat)
    requires |s.lastValues| == 9 && |input.mux| == 7 && 0 < n <= 7 && s.modeVar < |CcMap|
    ensures var e := ScanMux(s, input, n).events; |e| > 0 && e[0] == SelectChannel(1)
  {
    if n > 1 {
      ScanMuxFirst(s, input, n - 1);
    }
  }

  /** Every iteration starts by writing the two digits of the mode it
      starts in (before the mode button is read, so a press shows on the
      next iteration), and writes the static LED pattern third exactly
      when that mode differs from the last one shown; otherwise the third
      event is not a shifter write at all. */
  lemma StepDisplayFirst(s: State, input: Sample)
    requires Valid(s) && WellFormed(input)
    ensures var e := StepSpec(s, input).events;
      |e| > 2 && e[..2] == ModeDisplay(s.modeVar) &&
      (s.modeVar != s.lastModeVar ==> e[2] == Shift(Leds, StillByte(s.modeVar))) &&
      (s.modeVar == s.lastModeVar ==> !e[2].Shift?)
  {
    var p := StepPhases(s, input);
    ScanKeysFirst(p.polled, input.keys, 8);
    ScanMuxFirst(p.keys.st, input, 7);
    ModeDisplayWrites(s.modeVar);
    var rest := p.keys.events + p.mux.events + p.direct.events + p.encoder.events;
    SplitAfterRefresh(p.refresh.events, p.keys.events, p.mux.events, p.direct.events, p.encoder.events);
    assert rest[0] == if |p.keys.events| > 0 then p.keys.events[0] else p.mux.events[0];
  }

  /** The events of an iteration are the refresh's followed by the rest. */
  lemma SplitAfterRefresh(r: seq<Event>, k: seq<Event>, x: seq<Event>, d: seq<Event>, e: seq<Event>)
    ensures r + k + x + d + e == r + (k + x + d + e)
  {
    AppendAssoc(r, k, x);
    AppendAssoc(r, k + x, d);
    AppendAssoc(r, k + x + d, e);
  }

  /** In modes 0, 3 and 4 a press lights exactly the pressed key's LED
      (key i drives LED `KeyLed(7 - i)`, so key 0 lights LED 4) and a
      release turns the bank off; in modes 1, 2, 5 and 6 keys never touch
      the bank, which keeps the mode's static pattern. */
  lemma KeyLeds(mode: nat, i: nat)
    requires mode < 7 && i < 8
    ensures mode == 0 || mode == 3 || mode == 4 ==>
      var e := KeyEvents(mode, i, false, true);
      |e| == 2 && e[1].Shift? && e[1].chain == Leds &&
      forall k :: 0 <= k < 8 ==> (Bit(e[1].value, k) <==> k == KeyLed(7 - i))
    ensures mode == 0 || mode == 3 || mode == 4 ==>
      KeyEvents(mode, i, true, false) == [Send(NoteOff(NoteNumber(mode, i), 0)), Shift(Leds, 0x00)]
    ensures !(mode == 0 || mode == 3 || mode == 4) ==>
      forall c, l, x :: x in KeyEvents(mode, i, c, l) ==> !x.Shift?
  {
    if mode == 0 || mode == 3 || mode == 4 {
      LedBitBits(KeyLed(7 - i));
      assert LedBit(9) == 0x00;
    } else {
      forall c, l, x | x in KeyEvents(mode, i, c, l)
        ensures !x.Shift?
      {
        assert KeyLightPress(mode, 7 - i).None?;
      }
    }
  }

  /** Worked example: in mode 0, pressing key 0 sends note 0 at velocity
      127 and writes 0x10 (LED 4 alone) to the LED bank. */
  lemma KeyZeroPressInModeZero()
    ensures KeyEvents(0, 0, false, true) == [Send(NoteOn(0, 127)), Shift(Leds, 0x10)]
  {
    assert LedBit(4) == 0x10 by {
      BitsDetermineByte(LedBit(4), 0x10);
    }
  }

  /** A held key released in the iteration that also changes the mode sends
      the NoteOff of the new mode, not of the note it started: the note
      key 1 started in mode 0 (note 1) is left sounding. */
  lemma ReleaseUsesNewMode(s: State, input: Sample)
    requires Valid(s) && WellFormed(input)
    requires s.modeVar == 0 && s.lastModeButtonState && !input.modeButton
    requires !s.lastStates[1] && input.keys[1]
    ensures Send(NoteOff(13, 0)) in StepSpec(s, input).events
    ensures Send(NoteOff(1, 0)) !in StepSpec(s, input).events
  {
    StepModeAndKeys(s, input);
    var m := StepSpec(s, input).st.modeVar;
    assert m == 1 && NoteNumber(m, 1) == 13;
    StepKeyNoteOff(s, input, 1);
    StepSendsExactly(s, input, NoteOff(1, 0));
    assert forall i :: 0 <= i < 8 ==> NoteNumber(m, i) != 1;
  }

  /** From a state in which no slot has sent yet (every last-sent value
      is -1), an iteration sends every analog slot outside the delta
      path. */
  lemma UnsentSlotsAllSend(s: State, input: Sample)
    requires Valid(s) && WellFormed(input)
    requires forall j :: 0 <= j < 9 ==> s.lastValues[j] == -1
    ensures var o := StepSpec(s, input);
      (o.st.modeVar != 1 ==> Send(ControlChange(MuxControl(o.st.modeVar, 0), AdcToMidi(input.mux[0]))) in o.events) &&
      (forall j :: 1 <= j < 7 ==> Send(ControlChange(j + 1, AdcToMidi(input.mux[j]))) in o.events) &&
      (forall k :: 0 <= k < 2 ==> Send(ControlChange(8 + k, AdcToMidi(input.direct[k]))) in o.events)
  {
    StepChannelZeroControl(s, input, AdcToMidi(input.mux[0]));
    forall j | 1 <= j < 7
      ensures Send(ControlChange(j + 1, AdcToMidi(input.mux[j]))) in StepSpec(s, input).events
    {
      StepKnobControl(s, input, j, AdcToMidi(input.mux[j]));
    }
    forall k | 0 <= k < 2
      ensures Send(ControlChange(8 + k, AdcToMidi(input.direct[k]))) in StepSpec(s, input).events
    {
      StepDirectControl(s, input, k, AdcToMidi(input.direct[k]));
    }
  }

  /** The last-sent values start at -1, so the first iteration sends every
      analog slot outside the delta path once. */
  lemma FirstIterationSendsEverySlot(input: Sample)
    requires WellFormed(input)
    ensures var o := StepSpec(Initial(), input);
      (o.st.modeVar != 1 ==> Send(ControlChange(MuxControl(o.st.modeVar, 0), AdcToMidi(input.mux[0]))) in o.events) &&
      (forall j :: 1 <= j < 7 ==> Send(ControlChange(j + 1, AdcToMidi(input.mux[j]))) in o.events) &&
      (forall k :: 0 <= k < 2 ==> Send(ControlChange(8 + k, AdcToMidi(input.direct[k]))) in o.events)
  {
    InitialValid();
    UnsentSlotsAllSend(Initial(), input);
  }

  /** Key 5 doubles as the left encoder button: in mode 2 one press of it
      sends both its note (29) and CC 10 = 127. */
  lemma SharedKeyInModeTwo(s: State, input: Sample)
    requires Valid(s) && WellFormed(input)
    requires s.modeVar == 2 && !(s.lastModeButtonState && !input.modeButton)
    requires !input.keys[5] && s.lastStates[5]
    requires input.encoderLeft == input.keys[5] && s.lastEncoderLeft
    ensures Send(NoteOn(29, 127)) in StepSpec(s, input).events
    ensures Send(ControlChange(10, 127)) in StepSpec(s, input).events
  {
    StepModeAndKeys(s, input);
    StepKeyNoteOn(s, input, 5);
    StepEncoderControl(s, input, 127);
  }

  // ---------------------------------------------------------------------
  // Many iterations.

  /** The mode-button level the loop remembers after the samples, starting
      from `start`. */
  function LastModeLevel(start: bool, inputs: seq<Sample>): bool {
    if |inputs| == 0 then start else inputs[|inputs| - 1].modeButton
  }

  /** The number of mode-button press edges over the samples (a low level
      after a high one), starting from the remembered level `start`. */
  function ModePresses(start: bool, inputs: seq<Sample>): nat {
    if |inputs| == 0 then 0
    else
      var before := inputs[..|inputs| - 1];
      ModePresses(start, before) +
      (if !inputs[|inputs| - 1].modeButton && LastModeLevel(start, before) then 1 else 0)
  }

  /** The mode reached from mode m after n presses. */
  function ModeAfter(m: nat, n: nat): nat {
    (m + n) % 7
  }

  /** One more press advances the mode by one, modulo 7. */
  lemma ModeAfterStep(m: nat, n: nat)
    ensures ModeAfter(m, n + 1) == NextMode(ModeAfter(m, n))
  {
  }

  /** Seven presses go round once. */
  lemma ModeAfterCycle(m: nat)
    requires m < 7
    ensures ModeAfter(m, 7) == m
  {
  }

  /** The last iteration of a run moves the mode as one iteration does. */
  lemma RunLastStep(s: State, inputs: seq<Sample>)
    requires Valid(s) && AllWellFormed(inputs) && |inputs| > 0
    ensures AllWellFormed(inputs[..|inputs| - 1])
    ensures var o := Run(s, inputs[..|inputs| - 1]).st; var level := inputs[|inputs| - 1].modeButton;
      Run(s, inputs).st.lastModeButtonState == level &&
      Run(s, inputs).st.modeVar == if !level && o.lastModeButtonState then NextMode(o.modeVar) else o.modeVar
  {
    var before := inputs[..|inputs| - 1];
    assert AllWellFormed(before);
    StepModeAndKeys(Run(s, before).st, inputs[|inputs| - 1]);
  }

  /** The count of presses and the last level, one sample further. */
  lemma PressesLastStep(start: bool, inputs: seq<Sample>, m: nat)
    requires |inputs| > 0
    ensures var before := inputs[..|inputs| - 1]; var level := inputs[|inputs| - 1].modeButton;
      LastModeLevel(start, inputs) == level &&
      ModeAfter(m, ModePresses(start, inputs)) ==
        if !level && LastModeLevel(start, before) then NextMode(ModeAfter(m, ModePresses(start, before)))
        else ModeAfter(m, ModePresses(start, before))
  {
    var before := inputs[..|inputs| - 1];
    ModeAfterStep(m, ModePresses(start, before));
  }

  /** After any run the mode is the starting mode advanced by the number
      of press edges, modulo 7. */
  lemma {:induction false} RunMode(s: State, inputs: seq<Sample>)
    requires Valid(s) && AllWellFormed(inputs)
    ensures Run(s, inputs).st.lastModeButtonState == LastModeLevel(s.lastModeButtonState, inputs)
    ensures Run(s, inputs).st.modeVar == ModeAfter(s.modeVar, ModePresses(s.lastModeButtonState, inputs))
  {
    if |inputs| > 0 {
      RunLastStep(s, inputs);
      RunMode(s, inputs[..|inputs| - 1]);
      PressesLastStep(s.lastModeButtonState, inputs, s.modeVar);
    }
  }

  /** Seven presses bring the controller back to the mode it started in. */
  lemma SevenPressesCycle(s: State, inputs: seq<Sample>)
    requires Valid(s) && AllWellFormed(inputs)
    requires ModePresses(s.lastModeButtonState, inputs) == 7
    ensures Run(s, inputs).st.modeVar == s.modeVar
  {
    RunMode(s, inputs);
    ModeAfterCycle(s.modeVar);
  }

  /** Every message sent over a run fits MIDI. */
  lemma {:induction false} RunMessagesWellFormed(s: State, inputs: seq<Sample>)
    requires Valid(s) && AllWellFormed(inputs)
    ensures forall msg :: Send(msg) in Run(s, inputs).events ==> WellFormedMessage(msg)
  {
    if |inputs| > 0 {
      var before := inputs[..|inputs| - 1];
      assert AllWellFormed(before);
      RunMessagesWellFormed(s, before);
      StepMessagesWellFormed(Run(s, before).st, inputs[|inputs| - 1]);
    }
  }

  /** The loop starts in a valid state. */
  lemma InitialValid()
    ensures Valid(Initial())
  {
  }
}
