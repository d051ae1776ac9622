# rekopi_midi controller core in Dafny

This is a model of the firmware loop in `code/main_code.py`, which drives a Raspberry Pi Pico USB-MIDI controller. The board has:

- eight keys;
- a mode button that steps through seven modes;
- a seven-channel analog multiplexer and two direct analog inputs;
- two "delta" controllers, which nudge a held 0..127 value while a key is held and the shared knob is turned;
- two encoder buttons;
- three independent shift registers, each on its own latch, clock and data pins. `sr1` drives an eight-LED bank, and `sr2`/`sr3` drive two seven-segment digits that show the mode.

## How the model is built

- **Pure helpers become functions with lemmas**, one module each:
  - `Events`: bytes, MIDI messages and output events;
  - `ShiftRegister`: the `write_byte` bit order;
  - `Indicator`: the LED bitmasks and key lighting;
  - `Display`: the segment table and the mode display;
  - `Analog`: `adc_to_midi`, `select_channel` and Python's `int()` truncation;
  - `Delta`: `handle_delta_control`;
  - `Buttons`: edge detection and note numbers.
- **The `while True` body is a function.**
  - `Controller.StepSpec` maps the loop's module-level variables (`Controller.State`) and one iteration's hardware readings (`Controller.Sample`) to the new variables and the events produced, in order.
  - Events are MIDI sends, shifter writes and multiplexer selector settings.
  - The iteration is split into parts in the source's order, collected by `StepPhases`: `Refresh`, `PollMode`, `ScanKeys`, `ScanMux`, `ScanDirect`, `PollEncoder`.
  - `Run` repeats the step over a sequence of readings.
- **The imperative loop is a class.**
  - `Controller.Controller` holds the same variables as fields, plus a `log` of events.
  - Its `Step` method performs the iteration statement by statement, with a `for` loop over keys and mux channels like the source. It is proved to leave exactly `StepSpec`'s state and events.
  - `Loop` is proved equal to `Run`.
- **Properties of the loop are proved on `StepSpec` and `Run`** in `ControllerProps`.
  - The main one, `StepSendsExactly`, says which MIDI messages one iteration sends: exactly those from key edges, changed knob values, delta nudges, changed direct inputs and encoder presses.
  - Related lemmas cover which variables each part may change, well-formed MIDI data bytes, silence on a repeated identical sample, and the mode counting presses modulo 7.

Digital levels are `true` when released, because the inputs are pulled up. The values the hardware returns on each iteration are parameters of the step. This covers the mode button, the eight keys, the seven mux samples, the two direct samples, and the delta and encoder buttons, which are keys 0, 3, 5 and 2 read again later in the iteration.

Python's float arithmetic is modelled exactly in integers:
- `adc_to_midi` is `127 - trunc(raw * 127 / 65535)`, clamped.
- The delta step is the quotient truncated toward zero. Dafny's `/` floors, so this is written out as `Analog.TruncDiv`.

For `adc_to_midi` over the sampler's range 0..65535, the float expression never lands within rounding error of an integer except at exact integers. This is because 127 and 65535 share no factor.

Points where the code behaves in a way that is easy to misread; the model follows the code:
- `adc_to_midi` truncates rather than rounds.
- The delta step truncates toward zero rather than flooring.
- The digits are rewritten on every iteration, not only when the mode changes.
- Glyph 16 is a lit pattern (`0x6E`), not blank.
- Key `i` lights LED `mapping[7 - i]`, so key 0 lights LED 4.
- A release in modes 0, 3 and 4 writes `0x00`, because `light_ic1_led(9)` is out of range.

## Model

| member | source | states |
|---|---|---|
| ShiftRegister.WriteByte | code/main_code.py:59-65 | the eight data levels of a `write_byte` are bit i of the value on pulse i (least significant first), and a receiver assembling them gets the byte back |
| ShiftRegister.AssembleInverts | code/main_code.py:59-65 | pulses that carry the bits of a byte in clock order assemble to that byte |
| ShiftRegister.PulsesDetermineByte | code/main_code.py:59-65 | two different bytes never give the same pulse train |
| Indicator.LedBitBits | code/main_code.py:71-72 | `light_ic1_led(index)` lights exactly LED `index`, and nothing for an index outside 0..7 |
| Indicator.MaskOfBits | code/main_code.py:74-79 | the mask of `light_ic1_leds` has bit k set exactly when k is one of the indices; out-of-range indices add nothing |
| Indicator.LightLeds | code/main_code.py:74-79 | the accumulating loop builds exactly that mask |
| Indicator.KeyLedPermutation | code/main_code.py:157 | the key-to-LED table maps 0..7 one-to-one onto 0..7 and is its own inverse |
| Indicator.KeyLightPressLeds | code/main_code.py:155-158 | a press writes to the LEDs exactly in modes 0, 3 and 4, lighting only the LED the table names, or none for an unmapped key |
| Indicator.StillBytes | code/main_code.py:161-171 | the static pattern is 0x90, 0xF4, 0x46, 0x5F in modes 1, 2, 5, 6, and all-off otherwise |
| Display.SegmentsReadBack | code/main_code.py:33-39 | glyphs 0..16 are lit and pairwise distinct (readable back), every other number is blank, the decimal point is never lit |
| Display.ModeDisplayWrites | code/main_code.py:132-136 | `mode_display` writes the left glyph of the mode to `sr2`, then the right glyph to `sr3`, and nothing else |
| Display.DisplayNumberOnLedWrites | code/main_code.py:81-86 | index 2 writes the number's pattern (blank for an unmapped number) to `sr2`, index 3 to `sr3`, and any other index writes nothing |
| Display.ModeDisplayIdentifiesMode | code/main_code.py:132-136 | every mode 0..6 lights both digits, and two modes that show the same patterns are the same mode |
| Analog.TruncDivTowardZero | code/main_code.py:145 | `int(a / d)` is the multiple-of-d quotient on the side of zero: within d of a and no further from zero than a, for either sign |
| Analog.Clamp | code/main_code.py:97 | `max(0, min(127, x))` is in 0..127, is x on that range, and pins below and above to 0 and 127 |
| Analog.AdcToMidi | code/main_code.py:96-97 | the quantized value is always a MIDI data byte 0..127 |
| Analog.AdcToMidiTruncates | code/main_code.py:96-97 | on 0..65535, 127 minus the result is the largest q with 65535·q ≤ 127·raw (truncation, not rounding) |
| Analog.AdcToMidiExact | code/main_code.py:96-97 | on 0..65535 the clamp never acts and the result is 127 − raw·127 div 65535 |
| Analog.AdcToMidiEnds | code/main_code.py:96-97 | 0 maps to 127, 65535 maps to 0, and 32768 maps to 64 where rounding would give 63 |
| Analog.TruncDivMonotone | code/main_code.py:145 | truncated division never decreases as the dividend grows |
| Analog.AdcToMidiMonotone | code/main_code.py:96-97 | a larger sample never gives a larger MIDI value |
| Analog.SelectChannelSpells | code/main_code.py:103-104 | for a channel 0..7 the selector lines s0, s1, s2 carry its bits 0, 1, 2 |
| Delta.HandleDelta | code/main_code.py:141-153 | the returned third value is always the current button state |
| Delta.HandleDeltaShape | code/main_code.py:141-153 | released: nothing changes or is sent; fresh press: only the reference becomes the sample; a CC is sent exactly when the held value changes, carrying the new value and re-baselining the reference; an in-range value stays in range |
| Delta.DeltaSendsExactly | code/main_code.py:144-152 | with the value in range, a CC is sent exactly when the button was already held, a reference exists, the sample moved by at least 512, and the value is not already pinned at the end it moves to |
| Delta.DeltaMovesByWholeSteps | code/main_code.py:145-147 | a sent value moves in the direction of the turn, by the truncated number of 512-steps unless stopped at 0 or 127 |
| Delta.DeltaRepeatIsSilent | code/main_code.py:141-153 | calling again with the same sample and button state sends nothing and changes nothing |
| Delta.DeltaExamples | code/main_code.py:145 | a 600-unit rise moves 64 to 63 (truncation, floor would give 62), and a 10000-unit drop moves 64 to 83 |
| Buttons.PressReportedOnce | code/main_code.py:116-118 | a press is reported exactly when the line is low after high, the level read is the new last state, and a repeated poll at that level reports nothing |
| Buttons.NoteNumberDecodes | code/main_code.py:138-139 | for mode 0..6 and key 0..7 the note is 0..79 and mode and key can be recovered from it |
| Controller.Refresh | code/main_code.py:181-184 | the refresh changes only `last_mode_var`, which becomes the current mode |
| Controller.PollMode | code/main_code.py:185-187 | the mode-button poll changes only the mode and the remembered mode-button level, which becomes the level read |
| Controller.ScanKeys | code/main_code.py:190-205 | the key scan changes only `last_states`, which keeps its eight entries |
| Controller.ScanKeysRemembers | code/main_code.py:205 | every scanned key's level is remembered, whether or not it played, and unscanned keys keep theirs |
| Controller.SendOnChange | code/main_code.py:218-222 | after a slot is polled its last value is the quantized sample and nothing else changes |
| Controller.DeltaPair | code/main_code.py:213-217 | the mode-1 channel-0 path changes only the two delta instances' variables |
| Controller.MuxChannel | code/main_code.py:207-222 | one mux channel changes only `last_values` and the delta variables, and keeps the nine slots |
| Controller.MuxChannelValues | code/main_code.py:213-222 | outside the delta path the slot takes the quantized sample; on it no slot changes; held delta values stay data bytes |
| Controller.ScanMux | code/main_code.py:207-222 | the mux bank changes only `last_values` and the delta variables |
| Controller.ScanMuxValues | code/main_code.py:207-222 | after the bank every channel's slot holds its quantized sample, except slot 0 in mode 1, which keeps its value; slots 7 and 8 are untouched |
| Controller.ScanDirect | code/main_code.py:224-230 | the direct inputs change only `last_values` |
| Controller.ScanDirectValues | code/main_code.py:224-230 | slots 7 and 8 take the quantized direct samples and all other slots keep theirs |
| Controller.PollEncoder | code/main_code.py:232-245 | the encoder poll changes only the remembered encoder levels |
| Controller.StepSpec | code/main_code.py:180-247 | one iteration, its parts in the source's order; it records the mode it displayed as `last_mode_var` and remembers the mode-button level read (its sends are characterised by ControllerProps.StepSendsExactly) |
| Controller.StepKeepsValid | code/main_code.py:180-247 | an iteration keeps the mode in 0..6, every last value a quantized sample or the initial -1, and the held delta values data bytes |
| Controller.Run | code/main_code.py:180-247 | any number of iterations keep those ranges |
| Controller.RunExtend | code/main_code.py:180-247 | n + 1 iterations are n iterations followed by one more step |
| Controller.KeyMessages | code/main_code.py:192-204 | the branch statements for one key send and write exactly the key's events |
| Controller.Controller.constructor | code/main_code.py:41-47 | the module-level initialisations give the initial state and an empty log |
| Controller.Controller.Step | code/main_code.py:180-247 | one pass of the loop body leaves exactly the state and appends exactly the events of one iteration |
| Controller.Controller.ScanInputs | code/main_code.py:190-230 | the key scan, mux bank and direct inputs together leave the composed state and events |
| Controller.Controller.Loop | code/main_code.py:180-247 | the loop run over a sequence of readings leaves exactly the state and events of that many iterations |
| Controller.Controller.RefreshDisplay | code/main_code.py:181-184 | the display refresh in place agrees with the refresh step |
| Controller.Controller.PollModeButton | code/main_code.py:185-187 | the mode-button poll in place agrees with the poll step and logs nothing |
| Controller.Controller.ScanKeyBank | code/main_code.py:190-205 | the key loop in place agrees with the key scan |
| Controller.Controller.ScanKey | code/main_code.py:191-205 | one key's body remembers its level and logs its events |
| Controller.Controller.ScanMuxBank | code/main_code.py:207-222 | the mux loop in place agrees with the mux bank |
| Controller.Controller.ScanMuxSlot | code/main_code.py:208-222 | one mux channel's body agrees with that channel's step |
| Controller.Controller.ScanDeltaPair | code/main_code.py:213-217 | the two delta calls in place agree with the delta path |
| Controller.Controller.SendIfChanged | code/main_code.py:218-222 | the send-on-change in place agrees with its step |
| Controller.Controller.ScanDirectInputs | code/main_code.py:224-230 | the direct-input loop in place agrees with its step |
| Controller.Controller.PollEncoderButtons | code/main_code.py:232-245 | the encoder poll in place agrees with its step |
| ControllerProps.MuxControl | code/main_code.py:219 | channel 0 sends on 20 + mode and channel j on j + 1 |
| ControllerProps.KeyEventsSend | code/main_code.py:192-204 | a key sends a message exactly when it is the key's NoteOn on a press edge or NoteOff on a release edge, and the key is not a mode-1 delta key |
| ControllerProps.ScanKeysSend | code/main_code.py:190-205 | the key scan sends exactly the edge notes of the scanned keys |
| ControllerProps.SendOnChangeSend | code/main_code.py:218-222 | a slot sends exactly its quantized sample, on its controller, when it differs from the last value |
| ControllerProps.DeltaPairSend | code/main_code.py:213-217 | the delta path sends exactly CC 1 or CC 30 with the new held value when that instance's value moved |
| ControllerProps.ScanMuxDelta | code/main_code.py:213-217 | the delta variables after the bank are those of one delta-path call in mode 1 and unchanged otherwise |
| ControllerProps.ScanMuxSend | code/main_code.py:207-222 | the mux bank sends exactly the changed knob values outside the delta path plus, in mode 1, the delta path's messages |
| ControllerProps.ScanDirectSend | code/main_code.py:224-230 | the direct inputs send exactly the changed quantized samples on CC 8 and 9 |
| ControllerProps.StepModeAndKeys | code/main_code.py:180-205 | an iteration advances the mode exactly on a mode-button press edge, remembers the mode-button level, records the mode shown, and remembers every key level |
| ControllerProps.StepLastValues | code/main_code.py:207-230 | after an iteration every slot holds its quantized sample, except slot 0 in mode 1, which is untouched |
| ControllerProps.ScanMuxKeepsDelta | code/main_code.py:213-217 | outside mode 1 the mux bank leaves the delta variables alone |
| ControllerProps.StepDeltaOnlyInMode1 | code/main_code.py:213-217 | the delta variables, including `prev_button*`, change only in mode 1 |
| ControllerProps.StepEncoderOnlyInMode2 | code/main_code.py:232-245 | in mode 2 the encoder levels are remembered, and in any other mode they keep their old values |
| ControllerProps.StepSendsByPart | code/main_code.py:180-247 | an iteration's messages are exactly those of its key, mux, direct and encoder parts; the refresh sends none |
| ControllerProps.StepKeysSend | code/main_code.py:190-205 | the key part of an iteration sends exactly the edge notes in the new mode |
| ControllerProps.StepMuxSend | code/main_code.py:207-222 | the mux part sends exactly the changed knob values and the delta nudges |
| ControllerProps.StepDirectSend | code/main_code.py:224-230 | the direct part sends exactly the changed direct samples |
| ControllerProps.StepEncoderSend | code/main_code.py:232-245 | the encoder part sends exactly the mode-2 encoder presses |
| ControllerProps.StepSendsExactly | code/main_code.py:180-247 | a message is sent in an iteration if and only if it is a key edge note, a changed knob value, a delta nudge, a changed direct value or a mode-2 encoder press |
| ControllerProps.StepMessagesWellFormed | code/main_code.py:180-247 | every note, controller and value sent is a MIDI data byte |
| ControllerProps.StepKeyNoteOn | code/main_code.py:192-197 | key i's NoteOn is sent exactly on its press edge, unless it is a mode-1 delta key |
| ControllerProps.StepKeyNoteOff | code/main_code.py:198-204 | key i's NoteOff is sent exactly on its release edge, unless it is a mode-1 delta key |
| ControllerProps.KnobChangeOnly | code/main_code.py:218-222 | CC j + 1 for j in 1..6 comes only from mux channel j |
| ControllerProps.DirectChangeOnly | code/main_code.py:227-230 | CC 8 + k comes only from direct input k |
| ControllerProps.StepKnobControl | code/main_code.py:218-222 | CC j + 1 is sent with v exactly when v is channel j's quantized sample and differs from its last value |
| ControllerProps.StepChannelZeroControl | code/main_code.py:213-222 | CC `CC_MAP[mode]` is sent for channel 0 exactly outside mode 1 when its sample changed |
| ControllerProps.StepDirectControl | code/main_code.py:224-230 | CC 8 + k is sent with v exactly when v is direct input k's quantized sample and differs from its last value |
| ControllerProps.StepDeltaControl | code/main_code.py:213-217 | CC 1 and CC 30 are sent exactly when their held values move, carrying the new value, and they move only in mode 1 |
| ControllerProps.StepEncoderControl | code/main_code.py:232-245 | CC 10 is sent with 127 on a left press edge or 1 on a right press edge, in mode 2 only |
| ControllerProps.DeltaPairLocal | code/main_code.py:213-217 | the delta path depends only on the delta variables |
| ControllerProps.DeltaPairRepeat | code/main_code.py:213-217 | repeating the delta path with the same sample and gates leaves the delta variables as they are |
| ControllerProps.StepDeltaState | code/main_code.py:213-217 | in mode 1 the delta variables after an iteration are those of one delta-path call on the channel-0 sample |
| ControllerProps.StepRepeatKeepsDelta | code/main_code.py:180-247 | a second iteration on identical readings leaves the delta variables unchanged |
| ControllerProps.StepRepeatIsSilent | code/main_code.py:180-247 | a second iteration on identical readings sends no MIDI message |
| ControllerProps.ScanMuxFirst | code/main_code.py:207-208 | the mux bank begins by selecting channel 1 |
| ControllerProps.StepDisplayFirst | code/main_code.py:181-184 | every iteration begins by writing both digits for the current mode, followed by the static LED pattern exactly when the mode differs from the last one shown |
| ControllerProps.KeyLeds | code/main_code.py:192-204 | in modes 0, 3 and 4 a press lights only LED `mapping[7-i]` and a release writes 0x00; in other modes keys never write the LEDs |
| ControllerProps.KeyZeroPressInModeZero | code/main_code.py:197 | in mode 0 pressing key 0 sends note 0 and lights LED 4 (byte 0x10) |
| ControllerProps.ReleaseUsesNewMode | code/main_code.py:185-201 | a key released in the iteration that changes the mode sends its NoteOff in the new mode's octave |
| ControllerProps.UnsentSlotsAllSend | code/main_code.py:218-230 | when no slot has sent yet, every slot sends its value (channel 0 except in mode 1) |
| ControllerProps.FirstIterationSendsEverySlot | code/main_code.py:43 | the initial -1 values force one send per slot on the first iteration |
| ControllerProps.SharedKeyInModeTwo | code/main_code.py:127-130 | in mode 2 key 5 doubles as the left encoder button: one press sends both its NoteOn and CC 10 = 127 |
| ControllerProps.ModeAfterStep | code/main_code.py:187 | helper of RunMode: the mode counted after n + 1 presses is the next mode (modulo 7) after the one counted after n |
| ControllerProps.ModeAfterCycle | code/main_code.py:187 | helper of SevenPressesCycle: counting seven presses from a mode 0..6 gives that mode back |
| ControllerProps.RunLastStep | code/main_code.py:185-187 | the last iteration of a run remembers its mode-button level and advances the mode exactly on a press edge |
| ControllerProps.RunMode | code/main_code.py:185-187 | after any run the mode is the start mode plus the number of mode-button press edges, modulo 7 |
| ControllerProps.SevenPressesCycle | code/main_code.py:187 | a run with exactly seven press edges ends in the mode it started in |
| ControllerProps.RunMessagesWellFormed | code/main_code.py:180-247 | every message sent over any run is made of MIDI data bytes |
| ControllerProps.InitialValid | code/main_code.py:41-47 | the initial values lie within the loop's ranges |

## Left out

- `file_b/boot.py` is not part of this model. It is a one-shot, platform-only choice of whether to enable the USB drive.
- Hardware set-up and pin access are replaced by per-iteration input values. This covers `digitalio`/`AnalogIn` construction, `create_button`, `ShiftRegister.__init__`, and reading `button.value`/`adc.value`.
- The latch and clock waveform of `write_byte` is not modelled; only the order of the data bits is. A write to a chain is one `Shift` event carrying the byte.
- The USB MIDI transport (`usb_midi`, `adafruit_midi`, `midi.send`) becomes a `Send` event appended to the log. `send_midi_note_on`/`send_midi_note_off` are folded into those events with their default velocities 127 and 0.
- All `print` logging is left out, because it has no effect on the state or the MIDI output.
- The `time.sleep` delays (lines 178, 209, 247) are left out, because they set the cadence only.
- The start-up LED chase (lines 175-178) writes eight patterns to `sr1` before the loop (0x11, 0x22, 0x44, 0x88, twice). It has no decision logic, and the model's log starts after it.
- Float arithmetic is modelled exactly in integers, as described above; no floating-point behaviour beyond truncation is captured.
- The delta and encoder buttons are separate inputs, because the source reads them again later in the iteration. The model does not force these levels to equal the key levels read earlier in the same iteration.
- ControllerProps.StepSendsExactly: says which messages an iteration sends, not their order or how many times each is sent. The order of all events is fixed by `Controller.Controller.Step` agreeing with `StepSpec`.
