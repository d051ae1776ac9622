/** The digital inputs: `handle_button_press` edge detection and
    `get_note_number`. Inputs are active low: `false` means held down. */
module Buttons {

  /** The pair `handle_button_press` returns: whether a press edge was seen
      and the level to remember for the next poll. */
  datatype Poll = Poll(pressed: bool, last: bool)

  /** `handle_button_press(button, last_state)` on the level just read. */
  function HandleButtonPress(current: bool, lastState: bool): Poll
  {
    Poll(!current && lastState, current)
  }

  /** A press edge is reported exactly when the line is now low and was
      high, the current level is always remembered, and a second poll at
      the same level reports nothing: one physical press gives one edge. */
  lemma PressReportedOnce(current: bool, lastState: bool)
    ensures HandleButtonPress(current, lastState).pressed <==> !current && lastState
    ensures HandleButtonPress(current, lastState).last == current
    ensures !HandleButtonPress(current, HandleButtonPress(current, lastState).last).pressed
  {
  }

  /** `get_note_number(mode, index)`. */
  function NoteNumber(mode: int, index: int): int
  {
    12 * mode + index
  }

  /** For a mode 0..6 and a key 0..7 the note is at most 79, and mode and
      key can be read back from it, so no two (mode, key) pairs share a
      note. */
  lemma NoteNumberDecodes(mode: int, index: int)
    requires 0 <= mode <= 6 && 0 <= index <= 7
    ensures 0 <= NoteNumber(mode, index) <= 79
    ensures NoteNumber(mode, index) / 12 == mode && NoteNumber(mode, index) % 12 == index
  {
  }
}
