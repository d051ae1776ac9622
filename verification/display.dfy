/** The two seven-segment digits on chains `sr2` (left) and `sr3` (right):
    the `SEGMENTS` table, `display_number_on_led` and `mode_display`. */
module Display {
  import opened Events

  /** `SEGMENTS.get(number, 0x00)`: the segment pattern of a glyph, segment
      a in the most significant bit and the decimal point in bit 0.
      Glyphs 0..9 are the digits and 10..16 the letters A, C, F, L, P, U, H;
      any other number is blank. */
  function Segments(number: int): Byte
  {
    match number
    case 0 => 0xFC
    case 1 => 0x60
    case 2 => 0xDA
    case 3 => 0xF2
    case 4 => 0x66
    case 5 => 0xB6
    case 6 => 0xBE
    case 7 => 0xE0
    case 8 => 0xFE
    case 9 => 0xF6
    case 10 => 0xEE
    case 11 => 0x9C
    case 12 => 0x8E
    case 13 => 0x1C
    case 14 => 0xCE
    case 15 => 0x7C
    case 16 => 0x6E
    case _ => 0x00
  }

  /** Reads a glyph back from the segment pattern on a digit. */
  function Glyph(b: Byte): Option<int>
  {
    if b == 0xFC then Some(0) else if b == 0x60 then Some(1)
    else if b == 0xDA then Some(2) else if b == 0xF2 then Some(3)
    else if b == 0x66 then Some(4) else if b == 0xB6 then Some(5)
    else if b == 0xBE then Some(6) else if b == 0xE0 then Some(7)
    else if b == 0xFE then Some(8) else if b == 0xF6 then Some(9)
    else if b == 0xEE then Some(10) else if b == 0x9C then Some(11)
    else if b == 0x8E then Some(12) else if b == 0x1C then Some(13)
    else if b == 0xCE then Some(14) else if b == 0x7C then Some(15)
    else if b == 0x6E then Some(16) else None
  }

  /** Every glyph 0..16 is lit and can be read back from its pattern, so no
      two glyphs look alike; every other number is blank. The decimal point
      is never lit. */
  lemma SegmentsReadBack(number: int)
    ensures 0 <= number <= 16 ==> Segments(number) != 0x00 && Glyph(Segments(number)) == Some(number)
    ensures !(0 <= number <= 16) ==> Segments(number) == 0x00 && Glyph(Segments(number)) == None
    ensures !Bit(Segments(number), 0)
  {
  }

  /** `display_number_on_led(ic_index, number)`: index 2 writes the left
      digit, index 3 the right one, and any other index writes nothing. */
  function DisplayNumberOnLed(icIndex: int, number: int): seq<Event>
  {
    var value := Segments(number);
    if icIndex == 2 then [Shift(LeftDigit, value)]
    else if icIndex == 3 then [Shift(RightDigit, value)]
    else []
  }

  /** Index 2 writes the glyph's pattern to the left digit, index 3 to the
      right digit, and every other index writes nothing. */
  lemma DisplayNumberOnLedWrites(icIndex: int, number: int)
    ensures icIndex == 2 ==> DisplayNumberOnLed(icIndex, number) == [Shift(LeftDigit, Segments(number))]
    ensures icIndex == 3 ==> DisplayNumberOnLed(icIndex, number) == [Shift(RightDigit, Segments(number))]
    ensures icIndex != 2 && icIndex != 3 ==> DisplayNumberOnLed(icIndex, number) == []
  {
  }

  /** The (left, right) glyphs `mode_display` shows for a mode; a mode past
      the table shows (0, 0). */
  function ModeDigits(mode: nat): (int, int)
  {
    var pattern := [(14, 13), (14, 0), (13, 0), (16, 11), (14, 10), (12, 1), (13, 14)];
    if mode < |pattern| then pattern[mode] else (0, 0)
  }

  /** `mode_display(mode)`: the left digit then the right digit. */
  function ModeDisplay(mode: nat): seq<Event>
  {
    var (left, right) := ModeDigits(mode);
    DisplayNumberOnLed(2, left) + DisplayNumberOnLed(3, right)
  }

  /** `mode_display` writes exactly two patterns: the left glyph of the
      mode on the left digit, then the right glyph on the right digit. */
  lemma ModeDisplayWrites(mode: nat)
    ensures ModeDisplay(mode) ==
      [Shift(LeftDigit, Segments(ModeDigits(mode).0)), Shift(RightDigit, Segments(ModeDigits(mode).1))]
  {
  }

  /** The digits tell the seven modes apart: two modes 0..6 that show the
      same two patterns are the same mode, and every mode lights both
      digits. */
  lemma ModeDisplayIdentifiesMode(m: nat, n: nat)
    requires m < 7 && n < 7
    ensures ModeDisplay(m)[0].value != 0x00 && ModeDisplay(m)[1].value != 0x00
    ensures ModeDisplay(m) == ModeDisplay(n) ==> m == n
  {
    ModeDisplayWrites(m);
    ModeDisplayWrites(n);
    var (lm, rm) := ModeDigits(m);
    var (ln, rn) := ModeDigits(n);
    SegmentsReadBack(lm);
    SegmentsReadBack(rm);
    SegmentsReadBack(ln);
    SegmentsReadBack(rn);
  }
}
