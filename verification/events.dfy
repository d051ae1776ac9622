/** Values shared by every part of the controller: the bytes clocked into the
    output shifters and the events the main loop produces, in order. */
module Events {

  /** One byte written to a shift-register chain. */
  type Byte = bv8

  datatype Option<T> = None | Some(value: T)

  /** Bit k (0 = least significant) of a byte is set. */
  predicate Bit(b: Byte, k: nat)
    requires k < 8
  {
    (b >> k) & 1 == 1
  }

  /** A bit of an OR is set when it is set in either operand. */
  lemma OrBit(a: Byte, b: Byte, k: nat)
    requires k < 8
    ensures Bit(a | b, k) <==> Bit(a, k) || Bit(b, k)
  {
    assert (a | b) >> k == (a >> k) | (b >> k);
  }

  /** A byte is determined by its eight bits. */
  lemma BitsDetermineByte(a: Byte, b: Byte)
    requires forall k :: 0 <= k < 8 ==> Bit(a, k) == Bit(b, k)
    ensures a == b
  {
    assert Bit(a, 0) == Bit(b, 0) && Bit(a, 1) == Bit(b, 1);
    assert Bit(a, 2) == Bit(b, 2) && Bit(a, 3) == Bit(b, 3);
    assert Bit(a, 4) == Bit(b, 4) && Bit(a, 5) == Bit(b, 5);
    assert Bit(a, 6) == Bit(b, 6) && Bit(a, 7) == Bit(b, 7);
  }

  /** The three messages sent on the MIDI port (channel 0). */
  datatype Message =
    | NoteOn(note: int, velocity: int)
    | NoteOff(note: int, velocity: int)
    | ControlChange(control: int, value: int)

  /** The three output shifters, each a separate chain on its own latch, clock
      and data pins: `sr1` drives the eight-LED bank,
      `sr2` the left digit and `sr3` the right digit. */
  datatype Chain = Leds | LeftDigit | RightDigit

  /** Everything the loop does to the outside world, in the order it does it:
      a MIDI send, a byte written to one chain, or the three multiplexer
      selector lines being set. */
  datatype Event =
    | Send(msg: Message)
    | Shift(chain: Chain, value: Byte)
    | Select(s0: bool, s1: bool, s2: bool)

  /** Appending two logs one after the other is appending their concatenation. */
  lemma AppendAssoc<T>(a: seq<T>, b: seq<T>, c: seq<T>)
    ensures (a + b) + c == a + (b + c)
  {
  }

  /** A MIDI data byte. */
  predicate DataByte(x: int) {
    0 <= x <= 127
  }

  /** Every field of the message fits in a MIDI data byte. */
  predicate WellFormedMessage(m: Message) {
    match m
    case NoteOn(n, v) => DataByte(n) && DataByte(v)
    case NoteOff(n, v) => DataByte(n) && DataByte(v)
    case ControlChange(c, v) => DataByte(c) && DataByte(v)
  }

  /** The event that writes an optional byte to the LED chain. */
  function LedWrite(b: Option<Byte>): seq<Event>
  {
    if b.Some? then [Shift(Leds, b.value)] else []
  }

  /** The event that sends an optional message. */
  function SendOpt(m: Option<Message>): seq<Event>
  {
    if m.Some? then [Send(m.value)] else []
  }
}
