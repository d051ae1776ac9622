/** `ShiftRegister.write_byte`: a byte is clocked out as eight data levels,
    least significant bit first. Only the order of the data bits is modelled,
    not the latch and clock waveform around them. */
module ShiftRegister {
  import opened Events

  /** The data level on clock pulse i: bit i of the value. */
  function Pulse(value: Byte, i: nat): bool
    requires i < 8
  {
    Bit(value, i)
  }

  /** The byte a receiver assembles from eight pulses when pulse k carries
      bit k. */
  function Assemble(pulses: seq<bool>): Byte
    requires |pulses| == 8
  {
    (if pulses[0] then 0x01 else 0) | (if pulses[1] then 0x02 else 0) |
    (if pulses[2] then 0x04 else 0) | (if pulses[3] then 0x08 else 0) |
    (if pulses[4] then 0x10 else 0) | (if pulses[5] then 0x20 else 0) |
    (if pulses[6] then 0x40 else 0) | (if pulses[7] then 0x80 else 0)
  }

  /** The 8 data levels of one `write_byte`, in clock order; a receiver
      that takes pulse i as bit i gets the byte back. */
  method WriteByte(value: Byte) returns (pulses: seq<bool>)
    ensures |pulses| == 8
    ensures forall i :: 0 <= i < 8 ==> pulses[i] == Pulse(value, i)
    ensures Assemble(pulses) == value
  {
    pulses := [];
    for i := 0 to 8
      invariant |pulses| == i
      invariant forall k :: 0 <= k < i ==> pulses[k] == Pulse(value, k)
    {
      pulses := pulses + [(value >> i) & 1 == 1];
    }
    AssembleInverts(value, pulses);
  }

  /** Assembling the pulses of a byte gives the byte back. */
  lemma AssembleInverts(value: Byte, pulses: seq<bool>)
    requires |pulses| == 8
    requires forall i :: 0 <= i < 8 ==> pulses[i] == Pulse(value, i)
    ensures Assemble(pulses) == value
  {
    assert pulses[0] == Pulse(value, 0) && pulses[1] == Pulse(value, 1);
    assert pulses[2] == Pulse(value, 2) && pulses[3] == Pulse(value, 3);
    assert pulses[4] == Pulse(value, 4) && pulses[5] == Pulse(value, 5);
    assert pulses[6] == Pulse(value, 6) && pulses[7] == Pulse(value, 7);
  }

  /** Two different bytes never produce the same pulse train. */
  lemma PulsesDetermineByte(a: Byte, b: Byte)
    requires forall i :: 0 <= i < 8 ==> Pulse(a, i) == Pulse(b, i)
    ensures a == b
  {
    forall k | 0 <= k < 8
      ensures Bit(a, k) == Bit(b, k)
    {
      assert Pulse(a, k) == Pulse(b, k);
    }
    BitsDetermineByte(a, b);
  }
}
