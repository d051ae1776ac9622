/** The eight-LED indicator bank on chain `sr1`: `light_ic1_led`,
    `light_ic1_leds`, `key_light_press` and `key_light_still`. */
module Indicator {
  import opened Events

  /** The byte `light_ic1_led(index)` writes: only LED `index` lit, or
      nothing at all for an index outside 0..7. */
  function LedBit(index: int): Byte
  {
    if 0 <= index <= 7 then (1 as Byte) << index else 0x00
  }

  /** LedBit lights exactly the LED it is given, and none for an index
      outside 0..7. */
  lemma LedBitBits(index: int)
    ensures forall k :: 0 <= k < 8 ==> (Bit(LedBit(index), k) <==> k == index)
  {
  }

  /** The bitmask `light_ic1_leds(indices)` accumulates: indices outside
      0..7 contribute no bit. */
  function MaskOf(indices: seq<int>): Byte
  {
    if indices == [] then 0x00
    else
      var last := |indices| - 1;
      MaskOf(indices[..last]) | LedBit(indices[last])
  }

  /** The mask lights LED k exactly when k is one of the indices. */
  lemma {:induction false} MaskOfBits(indices: seq<int>)
    ensures forall k :: 0 <= k < 8 ==> (Bit(MaskOf(indices), k) <==> k in indices)
  {
    if indices != [] {
      var last := |indices| - 1;
      assert indices == indices[..last] + [indices[last]];
      MaskOfBits(indices[..last]);
      LedBitBits(indices[last]);
      forall k | 0 <= k < 8
        ensures Bit(MaskOf(indices), k) <==> k in indices
      {
        OrBit(MaskOf(indices[..last]), LedBit(indices[last]), k);
      }
    }
  }

  /** `light_ic1_leds`: the loop that ORs one bit per in-range index into
      the mask, which is then written to the LED chain. */
  method LightLeds(indices: seq<int>) returns (bitmask: Byte)
    ensures bitmask == MaskOf(indices)
  {
    bitmask := 0x00;
    for j := 0 to |indices|
      invariant bitmask == MaskOf(indices[..j])
    {
      var idx := indices[j];
      if 0 <= idx <= 7 {
        bitmask := bitmask | ((1 as Byte) << idx);
      }
      assert indices[..j + 1][..j] == indices[..j];
    }
    assert indices[..|indices|] == indices;
  }

  /** `mapping.get(gpio_num, 9)` in `key_light_press`: which LED a key
      lights. Anything but 0..7 maps to 9, which lights nothing. */
  function KeyLed(gpio: int): int
  {
    match gpio
    case 0 => 0
    case 1 => 1
    case 2 => 2
    case 3 => 3
    case 4 => 7
    case 5 => 6
    case 6 => 5
    case 7 => 4
    case _ => 9
  }

  /** On 0..7 the key-to-LED table is a permutation of the eight LEDs. */
  lemma KeyLedPermutation(g: int, h: int)
    requires 0 <= g <= 7 && 0 <= h <= 7
    ensures 0 <= KeyLed(g) <= 7
    ensures KeyLed(g) == KeyLed(h) ==> g == h
    ensures KeyLed(KeyLed(g)) == g
  {
  }

  /** `key_light_press(gpio_num)`: in modes 0, 3 and 4 the single LED the
      table names is lit; in the other modes nothing is written. */
  function KeyLightPress(mode: int, gpio: int): Option<Byte>
  {
    if mode == 0 || mode == 3 || mode == 4 then Some(LedBit(KeyLed(gpio))) else None
  }

  /** A press writes in modes 0, 3 and 4 only, and then lights exactly the
      LED the table names for the key, or none for a key outside 0..7. */
  lemma KeyLightPressLeds(mode: int, gpio: int)
    ensures KeyLightPress(mode, gpio).Some? <==> mode == 0 || mode == 3 || mode == 4
    ensures KeyLightPress(mode, gpio).Some? && 0 <= gpio <= 7 ==>
      forall k :: 0 <= k < 8 ==> (Bit(KeyLightPress(mode, gpio).value, k) <==> k == KeyLed(gpio))
    ensures KeyLightPress(mode, gpio).Some? && !(0 <= gpio <= 7) ==> KeyLightPress(mode, gpio).value == 0x00
  {
    LedBitBits(KeyLed(gpio));
  }

  /** The LED set `key_light_still` lights for each mode; `[8]` lights none. */
  function StillPattern(mode: int): seq<int>
  {
    if mode == 1 then [4, 7]
    else if mode == 2 then [2, 4, 5, 6, 7]
    else if mode == 5 then [1, 2, 6]
    else if mode == 6 then [0, 1, 2, 3, 4, 6]
    else [8]
  }

  /** The byte `key_light_still` writes to the LED chain. */
  function StillByte(mode: int): Byte
  {
    MaskOf(StillPattern(mode))
  }

  /** The static patterns as bytes: 0x90, 0xF4, 0x46 and 0x5F in modes 1, 2,
      5 and 6, and all LEDs off in every other mode. */
  lemma StillBytes(mode: int)
    ensures StillByte(mode) == (if mode == 1 then 0x90 else if mode == 2 then 0xF4
                                else if mode == 5 then 0x46 else if mode == 6 then 0x5F
                                else 0x00)
  {
    var expected: Byte := if mode == 1 then 0x90 else if mode == 2 then 0xF4
                          else if mode == 5 then 0x46 else if mode == 6 then 0x5F
                          else 0x00;
    MaskOfBits(StillPattern(mode));
    BitsDetermineByte(StillByte(mode), expected);
  }
}
