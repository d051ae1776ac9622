/** The analog side: `adc_to_midi` and `select_channel`, plus Python's
    float-to-int truncation, which both `adc_to_midi` and
    `handle_delta_control` rely on. */
module Analog {
  import opened Events

  /** `int(a / d)` for a positive divisor: the quotient truncated toward
      zero (Python's `int()` of a float), not floored as Dafny's `/` is. */
  function TruncDiv(a: int, d: int): int
    requires d > 0
  {
    if a >= 0 then a / d else -((-a) / d)
  }

  /** Euclidean division of a non-negative dividend: d * (a / d) is the
      multiple of d at most a and less than d below it. */
  lemma DivBounds(a: int, d: int)
    requires a >= 0 && d > 0
    ensures 0 <= d * (a / d) <= a < d * (a / d) + d
  {
    var q, r := a / d, a % d;
    assert a == d * q + r && 0 <= r < d;
    assert q >= 0 by {
      if q < 0 {
        MulMonotone(d, q, -1);
        assert false;
      }
    }
    MulMonotone(d, 0, q);
  }

  /** The truncated quotient q is the multiple of d nearest to a on the side
      of zero: d * q lies between 0 and a, less than d away from a. */
  lemma TruncDivTowardZero(a: int, d: int)
    requires d > 0
    ensures var q := TruncDiv(a, d);
      (a >= 0 ==> 0 <= d * q <= a < d * q + d) &&
      (a < 0 ==> d * q - d < a <= d * q <= 0)
  {
    if a >= 0 {
      DivBounds(a, d);
      assert TruncDiv(a, d) == a / d;
    } else {
      DivBounds(-a, d);
      var q := (-a) / d;
      assert TruncDiv(a, d) == -q;
      assert d * (-q) == -(d * q);
    }
  }

  /** `max(0, min(127, x))`. */
  function Clamp(x: int): (r: int)
    ensures 0 <= r <= 127
    ensures 0 <= x <= 127 ==> r == x
    ensures x < 0 ==> r == 0
    ensures x > 127 ==> r == 127
  {
    if x < 0 then 0 else if x > 127 then 127 else x
  }

  /** `adc_to_midi(value)`: a 16-bit sample mapped onto 0..127, inverted,
      with the scaled value truncated rather than rounded. */
  function AdcToMidi(raw: int): (r: int)
    ensures 0 <= r <= 127
  {
    Clamp(127 - TruncDiv(raw * 127, 65535))
  }

  /** For a sample in 0..65535, 127 - AdcToMidi(raw) is the largest q with
      65535 * q <= 127 * raw: the scaled sample is truncated, not rounded. */
  lemma AdcToMidiTruncates(raw: int)
    requires 0 <= raw <= 65535
    ensures var r := AdcToMidi(raw);
      65535 * (127 - r) <= 127 * raw < 65535 * (128 - r)
  {
    TruncDivTowardZero(raw * 127, 65535);
    assert 0 <= raw * 127 <= 65535 * 127;
  }

  /** On the sampler's range the clamp never acts: the result is exactly
      127 minus the truncated scaled sample. */
  lemma AdcToMidiExact(raw: int)
    requires 0 <= raw <= 65535
    ensures AdcToMidi(raw) == 127 - raw * 127 / 65535
  {
    assert 0 <= raw * 127 <= 65535 * 127;
  }

  /** Full scale maps to the ends of the MIDI range, and a sample just past
      the midpoint shows the truncation: 32768 * 127 / 65535 is 63.5009...,
      which truncates to 63 (rounding would give 64), so the result is 64. */
  lemma AdcToMidiEnds()
    ensures AdcToMidi(0) == 127 && AdcToMidi(65535) == 0
    ensures AdcToMidi(32768) == 64
  {
  }

  /** Multiplying by a non-negative factor keeps the order. */
  lemma MulMonotone(d: int, x: int, y: int)
    requires d >= 0 && x <= y
    ensures d * x <= d * y
  {
    assert d * y - d * x == d * (y - x);
  }

  /** Division by a positive divisor never decreases as the dividend grows. */
  lemma DivMonotone(a: int, b: int, d: int)
    requires 0 <= a <= b && d > 0
    ensures a / d <= b / d
  {
    var qa, qb := a / d, b / d;
    assert d * qa <= a && b < d * qb + d;
    if qb < qa {
      MulMonotone(d, qb + 1, qa);
      assert false;
    }
  }

  /** Truncated division never decreases as the dividend grows. */
  lemma TruncDivMonotone(a: int, b: int, d: int)
    requires a <= b && d > 0
    ensures TruncDiv(a, d) <= TruncDiv(b, d)
  {
    if 0 <= a {
      DivMonotone(a, b, d);
      assert TruncDiv(a, d) == a / d && TruncDiv(b, d) == b / d;
    } else if b < 0 {
      DivMonotone(-b, -a, d);
      assert TruncDiv(a, d) == -((-a) / d) && TruncDiv(b, d) == -((-b) / d);
    } else {
      DivMonotone(0, -a, d);
      DivMonotone(0, b, d);
      assert TruncDiv(a, d) == -((-a) / d) && TruncDiv(b, d) == b / d;
    }
  }

  /** A larger sample never gives a larger MIDI value. */
  lemma AdcToMidiMonotone(a: int, b: int)
    requires a <= b
    ensures AdcToMidi(b) <= AdcToMidi(a)
  {
    TruncDivMonotone(a * 127, b * 127, 65535);
  }

  /** `select_channel(ch)`: the three selector lines carry bits 0, 1 and 2
      of the channel number; for a channel 0..7 they spell it back. */
  function SelectChannel(ch: int): Event
  {
    Select(ch % 2 == 1, (ch / 2) % 2 == 1, (ch / 4) % 2 == 1)
  }

  /** For a channel 0..7 the three selector lines spell the channel number
      back in binary, bit 0 first. */
  lemma SelectChannelSpells(ch: int)
    requires 0 <= ch < 8
    ensures var e := SelectChannel(ch);
      (if e.s0 then 1 else 0) + 2 * (if e.s1 then 1 else 0) + 4 * (if e.s2 then 1 else 0) == ch
  {
  }
}
