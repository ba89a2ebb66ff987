/** The arithmetic of `analogReadAPI`, `analogWriteAPI` and `mapResolution`
    (variants/clearcore/variant.cpp). The two floating-point roundings are
    replaced by exact integer formulas with the same results. */
module AnalogConversion {
  import opened Common
  import opened Arith

  /** The largest ADC code at a resolution; any resolution other than 8,
      10, 12 or 16 bits is treated as 12 bits. */
  function AdcMax(resolution: int): (max: int)
    ensures resolution in {8, 10, 12, 16} ==> max == Pow2(resolution) - 1
    ensures resolution !in {8, 10, 12, 16} ==> max == 4095
    ensures max > 0 && max % 2 == 1
  {
    Pow2Small();
    match resolution
    case 8 => 255
    case 10 => 1023
    case 12 => 4095
    case 16 => 65535
    case _ => 4095
  }

  /** `round(1000 * 9.9 * raw / max)`. The exact quotient `9900 * raw / max`
      is never halfway between two integers because `max` is odd (in lowest
      terms 9900/max has denominator 17, 31, 91 or 4369), so rounding is
      taking the nearest integer, which is what this floor division does. */
  function ToMillivolts(raw: int, max: int): (mv: int)
    requires max > 0 && max % 2 == 1
    ensures 2 * (mv * max - 9900 * raw) < max
    ensures 2 * (9900 * raw - mv * max) < max
  {
    var n, d := 2 * 9900 * raw + max, 2 * max;
    DivBracket(n, d);
    var q := n / d;
    assert q * d == 2 * (q * max);
    assert (q + 1) * d == 2 * (q * max) + 2 * max;
    q
  }

  /** The full scale maps to 9.9 V and zero to zero, and the conversion
      never decreases. */
  lemma MillivoltEndpoints(resolution: int, raw: int, raw': int)
    requires raw <= raw'
    ensures ToMillivolts(0, AdcMax(resolution)) == 0
    ensures ToMillivolts(AdcMax(resolution), AdcMax(resolution)) == 9900
    ensures ToMillivolts(raw, AdcMax(resolution)) <= ToMillivolts(raw', AdcMax(resolution))
    ensures 0 <= raw <= AdcMax(resolution) ==> 0 <= ToMillivolts(raw, AdcMax(resolution)) <= 9900
  {
    var max := AdcMax(resolution);
    MillivoltsMonotone(raw, raw', max);
    if 0 <= raw <= max {
      MillivoltsMonotone(0, raw, max);
      MillivoltsMonotone(raw, max, max);
    }
  }

  lemma MillivoltsMonotone(raw: int, raw': int, max: int)
    requires raw <= raw' && max > 0 && max % 2 == 1
    ensures ToMillivolts(raw, max) <= ToMillivolts(raw', max)
  {
    DivMonotone(2 * 9900 * raw + max, 2 * 9900 * raw' + max, 2 * max);
  }

  /** The DAC code for a current already constrained to 0..20000 µA:
      `round(v * 4095.0 / 20000.0)`, halves rounded up as C's `round` does
      for positive values. */
  function DacCode(microamps: int): (code: int)
    requires 0 <= microamps <= 20000
    ensures 0 <= code <= 4095
    ensures -10000 < 20000 * code - 4095 * microamps <= 10000
  {
    (4095 * microamps + 10000) / 20000
  }

  /** `analogWriteAPI`'s conversion of a MICROAMPS value: constrain to
      0..20000, then round to a 12-bit code. */
  function MicroampsToDac(value: int): (code: int)
    ensures 0 <= code <= 4095
    ensures value <= 0 ==> code == 0
    ensures value >= 20000 ==> code == 4095
  {
    DacCode(Constrain(value, 0, 20000))
  }

  /** Currents beyond 20 mA give the same code as 20 mA, and the code
      grows with the current. */
  lemma MicroampsClamp(value: int, value': int)
    requires value <= value'
    ensures MicroampsToDac(25000) == MicroampsToDac(20000) == 4095
    ensures MicroampsToDac(value) <= MicroampsToDac(value')
    ensures MicroampsToDac(2000) == 410
  {
    var v, v' := Constrain(value, 0, 20000), Constrain(value', 0, 20000);
    DivMonotone(4095 * v + 10000, 4095 * v' + 10000, 20000);
  }

  /** `mapResolution(value, from, to)` on 32-bit unsigned words: the value
      unchanged when the widths agree, shifted right (dropping bits) when
      narrowing, shifted left (truncated to 32 bits) when widening. A shift
      by 32 or more is undefined in C, hence the precondition. */
  function MapResolution(value: uint32, from: uint32, to: uint32): (r: uint32)
    requires from - to < 32 && to - from < 32
    ensures from >= to ==> r <= value
  {
    if from == to then value
    else if from > to then
      var p := Pow2(from - to);
      DivBelow(value, p);
      DivBracket(value, p);
      value / p
    else
      var w := value * Pow2(to - from);
      ModSmall(w % TWO_POW_32, TWO_POW_32);
      w % TWO_POW_32
  }

  lemma WidenExact(value: uint32, from: uint32, to: uint32)
    requires from < to < from + 32 && to <= 32 && value < Pow2(from)
    ensures MapResolution(value, from, to) == value * Pow2(to - from) < Pow2(to)
  {
    var k: nat := to - from;
    var w := value * Pow2(k);
    assert w < TWO_POW_32 && w < Pow2(to) by {
      Pow2Monotone(to, 32);
      Pow2Of32();
      Pow2Add(from, k);
      MulStrict(value, Pow2(from), Pow2(k));
    }
    ModSmall(w, TWO_POW_32);
  }

  lemma WidenThenNarrow(value: uint32, from: uint32, to: uint32)
    requires from < to < from + 32 && to <= 32 && value < Pow2(from)
    ensures MapResolution(value, from, to) < Pow2(to)
    ensures MapResolution(MapResolution(value, from, to), to, from) == value
  {
    WidenExact(value, from, to);
    MulDiv(value, Pow2(to - from));
  }

  lemma NarrowFits(value: uint32, from: uint32, to: uint32)
    requires to < from < to + 32 && value < Pow2(from)
    ensures MapResolution(value, from, to) < Pow2(to)
  {
    var k: nat := from - to;
    Pow2Add(to, k);
    DivBound(value, Pow2(k), Pow2(to));
  }

  /** Widening a `from`-bit value and narrowing it back returns it
      unchanged, and a `from`-bit value always comes out fitting in `to`
      bits. */
  lemma MapResolutionRoundTrip(value: uint32, from: uint32, to: uint32)
    requires from - to < 32 && to - from < 32
    requires value < Pow2(from) && to <= 32
    ensures from <= to ==> MapResolution(MapResolution(value, from, to), to, from) == value
    ensures MapResolution(value, from, to) < Pow2(to)
  {
    if from < to {
      WidenThenNarrow(value, from, to);
    } else if from > to {
      NarrowFits(value, from, to);
    }
  }
}
