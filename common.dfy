/** Model of the Arduino API header `api/Common.h`: pin levels and the
    enumerations the pin layer uses, the byte and bit macros, `constrain`,
    `min`, `max`, and the default arguments of the C++ prototypes. */
module Common {

  type uint8 = x: int | 0 <= x < 0x100
  type uint16 = x: int | 0 <= x < 0x1_0000
  type uint32 = x: int | 0 <= x < 0x1_0000_0000

  const TWO_POW_32: int := 0x1_0000_0000

  // PinStatus
  const LOW: int := 0
  const HIGH: int := 1
  const CHANGE: int := 2
  const FALLING: int := 3
  const RISING: int := 4

  // PinMode
  const INPUT: int := 0
  const OUTPUT: int := 1
  const INPUT_PULLUP: int := 2

  datatype Option<T> = None | Some(value: T)

  datatype AnalogOutMode = Pwm | Current
  datatype AnalogInputUnits = AdcRaw | Millivolts
  datatype AnalogOutputUnits = DacRaw | Microamps
  datatype BitOrder = LsbFirst | MsbFirst

  // Default arguments of the C++ prototypes.
  const PULSE_IN_DEFAULT_TIMEOUT: uint32 := 1000000
  const OUTPUT_PULSES_DEFAULT_COUNT: uint16 := 0
  const OUTPUT_PULSES_DEFAULT_BLOCK: bool := false
  const ANALOG_WRITE_DEFAULT_MODE: AnalogOutMode := Pwm
  const ANALOG_WRITE_DEFAULT_UNITS: AnalogOutputUnits := DacRaw
  const TONE_DEFAULT_DURATION: uint32 := 0

  /** The five pin levels are pairwise distinct, so a level byte of 2 or
      more is neither LOW nor HIGH. */
  lemma LevelsDistinct(level: uint8)
    ensures |{LOW, HIGH, CHANGE, FALLING, RISING}| == 5
    ensures level >= 2 ==> level != LOW && level != HIGH
  {
  }

  /** The defaults used where a caller omits the trailing arguments. */
  lemma DefaultArguments()
    ensures PULSE_IN_DEFAULT_TIMEOUT == 1000000
    ensures OUTPUT_PULSES_DEFAULT_COUNT == 0 && !OUTPUT_PULSES_DEFAULT_BLOCK
    ensures ANALOG_WRITE_DEFAULT_MODE == Pwm && ANALOG_WRITE_DEFAULT_UNITS == DacRaw
  {
  }

  /** `constrain(amt, low, high)`. */
  function Constrain(amt: int, low: int, high: int): (r: int)
    ensures amt < low ==> r == low
    ensures low <= amt && high < amt ==> r == high
    ensures low <= amt <= high ==> r == amt
    ensures low <= high ==> low <= r <= high
  {
    if amt < low then low else if amt > high then high else amt
  }

  /** Constraining an already constrained value changes nothing. */
  lemma ConstrainIdempotent(amt: int, low: int, high: int)
    requires low <= high
    ensures Constrain(Constrain(amt, low, high), low, high) == Constrain(amt, low, high)
  {
  }

  /** `min(a, b)` */
  function Min(a: int, b: int): (r: int)
    ensures r <= a && r <= b
    ensures r == a || r == b
  {
    if a < b then a else b
  }

  /** `max(a, b)` */
  function Max(a: int, b: int): (r: int)
    ensures a <= r && b <= r
    ensures r == a || r == b
  {
    if a > b then a else b
  }

  lemma MinBelowMax(a: int, b: int)
    ensures Min(a, b) <= Max(a, b)
    ensures {Min(a, b), Max(a, b)} == {a, b}
  {
  }

  /** `lowByte(w)`: `(uint8_t)(w & 0xff)`. On a two's complement int the
      mask keeps the Euclidean residue modulo 256. */
  function LowByte(w: int): uint8
  {
    w % 0x100
  }

  /** `highByte(w)`: `(uint8_t)(w >> 8)`, an arithmetic shift (floor
      division by 256) truncated to 8 bits. */
  function HighByte(w: int): uint8
  {
    (w / 0x100) % 0x100
  }

  /** A 16-bit word is its high byte times 256 plus its low byte, and
      bits above 15 never reach `highByte`. */
  lemma BytesRecombine(w: int)
    ensures 0 <= w < 0x1_0000 ==> HighByte(w) * 0x100 + LowByte(w) == w
    ensures HighByte(w) == HighByte(w % 0x1_0000)
    ensures LowByte(w) == LowByte(w % 0x1_0000)
  {
    var q, r := w / 0x1_0000, w % 0x1_0000;
    var hi, lo := r / 0x100, r % 0x100;
    assert r == hi * 0x100 + lo && 0 <= hi < 0x100;
    assert w == (q * 0x100 + hi) * 0x100 + lo;
    assert w / 0x100 == q * 0x100 + hi && w % 0x100 == lo;
    assert (w / 0x100) % 0x100 == hi;
  }

  /** A word composed from a high and a low byte gives them back. */
  lemma BytesOfWord(hi: uint8, lo: uint8)
    ensures LowByte(hi * 0x100 + lo) == lo && HighByte(hi * 0x100 + lo) == hi
  {
    var w := hi * 0x100 + lo;
    assert w / 0x100 == hi;
    assert w % 0x100 == lo;
  }

  /** `bitRead(value, bit)`: `(value >> bit) & 1` on a 32-bit word. Bit
      positions are 32-bit words too, below 32 (a larger shift is undefined
      in C). */
  function BitRead(value: bv32, b: bv32): (r: bv32)
    requires b < 32
    ensures r == 0 || r == 1
  {
    (value >> b) & 1
  }

  /** `bitSet(value, bit)`: `value |= 1UL << bit`; the macro assigns the
      result back into `value`, which callers write as `v := BitSet(v, b)`. */
  function BitSet(value: bv32, b: bv32): (r: bv32)
    requires b < 32
    ensures BitRead(r, b) == 1
  {
    value | (1 << b)
  }

  /** `bitClear(value, bit)`: `value &= ~(1UL << bit)`. */
  function BitClear(value: bv32, b: bv32): (r: bv32)
    requires b < 32
    ensures BitRead(r, b) == 0
  {
    value & !(1 << b)
  }

  /** `bitWrite(value, bit, bitvalue)`: set when `bitvalue` is nonzero,
      clear otherwise. */
  function BitWrite(value: bv32, b: bv32, bitvalue: int): (r: bv32)
    requires b < 32
    ensures BitRead(r, b) == (if bitvalue != 0 then 1 else 0)
  {
    if bitvalue != 0 then BitSet(value, b) else BitClear(value, b)
  }

  /** `bit(b)`: `1UL << b`. */
  function Bit(b: bv32): (r: bv32)
    requires b < 32
    ensures BitRead(r, b) == 1
  {
    1 << b
  }

  /** Setting or clearing one bit leaves every other bit as it was. */
  lemma OtherBitsUnchanged(value: bv32, b: bv32)
    requires b < 32
    ensures forall j: bv32 | j < 32 && j != b :: BitRead(BitSet(value, b), j) == BitRead(value, j)
    ensures forall j: bv32 | j < 32 && j != b :: BitRead(BitClear(value, b), j) == BitRead(value, j)
  {
  }

  /** `bit(b)` has exactly one bit set, and `bitWrite` is `bitSet` or
      `bitClear` according to `bitvalue`. */
  lemma BitAndBitWrite(value: bv32, b: bv32, bitvalue: int)
    requires b < 32
    ensures forall j: bv32 | j < 32 && j != b :: BitRead(Bit(b), j) == 0
    ensures BitWrite(value, b, bitvalue) == if bitvalue != 0 then BitSet(value, b) else BitClear(value, b)
    ensures BitSet(value, b) == value | Bit(b)
  {
  }
}
