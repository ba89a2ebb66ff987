/** The ClearCore pin layer of variants/clearcore/variant.cpp: Arduino pins
    are indices into the board's connector directory, eight extra pins reach
    the A/B input bits of the four motor connectors, and every operation
    asks a connector for a mode and trusts only what it reads back. */
module Variant {
  import opened Common
  import opened ClearCore
  import opened AnalogConversion
  import opened PulseTiming

  /** The pin numbers of `pins_arduino.h`, which is not part of this model:
      `CLEARCORE_PIN_MAX`, the motor connectors `M0..M3` and their input
      pins `M0_INA..M3_INA` and `M0_INB..M3_INB`. */
  datatype PinLayout = PinLayout(pinMax: int, motors: seq<int>, inA: seq<int>, inB: seq<int>)

  /** Four motors, and eight distinct input pins (they are the case labels
      of one `switch`). */
  predicate WellFormed(l: PinLayout)
  {
    && |l.motors| == 4 && |l.inA| == 4 && |l.inB| == 4
    && (forall m, n | 0 <= m < 4 && 0 <= n < 4 :: l.inA[m] != l.inB[n])
    && (forall m, n | 0 <= m < n < 4 :: l.inA[m] != l.inA[n] && l.inB[m] != l.inB[n])
  }

  /** The numbering the A/B test is written for: the four `*_INA` pins come
      first, then the four `*_INB` pins, all above `CLEARCORE_PIN_MAX`. */
  predicate Grouped(l: PinLayout)
    requires |l.motors| == 4 && |l.inA| == 4 && |l.inB| == 4
  {
    && l.pinMax < l.inA[0] < l.inA[1] < l.inA[2] < l.inA[3]
    && l.inA[3] < l.inB[0] < l.inB[1] < l.inB[2] < l.inB[3]
  }

  /** The test that sends a pin to a motor input instead of a connector. */
  predicate IsMotorPin(l: PinLayout, pin: int)
    requires WellFormed(l)
  {
    l.pinMax < pin <= l.inB[3]
  }

  /** The `switch` from an input pin to its motor connector; -1 for a pin
      in the motor range that is none of the eight. */
  function MotorConnector(l: PinLayout, pin: int): (m: int)
    requires WellFormed(l)
    ensures forall n | 0 <= n < 4 :: pin == l.inA[n] || pin == l.inB[n] ==> m == l.motors[n]
    ensures pin !in l.inA && pin !in l.inB ==> m == -1
  {
    if pin == l.inA[0] || pin == l.inB[0] then l.motors[0]
    else if pin == l.inA[1] || pin == l.inB[1] then l.motors[1]
    else if pin == l.inA[2] || pin == l.inB[2] then l.motors[2]
    else if pin == l.inA[3] || pin == l.inB[3] then l.motors[3]
    else -1
  }

  /** `conNum > CLEARCORE_PIN_MAX && conNum < M0_INB`: the A bit is used
      for the pins numbered below `M0_INB`, the B bit for the others. */
  predicate UsesBitA(l: PinLayout, pin: int)
    requires WellFormed(l)
  {
    l.pinMax < pin < l.inB[0]
  }

  /** With the grouped numbering, `Mn_INA` reaches the A bit of motor n and
      `Mn_INB` its B bit. */
  lemma GroupedLayoutRouting(l: PinLayout, n: int)
    requires WellFormed(l) && Grouped(l) && 0 <= n < 4
    ensures IsMotorPin(l, l.inA[n]) && MotorConnector(l, l.inA[n]) == l.motors[n] && UsesBitA(l, l.inA[n])
    ensures IsMotorPin(l, l.inB[n]) && MotorConnector(l, l.inB[n]) == l.motors[n] && !UsesBitA(l, l.inB[n])
  {
  }

  /** The A/B test is an ordering test, not a lookup: when `M1_INA` is
      numbered after `M0_INB` it reaches motor 1's B bit. */
  lemma InterleavedLayoutReadsBitB()
    ensures var l := PinLayout(70, [0, 1, 2, 3], [71, 73, 75, 77], [72, 74, 76, 78]);
      && WellFormed(l) && !Grouped(l)
      && MotorConnector(l, l.inA[1]) == 1 && !UsesBitA(l, l.inA[1])
  {
  }

  /** A motor input read: the bit inverted, LOW when it is set. */
  function MotorRead(c: Connector, bitA: bool): (level: int)
    ensures level == LOW <==> (if bitA then c.inA else c.inB)
    ensures level == LOW || level == HIGH
  {
    if (if bitA then c.inA else c.inB) then LOW else HIGH
  }

  /** A motor input write: the bit becomes `val != 0`, not inverted. */
  function MotorWrite(c: Connector, bitA: bool, val: int): (d: Connector)
    ensures bitA ==> d == c.(inA := val != 0)
    ensures !bitA ==> d == c.(inB := val != 0)
  {
    if bitA then c.(inA := val != 0) else c.(inB := val != 0)
  }

  /** Writing HIGH to a motor input pin and reading it back gives LOW, and
      the other bit is untouched. */
  lemma MotorWriteThenRead(c: Connector, bitA: bool, val: int)
    ensures MotorRead(MotorWrite(c, bitA, val), bitA) == (if val != 0 then LOW else HIGH)
    ensures MotorRead(MotorWrite(c, bitA, val), !bitA) == MotorRead(c, !bitA)
    ensures SameFixed(c, MotorWrite(c, bitA, val)) && MotorWrite(c, bitA, val).mode == c.mode
  {
  }

  /** The connector after an ordinary digital read: an input connector is
      asked for INPUT_DIGITAL (without checking the answer), a writable one
      is left as it is. */
  function DigitalReadPrepare(c: Connector): (d: Connector)
    ensures IsWritable(c) ==> d == c
    ensures !IsWritable(c) ==> d == SetMode(c, InputDigital)
    ensures d == c || d == c.(mode := InputDigital)
    ensures d.state == c.state
  {
    if !IsWritable(c) then SetMode(c, InputDigital) else c
  }

  /** The connector after an ordinary digital write. */
  function DigitalWriteConnector(c: Connector, val: int): (d: Connector)
  {
    if !IsWritable(c) then c
    else
      var e := SetMode(c, OutputDigital);
      if e.mode == OutputDigital then e.(state := val) else e
  }

  /** An ordinary digital write changes a consistent connector only when
      it is writable; its state changes only when OUTPUT_DIGITAL is
      accepted; and a digital read after an accepted write returns the
      written value. */
  lemma DigitalWriteEffect(c: Connector, val: int)
    requires ModeConsistent(c)
    ensures var d := DigitalWriteConnector(c, val);
      && (!IsWritable(c) ==> d == c)
      && (IsWritable(c) && OutputDigital !in c.accepts ==> d == c)
      && (IsWritable(c) && OutputDigital in c.accepts ==>
            d == c.(mode := OutputDigital, state := val) && DigitalReadPrepare(d).state == val)
      && ModeConsistent(d) && SameFixed(c, d)
  {
  }

  /** `pinModeClearCore`'s switch: OUTPUT asks for OUTPUT_DIGITAL, INPUT
      and INPUT_PULLUP both ask for INPUT_DIGITAL, any other value asks for
      nothing. */
  function PinModeConnector(c: Connector, mode: int): (d: Connector)
  {
    if mode == OUTPUT then SetMode(c, OutputDigital)
    else if mode == INPUT || mode == INPUT_PULLUP then SetMode(c, InputDigital)
    else c
  }

  lemma PinModeEffect(c: Connector, mode: int)
    requires ModeConsistent(c)
    ensures PinModeConnector(c, INPUT_PULLUP) == PinModeConnector(c, INPUT)
    ensures mode !in {INPUT, OUTPUT, INPUT_PULLUP} ==> PinModeConnector(c, mode) == c
    ensures PinModeConnector(c, OUTPUT).mode == OutputDigital <==> OutputDigital in c.accepts
    ensures PinModeConnector(c, INPUT).mode == InputDigital <==> InputDigital in c.accepts
    ensures PinModeConnector(c, mode) == c.(mode := PinModeConnector(c, mode).mode)
    ensures ModeConsistent(PinModeConnector(c, mode))
  {
    ReadbackMatchesIff(c, OutputDigital);
    ReadbackMatchesIff(c, InputDigital);
  }

  /** The connector after `analogReadAPI` and the value it returns. */
  function AnalogReadOutcome(c: Connector, units: AnalogInputUnits, resolution: int): (r: (Connector, int))
    ensures r.0 == SetMode(c, InputAnalog)
  {
    var d := SetMode(c, InputAnalog);
    if d.mode != InputAnalog then (d, 0)
    else if units == Millivolts then (d, ToMillivolts(d.state, AdcMax(resolution)))
    else (d, d.state)
  }

  /** A refused INPUT_ANALOG reads 0; raw units return the state itself;
      millivolts take 0 to 0 and full scale to 9900 at every resolution,
      and stay within 0..9900 for in-range codes. */
  lemma AnalogReadEffect(c: Connector, units: AnalogInputUnits, resolution: int)
    requires ModeConsistent(c)
    ensures InputAnalog !in c.accepts ==> AnalogReadOutcome(c, units, resolution) == (c, 0)
    ensures InputAnalog in c.accepts && units == AdcRaw ==> AnalogReadOutcome(c, units, resolution).1 == c.state
    ensures InputAnalog in c.accepts && units == Millivolts && c.state == 0 ==>
      AnalogReadOutcome(c, units, resolution).1 == 0
    ensures InputAnalog in c.accepts && units == Millivolts && c.state == AdcMax(resolution) ==>
      AnalogReadOutcome(c, units, resolution).1 == 9900
    ensures InputAnalog in c.accepts && units == Millivolts && 0 <= c.state <= AdcMax(resolution) ==>
      0 <= AnalogReadOutcome(c, units, resolution).1 <= 9900
  {
    MillivoltEndpoints(resolution, c.state, c.state);
  }

  /** The connector types that take a PWM output. */
  predicate PwmCapable(kind: ConnectorType)
  {
    kind == AnalogOutDigitalInOut || kind == DigitalInOut || kind == HBridge
  }

  /** The connector after `analogWriteAPI`. */
  function AnalogWriteConnector(c: Connector, value: int, mode: AnalogOutMode, units: AnalogOutputUnits): (d: Connector)
  {
    if !IsWritable(c) then c
    else if mode == Pwm && units == Microamps then c
    else
      var v := if units == Microamps then MicroampsToDac(value) else value;
      match mode
      case Pwm => if PwmCapable(c.kind) then SetMode(c, OutputPwm).(state := v) else c
      case Current => if c.kind == AnalogOutDigitalInOut then SetMode(c, OutputAnalog).(state := v) else c
  }

  /** `analogWriteAPI` only touches a writable connector of the right type,
      and on one it requests OUTPUT_PWM or OUTPUT_ANALOG and stores the
      value; PWM stores it whether or not OUTPUT_PWM was accepted (there is
      no readback); a current in microamps is stored as its 12-bit DAC
      code; and any current above 20 mA has the effect of 20 mA. */
  lemma AnalogWriteEffect(c: Connector, value: int, mode: AnalogOutMode, units: AnalogOutputUnits)
    requires ModeConsistent(c)
    ensures var d := AnalogWriteConnector(c, value, mode, units);
      && ModeConsistent(d) && SameFixed(c, d)
      && (d != c ==> IsWritable(c) && !(mode == Pwm && units == Microamps))
      && (mode == Pwm && d != c ==> PwmCapable(c.kind) && units == DacRaw && d.state == value)
      && (mode == Pwm && IsWritable(c) && PwmCapable(c.kind) && units == DacRaw ==> d.state == value)
      && (mode == Current && d != c ==> c.kind == AnalogOutDigitalInOut)
      && (mode == Current && units == Microamps && d != c ==> 0 <= d.state <= 4095)
    ensures mode == Current && IsWritable(c) && c.kind == AnalogOutDigitalInOut ==>
      AnalogWriteConnector(c, value, mode, units)
        == SetMode(c, OutputAnalog).(state := if units == Microamps then MicroampsToDac(value) else value)
    ensures mode == Pwm && units == DacRaw && IsWritable(c) && PwmCapable(c.kind) ==>
      AnalogWriteConnector(c, value, mode, units) == SetMode(c, OutputPwm).(state := value)
    ensures value >= 20000 ==>
      AnalogWriteConnector(c, value, Current, Microamps) == AnalogWriteConnector(c, 20000, Current, Microamps)
  {
  }

  /** The connector that will measure a pulse, if any: the level must be
      LOW or HIGH, the connector present and not writable, and
      INPUT_DIGITAL must read back. */
  function PulseInConnector(cons: map<int, Connector>, pin: int, state: int): (r: Option<Connector>)
    ensures r.Some? ==> pin in cons && !IsWritable(cons[pin]) && r.value == SetMode(cons[pin], InputDigital)
  {
    if state != HIGH && state != LOW then None
    else if pin !in cons || IsWritable(cons[pin]) then None
    else if SetMode(cons[pin], InputDigital).mode != InputDigital then None
    else Some(SetMode(cons[pin], InputDigital))
  }

  /** What `pulseInLong` returns. */
  function PulseInLongResult(cons: map<int, Connector>, pin: int, state: int, timeout: uint32, tr: Trace): (width: uint32)
    requires Covers(tr, timeout)
  {
    if PulseInConnector(cons, pin, state).Some? then PulseWidth(state, timeout, tr) else 0
  }

  /** `pulseInLong` returns 0 for a level other than LOW/HIGH, for a missing
      or writable connector, and for one that refuses INPUT_DIGITAL; with a
      monotone clock a nonzero width is a complete pulse observed after a
      stretch at the other level, ended before `timeout`, and below it; and
      once the checks pass, such a pulse is reported with its duration. */
  lemma PulseInLongEffect(cons: map<int, Connector>, pin: int, state: int, timeout: uint32, tr: Trace)
    returns (i: nat, b: nat, e: nat)
    requires Covers(tr, timeout) && MonotoneClock(tr.times)
    requires pin in cons ==> ModeConsistent(cons[pin])
    ensures var w := PulseInLongResult(cons, pin, state, timeout, tr);
      && (w != 0 ==> state in {LOW, HIGH} && pin in cons && !IsWritable(cons[pin]) && InputDigital in cons[pin].accepts)
      && (w != 0 ==> ObservedPulse(state, tr, i, b, e) && w == tr.times[e] - tr.times[b] && w < timeout)
    ensures var w := PulseInLongResult(cons, pin, state, timeout, tr);
      state in {LOW, HIGH} && pin in cons && !IsWritable(cons[pin]) && InputDigital in cons[pin].accepts ==>
        forall p: nat, q: nat, r: nat | ObservedPulse(state, tr, p, q, r) && tr.times[r] - tr.times[0] < timeout ::
          w == tr.times[r] - tr.times[q]
  {
    if pin in cons {
      ReadbackMatchesIff(cons[pin], InputDigital);
    }
    i, b, e := PulseWidthIsObservedPulse(state, timeout, tr);
    forall p: nat, q: nat, r: nat | ObservedPulse(state, tr, p, q, r) && tr.times[r] - tr.times[0] < timeout
      ensures PulseWidth(state, timeout, tr) == tr.times[r] - tr.times[q]
    {
      PulseWidthFindsObservedPulse(state, timeout, tr, p, q, r);
    }
  }

  /** The connector types that can run a pulse train. */
  predicate PulseCapable(kind: ConnectorType)
  {
    kind == AnalogOutDigitalInOut || kind == HBridge || kind == DigitalInOut || kind == CcioDigitalInOut
  }

  /** `OutputPulsesSetup`: the connector if it exists, has been given a
      mode, and is of a type that can run a pulse train. */
  function OutputPulsesSetup(cons: map<int, Connector>, pin: int): (r: Option<Connector>)
    ensures r.Some? <==> pin in cons && cons[pin].mode != InvalidNone && PulseCapable(cons[pin].kind)
    ensures r.Some? ==> r.value == cons[pin]
  {
    if pin !in cons then None
    else if cons[pin].mode == InvalidNone then None
    else if PulseCapable(cons[pin].kind) then Some(cons[pin])
    else None
  }

  /** The driver calls an `OutputPulsesStart` makes. */
  function PulsesStartCalls(cons: map<int, Connector>, pin: int, onTime: int, offTime: int, count: int, block: bool): seq<DriverCall>
  {
    match OutputPulsesSetup(cons, pin)
    case None => []
    case Some(c) =>
      if c.mode == InvalidNone then []
      else [PulsesStart(pin, onTime, offTime, count, block, c.kind == CcioDigitalInOut)]
  }

  /** The driver calls an `OutputPulsesStop` makes. */
  function PulsesStopCalls(cons: map<int, Connector>, pin: int, immediate: bool): seq<DriverCall>
  {
    match OutputPulsesSetup(cons, pin)
    case None => []
    case Some(c) =>
      if c.mode == InvalidNone then []
      else [PulsesStop(pin, immediate, c.kind == CcioDigitalInOut)]
  }

  /** Start and stop are gated alike: each makes one call exactly when the
      connector exists, has a mode and can pulse, and both go to the CCIO-8
      routine exactly for CCIO pins. */
  lemma PulsesGating(cons: map<int, Connector>, pin: int, onTime: int, offTime: int, count: int, block: bool, immediate: bool)
    ensures |PulsesStartCalls(cons, pin, onTime, offTime, count, block)| == |PulsesStopCalls(cons, pin, immediate)|
    ensures |PulsesStartCalls(cons, pin, onTime, offTime, count, block)| == 1 <==>
      pin in cons && cons[pin].mode != InvalidNone && PulseCapable(cons[pin].kind)
    ensures |PulsesStartCalls(cons, pin, onTime, offTime, count, block)| <= 1
    ensures forall k | 0 <= k < |PulsesStartCalls(cons, pin, onTime, offTime, count, block)| ::
      PulsesStartCalls(cons, pin, onTime, offTime, count, block)[k].ccio == PulsesStopCalls(cons, pin, immediate)[k].ccio
        == (cons[pin].kind == CcioDigitalInOut)
  {
  }

  /** The board: its connector directory, the ADC resolution held by the
      ADC manager, and the calls made into pulse and tone drivers. */
  class Board {
    const layout: PinLayout
    var cons: map<int, Connector>
    var adcResolution: int
    var driverLog: seq<DriverCall>

    ghost predicate Valid()
      reads this
    {
      WellFormed(layout) && forall p | p in cons :: ModeConsistent(cons[p])
    }

    constructor (layout: PinLayout, cons: map<int, Connector>, adcResolution: int)
      requires WellFormed(layout) && forall p | p in cons :: ModeConsistent(cons[p])
      ensures Valid()
      ensures this.layout == layout && this.cons == cons && this.adcResolution == adcResolution
      ensures driverLog == []
    {
      this.layout := layout;
      this.cons := cons;
      this.adcResolution := adcResolution;
      driverLog := [];
    }

    /** `analogReadResolution(res)`. */
    method AnalogReadResolution(res: int)
      requires Valid()
      modifies this
      ensures Valid() && cons == old(cons) && driverLog == old(driverLog)
      ensures adcResolution == res
    {
      adcResolution := res;
    }

    /** `digitalReadClearCore`. A motor input pin reads the inverted bit of
        its motor, whose connector the code dereferences unchecked. */
    method DigitalRead(pin: uint8) returns (level: int)
      requires Valid()
      requires IsMotorPin(layout, pin) ==> MotorConnector(layout, pin) in cons
      modifies this
      ensures Valid() && SameDirectory(old(cons), cons)
      ensures adcResolution == old(adcResolution) && driverLog == old(driverLog)
      ensures IsMotorPin(layout, pin) ==>
        cons == old(cons) && level == MotorRead(cons[MotorConnector(layout, pin)], UsesBitA(layout, pin))
      ensures !IsMotorPin(layout, pin) && pin !in old(cons) ==> cons == old(cons) && level == LOW
      ensures !IsMotorPin(layout, pin) && pin in old(cons) ==>
        cons == old(cons)[pin := DigitalReadPrepare(old(cons)[pin])] && level == old(cons)[pin].state
    {
      if IsMotorPin(layout, pin) {
        var motor := cons[MotorConnector(layout, pin)];
        if UsesBitA(layout, pin) {
          level := if motor.inA then LOW else HIGH;
        } else {
          level := if motor.inB then LOW else HIGH;
        }
        return;
      }
      if pin !in cons {
        return LOW;
      }
      if !IsWritable(cons[pin]) {
        cons := cons[pin := SetMode(cons[pin], InputDigital)];
      }
      level := cons[pin].state;
    }

    /** `digitalWriteClearCore`. A motor input pin stores `val != 0` in its
        motor's bit, and the code dereferences that motor's connector
        unchecked, so it must exist; an ordinary connector takes the value only if it is
        writable and OUTPUT_DIGITAL reads back. */
    method DigitalWrite(pin: uint8, val: int)
      requires Valid()
      requires IsMotorPin(layout, pin) ==> MotorConnector(layout, pin) in cons
      modifies this
      ensures Valid() && SameDirectory(old(cons), cons)
      ensures adcResolution == old(adcResolution) && driverLog == old(driverLog)
      ensures IsMotorPin(layout, pin) ==>
        var m := MotorConnector(layout, pin);
        cons == old(cons)[m := MotorWrite(old(cons)[m], UsesBitA(layout, pin), val)]
      ensures !IsMotorPin(layout, pin) && pin !in old(cons) ==> cons == old(cons)
      ensures !IsMotorPin(layout, pin) && pin in old(cons) ==>
        cons == old(cons)[pin := DigitalWriteConnector(old(cons)[pin], val)]
    {
      if IsMotorPin(layout, pin) {
        var m := MotorConnector(layout, pin);
        var motor := cons[m];
        if UsesBitA(layout, pin) {
          motor := motor.(inA := val != 0);
        } else {
          motor := motor.(inB := val != 0);
        }
        cons := cons[m := motor];
      } else {
        if pin !in cons || !IsWritable(cons[pin]) {
          return;
        }
        cons := cons[pin := SetMode(cons[pin], OutputDigital)];
        if cons[pin].mode == OutputDigital {
          cons := cons[pin := cons[pin].(state := val)];
        }
      }
    }

    /** `pinModeClearCore`, and `pinMode`, which casts its arguments and
        forwards to it. */
    method PinMode(pin: int, mode: int)
      requires Valid()
      modifies this
      ensures Valid() && SameDirectory(old(cons), cons)
      ensures adcResolution == old(adcResolution) && driverLog == old(driverLog)
      ensures pin !in old(cons) ==> cons == old(cons)
      ensures pin in old(cons) ==> cons == old(cons)[pin := PinModeConnector(old(cons)[pin], mode)]
    {
      if pin !in cons {
        return;
      }
      if mode == OUTPUT {
        cons := cons[pin := SetMode(cons[pin], OutputDigital)];
      } else if mode == INPUT {
        cons := cons[pin := SetMode(cons[pin], InputDigital)];
      } else if mode == INPUT_PULLUP {
        cons := cons[pin := SetMode(cons[pin], InputDigital)];
      }
    }

    /** `analogReadAPI`. */
    method AnalogRead(pin: uint8, units: AnalogInputUnits) returns (value: int)
      requires Valid()
      modifies this
      ensures Valid() && SameDirectory(old(cons), cons)
      ensures adcResolution == old(adcResolution) && driverLog == old(driverLog)
      ensures pin !in old(cons) ==> cons == old(cons) && value == 0
      ensures pin in old(cons) ==>
        var r := AnalogReadOutcome(old(cons)[pin], units, adcResolution);
        cons == old(cons)[pin := r.0] && value == r.1
    {
      if pin !in cons {
        return 0;
      }
      cons := cons[pin := SetMode(cons[pin], InputAnalog)];
      if cons[pin].mode != InputAnalog {
        return 0;
      }
      var adcRawValue := cons[pin].state;
      if units == Millivolts {
        var valueMax := AdcMax(adcResolution);
        value := ToMillivolts(adcRawValue, valueMax);
      } else {
        value := adcRawValue;
      }
    }

    /** `analogWriteAPI`, with the default mode PWM and units DAC_RAW. */
    method AnalogWrite(pin: uint8, value: int, mode: AnalogOutMode := ANALOG_WRITE_DEFAULT_MODE,
                       units: AnalogOutputUnits := ANALOG_WRITE_DEFAULT_UNITS)
      requires Valid()
      modifies this
      ensures Valid() && SameDirectory(old(cons), cons)
      ensures adcResolution == old(adcResolution) && driverLog == old(driverLog)
      ensures pin !in old(cons) ==> cons == old(cons)
      ensures pin in old(cons) ==> cons == old(cons)[pin := AnalogWriteConnector(old(cons)[pin], value, mode, units)]
    {
      if pin !in cons || !IsWritable(cons[pin]) {
        return;
      }
      if mode == Pwm && units == Microamps {
        return;
      }
      var v := value;
      if units == Microamps {
        v := Constrain(v, 0, 20000);
        v := DacCode(v);
      }
      match mode
      case Pwm =>
        if PwmCapable(cons[pin].kind) {
          cons := cons[pin := SetMode(cons[pin], OutputPwm)];
          cons := cons[pin := cons[pin].(state := v)];
        }
      case Current =>
        if cons[pin].kind == AnalogOutDigitalInOut {
          cons := cons[pin := SetMode(cons[pin], OutputAnalog)];
          cons := cons[pin := cons[pin].(state := v)];
        }
    }

    /** `pulseInLong(pin, state, timeout)`; the connector's samples and the
        clock readings come from `tr`. */
    method PulseInLong(pin: uint8, state: uint8, tr: Trace, timeout: uint32 := PULSE_IN_DEFAULT_TIMEOUT)
      returns (width: uint32)
      requires Valid() && Covers(tr, timeout)
      modifies this
      ensures Valid() && SameDirectory(old(cons), cons)
      ensures adcResolution == old(adcResolution) && driverLog == old(driverLog)
      ensures width == PulseInLongResult(old(cons), pin, state, timeout, tr)
      ensures (state == LOW || state == HIGH) && pin in old(cons) && !IsWritable(old(cons)[pin]) ==>
        cons == old(cons)[pin := SetMode(old(cons)[pin], InputDigital)]
      ensures !((state == LOW || state == HIGH) && pin in old(cons) && !IsWritable(old(cons)[pin])) ==>
        cons == old(cons)
    {
      var desiredState := state;
      if !(desiredState == HIGH || desiredState == LOW) {
        return 0;
      }
      if pin !in cons || IsWritable(cons[pin]) {
        return 0;
      }
      cons := cons[pin := SetMode(cons[pin], InputDigital)];
      if cons[pin].mode != InputDigital {
        return 0;
      }
      width := MeasurePulse(desiredState, timeout, tr);
    }

    /** `pulseIn`, which forwards to `pulseInLong`. */
    method PulseIn(pin: uint8, state: uint8, tr: Trace, timeout: uint32 := PULSE_IN_DEFAULT_TIMEOUT)
      returns (width: uint32)
      requires Valid() && Covers(tr, timeout)
      modifies this
      ensures Valid() && SameDirectory(old(cons), cons)
      ensures adcResolution == old(adcResolution) && driverLog == old(driverLog)
      ensures width == PulseInLongResult(old(cons), pin, state, timeout, tr)
    {
      width := PulseInLong(pin, state, tr, timeout);
    }

    /** `OutputPulsesStart`, with the default count 0 and no blocking. */
    method OutputPulsesStart(pin: uint8, onTime: uint32, offTime: uint32,
                             pulseCnt: uint16 := OUTPUT_PULSES_DEFAULT_COUNT,
                             blockUntilDone: bool := OUTPUT_PULSES_DEFAULT_BLOCK)
      requires Valid()
      modifies this
      ensures Valid() && cons == old(cons) && adcResolution == old(adcResolution)
      ensures driverLog == old(driverLog) + PulsesStartCalls(cons, pin, onTime, offTime, pulseCnt, blockUntilDone)
    {
      var connector := OutputPulsesSetup(cons, pin);
      if connector.None? {
        return;
      }
      if connector.value.mode == InvalidNone {
        return;
      }
      var ccio := connector.value.kind == CcioDigitalInOut;
      driverLog := driverLog + [PulsesStart(pin, onTime, offTime, pulseCnt, blockUntilDone, ccio)];
    }

    /** `OutputPulsesStop(pin, stopImmediately)`; the one-argument overload
        is this with `stopImmediately` true. */
    method OutputPulsesStop(pin: uint8, stopImmediately: bool := true)
      requires Valid()
      modifies this
      ensures Valid() && cons == old(cons) && adcResolution == old(adcResolution)
      ensures driverLog == old(driverLog) + PulsesStopCalls(cons, pin, stopImmediately)
    {
      var connector := OutputPulsesSetup(cons, pin);
      if connector.None? {
        return;
      }
      if connector.value.mode == InvalidNone {
        return;
      }
      var ccio := connector.value.kind == CcioDigitalInOut;
      driverLog := driverLog + [PulsesStop(pin, stopImmediately, ccio)];
    }
  }
}
