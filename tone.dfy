/** `tone`, `noTone` and `toneVolume` of cores/arduino/Tone.cpp: tones are
    played only on H-bridge connectors; every other connector type is left
    alone. None of the three checks that the pin names a connector, so that
    is their precondition. */
module ToneOutput {
  import opened Common
  import opened ClearCore
  import opened Variant

  /** The driver calls `noTone` makes: a stop, unless the H-bridge is
      playing a timed tone, which is left to run out. */
  function NoToneCalls(c: Connector, pin: int): (calls: seq<DriverCall>)
    ensures |calls| <= 1
    ensures |calls| == 1 <==> c.kind == HBridge && c.tone != ToneTimed
    ensures forall k | 0 <= k < |calls| :: calls[k] == ToneStopCall(pin)
  {
    if c.kind != HBridge then []
    else if c.tone != ToneTimed then [ToneStopCall(pin)]
    else []
  }

  /** The connector after `tone`: OUTPUT_TONE is requested on an H-bridge. */
  function ToneConnector(c: Connector): (d: Connector)
  {
    if c.kind != HBridge then c else SetMode(c, OutputTone)
  }

  /** The driver calls `tone` makes. */
  function ToneCalls(c: Connector, pin: int, frequency: int, duration: int): (calls: seq<DriverCall>)
  {
    if c.kind != HBridge then [] else [ToneTimedCall(pin, frequency, duration)]
  }

  /** The driver calls `toneVolume` makes, given the amplitude already
      scaled from the volume. */
  function ToneVolumeCalls(c: Connector, pin: int, amplitude: int): (calls: seq<DriverCall>)
  {
    if c.kind != HBridge then [] else [ToneAmplitudeCall(pin, amplitude)]
  }

  /** All three are inert off an H-bridge; on one, `tone` asks for
      OUTPUT_TONE (which an H-bridge accepting it then reports) and starts
      one timed tone with exactly the caller's frequency and duration, and
      `toneVolume` sets one amplitude. */
  lemma ToneGating(c: Connector, pin: int, frequency: int, duration: int, amplitude: int)
    requires ModeConsistent(c)
    ensures c.kind != HBridge ==>
      ToneConnector(c) == c && ToneCalls(c, pin, frequency, duration) == [] &&
      NoToneCalls(c, pin) == [] && ToneVolumeCalls(c, pin, amplitude) == []
    ensures c.kind == HBridge ==>
      && ToneCalls(c, pin, frequency, duration) == [ToneTimedCall(pin, frequency, duration)]
      && ToneVolumeCalls(c, pin, amplitude) == [ToneAmplitudeCall(pin, amplitude)]
      && (ToneConnector(c).mode == OutputTone <==> OutputTone in c.accepts)
    ensures ModeConsistent(ToneConnector(c)) && SameFixed(c, ToneConnector(c))
    ensures ToneConnector(c) == c.(mode := ToneConnector(c).mode)
  {
    ReadbackMatchesIff(c, OutputTone);
  }

  /** `noTone(outputPin)`. */
  method NoTone(b: Board, outputPin: uint8)
    requires b.Valid() && outputPin in b.cons
    modifies b
    ensures b.Valid() && b.cons == old(b.cons) && b.adcResolution == old(b.adcResolution)
    ensures b.driverLog == old(b.driverLog) + NoToneCalls(b.cons[outputPin], outputPin)
  {
    var myConnector := b.cons[outputPin];
    if myConnector.kind != HBridge {
      return;
    }
    if myConnector.tone != ToneTimed {
      b.driverLog := b.driverLog + [ToneStopCall(outputPin)];
    }
  }

  /** `tone(outputPin, frequency, duration)`, with the default duration 0. */
  method Tone(b: Board, outputPin: uint8, frequency: uint32, duration: uint32 := TONE_DEFAULT_DURATION)
    requires b.Valid() && outputPin in b.cons
    modifies b
    ensures b.Valid() && SameDirectory(old(b.cons), b.cons) && b.adcResolution == old(b.adcResolution)
    ensures b.cons == old(b.cons)[outputPin := ToneConnector(old(b.cons)[outputPin])]
    ensures b.driverLog == old(b.driverLog) + ToneCalls(old(b.cons)[outputPin], outputPin, frequency, duration)
  {
    var myConnector := b.cons[outputPin];
    if myConnector.kind != HBridge {
      return;
    }
    b.cons := b.cons[outputPin := SetMode(myConnector, OutputTone)];
    b.driverLog := b.driverLog + [ToneTimedCall(outputPin, frequency, duration)];
  }

  /** `toneVolume(outputPin, volume)`, with `amplitude` standing for
      `(int16_t)(volume * INT16_MAX)`. */
  method ToneVolume(b: Board, outputPin: uint8, amplitude: int)
    requires b.Valid() && outputPin in b.cons
    modifies b
    ensures b.Valid() && b.cons == old(b.cons) && b.adcResolution == old(b.adcResolution)
    ensures b.driverLog == old(b.driverLog) + ToneVolumeCalls(b.cons[outputPin], outputPin, amplitude)
  {
    var myConnector := b.cons[outputPin];
    if myConnector.kind != HBridge {
      return;
    }
    b.driverLog := b.driverLog + [ToneAmplitudeCall(outputPin, amplitude)];
  }
}
