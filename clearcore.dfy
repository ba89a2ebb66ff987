/** The part of the ClearCore driver library the Arduino wrapper relies on,
    as an abstract connector record. The library itself is not part of this
    model: its `Connector::Mode(m)` setter either takes effect or is
    silently refused, according to a per-connector set of supported modes,
    and `IsWritable()` depends only on the current mode. Calls that start
    or stop activity inside the driver (pulse trains, tones) are recorded in
    a log of `DriverCall`s. */
module ClearCore {

  /** `Connector::ConnectorTypes` as far as the wrapper distinguishes them. */
  datatype ConnectorType =
    | DigitalIn
    | DigitalInOut
    | AnalogInDigitalIn
    | AnalogOutDigitalInOut
    | HBridge
    | CcioDigitalInOut
    | Motor
    | SerialPort
    | OtherType

  /** `Connector::ConnectorModes` used by the wrapper. */
  datatype ConnectorMode =
    | InvalidNone
    | InputDigital
    | OutputDigital
    | InputAnalog
    | OutputAnalog
    | OutputPwm
    | OutputTone

  /** `DigitalInOutHBridge::ToneState`. */
  datatype ToneState = ToneOff | ToneContinuous | ToneTimed | TonePeriodic

  /** One connector: its type and the modes it accepts never change; the
      mode, the state word, the two motor input bits and the tone state are
      what the wrapper reads and writes. */
  datatype Connector = Connector(
    kind: ConnectorType,
    accepts: set<ConnectorMode>,
    writableModes: set<ConnectorMode>,
    mode: ConnectorMode,
    state: int,
    inA: bool,
    inB: bool,
    tone: ToneState)

  /** `Connector::IsWritable()`. */
  predicate IsWritable(c: Connector)
  {
    c.mode in c.writableModes
  }

  /** `Connector::Mode(m)`: takes effect only when the connector supports
      `m`; otherwise the request is refused and nothing changes. */
  function SetMode(c: Connector, m: ConnectorMode): (r: Connector)
    ensures m in c.accepts ==> r.mode == m
    ensures m !in c.accepts ==> r == c
    ensures r == c.(mode := r.mode)
  {
    if m in c.accepts then c.(mode := m) else c
  }

  /** A connector is in its power-on mode or in a mode it accepts. */
  predicate ModeConsistent(c: Connector)
  {
    c.mode == InvalidNone || c.mode in c.accepts
  }

  /** Requesting a mode keeps a consistent connector consistent, and reading
      the mode back tells the caller exactly whether the request was
      accepted: this is why the wrapper trusts the readback and nothing
      else. */
  lemma ReadbackMatchesIff(c: Connector, m: ConnectorMode)
    requires ModeConsistent(c) && m != InvalidNone
    ensures ModeConsistent(SetMode(c, m))
    ensures SetMode(c, m).mode == m <==> m in c.accepts
  {
  }

  /** A second identical request changes nothing more. */
  lemma SetModeIdempotent(c: Connector, m: ConnectorMode)
    ensures SetMode(SetMode(c, m), m) == SetMode(c, m)
  {
  }

  /** The parts of a connector that the wrapper never changes. */
  predicate SameFixed(c: Connector, d: Connector)
  {
    c.kind == d.kind && c.accepts == d.accepts && c.writableModes == d.writableModes
  }

  /** The same connectors, at the same indices, with the same fixed parts. */
  ghost predicate SameDirectory(m: map<int, Connector>, n: map<int, Connector>)
  {
    m.Keys == n.Keys && forall p | p in m :: SameFixed(m[p], n[p])
  }

  /** Calls into driver code that is not part of this model. */
  datatype DriverCall =
    | PulsesStart(pin: int, onTime: int, offTime: int, count: int, block: bool, ccio: bool)
    | PulsesStop(pin: int, immediate: bool, ccio: bool)
    | ToneTimedCall(pin: int, frequency: int, duration: int)
    | ToneStopCall(pin: int)
    | ToneAmplitudeCall(pin: int, amplitude: int)
}
