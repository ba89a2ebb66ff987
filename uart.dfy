/** `Uart` of cores/arduino/Uart.cpp: an Arduino serial object over a
    ClearCore serial port (a COM connector or the USB port). The config-word
    constants of `HardwareSerial.h` are not part of this model and are
    parameters here; the port is foreign, so the calls made on it are
    recorded and its answers are fields. */
module UartPort {
  import opened Common

  /** The `SERIAL_*` constants `begin(baud, config)` decodes. */
  datatype ConfigCodes = ConfigCodes(
    stopMask: bv16, stop1: bv16, stop2: bv16,
    dataMask: bv16, data5: bv16, data6: bv16, data7: bv16, data8: bv16,
    parityMask: bv16, parityNone: bv16, parityEven: bv16, parityOdd: bv16)

  /** The case labels of each `switch` are distinct (C++ requires it), every
      code lies inside its field's mask, and the three fields do not
      overlap. */
  predicate ValidCodes(k: ConfigCodes)
  {
    DistinctLabels(k) && StopCodesInMask(k) && DataCodesInMask(k) && ParityCodesInMask(k) && MasksDisjoint(k)
  }

  predicate StopCodesInMask(k: ConfigCodes)
  {
    k.stop1 & k.stopMask == k.stop1 && k.stop2 & k.stopMask == k.stop2
  }

  predicate DataCodesInMask(k: ConfigCodes)
  {
    && k.data5 & k.dataMask == k.data5 && k.data6 & k.dataMask == k.data6
    && k.data7 & k.dataMask == k.data7 && k.data8 & k.dataMask == k.data8
  }

  predicate ParityCodesInMask(k: ConfigCodes)
  {
    && k.parityNone & k.parityMask == k.parityNone && k.parityEven & k.parityMask == k.parityEven
    && k.parityOdd & k.parityMask == k.parityOdd
  }

  predicate MasksDisjoint(k: ConfigCodes)
  {
    k.stopMask & k.dataMask == 0 && k.stopMask & k.parityMask == 0 && k.dataMask & k.parityMask == 0
  }

  /** The case labels of each `switch` are distinct. */
  predicate DistinctLabels(k: ConfigCodes)
  {
    && k.stop1 != k.stop2
    && k.data5 != k.data6 && k.data5 != k.data7 && k.data5 != k.data8
    && k.data6 != k.data7 && k.data6 != k.data8 && k.data7 != k.data8
    && k.parityNone != k.parityEven && k.parityNone != k.parityOdd && k.parityEven != k.parityOdd
  }

  /** `ISerial::Parities`. */
  datatype Parity = ParityN | ParityE | ParityO

  /** The `switch` of `extractNbStopBit` on the stop-bit field: 2 for the
      two-stop-bit code, 1 for anything else. */
  function StopBitsOfField(k: ConfigCodes, field: bv16): (n: uint8)
    requires DistinctLabels(k)
    ensures n == 1 || n == 2
    ensures n == 2 <==> field == k.stop2
  {
    if field == k.stop1 then 1
    else if field == k.stop2 then 2
    else 1
  }

  /** The `switch` of `extractCharSize` on the data field: 5, 6 or 7 for
      their codes, 8 for the 8-bit code and for any code it does not know. */
  function CharSizeOfField(k: ConfigCodes, field: bv16): (n: uint8)
    requires DistinctLabels(k)
    ensures 5 <= n <= 8
    ensures n == 5 <==> field == k.data5
    ensures n == 6 <==> field == k.data6
    ensures n == 7 <==> field == k.data7
  {
    if field == k.data5 then 5
    else if field == k.data6 then 6
    else if field == k.data7 then 7
    else 8
  }

  /** The `switch` of `extractParity` on the parity field: E and O for
      their codes, N for NONE and anything else. */
  function ParityOfField(k: ConfigCodes, field: bv16): (p: Parity)
    requires DistinctLabels(k)
    ensures p == ParityE <==> field == k.parityEven
    ensures p == ParityO <==> field == k.parityOdd
  {
    if field == k.parityNone then ParityN
    else if field == k.parityEven then ParityE
    else if field == k.parityOdd then ParityO
    else ParityN
  }

  /** `extractNbStopBit(config)`. */
  function ExtractNbStopBit(k: ConfigCodes, config: bv16): (n: uint8)
    requires DistinctLabels(k)
    ensures n == 2 <==> config & k.stopMask == k.stop2
  {
    StopBitsOfField(k, config & k.stopMask)
  }

  /** `extractCharSize(config)`. */
  function ExtractCharSize(k: ConfigCodes, config: bv16): (n: uint8)
    requires DistinctLabels(k)
    ensures 5 <= n <= 8
  {
    CharSizeOfField(k, config & k.dataMask)
  }

  /** `extractParity(config)`. */
  function ExtractParity(k: ConfigCodes, config: bv16): (p: Parity)
    requires DistinctLabels(k)
    ensures p == ParityE <==> config & k.parityMask == k.parityEven
  {
    ParityOfField(k, config & k.parityMask)
  }

  function DataCode(k: ConfigCodes, charSize: int): bv16
  {
    if charSize == 5 then k.data5 else if charSize == 6 then k.data6
    else if charSize == 7 then k.data7 else k.data8
  }

  function ParityCode(k: ConfigCodes, parity: Parity): bv16
  {
    match parity
    case ParityN => k.parityNone
    case ParityE => k.parityEven
    case ParityO => k.parityOdd
  }

  function StopCode(k: ConfigCodes, stopBits: int): bv16
  {
    if stopBits == 1 then k.stop1 else k.stop2
  }

  /** The config word for a character size, a parity and a stop-bit count,
      as a sketch writes it (`SERIAL_8E2` and the like). */
  function EncodeConfig(k: ConfigCodes, charSize: int, parity: Parity, stopBits: int): bv16
  {
    DataCode(k, charSize) | ParityCode(k, parity) | StopCode(k, stopBits)
  }

  /** Or-ing a code that lies in `mask` with two codes that lie in masks
      disjoint from it: `mask` picks out the first code again. */
  lemma FieldOfOr(a: bv16, b: bv16, c: bv16, mask: bv16, other1: bv16, other2: bv16)
    requires a & mask == a && b & other1 == b && c & other2 == c
    requires mask & other1 == 0 && mask & other2 == 0
    ensures (a | b | c) & mask == a
  {
  }

  lemma OrReorder(a: bv16, b: bv16, c: bv16)
    ensures a | b | c == b | a | c
    ensures a | b | c == c | a | b
  {
  }

  lemma DataInMask(k: ConfigCodes, charSize: int)
    requires DataCodesInMask(k)
    ensures DataCode(k, charSize) & k.dataMask == DataCode(k, charSize)
  {
    if charSize == 5 {
    } else if charSize == 6 {
    } else if charSize == 7 {
    }
  }

  lemma ParityInMask(k: ConfigCodes, parity: Parity)
    requires ParityCodesInMask(k)
    ensures ParityCode(k, parity) & k.parityMask == ParityCode(k, parity)
  {
    match parity
    case ParityN =>
    case ParityE =>
    case ParityO =>
  }

  lemma StopInMask(k: ConfigCodes, stopBits: int)
    requires StopCodesInMask(k)
    ensures StopCode(k, stopBits) & k.stopMask == StopCode(k, stopBits)
  {
    if stopBits == 1 {
    }
  }

  /** Each `switch` gives back the setting whose code it is handed: the
      tables can be read in both directions. */
  lemma FieldCodesDecode(k: ConfigCodes, charSize: int, parity: Parity, stopBits: int)
    requires DistinctLabels(k) && 5 <= charSize <= 8 && 1 <= stopBits <= 2
    ensures CharSizeOfField(k, DataCode(k, charSize)) == charSize
    ensures ParityOfField(k, ParityCode(k, parity)) == parity
    ensures StopBitsOfField(k, StopCode(k, stopBits)) == stopBits
  {
  }

  lemma CharSizeDecodes(k: ConfigCodes, charSize: int, parity: Parity, stopBits: int)
    requires DistinctLabels(k) && 5 <= charSize <= 8
    requires DataCode(k, charSize) & k.dataMask == DataCode(k, charSize)
    requires ParityCode(k, parity) & k.parityMask == ParityCode(k, parity)
    requires StopCode(k, stopBits) & k.stopMask == StopCode(k, stopBits)
    requires k.dataMask & k.parityMask == 0 && k.stopMask & k.dataMask == 0
    ensures ExtractCharSize(k, EncodeConfig(k, charSize, parity, stopBits)) == charSize
  {
    var data, par, stop := DataCode(k, charSize), ParityCode(k, parity), StopCode(k, stopBits);
    FieldOfOr(data, par, stop, k.dataMask, k.parityMask, k.stopMask);
    FieldCodesDecode(k, charSize, parity, 1);
  }

  lemma ParityDecodes(k: ConfigCodes, charSize: int, parity: Parity, stopBits: int)
    requires DistinctLabels(k)
    requires DataCode(k, charSize) & k.dataMask == DataCode(k, charSize)
    requires ParityCode(k, parity) & k.parityMask == ParityCode(k, parity)
    requires StopCode(k, stopBits) & k.stopMask == StopCode(k, stopBits)
    requires k.dataMask & k.parityMask == 0 && k.stopMask & k.parityMask == 0
    ensures ExtractParity(k, EncodeConfig(k, charSize, parity, stopBits)) == parity
  {
    var data, par, stop := DataCode(k, charSize), ParityCode(k, parity), StopCode(k, stopBits);
    OrReorder(data, par, stop);
    FieldOfOr(par, data, stop, k.parityMask, k.dataMask, k.stopMask);
    FieldCodesDecode(k, 8, parity, 1);
  }

  lemma StopBitsDecode(k: ConfigCodes, charSize: int, parity: Parity, stopBits: int)
    requires DistinctLabels(k) && 1 <= stopBits <= 2
    requires DataCode(k, charSize) & k.dataMask == DataCode(k, charSize)
    requires ParityCode(k, parity) & k.parityMask == ParityCode(k, parity)
    requires StopCode(k, stopBits) & k.stopMask == StopCode(k, stopBits)
    requires k.stopMask & k.dataMask == 0 && k.stopMask & k.parityMask == 0
    ensures ExtractNbStopBit(k, EncodeConfig(k, charSize, parity, stopBits)) == stopBits
  {
    var data, par, stop := DataCode(k, charSize), ParityCode(k, parity), StopCode(k, stopBits);
    OrReorder(data, par, stop);
    FieldOfOr(stop, data, par, k.stopMask, k.dataMask, k.parityMask);
    FieldCodesDecode(k, 8, ParityN, stopBits);
  }

  /** Decoding a config word built from a size, a parity and a stop-bit
      count gives them back. */
  lemma DecodeEncode(k: ConfigCodes, charSize: int, parity: Parity, stopBits: int)
    requires ValidCodes(k) && 5 <= charSize <= 8 && 1 <= stopBits <= 2
    ensures var config := EncodeConfig(k, charSize, parity, stopBits);
      && ExtractCharSize(k, config) == charSize
      && ExtractParity(k, config) == parity
      && ExtractNbStopBit(k, config) == stopBits
  {
    DataInMask(k, charSize);
    ParityInMask(k, parity);
    StopInMask(k, stopBits);
    CharSizeDecodes(k, charSize, parity, stopBits);
    ParityDecodes(k, charSize, parity, stopBits);
    StopBitsDecode(k, charSize, parity, stopBits);
  }

  /** Calls made on the serial port. */
  datatype SerialCall =
    | PortClose
    | Speed(baud: int)
    | CharSize(bits: int)
    | SetParity(parity: Parity)
    | PortOpen
    | StopBits(count: int)
    | WaitForTransmitIdle
    | Flush
    | FlushInput
    | SendChar(data: uint8)

  /** The calls `begin(baud, config)` makes: the port is reopened before
      the stop bits are set. */
  function BeginConfigCalls(k: ConfigCodes, baud: int, config: bv16): (calls: seq<SerialCall>)
    requires DistinctLabels(k)
    ensures |calls| == 6 && calls[0] == PortClose && calls[4] == PortOpen
    ensures calls[1] == Speed(baud)
    ensures calls[2] == CharSize(ExtractCharSize(k, config))
    ensures calls[3] == SetParity(ExtractParity(k, config))
    ensures calls[5] == StopBits(ExtractNbStopBit(k, config))
  {
    [PortClose, Speed(baud), CharSize(ExtractCharSize(k, config)),
     SetParity(ExtractParity(k, config)), PortOpen, StopBits(ExtractNbStopBit(k, config))]
  }

  /** `SerialDriver` electrical modes. */
  datatype SerialMode = Ttl | Rs232 | OtherSerialMode

  class Uart {
    const codes: ConfigCodes
    /** `m_serial != nullptr`: the pin names a serial port. */
    const hasSerial: bool
    /** `m_serialConnector != nullptr`: it is a COM connector, not USB. */
    const hasConnector: bool
    var calls: seq<SerialCall>
    var serialMode: SerialMode
    /** What the port holds and reports. */
    var rxQueue: seq<uint8>
    var txRoom: int
    var portReady: bool

    ghost predicate Valid()
      reads this
    {
      DistinctLabels(codes) && (hasConnector ==> hasSerial)
    }

    /** `Uart(connectorPin, isUsbCon)`: `present` says whether the pin
        names a connector. */
    constructor (codes: ConfigCodes, present: bool, isUsbCon: bool, mode: SerialMode,
                 rxQueue: seq<uint8>, txRoom: int, portReady: bool)
      requires DistinctLabels(codes)
      ensures Valid()
      ensures this.codes == codes && hasSerial == present && hasConnector == (present && !isUsbCon)
      ensures calls == [] && serialMode == mode && this.rxQueue == rxQueue
      ensures this.txRoom == txRoom && this.portReady == portReady
    {
      this.codes := codes;
      hasSerial := present;
      hasConnector := present && !isUsbCon;
      calls := [];
      serialMode := mode;
      this.rxQueue := rxQueue;
      this.txRoom := txRoom;
      this.portReady := portReady;
    }

    /** `begin(baudrate)`: close, set the speed, open. */
    method Begin(baudrate: uint32)
      requires Valid()
      modifies this
      ensures calls == old(calls) + (if hasSerial then [PortClose, Speed(baudrate), PortOpen] else [])
      ensures serialMode == old(serialMode) && rxQueue == old(rxQueue)
      ensures txRoom == old(txRoom) && portReady == old(portReady)
    {
      if hasSerial {
        calls := calls + [PortClose];
        calls := calls + [Speed(baudrate)];
        calls := calls + [PortOpen];
      }
    }

    /** `begin(baudrate, config)`. */
    method BeginWithConfig(baudrate: uint32, config: bv16)
      requires Valid()
      modifies this
      ensures calls == old(calls) + (if hasSerial then BeginConfigCalls(codes, baudrate, config) else [])
      ensures serialMode == old(serialMode) && rxQueue == old(rxQueue)
      ensures txRoom == old(txRoom) && portReady == old(portReady)
    {
      if hasSerial {
        calls := calls + [PortClose];
        calls := calls + [Speed(baudrate)];
        calls := calls + [CharSize(ExtractCharSize(codes, config))];
        calls := calls + [SetParity(ExtractParity(codes, config))];
        calls := calls + [PortOpen];
        calls := calls + [StopBits(ExtractNbStopBit(codes, config))];
      }
    }

    /** `end()`, which dereferences the port unchecked. */
    method End()
      requires Valid() && hasSerial
      modifies this
      ensures calls == old(calls) + [PortClose]
      ensures serialMode == old(serialMode) && rxQueue == old(rxQueue)
      ensures txRoom == old(txRoom) && portReady == old(portReady)
    {
      calls := calls + [PortClose];
    }

    /** `flush()`: wait for the transmitter, then flush; unchecked. */
    method Flush()
      requires Valid() && hasSerial
      modifies this
      ensures calls == old(calls) + [WaitForTransmitIdle, SerialCall.Flush]
      ensures serialMode == old(serialMode) && rxQueue == old(rxQueue)
      ensures txRoom == old(txRoom) && portReady == old(portReady)
    {
      calls := calls + [WaitForTransmitIdle];
      calls := calls + [SerialCall.Flush];
    }

    /** `flushInput()`, unchecked. */
    method FlushInput()
      requires Valid() && hasSerial
      modifies this
      ensures calls == old(calls) + [SerialCall.FlushInput]
      ensures serialMode == old(serialMode) && rxQueue == old(rxQueue)
      ensures txRoom == old(txRoom) && portReady == old(portReady)
    {
      calls := calls + [SerialCall.FlushInput];
    }

    /** `available()`: 0 without a port. */
    method Available() returns (n: int)
      requires Valid()
      ensures !hasSerial ==> n == 0
      ensures hasSerial ==> n == |rxQueue|
    {
      n := if hasSerial then |rxQueue| else 0;
    }

    /** `availableForWrite()`: 0 without a port. */
    method AvailableForWrite() returns (n: int)
      requires Valid()
      ensures !hasSerial ==> n == 0
      ensures hasSerial ==> n == txRoom
    {
      n := if hasSerial then txRoom else 0;
    }

    /** `peek()`: the next byte without taking it, -1 when there is no port
        or nothing to read. */
    method Peek() returns (c: int)
      requires Valid()
      ensures c == -1 <==> !hasSerial || |rxQueue| == 0
      ensures c != -1 ==> c == rxQueue[0]
    {
      if !hasSerial || |rxQueue| == 0 {
        c := -1;
      } else {
        c := rxQueue[0];
      }
    }

    /** `read()`: the next byte, taken from the port; -1 when there is no
        port or nothing to read. */
    method Read() returns (c: int)
      requires Valid()
      modifies this
      ensures c == -1 <==> !hasSerial || |old(rxQueue)| == 0
      ensures c != -1 ==> c == old(rxQueue)[0] && rxQueue == old(rxQueue)[1..]
      ensures c == -1 ==> rxQueue == old(rxQueue)
      ensures calls == old(calls) && serialMode == old(serialMode)
      ensures txRoom == old(txRoom) && portReady == old(portReady)
    {
      if !hasSerial || |rxQueue| == 0 {
        c := -1;
      } else {
        c := rxQueue[0];
        rxQueue := rxQueue[1..];
      }
    }

    /** `write(data)`: one byte sent and 1 reported with a port, 0
        without. */
    method Write(data: uint8) returns (written: nat)
      requires Valid()
      modifies this
      ensures written == (if hasSerial then 1 else 0)
      ensures calls == old(calls) + (if hasSerial then [SendChar(data)] else [])
      ensures serialMode == old(serialMode) && rxQueue == old(rxQueue)
      ensures txRoom == old(txRoom) && portReady == old(portReady)
    {
      if hasSerial {
        calls := calls + [SendChar(data)];
        return 1;
      }
      return 0;
    }

    /** `ttl(newState)`: TTL or RS-232 on a COM connector, nothing on USB
        or without a port. */
    method SetTtl(newState: bool)
      requires Valid()
      modifies this
      ensures serialMode == (if hasConnector then (if newState then Ttl else Rs232) else old(serialMode))
      ensures calls == old(calls) && rxQueue == old(rxQueue)
      ensures txRoom == old(txRoom) && portReady == old(portReady)
    {
      if hasConnector {
        if newState {
          serialMode := Ttl;
        } else {
          serialMode := Rs232;
        }
      }
    }

    /** `ttl()`: whether a COM connector is in TTL mode. */
    method IsTtl() returns (ttl: bool)
      requires Valid()
      ensures ttl <==> hasConnector && serialMode == Ttl
    {
      if hasConnector {
        return serialMode == Ttl;
      }
      return false;
    }

    /** `operator bool()`: the port's own readiness, false without one. */
    method IsReady() returns (ready: bool)
      requires Valid()
      ensures ready <==> hasSerial && portReady
    {
      if hasSerial {
        return portReady;
      }
      return false;
    }
  }

  /** With the codes of ArduinoCore-API's `HardwareSerial.h`, `SERIAL_8E2`
      decodes to 8 data bits, even parity and two stop bits. */
  lemma Example8E2()
    ensures var k := ConfigCodes(0xF0, 0x10, 0x30, 0xF00, 0x100, 0x200, 0x300, 0x400, 0xF, 0x3, 0x1, 0x2);
      && ValidCodes(k)
      && ExtractCharSize(k, 0x431) == 8 && ExtractParity(k, 0x431) == ParityE
      && ExtractNbStopBit(k, 0x431) == 2
  {
  }
}
