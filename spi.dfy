/** `SPIClass` of cores/arduino/api/SPI.cpp over a ClearCore serial port.
    The port is foreign: the calls made on it are recorded in order, the
    bytes it answers during a transfer come from `replies`, and whether it
    accepts a background (DMA) transfer is `asyncAccepts`. */
module Spi {
  import opened Common
  import opened SpiSettings

  datatype ClockPolarity = SckLow | SckHigh
  datatype ClockPhase = LeadSample | LeadChange

  /** Calls made on the serial port. */
  datatype PortCall =
    | SerialModeSpi          // `SerialDriver::Mode(SPI)` on a COM connector
    | PortModeSpi            // `SerialBase::PortMode(SPI)` on another port
    | SsMode(on: bool)       // `SpiSsMode(LINE_ON / LINE_OFF)`
    | Speed(hz: int)
    | SpiClock(polarity: ClockPolarity, phase: ClockPhase)
    | PortOpen
    | PortClose
    | TransferByte(data: uint8)
    | TransferBlocking(count: nat)
    | TransferAsync(count: nat)
    | AsyncWaitComplete

  /** The data-mode table of `config`; `None` for a mode it does not
      know. */
  function ClockFor(dataMode: uint8): (r: Option<(ClockPolarity, ClockPhase)>)
    ensures dataMode < 4 <==> r.Some?
    ensures r.Some? ==> (r.value.0 == SckHigh <==> dataMode / 2 == 1)
    ensures r.Some? ==> (r.value.1 == LeadChange <==> dataMode % 2 == 1)
  {
    if dataMode == SPI_MODE0 then Some((SckLow, LeadSample))
    else if dataMode == SPI_MODE1 then Some((SckLow, LeadChange))
    else if dataMode == SPI_MODE2 then Some((SckHigh, LeadSample))
    else if dataMode == SPI_MODE3 then Some((SckHigh, LeadChange))
    else None
  }

  /** The four modes give four different clock settings, so the table can
      be read backwards: CPOL * 2 + CPHA recovers the mode. */
  lemma ClockTableInjective(m: uint8, n: uint8)
    requires ClockFor(m).Some? && ClockFor(n).Some?
    ensures ClockFor(m) == ClockFor(n) <==> m == n
    ensures m == (if ClockFor(m).value.0 == SckHigh then 2 else 0) + (if ClockFor(m).value.1 == LeadChange then 1 else 0)
  {
  }

  /** The calls `config` makes: the speed first, always, then the clock
      polarity and phase when the data mode is known. */
  function ConfigCalls(s: Settings): (calls: seq<PortCall>)
    ensures |calls| >= 1 && calls[0] == Speed(s.clockFreq)
    ensures |calls| == 2 <==> s.dataMode < 4
    ensures |calls| == 2 ==> calls[1] == SpiClock(ClockFor(s.dataMode).value.0, ClockFor(s.dataMode).value.1)
    ensures |calls| <= 2
  {
    match ClockFor(s.dataMode)
    case Some((pol, phase)) => [Speed(s.clockFreq), SpiClock(pol, phase)]
    case None => [Speed(s.clockFreq)]
  }

  /** The bytes `transfer16` sends, in order: low byte first under
      LSBFIRST, high byte first otherwise. */
  function Transfer16Order(order: BitOrder, data: uint16): (sent: seq<uint8>)
    ensures |sent| == 2
    ensures order == LsbFirst ==> sent[1] as int * 0x100 + sent[0] as int == data as int
    ensures order == MsbFirst ==> sent[0] as int * 0x100 + sent[1] as int == data as int
  {
    BytesRecombine(data);
    if order == LsbFirst then [LowByte(data), HighByte(data)] else [HighByte(data), LowByte(data)]
  }

  /** The word `transfer16` returns from the two bytes received, each
      taking the place of the byte it was exchanged for. */
  function Transfer16Word(order: BitOrder, first: uint8, second: uint8): (w: uint16)
    ensures order == LsbFirst ==> LowByte(w) == first && HighByte(w) == second
    ensures order == MsbFirst ==> HighByte(w) == first && LowByte(w) == second
  {
    if order == LsbFirst then
      BytesOfWord(second, first);
      second * 0x100 + first
    else
      BytesOfWord(first, second);
      first * 0x100 + second
  }

  /** Over a loopback port that answers each byte with itself, `transfer16`
      returns the word it was given, in either bit order. */
  lemma Transfer16Loopback(order: BitOrder, data: uint16)
    ensures var sent := Transfer16Order(order, data);
      Transfer16Word(order, sent[0], sent[1]) == data
  {
    BytesRecombine(data);
  }

  /** The calls a `transfer(txbuf, rxbuf, count, block)` makes: a
      non-blocking one asks for a background transfer first and falls back
      to a blocking one only when that is refused. */
  function BufferTransferCalls(count: nat, block: bool, asyncAccepts: bool): (calls: seq<PortCall>)
    ensures TransferAsync(count) in calls <==> !block
    ensures TransferBlocking(count) in calls <==> block || !asyncAccepts
    ensures |calls| <= 2
  {
    if !block then
      if asyncAccepts then [TransferAsync(count)] else [TransferAsync(count), TransferBlocking(count)]
    else
      [TransferBlocking(count)]
  }

  class SPIClass {
    const isCom: bool
    var settings: Settings
    var calls: seq<PortCall>
    var replies: seq<uint8>
    var asyncAccepts: bool

    /** `SPIClass(thePort, isCom)`: default settings, nothing sent yet. */
    constructor (isCom: bool, replies: seq<uint8>, asyncAccepts: bool)
      ensures this.isCom == isCom && settings == DefaultSettings()
      ensures calls == [] && this.replies == replies && this.asyncAccepts == asyncAccepts
    {
      this.isCom := isCom;
      settings := DefaultSettings();
      calls := [];
      this.replies := replies;
      this.asyncAccepts := asyncAccepts;
    }

    /** `config()`. */
    method Config()
      modifies this
      ensures calls == old(calls) + ConfigCalls(settings)
      ensures settings == old(settings) && replies == old(replies) && asyncAccepts == old(asyncAccepts)
    {
      calls := calls + [Speed(settings.clockFreq)];
      var dataMode := settings.dataMode;
      if dataMode == SPI_MODE0 {
        calls := calls + [SpiClock(SckLow, LeadSample)];
      } else if dataMode == SPI_MODE1 {
        calls := calls + [SpiClock(SckLow, LeadChange)];
      } else if dataMode == SPI_MODE2 {
        calls := calls + [SpiClock(SckHigh, LeadSample)];
      } else if dataMode == SPI_MODE3 {
        calls := calls + [SpiClock(SckHigh, LeadChange)];
      }
    }

    /** `begin()`: SPI mode, slave select off, configure, open. */
    method Begin()
      modifies this
      ensures calls == old(calls) + [if isCom then SerialModeSpi else PortModeSpi, SsMode(false)]
                         + ConfigCalls(settings) + [PortOpen]
      ensures settings == old(settings) && replies == old(replies) && asyncAccepts == old(asyncAccepts)
    {
      if isCom {
        calls := calls + [SerialModeSpi];
      } else {
        calls := calls + [PortModeSpi];
      }
      calls := calls + [SsMode(false)];
      Config();
      calls := calls + [PortOpen];
    }

    /** `end()`. */
    method End()
      modifies this
      ensures calls == old(calls) + [PortClose]
      ensures settings == old(settings) && replies == old(replies) && asyncAccepts == old(asyncAccepts)
    {
      calls := calls + [PortClose];
    }

    /** `beginTransaction(s)`: take all three fields, configure, then
        assert slave select. */
    method BeginTransaction(s: Settings)
      modifies this
      ensures settings == s
      ensures calls == old(calls) + ConfigCalls(s) + [SsMode(true)]
      ensures replies == old(replies) && asyncAccepts == old(asyncAccepts)
    {
      settings := settings.(bitOrder := s.bitOrder);
      settings := settings.(dataMode := s.dataMode);
      settings := settings.(clockFreq := s.clockFreq);
      Config();
      calls := calls + [SsMode(true)];
    }

    /** `endTransaction()`: release slave select; the settings stay. */
    method EndTransaction()
      modifies this
      ensures calls == old(calls) + [SsMode(false)]
      ensures settings == old(settings) && replies == old(replies) && asyncAccepts == old(asyncAccepts)
    {
      calls := calls + [SsMode(false)];
    }

    /** `setBitOrder(order)`. */
    method SetBitOrder(order: BitOrder)
      modifies this
      ensures settings == old(settings).(bitOrder := order)
      ensures calls == old(calls) + ConfigCalls(settings)
      ensures replies == old(replies) && asyncAccepts == old(asyncAccepts)
    {
      settings := settings.(bitOrder := order);
      Config();
    }

    /** `setDataMode(mode)`. */
    method SetDataMode(mode: uint8)
      modifies this
      ensures settings == old(settings).(dataMode := mode)
      ensures calls == old(calls) + ConfigCalls(settings)
      ensures replies == old(replies) && asyncAccepts == old(asyncAccepts)
    {
      settings := settings.(dataMode := mode);
      Config();
    }

    /** `setClockDivider(div)`: the clock becomes `MAX_SPI / div`, so the
        divider must not be 0. */
    method SetClockDivider(div: uint8)
      requires div != 0
      modifies this
      ensures settings == old(settings).(clockFreq := MAX_SPI / div)
      ensures settings.clockFreq <= MAX_SPI
      ensures calls == old(calls) + ConfigCalls(settings)
      ensures replies == old(replies) && asyncAccepts == old(asyncAccepts)
    {
      settings := settings.(clockFreq := MAX_SPI / div);
      Config();
    }

    /** `transfer(data)`: one byte out, the port's answer back. */
    method Transfer(data: uint8) returns (r: uint8)
      requires |replies| >= 1
      modifies this
      ensures r == old(replies)[0] && replies == old(replies)[1..]
      ensures calls == old(calls) + [TransferByte(data)]
      ensures settings == old(settings) && asyncAccepts == old(asyncAccepts)
    {
      r := replies[0];
      replies := replies[1..];
      calls := calls + [TransferByte(data)];
    }

    /** `transfer16(data)`. */
    method Transfer16(data: uint16) returns (r: uint16)
      requires |replies| >= 2
      modifies this
      ensures calls == old(calls) + [TransferByte(Transfer16Order(settings.bitOrder, data)[0]),
                                     TransferByte(Transfer16Order(settings.bitOrder, data)[1])]
      ensures r == Transfer16Word(settings.bitOrder, old(replies)[0], old(replies)[1])
      ensures replies == old(replies)[2..]
      ensures settings == old(settings) && asyncAccepts == old(asyncAccepts)
    {
      var lsb, msb := LowByte(data), HighByte(data);
      if settings.bitOrder == LsbFirst {
        lsb := Transfer(lsb);
        msb := Transfer(msb);
      } else {
        msb := Transfer(msb);
        lsb := Transfer(lsb);
      }
      var word: int := (msb as int) * 0x100 + (lsb as int);
      r := word;
    }

    /** `transfer(txbuf, rxbuf, count, block)`; the buffer contents belong
        to the port driver. */
    method TransferBuffers(count: nat, block: bool := true)
      modifies this
      ensures calls == old(calls) + BufferTransferCalls(count, block, asyncAccepts)
      ensures settings == old(settings) && replies == old(replies) && asyncAccepts == old(asyncAccepts)
    {
      if !block {
        calls := calls + [TransferAsync(count)];
        if asyncAccepts {
          return;
        }
      }
      calls := calls + [TransferBlocking(count)];
    }

    /** `waitForTransfer()`. */
    method WaitForTransfer()
      modifies this
      ensures calls == old(calls) + [AsyncWaitComplete]
      ensures settings == old(settings) && replies == old(replies) && asyncAccepts == old(asyncAccepts)
    {
      calls := calls + [AsyncWaitComplete];
    }
  }
}
