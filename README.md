# ClearCore Arduino wrapper, modelled in Dafny

This project models the Arduino-compatible layer that Teknic's ClearCore
motion controller puts over its own C++ driver library, and proves
properties of that model.

**Pin layer** (`variant.dfy`). Arduino pin numbers are indices into the
board's connector directory. Eight extra pins reach the A/B input bits of
the four motor connectors. The operations are:

- digital read and write;
- `pinMode`;
- analog read (raw or millivolts) and analog write (PWM or current, raw or
  microamps);
- `pulseIn`/`pulseInLong`;
- pulse trains (`OutputPulsesStart`/`Stop`).

**The driver library** (`clearcore.dfy`) is not part of the model. It is an
abstract connector record:

- The type, the set of modes the connector accepts and the set of modes in
  which it is writable never change.
- The mode, the state word, the two motor input bits and the tone state are
  what the wrapper reads and writes.
- `Mode(m)` takes effect or is silently refused. The wrapper trusts only
  the readback, and the model does the same.

**`pulseInLong`** (`pulse_timing.dfy`) is the three busy-wait loops over an
injected trace. Each `State()` call takes the next sample and each
`micros()` call the next clock reading. The clock wraps at 2^32.

**Secondary parts:**

- the macros and enumerations of `Common.h` (`common.dfy`);
- the integer forms of the millivolt and microamp roundings and
  `mapResolution` (`analog_conversion.dfy`);
- the delayed reset counter (`reset.dfy`);
- H-bridge tones (`tone.dfy`);
- `SPISettings` and `SPIClass` (`spi_settings.dfy`, `spi.dfy`);
- the `Uart` serial object and its config-word decoders (`uart.dfy`);
- the cycle/microsecond macros (`clock_conversion.dfy`);
- the `Ethernet` object (`ethernet.dfy`);
- `EthernetClient`, its operators and the small inline members of
  `Ethernet.h` (`ethernet_client.dfy`).

Objects whose fields the source updates are classes: the board, the reset
counter, the SPI and UART objects, the Ethernet manager and the TCP client.
Foreign objects are records. Calls made into foreign code are appended to a
log held in a `seq` field.

`arith.dfy` holds arithmetic helper lemmas. It models nothing.

## Model

| member | source | states |
|---|---|---|
| Common.LevelsDistinct | cores/arduino/api/Common.h:28-34 | The five pin levels are pairwise distinct, so a level of 2 or more is neither LOW nor HIGH |
| Common.DefaultArguments | cores/arduino/api/Common.h:202-217 | The default `pulseIn` timeout is 1000000 µs; `OutputPulsesStart` defaults to count 0 without blocking; `analogWrite` defaults to PWM in DAC_RAW units |
| Common.Constrain | cores/arduino/api/Common.h:148-151 | The result is `low` below the range, `high` above it and `amt` inside it; with `low <= high` it always lies in `[low, high]` |
| Common.ConstrainIdempotent | cores/arduino/api/Common.h:148-151 | Constraining a value a second time changes nothing |
| Common.Min | cores/arduino/api/Common.h:153-158 | The result is below both arguments and equals one of them |
| Common.Max | cores/arduino/api/Common.h:160-165 | The result is above both arguments and equals one of them |
| Common.MinBelowMax | cores/arduino/api/Common.h:153-165 | `min <= max`, and together they are exactly the two arguments |
| Common.BytesRecombine | cores/arduino/api/Common.h:77-78 | For a 16-bit word, high byte × 256 + low byte is the word; bits above 15 never reach either byte |
| Common.BytesOfWord | cores/arduino/api/Common.h:77-78 | Splitting a word composed as high byte × 256 + low byte gives back both bytes |
| Common.BitRead | cores/arduino/api/Common.h:80 | A bit read is always 0 or 1 |
| Common.BitSet | cores/arduino/api/Common.h:81 | After `bitSet`, the bit reads 1 |
| Common.BitClear | cores/arduino/api/Common.h:82 | After `bitClear`, the bit reads 0 |
| Common.BitWrite | cores/arduino/api/Common.h:83-84 | After `bitWrite`, the bit reads 1 when `bitvalue` is nonzero and 0 otherwise |
| Common.Bit | cores/arduino/api/Common.h:86-88 | Bit `b` of `bit(b)` reads 1 |
| Common.OtherBitsUnchanged | cores/arduino/api/Common.h:80-82 | `bitSet` and `bitClear` leave every other bit as it was |
| Common.BitAndBitWrite | cores/arduino/api/Common.h:80-88 | `bit(b)` has no other bit set; `bitWrite` is `bitSet` or `bitClear` according to `bitvalue`; `bitSet` ors in `bit(b)` |
| ClearCore.SetMode | variants/clearcore/variant.cpp:169-172 | A mode request takes effect exactly when the connector accepts it; a refused request changes nothing; only the mode can change |
| ClearCore.ReadbackMatchesIff | variants/clearcore/variant.cpp:169-172 | Reading the mode back after a request is true exactly when the connector accepts the mode, and the connector stays consistent |
| ClearCore.SetModeIdempotent | variants/clearcore/variant.cpp:169-172 | Repeating a mode request changes nothing more |
| AnalogConversion.AdcMax | variants/clearcore/variant.cpp:229-246 | Full scale is 2^res − 1 for resolutions 8, 10, 12 and 16, and 4095 for any other resolution |
| AnalogConversion.ToMillivolts | variants/clearcore/variant.cpp:248 | The result is within half a millivolt of 9900·raw/max, so it is `round(9900·raw/max)` |
| AnalogConversion.MillivoltEndpoints | variants/clearcore/variant.cpp:226-249 | Raw 0 gives 0 mV and full scale gives 9900 mV at every resolution; the conversion is monotone; in-range codes give 0..9900 |
| AnalogConversion.DacCode | variants/clearcore/variant.cpp:272-276 | For 0..20000 µA the code is in 0..4095 and within half a step of v·4095/20000 (halves round up) |
| AnalogConversion.MicroampsToDac | variants/clearcore/variant.cpp:272-276 | The code is in 0..4095; currents ≤ 0 give 0 and currents ≥ 20000 give 4095 |
| AnalogConversion.MicroampsClamp | variants/clearcore/variant.cpp:272-276 | 25000 µA gives the same code as 20000 µA; the code is monotone in the current; 2000 µA gives 410 |
| AnalogConversion.MapResolution | variants/clearcore/variant.cpp:57-66 | Narrowing never increases the value |
| AnalogConversion.WidenExact | variants/clearcore/variant.cpp:57-66 | Widening a value that fits in `from` bits is an exact multiplication, and the result fits in `to` bits |
| AnalogConversion.WidenThenNarrow | variants/clearcore/variant.cpp:57-66 | Widening and then narrowing returns the original value |
| AnalogConversion.NarrowFits | variants/clearcore/variant.cpp:57-66 | Narrowing a `from`-bit value gives a `to`-bit value |
| AnalogConversion.MapResolutionRoundTrip | variants/clearcore/variant.cpp:57-66 | A `from`-bit value always maps into `to` bits, and widening round-trips |
| PulseTiming.ElapsedIsReal | variants/clearcore/variant.cpp:429-463 | Over less than 2^32 µs, the wrapped 32-bit difference `now - start` equals the real elapsed time |
| PulseTiming.MeasurePulse | variants/clearcore/variant.cpp:425-467 | The three polling loops return exactly the phase-by-phase specification `PulseWidth` of the trace |
| PulseTiming.MeasurePhaseSpec | variants/clearcore/variant.cpp:449-467 | With a monotone clock, a nonzero result of the third phase is the real duration of a complete observed pulse that ended before `timeout` |
| PulseTiming.AwaitPhaseSpec | variants/clearcore/variant.cpp:438-467 | The same for the second phase onwards: the pulse starts at the first sample at the desired level |
| PulseTiming.DrainPhaseSpec | variants/clearcore/variant.cpp:427-467 | The same for the whole measurement: a pulse in progress on entry is skipped |
| PulseTiming.PulseWidthIsObservedPulse | variants/clearcore/variant.cpp:425-467 | A nonzero width is `currentTime − pulseBegin` of a complete pulse that follows a stretch at the other level; it ends before `startTime + timeout` and is below `timeout`; `PulseWidthFindsObservedPulse` gives the converse |
| PulseTiming.PulseWidthFindsObservedPulse | variants/clearcore/variant.cpp:425-467 | With a monotone clock, a complete pulse after a stretch at the other level that ends less than `timeout` after `startTime` is returned, and the result is its real duration |
| PulseTiming.MeasurePhaseFinds | variants/clearcore/variant.cpp:449-467 | From inside such a pulse, the third loop runs to the falling edge and returns the pulse's real duration |
| PulseTiming.AwaitPhaseFinds | variants/clearcore/variant.cpp:438-467 | From the stretch at the other level, the second loop stops at the rising edge and the pulse is then measured |
| PulseTiming.DrainPhaseFinds | variants/clearcore/variant.cpp:427-467 | From the start, the first loop skips the pulse in progress, and the observed pulse is then measured |
| PulseTiming.BeforeDeadlineLeavesRoom | variants/clearcore/variant.cpp:429-463 | A reading taken before the deadline is not one of the trace's last three, so every loop still has a next reading |
| PulseTiming.NonzeroWidthNeedsBothEdges | variants/clearcore/variant.cpp:427-467 | A nonzero width needs a sample at the other level followed by one at the desired level |
| PulseTiming.ZeroTimeoutGivesZero | variants/clearcore/variant.cpp:425-467 | A timeout of 0 always gives 0 |
| PulseTiming.HighPulseExample | variants/clearcore/variant.cpp:425-467 | A HIGH pulse from 500 µs to 1300 µs, measured with a 2000 µs timeout, gives 800 µs |
| Variant.MotorConnector | variants/clearcore/variant.cpp:70-89 | `Mn_INA` and `Mn_INB` go to motor `Mn`; any other pin in the motor range gives −1 |
| Variant.GroupedLayoutRouting | variants/clearcore/variant.cpp:70-102 | With the INA pins numbered before the INB pins, `Mn_INA` reaches motor n's A bit and `Mn_INB` its B bit |
| Variant.InterleavedLayoutReadsBitB | variants/clearcore/variant.cpp:97 | The A/B choice is an ordering test: in an interleaved numbering, `M1_INA` reaches motor 1's B bit |
| Variant.MotorRead | variants/clearcore/variant.cpp:97-102 | A motor input pin reads LOW exactly when its bit is set, so the read is inverted |
| Variant.MotorWrite | variants/clearcore/variant.cpp:151-156 | A motor input write stores `val != 0` in the chosen bit only, without inversion |
| Variant.MotorWriteThenRead | variants/clearcore/variant.cpp:97-102 | Writing a nonzero value and reading it back gives LOW; the other bit, the mode and the fixed parts are untouched |
| Variant.DigitalReadPrepare | variants/clearcore/variant.cpp:114-119 | A writable connector is left alone; any other connector gets the INPUT_DIGITAL request, without a readback, so it switches exactly when it accepts that mode; the state is never changed |
| Variant.DigitalWriteEffect | variants/clearcore/variant.cpp:159-172 | A non-writable connector, or one refusing OUTPUT_DIGITAL, is unchanged; otherwise mode and state become OUTPUT_DIGITAL and `val`, and a later read returns `val` |
| Variant.PinModeEffect | variants/clearcore/variant.cpp:181-204 | INPUT_PULLUP acts as INPUT; other mode values change nothing; OUTPUT and INPUT take effect exactly when the mode is accepted; only the mode changes |
| Variant.AnalogReadOutcome | variants/clearcore/variant.cpp:216-221 | The connector after `analogReadAPI` is the one that was asked for INPUT_ANALOG |
| Variant.AnalogReadEffect | variants/clearcore/variant.cpp:206-253 | A refused INPUT_ANALOG reads 0; ADC_RAW returns the state; MILLIVOLTS maps 0 to 0 and full scale to 9900, and in-range codes into 0..9900 |
| Variant.AnalogWriteEffect | variants/clearcore/variant.cpp:255-303 | Only a writable connector can change, and never for PWM with MICROAMPS; PWM needs an analog-out, digital-in-out or H-bridge type and stores the value without readback; CURRENT needs an analog-out type and stores a code in 0..4095; on a writable connector of the right type the write happens: PWM in DAC_RAW requests OUTPUT_PWM and stores the value, and CURRENT requests OUTPUT_ANALOG and stores the value, or in MICROAMPS its `MicroampsToDac` code; currents above 20 mA act as 20 mA |
| Variant.PulseInConnector | variants/clearcore/variant.cpp:402-423 | A pulse is measured only on a present, non-writable connector that accepted INPUT_DIGITAL |
| Variant.PulseInLongEffect | variants/clearcore/variant.cpp:378-468 | A nonzero result needs a LOW/HIGH level and a present, non-writable connector that accepts INPUT_DIGITAL; it is then a complete observed pulse below `timeout`; once those checks pass, every complete pulse that ends before `startTime + timeout` is reported with its real duration |
| Variant.OutputPulsesSetup | variants/clearcore/variant.cpp:474-494 | A connector is returned exactly when it exists, has a mode other than INVALID_NONE and is one of the four pulse-capable types |
| Variant.PulsesGating | variants/clearcore/variant.cpp:496-543 | Start and stop each make exactly one driver call under the same condition, and both go to the CCIO routine exactly for CCIO pins |
| Variant.Board.AnalogReadResolution | variants/clearcore/variant.cpp:53-55 | The ADC resolution becomes `res` and nothing else changes |
| Variant.Board.DigitalRead | variants/clearcore/variant.cpp:68-120 | A motor pin reads its inverted bit; its motor's connector is dereferenced unchecked, so it must exist; a missing connector reads LOW and changes nothing; otherwise the connector is prepared as `DigitalReadPrepare` and its state is returned |
| Variant.Board.DigitalWrite | variants/clearcore/variant.cpp:122-174 | A motor pin stores its bit; its motor's connector is dereferenced unchecked, so it must exist; a missing connector changes nothing; otherwise the connector becomes `DigitalWriteConnector`; nothing else changes |
| Variant.Board.PinMode | variants/clearcore/variant.cpp:181-204 | A missing connector changes nothing; otherwise only that connector changes, as `PinModeConnector` says |
| Variant.Board.AnalogRead | variants/clearcore/variant.cpp:206-253 | A missing connector reads 0; otherwise the connector and the value are those of `AnalogReadOutcome` at the current resolution |
| Variant.Board.AnalogWrite | variants/clearcore/variant.cpp:255-303 | Only the addressed connector changes, as `AnalogWriteConnector` says |
| Variant.Board.PulseInLong | variants/clearcore/variant.cpp:400-468 | The result is `PulseInLongResult`; INPUT_DIGITAL is requested exactly when the level and the connector pass the checks; nothing else changes |
| Variant.Board.PulseIn | variants/clearcore/variant.cpp:378-380 | `pulseIn` gives the same result as `pulseInLong` |
| Variant.Board.OutputPulsesStart | variants/clearcore/variant.cpp:496-517 | The driver log grows by the gated start call only; connectors are untouched |
| Variant.Board.OutputPulsesStop | variants/clearcore/variant.cpp:519-543 | The driver log grows by the gated stop call only; the one-argument form stops immediately |
| Reset.Tick | cores/arduino/Reset.cpp:88-96 | A disarmed tick changes nothing; an armed tick decrements by exactly one and fires exactly when the counter reaches 0 |
| Reset.FiresOnNthTick | cores/arduino/Reset.cpp:80-96 | Armed with n ≥ 1, the reset fires on exactly the n-th tick and not before |
| Reset.DisarmedStaysQuiet | cores/arduino/Reset.cpp:84-90 | Once disarmed, any number of ticks changes nothing and never fires |
| Reset.NeverFiresFromZero | cores/arduino/Reset.cpp:88-95 | `initiateReset(0)` never resets: the first tick lands on the disarmed value −1 |
| Reset.NeverFiresBelowDisarmed | cores/arduino/Reset.cpp:88-95 | Armed below −1, the counter moves away from 0 and never fires within the int range |
| Reset.ResetCountdown.constructor | cores/arduino/Reset.cpp:78 | The counter starts disarmed (−1) and nothing has fired |
| Reset.ResetCountdown.InitiateReset | cores/arduino/Reset.cpp:80-82 | Any countdown in progress is replaced by `n` |
| Reset.ResetCountdown.CancelReset | cores/arduino/Reset.cpp:84-86 | The counter is disarmed |
| Reset.ResetCountdown.TickReset | cores/arduino/Reset.cpp:88-96 | The counter and the fired flag move as `Tick` says |
| ToneOutput.NoToneCalls | cores/arduino/Tone.cpp:34-47 | `noTone` stops a tone exactly on an H-bridge that is not playing a timed tone |
| ToneOutput.ToneGating | cores/arduino/Tone.cpp:34-79 | Off an H-bridge all three operations are inert; on one, `tone` requests OUTPUT_TONE and starts one timed tone with the caller's frequency and duration, and `toneVolume` sets one amplitude |
| ToneOutput.NoTone | cores/arduino/Tone.cpp:34-47 | Connectors are unchanged; the driver log grows by `NoToneCalls` |
| ToneOutput.Tone | cores/arduino/Tone.cpp:49-65 | Only the addressed connector can change, as `ToneConnector` says; the log grows by `ToneCalls` |
| ToneOutput.ToneVolume | cores/arduino/Tone.cpp:67-79 | Connectors are unchanged; the log grows by `ToneVolumeCalls` |
| SpiSettings.MakeSettings | cores/arduino/api/SPI.h:46-50 | Clock, bit order and data mode are stored unchanged |
| SpiSettings.DefaultSettings | cores/arduino/api/SPI.h:52-58 | The default settings are 10 MHz, MSB first, SPI mode 0 |
| SpiSettings.SpiConstants | cores/arduino/api/SPI.h:36-42 | `SPI_MODE0..3` are 0..3, `MAX_SPI` is 10 MHz and the smallest divider leaves it unchanged |
| SpiSettings.ClockDividers | cores/arduino/api/SPI.h:111-117 | The dividers are 2, 5, 10, 20, 40, 80 and 160: nonzero and strictly increasing, so each is a valid `setClockDivider` argument and the clocks they select decrease |
| Spi.ClockFor | cores/arduino/api/SPI.cpp:59-78 | Modes 0..3 and only they have a clock setting; CPOL is high exactly for modes 2 and 3, and CPHA is LEAD_CHANGE exactly for odd modes |
| Spi.ClockTableInjective | cores/arduino/api/SPI.cpp:59-78 | Distinct modes give distinct settings, and CPOL·2 + CPHA recovers the mode |
| Spi.ConfigCalls | cores/arduino/api/SPI.cpp:57-79 | `config` always sets the speed first, then, exactly when the mode is known, the clock polarity and phase that `ClockFor` gives for it |
| Spi.Transfer16Order | cores/arduino/api/SPI.cpp:135-142 | `transfer16` sends exactly two bytes: low byte first for LSBFIRST, high byte first for MSBFIRST, and high × 256 + low is the word |
| Spi.Transfer16Word | cores/arduino/api/SPI.cpp:133-144 | Each received byte takes the place of the byte it was exchanged for |
| Spi.Transfer16Loopback | cores/arduino/api/SPI.cpp:124-145 | Over a port that echoes each byte, `transfer16` returns its argument in either bit order |
| Spi.BufferTransferCalls | cores/arduino/api/SPI.cpp:151-158 | Async is tried exactly when not blocking; a blocking transfer happens exactly when blocking or when async is refused |
| Spi.SPIClass.constructor | cores/arduino/api/SPI.cpp:37-41 | A new object has the default settings and has made no calls |
| Spi.SPIClass.Config | cores/arduino/api/SPI.cpp:57-79 | The call log grows by `ConfigCalls` of the current settings |
| Spi.SPIClass.Begin | cores/arduino/api/SPI.cpp:43-55 | SPI mode (serial driver for COM, port mode otherwise), SS off, configure, open, in that order |
| Spi.SPIClass.End | cores/arduino/api/SPI.cpp:81-83 | The port is closed |
| Spi.SPIClass.BeginTransaction | cores/arduino/api/SPI.cpp:93-99 | All three fields are taken, the port is configured, then SS is turned on |
| Spi.SPIClass.EndTransaction | cores/arduino/api/SPI.cpp:101-103 | SS is turned off and the settings stay |
| Spi.SPIClass.SetBitOrder | cores/arduino/api/SPI.cpp:105-108 | Only the bit order changes, then the port is reconfigured |
| Spi.SPIClass.SetDataMode | cores/arduino/api/SPI.cpp:110-113 | Only the data mode changes, then the port is reconfigured |
| Spi.SPIClass.SetClockDivider | cores/arduino/api/SPI.cpp:115-118 | For a nonzero divider, only the clock changes, to `MAX_SPI / div` (at most `MAX_SPI`), then the port is reconfigured |
| Spi.SPIClass.Transfer | cores/arduino/api/SPI.cpp:120-122 | One byte goes out and the port's next answer comes back |
| Spi.SPIClass.Transfer16 | cores/arduino/api/SPI.cpp:124-145 | The two bytes go out in `Transfer16Order`, and the result is `Transfer16Word` of the two answers |
| Spi.SPIClass.TransferBuffers | cores/arduino/api/SPI.cpp:151-158 | The call log grows by `BufferTransferCalls` |
| Spi.SPIClass.WaitForTransfer | cores/arduino/api/SPI.cpp:161-163 | One wait for the background transfer is logged |
| UartPort.StopBitsOfField | cores/arduino/Uart.cpp:107-116 | The stop-bit count is 2 exactly for the two-stop-bit code and 1 for everything else |
| UartPort.CharSizeOfField | cores/arduino/Uart.cpp:118-133 | The size is 5, 6 or 7 exactly for those codes, and 8 for anything else; always 5..8 |
| UartPort.ParityOfField | cores/arduino/Uart.cpp:135-147 | The parity is E and O exactly for their codes, and N for anything else |
| UartPort.ExtractNbStopBit | cores/arduino/Uart.cpp:107-116 | 2 exactly when the masked stop-bit field is the two-stop-bit code |
| UartPort.ExtractCharSize | cores/arduino/Uart.cpp:118-133 | The character size is always within 5..8 |
| UartPort.ExtractParity | cores/arduino/Uart.cpp:135-147 | E exactly when the masked parity field is the even code |
| UartPort.FieldCodesDecode | cores/arduino/Uart.cpp:107-147 | Each switch maps a setting's own code back to that setting |
| UartPort.CharSizeDecodes | cores/arduino/Uart.cpp:118-133 | The character size decoded from a composed config word is the one it was composed with |
| UartPort.ParityDecodes | cores/arduino/Uart.cpp:135-147 | The parity decoded from a composed config word is the one it was composed with |
| UartPort.StopBitsDecode | cores/arduino/Uart.cpp:107-116 | The stop-bit count decoded from a composed config word is the one it was composed with |
| UartPort.DecodeEncode | cores/arduino/Uart.cpp:107-147 | With disjoint field masks, decoding a composed config word returns all three settings |
| UartPort.Example8E2 | cores/arduino/Uart.cpp:107-147 | With the ArduinoCore-API codes, `SERIAL_8E2` decodes to 8 bits, even parity, 2 stop bits |
| UartPort.BeginConfigCalls | cores/arduino/Uart.cpp:56-65 | Six calls: close; the baud rate; the character size, parity and stop bits decoded from `config`; open fifth, so the stop bits are set after reopening |
| UartPort.Uart.constructor | cores/arduino/Uart.cpp:31-46 | A USB port has a serial object but no connector; a COM port has both |
| UartPort.Uart.Begin | cores/arduino/Uart.cpp:48-54 | Close, speed, open with a port; nothing without one |
| UartPort.Uart.BeginWithConfig | cores/arduino/Uart.cpp:56-65 | The call log grows by `BeginConfigCalls` with a port; nothing without one |
| UartPort.Uart.End | cores/arduino/Uart.cpp:67-69 | The port is closed; the port is dereferenced unchecked, so it must exist |
| UartPort.Uart.Flush | cores/arduino/Uart.cpp:71-74 | Wait for transmit idle, then flush; the port must exist |
| UartPort.Uart.FlushInput | cores/arduino/Uart.cpp:76-78 | Input is flushed; the port must exist |
| UartPort.Uart.Available | cores/arduino/Uart.cpp:80-82 | 0 without a port, else the number of unread bytes |
| UartPort.Uart.AvailableForWrite | cores/arduino/Uart.cpp:84-86 | 0 without a port, else the port's transmit room |
| UartPort.Uart.Peek | cores/arduino/Uart.cpp:88-90 | −1 exactly when there is no port or nothing to read, else the next byte |
| UartPort.Uart.Read | cores/arduino/Uart.cpp:92-94 | As `Peek`, and the byte read is taken from the queue |
| UartPort.Uart.Write | cores/arduino/Uart.cpp:96-105 | With a port, one byte is sent and 1 reported; without one, 0 |
| UartPort.Uart.SetTtl | cores/arduino/Uart.cpp:150-159 | TTL for true and RS-232 for false on a COM connector; nothing on USB or without a port |
| UartPort.Uart.IsTtl | cores/arduino/Uart.cpp:160-165 | True exactly on a COM connector in TTL mode |
| UartPort.Uart.IsReady | cores/arduino/Uart.cpp:167-173 | The port's own readiness, and false without a port |
| ClockConversion.ClockCyclesPerMicrosecond | cores/arduino/Arduino.h:26 | Whole cycles per microsecond, rounded down |
| ClockConversion.MicrosecondsToClockCycles | cores/arduino/Arduino.h:28 | Never more cycles than the exact clock gives; exact when the clock is a whole number of MHz |
| ClockConversion.ClockCyclesToMicroseconds | cores/arduino/Arduino.h:27 | Whole microseconds rounded down, at the clock rounded down to whole kHz |
| ClockConversion.CyclesToMicrosecondsMonotone | cores/arduino/Arduino.h:27 | More cycles never give fewer microseconds |
| ClockConversion.RoundTripNeverOvershoots | cores/arduino/Arduino.h:26-28 | Microseconds to cycles and back never exceeds the input |
| ClockConversion.RoundTripExact | cores/arduino/Arduino.h:26-28 | With a whole-MHz clock, microseconds to cycles and back is the identity |
| ClockConversion.ClearCoreRates | variants/clearcore/variant.h:25 | At 120 MHz there are 120 cycles per µs, 1000 µs are 120000 cycles, and back |
| Ethernet.HostOne | cores/arduino/Ethernet.cpp:46-55 | The assumed DNS server and gateway are host 1 on the same /24 network |
| Ethernet.RetransmissionTimeout | cores/arduino/Ethernet.cpp:139-142 | The stored timeout is within 1..6553, equals the argument exactly when it is in range, and is clamped at each end |
| Ethernet.RetransmissionCount | cores/arduino/Ethernet.cpp:144-150 | At least one try is stored; the argument is kept exactly when it is nonzero |
| Ethernet.RetransmissionSettersIdempotent | cores/arduino/Ethernet.cpp:139-150 | Setting an already stored value stores it unchanged |
| Ethernet.EthernetClass.BeginDhcp | cores/arduino/Ethernet.cpp:33-44 | Returns the DHCP outcome; on success the local IP, gateway and netmask become the DHCP lease's and the DNS server becomes the one DHCP found; on failure the addresses are kept; the MAC is ignored |
| Ethernet.EthernetClass.BeginStatic | cores/arduino/Ethernet.cpp:64-78 | Stores local IP, gateway, netmask and DNS exactly as given |
| Ethernet.EthernetClass.BeginWithGateway | cores/arduino/Ethernet.cpp:58-62 | As `BeginStatic` with netmask 255.255.255.0 |
| Ethernet.EthernetClass.BeginWithDns | cores/arduino/Ethernet.cpp:53-56 | As above with the gateway at host 1 of `ip`'s network |
| Ethernet.EthernetClass.BeginWithIp | cores/arduino/Ethernet.cpp:48-51 | As above with the DNS server at host 1 too |
| Ethernet.EthernetClass.LinkStatus | cores/arduino/Ethernet.cpp:84-86 | LinkON exactly when the PHY link is active, otherwise LinkOFF |
| Ethernet.EthernetClass.HardwareStatus | cores/arduino/Ethernet.cpp:88-90 | Always EthernetBuiltIn |
| Ethernet.EthernetClass.Maintain | cores/arduino/Ethernet.cpp:92-97 | Refreshes the manager and returns 0 |
| Ethernet.EthernetClass.LocalIP | cores/arduino/Ethernet.cpp:103-105 | The stored local address |
| Ethernet.EthernetClass.SubnetMask | cores/arduino/Ethernet.cpp:107-109 | The stored netmask |
| Ethernet.EthernetClass.GatewayIP | cores/arduino/Ethernet.cpp:111-113 | The stored gateway |
| Ethernet.EthernetClass.DnsServerIP | cores/arduino/Ethernet.cpp:115-117 | The stored DNS server |
| Ethernet.EthernetClass.SetLocalIP | cores/arduino/Ethernet.cpp:123-125 | Writes the local address and nothing else |
| Ethernet.EthernetClass.SetSubnetMask | cores/arduino/Ethernet.cpp:127-129 | Writes the netmask and nothing else |
| Ethernet.EthernetClass.SetGatewayIP | cores/arduino/Ethernet.cpp:131-133 | Writes the gateway and nothing else |
| Ethernet.EthernetClass.SetDnsServerIP | cores/arduino/Ethernet.cpp:135-137 | Writes the DNS server and nothing else |
| Ethernet.EthernetClass.SetRetransmissionTimeout | cores/arduino/Ethernet.cpp:139-142 | Stores `RetransmissionTimeout(ms)` and nothing else |
| Ethernet.EthernetClass.SetRetransmissionCount | cores/arduino/Ethernet.cpp:144-150 | Stores `RetransmissionCount(number)` and nothing else |
| EthernetSockets.ConnectHostResult | cores/arduino/EthernetClient.cpp:18-48 | One of the five result codes; SUCCESS exactly for a resolved name that connects; TIMED_OUT, INVALID_SERVER and TRUNCATED exactly for their DNS errors |
| EthernetSockets.ConnectHostNeverZero | cores/arduino/EthernetClient.cpp:18-48 | Never 0; INVALID_RESPONSE exactly for a failed connect, ERR_ARG or an unknown error |
| EthernetSockets.EqualsBoolAsWritten | cores/arduino/Ethernet.h:265-267 | As written, `client == value` is `!value` for every client |
| EthernetSockets.NotEqualsBoolAsWritten | cores/arduino/Ethernet.h:268-270 | As written, `client != value` is `value` for every client |
| EthernetSockets.BoolComparisonIgnoresClient | cores/arduino/Ethernet.h:265-270 | For an open client, the operators as written answer the opposite of the corrected ones |
| EthernetSockets.EthernetClient.constructor | cores/arduino/EthernetClient.cpp:5-11 | Both constructors leave DNS uninitialised |
| EthernetSockets.EthernetClient.EqualsBool | cores/arduino/Ethernet.h:265-267 | Corrected: `client == value` exactly when the open state equals `value` |
| EthernetSockets.EthernetClient.NotEqualsBool | cores/arduino/Ethernet.h:268-270 | Corrected: the exact negation of `EqualsBool` |
| EthernetSockets.EthernetClient.EqualsClient | cores/arduino/EthernetClient.cpp:113-115 | Two clients are equal exactly when they wrap the same TCP client |
| EthernetSockets.EthernetClient.NotEqualsClient | cores/arduino/Ethernet.h:271-274 | The exact negation of `EqualsClient` |
| EthernetSockets.EthernetClient.Connected | cores/arduino/EthernetClient.cpp:82-87 | 1 exactly when unread bytes remain or the link is up, else 0 |
| EthernetSockets.EthernetClient.ConnectIp | cores/arduino/EthernetClient.cpp:13-16 | 1 when the TCP connect succeeds, 0 otherwise |
| EthernetSockets.EthernetClient.ConnectHost | cores/arduino/EthernetClient.cpp:18-48 | Returns `ConnectHostResult`, and connects only to a resolved address |
| EthernetSockets.EthernetClient.WriteBuffer | cores/arduino/EthernetClient.cpp:55-57 | Hands the buffer to the TCP client and returns what it reports |
| EthernetSockets.EthernetClient.WriteByte | cores/arduino/EthernetClient.cpp:51-53 | `write(c)` is `write(&c, 1)` |
| EthernetSockets.ComparisonsAgree | cores/arduino/Ethernet.h:265-274 | Corrected `== true` is the open state; each `!=` negates its `==`; client equality is an equivalence |
| EthernetSockets.BeginMulticast | cores/arduino/Ethernet.h:115-117 | Always 0 |
| EthernetSockets.EthernetServer.constructor | cores/arduino/Ethernet.h:185 | The default port is 80 |

## Left out

- The ClearCore driver library: `SysMgr`, `AdcMgr`, the motor driver and the `DigitalInOut`/`CcioPin` pulse generators. Connectors are abstract records. Whether a mode is accepted, and in which modes a connector is writable, are sets fixed per connector. Pulse-train and tone timing belong to the driver and appear only as logged calls.
- The pin numbers of `pins_arduino.h` (`CLEARCORE_PIN_MAX`, `M0..M3`, `Mn_INA`, `Mn_INB`) are parameters of the board. `pins_arduino.h` is not part of this model.
- The `SERIAL_*` constants of `HardwareSerial.h` are parameters of the UART object. `HardwareSerial.h` is not part of this model.
- Interrupt plumbing in variant.cpp (`attachInterrupt`, `detachInterrupt`, `interrupts`, `noInterrupts`, `digitalPinToInterrupt`). It registers callbacks and touches interrupt hardware.
- `banzai` in Reset.cpp. Erasing NVM and resetting the system are an abstract "fired" flag.
- `delay.cpp`, `main.cpp` and `sync.h`. They are the SysTick handlers, the endless setup/loop driver and an interrupt-masking guard: interrupt context and concurrency.
- Floating point:
  - The millivolt and microamp roundings use exact integer formulas that give the same results.
  - `toneVolume` takes the already-scaled amplitude as a parameter.
  - `PI`, `radians` and `degrees` are not modelled.
- ToneOutput.NoTone: the driver's tone state is an input. The model does not track how the driver changes it after `tone` or `noTone`.
- Variant.Board.DigitalWrite and Variant.Board.AnalogWrite: the connector's `State(int16_t)` setter is modelled as storing the full integer. Truncation to 16 bits is inside the driver.
- Variant.Board.AnalogRead: the ADC manager's handling of an unsupported resolution is the driver's. The model stores what `analogReadResolution` is given.
- `pulseInLong` needs a trace long enough to reach the deadline (`Covers`). The real loops poll a live clock instead.
- Common.BitSet, Common.BitClear and Common.BitWrite: the macros assign into their argument. The model returns the new value, and a caller writes `v := BitSet(v, b)`.
- ClockConversion.MicrosecondsToClockCycles and ClockConversion.ClockCyclesToMicroseconds: unbounded integers. The 32-bit overflow of `a * 1000L` and `a * (SystemCoreClock / 1000000L)` for large `a` is not modelled.
- Forwarders with no logic of their own:
  - `EthernetUDP.cpp` and `EthernetServer.cpp` beyond the default port;
  - the read, peek, flush, stop, port and timeout forwarders of `EthernetClient`;
  - the buffer contents of SPI transfers, and the DMA engine;
  - `SPIClass` interrupt stubs.
  All of these forward one-to-one to code that is not part of this model.
- The UART port's `CharPeek`/`CharGet` are modelled as a byte queue that answers −1 when empty. `serialEventRun` is not modelled.
- `EthernetClass::convertIp`, `MACAddress`, `setMACAddress` and `init`. They are byte-order conversions of foreign types, or no-ops.
- EthernetSockets.EthernetClient.EqualsClient: the foreign `EthernetTcpClient::operator==` is taken to compare one identity, `handle`.
- Ethernet.EthernetClass.BeginDhcp: the DHCP exchange belongs to the driver and lwIP. Its outcome and its lease (local IP, gateway, netmask) are inputs. After a failed exchange the stored addresses are taken to be unchanged, because what lwIP leaves on the interface then is not part of this model.
- `keywordify.py`, a build script that scrapes headers with regular expressions.

## Findings

| source | as written | input that shows it | evidently intended | confidence | as-written member | corrected member |
|---|---|---|---|---|---|---|
| cores/arduino/Ethernet.h:265-270 | `operator==(bool value)` returns `bool() == value`. `bool()` is a value-initialised `bool`, i.e. `false`, not the client's own `operator bool()`. So `==` returns `!value` and `!=` returns `value` for every client | an open client `c`: `c == true` is false and `c != true` is true | compare the client's connection state: `(bool)*this == value` | high; not executed | EthernetSockets.EqualsBoolAsWritten, EthernetSockets.NotEqualsBoolAsWritten, EthernetSockets.BoolComparisonIgnoresClient | EthernetSockets.EthernetClient.EqualsBool, EthernetSockets.EthernetClient.NotEqualsBool |
