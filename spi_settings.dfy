/** The constants and the `SPISettings` value of cores/arduino/api/SPI.h. */
module SpiSettings {
  import opened Common

  const SPI_MODE0: uint8 := 0x00
  const SPI_MODE1: uint8 := 0x01
  const SPI_MODE2: uint8 := 0x02
  const SPI_MODE3: uint8 := 0x03

  const MAX_SPI: uint32 := 10000000
  const SPI_MIN_CLOCK_DIVIDER: uint8 := 1

  // The AVR-compatible dividers, written as `MAX_SPI * 2 / f` in integer
  // arithmetic.
  const SPI_CLOCK_DIV2: uint8 := MAX_SPI * 2 / 8000000
  const SPI_CLOCK_DIV4: uint8 := MAX_SPI * 2 / 4000000
  const SPI_CLOCK_DIV8: uint8 := MAX_SPI * 2 / 2000000
  const SPI_CLOCK_DIV16: uint8 := MAX_SPI * 2 / 1000000
  const SPI_CLOCK_DIV32: uint8 := MAX_SPI * 2 / 500000
  const SPI_CLOCK_DIV64: uint8 := MAX_SPI * 2 / 250000
  const SPI_CLOCK_DIV128: uint8 := MAX_SPI * 2 / 125000

  /** `SPISettings`: clock frequency, bit order and data mode. */
  datatype Settings = Settings(clockFreq: uint32, bitOrder: BitOrder, dataMode: uint8)

  /** `SPISettings(clock, bitOrder, dataMode)` stores its arguments
      unchanged. */
  function MakeSettings(clock: uint32, bitOrder: BitOrder, dataMode: uint8): (s: Settings)
    ensures s.clockFreq == clock && s.bitOrder == bitOrder && s.dataMode == dataMode
  {
    Settings(clock, bitOrder, dataMode)
  }

  /** `SPISettings()`: 10 MHz (its comment says 4 MHz), MSB first, mode 0. */
  function DefaultSettings(): (s: Settings)
    ensures s == MakeSettings(MAX_SPI, MsbFirst, SPI_MODE0)
  {
    Settings(10000000, MsbFirst, SPI_MODE0)
  }

  /** The clock dividers evaluate to 2, 5, 10, 20, 40, 80 and 160: all
      nonzero and strictly increasing, so each is a valid argument of
      `setClockDivider`, and the clocks they select strictly decrease. */
  lemma ClockDividers()
    ensures [SPI_CLOCK_DIV2, SPI_CLOCK_DIV4, SPI_CLOCK_DIV8, SPI_CLOCK_DIV16,
             SPI_CLOCK_DIV32, SPI_CLOCK_DIV64, SPI_CLOCK_DIV128] == [2, 5, 10, 20, 40, 80, 160]
    ensures 0 < SPI_CLOCK_DIV2 < SPI_CLOCK_DIV4 < SPI_CLOCK_DIV8 < SPI_CLOCK_DIV16
              < SPI_CLOCK_DIV32 < SPI_CLOCK_DIV64 < SPI_CLOCK_DIV128
    ensures MAX_SPI / SPI_CLOCK_DIV2 == 5000000 && MAX_SPI / SPI_CLOCK_DIV128 == 62500
  {
  }

  /** The data modes are numbered 0..3, the usual CPOL * 2 + CPHA, and the
      fastest clock is 10 MHz with a smallest divider of 1. */
  lemma SpiConstants()
    ensures [SPI_MODE0, SPI_MODE1, SPI_MODE2, SPI_MODE3] == [0, 1, 2, 3]
    ensures MAX_SPI == 10000000 && MAX_SPI / SPI_MIN_CLOCK_DIVIDER == MAX_SPI
  {
  }
}
