/** The cycle/microsecond macros of cores/arduino/Arduino.h, over the core
    clock `SystemCoreClock` in Hz. The arithmetic is on unbounded integers;
    the 32-bit C arithmetic of the macros is not modelled. */
module ClockConversion {
  import opened Arith

  /** `VARIANT_MCK`, the ClearCore core clock. */
  const CLEARCORE_CLOCK: nat := 120_000_000

  /** `clockCyclesPerMicrosecond()`: whole cycles per microsecond, rounded
      down. */
  function ClockCyclesPerMicrosecond(clock: nat): (r: nat)
    ensures r * 1_000_000 <= clock < (r + 1) * 1_000_000
  {
    DivBracket(clock, 1_000_000);
    clock / 1_000_000
  }

  /** `microsecondsToClockCycles(a)`: `a` microseconds at the rounded-down
      cycles-per-microsecond rate, never more than `a` microseconds' worth
      of cycles at the exact clock. */
  function MicrosecondsToClockCycles(clock: nat, a: nat): (r: nat)
    ensures r * 1_000_000 <= a * clock
    ensures clock % 1_000_000 == 0 ==> r * 1_000_000 == a * clock
  {
    var perUs := ClockCyclesPerMicrosecond(clock);
    assert a * perUs * 1_000_000 <= a * clock by {
      assert a * perUs * 1_000_000 == a * (perUs * 1_000_000);
    }
    assert clock % 1_000_000 == 0 ==> perUs * 1_000_000 == clock;
    assert clock % 1_000_000 == 0 ==> a * perUs * 1_000_000 == a * clock by {
      assert a * perUs * 1_000_000 == a * (perUs * 1_000_000);
    }
    a * perUs
  }

  /** `clockCyclesToMicroseconds(a)`: `a` cycles in whole microseconds,
      rounded down, at the clock rounded down to whole kHz. A clock below
      1 kHz would divide by zero. */
  function ClockCyclesToMicroseconds(clock: nat, a: nat): (r: nat)
    requires clock / 1000 > 0
    ensures r * (clock / 1000) <= a * 1000 < (r + 1) * (clock / 1000)
  {
    var cycles, perMs := a * 1000, clock / 1000;
    DivBracket(cycles, perMs);
    cycles / perMs
  }

  /** More cycles never give fewer microseconds. */
  lemma CyclesToMicrosecondsMonotone(clock: nat, a: nat, b: nat)
    requires clock / 1000 > 0 && a <= b
    ensures ClockCyclesToMicroseconds(clock, a) <= ClockCyclesToMicroseconds(clock, b)
  {
    DivMonotone(a * 1000, b * 1000, clock / 1000);
  }

  /** Converting microseconds to cycles and back never gives more than
      was put in. */
  lemma RoundTripNeverOvershoots(clock: nat, a: nat)
    requires clock / 1000 > 0
    ensures ClockCyclesToMicroseconds(clock, MicrosecondsToClockCycles(clock, a)) <= a
  {
    var perUs, perMs := clock / 1_000_000, clock / 1000;
    assert perUs * 1000 <= perMs by {
      DivBracket(clock, 1_000_000);
      DivBracket(clock, 1000);
      assert (perUs * 1000) * 1000 < (perMs + 1) * 1000;
      MulCancelLess(perUs * 1000, perMs + 1, 1000);
    }
    var cycles := MicrosecondsToClockCycles(clock, a);
    assert cycles * 1000 <= a * perMs by {
      assert cycles * 1000 == a * (perUs * 1000);
      MulMonotone(a, perUs * 1000, perMs);
    }
    DivMonotone(cycles * 1000, a * perMs, perMs);
    MulDiv(a, perMs);
  }

  /** When the clock is a whole number of MHz, as the ClearCore's 120 MHz
      is, converting microseconds to cycles and back is exact. */
  lemma RoundTripExact(clock: nat, a: nat)
    requires clock >= 1_000_000 && clock % 1_000_000 == 0
    ensures ClockCyclesToMicroseconds(clock, MicrosecondsToClockCycles(clock, a)) == a
  {
    var perUs := clock / 1_000_000;
    assert clock == perUs * 1_000_000;
    assert clock / 1000 == perUs * 1000;
    assert MicrosecondsToClockCycles(clock, a) * 1000 == a * (perUs * 1000);
    MulDiv(a, perUs * 1000);
  }

  /** At the ClearCore clock: 120 cycles per microsecond. */
  lemma ClearCoreRates()
    ensures ClockCyclesPerMicrosecond(CLEARCORE_CLOCK) == 120
    ensures MicrosecondsToClockCycles(CLEARCORE_CLOCK, 1000) == 120_000
    ensures ClockCyclesToMicroseconds(CLEARCORE_CLOCK, 120_000) == 1000
  {
  }
}
