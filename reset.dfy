/** The delayed software reset of cores/arduino/Reset.cpp: one signed
    counter, `ticks`, that `initiateReset` arms, `cancelReset` disarms (-1)
    and `tickReset` counts down, resetting the board when it reaches 0. The
    reset itself (`banzai`: NVM controller handling and an NVIC system
    reset) is an abstract event here. */
module Reset {

  const INT32_MIN: int := -0x8000_0000
  const INT32_MAX: int := 0x7FFF_FFFF
  type int32 = x: int | INT32_MIN <= x <= INT32_MAX

  /** The disarmed value of `ticks`. */
  const DISARMED: int32 := -1

  /** One `tickReset` from `ticks`: the new counter and whether the reset
      fires. Decrementing `INT32_MIN` would overflow, which is undefined in
      C. */
  function Tick(ticks: int32): (r: (int32, bool))
    requires ticks != INT32_MIN
    ensures ticks == DISARMED ==> r == (ticks, false)
    ensures ticks != DISARMED ==> r.0 == ticks - 1
    ensures r.1 <==> ticks == 1
  {
    if ticks == DISARMED then (ticks, false)
    else
      var next := ticks - 1;
      (next, next == 0)
  }

  /** `k` ticks from `ticks`: the final counter and whether the reset fired
      on any of them. */
  function Run(ticks: int32, k: nat): (r: (int32, bool))
    requires ticks < DISARMED ==> ticks - k >= INT32_MIN
    decreases k
  {
    if k == 0 then (ticks, false)
    else
      var step := Tick(ticks);
      var rest := Run(step.0, k - 1);
      (rest.0, step.1 || rest.1)
  }

  /** Armed with `n >= 1`, the countdown fires on exactly the n-th tick and
      on none before it. */
  lemma {:induction false} FiresOnNthTick(n: int32, k: nat)
    requires n >= 1 && k <= n
    ensures k < n ==> Run(n, k) == (n - k, false)
    ensures k == n ==> Run(n, k) == (0, true)
    decreases k
  {
    if k > 0 {
      var step := Tick(n);
      if n == 1 {
        assert Run(step.0, k - 1) == (0, false);
      } else {
        FiresOnNthTick(n - 1, k - 1);
      }
    }
  }

  /** Once disarmed, ticking changes nothing and never fires. */
  lemma {:induction false} DisarmedStaysQuiet(k: nat)
    ensures Run(DISARMED, k) == (DISARMED, false)
    decreases k
  {
    if k > 0 {
      DisarmedStaysQuiet(k - 1);
    }
  }

  /** `initiateReset(0)` never resets: the first tick reaches -1, which is
      the disarmed value. */
  lemma NeverFiresFromZero(k: nat)
    ensures !Run(0, k).1
    ensures k >= 1 ==> Run(0, k).0 == DISARMED
  {
    if k > 0 {
      DisarmedStaysQuiet(k - 1);
    }
  }

  /** Armed with `n < -1`, the counter moves away from 0 and never fires
      while it stays within the 32-bit range. */
  lemma {:induction false} NeverFiresBelowDisarmed(n: int32, k: nat)
    requires n < DISARMED && n - k >= INT32_MIN
    ensures Run(n, k) == (n - k, false)
    decreases k
  {
    if k > 0 {
      NeverFiresBelowDisarmed(n - 1, k - 1);
    }
  }

  /** The static counter and the reset event. */
  class ResetCountdown {
    var ticks: int32
    var fired: bool

    /** `static int ticks = -1`: disarmed at start. */
    constructor ()
      ensures ticks == DISARMED && !fired
    {
      ticks := DISARMED;
      fired := false;
    }

    /** `initiateReset(n)` replaces any countdown in progress. */
    method InitiateReset(n: int32)
      modifies this
      ensures ticks == n && fired == old(fired)
    {
      ticks := n;
    }

    /** `cancelReset()`. */
    method CancelReset()
      modifies this
      ensures ticks == DISARMED && fired == old(fired)
    {
      ticks := DISARMED;
    }

    /** `tickReset()`. */
    method TickReset()
      requires ticks != INT32_MIN
      modifies this
      ensures (ticks, fired) == (Tick(old(ticks)).0, old(fired) || Tick(old(ticks)).1)
    {
      if ticks == DISARMED {
        return;
      }
      ticks := ticks - 1;
      if ticks == 0 {
        fired := true;
      }
    }
  }
}
