/** The busy-wait core of `pulseInLong` (variants/clearcore/variant.cpp).

    The environment is an injected trace: every call of the connector's
    `State()` takes the next entry of `states`, every call of `micros()` the
    next entry of `times`. `times` holds the real microsecond count, which
    is unbounded; `micros()` returns it as a 32-bit `unsigned long`, so it
    wraps modulo 2^32, and so does every `now - startTime`. */
module PulseTiming {
  import opened Common

  datatype Trace = Trace(states: seq<int>, times: seq<nat>)

  /** `micros()`: the real count as a 32-bit `unsigned long`. */
  function Micros(t: nat): uint32
  {
    t % TWO_POW_32
  }

  /** `now - start` in 32-bit unsigned arithmetic. */
  function Elapsed(now: uint32, start: uint32): uint32
  {
    (now - start) % TWO_POW_32
  }

  /** Over less than 2^32 microseconds the wrapped difference is the real one. */
  lemma ElapsedIsReal(a: nat, b: nat)
    requires a <= b < a + TWO_POW_32
    ensures Elapsed(Micros(b), Micros(a)) == b - a
  {
    var qa, qb := a / TWO_POW_32, b / TWO_POW_32;
    assert a == qa * TWO_POW_32 + Micros(a);
    assert b == qb * TWO_POW_32 + Micros(b);
    var diff := Micros(b) - Micros(a);
    assert diff == (b - a) - (qb - qa) * TWO_POW_32;
    if diff < 0 {
      assert qb - qa == 1 by {
        assert (qb - qa) * TWO_POW_32 > b - a >= 0;
        assert (qb - qa) * TWO_POW_32 < 2 * TWO_POW_32;
      }
      assert diff + TWO_POW_32 == b - a;
    } else {
      assert qb - qa == 0 by {
        assert (qb - qa) * TWO_POW_32 <= b - a < TWO_POW_32;
        assert (qb - qa) * TWO_POW_32 >= 0;
      }
    }
  }

  /** The trace lets every loop reach the deadline: it has a `State()`
      sample for every clock reading, and its last three clock readings are
      all at least `timeout` after the first. The real loops need no such
      bound; it is what makes a finite trace long enough. */
  ghost predicate Covers(tr: Trace, timeout: uint32)
  {
    && 3 <= |tr.times| <= |tr.states|
    && forall k | |tr.times| - 3 <= k < |tr.times| ::
         Elapsed(Micros(tr.times[k]), Micros(tr.times[0])) >= timeout
  }

  /** Phase 1, "twiddle your thumbs until the previous pulse ends": the
      next clock reading is `times[t]` and the next sample `states[t - 1]`. */
  function DrainPhase(desired: int, timeout: uint32, tr: Trace, start: uint32, t: nat): uint32
    requires Covers(tr, timeout) && start == Micros(tr.times[0])
    requires 1 <= t <= |tr.times| - 2
    decreases |tr.times| - t, 2
  {
    if tr.states[t - 1] == desired then
      if Elapsed(Micros(tr.times[t]), start) < timeout then
        DrainPhase(desired, timeout, tr, start, t + 1)
      else
        0
    else
      AwaitPhase(desired, timeout, tr, start, t)
  }

  /** Phase 2, "wait for a new pulse to begin": the next clock reading is
      `times[t]` and the next sample `states[t]`. */
  function AwaitPhase(desired: int, timeout: uint32, tr: Trace, start: uint32, t: nat): uint32
    requires Covers(tr, timeout) && start == Micros(tr.times[0])
    requires 1 <= t <= |tr.times| - 2
    decreases |tr.times| - t, 1
  {
    if tr.states[t] != desired then
      if Elapsed(Micros(tr.times[t]), start) < timeout then
        AwaitPhase(desired, timeout, tr, start, t + 1)
      else
        0
    else
      MeasurePhase(desired, timeout, tr, start, Micros(tr.times[t]), t + 1)
  }

  /** Phase 3, "wait for the pulse to end", then the final check against
      the same `start`: the pulse began at reading `begin`. */
  function MeasurePhase(desired: int, timeout: uint32, tr: Trace, start: uint32, begin: uint32, t: nat): uint32
    requires Covers(tr, timeout) && start == Micros(tr.times[0])
    requires 1 <= t <= |tr.times| - 1
    decreases |tr.times| - t, 0
  {
    if tr.states[t] == desired then
      if Elapsed(Micros(tr.times[t]), start) < timeout then
        MeasurePhase(desired, timeout, tr, start, begin, t + 1)
      else
        0
    else
      var currentTime := Micros(tr.times[t]);
      if Elapsed(currentTime, start) < timeout then Elapsed(currentTime, begin) else 0
  }

  /** What `pulseInLong` returns once the connector is a digital input:
      `startTime` is the first clock reading and all three phases share it. */
  function PulseWidth(desired: int, timeout: uint32, tr: Trace): uint32
    requires Covers(tr, timeout)
  {
    DrainPhase(desired, timeout, tr, Micros(tr.times[0]), 1)
  }

  /** The three polling loops of `pulseInLong`, reading the trace one call
      at a time. */
  method MeasurePulse(desired: int, timeout: uint32, tr: Trace) returns (width: uint32)
    requires Covers(tr, timeout)
    ensures width == PulseWidth(desired, timeout, tr)
  {
    var s, t := 0, 0;  // next State() sample, next micros() reading
    var startTime := Micros(tr.times[t]);
    t := t + 1;

    // twiddle your thumbs until the previous pulse ends
    var level := tr.states[s];
    s := s + 1;
    while level == desired
      invariant 1 <= t <= |tr.times| - 2 && s == t
      invariant startTime == Micros(tr.times[0]) && level == tr.states[t - 1]
      invariant PulseWidth(desired, timeout, tr) == DrainPhase(desired, timeout, tr, startTime, t)
      decreases |tr.times| - t
    {
      var now := Micros(tr.times[t]);
      t := t + 1;
      if Elapsed(now, startTime) >= timeout {
        return 0;
      }
      level := tr.states[s];
      s := s + 1;
    }

    // wait for a new pulse to begin
    level := tr.states[s];
    s := s + 1;
    while level != desired
      invariant 1 <= t <= |tr.times| - 2 && s == t + 1
      invariant startTime == Micros(tr.times[0]) && level == tr.states[t]
      invariant PulseWidth(desired, timeout, tr) == AwaitPhase(desired, timeout, tr, startTime, t)
      decreases |tr.times| - t
    {
      var now := Micros(tr.times[t]);
      t := t + 1;
      if Elapsed(now, startTime) >= timeout {
        return 0;
      }
      level := tr.states[s];
      s := s + 1;
    }

    // wait for the pulse to end
    var pulseBegin := Micros(tr.times[t]);
    t := t + 1;
    level := tr.states[s];
    s := s + 1;
    while level == desired
      invariant 1 <= t <= |tr.times| - 1 && s == t + 1
      invariant startTime == Micros(tr.times[0]) && level == tr.states[t]
      invariant PulseWidth(desired, timeout, tr) == MeasurePhase(desired, timeout, tr, startTime, pulseBegin, t)
      decreases |tr.times| - t
    {
      var now := Micros(tr.times[t]);
      t := t + 1;
      if Elapsed(now, startTime) >= timeout {
        return 0;
      }
      level := tr.states[s];
      s := s + 1;
    }

    var currentTime := Micros(tr.times[t]);
    if Elapsed(currentTime, startTime) < timeout {
      width := Elapsed(currentTime, pulseBegin);
    } else {
      width := 0;
    }
  }

  /** The real clock never runs backwards and the trace spans less than
      2^32 microseconds (about 71 minutes). */
  ghost predicate MonotoneClock(times: seq<nat>)
  {
    && (forall i, j | 0 <= i <= j < |times| :: times[i] <= times[j])
    && (|times| > 0 ==> times[|times| - 1] < times[0] + TWO_POW_32)
  }

  /** The samples show a complete pulse: the level is `desired` up to `i`
      (a pulse already in progress), not `desired` from `i` up to `b`,
      `desired` from `b` up to `e`, and not `desired` at `e`. */
  ghost predicate ObservedPulse(desired: int, tr: Trace, i: nat, b: nat, e: nat)
  {
    && i < b < e < |tr.times| <= |tr.states|
    && (forall k | 0 <= k < i :: tr.states[k] == desired)
    && (forall k | i <= k < b :: tr.states[k] != desired)
    && (forall k | b <= k < e :: tr.states[k] == desired)
    && tr.states[e] != desired
  }

  lemma {:induction false} MeasurePhaseSpec(desired: int, timeout: uint32, tr: Trace, i: nat, b: nat, t: nat)
    returns (e: nat)
    requires Covers(tr, timeout) && MonotoneClock(tr.times)
    requires 1 <= t <= |tr.times| - 1 && i < b < t
    requires (forall k | 0 <= k < i :: tr.states[k] == desired)
    requires (forall k | i <= k < b :: tr.states[k] != desired)
    requires (forall k | b <= k < t :: tr.states[k] == desired)
    ensures var r := MeasurePhase(desired, timeout, tr, Micros(tr.times[0]), Micros(tr.times[b]), t);
      r != 0 ==>
        && ObservedPulse(desired, tr, i, b, e)
        && r == tr.times[e] - tr.times[b]
        && tr.times[e] - tr.times[0] < timeout
    decreases |tr.times| - t
  {
    var start := Micros(tr.times[0]);
    if tr.states[t] == desired {
      if Elapsed(Micros(tr.times[t]), start) < timeout {
        e := MeasurePhaseSpec(desired, timeout, tr, i, b, t + 1);
      } else {
        e := t;
      }
    } else {
      e := t;
      if Elapsed(Micros(tr.times[t]), start) < timeout {
        ElapsedIsReal(tr.times[0], tr.times[t]);
        ElapsedIsReal(tr.times[b], tr.times[t]);
      }
    }
  }

  lemma {:induction false} AwaitPhaseSpec(desired: int, timeout: uint32, tr: Trace, i: nat, t: nat)
    returns (b: nat, e: nat)
    requires Covers(tr, timeout) && MonotoneClock(tr.times)
    requires 1 <= t <= |tr.times| - 2 && i < t
    requires (forall k | 0 <= k < i :: tr.states[k] == desired)
    requires (forall k | i <= k < t :: tr.states[k] != desired)
    ensures var r := AwaitPhase(desired, timeout, tr, Micros(tr.times[0]), t);
      r != 0 ==>
        && ObservedPulse(desired, tr, i, b, e)
        && r == tr.times[e] - tr.times[b]
        && tr.times[e] - tr.times[0] < timeout
    decreases |tr.times| - t
  {
    var start := Micros(tr.times[0]);
    if tr.states[t] != desired {
      if Elapsed(Micros(tr.times[t]), start) < timeout {
        b, e := AwaitPhaseSpec(desired, timeout, tr, i, t + 1);
      } else {
        b, e := t, t;
      }
    } else {
      b := t;
      e := MeasurePhaseSpec(desired, timeout, tr, i, b, t + 1);
    }
  }

  lemma {:induction false} DrainPhaseSpec(desired: int, timeout: uint32, tr: Trace, t: nat)
    returns (i: nat, b: nat, e: nat)
    requires Covers(tr, timeout) && MonotoneClock(tr.times)
    requires 1 <= t <= |tr.times| - 2
    requires forall k | 0 <= k < t - 1 :: tr.states[k] == desired
    ensures var r := DrainPhase(desired, timeout, tr, Micros(tr.times[0]), t);
      r != 0 ==>
        && ObservedPulse(desired, tr, i, b, e)
        && r == tr.times[e] - tr.times[b]
        && tr.times[e] - tr.times[0] < timeout
    decreases |tr.times| - t
  {
    var start := Micros(tr.times[0]);
    if tr.states[t - 1] == desired {
      if Elapsed(Micros(tr.times[t]), start) < timeout {
        i, b, e := DrainPhaseSpec(desired, timeout, tr, t + 1);
      } else {
        i, b, e := 0, 0, 0;
      }
    } else {
      i := t - 1;
      b, e := AwaitPhaseSpec(desired, timeout, tr, i, t);
    }
  }

  /** With a monotone clock, a nonzero width is the real duration of a
      complete pulse that started after a stretch at the other level (so a
      pulse already in progress on entry is skipped), and the pulse ended
      less than `timeout` after the single `startTime`; so it is itself
      less than `timeout`. */
  lemma PulseWidthIsObservedPulse(desired: int, timeout: uint32, tr: Trace)
    returns (i: nat, b: nat, e: nat)
    requires Covers(tr, timeout) && MonotoneClock(tr.times)
    ensures var r := PulseWidth(desired, timeout, tr);
      r != 0 ==>
        && ObservedPulse(desired, tr, i, b, e)
        && r == tr.times[e] - tr.times[b]
        && tr.times[e] - tr.times[0] < timeout
        && r < timeout
  {
    i, b, e := DrainPhaseSpec(desired, timeout, tr, 1);
  }

  /** A reading less than `timeout` after the first is not one of the last
      three, which `Covers` puts at or past the deadline. */
  lemma BeforeDeadlineLeavesRoom(timeout: uint32, tr: Trace, k: nat)
    requires Covers(tr, timeout) && MonotoneClock(tr.times)
    requires k < |tr.times| && tr.times[k] - tr.times[0] < timeout
    ensures k < |tr.times| - 3
  {
    if k >= |tr.times| - 3 {
      ElapsedIsReal(tr.times[0], tr.times[k]);
    }
  }

  /** Completeness of phase 3: from inside an observed pulse that ends
      before the deadline, the loop runs to its falling edge at `e` and
      returns its real duration. */
  lemma {:induction false} MeasurePhaseFinds(desired: int, timeout: uint32, tr: Trace, i: nat, b: nat, e: nat, t: nat)
    requires Covers(tr, timeout) && MonotoneClock(tr.times)
    requires ObservedPulse(desired, tr, i, b, e) && tr.times[e] - tr.times[0] < timeout
    requires b < t <= e
    ensures MeasurePhase(desired, timeout, tr, Micros(tr.times[0]), Micros(tr.times[b]), t) == tr.times[e] - tr.times[b]
    decreases e - t
  {
    ElapsedIsReal(tr.times[0], tr.times[t]);
    if t < e {
      MeasurePhaseFinds(desired, timeout, tr, i, b, e, t + 1);
    } else {
      ElapsedIsReal(tr.times[b], tr.times[e]);
    }
  }

  /** Completeness of phases 2–3: from the stretch at the other level, the
      loop waits for the rising edge at `b` and then measures the pulse. */
  lemma {:induction false} AwaitPhaseFinds(desired: int, timeout: uint32, tr: Trace, i: nat, b: nat, e: nat, t: nat)
    requires Covers(tr, timeout) && MonotoneClock(tr.times)
    requires ObservedPulse(desired, tr, i, b, e) && tr.times[e] - tr.times[0] < timeout
    requires i < t <= b
    ensures t <= |tr.times| - 2
    ensures AwaitPhase(desired, timeout, tr, Micros(tr.times[0]), t) == tr.times[e] - tr.times[b]
    decreases b - t
  {
    BeforeDeadlineLeavesRoom(timeout, tr, e);
    if t < b {
      ElapsedIsReal(tr.times[0], tr.times[t]);
      AwaitPhaseFinds(desired, timeout, tr, i, b, e, t + 1);
    } else {
      MeasurePhaseFinds(desired, timeout, tr, i, b, e, b + 1);
    }
  }

  /** Completeness of the whole measurement from reading `t`: the pulse in
      progress up to `i` is skipped, then the observed pulse is measured. */
  lemma {:induction false} DrainPhaseFinds(desired: int, timeout: uint32, tr: Trace, i: nat, b: nat, e: nat, t: nat)
    requires Covers(tr, timeout) && MonotoneClock(tr.times)
    requires ObservedPulse(desired, tr, i, b, e) && tr.times[e] - tr.times[0] < timeout
    requires 1 <= t <= i + 1
    ensures t <= |tr.times| - 2
    ensures DrainPhase(desired, timeout, tr, Micros(tr.times[0]), t) == tr.times[e] - tr.times[b]
    decreases i + 1 - t
  {
    BeforeDeadlineLeavesRoom(timeout, tr, e);
    if t - 1 < i {
      ElapsedIsReal(tr.times[0], tr.times[t]);
      DrainPhaseFinds(desired, timeout, tr, i, b, e, t + 1);
    } else {
      AwaitPhaseFinds(desired, timeout, tr, i, b, e, t);
    }
  }

  /** The converse of `PulseWidthIsObservedPulse`: with a monotone clock,
      a complete pulse that ends less than `timeout` after `startTime` is
      reported, with its real duration. */
  lemma PulseWidthFindsObservedPulse(desired: int, timeout: uint32, tr: Trace, i: nat, b: nat, e: nat)
    requires Covers(tr, timeout) && MonotoneClock(tr.times)
    requires ObservedPulse(desired, tr, i, b, e) && tr.times[e] - tr.times[0] < timeout
    ensures PulseWidth(desired, timeout, tr) == tr.times[e] - tr.times[b]
  {
    DrainPhaseFinds(desired, timeout, tr, i, b, e, 1);
  }

  /** A nonzero width needs both edges: a sample at the other level
      followed by one at the desired level. A signal stuck at one level
      gives 0, since the budget runs out instead of restarting per phase. */
  lemma NonzeroWidthNeedsBothEdges(desired: int, timeout: uint32, tr: Trace)
    requires Covers(tr, timeout) && MonotoneClock(tr.times)
    ensures PulseWidth(desired, timeout, tr) != 0 ==>
      exists j, k | 0 <= j < k < |tr.states| :: tr.states[j] != desired && tr.states[k] == desired
  {
    var i, b, e := PulseWidthIsObservedPulse(desired, timeout, tr);
    if PulseWidth(desired, timeout, tr) != 0 {
      assert tr.states[i] != desired && tr.states[b] == desired;
    }
  }

  /** A zero timeout always gives 0, whatever the samples. */
  lemma ZeroTimeoutGivesZero(desired: int, tr: Trace)
    requires Covers(tr, 0)
    ensures PulseWidth(desired, 0, tr) == 0
  {
    var start := Micros(tr.times[0]);
    if tr.states[0] != desired && tr.states[1] == desired {
      assert AwaitPhase(desired, 0, tr, start, 1) == MeasurePhase(desired, 0, tr, start, Micros(tr.times[1]), 2);
    }
  }

  /** The level is LOW until 500 µs, HIGH until 1300 µs, then LOW again:
      measuring a HIGH pulse with a 2000 µs timeout gives 800 µs. */
  lemma HighPulseExample()
    ensures var tr := Trace([0, 0, 1, 1, 0, 0, 0, 0], [0, 100, 500, 1000, 1300, 2000, 2000, 2000]);
      Covers(tr, 2000) && PulseWidth(HIGH, 2000, tr) == 800
  {
    var tr := Trace([0, 0, 1, 1, 0, 0, 0, 0], [0, 100, 500, 1000, 1300, 2000, 2000, 2000]);
    assert Covers(tr, 2000);
    assert MeasurePhase(HIGH, 2000, tr, 0, 500, 4) == 800;
    assert MeasurePhase(HIGH, 2000, tr, 0, 500, 3) == 800;
    assert AwaitPhase(HIGH, 2000, tr, 0, 2) == 800;
    assert AwaitPhase(HIGH, 2000, tr, 0, 1) == 800;
  }
}
