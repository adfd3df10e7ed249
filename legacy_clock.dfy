/** The oldest revision of the clock: no lifecycle flag, no platform layer. The time source
    is the processor clock in seconds (`clock() / CLOCKS_PER_SEC`), which every call that
    reads it receives as the parameter `now`. The adaptive update accumulates: it adds the
    time since the previous reading to the total and remembers the new reading. */
module LegacyClock {
  import opened Sums

  datatype ClockState = ClockState(totalTime: real, deltaTime: real, previousTime: real)

  /** `Intialize`: zero both times and remember the current reading. */
  function AfterInitialize(now: real): ClockState
  {
    ClockState(0.0, 0.0, now)
  }

  /** `UpdateClockFixed`: the delta becomes one step and is added to the total. */
  function AfterFixedUpdate(st: ClockState, timeStep: real): ClockState
    requires timeStep != 0.0
  {
    st.(deltaTime := 1.0 / timeStep, totalTime := st.totalTime + 1.0 / timeStep)
  }

  /** `UpdateClockAdaptive`: the delta is the time since the previous reading; it is added
      to the total, and the new reading becomes the previous one. */
  function AfterAdaptiveUpdate(st: ClockState, now: real): ClockState
  {
    var delta := now - st.previousTime;
    ClockState(st.totalTime + delta, delta, now)
  }

  /** `n` consecutive fixed updates. */
  function FixedRun(st: ClockState, timeStep: real, n: nat): ClockState
    requires timeStep != 0.0
    decreases n
  {
    if n == 0 then st else FixedRun(AfterFixedUpdate(st, timeStep), timeStep, n - 1)
  }

  /** One adaptive update per reading, in order. */
  function AdaptiveRun(st: ClockState, readings: seq<real>): ClockState
    decreases |readings|
  {
    if readings == [] then st else AdaptiveRun(AfterAdaptiveUpdate(st, readings[0]), readings[1..])
  }

  /** The delta each of those updates leaves behind. */
  function AdaptiveDeltas(st: ClockState, readings: seq<real>): seq<real>
    decreases |readings|
  {
    if readings == [] then []
    else
      var next := AfterAdaptiveUpdate(st, readings[0]);
      [next.deltaTime] + AdaptiveDeltas(next, readings[1..])
  }

  /** Every reading is at least the one before it, the first at least `previous`. */
  predicate NonDecreasing(previous: real, readings: seq<real>)
    decreases |readings|
  {
    readings == [] || (previous <= readings[0] && NonDecreasing(readings[0], readings[1..]))
  }

  /** `n` fixed updates add exactly `n / timeStep` to the total, leave a delta of one
      step, and keep the previous reading. */
  lemma {:induction false} FixedStepsAccumulate(st: ClockState, timeStep: real, n: nat)
    requires timeStep != 0.0
    ensures var r := FixedRun(st, timeStep, n);
            && r.totalTime == st.totalTime + n as real / timeStep
            && (n > 0 ==> r.deltaTime == 1.0 / timeStep)
            && r.previousTime == st.previousTime
    decreases n
  {
    if n > 0 {
      FixedStepsAccumulate(AfterFixedUpdate(st, timeStep), timeStep, n - 1);
      assert st.totalTime + 1.0 / timeStep + (n - 1) as real / timeStep == st.totalTime + n as real / timeStep;
    }
  }

  /** Sixty updates at sixty steps per second after `Intialize` total one second. */
  lemma SixtyStepsAtSixtyIsOneSecond(now: real)
    ensures FixedRun(AfterInitialize(now), 60.0, 60).totalTime == 1.0
  {
    FixedStepsAccumulate(AfterInitialize(now), 60.0, 60);
  }

  /** The adaptive deltas telescope: their sum is the change of the total, which is the
      last reading minus the reading remembered before the run. */
  lemma {:induction false} AdaptiveDeltasTelescope(st: ClockState, readings: seq<real>)
    requires readings != []
    ensures var r := AdaptiveRun(st, readings);
            && Sum(AdaptiveDeltas(st, readings)) == r.totalTime - st.totalTime
            && r.totalTime == st.totalTime + (readings[|readings| - 1] - st.previousTime)
            && r.previousTime == readings[|readings| - 1]
    decreases |readings|
  {
    var next := AfterAdaptiveUpdate(st, readings[0]);
    if |readings| > 1 {
      AdaptiveDeltasTelescope(next, readings[1..]);
      assert AdaptiveDeltas(st, readings)[1..] == AdaptiveDeltas(next, readings[1..]);
    }
  }

  /** After `Intialize` at reading `r0` and adaptive updates at `r1..rn`, the total is
      `rn - r0`. */
  lemma AdaptiveAfterInitializeIsElapsed(r0: real, readings: seq<real>)
    requires readings != []
    ensures AdaptiveRun(AfterInitialize(r0), readings).totalTime == readings[|readings| - 1] - r0
  {
    AdaptiveDeltasTelescope(AfterInitialize(r0), readings);
  }

  /** With non-decreasing readings every adaptive delta is non-negative and the total
      never decreases. */
  lemma {:induction false} AdaptiveDeltasNonNegative(st: ClockState, readings: seq<real>)
    requires NonDecreasing(st.previousTime, readings)
    ensures var ds := AdaptiveDeltas(st, readings);
            forall i :: 0 <= i < |ds| ==> ds[i] >= 0.0
    ensures AdaptiveRun(st, readings).totalTime >= st.totalTime
    decreases |readings|
  {
    if readings != [] {
      var next := AfterAdaptiveUpdate(st, readings[0]);
      AdaptiveDeltasNonNegative(next, readings[1..]);
      var ds := AdaptiveDeltas(st, readings);
      assert ds[1..] == AdaptiveDeltas(next, readings[1..]);
      forall i | 0 <= i < |ds| ensures ds[i] >= 0.0 {
        if i > 0 {
          assert ds[i] == ds[1..][i - 1];
        }
      }
    }
  }

  /** The single clock. Its fields are written by `Intialize` and both updates; nothing
      guards against using it before `Intialize`. */
  class Clock {
    var totalTime: real
    var deltaTime: real
    var previousTime: real

    function State(): ClockState
      reads this
    {
      ClockState(totalTime, deltaTime, previousTime)
    }

    constructor()
      ensures State() == ClockState(0.0, 0.0, 0.0)
    {
      totalTime, deltaTime, previousTime := 0.0, 0.0, 0.0;
    }

    /** `Intialize`: every call re-zeroes the times and re-reads the processor clock. */
    method Initialize(now: real)
      modifies this
      ensures State() == AfterInitialize(now)
    {
      totalTime := 0.0;
      deltaTime := 0.0;
      previousTime := now;
    }

    /** `UpdateClockFixed`. */
    method UpdateClockFixed(timeStep: real)
      requires timeStep != 0.0
      modifies this
      ensures State() == AfterFixedUpdate(old(State()), timeStep)
      ensures totalTime - old(totalTime) == deltaTime && deltaTime * timeStep == 1.0
    {
      deltaTime := 1.0 / timeStep;
      totalTime := totalTime + deltaTime;
    }

    /** `UpdateClockAdaptive`: the total grows by the time since the previous reading. */
    method UpdateClockAdaptive(now: real)
      modifies this
      ensures State() == AfterAdaptiveUpdate(old(State()), now)
      ensures totalTime - old(totalTime) == deltaTime == now - old(previousTime)
      ensures old(previousTime) <= now ==> deltaTime >= 0.0 && totalTime >= old(totalTime)
    {
      var newTime := now;
      deltaTime := newTime - previousTime;
      totalTime := totalTime + deltaTime;
      previousTime := newTime;
    }

    /** `GetTotalTime`: the stored total, whether or not the clock was initialised. */
    method GetTotalTime() returns (t: real)
      ensures t == totalTime
    {
      t := totalTime;
    }

    /** `GetDeltaTime`: the stored delta, whether or not the clock was initialised. */
    method GetDeltaTime() returns (t: real)
      ensures t == deltaTime
    {
      t := deltaTime;
    }
  }
}
