/** The process-wide clock of the two guarded revisions of the header: a lifecycle flag,
    the total and delta times, and the capability flag, resolution and base tick captured
    at initialisation. Both revisions check the flag before every update and accessor;
    they differ only in `Intialize`, which the later revision skips on an initialised
    clock (GuardedInit) and the earlier one always runs (ResettingInit).

    ClockState and the After* functions are the value view of one call; the class Clock
    holds the same state in fields and its methods are proved against those functions.
    A Build fixes what the preprocessor and the header's arithmetic fix: the revision,
    the platform, and whether the fallback paths use the header's arithmetic or the
    corrected one. */
module TinyClock {

  import opened TimeSource
  import opened Sums

  const ERROR_FIRST: nat := 0
  const ERROR_NOT_INITIALIZED: nat := ERROR_FIRST + 1

  /** What PrintErrorMessage writes for an error number: a line for the not-initialised
      error and nothing for any other number. */
  function ErrorMessage(errorNumber: nat): (message: string)
    ensures message != [] <==> errorNumber == ERROR_NOT_INITIALIZED
  {
    if errorNumber == ERROR_NOT_INITIALIZED then "Error: TinyClock needs to be initialized first \n" else ""
  }

  /** Whether a call printed the not-initialised diagnostic. */
  datatype Outcome = Done | Reported(errorNumber: nat)

  /** GuardedInit: a second `Intialize` does nothing. ResettingInit: every `Intialize`
      re-zeroes the times and re-samples the base. */
  datatype Revision = GuardedInit | ResettingInit

  /** The configuration a clock is compiled with. */
  datatype Build = Build(revision: Revision, platform: Platform, arithmetic: Arithmetic)

  datatype ClockState = ClockState(
    initialized: bool,
    totalTime: real,
    deltaTime: real,
    highRes: bool,
    timeResolution: real,
    baseTime: real)

  /** The diagnostic every update and accessor reports in state `st`. */
  function Report(st: ClockState): Outcome
  {
    if st.initialized then Done else Reported(ERROR_NOT_INITIALIZED)
  }

  /** `Intialize`: zero both times, record the capability and its resolution, sample the
      base from the counter that capability selects, and set the flag. */
  function AfterInitialize(build: Build, st: ClockState, probe: Probe, now: OsClocks): ClockState
    requires ProbeValid(build.platform, probe) && now.Valid()
  {
    if build.revision == GuardedInit && st.initialized then st
    else ClockState(true, 0.0, 0.0, probe.available, ClockResolution(build.arithmetic, build.platform, probe),
                    ClockRawTime(build.arithmetic, build.platform, probe.available, now) as real)
  }

  /** `GetTime`: the raw counter since the base, scaled by the resolution; 0 before
      initialisation. */
  function Time(build: Build, st: ClockState, now: OsClocks): real
    requires now.Valid()
  {
    if st.initialized
    then Reading(ClockRawTime(build.arithmetic, build.platform, st.highRes, now), st.baseTime, st.timeResolution)
    else 0.0
  }

  /** `UpdateClockFixed`: the delta becomes one step and is added to the total. */
  function AfterFixedUpdate(st: ClockState, timeStep: real): ClockState
    requires st.initialized ==> timeStep != 0.0
  {
    if st.initialized then st.(deltaTime := 1.0 / timeStep, totalTime := st.totalTime + 1.0 / timeStep) else st
  }

  /** `UpdateClockAdaptive`: the delta is the new reading minus the old total, and the
      total is overwritten with the new reading. */
  function AfterAdaptiveUpdate(build: Build, st: ClockState, now: OsClocks): ClockState
    requires now.Valid()
  {
    if st.initialized then
      var newTime := Time(build, st, now);
      st.(deltaTime := newTime - st.totalTime, totalTime := newTime)
    else st
  }

  /** `st` is initialised with the resolution `probe` selects and a base sampled at
      `origin`. */
  predicate Tracks(build: Build, st: ClockState, probe: Probe, origin: OsClocks)
  {
    && ProbeValid(build.platform, probe)
    && origin.Valid()
    && st.initialized
    && st.highRes == probe.available
    && st.timeResolution == ClockResolution(build.arithmetic, build.platform, probe)
    && st.baseTime == ClockRawTime(build.arithmetic, build.platform, probe.available, origin) as real
  }

  /** The seconds a clock built as `build` measures between the instants `origin` and
      `now`: the counter's seconds with the corrected arithmetic or on a high-resolution
      path, the header's miscounted ones on a fallback path as written. */
  function Elapsed(build: Build, probe: Probe, origin: OsClocks, now: OsClocks): real
    requires ProbeValid(build.platform, probe)
  {
    MeasuredSeconds(build.arithmetic, build.platform, probe, now) - MeasuredSeconds(build.arithmetic, build.platform, probe, origin)
  }

  /** `n` consecutive fixed updates. */
  function FixedRun(st: ClockState, timeStep: real, n: nat): ClockState
    requires st.initialized ==> timeStep != 0.0
    decreases n
  {
    if n == 0 then st else FixedRun(AfterFixedUpdate(st, timeStep), timeStep, n - 1)
  }

  predicate AllValid(samples: seq<OsClocks>)
  {
    forall i :: 0 <= i < |samples| ==> samples[i].Valid()
  }

  /** One adaptive update per sample, in order. */
  function AdaptiveRun(build: Build, st: ClockState, samples: seq<OsClocks>): ClockState
    requires AllValid(samples)
    decreases |samples|
  {
    if samples == [] then st
    else AdaptiveRun(build, AfterAdaptiveUpdate(build, st, samples[0]), samples[1..])
  }

  /** The delta each of those updates leaves behind. */
  function AdaptiveDeltas(build: Build, st: ClockState, samples: seq<OsClocks>): seq<real>
    requires AllValid(samples)
    decreases |samples|
  {
    if samples == [] then []
    else
      var next := AfterAdaptiveUpdate(build, st, samples[0]);
      [next.deltaTime] + AdaptiveDeltas(build, next, samples[1..])
  }

  /** On the counter `highRes` selects, every sample is not before the one preceding it,
      the first not before `previous`. */
  predicate Ascending(platform: Platform, highRes: bool, previous: OsClocks, samples: seq<OsClocks>)
    decreases |samples|
  {
    samples == []
    || (NotBefore(platform, highRes, samples[0], previous) && Ascending(platform, highRes, samples[0], samples[1..]))
  }

  /** A fresh `Intialize` (any first call, and every call in the resetting revision) starts
      both times at zero, tracks the counter it sampled, and reads zero at that instant. */
  lemma InitializeStartsAtZero(build: Build, st: ClockState, probe: Probe, now: OsClocks)
    requires ProbeValid(build.platform, probe) && now.Valid()
    requires build.revision == ResettingInit || !st.initialized
    ensures var r := AfterInitialize(build, st, probe, now);
            && Tracks(build, r, probe, now)
            && r.totalTime == 0.0 && r.deltaTime == 0.0
            && Report(r) == Done
            && Time(build, r, now) == 0.0
  {
    var r := AfterInitialize(build, st, probe, now);
    ReadingAtBaseIsZero(ClockRawTime(build.arithmetic, build.platform, probe.available, now), r.timeResolution);
  }

  /** Guarded revision: initialising an initialised clock changes nothing, so a second
      `Intialize` keeps the first one's times, base and resolution. */
  lemma GuardedInitializeIsIdempotent(build: Build, st: ClockState, first: Probe, firstNow: OsClocks,
                                      second: Probe, secondNow: OsClocks)
    requires build.revision == GuardedInit
    requires ProbeValid(build.platform, first) && firstNow.Valid()
    requires ProbeValid(build.platform, second) && secondNow.Valid()
    ensures var once := AfterInitialize(build, st, first, firstNow);
            AfterInitialize(build, once, second, secondNow) == once
    ensures st.initialized ==> AfterInitialize(build, st, second, secondNow) == st
  {
  }

  /** Resetting revision: `Intialize` gives the same state whatever state it starts from,
      so a second call discards whatever any updates in between, fixed or adaptive,
      accumulated, and re-bases the clock on the new sample. */
  lemma ResettingInitializeDiscardsTime(build: Build, before: ClockState, after: ClockState, probe: Probe, now: OsClocks)
    requires build.revision == ResettingInit
    requires ProbeValid(build.platform, probe) && now.Valid()
    ensures var r := AfterInitialize(build, after, probe, now);
            && r == AfterInitialize(build, before, probe, now)
            && r.initialized && r.totalTime == 0.0 && r.deltaTime == 0.0
  {
  }

  /** Before initialisation the updates change nothing, whatever the step, and only
      report the error. */
  lemma UpdatesBeforeInitializeChangeNothing(build: Build, st: ClockState, timeStep: real, now: OsClocks)
    requires !st.initialized && now.Valid()
    ensures AfterFixedUpdate(st, timeStep) == st
    ensures AfterAdaptiveUpdate(build, st, now) == st
    ensures Report(st) == Reported(ERROR_NOT_INITIALIZED) && ErrorMessage(Report(st).errorNumber) != []
  {
  }

  /** `n` fixed updates of an initialised clock add exactly `n / timeStep` to the total,
      leave a delta of one step, and change nothing else. */
  lemma {:induction false} FixedStepsAccumulate(st: ClockState, timeStep: real, n: nat)
    requires st.initialized && timeStep != 0.0
    ensures var r := FixedRun(st, timeStep, n);
            && r.totalTime == st.totalTime + n as real / timeStep
            && (n > 0 ==> r.deltaTime == 1.0 / timeStep)
            && r.(totalTime := st.totalTime, deltaTime := st.deltaTime) == st
    decreases n
  {
    if n > 0 {
      var next := AfterFixedUpdate(st, timeStep);
      FixedStepsAccumulate(next, timeStep, n - 1);
      assert st.totalTime + 1.0 / timeStep + (n - 1) as real / timeStep == st.totalTime + n as real / timeStep;
    }
  }

  /** From a fresh `Intialize`, `n` fixed updates give a total of `n / timeStep`. */
  lemma FixedStepsFromInitialize(build: Build, st: ClockState, probe: Probe, now: OsClocks, timeStep: real, n: nat)
    requires ProbeValid(build.platform, probe) && now.Valid() && timeStep != 0.0
    requires build.revision == ResettingInit || !st.initialized
    ensures FixedRun(AfterInitialize(build, st, probe, now), timeStep, n).totalTime == n as real / timeStep
  {
    FixedStepsAccumulate(AfterInitialize(build, st, probe, now), timeStep, n);
  }

  /** Sixty updates at sixty steps per second from a fresh `Intialize` total one second. */
  lemma SixtyStepsAtSixtyIsOneSecond(build: Build, st: ClockState, probe: Probe, now: OsClocks)
    requires ProbeValid(build.platform, probe) && now.Valid()
    requires build.revision == ResettingInit || !st.initialized
    ensures FixedRun(AfterInitialize(build, st, probe, now), 60.0, 60).totalTime == 1.0
  {
    FixedStepsFromInitialize(build, st, probe, now, 60.0, 60);
  }

  /** On a tracking clock, `GetTime` is the seconds measured since the base was sampled. */
  lemma TimeMeasuresElapsed(build: Build, st: ClockState, probe: Probe, origin: OsClocks, now: OsClocks)
    requires Tracks(build, st, probe, origin) && now.Valid()
    ensures Time(build, st, now) == Elapsed(build, probe, origin, now)
  {
    ClockReadingMeasuresElapsed(build.arithmetic, build.platform, probe, origin, now);
  }

  /** With the corrected arithmetic, and on the high-resolution paths as written, what a
      clock measures is the seconds its counter advanced. */
  lemma ElapsedIsCounterSeconds(build: Build, probe: Probe, origin: OsClocks, now: OsClocks)
    requires ProbeValid(build.platform, probe)
    requires build.arithmetic == Corrected || probe.available
    ensures Elapsed(build, probe, origin, now)
            == CounterSeconds(build.platform, probe, now) - CounterSeconds(build.platform, probe, origin)
  {
  }

  /** One adaptive update overwrites the total with the seconds measured since the base,
      its delta is the change of the total, and the clock keeps tracking its base. */
  lemma AdaptiveMeasuresElapsed(build: Build, st: ClockState, probe: Probe, origin: OsClocks, now: OsClocks)
    requires Tracks(build, st, probe, origin) && now.Valid()
    ensures var r := AfterAdaptiveUpdate(build, st, now);
            && Tracks(build, r, probe, origin)
            && r.totalTime == Elapsed(build, probe, origin, now)
            && r.deltaTime == r.totalTime - st.totalTime
  {
    TimeMeasuresElapsed(build, st, probe, origin, now);
  }

  /** On a fallback path one second of the host's clock, from `Intialize` to an adaptive
      update, totals one second with the corrected arithmetic, but a hundred seconds on
      the GetTickCount path and a thousand on the gettimeofday path as written. */
  lemma FallbackSecondAsWritten(revision: Revision, platform: Platform, st: ClockState)
    requires revision == ResettingInit || !st.initialized
    ensures var probe := Probe(false, 0);
            var origin := OsClocks(0, 0, TimeSpec(0, 0), TimeVal(0, 0));
            var now := OsClocks(0, MILLISECONDS_PER_SECOND, TimeSpec(0, 0), TimeVal(1, 0));
            var corrected := Build(revision, platform, Corrected);
            var asWritten := Build(revision, platform, AsWritten);
            && AfterAdaptiveUpdate(corrected, AfterInitialize(corrected, st, probe, origin), now).totalTime == 1.0
            && AfterAdaptiveUpdate(asWritten, AfterInitialize(asWritten, st, probe, origin), now).totalTime
               == if platform == Windows then 100.0 else 1000.0
  {
    var probe := Probe(false, 0);
    var origin := OsClocks(0, 0, TimeSpec(0, 0), TimeVal(0, 0));
    var now := OsClocks(0, MILLISECONDS_PER_SECOND, TimeSpec(0, 0), TimeVal(1, 0));
    var corrected := Build(revision, platform, Corrected);
    var asWritten := Build(revision, platform, AsWritten);
    InitializeStartsAtZero(corrected, st, probe, origin);
    AdaptiveMeasuresElapsed(corrected, AfterInitialize(corrected, st, probe, origin), probe, origin, now);
    InitializeStartsAtZero(asWritten, st, probe, origin);
    AdaptiveMeasuresElapsed(asWritten, AfterInitialize(asWritten, st, probe, origin), probe, origin, now);
  }

  /** The adaptive deltas telescope: their sum is the change of the total. */
  lemma {:induction false} AdaptiveDeltasTelescope(build: Build, st: ClockState, samples: seq<OsClocks>)
    requires st.initialized && AllValid(samples)
    ensures Sum(AdaptiveDeltas(build, st, samples)) == AdaptiveRun(build, st, samples).totalTime - st.totalTime
    decreases |samples|
  {
    if samples != [] {
      var next := AfterAdaptiveUpdate(build, st, samples[0]);
      assert AllValid(samples[1..]);
      AdaptiveDeltasTelescope(build, next, samples[1..]);
      var ds := AdaptiveDeltas(build, st, samples);
      assert ds[1..] == AdaptiveDeltas(build, next, samples[1..]);
    }
  }

  /** After a run of adaptive updates the total is the last sample's measured seconds,
      whatever the total was before: the adaptive update does not accumulate. */
  lemma {:induction false} AdaptiveRunReadsLastSample(build: Build, st: ClockState, probe: Probe, origin: OsClocks,
                                                      samples: seq<OsClocks>)
    requires Tracks(build, st, probe, origin) && AllValid(samples) && samples != []
    ensures var r := AdaptiveRun(build, st, samples);
            && Tracks(build, r, probe, origin)
            && r.totalTime == Elapsed(build, probe, origin, samples[|samples| - 1])
    decreases |samples|
  {
    var next := AfterAdaptiveUpdate(build, st, samples[0]);
    AdaptiveMeasuresElapsed(build, st, probe, origin, samples[0]);
    assert AllValid(samples[1..]);
    if |samples| > 1 {
      AdaptiveRunReadsLastSample(build, next, probe, origin, samples[1..]);
    }
  }

  /** If the total is the reading of an earlier sample (zero right after `Intialize`) and
      the selected counter does not run backwards, every adaptive delta is non-negative
      and the total does not decrease. */
  lemma {:induction false} AdaptiveDeltasNonNegative(build: Build, st: ClockState, probe: Probe, origin: OsClocks,
                                                     previous: OsClocks, samples: seq<OsClocks>)
    requires Tracks(build, st, probe, origin) && previous.Valid() && AllValid(samples)
    requires st.totalTime == Elapsed(build, probe, origin, previous)
    requires Ascending(build.platform, probe.available, previous, samples)
    ensures var ds := AdaptiveDeltas(build, st, samples);
            forall i :: 0 <= i < |ds| ==> ds[i] >= 0.0
    ensures AdaptiveRun(build, st, samples).totalTime >= st.totalTime
    decreases |samples|
  {
    if samples != [] {
      var next := AfterAdaptiveUpdate(build, st, samples[0]);
      AdaptiveMeasuresElapsed(build, st, probe, origin, samples[0]);
      MeasuredSecondsMonotone(build.arithmetic, build.platform, probe, previous, samples[0]);
      assert AllValid(samples[1..]);
      AdaptiveDeltasNonNegative(build, next, probe, origin, samples[0], samples[1..]);
      var ds := AdaptiveDeltas(build, st, samples);
      assert ds[1..] == AdaptiveDeltas(build, next, samples[1..]);
      forall i | 0 <= i < |ds| ensures ds[i] >= 0.0 {
        if i > 0 {
          assert ds[i] == ds[1..][i - 1];
        }
      }
    }
  }

  /** `Intialize` followed at once by an adaptive update: the delta is the seconds measured
      since the base sample, never negative when the selected counter does not run
      backwards. */
  lemma FirstAdaptiveDeltaIsElapsed(build: Build, st: ClockState, probe: Probe, origin: OsClocks, now: OsClocks)
    requires ProbeValid(build.platform, probe) && origin.Valid() && now.Valid()
    requires NotBefore(build.platform, probe.available, now, origin)
    requires build.revision == ResettingInit || !st.initialized
    ensures var r := AfterAdaptiveUpdate(build, AfterInitialize(build, st, probe, origin), now);
            && r.deltaTime == Elapsed(build, probe, origin, now)
            && r.deltaTime >= 0.0
  {
    var init := AfterInitialize(build, st, probe, origin);
    InitializeStartsAtZero(build, st, probe, origin);
    AdaptiveMeasuresElapsed(build, init, probe, origin, now);
    MeasuredSecondsMonotone(build.arithmetic, build.platform, probe, origin, now);
  }

  /** On the monotonic path the wall clock plays no part: with the monotonic clock going
      from 5 s to 6 s while the wall clock steps back from 100 s to 99 s, the first
      adaptive delta is one second. */
  lemma WallClockStepIgnoredOnMonotonicPath(build: Build, st: ClockState)
    requires build.platform == Linux
    requires build.revision == ResettingInit || !st.initialized
    ensures var probe := Probe(true, 0);
            var origin := OsClocks(0, 0, TimeSpec(5, 0), TimeVal(100, 0));
            var now := OsClocks(0, 0, TimeSpec(6, 0), TimeVal(99, 0));
            var r := AfterAdaptiveUpdate(build, AfterInitialize(build, st, probe, origin), now);
            r.deltaTime == 1.0 && r.totalTime == 1.0
  {
    var probe := Probe(true, 0);
    var origin := OsClocks(0, 0, TimeSpec(5, 0), TimeVal(100, 0));
    var now := OsClocks(0, 0, TimeSpec(6, 0), TimeVal(99, 0));
    FirstAdaptiveDeltaIsElapsed(build, st, probe, origin, now);
    InitializeStartsAtZero(build, st, probe, origin);
  }

  /** The single clock. `probed` and `origin` are ghost: the probe answer and the counters
      at the instant the base was sampled, which the source does not keep. */
  class Clock {
    const build: Build
    var initialized: bool
    var totalTime: real
    var deltaTime: real
    var highRes: bool
    var timeResolution: real
    var baseTime: real
    ghost var probed: Probe
    ghost var origin: OsClocks

    function State(): ClockState
      reads this
    {
      ClockState(initialized, totalTime, deltaTime, highRes, timeResolution, baseTime)
    }

    ghost predicate Valid()
      reads this
    {
      initialized ==> Tracks(build, State(), probed, origin)
    }

    constructor(build: Build)
      ensures this.build == build
      ensures Valid() && !initialized
    {
      this.build := build;
      initialized := false;
      totalTime, deltaTime := 0.0, 0.0;
      highRes, timeResolution, baseTime := false, 0.0, 0.0;
    }

    /** `Intialize`: skipped on an initialised clock in the guarded revision. */
    method Initialize(probe: Probe, now: OsClocks)
      requires Valid() && ProbeValid(build.platform, probe) && now.Valid()
      modifies this
      ensures Valid()
      ensures State() == AfterInitialize(build, old(State()), probe, now)
      ensures if build.revision == GuardedInit && old(initialized)
              then probed == old(probed) && origin == old(origin)
              else probed == probe && origin == now
    {
      if build.revision == ResettingInit || !initialized {
        totalTime := 0.0;
        deltaTime := 0.0;
        InitializeTimer(probe, now);
        initialized := true;
      }
    }

    /** `Windows_Initialize` / `Linux_Initialize`: record the capability and its
        resolution, then sample the base on the counter the capability selects. */
    method InitializeTimer(probe: Probe, now: OsClocks)
      requires ProbeValid(build.platform, probe) && now.Valid()
      modifies this
      ensures highRes == probe.available
      ensures timeResolution == ClockResolution(build.arithmetic, build.platform, probe)
      ensures baseTime == ClockRawTime(build.arithmetic, build.platform, highRes, now) as real
      ensures probed == probe && origin == now
      ensures initialized == old(initialized) && totalTime == old(totalTime) && deltaTime == old(deltaTime)
    {
      highRes := probe.available;
      timeResolution := ClockResolution(build.arithmetic, build.platform, probe);
      baseTime := ClockRawTime(build.arithmetic, build.platform, highRes, now) as real;
      probed, origin := probe, now;
    }

    /** `UpdateClockFixed`: before initialisation any step is accepted and ignored. */
    method UpdateClockFixed(timeStep: real) returns (outcome: Outcome)
      requires Valid() && (initialized ==> timeStep != 0.0)
      modifies this
      ensures Valid() && probed == old(probed) && origin == old(origin)
      ensures State() == AfterFixedUpdate(old(State()), timeStep)
      ensures outcome == Report(old(State()))
    {
      if initialized {
        deltaTime := 1.0 / timeStep;
        totalTime := totalTime + deltaTime;
        outcome := Done;
      } else {
        outcome := Reported(ERROR_NOT_INITIALIZED);
      }
    }

    /** `UpdateClockAdaptive`: on an initialised clock the total becomes the seconds
        measured since the base sample and the delta is how far it moved. */
    method UpdateClockAdaptive(now: OsClocks) returns (outcome: Outcome)
      requires Valid() && now.Valid()
      modifies this
      ensures Valid() && probed == old(probed) && origin == old(origin)
      ensures State() == AfterAdaptiveUpdate(build, old(State()), now)
      ensures outcome == Report(old(State()))
      ensures old(initialized) ==>
                && totalTime == Elapsed(build, probed, origin, now)
                && deltaTime == totalTime - old(totalTime)
    {
      if initialized {
        var newTime := GetTime(now);
        deltaTime := newTime - totalTime;
        totalTime := newTime;
        outcome := Done;
      } else {
        outcome := Reported(ERROR_NOT_INITIALIZED);
      }
    }

    /** `GetTime`: 0 before initialisation, otherwise the seconds measured since the base
        was sampled. */
    function GetTime(now: OsClocks): (t: real)
      reads this
      requires Valid() && now.Valid()
      ensures !initialized ==> t == 0.0
      ensures initialized ==> t == Elapsed(build, probed, origin, now)
    {
      if initialized then TimeMeasuresElapsed(build, State(), probed, origin, now); Time(build, State(), now)
      else 0.0
    }

    /** `GetTotalTime`: the stored total, or 0 with the diagnostic before initialisation. */
    method GetTotalTime() returns (t: real, outcome: Outcome)
      ensures outcome == Report(State())
      ensures initialized ==> t == totalTime
      ensures !initialized ==> t == 0.0
    {
      if initialized {
        t, outcome := totalTime, Done;
      } else {
        t, outcome := 0.0, Reported(ERROR_NOT_INITIALIZED);
      }
    }

    /** `GetDeltaTime`: the stored delta, or 0 with the diagnostic before initialisation. */
    method GetDeltaTime() returns (t: real, outcome: Outcome)
      ensures outcome == Report(State())
      ensures initialized ==> t == deltaTime
      ensures !initialized ==> t == 0.0
    {
      if initialized {
        t, outcome := deltaTime, Done;
      } else {
        t, outcome := 0.0, Reported(ERROR_NOT_INITIALIZED);
      }
    }
  }

  /** A host that initialises and reads before updating sees zero on both accessors; an
      update before initialising, even with a zero step, only reports the diagnostic. */
  method HostStartsAtZero(build: Build, probe: Probe, now: OsClocks) returns (total: real, delta: real)
    requires ProbeValid(build.platform, probe) && now.Valid()
    ensures total == 0.0 && delta == 0.0
  {
    var clock := new Clock(build);
    var early := clock.UpdateClockFixed(0.0);
    assert early == Reported(ERROR_NOT_INITIALIZED);
    clock.Initialize(probe, now);
    var outcome;
    total, outcome := clock.GetTotalTime();
    delta, outcome := clock.GetDeltaTime();
  }
}
