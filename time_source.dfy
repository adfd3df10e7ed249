/** The platform layer of the guarded and the resetting clock: how the clock probes the
    host for a high-resolution counter, which raw counter it reads, how raw ticks are
    composed from the operating system's (seconds, sub-second) pairs, and how a raw reading
    becomes seconds since the clock's base.

    The operating system calls (QueryPerformanceFrequency, QueryPerformanceCounter,
    GetTickCount, clock_gettime, gettimeofday) are not modelled: what they report is a
    parameter (a Probe at initialisation, an OsClocks record at every read). */
module TimeSource {

  const UINT32_LIMIT: nat := 0x1_0000_0000
  const UINT64_LIMIT: nat := 0x1_0000_0000_0000_0000

  /** RESOLUTION_HIGH (1e9): raw ticks per second on Linux, nanoseconds. */
  const TICKS_PER_SECOND_HIGH: nat := 1_000_000_000
  /** RESOLUTION_LOW (1e6): microseconds per second, the scale gettimeofday reports in. */
  const TICKS_PER_SECOND_LOW: nat := 1_000_000
  /** GetTickCount counts milliseconds. */
  const MILLISECONDS_PER_SECOND: nat := 1000

  /** RESOLUTION_FLOAT_HIGH and RESOLUTION_FLOAT_LOW: seconds per raw tick on Linux. */
  const RESOLUTION_FLOAT_HIGH: real := 0.000000001
  const RESOLUTION_FLOAT_LOW: real := 0.000001
  /** RESOLUTION_LOW on Windows as the header defines it (`000.1`). */
  const WINDOWS_RESOLUTION_LOW_AS_WRITTEN: real := 0.1
  /** Seconds per GetTickCount tick: the constant the Windows fallback evidently needs. */
  const WINDOWS_RESOLUTION_LOW: real := 0.001

  /** The platform the header is compiled for (`_WIN32` or `__linux__`). */
  datatype Platform = Windows | Linux

  /** What the host answers when the clock asks for a high-resolution counter:
      on Windows whether QueryPerformanceFrequency succeeded and the frequency it wrote,
      on Linux whether clock_gettime(CLOCK_MONOTONIC) succeeded (frequency unused). */
  datatype Probe = Probe(available: bool, frequency: nat)

  /** A successful QueryPerformanceFrequency never reports a zero frequency. */
  predicate ProbeValid(platform: Platform, probe: Probe)
  {
    platform == Windows && probe.available ==> probe.frequency > 0
  }

  datatype TimeSpec = TimeSpec(sec: nat, nsec: nat)
  datatype TimeVal = TimeVal(sec: nat, usec: nat)

  /** The host's counters at one instant: the performance counter, the millisecond tick
      count, the monotonic clock and the wall clock. */
  datatype OsClocks = OsClocks(performanceCount: nat, tickCount: nat, monotonic: TimeSpec, wallClock: TimeVal)
  {
    /** Sub-second fields are below one second, and every raw value the clock composes
        fits its unsigned type: the source never lets them wrap. */
    predicate Valid()
    {
      && performanceCount < UINT64_LIMIT
      && tickCount < UINT32_LIMIT
      && monotonic.nsec < TICKS_PER_SECOND_HIGH
      && wallClock.usec < TICKS_PER_SECOND_LOW
      && MonotonicTicks(monotonic) < UINT64_LIMIT
      && FallbackTicksAsWritten(wallClock) < UINT64_LIMIT
    }
  }

  /** The counter the capability `highRes` selects on `platform` does not run backwards
      between `earlier` and `later`; the counters the clock does not read may do anything. */
  predicate NotBefore(platform: Platform, highRes: bool, later: OsClocks, earlier: OsClocks)
  {
    match platform
    case Windows =>
      if highRes then earlier.performanceCount <= later.performanceCount
      else earlier.tickCount <= later.tickCount
    case Linux =>
      if highRes
      then earlier.monotonic.sec < later.monotonic.sec
           || (earlier.monotonic.sec == later.monotonic.sec && earlier.monotonic.nsec <= later.monotonic.nsec)
      else earlier.wallClock.sec < later.wallClock.sec
           || (earlier.wallClock.sec == later.wallClock.sec && earlier.wallClock.usec <= later.wallClock.usec)
  }

  /** Raw ticks on the monotonic path: seconds scaled to nanoseconds plus the nanoseconds. */
  function MonotonicTicks(ts: TimeSpec): nat
  {
    ts.sec * TICKS_PER_SECOND_HIGH + ts.nsec
  }

  /** Raw ticks on the gettimeofday path as the header composes them: seconds scaled to
      nanoseconds, plus microseconds. */
  function FallbackTicksAsWritten(tv: TimeVal): nat
  {
    tv.sec * TICKS_PER_SECOND_HIGH + tv.usec
  }

  /** Raw ticks on the gettimeofday path in one unit, microseconds, which is what the
      path's resolution of 1e-6 seconds per tick expects. */
  function FallbackTicks(tv: TimeVal): nat
  {
    tv.sec * TICKS_PER_SECOND_LOW + tv.usec
  }

  /** The composition keeps every nanosecond: the pair is recovered from the raw value. */
  lemma MonotonicTicksSplit(ts: TimeSpec)
    requires ts.nsec < TICKS_PER_SECOND_HIGH
    ensures MonotonicTicks(ts) / TICKS_PER_SECOND_HIGH == ts.sec
    ensures MonotonicTicks(ts) % TICKS_PER_SECOND_HIGH == ts.nsec
  {
  }

  /** Seconds per raw tick, chosen once at initialisation: one over the performance
      counter's frequency or the millisecond constant on Windows, 1e-9 or 1e-6 on Linux. */
  function Resolution(platform: Platform, probe: Probe): (r: real)
    requires ProbeValid(platform, probe)
    ensures r > 0.0
  {
    match platform
    case Windows => if probe.available then 1.0 / probe.frequency as real else WINDOWS_RESOLUTION_LOW
    case Linux => if probe.available then RESOLUTION_FLOAT_HIGH else RESOLUTION_FLOAT_LOW
  }

  /** The resolution as the header chooses it, with `000.1` on the Windows fallback. */
  function ResolutionAsWritten(platform: Platform, probe: Probe): (r: real)
    requires ProbeValid(platform, probe)
    ensures r > 0.0
    ensures !(platform == Windows && !probe.available) ==> r == Resolution(platform, probe)
  {
    match platform
    case Windows => if probe.available then 1.0 / probe.frequency as real else WINDOWS_RESOLUTION_LOW_AS_WRITTEN
    case Linux => if probe.available then RESOLUTION_FLOAT_HIGH else RESOLUTION_FLOAT_LOW
  }

  /** The raw counter value the clock reads, on the path the recorded capability selects. */
  function RawTime(platform: Platform, highRes: bool, os: OsClocks): (raw: nat)
    requires os.Valid()
    ensures raw < UINT64_LIMIT
  {
    match platform
    case Windows => if highRes then os.performanceCount else os.tickCount
    case Linux => if highRes then MonotonicTicks(os.monotonic) else FallbackTicks(os.wallClock)
  }

  /** The raw counter value with the gettimeofday composition as the header writes it. */
  function RawTimeAsWritten(platform: Platform, highRes: bool, os: OsClocks): (raw: nat)
    requires os.Valid()
    ensures raw < UINT64_LIMIT
    ensures !(platform == Linux && !highRes) ==> raw == RawTime(platform, highRes, os)
  {
    match platform
    case Windows => if highRes then os.performanceCount else os.tickCount
    case Linux => if highRes then MonotonicTicks(os.monotonic) else FallbackTicksAsWritten(os.wallClock)
  }

  /** The time since the base, in seconds: the raw difference scaled by the resolution. */
  function Reading(raw: nat, baseTime: real, resolution: real): real
  {
    (raw as real - baseTime) * resolution
  }

  /** Reference definition: the instant `os` in seconds, on the counter the probe selects,
      measured in that counter's own unit. */
  function CounterSeconds(platform: Platform, probe: Probe, os: OsClocks): real
    requires ProbeValid(platform, probe)
  {
    match platform
    case Windows =>
      if probe.available then os.performanceCount as real / probe.frequency as real
      else os.tickCount as real / MILLISECONDS_PER_SECOND as real
    case Linux =>
      if probe.available then os.monotonic.sec as real + os.monotonic.nsec as real / TICKS_PER_SECOND_HIGH as real
      else os.wallClock.sec as real + os.wallClock.usec as real / TICKS_PER_SECOND_LOW as real
  }

  /** On every path, raw ticks times the chosen resolution are the counter's seconds. */
  lemma RawTimeMeasuresSeconds(platform: Platform, probe: Probe, os: OsClocks)
    requires ProbeValid(platform, probe) && os.Valid()
    ensures RawTime(platform, probe.available, os) as real * Resolution(platform, probe)
            == CounterSeconds(platform, probe, os)
  {
  }

  /** A reading against the base sampled at `origin` is the seconds elapsed since then. */
  lemma ReadingMeasuresElapsed(platform: Platform, probe: Probe, origin: OsClocks, now: OsClocks)
    requires ProbeValid(platform, probe) && origin.Valid() && now.Valid()
    ensures Reading(RawTime(platform, probe.available, now),
                    RawTime(platform, probe.available, origin) as real,
                    Resolution(platform, probe))
            == CounterSeconds(platform, probe, now) - CounterSeconds(platform, probe, origin)
  {
    var res := Resolution(platform, probe);
    var a, b := RawTime(platform, probe.available, now) as real, RawTime(platform, probe.available, origin) as real;
    RawTimeMeasuresSeconds(platform, probe, now);
    RawTimeMeasuresSeconds(platform, probe, origin);
    assert (a - b) * res == a * res - b * res;
  }

  /** A reading taken at the base tick is zero, whatever the resolution. */
  lemma ReadingAtBaseIsZero(raw: nat, resolution: real)
    ensures Reading(raw, raw as real, resolution) == 0.0
  {
  }

  /** A selected counter that does not run backwards gives a raw value that does not
      decrease. */
  lemma RawTimeMonotone(platform: Platform, highRes: bool, earlier: OsClocks, later: OsClocks)
    requires earlier.Valid() && later.Valid() && NotBefore(platform, highRes, later, earlier)
    ensures RawTime(platform, highRes, earlier) <= RawTime(platform, highRes, later)
  {
    if platform == Linux {
      if highRes {
        var e, l := earlier.monotonic, later.monotonic;
        if e.sec < l.sec {
          assert (l.sec - e.sec) * TICKS_PER_SECOND_HIGH >= TICKS_PER_SECOND_HIGH;
        }
      } else {
        var e, l := earlier.wallClock, later.wallClock;
        if e.sec < l.sec {
          assert (l.sec - e.sec) * TICKS_PER_SECOND_LOW >= TICKS_PER_SECOND_LOW;
        }
      }
    }
  }

  /** A selected counter that does not run backwards gives seconds that do not decrease. */
  lemma CounterSecondsMonotone(platform: Platform, probe: Probe, earlier: OsClocks, later: OsClocks)
    requires ProbeValid(platform, probe) && earlier.Valid() && later.Valid()
    requires NotBefore(platform, probe.available, later, earlier)
    ensures CounterSeconds(platform, probe, earlier) <= CounterSeconds(platform, probe, later)
  {
    RawTimeMonotone(platform, probe.available, earlier, later);
    RawTimeMeasuresSeconds(platform, probe, earlier);
    RawTimeMeasuresSeconds(platform, probe, later);
    var res := Resolution(platform, probe);
    var a, b := RawTime(platform, probe.available, earlier) as real, RawTime(platform, probe.available, later) as real;
    assert b * res - a * res == (b - a) * res;
  }

  /** The gettimeofday fallback as written: the wall clock advances by exactly one second
      and the reading advances by a thousand seconds. */
  lemma FallbackAsWrittenReadsThousandSeconds()
    ensures var probe, before, after := Probe(false, 0),
                                         OsClocks(0, 0, TimeSpec(0, 0), TimeVal(0, 0)),
                                         OsClocks(0, 0, TimeSpec(0, 0), TimeVal(1, 0));
            && CounterSeconds(Linux, probe, after) - CounterSeconds(Linux, probe, before) == 1.0
            && Reading(RawTimeAsWritten(Linux, false, after),
                       RawTimeAsWritten(Linux, false, before) as real,
                       ResolutionAsWritten(Linux, probe)) == 1000.0
  {
  }

  /** The GetTickCount fallback as written: one thousand milliseconds read as one hundred
      seconds. */
  lemma TickCountAsWrittenReadsHundredSeconds()
    ensures var probe, before, after := Probe(false, 0),
                                         OsClocks(0, 0, TimeSpec(0, 0), TimeVal(0, 0)),
                                         OsClocks(0, 1000, TimeSpec(0, 0), TimeVal(0, 0));
            && CounterSeconds(Windows, probe, after) - CounterSeconds(Windows, probe, before) == 1.0
            && Reading(RawTimeAsWritten(Windows, false, after),
                       RawTimeAsWritten(Windows, false, before) as real,
                       ResolutionAsWritten(Windows, probe)) == 100.0
  {
  }

  /** The arithmetic a clock runs on the two fallback paths: the header's own (`000.1`
      seconds per GetTickCount tick, `tv_sec * 1e9 + tv_usec` on the gettimeofday path) or
      the corrected one. The two agree on the high-resolution paths. */
  datatype Arithmetic = AsWritten | Corrected

  /** The resolution a clock on `arithmetic` records at initialisation. */
  function ClockResolution(arithmetic: Arithmetic, platform: Platform, probe: Probe): (r: real)
    requires ProbeValid(platform, probe)
    ensures r > 0.0
  {
    if arithmetic == Corrected then Resolution(platform, probe) else ResolutionAsWritten(platform, probe)
  }

  /** The raw ticks a clock on `arithmetic` reads. */
  function ClockRawTime(arithmetic: Arithmetic, platform: Platform, highRes: bool, os: OsClocks): (raw: nat)
    requires os.Valid()
    ensures raw < UINT64_LIMIT
  {
    if arithmetic == Corrected then RawTime(platform, highRes, os) else RawTimeAsWritten(platform, highRes, os)
  }

  /** Reference definition: what a clock on `arithmetic` measures at the instant `os`.
      With the corrected arithmetic, and on the high-resolution paths as written, it is the
      counter's seconds. As written, the GetTickCount path counts every second a hundred
      times, and the gettimeofday path counts its whole seconds a thousand times. */
  function MeasuredSeconds(arithmetic: Arithmetic, platform: Platform, probe: Probe, os: OsClocks): real
    requires ProbeValid(platform, probe)
  {
    var seconds := CounterSeconds(platform, probe, os);
    if arithmetic == Corrected || probe.available then seconds
    else
      match platform
      case Windows => 100.0 * seconds
      case Linux => seconds + 999.0 * os.wallClock.sec as real
  }

  /** Raw ticks times resolution are the measured seconds, on either arithmetic. */
  lemma ClockRawTimeMeasures(arithmetic: Arithmetic, platform: Platform, probe: Probe, os: OsClocks)
    requires ProbeValid(platform, probe) && os.Valid()
    ensures ClockRawTime(arithmetic, platform, probe.available, os) as real * ClockResolution(arithmetic, platform, probe)
            == MeasuredSeconds(arithmetic, platform, probe, os)
  {
    RawTimeMeasuresSeconds(platform, probe, os);
  }

  /** A clock's reading against a base sampled at `origin` is the measured seconds since
      then, on either arithmetic. */
  lemma ClockReadingMeasuresElapsed(arithmetic: Arithmetic, platform: Platform, probe: Probe,
                                    origin: OsClocks, now: OsClocks)
    requires ProbeValid(platform, probe) && origin.Valid() && now.Valid()
    ensures Reading(ClockRawTime(arithmetic, platform, probe.available, now),
                    ClockRawTime(arithmetic, platform, probe.available, origin) as real,
                    ClockResolution(arithmetic, platform, probe))
            == MeasuredSeconds(arithmetic, platform, probe, now) - MeasuredSeconds(arithmetic, platform, probe, origin)
  {
    ClockRawTimeMeasures(arithmetic, platform, probe, now);
    ClockRawTimeMeasures(arithmetic, platform, probe, origin);
  }

  /** A selected counter that does not run backwards gives measured seconds that do not
      decrease, on either arithmetic. */
  lemma MeasuredSecondsMonotone(arithmetic: Arithmetic, platform: Platform, probe: Probe,
                                earlier: OsClocks, later: OsClocks)
    requires ProbeValid(platform, probe) && earlier.Valid() && later.Valid()
    requires NotBefore(platform, probe.available, later, earlier)
    ensures MeasuredSeconds(arithmetic, platform, probe, earlier) <= MeasuredSeconds(arithmetic, platform, probe, later)
  {
    CounterSecondsMonotone(platform, probe, earlier, later);
  }
}
