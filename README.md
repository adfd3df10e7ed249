# TinyClock in Dafny

TinyClock is a single process-wide clock for real-time loops. It keeps the total time
since initialisation and the delta of the most recent update. Two update policies exist:
a fixed step (`1 / stepsPerSecond` per call) and an adaptive step driven by a hardware
counter. The counter is chosen once at initialisation, with its resolution and a base
tick. The repository holds three revisions of the one header, and this model keeps them
apart:

- `Include/TinyClock.h` (latest): every update and accessor checks the `initialized`
  flag, and a second `Intialize` does nothing. The adaptive update overwrites the total
  with the absolute reading `(raw - base) * resolution`.
- `include/TinyClock.h`: the same, except that `Intialize` always re-zeroes the times
  and re-samples the base.
- `TinyClock.h` (oldest): no flag and no platform layer. The adaptive update reads the
  processor clock and adds `new - PreviousTime` to the total.

Modules:

- `TimeSource` (`time_source.dfy`): the platform layer of the two later revisions.
  - `Probe` is what the host answers at initialisation: whether a high-resolution
    counter exists and, on Windows, its frequency.
  - `OsClocks` is what the host's counters show at one instant: the performance counter,
    the `GetTickCount` milliseconds, the monotonic `timespec` and the `gettimeofday`
    `timeval`.
  - `Resolution` chooses the seconds per tick. `RawTime` composes the raw tick value on
    the path the recorded capability selects. `Reading` is the `GetTime` formula.
    `ResolutionAsWritten` and `RawTimeAsWritten` keep the header's own arithmetic on the
    two fallback paths (see "Findings").
  - `Arithmetic` (`AsWritten` or `Corrected`) selects between the two, through
    `ClockResolution` and `ClockRawTime`.
  - `CounterSeconds` is an independent reference definition of the selected counter's
    value in seconds. `MeasuredSeconds` is what a clock on either arithmetic measures:
    `CounterSeconds`, except on the fallback paths as written. The lemmas connect both
    to raw ticks times resolution.
- `Sums` (`sums.dfy`): the sum of a sequence of reals, used by both telescoping lemmas.
- `TinyClock` (`tiny_clock.dfy`): the clock of the two later revisions.
  - It is one class `Clock`, parameterised by a `Build`: the `Revision` (`GuardedInit`
    for `Include/`, `ResettingInit` for `include/`), the `Platform`, which stands for the
    `#if` selection, and the `Arithmetic`. A clock built `AsWritten` runs the header's
    code as it stands; one built `Corrected` runs it with the two unit errors fixed.
  - `ClockState` and the `After*` functions give the effect of one call as a value. The
    class methods are proved against them.
  - Multi-step facts are lemmas over `FixedRun`, `AdaptiveRun` and `AdaptiveDeltas`:
    N fixed steps, telescoping deltas, non-negative deltas and the reading in seconds.
- `LegacyClock` (`legacy_clock.dfy`): the oldest revision, with the same structure. Its
  state is the total, the delta and the previous reading.

Times are `real`. Every operating-system call becomes a parameter: the `Probe`, the
`OsClocks` instant, or the processor-clock reading `now` in the oldest revision.

Facts about the code that shape the model:

- Only `Include/TinyClock.h:43` guards `Intialize`, so a second call there changes nothing
  (`GuardedInitializeIsIdempotent`). `include/TinyClock.h:41-52` and `TinyClock.h:14-19`
  re-zero the times and re-sample on every call (`ResettingInitializeDiscardsTime`).
- In the two later revisions the total does not always grow. It grows while adaptive
  updates follow each other or follow `Intialize`. An adaptive update after fixed steps
  overwrites the total with the counter reading, which can be smaller. So
  `AdaptiveDeltasNonNegative` requires the total to be an earlier reading.
- The accessors' comments (`Include/TinyClock.h:92`, `:104`) speak of milliseconds. The
  high-resolution paths and the corrected fallback paths convert ticks to seconds, so the
  model measures seconds. The exceptions are the two fallback paths as written, which
  miscount by a factor of 100 or 1000 (see "Findings").

## Model

| member | source | states |
|---|---|---|
| `TimeSource.MonotonicTicksSplit` | Include/TinyClock.h:274 | raw monotonic ticks `sec * 1e9 + nsec` give back `sec` and `nsec` by division and remainder, so no nanosecond is lost |
| `TimeSource.Resolution` | Include/TinyClock.h:186-262 | the resolution chosen at initialisation is positive: `1/frequency` or 0.001, the corrected GetTickCount resolution (`ResolutionAsWritten` keeps `000.1`), on Windows; `1e-9` or `1e-6` on Linux |
| `TimeSource.ResolutionAsWritten` | include/TinyClock.h:183-202 | the header's own choice, with `RESOLUTION_LOW = 000.1` on the Windows fallback, is positive and differs from `Resolution` only on that fallback |
| `TimeSource.RawTime` | Include/TinyClock.h:214-226 | the raw tick value read on the selected path fits in `uint64` |
| `TimeSource.RawTimeAsWritten` | include/TinyClock.h:264-281 | the header's raw ticks, with `tv_sec * 1e9 + tv_usec` on the gettimeofday path, fit in `uint64` and equal `RawTime` on every other path |
| `TimeSource.RawTimeMeasuresSeconds` | Include/TinyClock.h:267-284 | on every path, raw ticks times the chosen resolution equal the counter's value in seconds (`CounterSeconds`) |
| `TimeSource.ReadingMeasuresElapsed` | Include/TinyClock.h:233-236 | `(raw - base) * resolution` against a base sampled at `origin` is the seconds elapsed since `origin` |
| `TimeSource.ReadingAtBaseIsZero` | include/TinyClock.h:288-291 | a reading taken at the base tick is 0 |
| `TimeSource.RawTimeMonotone` | Include/TinyClock.h:267-284 | on every path, if the counter that path reads does not run backwards, the raw value does not decrease, whatever the other counters do |
| `TimeSource.CounterSecondsMonotone` | Include/TinyClock.h:291-294 | if the selected counter does not run backwards, its seconds do not decrease |
| `TimeSource.ClockResolution` | include/TinyClock.h:183-202 | the resolution a clock records on either arithmetic is positive |
| `TimeSource.ClockRawTime` | include/TinyClock.h:264-281 | the raw ticks a clock reads on either arithmetic fit in `uint64` |
| `TimeSource.ClockRawTimeMeasures` | Include/TinyClock.h:267-284 | on either arithmetic, raw ticks times resolution equal `MeasuredSeconds`: the counter's seconds, a hundredfold on the GetTickCount path as written, whole seconds a thousandfold on the gettimeofday path as written |
| `TimeSource.ClockReadingMeasuresElapsed` | Include/TinyClock.h:233-236 | on either arithmetic, `(raw - base) * resolution` is the measured seconds since the base sample |
| `TimeSource.MeasuredSecondsMonotone` | Include/TinyClock.h:291-294 | if the selected counter does not run backwards, the measured seconds do not decrease, on either arithmetic |
| `TimeSource.FallbackAsWrittenReadsThousandSeconds` | Include/TinyClock.h:282 | as written, one second of wall clock on the gettimeofday path reads as 1000 seconds |
| `TimeSource.TickCountAsWrittenReadsHundredSeconds` | Include/TinyClock.h:201-205 | as written, 1000 `GetTickCount` milliseconds read as 100 seconds |
| `TinyClock.ErrorMessage` | Include/TinyClock.h:150-165 | a diagnostic line is printed exactly for the not-initialised error number (`ERROR_FIRST + 1`) |
| `TinyClock.InitializeStartsAtZero` | Include/TinyClock.h:41-55 | a first `Intialize`, and every one in the resetting revision, sets the flag, zeroes total and delta, records the capability, resolution and base, and reads 0 at the base instant |
| `TinyClock.GuardedInitializeIsIdempotent` | Include/TinyClock.h:43 | in the guarded revision a second `Intialize` changes nothing: times, base and resolution are preserved |
| `TinyClock.ResettingInitializeDiscardsTime` | include/TinyClock.h:41-52 | in the resetting revision `Intialize` gives the same state from any prior state, so it discards whatever any fixed or adaptive updates accumulated; the result is initialised with total and delta 0 |
| `TinyClock.UpdatesBeforeInitializeChangeNothing` | Include/TinyClock.h:60-89 | before initialisation both updates leave the state unchanged, for any step, and only report the not-initialised error |
| `TinyClock.FixedStepsAccumulate` | Include/TinyClock.h:60-66 | N fixed updates of an initialised clock add exactly `N / step` to the total, leave delta `1 / step` and change nothing else |
| `TinyClock.FixedStepsFromInitialize` | include/TinyClock.h:57-63 | N fixed updates from a fresh `Intialize` give a total of `N / step` |
| `TinyClock.SixtyStepsAtSixtyIsOneSecond` | include/TinyClock.h:41-69 | `Intialize` then 60 updates at 60 steps per second give a total of 1 |
| `TinyClock.TimeMeasuresElapsed` | Include/TinyClock.h:121-133 | on an initialised clock of either arithmetic, `GetTime` is the measured seconds since the base sample (`Elapsed`) |
| `TinyClock.ElapsedIsCounterSeconds` | Include/TinyClock.h:267-284 | with the corrected arithmetic, or on a high-resolution path, the measured seconds are the seconds the selected counter advanced |
| `TinyClock.AdaptiveMeasuresElapsed` | Include/TinyClock.h:77-84 | an adaptive update overwrites the total with the measured seconds since the base sample, sets delta to the change of the total, and keeps base and resolution |
| `TinyClock.FallbackSecondAsWritten` | Include/TinyClock.h:41-84 | `Intialize` on a fallback path, then an adaptive update one host second later, gives a total of 1 with the corrected arithmetic, but 100 (GetTickCount) or 1000 (gettimeofday) as written |
| `TinyClock.AdaptiveDeltasTelescope` | Include/TinyClock.h:81-83 | the deltas of a run of adaptive updates sum to the change of the total |
| `TinyClock.AdaptiveRunReadsLastSample` | include/TinyClock.h:74-81 | after a run of adaptive updates the total is the last sample's measured seconds since the base, whatever the total was before (no accumulation) |
| `TinyClock.AdaptiveDeltasNonNegative` | Include/TinyClock.h:79-84 | if the total is an earlier sample's reading and the selected counter does not run backwards, every adaptive delta is at least 0 and the total does not decrease |
| `TinyClock.FirstAdaptiveDeltaIsElapsed` | include/TinyClock.h:41-81 | `Intialize` then one adaptive update gives a delta equal to the measured seconds since the base sample, and that delta is at least 0 when the selected counter does not run backwards |
| `TinyClock.WallClockStepIgnoredOnMonotonicPath` | Include/TinyClock.h:270-276 | on Linux with the monotonic clock, a monotonic advance of 1 s while the wall clock steps back 1 s gives a first adaptive delta and total of 1 |
| `TinyClock.Clock.constructor` | Include/TinyClock.h:32-35 | a new clock, of any build, is not initialised |
| `TinyClock.Clock.Initialize` | Include/TinyClock.h:41-55 | the new state is `AfterInitialize` of the old one (skipped on an initialised clock in the guarded revision), and the clock invariant holds |
| `TinyClock.Clock.InitializeTimer` | Include/TinyClock.h:186-209 | records the capability and its resolution, then samples the base on the counter that capability selects, both on the clock's arithmetic; the times and the flag are unchanged |
| `TinyClock.Clock.UpdateClockFixed` | Include/TinyClock.h:60-72 | the new state is `AfterFixedUpdate` of the old one, for any step before initialisation; the outcome is the not-initialised report exactly when the clock was not initialised |
| `TinyClock.Clock.UpdateClockAdaptive` | Include/TinyClock.h:77-89 | the new state is `AfterAdaptiveUpdate` of the old one; when initialised, the total is the measured seconds since the base sample (`Elapsed`) and the delta is its change |
| `TinyClock.Clock.GetTime` | Include/TinyClock.h:121-133 | 0 before initialisation, otherwise the measured seconds since the base sample (`Elapsed`) |
| `TinyClock.Clock.GetTotalTime` | Include/TinyClock.h:94-102 | returns the stored total, or 0 with the not-initialised report before initialisation; changes nothing |
| `TinyClock.Clock.GetDeltaTime` | Include/TinyClock.h:106-114 | returns the stored delta, or 0 with the not-initialised report before initialisation; changes nothing |
| `TinyClock.HostStartsAtZero` | include/TinyClock.h:41-111 | a host that updates before initialising, even with a zero step, gets the report; after `Intialize` both accessors return 0 |
| `LegacyClock.FixedStepsAccumulate` | TinyClock.h:21-25 | N fixed updates add exactly `N / step` to the total, leave delta `1 / step` and keep the previous reading |
| `LegacyClock.SixtyStepsAtSixtyIsOneSecond` | TinyClock.h:14-25 | `Intialize` then 60 updates at 60 steps per second give a total of 1 |
| `LegacyClock.AdaptiveDeltasTelescope` | TinyClock.h:27-33 | the deltas of a run of adaptive updates sum to the change of the total, which is the last reading minus the previous reading before the run |
| `LegacyClock.AdaptiveAfterInitializeIsElapsed` | TinyClock.h:14-33 | `Intialize` at reading r0, then adaptive updates at r1..rn, give a total of `rn - r0` |
| `LegacyClock.AdaptiveDeltasNonNegative` | TinyClock.h:29-32 | with non-decreasing readings every adaptive delta is at least 0 and the total does not decrease |
| `LegacyClock.Clock.constructor` | TinyClock.h:11 | a new clock holds zero times |
| `LegacyClock.Clock.Initialize` | TinyClock.h:14-19 | total and delta become 0 and the previous reading becomes the current one, on every call |
| `LegacyClock.Clock.UpdateClockFixed` | TinyClock.h:21-25 | the delta times the step is 1, and the total grows by the delta |
| `LegacyClock.Clock.UpdateClockAdaptive` | TinyClock.h:27-33 | the delta is the new reading minus the previous one, the total grows by exactly that delta, the previous reading becomes the new one, and a reading no earlier than the previous one gives a non-negative delta |
| `LegacyClock.Clock.GetTotalTime` | TinyClock.h:35-38 | returns the stored total with no initialisation check; changes nothing |
| `LegacyClock.Clock.GetDeltaTime` | TinyClock.h:40-43 | returns the stored delta with no initialisation check; changes nothing |

## Left out

- Operating-system timer calls (`QueryPerformanceFrequency`, `QueryPerformanceCounter`,
  `GetTickCount`, `clock_gettime`, `gettimeofday`, `clock()`) are foreign calls. What they
  report is a parameter: a `Probe`, an `OsClocks` instant, or the processor-clock reading
  `now` in seconds.
- IEEE `double` rounding: times are `real`. Exact facts such as `60 * (1/60) == 1` hold in
  the model, not in floating point.
- `printf` in `PrintErrorMessage` is I/O. The model returns the error number as an
  `Outcome`, and `ErrorMessage` gives the line that would be printed.
- Singleton allocation (`new`, the static instance pointer, the lazy `GetInstance`) is not
  modelled; the model uses one explicit `Clock` object. In the two later revisions
  `GetInstance` also sets `initialized` when it first allocates. Only the first
  `GetInstance` call inside `Intialize` (`Include/TinyClock.h:45`, `include/TinyClock.h:43`)
  finds the flag false. That call sets the flag before the platform initialisation runs,
  and `Intialize` sets it again at its end, so the side effect is not observable.
- The public constructor writes the static flag (`Include/TinyClock.h:32-35`,
  `include/TinyClock.h:32-35`). A host that itself constructs a clock object therefore
  de-initialises the process-wide clock: the accessors report the error again, and the
  guarded `Intialize` runs once more. The model's `new Clock` is a separate object with
  its own flag, so it cannot show this.
- Platform selection by the preprocessor: `Platform` is a constant of the clock. A build
  without `CLOCK_MONOTONIC` is the Linux probe answering "unavailable".
- Counter overflow: `OsClocks.Valid` requires that the counters and the composed raw
  values fit their unsigned types (`uint64`, and `DWORD` for `GetTickCount`). Wrap-around
  is not modelled.
- The `initialized` check inside `GetTime` has an error branch that prints the diagnostic.
  It is unreachable, because `GetTime` is only called from the initialised branch of
  `UpdateClockAdaptive`. `TinyClock.Clock.GetTime` returns 0 there and reports nothing.
- TinyClock.Clock.UpdateClockFixed: requires a non-zero step on an initialised clock only; there the source divides by it and gets an infinity for 0, and nothing in the code guards against that.
- LegacyClock.Clock.UpdateClockFixed: requires a non-zero step for the same reason.
- LegacyClock.Clock.constructor: the source's constructor leaves the three times indeterminate until `Intialize`; the model starts them at 0.
- The two unit errors under "Findings" are modelled both ways: a clock's `Arithmetic`
  chooses the header's own or the corrected one, and `FallbackSecondAsWritten` shows the
  difference on a whole clock.
- `NotBefore` constrains only the counter the clock reads. On the `gettimeofday` fallback
  that counter is the wall clock, which is not monotonic: an adjustment of the system
  time can make it go back. On that path alone, the non-negativity lemmas
  (`AdaptiveDeltasNonNegative`, `FirstAdaptiveDeltaIsElapsed`) say nothing about the
  deltas after such a step.
- The declared but undefined destructors are not modelled.

## Findings

| source | as written | input that shows it | evidently intended | confidence | as-written member | corrected member |
|---|---|---|---|---|---|---|
| Include/TinyClock.h:282 | the gettimeofday path composes `tv_sec * 1e9 + tv_usec` (seconds in nanoseconds plus microseconds) and converts with `1e-6` seconds per tick; `include/TinyClock.h:279` is the same | the wall clock going from (0 s, 0 µs) to (1 s, 0 µs) reads as 1000 seconds | `tv_sec * 1e6 + tv_usec` (the header defines `RESOLUTION_LOW = 1e6` and never uses it), so that one second reads as one second | high, not executed | `TimeSource.FallbackAsWrittenReadsThousandSeconds` | `TimeSource.RawTimeMeasuresSeconds` |
| Include/TinyClock.h:204 | the `GetTickCount` path counts milliseconds but uses the resolution `000.1`, that is 0.1 seconds per tick; `include/TinyClock.h:201` is the same | 1000 ticks (one second) read as 100 seconds | 0.001 seconds per tick, the millisecond resolution the high-resolution path's unit (seconds) calls for | medium, not executed | `TimeSource.TickCountAsWrittenReadsHundredSeconds` | `TimeSource.ReadingMeasuresElapsed` |
