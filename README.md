# ADSR envelope and PolyBLEP oscillator, modelled in Dafny

This project models the signal-generation core of a small synthesizer
plugin. It has two components, and each keeps its per-voice state in an
object that the audio callback drives once per sample:

- **The ADSR envelope** (`src/envelope.rs`) is a sample-clocked state
  machine. It holds clamped attack, decay, sustain and release parameters,
  a sample clock, the clock of the last note-on, an optional note-off
  clock, a velocity and the last amplitude. The stage (attack, decay,
  sustain or release) is never stored. `next_sample` recomputes it from
  elapsed time on every call.
- **The PolyBLEP oscillator** (`src/oscillator.rs`) keeps a phase
  accumulator in [0, 1). Each sample it advances the phase by
  `frequency / sample_rate` and wraps it by subtracting the floor. Sine,
  square, saw and triangle are built from naive piecewise-linear shapes
  plus a quadratic band-limited step correction, `poly_blep`, that is
  non-zero only in a window one increment wide on each side of an edge.
  The output is clamped to [-1, 1].

`src/osc.rs` is a line-for-line copy of the oscillator without doc
comments, and the same model serves it:

| `src/oscillator.rs` | `src/osc.rs` |
|---|---|
| `new` at 46-55 | 22-31 |
| `set_frequency` at 63-66 | 34-37 |
| `poly_blep` at 78-88 | 40-50 |
| `next_sample` at 100-134 | 53-87 |
| phase wrap at 130-131 | 83-84 |

The files:

- `numeric.dfy` (module `Numeric`) contains `Option`, and Rust's f32
  `max`, `clamp`, `trunc` and `%` stated over `real`. It also holds the
  fractional part, the function `Mul`, and small facts about real products
  and quotients that the other proofs reuse.
- `envelope.dfy` (module `Envelope`) contains the specification functions
  `HeldLevel`, `ReleaseLevel` and `Level`, the lemmas about the envelope
  contour, the method `StageLevel` holding the stage selection of
  `next_sample`, and the class `ADSR`. Each `ADSR` method's `modifies`
  clause names exactly the fields the Rust method assigns.
- `oscillator.dfy` (module `Oscillator`) contains `PolyBlep`, the naive
  shapes, the correction terms, the method `ShapeSample` holding the
  waveform `match` of `next_sample`, the phase advance, its closed form
  over many samples, and the class `PolyBlepOscillator`.

All arithmetic is over `real`. The sample counters are `nat`. The sine
branch samples a function `sinTurn` that the caller passes in, standing
for x ↦ sin(2πx).

**Divisions in the envelope.** Every division the envelope performs has a
strictly positive divisor:

- The attack ramp divides by `attack` only when `0 <= time < attack`.
- The decay ramp divides by `decay` only when
  `attack <= time < attack + decay`.
- The release ramp divides by `release` only when
  `0 <= release_time < release`.

Zero-length stages are skipped, or snap to 0 in release, with no extra
guard. Dafny checks every division in `HeldLevel`, `ReleaseLevel` and
`StageLevel` against a non-zero divisor, and `ZeroLengthStagesAreInstant`
states the result.

**The release reads live parameters.** The release ramp reads the current
`sustain` and `release` fields on every sample. So `update_params` during a
release changes the ramp. A release that has already finished is not
silent for good either: a later update to a longer `release` makes it
audible again, with the trigger and note-off clocks unchanged. For example,
with `sustain = 0.5` the level one second after note-off is 0 for
`release = 1` and 0.25 for `release = 2`.

## Model

| member | source | states |
|---|---|---|
| Numeric.Max | src/envelope.rs:26 | `f32::max`: the result is at least both arguments and is one of them |
| Numeric.Clamp | src/envelope.rs:28 | `f32::clamp`: the result lies in [lo, hi]; it is `x` inside the range, `lo` below it and `hi` above it |
| Numeric.Trunc | src/oscillator.rs:106 | the helper of `FloatRem` (f32 `%` truncates its quotient): rounds toward zero, within one below a non-negative argument and within one above a negative one |
| Numeric.FloatRem | src/oscillator.rs:106 | f32 `%` as the truncated remainder; modulo 1 of a non-negative value it is the fractional part, in [0, 1) |
| Numeric.Frac | src/oscillator.rs:131 | `x - floor(x)` lies in [0, 1) and differs from `x` by a whole number |
| Envelope.Duration | src/envelope.rs:26-29 | a stored duration is never negative; a non-negative input is kept and a negative one becomes 0 |
| Envelope.UnitLevel | src/envelope.rs:28 | a stored sustain or velocity lies in [0, 1] and equals the input when the input already does |
| Envelope.Seconds | src/envelope.rs:67 | elapsed seconds between two clock readings are non-negative and zero at the same clock; the `usize` subtraction cannot underflow because its precondition is the counter order |
| Envelope.SecondsMonotone | src/envelope.rs:74-75 | elapsed time never decreases as the clock advances, and strictly increases per sample |
| Envelope.HeldLevel | src/envelope.rs:82-95 | the held contour lies in [0, 1]; it is below the peak during attack and at least `sustain` afterwards; each ramp divides only by a positive duration |
| Envelope.ReleaseLevel | src/envelope.rs:71-81 | the release contour lies in [0, sustain], and is audible exactly while the release has not finished and sustain is non-zero |
| Envelope.Level | src/envelope.rs:66-96 | the level before velocity: release once the clock reaches the note-off, otherwise the held contour; always in [0, 1] |
| Envelope.RetriggerStartsFresh | src/envelope.rs:54-58 | right after `on` the level is 0 with an attack, 1 with an instant attack and a decay, otherwise `sustain`; a release in progress is forgotten |
| Envelope.ReleaseStartsAtSustain | src/envelope.rs:72-81 | on the sample of note-off the level is `sustain` (0 when release is zero), whatever stage the note was in |
| Envelope.AttackRises | src/envelope.rs:84-86 | during attack the level strictly rises from sample to sample and stays below 1 |
| Envelope.HeldAfterAttack | src/envelope.rs:87-94 | after attack a held note lies in [sustain, 1], and equals `sustain` once the decay is over |
| Envelope.HeldNonIncreasingAfterAttack | src/envelope.rs:87-94 | after attack a held note never gets louder on a later sample |
| Envelope.HeldLevelNonIncreasing | src/envelope.rs:87-90 | the decay-then-sustain contour is non-increasing in time |
| Envelope.ZeroLengthStagesAreInstant | src/envelope.rs:76-94 | with zero attack and decay a held note sits at `sustain` at once; with zero release the note is silent from the note-off sample on |
| Envelope.ReleaseNonIncreasing | src/envelope.rs:71-81 | from the note-off sample on, the level never exceeds `sustain` and never increases |
| Envelope.ReleaseLevelNonIncreasing | src/envelope.rs:76-80 | the release ramp `sustain * (1 - t / release)` is non-increasing in `t` |
| Envelope.ReleaseSilentAfterEnd | src/envelope.rs:76-77 | for unchanged parameters and counters, once the release time reaches the release duration every later clock reading is silent |
| Envelope.LongerReleaseRevives | src/envelope.rs:49-50 | a release that has finished under `release = 1` is audible again, at 0.25, after the release is raised to 2 with the same counters and `sustain = 0.5` |
| Envelope.ReleaseAudibleIff | src/envelope.rs:76-80 | during release the level is positive exactly when the release time is short of `release` and `sustain` is positive |
| Envelope.ReleaseActiveIff | src/envelope.rs:76-80 | during release, with velocity in [0, 1], level times velocity is positive (what `is_active` then reports, src/envelope.rs:98, 103-105) exactly when the release time is short of `release` and both `sustain` and velocity are positive |
| Envelope.StageLevel | src/envelope.rs:67-96 | the stage selection and ramps of `next_sample` compute `Level` for the current clock, counters and parameters |
| Envelope.ADSR.constructor | src/envelope.rs:24-37 | `new`: durations clamped to >= 0, sustain to [0, 1], counters 0, no note-off, amplitude 0, velocity 1; the object invariant holds |
| Envelope.ADSR.Default | src/envelope.rs:108-123 | `Default`: zero attack, decay and release, full sustain, 44100 Hz, the same initial counters and levels as `new` |
| Envelope.ADSR.UpdateParams | src/envelope.rs:39-52 | per field: `None` keeps the stored attack, decay, sustain or release; `Some(x)` stores `max(x, 0)` for a duration and `x` clamped to [0, 1] for sustain; an update with every field `None` leaves the parameters unchanged; only the four shape fields can change |
| Envelope.ADSR.On | src/envelope.rs:54-58 | trigger clock := current clock, note-off cleared, velocity clamped to [0, 1]; only those three fields change |
| Envelope.ADSR.Off | src/envelope.rs:60-64 | records the current clock as note-off only when none is pending, so a second call changes nothing; only the note-off field can change |
| Envelope.ADSR.NextSample | src/envelope.rs:66-105 | returns and stores `Level(...) * velocity` for the pre-increment clock, in [0, 1]; `IsActive` (`current_amplitude > 0`) holds afterwards exactly when that level and the velocity are both positive; the clock advances by exactly one; no other field changes; the counter order `trigger <= note-off <= current` is preserved |
| Oscillator.PolyBlep | src/oscillator.rs:78-88 | zero whenever `dt <= t <= 1 - dt`; within [-1, 1] for every `t` in [0, 1]; every division is by a non-zero increment |
| Oscillator.PolyBlepSigns | src/osc.rs:40-50 | on [0, 1] the correction is in [-1, 0) in the rising window `t < dt`, and in (0, 1] in the falling window `t > 1 - dt` when also `dt <= t` (where the windows overlap the rising test wins) |
| Oscillator.RisingRampBounds | src/oscillator.rs:81 | `2u - u^2 - 1` lies in [-1, 0) for `u` in [0, 1) |
| Oscillator.FallingRampBounds | src/oscillator.rs:84 | `u^2 + 2u + 1` lies in (0, 1] for `u` in (-1, 0] |
| Oscillator.RisingBounds | src/oscillator.rs:79-81 | for `0 <= t < dt` the rising ramp of `t / dt` lies in [-1, 0) |
| Oscillator.FallingBounds | src/oscillator.rs:82-84 | for `1 - dt < t <= 1` the falling ramp of `(t - 1) / dt` lies in (0, 1] |
| Oscillator.PolyBlepIsSquaredDistance | src/osc.rs:41-46 | inside the windows the correction equals `-(1 - t/dt)^2` and `(1 + (t - 1)/dt)^2` |
| Oscillator.Naive | src/oscillator.rs:101-119 | the uncorrected shapes: square is +1 exactly for `phase < 0.5` and -1 exactly otherwise; square, saw and triangle lie in [-1, 1] |
| Oscillator.HalfCycleOn | src/oscillator.rs:106 | `(phase + 0.5) % 1.0` lies in [0, 1) and is `phase + 0.5` below one half and `phase - 0.5` from one half on |
| Oscillator.Correction | src/oscillator.rs:101-128 | the PolyBLEP terms each shape adds to its naive value: none for sine or for a non-positive increment; within [-1, 1] for saw and within [-2, 2] for square |
| Oscillator.Waveform | src/oscillator.rs:101-128 | the unclamped sample is `sin(2 pi phase)` for sine whatever the increment, and the naive shape for any shape when the increment is not positive |
| Oscillator.ShapeSample | src/oscillator.rs:101-128 | the `match` of `next_sample`, statement by statement, computes `Waveform` for the current phase and increment |
| Oscillator.NaiveOutsideWindows | src/oscillator.rs:103-127 | outside the correction windows of its edges every shape is its naive value |
| Oscillator.SquareNeedsNoClamp | src/oscillator.rs:103-108 | with `0 < dt <= 1/2` the corrected square already lies in [-1, 1] |
| Oscillator.SawNeedsNoClamp | src/oscillator.rs:109-113 | with `0 < dt <= 1/2` the corrected saw already lies in [-1, 1] |
| Oscillator.JumpsCorrectedToMidpoint | src/oscillator.rs:103-113 | with `0 < dt <= 1/2` the corrected saw at phase 0 and the corrected square at phases 0 and 1/2 are 0, the midpoint of the jump |
| Oscillator.TriangleCornerOvershoots | src/oscillator.rs:114-127 | with `0 < dt <= 1/2` the corrected triangle at phase 0 is `-1 - 4 dt`, below -1, so the output clamp at line 133 is needed |
| Oscillator.Advance | src/oscillator.rs:130-131 | the advanced and wrapped phase lies in [0, 1) |
| Oscillator.PhaseAfter | src/oscillator.rs:130-131 | the phase after `n` calls of `next_sample`, repeating the advance; it lies in [0, 1) after at least one call, and always when it starts there |
| Oscillator.PhaseAfterClosedForm | src/osc.rs:83-84 | wrapping on every sample gives the same phase as wrapping once: after `n` samples the phase is the fractional part of `phase + n * dt` |
| Oscillator.PhasePeriodic | src/osc.rs:83-84 | when `n` increments add up to a whole number of cycles, the phase returns exactly to where it started |
| Oscillator.PolyBlepOscillator.constructor | src/oscillator.rs:46-55 | `new`: the given rate and frequency, phase 0, increment `frequency / sample_rate`; the invariant holds |
| Oscillator.PolyBlepOscillator.SetFrequency | src/oscillator.rs:63-66 | stores the frequency and recomputes the increment as `frequency / sample_rate`; only those two fields change, so phase and sample rate are untouched |
| Oscillator.PolyBlepOscillator.NextSample | src/oscillator.rs:100-134 | returns the clamped corrected waveform at the pre-advance phase, always within [-1, 1]; the new phase is the old one advanced by one increment and wrapped into [0, 1); only the phase changes |

## Left out

- `src/lib.rs` is not part of this model. It is host glue: parameter definitions, smoothing, MIDI dispatch, buffer iteration, the note-to-frequency and decibel helpers, and plugin metadata.
- IEEE-754 `f32` behaviour is not modelled: NaN and infinities, rounding in `phase - floor(phase)`, and precision loss in the `usize as f32` conversions at `src/envelope.rs:67,75`. All arithmetic is exact over `real`.
- `sin` has no Dafny counterpart. The sine branch samples the caller-supplied function `sinTurn`, and only the final clamp bounds it.
- `usize` wrap-around of `current_sample` after 2^64 samples is not modelled. The counters are unbounded `nat`. Within that range Rust's `+= 1` is the same as the model's.
- Spectral and anti-aliasing quality of PolyBLEP, and behaviour near Nyquist, are signal-processing claims rather than properties of the state.
- Envelope.ADSR.constructor: requires `sampleRate > 0`. The Rust constructor accepts any value, but a zero rate makes every later elapsed-time computation non-finite.
- Oscillator.PolyBlepOscillator.constructor: requires `sampleRate > 0` for the same reason. At zero the increment would be infinite or NaN.
- Oscillator.PolyBlepOscillator.SetFrequency: requires a positive sample rate and a phase in [0, 1). The constructor and `next_sample` always keep both.
- The derived `Debug`, `Clone`, `Copy`, `PartialEq` and `Enum` implementations have no behaviour to model. `OscillatorType` is a plain datatype.
