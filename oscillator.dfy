/** The PolyBLEP oscillator of `src/oscillator.rs` (and of its duplicate
    `src/osc.rs`): a phase accumulator in [0, 1) and four waveform shapes,
    corrected near their discontinuities by a polynomial band-limited step. */
module Oscillator {
  import opened Numeric

  /** `OscillatorType`. */
  datatype OscillatorType = Sine | Square | Saw | Triangle

  /** `poly_blep(t)` with window width `dt = phase_increment`. Both ramps
      divide by `dt`; when `dt == 0` neither window contains a `t` in
      [0, 1], so the precondition only asks for that. When the windows
      overlap (`dt > 1/2`) the first test wins, as in the source. */
  function PolyBlep(t: real, dt: real): (r: real)
    requires dt != 0.0 || 0.0 <= t <= 1.0
    ensures dt <= t <= 1.0 - dt ==> r == 0.0
    ensures 0.0 <= t <= 1.0 ==> -1.0 <= r <= 1.0
  {
    if t < dt then
      var u := t / dt;
      RisingBounds(t, dt);
      2.0 * u - u * u - 1.0
    else if t > 1.0 - dt then
      var u := (t - 1.0) / dt;
      FallingBounds(t, dt);
      u * u + 2.0 * u + 1.0
    else
      0.0
  }

  /** Over [0, 1] the correction is negative in the rising window after an
      edge and positive in the falling window before one. */
  lemma PolyBlepSigns(t: real, dt: real)
    requires dt != 0.0 || 0.0 <= t <= 1.0
    ensures 0.0 <= t < dt ==> -1.0 <= PolyBlep(t, dt) < 0.0
    ensures dt <= t && 1.0 - dt < t <= 1.0 ==> 0.0 < PolyBlep(t, dt) <= 1.0
  {
    if 0.0 <= t < dt {
      RisingBounds(t, dt);
    } else if dt <= t && 1.0 - dt < t <= 1.0 {
      FallingBounds(t, dt);
    }
  }

  /** The rising ramp `2u - u^2 - 1 = -(1 - u)^2` lies in [-1, 0) for
      `u` in [0, 1). */
  lemma RisingRampBounds(u: real)
    requires 0.0 <= u < 1.0
    ensures -1.0 <= 2.0 * u - u * u - 1.0 < 0.0
  {
    MulMonotone(u, u, 1.0);  // u^2 <= u
    MulPositive(1.0 - u, 1.0 - u);
    assert Mul(1.0 - u, 1.0 - u) == (1.0 - u) * (1.0 - u);
  }

  /** The falling ramp `u^2 + 2u + 1 = (u + 1)^2` lies in (0, 1] for `u`
      in (-1, 0]. */
  lemma FallingRampBounds(u: real)
    requires -1.0 < u <= 0.0
    ensures 0.0 < u * u + 2.0 * u + 1.0 <= 1.0
  {
    MulMonotone(-u, -u, 1.0);  // u^2 <= -u
    MulPositive(u + 1.0, u + 1.0);
    assert Mul(u + 1.0, u + 1.0) == (u + 1.0) * (u + 1.0);
  }

  /** Inside the rising window, `0 <= t < dt`, the ramp variable `t / dt`
      lies in [0, 1). */
  lemma RisingBounds(t: real, dt: real)
    requires dt != 0.0 && t < dt
    ensures 0.0 <= t ==> -1.0 <= 2.0 * (t / dt) - (t / dt) * (t / dt) - 1.0 < 0.0
  {
    if 0.0 <= t {
      DivBelowOne(t, dt);
      RisingRampBounds(t / dt);
    }
  }

  /** Inside the falling window, `1 - dt < t <= 1`, the ramp variable
      `(t - 1) / dt` lies in (-1, 0]. */
  lemma FallingBounds(t: real, dt: real)
    requires dt != 0.0 && t > 1.0 - dt
    ensures t <= 1.0 ==> var u := (t - 1.0) / dt; 0.0 < u * u + 2.0 * u + 1.0 <= 1.0
  {
    if t <= 1.0 {
      DivBelowOne(1.0 - t, dt);
      assert -((1.0 - t) / dt) == (t - 1.0) / dt;
      FallingRampBounds((t - 1.0) / dt);
    }
  }

  /** Inside its windows the correction is a signed squared distance to the
      edge, in units of the window width: `-(1 - t/dt)^2` after it and
      `(1 + (t - 1)/dt)^2` before it. */
  lemma PolyBlepIsSquaredDistance(t: real, dt: real)
    requires dt > 0.0
    ensures t < dt ==> PolyBlep(t, dt) == -((1.0 - t / dt) * (1.0 - t / dt))
    ensures dt <= t && 1.0 - dt < t ==> PolyBlep(t, dt) == (1.0 + (t - 1.0) / dt) * (1.0 + (t - 1.0) / dt)
  {
    if t < dt {
      RisingValue(t, dt);
      RisingRampIsSquare(t / dt);
    } else if 1.0 - dt < t {
      FallingValue(t, dt);
      FallingRampIsSquare((t - 1.0) / dt);
    }
  }

  lemma RisingValue(t: real, dt: real)
    requires dt > 0.0 && t < dt
    ensures PolyBlep(t, dt) == 2.0 * (t / dt) - (t / dt) * (t / dt) - 1.0
  {
  }

  lemma FallingValue(t: real, dt: real)
    requires dt > 0.0 && dt <= t && 1.0 - dt < t
    ensures PolyBlep(t, dt) == ((t - 1.0) / dt) * ((t - 1.0) / dt) + 2.0 * ((t - 1.0) / dt) + 1.0
  {
  }

  lemma RisingRampIsSquare(u: real)
    ensures 2.0 * u - u * u - 1.0 == -((1.0 - u) * (1.0 - u))
  {
  }

  lemma FallingRampIsSquare(u: real)
    ensures u * u + 2.0 * u + 1.0 == (1.0 + u) * (1.0 + u)
  {
  }

  /** The naive shapes, before any correction. */
  function Naive(oscType: OscillatorType, phase: real, sinTurn: real -> real): (s: real)
    requires 0.0 <= phase < 1.0
    ensures oscType != Sine ==> -1.0 <= s <= 1.0
    ensures oscType == Square ==> (s == 1.0 <==> phase < 0.5) && (s == -1.0 <==> phase >= 0.5)
  {
    match oscType
    case Sine => sinTurn(phase)
    case Square => if phase < 0.5 then 1.0 else -1.0
    case Saw => 2.0 * phase - 1.0
    case Triangle => if phase < 0.5 then 4.0 * phase - 1.0 else 3.0 - 4.0 * phase
  }

  /** The second edge of square and triangle, `(phase + 0.5) % 1.0`: the
      phase moved half a cycle on. */
  function HalfCycleOn(phase: real): (t: real)
    requires 0.0 <= phase < 1.0
    ensures 0.0 <= t < 1.0
    ensures t == if phase < 0.5 then phase + 0.5 else phase - 0.5
  {
    FloatRem(phase + 0.5, 1.0)
  }

  /** The PolyBLEP terms each shape adds to its naive value. Triangle has a
      slope (not a value) discontinuity, so its terms are scaled by `4 dt`. */
  function Correction(oscType: OscillatorType, phase: real, dt: real): (c: real)
    requires 0.0 <= phase < 1.0
    ensures oscType == Sine || dt <= 0.0 ==> c == 0.0
    ensures oscType == Saw ==> -1.0 <= c <= 1.0
    ensures oscType == Square ==> -2.0 <= c <= 2.0
  {
    match oscType
    case Sine => 0.0
    case Square => PolyBlep(phase, dt) - PolyBlep(HalfCycleOn(phase), dt)
    case Saw => -PolyBlep(phase, dt)
    case Triangle => Mul(PolyBlep(phase, dt), 4.0 * dt) - Mul(PolyBlep(HalfCycleOn(phase), dt), 4.0 * dt)
  }

  /** The unclamped sample `next_sample` computes for the pre-advance phase.
      Sine is never corrected, and with a zero or negative increment (a
      frequency of zero or below) no shape is. */
  function Waveform(oscType: OscillatorType, phase: real, dt: real, sinTurn: real -> real): (w: real)
    requires 0.0 <= phase < 1.0
    ensures oscType == Sine ==> w == sinTurn(phase)
    ensures dt <= 0.0 ==> w == Naive(oscType, phase, sinTurn)
  {
    Naive(oscType, phase, sinTurn) + Correction(oscType, phase, dt)
  }

  /** Outside the correction windows round the edges the naive shape is
      returned unchanged: for saw only the edge at phase 0 counts, for square
      and triangle also the one at phase 1/2. */
  lemma NaiveOutsideWindows(oscType: OscillatorType, phase: real, dt: real, sinTurn: real -> real)
    requires 0.0 <= phase < 1.0
    requires dt <= phase <= 1.0 - dt
    requires oscType in {Square, Triangle} ==> dt <= HalfCycleOn(phase) <= 1.0 - dt
    ensures Waveform(oscType, phase, dt, sinTurn) == Naive(oscType, phase, sinTurn)
  {
  }

  /** With `0 < dt <= 1/2` the corrected square already lies in [-1, 1]:
      each edge's correction only moves the sample towards the other level. */
  lemma SquareNeedsNoClamp(phase: real, dt: real, sinTurn: real -> real)
    requires 0.0 <= phase < 1.0 && 0.0 < dt <= 0.5
    ensures -1.0 <= Waveform(Square, phase, dt, sinTurn) <= 1.0
  {
    PolyBlepSigns(phase, dt);
    PolyBlepSigns(HalfCycleOn(phase), dt);
  }

  /** With `0 < dt <= 1/2` the corrected saw already lies in [-1, 1], so the
      final clamp never changes it. */
  lemma SawNeedsNoClamp(phase: real, dt: real, sinTurn: real -> real)
    requires 0.0 <= phase < 1.0 && 0.0 < dt <= 0.5
    ensures -1.0 <= Waveform(Saw, phase, dt, sinTurn) <= 1.0
  {
    assert Waveform(Saw, phase, dt, sinTurn) == 2.0 * phase - 1.0 - PolyBlep(phase, dt);
    if phase < dt {
      var u := phase / dt;
      DivBelowOne(phase, dt);
      RisingValue(phase, dt);
      assert phase == Mul(u, dt);
      SawRisingInRange(u, dt);
    } else if phase > 1.0 - dt {
      var u := (phase - 1.0) / dt;
      DivBelowOne(1.0 - phase, dt);
      assert -u == (1.0 - phase) / dt;
      FallingValue(phase, dt);
      assert phase == 1.0 + Mul(u, dt);
      SawFallingInRange(u, dt);
    }
  }

  /** The corrected saw in the rising window, `2 u dt - 1 - (2u - u^2 - 1)`
      for the ramp variable `u = phase / dt` in [0, 1). */
  lemma SawRisingInRange(u: real, dt: real)
    requires 0.0 <= u < 1.0 && 0.0 < dt <= 0.5
    ensures -1.0 <= 2.0 * Mul(u, dt) - 1.0 - (2.0 * u - u * u - 1.0) <= 1.0
  {
    MulMonotone(u, dt, 0.5);  // u dt <= u / 2
    MulMonotone(u, u, 1.0);  // u^2 <= u
    MulPositive(1.0 - u, 1.0 - u);
    assert Mul(1.0 - u, 1.0 - u) == (1.0 - u) * (1.0 - u);
  }

  /** The corrected saw in the falling window, `2 (1 + u dt) - 1 - (u^2 + 2u + 1)`
      for the ramp variable `u = (phase - 1) / dt` in (-1, 0]. */
  lemma SawFallingInRange(u: real, dt: real)
    requires -1.0 < u <= 0.0 && 0.0 < dt <= 0.5
    ensures -1.0 <= 2.0 * (1.0 + Mul(u, dt)) - 1.0 - (u * u + 2.0 * u + 1.0) <= 1.0
  {
    var v := -u;
    MulMonotone(v, dt, 0.5);  // -u dt <= -u / 2
    MulMonotone(v, 0.0, dt);  // u dt <= 0
    assert Mul(u, dt) == -(v * dt);
    assert 2.0 * Mul(u, dt) >= u;
    MulMonotone(v, v, 1.0);  // u^2 <= -u
    assert v * v == u * u;
    assert u * u <= -u;
    FallingRampBounds(u);
  }

  /** At a jump of the naive saw or square (phase 0 for both, phase 1/2 for
      square) the corrected sample is 0, the midpoint of the jump, when the
      windows do not overlap. */
  lemma JumpsCorrectedToMidpoint(dt: real, sinTurn: real -> real)
    requires 0.0 < dt <= 0.5
    ensures Waveform(Saw, 0.0, dt, sinTurn) == 0.0
    ensures Waveform(Square, 0.0, dt, sinTurn) == 0.0
    ensures Waveform(Square, 0.5, dt, sinTurn) == 0.0
  {
    assert 0.0 / dt == 0.0;
    assert HalfCycleOn(0.0) == 0.5 && HalfCycleOn(0.5) == 0.0;
  }

  /** At the lower corner of the triangle (phase 0) the scaled correction
      pushes the sample below -1, so the final clamp of `next_sample` is
      what keeps the triangle in range. */
  lemma TriangleCornerOvershoots(dt: real, sinTurn: real -> real)
    requires 0.0 < dt <= 0.5
    ensures Waveform(Triangle, 0.0, dt, sinTurn) == -1.0 - 4.0 * dt < -1.0
  {
    assert 0.0 / dt == 0.0;
    assert HalfCycleOn(0.0) == 0.5;
  }

  /** The wrap `phase -= phase.floor()` after `phase += phase_increment`. */
  function Advance(phase: real, dt: real): (next: real)
    ensures 0.0 <= next < 1.0
  {
    Frac(phase + dt)
  }

  /** The phase after `n` calls of `next_sample`; from a phase in [0, 1),
      or after at least one call, it lies in [0, 1). */
  function PhaseAfter(phase: real, dt: real, n: nat): (r: real)
    ensures n > 0 || 0.0 <= phase < 1.0 ==> 0.0 <= r < 1.0
  {
    if n == 0 then phase else Advance(PhaseAfter(phase, dt, n - 1), dt)
  }

  /** Wrapping at every step is the same as wrapping once at the end: after
      `n` samples from a phase in [0, 1) the phase is the fractional part of
      `phase + n dt`. */
  lemma {:induction false} PhaseAfterClosedForm(phase: real, dt: real, n: nat)
    requires 0.0 <= phase < 1.0
    ensures PhaseAfter(phase, dt, n) == Frac(phase + Mul(n as real, dt))
  {
    if n == 0 {
      assert Mul(n as real, dt) == 0.0;
      FracOfUnit(phase);
    } else {
      var k: nat := n - 1;
      var x := phase + Mul(k as real, dt);
      PhaseAfterClosedForm(phase, dt, k);
      assert PhaseAfter(phase, dt, n) == Frac(Frac(x) + dt);
      FracThenStep(x, dt);
      StepScale(k, n, dt);
      assert x + dt == phase + Mul(n as real, dt);
    }
  }

  /** Wrapping before a step changes nothing after the next wrap. */
  lemma FracThenStep(x: real, dt: real)
    ensures Frac(Frac(x) + dt) == Frac(x + dt)
  {
    assert Frac(x) + dt == (x + dt) + (-x.Floor) as real;
    FracShift(x + dt, -x.Floor);
  }

  lemma StepScale(k: nat, n: nat, dt: real)
    requires n == k + 1
    ensures Mul(k as real, dt) + dt == Mul(n as real, dt)
  {
    DistributeSucc(k as real, dt);
  }

  /** When `n` increments make a whole number of cycles, the phase returns
      exactly to where it started. */
  lemma PhasePeriodic(phase: real, dt: real, n: nat, cycles: int)
    requires 0.0 <= phase < 1.0
    requires n as real * dt == cycles as real
    ensures PhaseAfter(phase, dt, n) == phase
  {
    PhaseAfterClosedForm(phase, dt, n);
    assert Mul(n as real, dt) == cycles as real;
    FracShift(phase, cycles);
    FracOfUnit(phase);
  }

  /** The `match` on the waveform in `next_sample`, statement by statement:
      the sample it computes before the clamp is `Waveform`. */
  method ShapeSample(oscType: OscillatorType, phase: real, dt: real, sinTurn: real -> real) returns (sample: real)
    requires 0.0 <= phase < 1.0
    ensures sample == Waveform(oscType, phase, dt, sinTurn)
  {
    match oscType {
      case Sine =>
        sample := sinTurn(phase);
      case Square =>
        sample := if phase < 0.5 then 1.0 else -1.0;
        sample := sample + PolyBlep(phase, dt);
        sample := sample - PolyBlep(FloatRem(phase + 0.5, 1.0), dt);
      case Saw =>
        sample := 2.0 * phase - 1.0;
        sample := sample - PolyBlep(phase, dt);
      case Triangle =>
        sample := if phase < 0.5 then 4.0 * phase - 1.0 else 3.0 - 4.0 * phase;
        sample := sample + Mul(PolyBlep(phase, dt), 4.0 * dt);
        sample := sample - Mul(PolyBlep(FloatRem(phase + 0.5, 1.0), dt), 4.0 * dt);
    }
  }

  /** `PolyBlepOscillator`. */
  class PolyBlepOscillator {
    var sampleRate: real
    var frequency: real
    var phase: real
    var phaseIncrement: real

    /** A positive sample rate, the phase in [0, 1), and the increment kept
        equal to `frequency / sampleRate`. */
    ghost predicate Valid()
      reads this
    {
      sampleRate > 0.0 && 0.0 <= phase < 1.0 && phaseIncrement == frequency / sampleRate
    }

    /** `new`: phase zero, then `set_frequency(frequency)`. */
    constructor (sampleRate: real, frequency: real)
      requires sampleRate > 0.0
      ensures Valid()
      ensures this.sampleRate == sampleRate && this.frequency == frequency
      ensures phase == 0.0 && phaseIncrement == frequency / sampleRate
    {
      this.sampleRate := sampleRate;
      this.frequency := frequency;
      phase := 0.0;
      phaseIncrement := 0.0;
      new;
      SetFrequency(frequency);
    }

    /** `set_frequency`: the new frequency and its increment; the phase and
        the sample rate are left alone. */
    method SetFrequency(frequency: real)
      requires sampleRate > 0.0 && 0.0 <= phase < 1.0
      modifies this`frequency, this`phaseIncrement
      ensures Valid()
      ensures this.frequency == frequency
      ensures phaseIncrement == frequency / sampleRate
    {
      this.frequency := frequency;
      phaseIncrement := this.frequency / sampleRate;
    }

    /** `next_sample`: the sample for the current phase, clamped to [-1, 1],
        then the phase advanced by one increment and wrapped into [0, 1).
        `sinTurn(x)` stands for `sin(2 pi x)`. Only `phase` changes. */
    method NextSample(oscType: OscillatorType, sinTurn: real -> real) returns (out: real)
      requires Valid()
      modifies this`phase
      ensures Valid()
      ensures phase == Advance(old(phase), phaseIncrement)
      ensures out == Clamp(Waveform(oscType, old(phase), phaseIncrement, sinTurn), -1.0, 1.0)
      ensures -1.0 <= out <= 1.0
    {
      var sample := ShapeSample(oscType, phase, phaseIncrement, sinTurn);
      phase := phase + phaseIncrement;
      phase := phase - phase.Floor as real;
      out := Clamp(sample, -1.0, 1.0);
    }
  }
}
