/** The ADSR envelope generator of `src/envelope.rs`: a sample-clocked state
    machine whose stage (attack, decay, sustain, release) is not stored but
    recomputed on every call from the sample counters. */
module Envelope {
  import opened Numeric

  /** The envelope's shape and clock rate, as one value. `Valid` is what the
      clamps in `new` and `update_params` guarantee, plus a positive sample
      rate, which the caller must supply. */
  datatype Params = Params(attack: real, decay: real, sustain: real, release: real, sampleRate: real)
  {
    predicate Valid() {
      attack >= 0.0 && decay >= 0.0 && release >= 0.0 && 0.0 <= sustain <= 1.0 && sampleRate > 0.0
    }
  }

  /** A partial parameter update (`ADSRUpdate`): `None` leaves a field alone. */
  datatype ADSRUpdate = ADSRUpdate(attack: Option<real>, decay: Option<real>, sustain: Option<real>, release: Option<real>)

  const NoUpdate := ADSRUpdate(None, None, None, None)

  /** A duration as `new` and `update_params` store it. */
  function Duration(x: real): (d: real)
    ensures d >= 0.0
    ensures x >= 0.0 ==> d == x
    ensures x < 0.0 ==> d == 0.0
  {
    Max(x, 0.0)
  }

  /** A level (sustain, velocity) as the source stores it. */
  function UnitLevel(x: real): (l: real)
    ensures 0.0 <= l <= 1.0
    ensures 0.0 <= x <= 1.0 ==> l == x
  {
    Clamp(x, 0.0, 1.0)
  }

  /** Seconds between two clock readings `from <= to`: the `usize`
      subtraction of the source never underflows here. */
  function Seconds(from: nat, to: nat, sampleRate: real): (t: real)
    requires from <= to && sampleRate > 0.0
    ensures t >= 0.0
    ensures from == to ==> t == 0.0
  {
    DivNonNegative((to - from) as real, sampleRate);
    (to - from) as real / sampleRate
  }

  lemma SecondsMonotone(from: nat, c1: nat, c2: nat, sampleRate: real)
    requires from <= c1 <= c2 && sampleRate > 0.0
    ensures Seconds(from, c1, sampleRate) <= Seconds(from, c2, sampleRate)
    ensures c1 < c2 ==> Seconds(from, c1, sampleRate) < Seconds(from, c2, sampleRate)
  {
    if c1 < c2 {
      DivStrictMonotone((c1 - from) as real, (c2 - from) as real, sampleRate);
    } else {
      assert c1 == c2;
    }
  }

  /** The level of a note that is still held (attack, decay or sustain),
      `time` seconds after its note-on. The attack ramp divides by `attack`
      only when `0 <= time < attack`, the decay ramp by `decay` only when
      `attack <= time < attack + decay`: both divisors are positive there. */
  function HeldLevel(p: Params, time: real): (level: real)
    requires p.Valid() && time >= 0.0
    ensures 0.0 <= level <= 1.0
    ensures time < p.attack ==> level < 1.0
    ensures time >= p.attack ==> p.sustain <= level
  {
    var attackEnd := p.attack;
    var decayEnd := attackEnd + p.decay;
    if time < attackEnd then
      DivBelowOne(time, attackEnd);
      time / attackEnd
    else if time < decayEnd then
      var decayProgress := (time - attackEnd) / p.decay;
      DivBelowOne(time - attackEnd, p.decay);
      MulBetween(1.0 - p.sustain, decayProgress);
      assert Mul(1.0 - p.sustain, decayProgress) == (1.0 - p.sustain) * decayProgress;
      1.0 - (1.0 - p.sustain) * decayProgress
    else
      p.sustain
  }

  /** The level `releaseTime` seconds after note-off: a linear ramp from the
      sustain level (not from the amplitude at note-off) down to zero, which
      divides by `release` only when `releaseTime < release`. It is audible
      exactly while the ramp has not finished and the sustain level is
      non-zero. */
  function ReleaseLevel(p: Params, releaseTime: real): (level: real)
    requires p.Valid() && releaseTime >= 0.0
    ensures 0.0 <= level <= p.sustain
    ensures level > 0.0 <==> releaseTime < p.release && p.sustain > 0.0
  {
    if releaseTime >= p.release then 0.0
    else
      DivBelowOne(releaseTime, p.release);
      MulPositiveIff(p.sustain, 1.0 - releaseTime / p.release);
      MulUnitInterval(p.sustain, 1.0 - releaseTime / p.release);
      p.sustain * (1.0 - releaseTime / p.release)
  }

  /** The envelope level (before velocity) that `next_sample` computes at
      clock `current` for a note triggered at `trigger` and released at
      `noteOff`, if any: release once the clock has reached the note-off,
      otherwise the held contour. */
  function Level(p: Params, current: nat, trigger: nat, noteOff: Option<nat>): (level: real)
    requires p.Valid() && trigger <= current
    ensures 0.0 <= level <= 1.0
  {
    var time := Seconds(trigger, current, p.sampleRate);
    if noteOff.Some? && current >= noteOff.value then
      ReleaseLevel(p, Seconds(noteOff.value, current, p.sampleRate))
    else
      HeldLevel(p, time)
  }

  /** A note-on at clock `c` (trigger = clock, no note-off) starts the
      contour afresh: zero when there is an attack ramp, otherwise the peak
      of an instant attack, otherwise the sustain level. Nothing from the
      previous note (in particular a release in progress) survives. */
  lemma RetriggerStartsFresh(p: Params, c: nat)
    requires p.Valid()
    ensures Level(p, c, c, None) == (if p.attack > 0.0 then 0.0 else if p.decay > 0.0 then 1.0 else p.sustain)
  {
    assert Seconds(c, c, p.sampleRate) == 0.0;
    if p.attack > 0.0 {
      assert 0.0 / p.attack == 0.0;
    } else if p.decay > 0.0 {
      assert 0.0 / p.decay == 0.0;
    }
  }

  /** At the very sample of note-off the release starts from the sustain
      level, whatever the stage and amplitude were: a note-off during the
      attack jumps straight to `sustain`. A zero release is silent at once. */
  lemma ReleaseStartsAtSustain(p: Params, trigger: nat, c: nat)
    requires p.Valid() && trigger <= c
    ensures Level(p, c, trigger, Some(c)) == (if p.release > 0.0 then p.sustain else 0.0)
  {
    assert Seconds(c, c, p.sampleRate) == 0.0;
    if p.release > 0.0 {
      assert 0.0 / p.release == 0.0;
    }
  }

  /** While the note is held and the attack is still running, the level is
      below the peak and strictly rises from sample to sample. */
  lemma AttackRises(p: Params, trigger: nat, c1: nat, c2: nat)
    requires p.Valid() && trigger <= c1 < c2
    requires Seconds(trigger, c2, p.sampleRate) < p.attack
    ensures Level(p, c1, trigger, None) < Level(p, c2, trigger, None) < 1.0
  {
    var t1 := Seconds(trigger, c1, p.sampleRate);
    var t2 := Seconds(trigger, c2, p.sampleRate);
    SecondsMonotone(trigger, c1, c2, p.sampleRate);
    DivStrictMonotone(t1, t2, p.attack);
  }

  /** Once the attack is over and the note is still held, the level lies
      between the sustain level and the peak, and equals the sustain level
      once the decay is over too. */
  lemma HeldAfterAttack(p: Params, trigger: nat, c: nat)
    requires p.Valid() && trigger <= c
    requires Seconds(trigger, c, p.sampleRate) >= p.attack
    ensures p.sustain <= Level(p, c, trigger, None) <= 1.0
    ensures Seconds(trigger, c, p.sampleRate) >= p.attack + p.decay ==> Level(p, c, trigger, None) == p.sustain
  {
  }

  /** After the attack, a held note never gets louder: the decay ramp falls
      to the sustain level and stays there. */
  lemma HeldNonIncreasingAfterAttack(p: Params, trigger: nat, c1: nat, c2: nat)
    requires p.Valid() && trigger <= c1 <= c2
    requires Seconds(trigger, c1, p.sampleRate) >= p.attack
    ensures Level(p, c2, trigger, None) <= Level(p, c1, trigger, None)
  {
    var t1 := Seconds(trigger, c1, p.sampleRate);
    var t2 := Seconds(trigger, c2, p.sampleRate);
    SecondsMonotone(trigger, c1, c2, p.sampleRate);
    HeldLevelNonIncreasing(p, t1, t2);
  }

  lemma HeldLevelNonIncreasing(p: Params, t1: real, t2: real)
    requires p.Valid() && p.attack <= t1 <= t2
    ensures HeldLevel(p, t2) <= HeldLevel(p, t1)
  {
    if t2 < p.attack + p.decay {
      var x1 := (t1 - p.attack) / p.decay;
      var x2 := (t2 - p.attack) / p.decay;
      DivMonotone(t1 - p.attack, t2 - p.attack, p.decay);
      MulOrdered(1.0 - p.sustain, x1, x2);
      assert HeldLevel(p, t1) == 1.0 - Mul(1.0 - p.sustain, x1);
      assert HeldLevel(p, t2) == 1.0 - Mul(1.0 - p.sustain, x2);
    }
  }

  /** With zero attack and decay a held note sits at the sustain level from
      its first sample; with zero release the note is silent from the sample
      of note-off on. Zero-length stages complete instantly. */
  lemma ZeroLengthStagesAreInstant(p: Params, trigger: nat, c: nat, noteOff: nat)
    requires p.Valid() && trigger <= c
    ensures p.attack == 0.0 && p.decay == 0.0 ==> Level(p, c, trigger, None) == p.sustain
    ensures p.release == 0.0 && noteOff <= c ==> Level(p, c, trigger, Some(noteOff)) == 0.0
  {
  }

  /** From the sample of note-off on, the level never exceeds the sustain
      level and never gets louder from one sample to a later one. */
  lemma ReleaseNonIncreasing(p: Params, trigger: nat, noteOff: nat, c1: nat, c2: nat)
    requires p.Valid() && trigger <= c1 && noteOff <= c1 <= c2
    ensures Level(p, c2, trigger, Some(noteOff)) <= Level(p, c1, trigger, Some(noteOff)) <= p.sustain
  {
    var r1 := Seconds(noteOff, c1, p.sampleRate);
    var r2 := Seconds(noteOff, c2, p.sampleRate);
    SecondsMonotone(noteOff, c1, c2, p.sampleRate);
    ReleaseLevelNonIncreasing(p, r1, r2);
  }

  lemma ReleaseLevelNonIncreasing(p: Params, r1: real, r2: real)
    requires p.Valid() && 0.0 <= r1 <= r2
    ensures ReleaseLevel(p, r2) <= ReleaseLevel(p, r1)
  {
    if r2 < p.release {
      DivMonotone(r1, r2, p.release);
      MulOrdered(p.sustain, 1.0 - r2 / p.release, 1.0 - r1 / p.release);
      assert ReleaseLevel(p, r1) == Mul(p.sustain, 1.0 - r1 / p.release);
      assert ReleaseLevel(p, r2) == Mul(p.sustain, 1.0 - r2 / p.release);
    }
  }

  /** For fixed parameters and counters: once the release time has reached
      the release duration, every later clock reading is silent. A later
      `update_params` to a longer release can make it audible again. */
  lemma ReleaseSilentAfterEnd(p: Params, trigger: nat, noteOff: nat, c1: nat, c2: nat)
    requires p.Valid() && trigger <= c1 && noteOff <= c1 <= c2
    requires Seconds(noteOff, c1, p.sampleRate) >= p.release
    ensures Level(p, c2, trigger, Some(noteOff)) == 0.0
  {
    SecondsMonotone(noteOff, c1, c2, p.sampleRate);
  }

  /** A finished release is revived by a longer `release`: with sustain 1/2
      and one sample per second, one second after note-off the level is 0
      for a one-second release and 1/4 for a two-second one. */
  lemma LongerReleaseRevives()
    ensures Level(Params(0.0, 0.0, 0.5, 1.0, 1.0), 1, 0, Some(0)) == 0.0
    ensures Level(Params(0.0, 0.0, 0.5, 2.0, 1.0), 1, 0, Some(0)) == 0.25
  {
    assert Seconds(0, 1, 1.0) == 1.0;
  }

  /** During release the level is audible exactly while the release time is
      short of the release duration and the sustain level is non-zero. */
  lemma ReleaseAudibleIff(p: Params, trigger: nat, noteOff: nat, c: nat)
    requires p.Valid() && trigger <= c && noteOff <= c
    ensures Level(p, c, trigger, Some(noteOff)) > 0.0
        <==> Seconds(noteOff, c, p.sampleRate) < p.release && p.sustain > 0.0
  {
  }

  /** The amplitude `next_sample` stores during release is audible, so
      `is_active` holds, exactly while the release ramp has not run out,
      the sustain level is non-zero and the velocity is non-zero. */
  lemma ReleaseActiveIff(p: Params, trigger: nat, noteOff: nat, c: nat, velocity: real)
    requires p.Valid() && trigger <= c && noteOff <= c && 0.0 <= velocity <= 1.0
    ensures Level(p, c, trigger, Some(noteOff)) * velocity > 0.0
        <==> Seconds(noteOff, c, p.sampleRate) < p.release && p.sustain > 0.0 && velocity > 0.0
  {
    ReleaseAudibleIff(p, trigger, noteOff, c);
    MulPositiveBoth(Level(p, c, trigger, Some(noteOff)), velocity);
  }

  /** The stage selection of `next_sample`, statement by statement: release
      once the clock has reached the note-off, otherwise attack, decay or
      sustain by the time since note-on. The level it computes, before
      velocity, is `Level`. */
  method StageLevel(p: Params, current: nat, trigger: nat, noteOff: Option<nat>) returns (envelope: real)
    requires p.Valid() && trigger <= current
    ensures envelope == Level(p, current, trigger, noteOff)
  {
    var time := Seconds(trigger, current, p.sampleRate);
    var attackEnd := p.attack;
    var decayEnd := attackEnd + p.decay;
    if noteOff.Some? && current >= noteOff.value {
      // Release
      var releaseTime := Seconds(noteOff.value, current, p.sampleRate);
      if releaseTime >= p.release {
        envelope := 0.0;
      } else {
        envelope := p.sustain * (1.0 - releaseTime / p.release);
      }
    } else if time < attackEnd {
      // Attack
      envelope := time / attackEnd;
    } else if time < decayEnd {
      // Decay
      var decayProgress := (time - attackEnd) / p.decay;
      envelope := 1.0 - (1.0 - p.sustain) * decayProgress;
    } else {
      // Sustain
      envelope := p.sustain;
    }
  }

  /** `ADSR`: the parameters, the clock and the note bookkeeping. */
  class ADSR {
    var attack: real
    var decay: real
    var sustain: real
    var release: real
    var sampleRate: real
    var currentSample: nat
    var triggerSample: nat
    var noteOffSample: Option<nat>
    var currentAmplitude: real
    var velocity: real

    function CurrentParams(): Params
      reads this
    {
      Params(attack, decay, sustain, release, sampleRate)
    }

    /** The object invariant: clamped parameters, and the counter order
        `triggerSample <= noteOffSample <= currentSample`. */
    ghost predicate Valid()
      reads this
    {
      && CurrentParams().Valid()
      && 0.0 <= velocity <= 1.0
      && 0.0 <= currentAmplitude <= 1.0
      && triggerSample <= currentSample
      && (noteOffSample.Some? ==> triggerSample <= noteOffSample.value <= currentSample)
    }

    /** `ADSR::new`: the parameters clamped, the clock at zero, no note-off,
        silent, full velocity. */
    constructor (attack: real, decay: real, sustain: real, release: real, sampleRate: real)
      requires sampleRate > 0.0
      ensures Valid()
      ensures this.attack == Duration(attack) && this.decay == Duration(decay)
      ensures this.sustain == UnitLevel(sustain) && this.release == Duration(release)
      ensures this.sampleRate == sampleRate
      ensures currentSample == 0 && triggerSample == 0 && noteOffSample == None
      ensures currentAmplitude == 0.0 && velocity == 1.0
    {
      this.attack := Max(attack, 0.0);
      this.decay := Max(decay, 0.0);
      this.sustain := Clamp(sustain, 0.0, 1.0);
      this.release := Max(release, 0.0);
      this.sampleRate := sampleRate;
      currentSample := 0;
      triggerSample := 0;
      noteOffSample := None;
      currentAmplitude := 0.0;
      velocity := 1.0;
    }

    /** `impl Default for ADSR`. */
    constructor Default()
      ensures Valid()
      ensures CurrentParams() == Params(0.0, 0.0, 1.0, 0.0, 44100.0)
      ensures currentSample == 0 && triggerSample == 0 && noteOffSample == None
      ensures currentAmplitude == 0.0 && velocity == 1.0
    {
      attack := 0.0;
      decay := 0.0;
      sustain := 1.0;
      release := 0.0;
      sampleRate := 44100.0;
      currentSample := 0;
      triggerSample := 0;
      noteOffSample := None;
      currentAmplitude := 0.0;
      velocity := 1.0;
    }

    /** `update_params`: every supplied field is clamped and replaces the
        stored one; the frame is the four shape parameters. */
    method UpdateParams(update: ADSRUpdate)
      requires Valid()
      modifies this`attack, this`decay, this`sustain, this`release
      ensures Valid()
      ensures update.attack.None? ==> attack == old(attack)
      ensures update.attack.Some? ==> attack == Duration(update.attack.value)
      ensures update.decay.None? ==> decay == old(decay)
      ensures update.decay.Some? ==> decay == Duration(update.decay.value)
      ensures update.sustain.None? ==> sustain == old(sustain)
      ensures update.sustain.Some? ==> sustain == UnitLevel(update.sustain.value)
      ensures update.release.None? ==> release == old(release)
      ensures update.release.Some? ==> release == Duration(update.release.value)
      ensures update == NoUpdate ==> CurrentParams() == old(CurrentParams())
    {
      if update.attack.Some? {
        attack := Max(update.attack.value, 0.0);
      }
      if update.decay.Some? {
        decay := Max(update.decay.value, 0.0);
      }
      if update.sustain.Some? {
        sustain := Clamp(update.sustain.value, 0.0, 1.0);
      }
      if update.release.Some? {
        release := Max(update.release.value, 0.0);
      }
    }

    /** `on`: restart the contour from attack at the current clock. */
    method On(velocity: real)
      requires Valid()
      modifies this`triggerSample, this`noteOffSample, this`velocity
      ensures Valid()
      ensures triggerSample == currentSample
      ensures noteOffSample == None
      ensures this.velocity == UnitLevel(velocity)
    {
      triggerSample := currentSample;
      noteOffSample := None;
      this.velocity := Clamp(velocity, 0.0, 1.0);
    }

    /** `off`: record the note-off clock unless one is already pending, so a
        second call changes nothing. */
    method Off()
      requires Valid()
      modifies this`noteOffSample
      ensures Valid()
      ensures old(noteOffSample).None? ==> noteOffSample == Some(currentSample)
      ensures old(noteOffSample).Some? ==> noteOffSample == old(noteOffSample)
    {
      if noteOffSample.None? {
        noteOffSample := Some(currentSample);
      }
    }

    /** `next_sample`: compute the level for the current clock, scale it by
        the velocity, store it, and advance the clock by one sample. */
    method NextSample() returns (amplitude: real)
      requires Valid()
      modifies this`currentAmplitude, this`currentSample
      ensures Valid()
      ensures amplitude == currentAmplitude
      ensures amplitude == Level(CurrentParams(), old(currentSample), triggerSample, noteOffSample) * velocity
      ensures 0.0 <= amplitude <= 1.0
      ensures IsActive() <==> Level(CurrentParams(), old(currentSample), triggerSample, noteOffSample) > 0.0 && velocity > 0.0
      ensures currentSample == old(currentSample) + 1
    {
      var envelope := StageLevel(CurrentParams(), currentSample, triggerSample, noteOffSample);
      MulUnitInterval(envelope, velocity);
      MulPositiveBoth(envelope, velocity);
      currentAmplitude := envelope * velocity;
      currentSample := currentSample + 1;
      amplitude := currentAmplitude;
    }

    /** `is_active`: whether the last computed amplitude is audible. What
        that means for the envelope is stated by `NextSample` and by
        `ReleaseActiveIff`. */
    function IsActive(): bool
      reads this
    {
      currentAmplitude > 0.0
    }
  }
}
