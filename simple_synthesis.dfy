// simple_synthesis.py: the ADSR envelope (whose release never sounds), the
// tone generator without harmonics, and the unnormalised sums of tones that
// play_chord_with_envelope and polyphony build.

module SimpleSynthesis {
  import opened PyBase
  import opened Waves
  import NoteTables

  /** `np.clip(x, 0, 1)`. */
  function Clip(x: real): (r: real)
    ensures 0.0 <= r <= 1.0
    ensures 0.0 <= x <= 1.0 ==> r == x
    ensures x < 0.0 ==> r == 0.0
    ensures x > 1.0 ==> r == 1.0
  {
    if x < 0.0 then 0.0 else if x > 1.0 then 1.0 else x
  }

  lemma ClipMonotone(x: real, y: real)
    requires x <= y
    ensures Clip(x) <= Clip(y)
  {
  }

  function ClipAll(s: seq<real>): (r: seq<real>)
    ensures |r| == |s|
  {
    seq(|s|, i requires 0 <= i < |s| => Clip(s[i]))
  }

  /** Python's `s[:stop]`: a negative stop counts from the end, and a stop
      past either end is cut back to it. */
  function SliceTo<T>(s: seq<T>, stop: int): (r: seq<T>)
    ensures stop >= 0 ==> r == s[..if stop < |s| then stop else |s|]
    ensures stop < 0 ==> r == s[..if |s| + stop > 0 then |s| + stop else 0]
    ensures |r| <= |s|
  {
    var end := if stop >= 0 then stop else |s| + stop;
    s[..if end < 0 then 0 else if end > |s| then |s| else end]
  }

  /** The `(t, envelope)` pair generate_envelope returns. */
  datatype Shaped = Shaped(times: seq<real>, envelope: seq<real>)

  /** Sample counts of generate_envelope: the attack and decay times are
      scaled by the duration as well as by the sample rate, the release
      time by the sample rate only. */
  function StageSamples(time: real, sampleRate: int, duration: real): int
  {
    Trunc(time * sampleRate as real * duration)
  }

  function ReleaseSamples(time: real, sampleRate: int): int
  {
    Trunc(time * sampleRate as real)
  }

  /** Whether generate_envelope returns rather than raising ValueError: every
      count passed to linspace or np.ones must be non-negative, in
      particular the sustain count total - attack - decay. */
  predicate EnvelopeAccepted(duration: real, attackTime: real, decayTime: real, releaseTime: real, sampleRate: int)
  {
    var n := Samples(duration, sampleRate);
    var a := StageSamples(attackTime, sampleRate, duration);
    var d := StageSamples(decayTime, sampleRate, duration);
    n >= 0 && a >= 0 && d >= 0 && n - a - d >= 0 && ReleaseSamples(releaseTime, sampleRate) >= 0
  }

  /** The envelope before clipping: attack ramp, decay ramp, sustain block. */
  function Stages(a: nat, d: nat, s: nat, sustainLevel: real): (r: seq<real>)
    ensures |r| == a + d + s
  {
    Ramp(0.0, 1.0, a) + Ramp(1.0, sustainLevel, d) + seq(s, _ => sustainLevel)
  }

  /** generate_envelope(duration, attack_time, decay_time, sustain_level,
      release_time, SAMPLE_RATE). */
  function GenerateEnvelope(duration: real, attackTime: real, decayTime: real, sustainLevel: real,
                            releaseTime: real, sampleRate: int): (r: Result<Shaped>)
    ensures r.Ok? <==> EnvelopeAccepted(duration, attackTime, decayTime, releaseTime, sampleRate)
    ensures r.Err? ==> r.error == ValueError
    ensures r.Ok? ==> var n := Samples(duration, sampleRate);
                      && |r.value.times| == n && |r.value.envelope| == n
                      && forall i :: 0 <= i < n ==> r.value.times[i] == SampleTime(duration, n, i)
  {
    var n := Samples(duration, sampleRate);
    if n < 0 then Err(ValueError)
    else
      var t := Times(duration, n);
      var a := StageSamples(attackTime, sampleRate, duration);
      if a < 0 then Err(ValueError)
      else
        var attackEnv := Ramp(0.0, 1.0, a);
        var d := StageSamples(decayTime, sampleRate, duration);
        if d < 0 then Err(ValueError)
        else
          var decayEnv := Ramp(1.0, sustainLevel, d);
          var s := n - a - d;
          // np.ones refuses a negative dimension
          if s < 0 then Err(ValueError)
          else
            var sustainEnv := seq(s, _ => sustainLevel);
            var rel := ReleaseSamples(releaseTime, sampleRate);
            if rel < 0 then Err(ValueError)
            else
              var releaseEnv := Ramp(sustainLevel, 0.0, rel);
              var envelope := attackEnv + decayEnv + sustainEnv
                              + SliceTo(releaseEnv, n - |attackEnv| - |decayEnv| - |sustainEnv|);
              Ok(Shaped(t, ClipAll(envelope)))
  }

  /** The release slice always stops at 0: the envelope is exactly the
      clipped attack, decay and sustain stages, and the release ramp never
      appears. */
  lemma NoRelease(duration: real, attackTime: real, decayTime: real, sustainLevel: real,
                  releaseTime: real, sampleRate: int)
    requires GenerateEnvelope(duration, attackTime, decayTime, sustainLevel, releaseTime, sampleRate).Ok?
    ensures var n := Samples(duration, sampleRate);
            var a := StageSamples(attackTime, sampleRate, duration);
            var d := StageSamples(decayTime, sampleRate, duration);
            && 0 <= a && 0 <= d && a + d <= n
            && GenerateEnvelope(duration, attackTime, decayTime, sustainLevel, releaseTime, sampleRate).value.envelope
               == ClipAll(Stages(a, d, n - a - d, sustainLevel))
  {
    var n := Samples(duration, sampleRate);
    var a := StageSamples(attackTime, sampleRate, duration);
    var d := StageSamples(decayTime, sampleRate, duration);
    var rel := ReleaseSamples(releaseTime, sampleRate);
    var releaseEnv := Ramp(sustainLevel, 0.0, rel);
    assert SliceTo(releaseEnv, 0) == [];
    assert Stages(a, d, n - a - d, sustainLevel) + [] == Stages(a, d, n - a - d, sustainLevel);
  }

  /** Where each stage sits in the unclipped envelope. */
  lemma StagesAt(a: nat, d: nat, s: nat, sustainLevel: real, i: nat)
    requires i < a + d + s
    ensures i < a ==> Stages(a, d, s, sustainLevel)[i] == Ramp(0.0, 1.0, a)[i]
    ensures a <= i < a + d ==> Stages(a, d, s, sustainLevel)[i] == Ramp(1.0, sustainLevel, d)[i - a]
    ensures a + d <= i ==> Stages(a, d, s, sustainLevel)[i] == sustainLevel
  {
  }

  /** The clipped attack starts at 0 and never falls. */
  lemma AttackShape(a: nat, d: nat, s: nat, sustainLevel: real)
    ensures var env := ClipAll(Stages(a, d, s, sustainLevel));
            && NonDecreasingOn(env, 0, a)
            && (a >= 1 ==> env[0] == 0.0)
  {
    var env := ClipAll(Stages(a, d, s, sustainLevel));
    var up := Ramp(0.0, 1.0, a);
    forall i, j | 0 <= i <= j < a ensures env[i] <= env[j] {
      StagesAt(a, d, s, sustainLevel, i);
      StagesAt(a, d, s, sustainLevel, j);
      RampMonotone(0.0, 1.0, a, i, j);
      ClipMonotone(up[i], up[j]);
    }
    if a >= 1 {
      StagesAt(a, d, s, sustainLevel, 0);
      FracBounds(0, a);
    }
  }

  /** The clipped decay starts at 1 and moves monotonically towards the
      clipped sustain level without passing it. */
  lemma DecayShape(a: nat, d: nat, s: nat, sustainLevel: real)
    ensures var env := ClipAll(Stages(a, d, s, sustainLevel));
            && (sustainLevel <= 1.0 ==> NonIncreasingOn(env, a, a + d))
            && (sustainLevel >= 1.0 ==> NonDecreasingOn(env, a, a + d))
            && (d >= 1 ==> env[a] == 1.0)
            && (forall i :: a <= i < a + d ==> Clip(sustainLevel) <= env[i] <= 1.0 || 1.0 <= env[i] <= Clip(sustainLevel))
  {
    var env := ClipAll(Stages(a, d, s, sustainLevel));
    var down := Ramp(1.0, sustainLevel, d);
    forall i, j | a <= i <= j < a + d
      ensures sustainLevel <= 1.0 ==> env[j] <= env[i]
      ensures sustainLevel >= 1.0 ==> env[i] <= env[j]
    {
      StagesAt(a, d, s, sustainLevel, i);
      StagesAt(a, d, s, sustainLevel, j);
      RampMonotone(1.0, sustainLevel, d, i - a, j - a);
      if sustainLevel <= 1.0 { ClipMonotone(down[j - a], down[i - a]); }
      if sustainLevel >= 1.0 { ClipMonotone(down[i - a], down[j - a]); }
    }
    forall i | a <= i < a + d
      ensures Clip(sustainLevel) <= env[i] <= 1.0 || 1.0 <= env[i] <= Clip(sustainLevel)
    {
      StagesAt(a, d, s, sustainLevel, i);
      RampBetween(1.0, sustainLevel, d, i - a);
      if sustainLevel <= 1.0 { ClipMonotone(sustainLevel, down[i - a]); }
      else { ClipMonotone(down[i - a], sustainLevel); }
    }
    if d >= 1 {
      StagesAt(a, d, s, sustainLevel, a);
      FracBounds(0, d);
    }
  }

  /** After the decay the clipped sustain level holds to the end, and every
      value lies in [0, 1]. */
  lemma SustainShape(a: nat, d: nat, s: nat, sustainLevel: real)
    ensures var env := ClipAll(Stages(a, d, s, sustainLevel));
            && InUnitRange(env)
            && (forall i :: a + d <= i < a + d + s ==> env[i] == Clip(sustainLevel))
  {
    var env := ClipAll(Stages(a, d, s, sustainLevel));
    forall i | a + d <= i < a + d + s ensures env[i] == Clip(sustainLevel) {
      StagesAt(a, d, s, sustainLevel, i);
    }
  }

  /** The shape of an accepted envelope: every value in [0, 1]; the attack
      starts at 0 and never falls; the decay runs from 1 towards the
      (clipped) sustain level without overshooting it; the rest holds the
      clipped sustain level up to the last sample. */
  lemma EnvelopeShape(duration: real, attackTime: real, decayTime: real, sustainLevel: real,
                      releaseTime: real, sampleRate: int)
    requires GenerateEnvelope(duration, attackTime, decayTime, sustainLevel, releaseTime, sampleRate).Ok?
    ensures var env := GenerateEnvelope(duration, attackTime, decayTime, sustainLevel, releaseTime, sampleRate).value.envelope;
            var n := |env|;
            var a := StageSamples(attackTime, sampleRate, duration);
            var d := StageSamples(decayTime, sampleRate, duration);
            && 0 <= a && 0 <= d && a + d <= n
            && InUnitRange(env)
            && NonDecreasingOn(env, 0, a)
            && (a >= 1 ==> env[0] == 0.0)
            && (sustainLevel <= 1.0 ==> NonIncreasingOn(env, a, a + d))
            && (sustainLevel >= 1.0 ==> NonDecreasingOn(env, a, a + d))
            && (d >= 1 ==> env[a] == 1.0)
            && (forall i :: a <= i < a + d ==> Clip(sustainLevel) <= env[i] <= 1.0 || 1.0 <= env[i] <= Clip(sustainLevel))
            && (forall i :: a + d <= i < n ==> env[i] == Clip(sustainLevel))
  {
    NoRelease(duration, attackTime, decayTime, sustainLevel, releaseTime, sampleRate);
    var env := GenerateEnvelope(duration, attackTime, decayTime, sustainLevel, releaseTime, sampleRate).value.envelope;
    var n := Samples(duration, sampleRate);
    var a := StageSamples(attackTime, sampleRate, duration);
    var d := StageSamples(decayTime, sampleRate, duration);
    StagesShape(env, a, d, n - a - d, sustainLevel);
  }

  /** The three shape lemmas together, for an envelope made of the stages. */
  lemma StagesShape(env: seq<real>, a: nat, d: nat, s: nat, sustainLevel: real)
    requires env == ClipAll(Stages(a, d, s, sustainLevel))
    ensures && |env| == a + d + s
            && InUnitRange(env)
            && NonDecreasingOn(env, 0, a)
            && (a >= 1 ==> env[0] == 0.0)
            && (sustainLevel <= 1.0 ==> NonIncreasingOn(env, a, a + d))
            && (sustainLevel >= 1.0 ==> NonDecreasingOn(env, a, a + d))
            && (d >= 1 ==> env[a] == 1.0)
            && (forall i :: a <= i < a + d ==> Clip(sustainLevel) <= env[i] <= 1.0 || 1.0 <= env[i] <= Clip(sustainLevel))
            && (forall i :: a + d <= i < |env| ==> env[i] == Clip(sustainLevel))
  {
    AttackShape(a, d, s, sustainLevel);
    DecayShape(a, d, s, sustainLevel);
    SustainShape(a, d, s, sustainLevel);
  }

  /** The attack and decay times are fractions of the duration: when they
      are non-negative and add up to at most 1, the sustain count is never
      negative and the envelope is accepted. */
  lemma EnvelopeAcceptedWhenFits(duration: real, attackTime: real, decayTime: real, releaseTime: real, sampleRate: int)
    requires sampleRate >= 0 && duration >= 0.0 && attackTime >= 0.0 && decayTime >= 0.0 && releaseTime >= 0.0
    requires attackTime + decayTime <= 1.0
    ensures EnvelopeAccepted(duration, attackTime, decayTime, releaseTime, sampleRate)
  {
    StagesFit(attackTime, decayTime, sampleRate, duration);
    NonNegativeProduct(releaseTime, sampleRate as real);
  }

  /** Attack and decay fractions p and q with p + q <= 1 fit in the note
      together, in whole samples. */
  lemma StagesFit(p: real, q: real, sampleRate: int, duration: real)
    requires 0.0 <= p && 0.0 <= q && p + q <= 1.0 && 0 <= sampleRate && 0.0 <= duration
    ensures 0 <= StageSamples(p, sampleRate, duration) && 0 <= StageSamples(q, sampleRate, duration)
    ensures StageSamples(p, sampleRate, duration) + StageSamples(q, sampleRate, duration) <= Samples(duration, sampleRate)
  {
    var x, y, z := ScaledFractions(p, q, sampleRate as real, duration);
    TruncSumAtMost(x, y, z);
    assert StageSamples(p, sampleRate, duration) == Trunc(x);
    assert StageSamples(q, sampleRate, duration) == Trunc(y);
    assert Samples(duration, sampleRate) == Trunc(z);
  }

  lemma NonNegativeProduct(x: real, y: real)
    requires 0.0 <= x && 0.0 <= y
    ensures 0 <= Trunc(x * y)
  {
    MulAtMost(y, 0.0, x);
    assert 0.0 <= x * y;
  }

  /** The stage lengths before truncation, named so that the facts about
      them reach the caller as plain variables. */
  lemma ScaledFractions(p: real, q: real, sr: real, duration: real) returns (x: real, y: real, z: real)
    requires 0.0 <= p && 0.0 <= q && p + q <= 1.0 && 0.0 <= sr && 0.0 <= duration
    ensures x == p * sr * duration && y == q * sr * duration && z == duration * sr
    ensures 0.0 <= x && 0.0 <= y && x + y <= z
  {
    x, y, z := p * sr * duration, q * sr * duration, duration * sr;
    var span := sr * duration;
    MulAtMost(sr, 0.0, duration);
    SplitSpan(span, p, q);
    assert x == span * p;
    assert y == span * q;
  }

  lemma SplitSpan(span: real, p: real, q: real)
    requires 0.0 <= span && 0.0 <= p && 0.0 <= q && p + q <= 1.0
    ensures 0.0 <= span * p && 0.0 <= span * q && span * p + span * q <= span
  {
    MulAtMost(span, 0.0, p);
    MulAtMost(span, 0.0, q);
    MulAtMost(span, p + q, 1.0);
  }

  /** The module's own example, attack 1 s and decay 0.5 s over 4 s, asks
      for 6 s worth of attack and decay samples in a 4 s note: np.ones gets
      a negative count and the call raises. */
  lemma ModuleExampleRaises()
    ensures GenerateEnvelope(4.0, 1.0, 0.5, 0.8, 0.1, NoteTables.SampleRate) == Err(ValueError)
  {
    assert Samples(4.0, 44100) == 176400;
    assert StageSamples(1.0, 44100, 4.0) == 176400;
    assert StageSamples(0.5, 44100, 4.0) == 88200;
  }

  /** With the default stage times over one second, the envelope has 44100
      samples, rises from 0 to 1 over the first 4410, and since the release
      is never appended it still holds the sustain level 0.8 at its last
      sample. */
  lemma DefaultEnvelopeExample()
    ensures var r := GenerateEnvelope(1.0, 0.1, 0.1, 0.8, 0.1, NoteTables.SampleRate);
            && r.Ok? && |r.value.envelope| == 44100
            && r.value.envelope[0] == 0.0 && r.value.envelope[4409] == 1.0
            && r.value.envelope[44099] == 0.8
  {
    assert Samples(1.0, 44100) == 44100;
    assert StageSamples(0.1, 44100, 1.0) == 4410;
    EnvelopeShape(1.0, 0.1, 0.1, 0.8, 0.1, 44100);
    NoRelease(1.0, 0.1, 0.1, 0.8, 0.1, 44100);
    var env := GenerateEnvelope(1.0, 0.1, 0.1, 0.8, 0.1, 44100).value.envelope;
    assert env[4409] == Clip(Ramp(0.0, 1.0, 4410)[4409]);
    FracBounds(4409, 4410);
  }

  /** generate_tone(frequency, duration, envelope, sample_rate,
      initial_phase, waveform): the fundamental on the grid of
      int(sample_rate * duration) instants, multiplied in place by the
      envelope when there is one, and the phase at the end of the span,
      which does not depend on the waveform. */
  method GenerateTone(frequency: real, duration: real, envelope: Option<seq<real>>, sampleRate: int,
                      initialPhase: real, waveform: string, sin: Sine)
    returns (r: Result<Tone>)
    ensures var n := Samples(duration, sampleRate);
            r.Err? <==> n < 0 || ParseWaveform(waveform).Err? || (envelope.Some? && !Broadcasts(envelope.value, n))
    ensures r.Err? ==> r.error == ValueError
    ensures r.Ok? ==>
              var n := Samples(duration, sampleRate);
              && n >= 0
              && |r.value.signal| == n
              && r.value.phase == FinalPhase(frequency, duration, initialPhase)
              && r.value.signal == Enveloped(FundamentalWave(ParseWaveform(waveform).value, sin, frequency,
                                                             Times(duration, n), initialPhase), envelope)
  {
    var grid := TimeGrid(duration, Samples(duration, sampleRate));
    if grid.Err? {
      return Err(ValueError);
    }
    var ts := grid.value;
    assert ts == Times(duration, |ts|);
    var parsed := ParseWaveform(waveform);
    if parsed.Err? {
      return Err(ValueError);
    }
    if envelope.Some? && !Broadcasts(envelope.value, |ts|) {
      return Err(ValueError);  // `signal *= envelope` cannot broadcast
    }
    var signal := ShapedSignal(parsed.value, sin, frequency, ts, envelope, initialPhase);
    r := Ok(Tone(signal[..], FinalPhase(frequency, duration, initialPhase)));
  }

  /** Every sample of generate_tone lies in [-1, 1] when the envelope does
      in [0, 1]; a bare sawtooth stays below 1 and a bare square wave takes
      only the values -1, 0 and 1. */
  lemma ToneRange(kind: Waveform, sin: Sine, frequency: real, ts: seq<real>,
                  envelope: Option<seq<real>>, phase: real, i: nat)
    requires envelope.Some? ==> Broadcasts(envelope.value, |ts|) && InUnitRange(envelope.value)
    requires i < |ts|
    ensures var x := Enveloped(FundamentalWave(kind, sin, frequency, ts, phase), envelope)[i];
            && -1.0 <= x <= 1.0
            && (envelope.None? && kind == SawtoothWave ==> x < 1.0)
            && (envelope.None? && kind == Square ==> x in {-1.0, 0.0, 1.0})
  {
    var base := FundamentalWave(kind, sin, frequency, ts, phase);
    FundamentalWaveAt(kind, sin, frequency, ts, phase, i);
    FundamentalRange(kind, sin, frequency, ts[i], phase);
    EnvelopedAt(base, envelope, i);
    if envelope.Some? {
      ScaledInRange(base[i], EnvelopeAt(envelope.value, |ts|, i));
    }
  }

  lemma ScaledInRange(x: real, e: real)
    requires -1.0 <= x <= 1.0 && 0.0 <= e <= 1.0
    ensures -1.0 <= Product(x, e) <= 1.0
  {
    ProductBound(e, x);
    assert Product(x, e) == Product(e, x);
  }

  /** `envelope * np.sin(2 * pi * f * t)` under numpy broadcasting: equal
      lengths multiply element by element, and a side of length 1 is
      repeated; any other pair of lengths raises ValueError. */
  function ScaleSines(envelope: seq<real>, sines: seq<real>): (r: Result<seq<real>>)
    ensures r.Ok? <==> |envelope| == |sines| || |envelope| == 1 || |sines| == 1
    ensures r.Err? ==> r.error == ValueError
    ensures r.Ok? && Broadcasts(envelope, |sines|) ==>
              |r.value| == |sines| && forall i :: 0 <= i < |sines| ==> r.value[i] == Product(EnvelopeAt(envelope, |sines|, i), sines[i])
    ensures r.Ok? && |sines| == 1 && |envelope| != 1 ==>
              |r.value| == |envelope| && forall i :: 0 <= i < |envelope| ==> r.value[i] == Product(envelope[i], sines[0])
  {
    if |envelope| == |sines| || |envelope| == 1 then
      Ok(seq(|sines|, i requires 0 <= i < |sines| => Product(EnvelopeAt(envelope, |sines|, i), sines[i])))
    else if |sines| == 1 then
      Ok(seq(|envelope|, i requires 0 <= i < |envelope| => Product(envelope[i], sines[0])))
    else Err(ValueError)
  }

  /** `np.sin(2 * pi * frequency * t)` on the time grid ts. */
  function Sines(sin: Sine, frequency: real, ts: seq<real>): (r: seq<real>)
    ensures |r| == |ts|
  {
    seq(|ts|, i requires 0 <= i < |ts| => sin(Angle(frequency, ts[i])))
  }

  /** `envelope * np.sin(2 * pi * frequency * t)` on a given grid. */
  function ToneOnGrid(frequency: real, envelope: seq<real>, ts: seq<real>, sin: Sine): (r: Result<seq<real>>)
  {
    ScaleSines(envelope, Sines(sin, frequency, ts))
  }

  /** One note's sample: `e * np.sin(2 * pi * f * t)`. */
  function ToneSample(f: real, e: real, sin: Sine, t: real): real
  {
    Product(e, sin(Angle(f, t)))
  }

  /** Sample i of a tone on a grid the envelope broadcasts onto. */
  lemma ToneOnGridAt(frequency: real, envelope: seq<real>, ts: seq<real>, sin: Sine, i: nat)
    requires Broadcasts(envelope, |ts|) && i < |ts|
    ensures var r := ToneOnGrid(frequency, envelope, ts, sin);
            && r.Ok? && |r.value| == |ts|
            && r.value[i] == ToneSample(frequency, EnvelopeAt(envelope, |ts|, i), sin, ts[i])
  {
    var sines := Sines(sin, frequency, ts);
    assert sines[i] == sin(Angle(frequency, ts[i]));
  }

  /** generate_tone_with_envelope(frequency, duration, envelope, SAMPLE_RATE). */
  function ToneWithEnvelope(frequency: real, duration: real, envelope: seq<real>, sampleRate: int, sin: Sine)
    : (r: Result<seq<real>>)
    ensures r.Err? ==> r.error == ValueError
  {
    var n := Samples(duration, sampleRate);
    if n < 0 then Err(ValueError) else ToneOnGrid(frequency, envelope, Times(duration, n), sin)
  }

  /** The signal `t * 0` followed by `signal += tone` for each frequency in
      turn, every tone computed on the same grid ts. The in-place addition
      needs a tone of the signal's length (a tone of length 1 would
      broadcast too, but a tone only has length 1 when the grid itself has
      one sample). */
  function ChordOnGrid(frequencies: seq<real>, envelope: seq<real>, ts: seq<real>, sin: Sine): (r: Result<seq<real>>)
    ensures r.Ok? ==> |r.value| == |ts|
    ensures r.Err? ==> r.error == ValueError
    decreases |frequencies|
  {
    if |frequencies| == 0 then Ok(seq(|ts|, _ => 0.0))
    else
      match ChordOnGrid(frequencies[..|frequencies| - 1], envelope, ts, sin)
      case Err(e) => Err(e)
      case Ok(acc) =>
        match ToneOnGrid(frequencies[|frequencies| - 1], envelope, ts, sin)
        case Err(e) => Err(e)
        case Ok(tone) => if |tone| == |acc| then Ok(Plus(acc, tone)) else Err(ValueError)
  }

  /** The summed signal of play_chord_with_envelope: linspace raises on a
      negative count, and generate_tone_with_envelope recomputes the same
      grid for every note. */
  function ChordSignal(frequencies: seq<real>, duration: real, envelope: seq<real>, sin: Sine): (r: Result<seq<real>>)
    ensures r.Ok? ==> |r.value| == Samples(duration, NoteTables.SampleRate)
    ensures r.Err? ==> r.error == ValueError
  {
    var n := Samples(duration, NoteTables.SampleRate);
    if n < 0 then Err(ValueError) else ChordOnGrid(frequencies, envelope, Times(duration, n), sin)
  }

  /** `signal += tone`, in place. */
  method AddTone(signal: array<real>, tone: seq<real>)
    requires |tone| == signal.Length
    modifies signal
    ensures signal[..] == Plus(old(signal[..]), tone)
  {
    ghost var before := signal[..];
    for i := 0 to signal.Length
      invariant forall j :: 0 <= j < i ==> signal[j] == before[j] + tone[j]
      invariant forall j :: i <= j < signal.Length ==> signal[j] == before[j]
    {
      signal[i] := signal[i] + tone[i];
    }
    assert signal[..] == Plus(before, tone);
  }

  /** The summation of play_chord_with_envelope(frequencies, duration,
      envelope): one generate_tone_with_envelope per frequency, all with the
      same envelope, added into a signal of zeros. */
  method PlayChordWithEnvelope(frequencies: seq<real>, duration: real, envelope: seq<real>, sin: Sine)
    returns (r: Result<seq<real>>)
    ensures r == ChordSignal(frequencies, duration, envelope, sin)
  {
    var n := Samples(duration, NoteTables.SampleRate);
    var grid := TimeGrid(duration, n);
    if grid.Err? {
      return Err(ValueError);
    }
    var ts := grid.value;
    assert ts == Times(duration, n);
    var signal := new real[n](_ => 0.0);
    assert signal[..] == seq(|ts|, _ => 0.0);
    assert frequencies[..0] == [];
    for i := 0 to |frequencies|
      invariant signal.Length == |ts|
      invariant ChordOnGrid(frequencies[..i], envelope, ts, sin) == Ok(signal[..])
    {
      assert frequencies[..i + 1][..i] == frequencies[..i];
      var tone := ToneWithEnvelope(frequencies[i], duration, envelope, NoteTables.SampleRate, sin);
      assert tone == ToneOnGrid(frequencies[i], envelope, ts, sin);
      if tone.Err? || |tone.value| != signal.Length {
        ChordErrorPersists(frequencies, envelope, ts, sin, i + 1);
        return Err(ValueError);
      }
      AddTone(signal, tone.value);
    }
    assert frequencies[..|frequencies|] == frequencies;
    r := Ok(signal[..]);
  }

  /** Once the sum fails, adding more frequencies does not recover it. */
  lemma {:induction false} ChordErrorPersists(frequencies: seq<real>, envelope: seq<real>, ts: seq<real>, sin: Sine, i: nat)
    requires i <= |frequencies| && ChordOnGrid(frequencies[..i], envelope, ts, sin).Err?
    ensures ChordOnGrid(frequencies, envelope, ts, sin) == Err(ValueError)
    decreases |frequencies| - i
  {
    if i < |frequencies| {
      assert frequencies[..i + 1][..i] == frequencies[..i];
      ChordErrorPersists(frequencies, envelope, ts, sin, i + 1);
    } else {
      assert frequencies[..i] == frequencies;
    }
  }

  /** polyphony(frequencies, duration, volume): the same summation with
      `volume * np.sin(...)` in place of the enveloped tone; it only fails
      on a negative sample count. */
  method Polyphony(frequencies: seq<real>, duration: real, volume: real, sin: Sine)
    returns (r: Result<seq<real>>)
    ensures r.Ok? <==> Samples(duration, NoteTables.SampleRate) >= 0
    ensures r == ChordSignal(frequencies, duration, [volume], sin)
  {
    r := PlayChordWithEnvelope(frequencies, duration, [volume], sin);
    var n := Samples(duration, NoteTables.SampleRate);
    if n >= 0 {
      PolyphonyAccepted(frequencies, volume, Times(duration, n), sin);
    }
  }

  /** A scalar volume broadcasts onto any grid, so the sum never fails. */
  lemma {:induction false} PolyphonyAccepted(frequencies: seq<real>, volume: real, ts: seq<real>, sin: Sine)
    ensures ChordOnGrid(frequencies, [volume], ts, sin).Ok?
    decreases |frequencies|
  {
    if |frequencies| > 0 {
      PolyphonyAccepted(frequencies[..|frequencies| - 1], volume, ts, sin);
    }
  }

  /** The sum of tone(f) over the frequencies, the last frequency added
      last, as the loop adds them. */
  function SumOver(frequencies: seq<real>, tone: real -> real): real
    decreases |frequencies|
  {
    if |frequencies| == 0 then 0.0
    else SumOver(frequencies[..|frequencies| - 1], tone) + tone(frequencies[|frequencies| - 1])
  }

  /** The chord's sample at instant t under envelope value e. */
  function SumOfTones(frequencies: seq<real>, e: real, sin: Sine, t: real): real
  {
    SumOver(frequencies, f => ToneSample(f, e, sin, t))
  }

  /** When the envelope broadcasts onto the grid, the chord never fails and
      sample i is the plain sum of the single-note samples, all scaled by
      the same envelope value: no normalisation by the number of notes. */
  lemma {:induction false} ChordIsSum(frequencies: seq<real>, envelope: seq<real>, ts: seq<real>, sin: Sine)
    requires Broadcasts(envelope, |ts|)
    ensures var r := ChordOnGrid(frequencies, envelope, ts, sin);
            && r.Ok?
            && forall i :: 0 <= i < |ts| ==> r.value[i] == SumOfTones(frequencies, EnvelopeAt(envelope, |ts|, i), sin, ts[i])
    decreases |frequencies|
  {
    if |frequencies| > 0 {
      var init, last := frequencies[..|frequencies| - 1], frequencies[|frequencies| - 1];
      ChordIsSum(init, envelope, ts, sin);
      var acc := ChordOnGrid(init, envelope, ts, sin).value;
      var tone := ToneOnGrid(last, envelope, ts, sin);
      assert tone.Ok? && |tone.value| == |ts|;
      var r := ChordOnGrid(frequencies, envelope, ts, sin);
      assert r == Ok(Plus(acc, tone.value));
      forall i | 0 <= i < |ts|
        ensures r.value[i] == SumOfTones(frequencies, EnvelopeAt(envelope, |ts|, i), sin, ts[i])
      {
        ToneOnGridAt(last, envelope, ts, sin, i);
      }
    }
  }

  /** When the grid is accepted and the envelope broadcasts onto it, the
      chord of play_chord_with_envelope is accepted and is the plain sum of
      its notes. */
  lemma ChordSignalIsSum(frequencies: seq<real>, duration: real, envelope: seq<real>, sin: Sine)
    requires Samples(duration, NoteTables.SampleRate) >= 0
    requires Broadcasts(envelope, Samples(duration, NoteTables.SampleRate))
    ensures var n := Samples(duration, NoteTables.SampleRate);
            var ts := Times(duration, n);
            var r := ChordSignal(frequencies, duration, envelope, sin);
            && r.Ok?
            && forall i :: 0 <= i < n ==> r.value[i] == SumOfTones(frequencies, EnvelopeAt(envelope, n, i), sin, ts[i])
  {
    var n := Samples(duration, NoteTables.SampleRate);
    ChordIsSum(frequencies, envelope, Times(duration, n), sin);
  }

  lemma ProductBound(e: real, s: real)
    requires 0.0 <= e <= 1.0 && -1.0 <= s <= 1.0
    ensures -1.0 <= Product(e, s) <= 1.0
  {
    if s >= 0.0 {
      MulAtMost(s, e, 1.0);
      assert s * e <= s;
      MulAtMost(s, 0.0, e);
      assert 0.0 <= s * e;
    } else {
      MulAtMost(-s, e, 1.0);
      assert (-s) * e <= -s;
      MulAtMost(-s, 0.0, e);
      assert 0.0 <= (-s) * e;
    }
  }

  /** A sum of k terms each within [-1, 1] lies within [-k, k]. */
  lemma {:induction false} SumOverBound(frequencies: seq<real>, tone: real -> real)
    requires forall f :: -1.0 <= tone(f) <= 1.0
    ensures -(|frequencies| as real) <= SumOver(frequencies, tone) <= |frequencies| as real
    decreases |frequencies|
  {
    if |frequencies| > 0 {
      SumOverBound(frequencies[..|frequencies| - 1], tone);
    }
  }

  /** With an envelope value in [0, 1], a chord of k notes stays within
      [-k, k]: only a bound proportional to the number of notes holds. */
  lemma SumOfTonesBound(frequencies: seq<real>, e: real, sin: Sine, t: real)
    requires 0.0 <= e <= 1.0
    ensures -(|frequencies| as real) <= SumOfTones(frequencies, e, sin, t) <= |frequencies| as real
  {
    forall f ensures -1.0 <= ToneSample(f, e, sin, t) <= 1.0 {
      ProductBound(e, sin(Angle(f, t)));
    }
    SumOverBound(frequencies, f => ToneSample(f, e, sin, t));
  }

  /** k copies of the same frequency sound k times as loud as one: the sum
      is not normalised. */
  lemma {:induction false} SumOverRepeated(k: nat, f: real, tone: real -> real)
    ensures SumOver(seq(k, _ => f), tone) == k as real * tone(f)
  {
    if k > 0 {
      var fs := seq(k, _ => f);
      assert fs[..k - 1] == seq(k - 1, _ => f);
      SumOverRepeated(k - 1, f, tone);
    }
  }

  /** The sum of a chord split in two is the sum of the two parts: the
      order in which notes are added does not matter. */
  lemma {:induction false} SumOverAppend(fs: seq<real>, gs: seq<real>, tone: real -> real)
    ensures SumOver(fs + gs, tone) == SumOver(fs, tone) + SumOver(gs, tone)
    decreases |gs|
  {
    if |gs| == 0 {
      assert fs + gs == fs;
    } else {
      var all := fs + gs;
      assert all[..|all| - 1] == fs + gs[..|gs| - 1];
      SumOverAppend(fs, gs[..|gs| - 1], tone);
    }
  }
}
