// synthesis.py: the attack/sustain/decay envelope and the tone generator
// with additive harmonics and phase tracking.

module Synthesis {
  import opened PyBase
  import opened Waves
  import Parameters

  /** Whether generate_envelope returns rather than raising ValueError:
      attack and decay must fit in the duration, every linspace count must be
      non-negative and the zero-pad width len(t) - len(envelope) too. */
  predicate EnvelopeAccepted(duration: real, attack: real, decay: real, sampleRate: int)
  {
    var n := Samples(duration, sampleRate);
    var a := Samples(attack, sampleRate);
    var d := Samples(decay, sampleRate);
    attack + decay <= duration && n >= 0 && a >= 0 && d >= 0 && a + d <= n
  }

  /** generate_envelope(duration, attack, decay, sample_rate): a linear rise
      from 0 to 1 over the attack samples, a block of 1.0, then a linear fall
      from 1 to 0 over the decay samples, zero-padded to the note's length. */
  function GenerateEnvelope(duration: real, attack: real, decay: real, sampleRate: int): (r: Result<seq<real>>)
    ensures r.Ok? <==> EnvelopeAccepted(duration, attack, decay, sampleRate)
    ensures r.Err? ==> r.error == ValueError
    ensures r.Ok? ==> |r.value| == Samples(duration, sampleRate)
  {
    if attack + decay > duration then Err(ValueError)
    else
      var n := Samples(duration, sampleRate);
      var a := Samples(attack, sampleRate);
      var d := Samples(decay, sampleRate);
      // np.linspace refuses a negative number of samples
      if n < 0 || a < 0 || d < 0 then Err(ValueError)
      else
        var sustainSamples := n - a - d;
        var sustain := if sustainSamples > 0 then seq(sustainSamples, _ => 1.0) else [];
        var envelope := Ramp(0.0, 1.0, a) + sustain + Ramp(1.0, 0.0, d);
        // np.pad refuses a negative pad width
        if n - |envelope| < 0 then Err(ValueError)
        else Ok(envelope + seq(n - |envelope|, _ => 0.0))
  }

  /** With non-negative times and sample rate, the only error left is the
      explicit check: attack and decay sample counts then always fit in the
      note, so the zero-pad is never negative. */
  lemma EnvelopeAcceptedWhenFits(duration: real, attack: real, decay: real, sampleRate: int)
    requires sampleRate >= 0 && attack >= 0.0 && decay >= 0.0
    ensures EnvelopeAccepted(duration, attack, decay, sampleRate) <==> attack + decay <= duration
  {
    if attack + decay <= duration {
      var sr := sampleRate as real;
      MulAtMost(sr, 0.0, attack);
      MulAtMost(sr, 0.0, decay);
      MulAtMost(sr, attack + decay, duration);
      assert attack * sr + decay * sr <= duration * sr;
      var a, d := Samples(attack, sampleRate), Samples(decay, sampleRate);
      assert (a + d) as real <= duration * sr;
    }
  }

  /** The shape of a generated envelope: the attack ramp starts at 0 and never
      falls, the middle holds 1.0, the decay ramp comes last, never rises and
      ends at 0; every value is in [0, 1]. */
  lemma {:induction false} EnvelopeShape(duration: real, attack: real, decay: real, sampleRate: int)
    requires GenerateEnvelope(duration, attack, decay, sampleRate).Ok?
    ensures var env := GenerateEnvelope(duration, attack, decay, sampleRate).value;
            var n, a, d := |env|, Samples(attack, sampleRate), Samples(decay, sampleRate);
            && 0 <= a <= a + d <= n
            && InUnitRange(env)
            && NonDecreasingOn(env, 0, a)
            && (forall i :: a <= i < n - d ==> env[i] == 1.0)
            && NonIncreasingOn(env, n - d, n)
            && (a >= 1 ==> env[0] == 0.0)
            && (a >= 2 ==> env[a - 1] == 1.0)
            && (d >= 1 ==> env[n - d] == 1.0 && env[n - 1] == (if d == 1 then 1.0 else 0.0))
  {
    var env := GenerateEnvelope(duration, attack, decay, sampleRate).value;
    var n, a, d := |env|, Samples(attack, sampleRate), Samples(decay, sampleRate);
    var envelope := Ramp(0.0, 1.0, a) + seq(n - a - d, _ => 1.0) + Ramp(1.0, 0.0, d);
    assert env == envelope + seq(n - |envelope|, _ => 0.0);
    assert env == envelope;
    TrapezoidShape(env, a, n - a - d, d);
  }

  /** A rise over a samples, s samples of 1.0, then a fall over d samples. */
  lemma TrapezoidShape(env: seq<real>, a: nat, s: nat, d: nat)
    requires env == Ramp(0.0, 1.0, a) + seq(s, _ => 1.0) + Ramp(1.0, 0.0, d)
    ensures var n := |env|;
            && n == a + s + d
            && InUnitRange(env)
            && NonDecreasingOn(env, 0, a)
            && (forall i :: a <= i < n - d ==> env[i] == 1.0)
            && NonIncreasingOn(env, n - d, n)
            && (a >= 1 ==> env[0] == 0.0)
            && (a >= 2 ==> env[a - 1] == 1.0)
            && (d >= 1 ==> env[n - d] == 1.0 && env[n - 1] == (if d == 1 then 1.0 else 0.0))
  {
    var n := |env|;
    var up, down := Ramp(0.0, 1.0, a), Ramp(1.0, 0.0, d);
    assert forall i :: 0 <= i < a ==> env[i] == up[i];
    assert forall i :: a <= i < n - d ==> env[i] == 1.0;
    assert forall i :: n - d <= i < n ==> env[i] == down[i - (n - d)];
    forall i | 0 <= i < n ensures 0.0 <= env[i] <= 1.0 {
      if i < a { RampBetween(0.0, 1.0, a, i); }
      else if i >= n - d { RampBetween(1.0, 0.0, d, i - (n - d)); }
    }
    forall i, j | 0 <= i <= j < a ensures env[i] <= env[j] {
      RampMonotone(0.0, 1.0, a, i, j);
    }
    forall i, j | n - d <= i <= j < n ensures env[j] <= env[i] {
      RampMonotone(1.0, 0.0, d, i - (n - d), j - (n - d));
    }
    if a >= 1 { FracBounds(0, a); FracBounds(a - 1, a); }
    if d >= 1 { FracBounds(0, d); FracBounds(d - 1, d); }
  }

  /** Harmonic entry m - 1 sounding at frequency multiplier m:
      coeff * sin(omega * t * m + phase). */
  function Partial(harmonics: seq<real>, m: nat, sin: Sine, frequency: real, t: real, phase: real): real
    requires 1 <= m <= |harmonics|
  {
    Product(harmonics[m - 1], HarmonicSine(sin, m, frequency, t, phase))
  }

  /** `np.sin(omega * t * m + initial_phase)`: the sine at m times the
      fundamental frequency. */
  function HarmonicSine(sin: Sine, m: nat, frequency: real, t: real, phase: real): (r: real)
    ensures -1.0 <= r <= 1.0
  {
    sin(2.0 * Pi * frequency * t * m as real + phase)
  }

  /** Sum of the partials of harmonics[1..k]: entry i sounds at frequency
      multiplier i + 1. */
  function Overtones(harmonics: seq<real>, k: nat, sin: Sine, frequency: real, t: real, phase: real): real
    requires k <= |harmonics|
  {
    if k <= 1 then 0.0
    else Overtones(harmonics, k - 1, sin, frequency, t, phase) + Partial(harmonics, k, sin, frequency, t, phase)
  }

  /** The harmonics above the fundamental sampled on the time grid ts. */
  function OvertoneWave(harmonics: seq<real>, sin: Sine, frequency: real, ts: seq<real>, phase: real): (r: seq<real>)
    ensures |r| == |ts|
  {
    seq(|ts|, i requires 0 <= i < |ts| => Overtones(harmonics, |harmonics|, sin, frequency, ts[i], phase))
  }

  /** The signal of generate_tone on the time grid ts: the fundamental times
      the envelope, plus the harmonics, which the envelope does not reach. */
  function ToneWave(kind: Waveform, sin: Sine, frequency: real, ts: seq<real>,
                    envelope: Option<seq<real>>, phase: real, harmonics: seq<real>): (r: seq<real>)
    requires envelope.Some? ==> Broadcasts(envelope.value, |ts|)
    ensures |r| == |ts|
  {
    Plus(Enveloped(FundamentalWave(kind, sin, frequency, ts, phase), envelope),
         OvertoneWave(harmonics, sin, frequency, ts, phase))
  }

  /** `signal += coeff * np.sin(omega * t * m + initial_phase)` for harmonic
      multiplier m. */
  method AddPartial(signal: array<real>, harmonics: seq<real>, m: nat, sin: Sine, frequency: real,
                    ts: seq<real>, phase: real)
    requires 1 <= m <= |harmonics| && |ts| == signal.Length
    modifies signal
    ensures forall j :: 0 <= j < |ts| ==>
              signal[j] == old(signal[j]) + Partial(harmonics, m, sin, frequency, ts[j], phase)
  {
    var k := 0;
    while k < |ts|
      invariant 0 <= k <= |ts|
      invariant forall j :: 0 <= j < k ==>
                  signal[j] == old(signal[j]) + Partial(harmonics, m, sin, frequency, ts[j], phase)
      invariant forall j :: k <= j < |ts| ==> signal[j] == old(signal[j])
    {
      signal[k] := signal[k] + Partial(harmonics, m, sin, frequency, ts[k], phase);
      k := k + 1;
    }
  }

  /** `for i, coeff in enumerate(harmonics[1:], start=2): signal += coeff *
      np.sin(omega * t * i + initial_phase)`. */
  method AddOvertones(signal: array<real>, harmonics: seq<real>, sin: Sine, frequency: real,
                      ts: seq<real>, phase: real)
    requires |ts| == signal.Length
    modifies signal
    ensures forall j :: 0 <= j < |ts| ==>
              signal[j] == old(signal[j]) + Overtones(harmonics, |harmonics|, sin, frequency, ts[j], phase)
  {
    var m := 2;
    while m <= |harmonics|
      invariant 2 <= m <= |harmonics| + 1 || (m == 2 && |harmonics| <= 1)
      invariant forall j :: 0 <= j < |ts| ==>
                  signal[j] == old(signal[j]) + Overtones(harmonics, if m - 1 <= |harmonics| then m - 1 else 0, sin, frequency, ts[j], phase)
    {
      ghost var before := signal[..];
      AddPartial(signal, harmonics, m, sin, frequency, ts, phase);
      forall j | 0 <= j < |ts|
        ensures signal[j] == old(signal[j]) + Overtones(harmonics, m, sin, frequency, ts[j], phase)
      {
        assert signal[j] == before[j] + Partial(harmonics, m, sin, frequency, ts[j], phase);
      }
      m := m + 1;
    }
  }

  /** The sample array of generate_tone once its arguments are accepted: the
      fundamental, multiplied in place by the envelope, plus the harmonics. */
  method ToneSignal(kind: Waveform, sin: Sine, frequency: real, ts: seq<real>,
                    envelope: Option<seq<real>>, phase: real, harmonics: seq<real>)
    returns (r: seq<real>)
    requires envelope.Some? ==> Broadcasts(envelope.value, |ts|)
    ensures r == ToneWave(kind, sin, frequency, ts, envelope, phase, harmonics)
  {
    var signal := ShapedSignal(kind, sin, frequency, ts, envelope, phase);
    ghost var shaped := signal[..];
    AddOvertones(signal, harmonics, sin, frequency, ts, phase);
    r := signal[..];
    forall j | 0 <= j < |ts|
      ensures r[j] == Plus(shaped, OvertoneWave(harmonics, sin, frequency, ts, phase))[j]
    {
    }
    assert r == Plus(shaped, OvertoneWave(harmonics, sin, frequency, ts, phase));
  }

  /** generate_tone(frequency, duration, envelope, sample_rate, initial_phase,
      waveform, harmonics): on the grid of int(sample_rate * duration)
      instants, the shaped fundamental plus the harmonics, and the phase at
      the end of the span, which depends on neither the waveform nor the
      harmonics. */
  method GenerateTone(frequency: real, duration: real, envelope: Option<seq<real>>, sampleRate: int,
                      initialPhase: real, waveform: string, harmonics: seq<real>, sin: Sine)
    returns (r: Result<Tone>)
    ensures var n := Samples(duration, sampleRate);
            r.Err? <==> n < 0 || ParseWaveform(waveform).Err? || (envelope.Some? && !Broadcasts(envelope.value, n))
    ensures r.Err? ==> r.error == ValueError
    ensures r.Ok? ==>
              var n := Samples(duration, sampleRate);
              && n >= 0
              && |r.value.signal| == n
              && r.value.phase == FinalPhase(frequency, duration, initialPhase)
              && r.value.signal == ToneWave(ParseWaveform(waveform).value, sin, frequency, Times(duration, n),
                                            envelope, initialPhase, harmonics)
  {
    var grid := TimeGrid(duration, Samples(duration, sampleRate));
    if grid.Err? {
      return Err(ValueError);
    }
    var ts := grid.value;
    assert ts == Times(duration, |ts|);
    var parsed := ParseWaveform(waveform);
    if parsed.Err? {
      return Err(ValueError);
    }
    if envelope.Some? && !Broadcasts(envelope.value, |ts|) {
      return Err(ValueError);  // `signal *= envelope` cannot broadcast
    }
    var signal := ToneSignal(parsed.value, sin, frequency, ts, envelope, initialPhase, harmonics);
    r := Ok(Tone(signal, FinalPhase(frequency, duration, initialPhase)));
  }

  lemma OvertoneWaveAt(harmonics: seq<real>, sin: Sine, frequency: real, ts: seq<real>, phase: real, i: nat)
    requires i < |ts|
    ensures OvertoneWave(harmonics, sin, frequency, ts, phase)[i] == Overtones(harmonics, |harmonics|, sin, frequency, ts[i], phase)
  {
  }

  /** Sample i of generate_tone: the fundamental at t[i], times the envelope
      value broadcast to i when there is one, plus the harmonics. */
  lemma ToneWaveAt(kind: Waveform, sin: Sine, frequency: real, ts: seq<real>,
                   envelope: Option<seq<real>>, phase: real, harmonics: seq<real>, i: nat)
    requires envelope.Some? ==> Broadcasts(envelope.value, |ts|)
    requires i < |ts|
    ensures envelope.None? ==>
              ToneWave(kind, sin, frequency, ts, envelope, phase, harmonics)[i]
              == Fundamental(kind, sin, frequency, ts[i], phase) + Overtones(harmonics, |harmonics|, sin, frequency, ts[i], phase)
    ensures envelope.Some? ==>
              ToneWave(kind, sin, frequency, ts, envelope, phase, harmonics)[i]
              == Product(Fundamental(kind, sin, frequency, ts[i], phase), EnvelopeAt(envelope.value, |ts|, i))
                 + Overtones(harmonics, |harmonics|, sin, frequency, ts[i], phase)
  {
    var base := FundamentalWave(kind, sin, frequency, ts, phase);
    var shaped := Enveloped(base, envelope);
    var over := OvertoneWave(harmonics, sin, frequency, ts, phase);
    assert ToneWave(kind, sin, frequency, ts, envelope, phase, harmonics)[i] == shaped[i] + over[i];
    FundamentalWaveAt(kind, sin, frequency, ts, phase, i);
    EnvelopedAt(base, envelope, i);
    OvertoneWaveAt(harmonics, sin, frequency, ts, phase, i);
  }

  /** With the default `harmonics=[1.0]`, or none at all, nothing is added to
      the (enveloped) fundamental. */
  lemma SingleHarmonicAddsNothing(kind: Waveform, sin: Sine, frequency: real, ts: seq<real>,
                                  envelope: Option<seq<real>>, phase: real, harmonics: seq<real>)
    requires envelope.Some? ==> Broadcasts(envelope.value, |ts|)
    requires |harmonics| <= 1
    ensures ToneWave(kind, sin, frequency, ts, envelope, phase, harmonics)
            == Enveloped(FundamentalWave(kind, sin, frequency, ts, phase), envelope)
  {
    var base := Enveloped(FundamentalWave(kind, sin, frequency, ts, phase), envelope);
    var tone := ToneWave(kind, sin, frequency, ts, envelope, phase, harmonics);
    forall i | 0 <= i < |ts| ensures tone[i] == base[i] {
      assert OvertoneWave(harmonics, sin, frequency, ts, phase)[i] == 0.0;
    }
  }

  lemma {:induction false} OvertonesIgnoreFirst(h1: seq<real>, h2: seq<real>, k: nat, sin: Sine,
                                                frequency: real, t: real, phase: real)
    requires k <= |h1| == |h2| && 1 <= |h1| && h1[1..] == h2[1..]
    ensures Overtones(h1, k, sin, frequency, t, phase) == Overtones(h2, k, sin, frequency, t, phase)
  {
    if k > 1 {
      OvertonesIgnoreFirst(h1, h2, k - 1, sin, frequency, t, phase);
      assert h1[k - 1] == h1[1..][k - 2] == h2[k - 1];
    }
  }

  /** harmonics[0] is never read: the fundamental always has weight 1, so
      replacing the first coefficient changes nothing. */
  lemma FirstCoefficientIgnored(kind: Waveform, sin: Sine, frequency: real, ts: seq<real>,
                                envelope: Option<seq<real>>, phase: real, harmonics: seq<real>, c: real)
    requires envelope.Some? ==> Broadcasts(envelope.value, |ts|)
    requires |harmonics| >= 1
    ensures ToneWave(kind, sin, frequency, ts, envelope, phase, harmonics)
            == ToneWave(kind, sin, frequency, ts, envelope, phase, [c] + harmonics[1..])
  {
    var other := [c] + harmonics[1..];
    assert other[1..] == harmonics[1..];
    forall i | 0 <= i < |ts|
      ensures OvertoneWave(harmonics, sin, frequency, ts, phase)[i] == OvertoneWave(other, sin, frequency, ts, phase)[i]
    {
      OvertonesIgnoreFirst(harmonics, other, |harmonics|, sin, frequency, ts[i], phase);
    }
    assert OvertoneWave(harmonics, sin, frequency, ts, phase) == OvertoneWave(other, sin, frequency, ts, phase);
  }

  /** The envelope multiplies only the fundamental: under an all-zero
      envelope the harmonics still sound in full. */
  lemma EnvelopeSkipsHarmonics(kind: Waveform, sin: Sine, frequency: real, ts: seq<real>,
                               phase: real, harmonics: seq<real>)
    ensures ToneWave(kind, sin, frequency, ts, Some(seq(|ts|, _ => 0.0)), phase, harmonics)
            == OvertoneWave(harmonics, sin, frequency, ts, phase)
  {
    var zeros := seq(|ts|, _ => 0.0);
    var tone := ToneWave(kind, sin, frequency, ts, Some(zeros), phase, harmonics);
    forall i | 0 <= i < |ts| ensures tone[i] == OvertoneWave(harmonics, sin, frequency, ts, phase)[i] {
      assert Enveloped(FundamentalWave(kind, sin, frequency, ts, phase), Some(zeros))[i] == 0.0;
    }
  }

  function Abs(x: real): (r: real)
    ensures r >= 0.0 && (r == x || r == -x)
  {
    if x < 0.0 then -x else x
  }

  /** Sum of the magnitudes of harmonics[1..k]. */
  function Weight(harmonics: seq<real>, k: nat): (r: real)
    requires k <= |harmonics|
    ensures r >= 0.0
  {
    if k <= 1 then 0.0 else Weight(harmonics, k - 1) + Abs(harmonics[k - 1])
  }

  lemma ScaledBound(c: real, s: real)
    requires -1.0 <= s <= 1.0
    ensures Abs(Product(c, s)) <= Abs(c)
  {
    var d := Abs(c);
    MulAtMost(d, s, 1.0);
    MulAtMost(d, -1.0, s);
    assert d * 1.0 == d && d * -1.0 == -d;
    assert -d <= d * s <= d;
    var p := Product(c, s);
    if c < 0.0 {
      assert p == -(d * s);
      assert -d <= p <= d;
    } else {
      assert p == d * s;
    }
  }

  lemma {:induction false} OvertonesBound(harmonics: seq<real>, k: nat, sin: Sine, frequency: real, t: real, phase: real)
    requires k <= |harmonics|
    ensures Abs(Overtones(harmonics, k, sin, frequency, t, phase)) <= Weight(harmonics, k)
  {
    if k > 1 {
      OvertonesBound(harmonics, k - 1, sin, frequency, t, phase);
      ScaledBound(harmonics[k - 1], HarmonicSine(sin, k, frequency, t, phase));
    }
  }

  /** A sample of generate_tone never exceeds, in magnitude, 1 plus the sum
      of the magnitudes of the harmonic coefficients after the first, when
      the envelope stays in [0, 1]. */
  lemma ToneBound(kind: Waveform, sin: Sine, frequency: real, ts: seq<real>,
                  envelope: Option<seq<real>>, phase: real, harmonics: seq<real>, i: nat)
    requires envelope.Some? ==> Broadcasts(envelope.value, |ts|) && InUnitRange(envelope.value)
    requires i < |ts|
    ensures Abs(ToneWave(kind, sin, frequency, ts, envelope, phase, harmonics)[i]) <= 1.0 + Weight(harmonics, |harmonics|)
  {
    var f := Fundamental(kind, sin, frequency, ts[i], phase);
    var o := Overtones(harmonics, |harmonics|, sin, frequency, ts[i], phase);
    FundamentalRange(kind, sin, frequency, ts[i], phase);
    ToneWaveAt(kind, sin, frequency, ts, envelope, phase, harmonics, i);
    OvertonesBound(harmonics, |harmonics|, sin, frequency, ts[i], phase);
    var e := if envelope.Some? then Some(EnvelopeAt(envelope.value, |ts|, i)) else None;
    assert e.Some? ==> 0.0 <= e.value <= 1.0;
    SampleBound(f, e, o, Weight(harmonics, |harmonics|));
  }

  /** A fundamental sample in [-1, 1], scaled by an envelope value in [0, 1]
      when there is one, plus overtones of magnitude at most w. */
  lemma SampleBound(f: real, e: Option<real>, o: real, w: real)
    requires -1.0 <= f <= 1.0 && (e.Some? ==> 0.0 <= e.value <= 1.0) && Abs(o) <= w
    ensures Abs((if e.Some? then Product(f, e.value) else f) + o) <= 1.0 + w
  {
    if e.Some? {
      ScaledBound(f, e.value);
    }
  }

  /** With the project's harmonic coefficients the bound is 1.875. */
  lemma DefaultToneBound(kind: Waveform, sin: Sine, frequency: real, ts: seq<real>,
                         envelope: Option<seq<real>>, phase: real, i: nat)
    requires envelope.Some? ==> Broadcasts(envelope.value, |ts|) && InUnitRange(envelope.value)
    requires i < |ts|
    ensures Abs(ToneWave(kind, sin, frequency, ts, envelope, phase, Parameters.Harmonics)[i]) <= 1.875
  {
    ToneBound(kind, sin, frequency, ts, envelope, phase, Parameters.Harmonics, i);
    assert Weight(Parameters.Harmonics, 4) == 0.875;
  }
}
