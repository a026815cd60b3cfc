// Numeric building blocks shared by synthesis.py and simple_synthesis.py:
// numpy's linspace, the sample-time grid, the three waveform shapes and the
// phase carried to the next buffer.

module Waves {
  import opened PyBase

  /** math.pi / np.pi as a double. */
  const Pi: real := 3.141592653589793

  /** np.sin is not modelled numerically: a waveform generator receives any
      function that stays within [-1, 1]. */
  type Sine = f: real -> real | forall x :: -1.0 <= f(x) <= 1.0 witness (x: real) => 0.0

  /** `int(x * sample_rate)`: the number of samples in x seconds. */
  function Samples(seconds: real, sampleRate: int): int
  {
    Trunc(seconds * sampleRate as real)
  }

  /** Position of sample i of n on [0, 1], as numpy's linspace spaces them
      (a single sample sits at the start). */
  function Frac(i: nat, n: nat): real
    requires i < n
  {
    if n == 1 then 0.0 else i as real / (n - 1) as real
  }

  lemma FracBounds(i: nat, n: nat)
    requires i < n
    ensures 0.0 <= Frac(i, n) <= 1.0
    ensures i == 0 ==> Frac(i, n) == 0.0
    ensures n >= 2 && i == n - 1 ==> Frac(i, n) == 1.0
  {
  }

  lemma FracMonotone(i: nat, j: nat, n: nat)
    requires i <= j < n
    ensures Frac(i, n) <= Frac(j, n)
  {
    if n > 1 {
      var m := (n - 1) as real;
      assert Frac(j, n) - Frac(i, n) == (j - i) as real / m;
    }
  }

  /** `np.linspace(a, b, n)` for a non-negative count. */
  function Ramp(a: real, b: real, n: nat): (r: seq<real>)
    ensures |r| == n
  {
    seq(n, i requires 0 <= i < n => a + (b - a) * Frac(i, n))
  }

  /** `np.linspace(a, b, n)`: a negative count raises ValueError. */
  function Linspace(a: real, b: real, n: int): (r: Result<seq<real>>)
    ensures r.Ok? <==> n >= 0
    ensures r.Ok? ==> |r.value| == n
    ensures n >= 1 ==> r.value[0] == a
    ensures n >= 2 ==> r.value[n - 1] == b
  {
    if n < 0 then Err(ValueError)
    else
      assert n >= 1 ==> Ramp(a, b, n)[0] == a by {
        if n >= 1 { FracBounds(0, n); }
      }
      assert n >= 2 ==> Ramp(a, b, n)[n - 1] == b by {
        if n >= 2 { FracBounds(n - 1, n); }
      }
      Ok(Ramp(a, b, n))
  }

  lemma {:induction false} RampBetween(a: real, b: real, n: nat, i: nat)
    requires i < n
    ensures a <= b ==> a <= Ramp(a, b, n)[i] <= b
    ensures b <= a ==> b <= Ramp(a, b, n)[i] <= a
  {
    var f := Frac(i, n);
    FracBounds(i, n);
    var d := b - a;
    assert Ramp(a, b, n)[i] == a + d * f;
    if a <= b {
      MulAtMost(d, 0.0, f);
      MulAtMost(d, f, 1.0);
      assert d * 0.0 == 0.0 && d * 1.0 == d;
      assert 0.0 <= d * f <= d;
    } else {
      MulAtMost(-d, 0.0, f);
      MulAtMost(-d, f, 1.0);
      assert -d * 0.0 == 0.0 && -d * 1.0 == -d;
      assert 0.0 <= -d * f <= -d;
      assert d * f == -(-d * f);
    }
  }

  lemma {:induction false} RampMonotone(a: real, b: real, n: nat, i: nat, j: nat)
    requires i <= j < n
    ensures a <= b ==> Ramp(a, b, n)[i] <= Ramp(a, b, n)[j]
    ensures b <= a ==> Ramp(a, b, n)[j] <= Ramp(a, b, n)[i]
  {
    var fi, fj := Frac(i, n), Frac(j, n);
    FracMonotone(i, j, n);
    var d := b - a;
    assert Ramp(a, b, n)[i] == a + d * fi;
    assert Ramp(a, b, n)[j] == a + d * fj;
    StepOrder(a, d, fi, fj);
  }

  /** Moving from a by a larger fraction of d goes further in d's direction. */
  lemma StepOrder(a: real, d: real, fi: real, fj: real)
    requires fi <= fj
    ensures d >= 0.0 ==> a + d * fi <= a + d * fj
    ensures d <= 0.0 ==> a + d * fj <= a + d * fi
  {
    if d >= 0.0 {
      MulAtMost(d, fi, fj);
    } else {
      MulAtMost(-d, fi, fj);
      assert d * fi == -(-d * fi);
      assert d * fj == -(-d * fj);
    }
  }

  /** Time of sample i in `np.linspace(0, duration, n, endpoint=False)`. */
  function SampleTime(duration: real, n: nat, i: nat): real
    requires i < n
  {
    i as real * (duration / n as real)
  }

  /** The n sample instants of a span of `duration` seconds. */
  function Times(duration: real, n: nat): (r: seq<real>)
    ensures |r| == n
    ensures n >= 1 ==> r[0] == 0.0
    ensures duration > 0.0 ==> forall i :: 0 <= i < n ==> 0.0 <= r[i] < duration
  {
    var t := seq(n, i requires 0 <= i < n => SampleTime(duration, n, i));
    assert forall i :: 0 <= i < n && duration > 0.0 ==> 0.0 <= t[i] < duration by {
      forall i | 0 <= i < n && duration > 0.0 ensures 0.0 <= t[i] < duration {
        SampleTimeBounds(duration, n, i);
      }
    }
    t
  }

  /** `np.linspace(0, duration, n, endpoint=False)`: n instants a step of
      duration / n apart, starting at 0 and stopping short of duration; a
      negative count raises ValueError. */
  function TimeGrid(duration: real, n: int): (r: Result<seq<real>>)
    ensures r.Ok? <==> n >= 0
    ensures r.Err? ==> r.error == ValueError
    ensures r.Ok? ==> |r.value| == n && forall i :: 0 <= i < n ==> r.value[i] == SampleTime(duration, n, i)
  {
    if n < 0 then Err(ValueError) else Ok(Times(duration, n))
  }

  lemma SampleTimeBounds(duration: real, n: nat, i: nat)
    requires i < n && duration >= 0.0
    ensures 0.0 <= SampleTime(duration, n, i) <= duration
    ensures duration > 0.0 ==> SampleTime(duration, n, i) < duration
  {
    var step := duration / n as real;
    assert step * n as real == duration;
    MulAtMost(step, 0.0, i as real);
    MulAtMost(step, i as real, (n - 1) as real);
    assert step * (n - 1) as real == duration - step;
  }

  /** `np.sign`. */
  function Sign(x: real): (r: real)
    ensures r == -1.0 || r == 0.0 || r == 1.0
    ensures (r > 0.0 <==> x > 0.0) && (r < 0.0 <==> x < 0.0)
  {
    if x > 0.0 then 1.0 else if x < 0.0 then -1.0 else 0.0
  }

  /** `2 * (x - np.floor(0.5 + x))`: a sawtooth of period 1 through 0 at
      every integer. */
  function Sawtooth(x: real): (r: real)
    ensures -1.0 <= r < 1.0
  {
    2.0 * (x - (0.5 + x).Floor as real)
  }

  /** The three waveform names the generators accept. */
  datatype Waveform = Sinus | SawtoothWave | Square

  function ParseWaveform(name: string): (r: Result<Waveform>)
    ensures r.Ok? <==> name in {"sinus", "sawtooth", "square"}
    ensures r.Err? ==> r.error == ValueError
    ensures r == Ok(Sinus) <==> name == "sinus"
    ensures r == Ok(SawtoothWave) <==> name == "sawtooth"
    ensures r == Ok(Square) <==> name == "square"
  {
    if name == "sinus" then Ok(Sinus)
    else if name == "sawtooth" then Ok(SawtoothWave)
    else if name == "square" then Ok(Square)
    else Err(ValueError)
  }

  /** The angle `2 * pi * frequency * t` of a plain sine. */
  function Angle(frequency: real, t: real): real
  {
    2.0 * Pi * frequency * t
  }

  /** The un-enveloped fundamental at time t for angular frequency
      omega = 2 pi f. */
  function Fundamental(kind: Waveform, sin: Sine, frequency: real, t: real, phase: real): real
  {
    var omega := 2.0 * Pi * frequency;
    match kind
    case Sinus => sin(omega * t + phase)
    case SawtoothWave => Sawtooth(t * frequency)
    case Square => Sign(sin(omega * t + phase))
  }

  lemma FundamentalRange(kind: Waveform, sin: Sine, frequency: real, t: real, phase: real)
    ensures -1.0 <= Fundamental(kind, sin, frequency, t, phase) <= 1.0
    ensures kind == SawtoothWave ==> Fundamental(kind, sin, frequency, t, phase) < 1.0
    ensures kind == Square ==> Fundamental(kind, sin, frequency, t, phase) in {-1.0, 0.0, 1.0}
  {
  }

  /** `(2 * pi * f * duration + initial_phase) % (2 * pi)`: the phase at
      which the next buffer would start. */
  function FinalPhase(frequency: real, duration: real, initialPhase: real): (r: real)
    ensures 0.0 <= r < 2.0 * Pi
    ensures ((2.0 * Pi * frequency * duration + initialPhase - r) / (2.0 * Pi)).Floor as real
            == (2.0 * Pi * frequency * duration + initialPhase - r) / (2.0 * Pi)
  {
    FloorMod(2.0 * Pi * frequency * duration + initialPhase, 2.0 * Pi)
  }

  /** numpy broadcasting of `signal *= envelope` on n samples: the envelope
      must have n entries or a single one. */
  predicate Broadcasts(envelope: seq<real>, n: nat)
  {
    |envelope| == n || |envelope| == 1
  }

  function EnvelopeAt(envelope: seq<real>, n: nat, i: nat): real
    requires Broadcasts(envelope, n) && i < n
  {
    if |envelope| == n then envelope[i] else envelope[0]
  }

  /** Every value lies in [0, 1]. */
  ghost predicate InUnitRange(s: seq<real>)
  {
    forall i :: 0 <= i < |s| ==> 0.0 <= s[i] <= 1.0
  }

  ghost predicate NonDecreasingOn(s: seq<real>, lo: nat, hi: nat)
    requires lo <= hi <= |s|
  {
    forall i, j :: lo <= i <= j < hi ==> s[i] <= s[j]
  }

  ghost predicate NonIncreasingOn(s: seq<real>, lo: nat, hi: nat)
    requires lo <= hi <= |s|
  {
    forall i, j :: lo <= i <= j < hi ==> s[j] <= s[i]
  }

  /** One full turn of the angle. */
  function Turn(x: real): real
  {
    x + 2.0 * Pi
  }

  /** The sine function repeats after a full turn. */
  ghost predicate Periodic(sin: Sine)
  {
    forall x :: sin(Turn(x)) == sin(x)
  }

  lemma {:induction false} PeriodicShift(sin: Sine, x: real, k: nat)
    requires Periodic(sin)
    ensures sin(x + k as real * (2.0 * Pi)) == sin(x)
  {
    if k > 0 {
      PeriodicShift(sin, x, k - 1);
      assert x + k as real * (2.0 * Pi) == Turn(x + (k - 1) as real * (2.0 * Pi));
    }
  }

  lemma PeriodicWholeTurns(sin: Sine, x: real, k: int)
    requires Periodic(sin)
    ensures sin(x + k as real * (2.0 * Pi)) == sin(x)
  {
    if k >= 0 {
      PeriodicShift(sin, x, k);
    } else {
      var y := x + k as real * (2.0 * Pi);
      PeriodicShift(sin, y, -k);
      assert y + (-k) as real * (2.0 * Pi) == x;
    }
  }

  /** The sawtooth waveform is built from t * frequency alone: the initial
      phase does not reach it. */
  lemma SawtoothIgnoresPhase(sin: Sine, frequency: real, t: real, phase1: real, phase2: real)
    ensures Fundamental(SawtoothWave, sin, frequency, t, phase1) == Fundamental(SawtoothWave, sin, frequency, t, phase2)
    ensures Fundamental(SawtoothWave, sin, frequency, 0.0, phase1) == 0.0
  {
  }

  /** Phase continuity: a span started at the phase returned for the previous
      span of `duration` seconds runs, at every time t, exactly as that
      span's sinus or square wave would have run at duration + t. */
  lemma PhaseContinuity(kind: Waveform, sin: Sine, frequency: real, duration: real, phase: real, t: real)
    requires Periodic(sin) && kind != SawtoothWave
    ensures Fundamental(kind, sin, frequency, t, FinalPhase(frequency, duration, phase))
            == Fundamental(kind, sin, frequency, duration + t, phase)
  {
    var x := 2.0 * Pi * frequency * duration + phase;
    var r := FinalPhase(frequency, duration, phase);
    var k := ((x - r) / (2.0 * Pi)).Floor;
    assert x == r + k as real * (2.0 * Pi);
    var y := 2.0 * Pi * frequency * t + r;
    PeriodicWholeTurns(sin, y, k);
    assert 2.0 * Pi * frequency * (duration + t) == 2.0 * Pi * frequency * duration + 2.0 * Pi * frequency * t;
    assert 2.0 * Pi * frequency * (duration + t) + phase == y + k as real * (2.0 * Pi);
  }

  /** The value returned beside the signal: the sample array and the phase
      at the end of the span. */
  datatype Tone = Tone(signal: seq<real>, phase: real)

  /** The fundamental sampled on the time grid ts. */
  function FundamentalWave(kind: Waveform, sin: Sine, frequency: real, ts: seq<real>, phase: real): (r: seq<real>)
    ensures |r| == |ts|
  {
    seq(|ts|, i requires 0 <= i < |ts| => Fundamental(kind, sin, frequency, ts[i], phase))
  }

  /** `signal * envelope` under numpy broadcasting, or the signal itself when
      there is no envelope. */
  function Enveloped(base: seq<real>, envelope: Option<seq<real>>): (r: seq<real>)
    requires envelope.Some? ==> Broadcasts(envelope.value, |base|)
    ensures |r| == |base|
  {
    if envelope.None? then base
    else seq(|base|, i requires 0 <= i < |base| => Product(base[i], EnvelopeAt(envelope.value, |base|, i)))
  }

  /** `a * b`, named so that equal factors give equal products without
      arithmetic reasoning. */
  function Product(a: real, b: real): real
  {
    a * b
  }

  /** Element-wise `a + b`. */
  function Plus(a: seq<real>, b: seq<real>): (r: seq<real>)
    requires |a| == |b|
    ensures |r| == |a|
  {
    seq(|a|, i requires 0 <= i < |a| => a[i] + b[i])
  }

  /** `signal = <waveform>(omega * t + initial_phase)`, sample by sample. */
  method FillFundamental(kind: Waveform, sin: Sine, frequency: real, ts: seq<real>, phase: real)
    returns (signal: array<real>)
    ensures fresh(signal) && signal[..] == FundamentalWave(kind, sin, frequency, ts, phase)
  {
    ghost var wave := FundamentalWave(kind, sin, frequency, ts, phase);
    signal := new real[|ts|];
    var i := 0;
    while i < |ts|
      invariant 0 <= i <= |ts|
      invariant signal[..i] == wave[..i]
    {
      signal[i] := Fundamental(kind, sin, frequency, ts[i], phase);
      assert signal[..i + 1] == wave[..i] + [wave[i]];
      i := i + 1;
    }
    assert signal[..] == signal[..i];
  }

  /** `signal *= envelope`, in place. */
  method ApplyEnvelope(signal: array<real>, envelope: seq<real>)
    requires Broadcasts(envelope, signal.Length)
    modifies signal
    ensures signal[..] == Enveloped(old(signal[..]), Some(envelope))
  {
    ghost var base := signal[..];
    var i := 0;
    while i < signal.Length
      invariant 0 <= i <= signal.Length
      invariant forall j :: 0 <= j < i ==> signal[j] == base[j] * EnvelopeAt(envelope, signal.Length, j)
      invariant forall j :: i <= j < signal.Length ==> signal[j] == base[j]
    {
      signal[i] := signal[i] * EnvelopeAt(envelope, signal.Length, i);
      i := i + 1;
    }
    forall j | 0 <= j < signal.Length
      ensures signal[..][j] == Enveloped(base, Some(envelope))[j]
    {
    }
    assert signal[..] == Enveloped(base, Some(envelope));
  }

  /** The fundamental of generate_tone, multiplied in place by the envelope
      when one is given. */
  method ShapedSignal(kind: Waveform, sin: Sine, frequency: real, ts: seq<real>,
                      envelope: Option<seq<real>>, phase: real)
    returns (signal: array<real>)
    requires envelope.Some? ==> Broadcasts(envelope.value, |ts|)
    ensures fresh(signal) && signal[..] == Enveloped(FundamentalWave(kind, sin, frequency, ts, phase), envelope)
  {
    signal := FillFundamental(kind, sin, frequency, ts, phase);
    if envelope.Some? {
      ApplyEnvelope(signal, envelope.value);
    }
  }

  lemma FundamentalWaveAt(kind: Waveform, sin: Sine, frequency: real, ts: seq<real>, phase: real, i: nat)
    requires i < |ts|
    ensures FundamentalWave(kind, sin, frequency, ts, phase)[i] == Fundamental(kind, sin, frequency, ts[i], phase)
  {
  }

  lemma EnvelopedAt(base: seq<real>, envelope: Option<seq<real>>, i: nat)
    requires envelope.Some? ==> Broadcasts(envelope.value, |base|)
    requires i < |base|
    ensures envelope.None? ==> Enveloped(base, envelope)[i] == base[i]
    ensures envelope.Some? ==> Enveloped(base, envelope)[i] == Product(base[i], EnvelopeAt(envelope.value, |base|, i))
  {
  }

}
