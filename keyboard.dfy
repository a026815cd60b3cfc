// custom_keyboard.py: the voice a key press starts, rendered chunk by chunk
// by the audio callback, which slices the note's envelope, advances through
// it and silences the note once the envelope is used up.

module Keyboard {
  import opened PyBase
  import opened Waves
  import NoteTables
  import Synthesis
  import Parameters

  /** The frames of one callback, the stream's block size
      `int(CHUNK_DURATION * SAMPLE_RATE)`. */
  function BlockSize(): (r: int)
    ensures r == 2205
  {
    Trunc(Parameters.ChunkDuration * NoteTables.SampleRate as real)
  }

  /** The chunk's duration `frames / SAMPLE_RATE` holds exactly `frames`
      samples, so the generated wave and the output buffer have the same
      length. */
  lemma ChunkSamples(frames: nat)
    ensures Samples(frames as real / NoteTables.SampleRate as real, NoteTables.SampleRate) == frames
  {
    var sr := NoteTables.SampleRate as real;
    assert frames as real / sr * sr == frames as real;
  }

  /** The shared state the callback reads and writes back: current_frequency,
      current_envelope and current_envelope_position. */
  datatype VoiceState = VoiceState(frequency: real, envelope: Option<seq<real>>, position: nat)

  /** No note: the state at start-up and after stop_note. */
  const Idle := VoiceState(0.0, None, 0)

  function Min(a: int, b: int): int
  {
    if a <= b then a else b
  }

  /** `envelope[pos:pos + frames]`: Python cuts both bounds back to the
      length, so near the end the chunk is shorter than the buffer, and past
      the end it is empty. */
  function Chunk(env: seq<real>, pos: nat, frames: nat): (r: seq<real>)
    ensures |r| == if pos >= |env| then 0 else Min(frames, |env| - pos)
    ensures forall i :: 0 <= i < |r| ==> r[i] == env[pos + i]
  {
    env[Min(pos, |env|)..Min(pos + frames, |env|)]
  }

  /** The samples the callback writes for the wave the generator produced:
      zeros without a sounding note; the wave itself without an envelope;
      otherwise the wave scaled by the envelope chunk, and zero past the
      chunk (a chunk shorter than the buffer only occurs when the envelope
      is used up, which is when the tail is zeroed). */
  function Rendered(s: VoiceState, wave: seq<real>): (r: seq<real>)
    ensures |r| == |wave|
  {
    if s.frequency <= 0.0 then seq(|wave|, _ => 0.0)
    else match s.envelope
      case None => wave
      case Some(env) =>
        var chunk := Chunk(env, s.position, |wave|);
        seq(|wave|, i requires 0 <= i < |wave| => if i < |chunk| then Product(wave[i], chunk[i]) else 0.0)
  }

  /** The state the callback writes back after `frames` frames: only a
      sounding note with an envelope moves, and it stops once its position
      reaches the envelope's end. */
  function Next(s: VoiceState, frames: nat): (r: VoiceState)
  {
    if s.frequency <= 0.0 then s
    else match s.envelope
      case None => s
      case Some(env) =>
        var p := s.position + frames;
        VoiceState(if p >= |env| then 0.0 else s.frequency, s.envelope, p)
  }

  /** A voice without a sounding note outputs silence and keeps its state;
      in particular after stop_note it stays silent. */
  lemma IdleIsSilent(s: VoiceState, wave: seq<real>, frames: nat)
    requires s.frequency <= 0.0
    ensures forall i :: 0 <= i < |wave| ==> Rendered(s, wave)[i] == 0.0
    ensures Next(s, frames) == s
  {
  }

  /** A sounding note with an envelope: the samples covered by the envelope
      are the wave times the envelope from the current position on, and the
      position advances by exactly the buffer's length. */
  lemma EnvelopeSlice(s: VoiceState, wave: seq<real>)
    requires s.frequency > 0.0 && s.envelope.Some? && s.position <= |s.envelope.value|
    ensures var env := s.envelope.value;
            && (forall i :: 0 <= i < |wave| && s.position + i < |env| ==>
                  Rendered(s, wave)[i] == Product(wave[i], env[s.position + i]))
            && Next(s, |wave|).position == s.position + |wave|
            && Next(s, |wave|).envelope == s.envelope
  {
  }

  /** When the buffer reaches the envelope's end, the samples past it are
      zero, the note stops, and every later callback is silent; before the
      end the note keeps sounding. */
  lemma SelfTerminate(s: VoiceState, wave: seq<real>, later: seq<real>)
    requires s.frequency > 0.0 && s.envelope.Some?
    ensures var env := s.envelope.value;
            s.position + |wave| >= |env| ==>
              && (forall i :: 0 <= i < |wave| && s.position + i >= |env| ==> Rendered(s, wave)[i] == 0.0)
              && Next(s, |wave|).frequency == 0.0
              && Rendered(Next(s, |wave|), later) == seq(|later|, _ => 0.0)
    ensures s.position + |wave| < |s.envelope.value| ==> Next(s, |wave|).frequency == s.frequency
  {
  }

  /** Without an envelope a sounding note is emitted unscaled and never
      advances or stops on its own. */
  lemma NoEnvelopeUnscaled(s: VoiceState, wave: seq<real>, frames: nat)
    requires s.frequency > 0.0 && s.envelope.None?
    ensures Rendered(s, wave) == wave
    ensures Next(s, frames) == s
  {
  }

  /** The state after k callbacks of `frames` frames each. */
  function After(s: VoiceState, frames: nat, k: nat): VoiceState
  {
    if k == 0 then s else Next(After(s, frames, k - 1), frames)
  }

  /** A note started at position 0 with frequency f > 0 sounds for as long
      as the callbacks so far have not reached the envelope's end, sitting
      at position k * frames; from then on it is silent for good. */
  lemma {:induction false} NoteLifetime(f: real, env: seq<real>, frames: nat, k: nat)
    requires f > 0.0
    ensures var s := After(VoiceState(f, Some(env), 0), frames, k);
            && s.envelope == Some(env)
            && (s.frequency == f <==> k == 0 || k * frames < |env|)
            && (s.frequency != f ==> s.frequency == 0.0)
            && (s.frequency == f ==> s.position == k * frames)
  {
    if k > 0 {
      NoteLifetime(f, env, frames, k - 1);
      assert (k - 1) * frames + frames == k * frames;
      var prev := After(VoiceState(f, Some(env), 0), frames, k - 1);
      if prev.frequency != f {
        assert (k - 1) * frames <= k * frames;
      }
    }
  }

  /** What a held note sounds like, chunk by chunk: sample i of callback k
      is the wave times envelope sample k * frames + i while the envelope
      lasts, and zero after it. */
  lemma NoteOutput(f: real, env: seq<real>, frames: nat, k: nat, wave: seq<real>)
    requires f > 0.0 && |wave| == frames
    ensures forall i :: 0 <= i < frames ==>
              Rendered(After(VoiceState(f, Some(env), 0), frames, k), wave)[i]
              == if k * frames + i < |env| then Product(wave[i], env[k * frames + i]) else 0.0
  {
    NoteLifetime(f, env, frames, k);
    var s := After(VoiceState(f, Some(env), 0), frames, k);
    if s.frequency != f {
      assert k * frames >= |env|;
    }
  }

  /** The envelope of a key press: generate_envelope(DURATION, ATTACK,
      DECAY) is accepted (0.05 + 0.3 <= 0.5), lasts 22050 samples, starts
      silent and has faded back to 0 at its last sample. */
  function KeyboardEnvelope(): (r: seq<real>)
    ensures Synthesis.GenerateEnvelope(Parameters.NoteDuration, Parameters.Attack, Parameters.Decay,
                                       NoteTables.SampleRate) == Ok(r)
    ensures |r| == 22050 && InUnitRange(r) && r[0] == 0.0 && r[2204] == 1.0 && r[22049] == 0.0
  {
    var g := Synthesis.GenerateEnvelope(Parameters.NoteDuration, Parameters.Attack, Parameters.Decay, NoteTables.SampleRate);
    Synthesis.EnvelopeAcceptedWhenFits(Parameters.NoteDuration, Parameters.Attack, Parameters.Decay, NoteTables.SampleRate);
    Synthesis.EnvelopeShape(Parameters.NoteDuration, Parameters.Attack, Parameters.Decay, NoteTables.SampleRate);
    assert Samples(0.05, 44100) == 2205 && Samples(0.3, 44100) == 13230 && Samples(0.5, 44100) == 22050;
    g.value
  }

  /** A key's note sounds for exactly ten callbacks of the stream's block
      size: the tenth reaches the end of the 22050-sample envelope. */
  lemma KeyNoteLastsTenChunks(i: nat)
    requires i < |NoteTables.KeyboardPitches|
    ensures var s := VoiceState(NoteTables.KeyFrequency(i), Some(KeyboardEnvelope()), 0);
            && After(s, BlockSize(), 9).frequency == NoteTables.KeyFrequency(i)
            && After(s, BlockSize(), 10).frequency == 0.0
  {
    NoteTables.Key2FreqRising();
    var f := NoteTables.KeyFrequency(i);
    assert f >= NoteTables.KeyFrequency(0);
    var env := KeyboardEnvelope();
    NoteLifetime(f, env, 2205, 9);
    NoteLifetime(f, env, 2205, 10);
  }

  /** audio_callback as written: it calls generate_tone with the keyword
      `initial_phases`, which generate_tone does not accept (its parameter is
      `initial_phase`, and the shared phase starts as None, which the sine
      could not add either), so every callback with a sounding note raises
      TypeError; only the silent paths return, with zeros. */
  function CallbackAsWritten(s: VoiceState, stopping: bool, frames: nat): (r: Result<seq<real>>)
    ensures r.Err? <==> !stopping && s.frequency > 0.0
    ensures r.Ok? ==> r.value == seq(frames, _ => 0.0)
  {
    if stopping || s.frequency <= 0.0 then Ok(seq(frames, _ => 0.0)) else Err(TypeError)
  }

  /** Every key press, as written, makes the next callback raise instead of
      sounding the note. */
  lemma KeyPressRaisesAsWritten(i: nat)
    requires i < |NoteTables.KeyboardPitches|
    ensures CallbackAsWritten(VoiceState(NoteTables.KeyFrequency(i), Some(KeyboardEnvelope()), 0), false, BlockSize())
            == Err(TypeError)
  {
    NoteTables.Key2FreqRising();
    assert NoteTables.KeyFrequency(i) >= NoteTables.KeyFrequency(0);
  }

  /** downsample_waveform(data, k): `data[::k]`. */
  function DownsampleWaveform(data: seq<real>, factor: int): (r: Result<seq<real>>)
    ensures r.Err? <==> factor == 0
    ensures factor > 0 ==> r.Ok? && |r.value| == (|data| + factor - 1) / factor
                           && forall i :: 0 <= i < |r.value| ==> i * factor < |data| && r.value[i] == data[i * factor]
  {
    StepSlice(data, factor)
  }

  /** Downsampling keeps every sample whose index is a multiple of the
      factor, at index / factor. */
  lemma DownsampleKeepsMultiples(data: seq<real>, factor: int, j: nat)
    requires factor > 0 && j < |data| && j % factor == 0
    ensures var r := DownsampleWaveform(data, factor).value;
            j / factor < |r| && r[j / factor] == data[j]
  {
    var q := j / factor;
    assert q * factor == j;
    assert q * factor + factor <= |data| + factor - 1;
    MulDivLess(q, factor, |data| + factor - 1);
  }

  lemma MulDivLess(q: nat, m: int, x: int)
    requires m > 0 && q * m + m <= x
    ensures q < x / m
  {
    var r := x / m;
    assert x == r * m + x % m && 0 <= x % m < m;
  }

  /** The voice the callback and the key handlers share; the lock that
      guards it is left out, each method running as one atomic step. */
  class Voice {
    var frequency: real
    var envelope: Option<seq<real>>
    var position: nat
    /** The phase the next chunk starts at. */
    var phase: real
    /** stop_event. */
    var stopping: bool

    function State(): VoiceState
      reads this
    {
      VoiceState(frequency, envelope, position)
    }

    /** The module's initial values and start_audio_stream's reset, with
        the phase starting at 0. */
    constructor ()
      ensures State() == Idle && phase == 0.0 && !stopping
    {
      frequency, envelope, position := 0.0, None, 0;
      phase := 0.0;
      stopping := false;
    }

    /** play_note(note): KEY2FREQ[note] raises KeyError for a key without a
        note before anything changes; otherwise the note starts from the
        beginning of a fresh envelope. */
    method PlayNote(note: string) returns (r: Result<()>)
      modifies this
      ensures r.Ok? <==> note in NoteTables.Key2Freq()
      ensures r.Err? ==> r.error == KeyError && State() == old(State())
      ensures r.Ok? ==> State() == VoiceState(NoteTables.Key2Freq()[note], Some(KeyboardEnvelope()), 0)
      ensures phase == old(phase) && stopping == old(stopping)
    {
      var keys := NoteTables.Key2Freq();
      if note !in keys {
        return Err(KeyError);
      }
      var env := Synthesis.GenerateEnvelope(Parameters.NoteDuration, Parameters.Attack, Parameters.Decay,
                                            NoteTables.SampleRate);
      assert env == Ok(KeyboardEnvelope());
      frequency, envelope, position := keys[note], Some(env.value), 0;
      r := Ok(());
    }

    /** stop_note(). */
    method StopNote()
      modifies this
      ensures State() == Idle
      ensures phase == old(phase) && stopping == old(stopping)
    {
      frequency, envelope, position := 0.0, None, 0;
    }

    /** stop_event.set(), on the exit key or an interrupt. */
    method RequestStop()
      modifies this
      ensures stopping
      ensures State() == old(State()) && phase == old(phase)
    {
      stopping := true;
    }

    /** audio_callback(outdata, frames, ...), with generate_tone called with
        the current phase: `wave` is the chunk generate_tone produced for the
        current frequency and phase. A stopped stream is filled with zeros
        and nothing else is touched; otherwise the output is Rendered, the
        state becomes Next, and the phase moves on when a note sounded. */
    method Render(wave: seq<real>, outdata: array<real>)
      requires |wave| == outdata.Length
      modifies this, outdata
      ensures stopping == old(stopping)
      ensures old(stopping) ==> outdata[..] == seq(outdata.Length, _ => 0.0)
                                && State() == old(State()) && phase == old(phase)
      ensures !old(stopping) ==> outdata[..] == Rendered(old(State()), wave)
                                 && State() == Next(old(State()), |wave|)
      ensures !old(stopping) ==>
                phase == if old(frequency) > 0.0
                         then FinalPhase(old(frequency), |wave| as real / NoteTables.SampleRate as real, old(phase))
                         else old(phase)
    {
      if stopping {
        FillZero(outdata);
        return;
      }
      var n := outdata.Length;
      var freq, env, pos := frequency, envelope, position;
      var nextPhase := phase;
      if freq > 0.0 {
        nextPhase := FinalPhase(freq, n as real / NoteTables.SampleRate as real, phase);
        CopyWave(wave, outdata);
        if env.Some? {
          var chunk := Chunk(env.value, pos, n);
          ScaleByChunk(wave, chunk, outdata);
          pos := pos + n;
          if pos >= |env.value| {
            ZeroFrom(outdata, |chunk|);
            freq := 0.0;
          }
          assert outdata[..] == Rendered(old(State()), wave);
        }
      } else {
        FillZero(outdata);
      }
      frequency, position, phase := freq, pos, nextPhase;
    }
  }

  /** The generated chunk, as the buffer the callback works on. */
  method CopyWave(wave: seq<real>, outdata: array<real>)
    requires |wave| == outdata.Length
    modifies outdata
    ensures outdata[..] == wave
  {
    for i := 0 to outdata.Length
      invariant forall j :: 0 <= j < i ==> outdata[j] == wave[j]
    {
      outdata[i] := wave[i];
    }
  }

  /** `wave[:len(chunk)] *= chunk`. */
  method ScaleByChunk(wave: seq<real>, chunk: seq<real>, outdata: array<real>)
    requires outdata[..] == wave && |chunk| <= |wave|
    modifies outdata
    ensures outdata[..] == seq(|wave|, i requires 0 <= i < |wave| => if i < |chunk| then Product(wave[i], chunk[i]) else wave[i])
  {
    for i := 0 to |chunk|
      invariant forall j :: 0 <= j < i ==> outdata[j] == Product(wave[j], chunk[j])
      invariant forall j :: i <= j < outdata.Length ==> outdata[j] == wave[j]
    {
      outdata[i] := Product(outdata[i], chunk[i]);
    }
  }

  /** `wave[start:] = 0`. */
  method ZeroFrom(outdata: array<real>, start: nat)
    requires start <= outdata.Length
    modifies outdata
    ensures outdata[..] == old(outdata[..start]) + seq(outdata.Length - start, _ => 0.0)
  {
    for i := start to outdata.Length
      invariant forall j :: 0 <= j < start ==> outdata[j] == old(outdata[j])
      invariant forall j :: start <= j < i ==> outdata[j] == 0.0
    {
      outdata[i] := 0.0;
    }
  }

  /** `outdata.fill(0)`. */
  method FillZero(outdata: array<real>)
    modifies outdata
    ensures outdata[..] == seq(outdata.Length, _ => 0.0)
  {
    for i := 0 to outdata.Length
      invariant forall j :: 0 <= j < i ==> outdata[j] == 0.0
    {
      outdata[i] := 0.0;
    }
  }
}
