// The configuration constants of parameters.py.

module Parameters {
  /** Amplitude coefficients of the harmonics; index 0 is the fundamental. */
  const Harmonics: seq<real> := [1.0, 0.5, 0.25, 0.125]
  /** Duration of each streamed chunk, in seconds. */
  const ChunkDuration: real := 0.05
  const Amplitude: real := 0.3
  /** Total duration of a keyboard note, in seconds. */
  const NoteDuration: real := 0.5
  /** Envelope attack and decay of a keyboard note, in seconds. */
  const Attack: real := 0.05
  const Decay: real := 0.3
  /** Waveform used by the keyboard: "sinus", "sawtooth" or "square". */
  const WaveformName: string := "sinus"
}
