# pysynth core, modelled in Dafny

pysynth is a small Python synthesizer. The model covers five of its modules:

- **`chord_maker.py`**: turns a chord prompt such as `Cm7`, `2Gmin` or
  `Abmaj7` into note names. It reads an optional octave digit and the root
  letter, and rewrites a flat root as a sharp. It then looks the root up in
  the 60-name `NOTES` list and adds the third, the fifth, and optionally the
  seventh and ninth at fixed semitone offsets.
- **`utils.py`**: the note-frequency table (C0 to A8, sharp and flat
  spellings) and the computer-keyboard map. It also holds octave shifting
  clamped to `[MIN_FREQUENCY, MAX_FREQUENCY]`, the nearest-note search, the
  slider clamp and `notes2freqs`.
- **`synthesis.py`**: the attack/sustain/decay envelope, and `generate_tone`.
  `generate_tone` makes a sine, sawtooth or square fundamental, multiplies it
  by the envelope, adds harmonics and returns the phase to continue from.
- **`simple_synthesis.py`**: the ADSR envelope clipped to `[0, 1]`, the
  harmonic-free `generate_tone`, enveloped tones, chords as sums of tones,
  and `polyphony`.
- **`custom_keyboard.py`**: the voice a key press starts. The audio callback
  renders it block by block: it slices the note's envelope, advances through
  it, silences the note when the envelope is used up, and carries the phase
  from block to block.

The model is split into Dafny modules:

| Module | Contents |
|---|---|
| `PyBase` | Python behaviour the core relies on: `int()` truncation, float `%`, indexing with negative indices, `in` on strings, `list.index`, extended slices |
| `Parameters` | `parameters.py` |
| `Waves` | the numpy pieces shared by both synthesis modules: `linspace`, the sample-time grid, the three waveforms, the final phase, broadcasting an envelope |
| `NoteTables` | `utils.py` |
| `ChordMaker` | `chord_maker.py` |
| `Synthesis` | `synthesis.py` |
| `SimpleSynthesis` | `simple_synthesis.py` |
| `Keyboard` | `custom_keyboard.py`, with a class `Voice` holding the state the callback and the key handlers share |

How the model represents Python:

- **Errors.** An operation that can raise returns a `Result`, and the error
  kind is the Python exception it would raise: `ValueError`, `IndexError`,
  `KeyError` or `TypeError`. For example, `NOTES.index` raises `ValueError`,
  list indexing past the end raises `IndexError`, `KEY2FREQ[note]` raises
  `KeyError`, and `np.ones(-1)` raises `ValueError`.
- **Floats** are exact reals.
- **`np.sin`** is a parameter of type `Sine`, any function bounded by
  `[-1, 1]`. Where a property needs the sine to repeat every turn (phase
  continuity), the lemma requires it.
- **Imperative code.** The code that fills and scales numpy arrays in place
  is modelled with methods over `array<real>`. Each is proved equal to a
  function of its inputs. The per-harmonic accumulation loop, the chord
  accumulation loop, the `notes2freqs` loop and the callback are
  imperative. The table lookups, the parsing and the envelope construction
  are functions.

Behaviour modelled as written:

- **`getNote` off by one.** `getNote` tests `idx > len(NOTES)`, not `>=`.
  Index 60 therefore raises `IndexError` instead of folding down an octave,
  while 61 to 71 fold (`GetNote`, `ChordExampleOffByOne`).
- **Flat roots outside the list.** `flatToSharp` turns `Cb` into `B#` and
  `Fb` into `E#`, names that are not in `NOTES`.
- **`simple_synthesis.generate_envelope` scales by the duration.** It
  multiplies the attack and decay times by the duration, so they act as
  fractions of the note. The `release_env[:...]` slice is always empty, so
  no release stage ever appears (`NoRelease`). The module's own example
  call (4 s, attack 1, decay 0.5) asks for more samples than the note has.
  It therefore raises `ValueError` from `np.ones` (`ModuleExampleRaises`).

## Model

| member | source | states |
|---|---|---|
| PyBase.Trunc | synthesis.py:33 | `int(x)` truncates toward zero: the result is the integer between 0 and x that is less than 1 away from x |
| PyBase.FloorMod | synthesis.py:92 | Python's float `%` with a positive modulus lies in [0, m) and differs from x by a whole number of moduli |
| PyBase.PyIndex | chord_maker.py:96 | list indexing succeeds exactly for -len <= i < len; negative indices count from the end |
| PyBase.ContainsOccurs | chord_maker.py:55 | the substring test `pat in s` holds exactly when pat occurs at some position of s |
| PyBase.IndexOf | chord_maker.py:48 | `list.index` finds x exactly when x is in the list, at its first occurrence |
| PyBase.StepSlice | custom_keyboard.py:110 | `s[::k]` raises for k = 0; for k > 0 it keeps every k-th element from the start, ceil(len/k) of them; for k < 0 it walks back from the end |
| Waves.Linspace | synthesis.py:34 | `np.linspace(a, b, n)` succeeds exactly for n >= 0, has n points, starts at a, and ends at b when n >= 2 |
| Waves.RampBetween | synthesis.py:34-38 | every point of a linspace lies between its two ends |
| Waves.RampMonotone | synthesis.py:34-38 | a linspace rises when a <= b and falls when b <= a |
| Waves.Times | synthesis.py:69 | the time grid (endpoint excluded) has n points, starts at 0 and stays in [0, duration) |
| Waves.TimeGrid | synthesis.py:69 | building the grid raises `ValueError` exactly for a negative sample count; otherwise point i is i * duration / n |
| Waves.SampleTimeBounds | synthesis.py:69 | each grid instant lies in [0, duration], and below duration when duration > 0 |
| Waves.Sign | synthesis.py:78 | `np.sign` returns -1, 0 or 1 with the sign of its argument |
| Waves.Sawtooth | synthesis.py:76 | `2 * (x - floor(0.5 + x))` stays in [-1, 1) |
| Waves.ParseWaveform | synthesis.py:72-80 | exactly "sinus", "sawtooth" and "square" are accepted, each to its own shape; any other name raises `ValueError` |
| Waves.FundamentalRange | synthesis.py:72-80 | every waveform stays in [-1, 1]; the sawtooth stays below 1; the square takes only -1, 0 or 1 |
| Waves.FinalPhase | synthesis.py:92 | the returned phase lies in [0, 2*pi) and differs from omega * duration + initial_phase by whole turns |
| Waves.PhaseContinuity | synthesis.py:91-92 | for a periodic sine, a sine or square tone started at the returned phase has, at every time t, the value the previous tone would have had at duration + t |
| Waves.Fundamental | synthesis.py:72-80 | defines the un-enveloped waveform at time t: sin(omega * t + phase), the sawtooth of t * frequency, or the sign of the sine |
| Waves.SawtoothIgnoresPhase | synthesis.py:75-76 | the sawtooth ignores the initial phase and always starts at 0 |
| Waves.FillFundamental | synthesis.py:72-78 | the loop fills a fresh array with the chosen waveform at every grid instant |
| Waves.ApplyEnvelope | synthesis.py:83-84 | `signal *= envelope` in place multiplies each sample by the envelope value broadcast to it |
| Waves.ShapedSignal | synthesis.py:72-84 | the fundamental, multiplied by the envelope when there is one |
| Waves.EnvelopedAt | synthesis.py:82-84 | sample i is unchanged without an envelope and multiplied by the broadcast envelope value with one |
| NoteTables.NoteFrequencies | utils.py:5-59 | defines NOTE_FREQUENCIES as its entries in insertion order, octave by octave and pitch by pitch, each pitch under its spelling(s) |
| NoteTables.NameRoundTrip | utils.py:5-59 | reading back the name of any (octave, pitch, spelling) gives that octave and pitch |
| NoteTables.NamesDiffer | utils.py:5-59 | different pitches have different names, so no key of NOTE_FREQUENCIES is written twice |
| NoteTables.TableLookup | utils.py:5-59 | every note from C0 to A8, under its sharp or its flat spelling, maps to its listed frequency |
| NoteTables.EnharmonicLookup | utils.py:5-59 | the sharp and the flat spelling of a black key map to the same frequency |
| NoteTables.HzConcertPitch | utils.py:5-59 | A4 is 440 Hz and frequencies strictly rise through each octave and across octave boundaries |
| NoteTables.HzOctaves | utils.py:5-59 | each frequency is twice the one an octave below, within 0.015 Hz |
| NoteTables.HzPositive | utils.py:5-59 | every listed frequency is positive |
| NoteTables.TablePositive | utils.py:5-59 | every value of NOTE_FREQUENCIES is positive (so `filter(None, ...)` removes only missing notes) |
| NoteTables.Key2Freq | utils.py:65-78 | defines KEY2FREQ as the map from the twelve keys to the frequencies of their notes |
| NoteTables.KeyFrequencyLookup | utils.py:65-78 | each keyboard key's frequency is the table entry of its note |
| NoteTables.Key2FreqKeys | utils.py:65-78 | KEY2FREQ has exactly the keys q z s e d f t g y h j k, each mapped to its note's frequency |
| NoteTables.Key2FreqRising | utils.py:65-78 | along the key row the frequencies strictly rise from C4 = 261.63 to C5 = 523.25 |
| NoteTables.Key2FreqSkipsASharp | utils.py:65-78 | no key plays A#4 |
| NoteTables.ChangeOctave | utils.py:80-91 | a positive diff doubles the frequency unless that exceeds 7100, and otherwise it halves it unless that falls below 16; a frequency in [16, 7100] stays there |
| NoteTables.ChangeOctaveRoundTrip | utils.py:80-91 | an octave up then down, or down then up, gives back the frequency when the first step is not clamped |
| NoteTables.ChangeOctavesInRange | utils.py:80-91 | any sequence of octave changes keeps a frequency in [16, 7100] |
| NoteTables.ClosestIndex | utils.py:93-95 | the chosen entry is no farther from the frequency than any other, and strictly nearer than every earlier one, as `min` keeps the first of ties |
| NoteTables.GetClosestNote | utils.py:93-95 | the result is a note name of the table whose frequency is nearest the input, the first in table order among ties |
| NoteTables.ClosestExact | utils.py:93-95 | a frequency present in the table is matched exactly |
| NoteTables.ClampSlider | utils.py:103 | the value is clamped into [0, 100]: unchanged inside, 0 below and 100 above |
| NoteTables.KnownFrequencies | utils.py:148-155 | defines the frequencies `table.get` returns for a chord's names, with None and zero dropped as `filter(None, ...)` drops them |
| NoteTables.CollectFrequencies | utils.py:148-155 | the append loop followed by `filter(None, ...)` yields the frequencies of the known notes, in chord order |
| NoteTables.Notes2Freqs | utils.py:148-155 | notes2freqs looks the chord up in NOTE_FREQUENCIES and keeps the frequencies of the known notes |
| NoteTables.KnownFrequenciesFrom | utils.py:148-155 | there are no more frequencies than notes, and each is the frequency of some note of the chord |
| NoteTables.KnownFrequenciesAllKnown | utils.py:148-155 | when every note is known and every frequency is positive, the output has one frequency per note, in order |
| NoteTables.KnownFrequenciesSkipsUnknown | utils.py:148-155 | an unknown note name contributes nothing |
| NoteTables.KnownFrequenciesAppend | utils.py:148-155 | the frequencies of a longer chord are those of its prefix followed by those of the added note |
| ChordMaker.Notes | chord_maker.py:4-10 | defines NOTES as the sharp pitch names from A to G# followed by the octave digit, for octaves 0 to 4 |
| ChordMaker.NotesLayout | chord_maker.py:4-10 | NOTES holds 60 names, and position 12 * o + k holds pitch k counted from A followed by the octave digit o |
| ChordMaker.NoteIndexOfNotes | chord_maker.py:4-10 | every name of NOTES is found back at its own position, so the names are distinct |
| ChordMaker.NotesIndex | chord_maker.py:48 | `NOTES.index(name)` agrees with reading the pitch and the octave digit off the name |
| ChordMaker.DecrementLetter | chord_maker.py:13-17 | a letter A to G steps down one letter and A wraps to G: the result's position in A to G plus one is the letter's position, mod 7; any other character raises `ValueError` |
| ChordMaker.FlatToSharp | chord_maker.py:12-22 | a note without "b" is returned unchanged; with "b", the result is exactly `DecrementLetter` of its first character followed by "#", or `ValueError` when the first character is not A to G |
| ChordMaker.FlatToSharpSamePitch | chord_maker.py:12-22 | for Ab, Bb, Db, Eb and Gb the result names the pitch one semitone below the letter, the same pitch as the flat |
| ChordMaker.FlatToSharpExamples | chord_maker.py:12-22 | Ab->G#, Db->C#, Bb->A#, Eb->D#, Gb->F#, Cb->B#, Fb->E#; C# is unchanged and "bC" raises `ValueError` |
| ChordMaker.Octave | chord_maker.py:38-41 | defines the octave digit: the prompt's first character when it is a digit, "3" otherwise |
| ChordMaker.Body | chord_maker.py:38-41 | defines the prompt without its leading octave digit, which the interval tests read |
| ChordMaker.Spelling | chord_maker.py:42 | the root is one letter, or two when the rest contains '#' or 'b'; an empty rest raises `IndexError` |
| ChordMaker.ParseRoot | chord_maker.py:38-48 | `IndexError` exactly for an empty prompt or an empty body after the octave digit, never `KeyError`, and `ValueError` for every other failure; on success the root name sits in NOTES at the returned index, is the flat-to-sharp form of the root's spelling followed by the octave digit, and the body is the prompt without its digit |
| ChordMaker.RootPosition | chord_maker.py:38-48 | the root's index lies in the octave of the digit, 3 by default, so a default root lies in 36..47 |
| ChordMaker.HighOctaveRejected | chord_maker.py:38-48 | octave digits 5 to 9 are not in NOTES, so `NOTES.index` raises `ValueError` |
| ChordMaker.PlainRoot | chord_maker.py:38-48 | a natural root letter with octave digit o is found at index 12 * o + its pitch |
| ChordMaker.FlatRoot | chord_maker.py:38-48 | a flat root Ab, Bb, Db, Eb or Gb with octave digit o lies at 12 * o + (its letter's pitch + 11) mod 12, spelled as the sharp below; Cb and Fb raise `ValueError` because B# and E# are not in NOTES |
| ChordMaker.FlatRootExample | chord_maker.py:141 | "Abmaj7" from the example sequence has root G#3 at index 47 |
| ChordMaker.CFlatRejected | chord_maker.py:38-48 | "Cb" raises `ValueError` |
| ChordMaker.GetNote | chord_maker.py:92-96 | succeeds exactly for -60 <= idx < 60 and 60 < idx < 72, otherwise `IndexError`; above 60 it reads one octave lower |
| ChordMaker.GetNotePitch | chord_maker.py:92-96 | the note at idx, folded or not, has pitch class idx mod 12 |
| ChordMaker.MinorThird | chord_maker.py:98-99 | defines `getNote(idx + 3)` |
| ChordMaker.MajorThird | chord_maker.py:101-102 | defines `getNote(idx + 4)` |
| ChordMaker.Fifth | chord_maker.py:104-105 | defines `getNote(idx + 7)` |
| ChordMaker.Sixth | chord_maker.py:107-108 | defines `getNote(idx + 9)` |
| ChordMaker.MinorSeventh | chord_maker.py:110-111 | defines `getNote(idx + 10)` |
| ChordMaker.MajorSeventh | chord_maker.py:113-114 | defines `getNote(idx + 11)` |
| ChordMaker.Nineth | chord_maker.py:116-117 | defines `getNote(idx + 14)` |
| ChordMaker.ChordOn | chord_maker.py:50-87 | defines the chord on a parsed root: the root name, then the note at each interval of the body above it, or the first `IndexError` |
| ChordMaker.Chord | chord_maker.py:24-87 | defines what buildChord returns: the parse error of the root, or the chord on the parsed root |
| ChordMaker.BuildChord | chord_maker.py:24-87 | the method's appends produce exactly the chord the specification function `Chord` gives, including its error |
| ChordMaker.AppendIntervals | chord_maker.py:50-85 | starting from the root, the third, the fifth, the seventh and the ninth are appended in that order, stopping at the first `IndexError` |
| ChordMaker.ThirdNote | chord_maker.py:55-58 | "min" or "dim" selects the minor third, anything else the major third |
| ChordMaker.FifthNote | chord_maker.py:61-68 | "dim" takes the fifth of idx - 1, "aug" that of idx + 1, "6" the sixth, otherwise the fifth |
| ChordMaker.SeventhNote | chord_maker.py:71-76 | "dim7" adds the sixth, "maj7" the major seventh, other "7" the minor seventh, and no "7" adds nothing |
| ChordMaker.NinthSeventhNote | chord_maker.py:79-85 | with "9", "min" adds the minor seventh, otherwise the major seventh, and then the ninth |
| ChordMaker.AppendExtensions | chord_maker.py:70-85 | the seventh and ninth sections append their notes after the triad |
| ChordMaker.AppendSeventh | chord_maker.py:71-76 | the seventh section appends its note, if any |
| ChordMaker.AppendNinth | chord_maker.py:79-85 | the ninth section appends two notes when the prompt contains "9" |
| ChordMaker.NotesAboveSpec | chord_maker.py:98-117 | the notes at the offsets all exist exactly when every `getNote` succeeds; then there is one name per offset, each the note at root + offset, and any failure is `IndexError` |
| ChordMaker.ChordViaRoot | chord_maker.py:24-87 | a successful chord comes from a parsed root and the notes above it |
| ChordMaker.ChordShape | chord_maker.py:24-87 | a successful chord starts with the root name, followed by the note at each interval of the prompt |
| ChordMaker.ChordThirdAndFifth | chord_maker.py:54-68 | the second and third notes are exactly the third and fifth the prompt's qualities select |
| ChordMaker.ChordPitchClasses | chord_maker.py:24-117 | each note after the root has pitch class (root + interval) mod 12 |
| ChordMaker.IntervalsRange | chord_maker.py:98-117 | every interval used lies between 3 and 14 semitones |
| ChordMaker.IntervalsCount | chord_maker.py:54-85 | a chord has 3 notes, plus 1 when the prompt contains "7", plus 2 when it contains "9" |
| ChordMaker.ChordErrors | chord_maker.py:24-96 | an empty prompt raises `IndexError` and no prompt raises `KeyError`; once the root parses, the chord succeeds exactly when every interval's note exists, and fails with `IndexError` otherwise |
| ChordMaker.BareLetterIntervals | chord_maker.py:54-68 | a bare letter gives a major triad, intervals [4, 7] |
| ChordMaker.IntervalsOfCm7 | chord_maker.py:54-76 | "Cm7" is not "min", so it gets a major third and a minor seventh: [4, 7, 10] |
| ChordMaker.ChordExampleMinorSeventh | chord_maker.py:144 | "Cm7" from the example sequence gives ["C3", "E3", "G3", "A#4"] |
| ChordMaker.ChordExampleOffByOne | chord_maker.py:92-96 | "4D": the fifth lands on index 60 exactly and raises `IndexError` |
| ChordMaker.ChordExampleFolded | chord_maker.py:92-96 | "4E": the fifth at 62 folds one octave down, giving ["E4", "G#4", "B4"] |
| Synthesis.GenerateEnvelope | synthesis.py:9-53 | raises `ValueError` exactly when attack + decay exceeds the duration or the padding would be negative; otherwise returns one value per sample of the note |
| Synthesis.EnvelopeAcceptedWhenFits | synthesis.py:26-51 | for non-negative attack and decay, the envelope is produced exactly when attack + decay <= duration |
| Synthesis.EnvelopeShape | synthesis.py:30-53 | values in [0, 1]; a rise from 0 over the attack samples that reaches 1 at its last sample when it spans two or more, a plateau at 1, then a fall from 1 over the last decay samples, ending at 0 when the decay spans two or more samples |
| Synthesis.TrapezoidShape | synthesis.py:32-48 | the concatenated attack, ones and decay form a trapezoid in [0, 1] |
| Synthesis.ToneWave | synthesis.py:72-89 | defines generate_tone's signal on a time grid: the fundamental times the envelope, plus the harmonics, with one sample per grid point |
| Synthesis.AddPartial | synthesis.py:89 | adds one harmonic, coeff * sin(omega * t * m + phase), to every sample in place |
| Synthesis.AddOvertones | synthesis.py:88-89 | the loop adds harmonics 2, 3, ... weighted by harmonics[1:] to every sample |
| Synthesis.ToneSignal | synthesis.py:72-89 | the fundamental, multiplied by the envelope, plus the harmonics |
| Synthesis.GenerateTone | synthesis.py:55-97 | raises `ValueError` exactly for a negative sample count, an unknown waveform or an envelope that cannot broadcast; otherwise returns the tone on the time grid and the final phase |
| Synthesis.ToneWaveAt | synthesis.py:72-89 | sample i is the fundamental at t[i], times the envelope value when there is one, plus the harmonics at t[i] |
| Synthesis.SingleHarmonicAddsNothing | synthesis.py:88-89 | with the default [1.0], or no harmonics, the tone is the enveloped fundamental alone |
| Synthesis.FirstCoefficientIgnored | synthesis.py:88-89 | harmonics[0] is never read: replacing it leaves the tone unchanged |
| Synthesis.EnvelopeSkipsHarmonics | synthesis.py:82-89 | the envelope multiplies only the fundamental: under an all-zero envelope the harmonics still sound in full |
| Synthesis.OvertonesBound | synthesis.py:88-89 | the harmonics add at most the sum of the absolute coefficients |
| Synthesis.ToneBound | synthesis.py:72-89 | with an envelope in [0, 1], each sample is bounded by 1 plus the sum of the absolute harmonic coefficients |
| Synthesis.DefaultToneBound | parameters.py:1 | with HARMONICS = [1.0, 0.5, 0.25, 0.125], no sample exceeds 1.875 in magnitude |
| SimpleSynthesis.Clip | simple_synthesis.py:54 | `np.clip(x, 0, 1)` lands in [0, 1], keeps values inside and sends values outside to the nearer bound |
| SimpleSynthesis.ClipMonotone | simple_synthesis.py:54 | clipping preserves order |
| SimpleSynthesis.SliceTo | simple_synthesis.py:53 | `s[:stop]` keeps min(stop, len) elements, and a negative stop counts from the end |
| SimpleSynthesis.GenerateEnvelope | simple_synthesis.py:33-56 | raises `ValueError` exactly when a sample count (of the note, a stage, the sustain or the release) would be negative; otherwise returns the time grid and an envelope with one value per sample |
| SimpleSynthesis.NoRelease | simple_synthesis.py:46-53 | the release slice is always empty: the envelope is the clipped attack, decay and sustain, filling the note exactly |
| SimpleSynthesis.EnvelopeShape | simple_synthesis.py:33-56 | values in [0, 1]; the attack rises from 0, the decay runs from 1 towards the clipped sustain level, and the rest holds the clipped sustain level |
| SimpleSynthesis.StagesShape | simple_synthesis.py:37-54 | the clipped concatenation of attack, decay and sustain has that shape, stage by stage |
| SimpleSynthesis.EnvelopeAcceptedWhenFits | simple_synthesis.py:38-47 | non-negative inputs whose attack and decay fractions sum to at most 1 are accepted |
| SimpleSynthesis.ModuleExampleRaises | simple_synthesis.py:158-162 | the module's example (4 s, attack 1, decay 0.5) raises `ValueError` |
| SimpleSynthesis.DefaultEnvelopeExample | simple_synthesis.py:33 | the defaults on a 1 s note give 44100 values, starting at 0, reaching 1 at the end of the attack and holding 0.8 at the end |
| SimpleSynthesis.GenerateTone | simple_synthesis.py:63-85 | same acceptance as synthesis.generate_tone; on success the enveloped fundamental and the final phase |
| SimpleSynthesis.ToneRange | simple_synthesis.py:71-83 | with an envelope in [0, 1] every sample stays in [-1, 1] |
| SimpleSynthesis.ScaleSines | simple_synthesis.py:60 | `envelope * sines` broadcasts exactly when the lengths match or one of them is 1, otherwise `ValueError`; equal lengths multiply element by element, and a side of length 1 is repeated along the other, so a single sine gives one value per envelope entry |
| SimpleSynthesis.ToneOnGridAt | simple_synthesis.py:58-61 | sample i of the enveloped tone is the envelope value times sin(2 * pi * f * t[i]) |
| SimpleSynthesis.ToneWithEnvelope | simple_synthesis.py:58-61 | generate_tone_with_envelope on the note's time grid; every failure is `ValueError` |
| SimpleSynthesis.ChordOnGrid | simple_synthesis.py:92-96 | the sum over the frequencies has one value per grid point, and every failure is `ValueError` |
| SimpleSynthesis.ChordSignal | simple_synthesis.py:92-96 | the chord signal has one value per sample of the duration |
| SimpleSynthesis.AddTone | simple_synthesis.py:96 | `signal += tone` adds element by element in place |
| SimpleSynthesis.PlayChordWithEnvelope | simple_synthesis.py:92-98 | the accumulation loop produces the chord signal, including its error |
| SimpleSynthesis.ChordErrorPersists | simple_synthesis.py:95-96 | once one tone fails to broadcast, the whole chord raises `ValueError` |
| SimpleSynthesis.Polyphony | simple_synthesis.py:23-31 | polyphony succeeds exactly for a non-negative sample count, and is the chord of the frequencies with a constant envelope equal to the volume |
| SimpleSynthesis.PolyphonyAccepted | simple_synthesis.py:23-27 | a scalar volume always broadcasts, so polyphony never fails on the grid |
| SimpleSynthesis.ChordIsSum | simple_synthesis.py:92-96 | each sample of the chord is the sum over the frequencies of envelope * sin(2 * pi * f * t) |
| SimpleSynthesis.ChordSignalIsSum | simple_synthesis.py:92-96 | the chord of a duration is, sample by sample, the sum of its tones on the time grid |
| SimpleSynthesis.SumOfTonesBound | simple_synthesis.py:92-96 | with an envelope in [0, 1], a chord of k notes stays within [-k, k] |
| SimpleSynthesis.SumOverRepeated | simple_synthesis.py:95-96 | a frequency listed k times contributes k times its tone |
| SimpleSynthesis.SumOverAppend | simple_synthesis.py:95-96 | the chord of two lists of frequencies is the sum of their chords |
| Keyboard.BlockSize | custom_keyboard.py:86 | the block size `int(0.05 * 44100)` is 2205 frames |
| Keyboard.ChunkSamples | custom_keyboard.py:38 | a chunk lasting frames / SAMPLE_RATE seconds holds exactly `frames` samples, so the generated wave fits the buffer |
| Keyboard.Chunk | custom_keyboard.py:52-54 | the envelope slice holds the envelope values from the position on, cut short at the end of the envelope and empty past it |
| Keyboard.Rendered | custom_keyboard.py:49-75 | defines the samples the callback writes, one per sample of the wave: zeros without a sounding note, the wave without an envelope, else the wave scaled by the envelope chunk and zero past it |
| Keyboard.Next | custom_keyboard.py:49-73 | defines the state after a block: only a sounding note with an envelope moves on by the block, and its frequency drops to 0 once the envelope is used up |
| Keyboard.IdleIsSilent | custom_keyboard.py:67-68 | without a sounding note the callback writes zeros and the state does not move |
| Keyboard.EnvelopeSlice | custom_keyboard.py:51-56 | a sounding note with an envelope is scaled by the envelope from its position on, and the position advances by the block |
| Keyboard.SelfTerminate | custom_keyboard.py:58-61 | once the envelope is used up the rest of the block is zero, the frequency drops to 0 and every later block is silent; before that the note keeps sounding |
| Keyboard.NoEnvelopeUnscaled | custom_keyboard.py:51 | a note without an envelope passes the wave through unchanged and never stops on its own |
| Keyboard.NoteLifetime | custom_keyboard.py:51-61 | after k blocks a note still sounds exactly when k * frames is within the envelope, and then sits at position k * frames; otherwise its frequency is 0 |
| Keyboard.NoteOutput | custom_keyboard.py:51-61 | sample i of block k is the wave times envelope[k * frames + i] while the envelope lasts, and 0 afterwards |
| Keyboard.KeyboardEnvelope | custom_keyboard.py:97 | the envelope of a key press, `generate_envelope(0.5, 0.05, 0.3)`, succeeds with 22050 values in [0, 1], starting and ending at 0 and reaching 1 at the last attack sample, 2204 |
| Keyboard.KeyNoteLastsTenChunks | custom_keyboard.py:86-98 | a key press sounds for 10 blocks of 2205 frames: still sounding after 9, silent after 10 |
| Keyboard.CallbackAsWritten | custom_keyboard.py:39-48 | as written, the callback raises `TypeError` exactly when the stream is running and a note sounds, and writes zeros otherwise |
| Keyboard.KeyPressRaisesAsWritten | custom_keyboard.py:41-48 | for every key, the first block after the press raises `TypeError` |
| Keyboard.DownsampleWaveform | custom_keyboard.py:108-110 | `data[::factor]` raises for factor 0; for a positive factor it keeps every factor-th sample, ceil(len / factor) of them |
| Keyboard.DownsampleKeepsMultiples | custom_keyboard.py:108-110 | the sample at every multiple of the factor is kept, at position j / factor |
| Keyboard.Voice.constructor | custom_keyboard.py:77-81 | the voice starts idle: frequency 0, no envelope, position 0, phase 0, not stopping |
| Keyboard.Voice.PlayNote | custom_keyboard.py:91-98 | a key of KEY2FREQ starts its note with a fresh key-press envelope at position 0; any other key raises `KeyError` and changes nothing |
| Keyboard.Voice.StopNote | custom_keyboard.py:100-106 | the voice returns to idle |
| Keyboard.Voice.RequestStop | custom_keyboard.py:123-125 | the stop event is set and nothing else changes |
| Keyboard.Voice.Render | custom_keyboard.py:24-75 | a stopped stream gets zeros and the voice is untouched; otherwise the buffer receives the rendered block, the state advances, and the phase moves on by the block when a note sounded |
| Keyboard.CopyWave | custom_keyboard.py:75 | the generated wave is copied into the output buffer |
| Keyboard.ScaleByChunk | custom_keyboard.py:55 | `wave[:len(chunk)] *= chunk` scales the head of the buffer and leaves the rest |
| Keyboard.ZeroFrom | custom_keyboard.py:60 | `wave[len(chunk):] = 0` zeroes the tail and keeps the head |
| Keyboard.FillZero | custom_keyboard.py:29 | `outdata.fill(0)` sets every sample to 0 |

## Left out

- Audio output (`sd.play`, `sd.wait`, `sd.OutputStream`, `stream.start`) is not modelled because it is I/O. The callback's output buffer is the `outdata` array of `Keyboard.Voice.Render`.
- The lock and the two threads are not modelled. Each `Voice` method runs as one atomic step. `stop_event` is the `stopping` field.
- `np.sin`, `np.floor` and `np.pi` have no numeric model. The sine is a bounded parameter, `floor` is Dafny's `Floor` on reals, and pi is the double 3.141592653589793. Floating-point rounding is not modelled: all arithmetic is exact on reals.
- The logarithmic slider mapping (`sliderValueToFrequency`, `frequencyToSliderValue`) needs `log10` and `10 **`. Only the clamp into [0, 100] is modelled (`NoteTables.ClampSlider`).
- `getNoteRoundingError` and `getNoteFromFrequency` are left out. They are written as methods (`self`) at module level and cannot be called as they stand.
- `play_frequency`, `playSequence`, `play_tone_with_envelope` and `play_chorus_effect` are left out because they only produce sound. `apply_chorus_effect` is left out because it needs `np.interp`.
- `synthesis.py` repeats `generate_tone_with_envelope` and `play_chord_with_envelope` (lines 99-115). Their text is identical to `simple_synthesis.py`'s, which the `SimpleSynthesis` members model.
- `decodeChordSequence` is left out because it returns nothing. `testChords`, the example loops under `__main__`, plotting, the debug dump (JSON, timestamps) and the interactive key loop in `main` are left out because they are I/O.
- Keyboard.Voice.Render: takes the block `generate_tone` would produce as the parameter `wave`. The call as written raises `TypeError` (see Findings), and the corrected call's samples are those of `Synthesis.GenerateTone`. The phase update is stated with `Waves.FinalPhase`.
- Keyboard.CallbackAsWritten: states only whether the callback raises and the silent output. The block is not rendered because the as-written call never returns one.
- ChordMaker.IsDigit: only the ASCII digits 0 to 9 count as octave digits, while Python's `str.isdigit` also accepts other Unicode digits such as "²". Every such prompt fails in both, and only the kind of error can differ: for the one-character prompt "²" the source raises `IndexError` (empty body) and the model raises `ValueError` (no note "²3").
- NoteTables.Notes2Freqs: `notes2freqs` returns a lazy, one-shot `filter` iterator. The model returns the sequence that iterator would yield, so exhausting it after one pass is not modelled.
- `current_phases` is `None` after `start_audio_stream`. The corrected voice starts at phase 0 (`Keyboard.Voice.constructor`), because `None` would not be a valid phase either.

## Findings

| source | as written | input that shows it | evidently intended | confidence | as-written member | corrected member |
|---|---|---|---|---|---|---|
| custom_keyboard.py:41-48 | the callback passes `initial_phases=phases` to `generate_tone`, whose parameter is `initial_phase` (synthesis.py:55-63), so every block with a sounding note raises `TypeError` | any key press, e.g. "q" followed by the next audio block | call `generate_tone` with `initial_phase`, starting from phase 0 and carrying the returned final phase to the next block | not executed | Keyboard.KeyPressRaisesAsWritten | Keyboard.Voice.Render |
