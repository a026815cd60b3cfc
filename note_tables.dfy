// utils.py: the note-name to frequency table, the keyboard map, octave
// shifting with clamping, nearest-note lookup, the slider clamp and
// notes2freqs.

module NoteTables {
  import opened PyBase

  const SampleRate: nat := 44100
  const MinFrequency: real := 16.0
  const MaxFrequency: real := 7100.0

  /** The twelve pitch names of an octave from C, black keys spelt sharp. */
  const PitchNames: seq<string> := ["C", "C#", "D", "D#", "E", "F", "F#", "G", "G#", "A", "A#", "B"]

  /** The black keys of an octave, counted in semitones from C. */
  predicate IsBlack(k: nat)
  {
    k == 1 || k == 3 || k == 6 || k == 8 || k == 10
  }

  /** The flat spelling of a black key. */
  function FlatName(k: nat): string
    requires IsBlack(k)
  {
    if k == 1 then "Db" else if k == 3 then "Eb" else if k == 6 then "Gb" else if k == 8 then "Ab" else "Bb"
  }

  /** The frequencies of NOTE_FREQUENCIES in Hz: row o is octave o from C
      upwards, and the last row stops at A8. */
  const Hz: seq<seq<real>> := [
      [16.35, 17.32, 18.35, 19.45, 20.60, 21.83, 23.12, 24.50, 25.96, 27.50, 29.14, 30.87],
      [32.70, 34.65, 36.71, 38.89, 41.20, 43.65, 46.25, 49.00, 51.91, 55.00, 58.27, 61.74],
      [65.41, 69.30, 73.42, 77.78, 82.41, 87.31, 92.50, 98.00, 103.83, 110.00, 116.54, 123.47],
      [130.81, 138.59, 146.83, 155.56, 164.81, 174.61, 185.00, 196.00, 207.65, 220.00, 233.08, 246.94],
      [261.63, 277.18, 293.66, 311.13, 329.63, 349.23, 369.99, 392.00, 415.30, 440.00, 466.16, 493.88],
      [523.25, 554.37, 587.33, 622.25, 659.25, 698.46, 739.99, 783.99, 830.61, 880.00, 932.33, 987.77],
      [1046.50, 1108.73, 1174.66, 1244.51, 1318.51, 1396.91, 1479.98, 1567.98, 1661.22, 1760.00, 1864.66, 1975.53],
      [2093.00, 2217.46, 2349.32, 2489.02, 2637.02, 2793.83, 2959.96, 3135.96, 3322.44, 3520.00, 3729.31, 3951.07],
      [4186.01, 4434.92, 4698.63, 4978.03, 5274.04, 5587.65, 5919.91, 6271.93, 6644.88, 7040.00]
    ]

  /** Nine octaves, the last one short. */
  lemma HzShape()
    ensures |Hz| == 9
    ensures forall o :: 0 <= o < 8 ==> |Hz[o]| == 12
    ensures |Hz[8]| == 10
  {
  }

  /** Pitch k of octave o has an entry in the table. */
  predicate InTable(o: nat, k: nat)
  {
    o < |Hz| && k < |Hz[o]|
  }

  /** The name of pitch k of octave o, spelt flat when asked. */
  function Name(o: nat, k: nat, flat: bool): string
    requires o < 10 && k < 12 && (flat ==> IsBlack(k))
  {
    (if flat then FlatName(k) else PitchNames[k]) + [Digit(o)]
  }

  /** Semitones from C to a natural note letter. */
  function NaturalPitch(c: char): (r: Option<nat>)
    ensures r.Some? ==> r.value < 12 && !IsBlack(r.value)
  {
    match c
    case 'C' => Some(0)
    case 'D' => Some(2)
    case 'E' => Some(4)
    case 'F' => Some(5)
    case 'G' => Some(7)
    case 'A' => Some(9)
    case 'B' => Some(11)
    case _ => None
  }

  /** The pitch a spelling without octave digit names, if the table has such
      a spelling: a letter, optionally followed by '#' or 'b' where that
      reaches a black key. */
  function SpellingIndex(s: string): (r: Option<nat>)
    ensures r.Some? ==> r.value < 12
  {
    if |s| == 0 || |s| > 2 then None
    else
      match NaturalPitch(s[0])
      case None => None
      case Some(n) =>
        if |s| == 1 then Some(n)
        else if s[1] == '#' && IsBlack(n + 1) then Some(n + 1)
        else if s[1] == 'b' && n > 0 && IsBlack(n - 1) then Some(n - 1)
        else None
  }

  /** Octave and pitch of a note name: a spelling followed by one digit. */
  function ParseName(name: string): (r: Option<(nat, nat)>)
    ensures r.Some? ==> r.value.0 < 10 && r.value.1 < 12
  {
    if |name| == 0 || !('0' <= name[|name| - 1] <= '9') then None
    else
      match SpellingIndex(name[..|name| - 1])
      case None => None
      case Some(k) => Some(((name[|name| - 1] as int - '0' as int) as nat, k))
  }

  lemma SpellingRoundTrip(k: nat, flat: bool)
    requires k < 12 && (flat ==> IsBlack(k))
    ensures SpellingIndex(if flat then FlatName(k) else PitchNames[k]) == Some(k)
  {
    if flat {
      assert FlatName(k)[1] == 'b';
    } else if k < 6 {
      assert k == 0 || k == 1 || k == 2 || k == 3 || k == 4 || k == 5;
    } else {
      assert k == 6 || k == 7 || k == 8 || k == 9 || k == 10 || k == 11;
    }
  }

  /** Reading a name back gives the octave and pitch it was written from. */
  lemma NameRoundTrip(o: nat, k: nat, flat: bool)
    requires o < 10 && k < 12 && (flat ==> IsBlack(k))
    ensures ParseName(Name(o, k, flat)) == Some((o, k))
  {
    var s := if flat then FlatName(k) else PitchNames[k];
    var name := Name(o, k, flat);
    assert name[..|name| - 1] == s;
    SpellingRoundTrip(k, flat);
  }

  /** A (name, frequency) entry of NOTE_FREQUENCIES. */
  type Entry = (string, real)

  /** The entries for one pitch: the sharp or natural spelling, then the
      flat one for a black key. */
  function Spellings(o: nat, k: nat): seq<Entry>
    requires InTable(o, k)
  {
    [(Name(o, k, false), Hz[o][k])] + if IsBlack(k) then [(Name(o, k, true), Hz[o][k])] else []
  }

  /** The entries from pitch k of octave o onwards, in the table's order. */
  function EntriesFrom(o: nat, k: nat): seq<Entry>
    decreases |Hz| - o, if o < |Hz| then |Hz[o]| - k else 0
  {
    if o >= |Hz| then []
    else if k >= |Hz[o]| then EntriesFrom(o + 1, 0)
    else Spellings(o, k) + EntriesFrom(o, k + 1)
  }

  /** NOTE_FREQUENCIES, in insertion order. */
  function NoteFrequencies(): seq<Entry>
  {
    EntriesFrom(0, 0)
  }

  /** `dict.get`: the value of the first entry with that name, or None. */
  function Get(entries: seq<Entry>, name: string): Option<real>
  {
    if |entries| == 0 then None
    else if entries[0].0 == name then Some(entries[0].1)
    else Get(entries[1..], name)
  }

  /** `NOTE_FREQUENCIES.get(name)`. */
  function Frequency(name: string): Option<real>
  {
    Get(NoteFrequencies(), name)
  }

  lemma {:induction false} GetConcat(a: seq<Entry>, b: seq<Entry>, name: string)
    ensures Get(a + b, name) == if Get(a, name).Some? then Get(a, name) else Get(b, name)
    decreases |a|
  {
    if |a| > 0 {
      assert (a + b)[1..] == a[1..] + b;
      GetConcat(a[1..], b, name);
    } else {
      assert a + b == b;
    }
  }

  /** Names of different pitches differ. */
  lemma NamesDiffer(o: nat, k: nat, flat: bool, o': nat, k': nat, flat': bool)
    requires o < 10 && k < 12 && (flat ==> IsBlack(k))
    requires o' < 10 && k' < 12 && (flat' ==> IsBlack(k'))
    requires o != o' || k != k'
    ensures Name(o, k, flat) != Name(o', k', flat')
  {
    NameRoundTrip(o, k, flat);
    NameRoundTrip(o', k', flat');
  }

  /** The entries for one pitch answer for its names and for no other. */
  lemma GetSpellings(o: nat, k: nat, o': nat, k': nat, flat: bool)
    requires InTable(o, k) && InTable(o', k') && (flat ==> IsBlack(k'))
    ensures Get(Spellings(o, k), Name(o', k', flat)) == if o == o' && k == k' then Some(Hz[o][k]) else None
  {
    var name := Name(o', k', flat);
    var es := Spellings(o, k);
    if o != o' || k != k' {
      NamesDiffer(o, k, false, o', k', flat);
      if IsBlack(k) {
        NamesDiffer(o, k, true, o', k', flat);
        assert es[0].0 == Name(o, k, false) && es[1..][0].0 == Name(o, k, true);
        assert es[1..][1..] == [];
        assert Get(es[1..], name) == None;
      } else {
        assert es[1..] == [];
      }
    } else if flat {
      assert es[0].0 != name by {
        assert es[0].0[1] != name[1];
      }
      assert es[1..][0] == (name, Hz[o][k]);
    }
  }

  /** Looking a name up in the entries from (o, k) onwards, when its pitch
      comes at or after (o, k). */
  lemma {:induction false} GetFrom(o: nat, k: nat, o': nat, k': nat, flat: bool)
    requires InTable(o', k') && (flat ==> IsBlack(k'))
    requires o < o' || (o == o' && k <= k')
    ensures Get(EntriesFrom(o, k), Name(o', k', flat)) == Some(Hz[o'][k'])
    decreases |Hz| - o, if o < |Hz| then |Hz[o]| - k else 0
  {
    HzShape();
    if k >= |Hz[o]| {
      GetFrom(o + 1, 0, o', k', flat);
    } else {
      GetConcat(Spellings(o, k), EntriesFrom(o, k + 1), Name(o', k', flat));
      GetSpellings(o, k, o', k', flat);
      if o != o' || k != k' {
        GetFrom(o, k + 1, o', k', flat);
      }
    }
  }

  /** Every name of the table, sharp, natural or flat, gives its frequency. */
  lemma TableLookup(o: nat, k: nat, flat: bool)
    requires InTable(o, k) && (flat ==> IsBlack(k))
    ensures Frequency(Name(o, k, flat)) == Some(Hz[o][k])
  {
    GetFrom(0, 0, o, k, flat);
  }

  /** The two spellings of a black key give the same frequency. */
  lemma EnharmonicLookup(o: nat, k: nat)
    requires InTable(o, k) && IsBlack(k)
    ensures Frequency(Name(o, k, true)) == Frequency(Name(o, k, false))
  {
    TableLookup(o, k, true);
    TableLookup(o, k, false);
  }

  /** Every frequency of the table is positive. */
  lemma HzPositive(o: nat, k: nat)
    requires InTable(o, k)
    ensures Hz[o][k] > 0.0
  {
    HzShape();
  }

  /** The table is the twelve-tone scale of ISO 16: A4 is 440 Hz, and within
      an octave the frequencies rise strictly from C to B. */
  lemma HzConcertPitch()
    ensures Hz[4][9] == 440.0
    ensures forall o, k :: 0 <= o < |Hz| && 0 <= k < |Hz[o]| - 1 ==> Hz[o][k] < Hz[o][k + 1]
    ensures forall o :: 0 <= o < |Hz| - 1 ==> Hz[o][11] < Hz[o + 1][0]
  {
    HzShape();
  }

  /** One octave up doubles the frequency, up to the rounding of each entry
      to two decimals. */
  lemma HzOctaves(o: nat, k: nat)
    requires InTable(o + 1, k)
    ensures -0.015 <= Hz[o + 1][k] - 2.0 * Hz[o][k] <= 0.015
  {
    HzShape();
    assert o < 8;
    if o == 0 {} else if o == 1 {} else if o == 2 {} else if o == 3 {}
    else if o == 4 {} else if o == 5 {} else if o == 6 {} else {}
  }

  lemma EntriesFromPositive(o: nat, k: nat)
    ensures PositiveValues(EntriesFrom(o, k))
  {
    forall i | 0 <= i < |EntriesFrom(o, k)| ensures EntriesFrom(o, k)[i].1 > 0.0 {
      EntriesPositive(o, k, i);
    }
  }

  lemma {:induction false} EntriesPositive(o: nat, k: nat, i: nat)
    requires i < |EntriesFrom(o, k)|
    ensures EntriesFrom(o, k)[i].1 > 0.0
    decreases |Hz| - o, if o < |Hz| then |Hz[o]| - k else 0
  {
    if o >= |Hz| {
    } else if k >= |Hz[o]| {
      EntriesPositive(o + 1, 0, i);
    } else {
      var here := Spellings(o, k);
      HzPositive(o, k);
      if i >= |here| {
        EntriesPositive(o, k + 1, i - |here|);
      }
    }
  }

  /** The keys of KEY2FREQ in the order the mapping lists them, with the
      octave and pitch of the note each one plays: C4 up to C5, skipping
      A#4. */
  const KeyboardKeys: seq<string> := ["q", "z", "s", "e", "d", "f", "t", "g", "y", "h", "j", "k"]
  const KeyboardPitches: seq<(nat, nat)> :=
    [(4, 0), (4, 1), (4, 2), (4, 3), (4, 4), (4, 5), (4, 6), (4, 7), (4, 8), (4, 9), (4, 11), (5, 0)]

  /** The frequency of the note of key i. */
  function KeyFrequency(i: nat): real
    requires i < |KeyboardPitches|
  {
    Hz[KeyboardPitches[i].0][KeyboardPitches[i].1]
  }

  /** Each KEY2FREQ value is `NOTE_FREQUENCIES[name]` for the key's note:
      the name is present, so building the mapping never raises KeyError. */
  lemma KeyFrequencyLookup(i: nat)
    requires i < |KeyboardPitches|
    ensures var (o, k) := KeyboardPitches[i];
            o < 10 && k < 12 && Frequency(Name(o, k, false)) == Some(KeyFrequency(i))
  {
    var (o, k) := KeyboardPitches[i];
    KeyboardInTable(i);
    TableLookup(o, k, false);
  }

  lemma KeyboardInTable(i: nat)
    requires i < |KeyboardPitches|
    ensures KeyboardPitches[i].0 < 10 && KeyboardPitches[i].1 < 12
    ensures InTable(KeyboardPitches[i].0, KeyboardPitches[i].1)
  {
    HzShape();
    assert KeyboardPitches[i].0 <= 5 && KeyboardPitches[i].1 < 12;
  }

  /** KEY2FREQ. */
  function Key2Freq(): map<string, real>
  {
    map["q" := KeyFrequency(0), "z" := KeyFrequency(1), "s" := KeyFrequency(2), "e" := KeyFrequency(3),
        "d" := KeyFrequency(4), "f" := KeyFrequency(5), "t" := KeyFrequency(6), "g" := KeyFrequency(7),
        "y" := KeyFrequency(8), "h" := KeyFrequency(9), "j" := KeyFrequency(10), "k" := KeyFrequency(11)]
  }

  /** KEY2FREQ maps exactly the twelve listed keys, each to the frequency
      of its note. */
  lemma Key2FreqKeys()
    ensures Key2Freq().Keys == {"q", "z", "s", "e", "d", "f", "t", "g", "y", "h", "j", "k"}
    ensures forall i :: 0 <= i < |KeyboardKeys| ==> KeyboardKeys[i] in Key2Freq() && Key2Freq()[KeyboardKeys[i]] == KeyFrequency(i)
  {
    var m := Key2Freq();
    forall i | 0 <= i < |KeyboardKeys| ensures KeyboardKeys[i] in m && m[KeyboardKeys[i]] == KeyFrequency(i) {
      if i < 6 {
        assert i == 0 || i == 1 || i == 2 || i == 3 || i == 4 || i == 5;
      } else {
        assert i == 6 || i == 7 || i == 8 || i == 9 || i == 10 || i == 11;
      }
    }
  }

  /** In the order KEY2FREQ lists its keys, the pitch rises strictly, from
      C4 (261.63 Hz) to C5 (523.25 Hz). */
  lemma Key2FreqRising()
    ensures forall i, j :: 0 <= i < j < |KeyboardKeys| ==> KeyFrequency(i) < KeyFrequency(j)
    ensures KeyFrequency(0) == 261.63 && KeyFrequency(11) == 523.25
  {
    HzShape();
  }

  /** A#4, between A4 and B4, is the one note of the octave no key plays. */
  lemma Key2FreqSkipsASharp()
    ensures forall key :: key in Key2Freq() ==> Key2Freq()[key] != Hz[4][10]
  {
    HzShape();
  }

  /** changeOctave(frequency, octaveDiff): one octave up for a positive
      difference and down otherwise, unless that would leave
      [MIN_FREQUENCY, MAX_FREQUENCY], in which case the frequency stays. */
  function ChangeOctave(frequency: real, octaveDiff: int): (r: real)
    ensures r == frequency || r == 2.0 * frequency || r == frequency / 2.0
    ensures octaveDiff > 0 && 2.0 * frequency <= MaxFrequency ==> r == 2.0 * frequency
    ensures octaveDiff > 0 && 2.0 * frequency > MaxFrequency ==> r == frequency
    ensures octaveDiff <= 0 && frequency / 2.0 >= MinFrequency ==> r == frequency / 2.0
    ensures octaveDiff <= 0 && frequency / 2.0 < MinFrequency ==> r == frequency
    ensures MinFrequency <= frequency <= MaxFrequency ==> MinFrequency <= r <= MaxFrequency
  {
    if octaveDiff > 0 then
      (if frequency * 2.0 <= MaxFrequency then frequency * 2.0 else frequency)
    else
      (if frequency / 2.0 >= MinFrequency then frequency / 2.0 else frequency)
  }

  /** An octave up and back down, or down and back up, returns to the start
      whenever the first step was not clamped. */
  lemma ChangeOctaveRoundTrip(frequency: real)
    ensures MinFrequency <= frequency && 2.0 * frequency <= MaxFrequency ==>
              ChangeOctave(ChangeOctave(frequency, 1), -1) == frequency
    ensures 2.0 * MinFrequency <= frequency <= MaxFrequency ==>
              ChangeOctave(ChangeOctave(frequency, -1), 1) == frequency
  {
  }

  /** Applying changeOctave any number of times keeps a frequency of the
      audible range inside it. */
  function ChangeOctaves(frequency: real, diffs: seq<int>): real
    decreases |diffs|
  {
    if |diffs| == 0 then frequency else ChangeOctaves(ChangeOctave(frequency, diffs[0]), diffs[1..])
  }

  lemma {:induction false} ChangeOctavesInRange(frequency: real, diffs: seq<int>)
    requires MinFrequency <= frequency <= MaxFrequency
    ensures MinFrequency <= ChangeOctaves(frequency, diffs) <= MaxFrequency
    decreases |diffs|
  {
    if |diffs| > 0 {
      ChangeOctavesInRange(ChangeOctave(frequency, diffs[0]), diffs[1..]);
    }
  }

  function Distance(a: real, b: real): (r: real)
    ensures r >= 0.0 && (r == a - b || r == b - a)
  {
    if a >= b then a - b else b - a
  }

  /** Python's `min(entries, key=...)` for the distance to frequency: the
      first entry whose distance no other entry beats. */
  function ClosestIndex(entries: seq<Entry>, frequency: real): (r: nat)
    requires |entries| >= 1
    ensures r < |entries|
    ensures forall j :: 0 <= j < |entries| ==> Distance(entries[r].1, frequency) <= Distance(entries[j].1, frequency)
    ensures forall j :: 0 <= j < r ==> Distance(entries[r].1, frequency) < Distance(entries[j].1, frequency)
  {
    if |entries| == 1 then 0
    else
      var rest := 1 + ClosestIndex(entries[1..], frequency);
      assert forall j :: 1 <= j < |entries| ==> entries[j] == entries[1..][j - 1];
      if Distance(entries[rest].1, frequency) < Distance(entries[0].1, frequency) then rest else 0
  }

  lemma TableNonEmpty()
    ensures |NoteFrequencies()| >= 1
  {
    HzShape();
    assert EntriesFrom(0, 0) == Spellings(0, 0) + EntriesFrom(0, 1);
  }

  /** Entry i of the table is nearest to frequency, and no entry before it
      is as near: the one `min` keeps. */
  predicate Nearest(entries: seq<Entry>, frequency: real, i: nat)
    requires i < |entries|
  {
    (forall j :: 0 <= j < |entries| ==> Distance(entries[i].1, frequency) <= Distance(entries[j].1, frequency))
    && (forall j :: 0 <= j < i ==> Distance(entries[i].1, frequency) < Distance(entries[j].1, frequency))
  }

  /** name is the name of the entry `min` keeps for frequency. */
  predicate NearestName(entries: seq<Entry>, frequency: real, name: string)
  {
    exists i: nat :: i < |entries| && entries[i].0 == name && Nearest(entries, frequency, i)
  }

  /** `min(entries, key=...)` for the distance to frequency, by name. */
  function ClosestName(entries: seq<Entry>, frequency: real): (r: string)
    requires |entries| >= 1
    ensures NearestName(entries, frequency, r)
  {
    var i := ClosestIndex(entries, frequency);
    assert Nearest(entries, frequency, i);
    entries[i].0
  }

  /** getClosestNote(frequency): a name of NOTE_FREQUENCIES whose frequency
      is nearest; on a tie, the name that comes first in the table. */
  function GetClosestNote(frequency: real): (r: string)
    ensures NearestName(NoteFrequencies(), frequency, r)
  {
    TableNonEmpty();
    ClosestName(NoteFrequencies(), frequency)
  }

  /** A frequency some entry holds exactly is matched exactly: the name
      returned carries that very frequency. */
  lemma ClosestExact(entries: seq<Entry>, frequency: real, j: nat)
    requires j < |entries| && entries[j].1 == frequency
    ensures entries[ClosestIndex(entries, frequency)].1 == frequency
  {
  }

  /** Position of the first entry with a given name. */
  function IndexOfName(entries: seq<Entry>, name: string): (r: nat)
    requires Get(entries, name).Some?
    ensures r < |entries| && entries[r] == (name, Get(entries, name).value)
  {
    if entries[0].0 == name then 0 else 1 + IndexOfName(entries[1..], name)
  }

  /** Every name the table holds is found by `dict.get`; the value found
      is that of its first entry. */
  lemma {:induction false} FirstNameValue(entries: seq<Entry>, i: nat)
    requires i < |entries|
    ensures Get(entries, entries[i].0).Some?
    ensures (forall j :: 0 <= j < i ==> entries[j].0 != entries[i].0) ==> Get(entries, entries[i].0) == Some(entries[i].1)
  {
    if i > 0 && entries[0].0 != entries[i].0 {
      FirstNameValue(entries[1..], i - 1);
      assert forall j :: 0 <= j < i - 1 ==> entries[1..][j] == entries[j + 1];
    }
  }

  /** The clamp of sliderValueToFrequency: `max(0, min(100, value))`. */
  function ClampSlider(value: real): (r: real)
    ensures 0.0 <= r <= 100.0
    ensures 0.0 <= value <= 100.0 ==> r == value
    ensures value < 0.0 ==> r == 0.0
    ensures value > 100.0 ==> r == 100.0
  {
    var upper := if value < 100.0 then value else 100.0;
    if upper > 0.0 then upper else 0.0
  }

  /** Every value of the table is positive, so that `filter(None, ...)`
      drops only the names it does not know. */
  predicate PositiveValues(table: seq<Entry>)
  {
    forall i :: 0 <= i < |table| ==> table[i].1 > 0.0
  }

  lemma TablePositive()
    ensures PositiveValues(NoteFrequencies())
  {
    EntriesFromPositive(0, 0);
  }

  /** The frequencies `table.get` gives the names of a chord, with the falsy
      results (None, or a zero) dropped by `filter(None, ...)`. */
  function KnownFrequencies(table: seq<Entry>, chord: seq<string>): (r: seq<real>)
  {
    if |chord| == 0 then []
    else
      var rest := KnownFrequencies(table, chord[..|chord| - 1]);
      match Get(table, chord[|chord| - 1])
      case None => rest
      case Some(f) => if f == 0.0 then rest else rest + [f]
  }

  /** The loop of notes2freqs over a dictionary: append `table.get(note)`
      for every note, then filter. */
  method CollectFrequencies(table: seq<Entry>, chord: seq<string>) returns (freqs: seq<real>)
    ensures freqs == KnownFrequencies(table, chord)
  {
    var gets: seq<Option<real>> := [];
    for i := 0 to |chord|
      invariant |gets| == i
      invariant forall j :: 0 <= j < i ==> gets[j] == Get(table, chord[j])
    {
      gets := gets + [Get(table, chord[i])];
    }
    freqs := [];
    for i := 0 to |gets|
      invariant freqs == KnownFrequencies(table, chord[..i])
    {
      assert chord[..i + 1][..i] == chord[..i];
      match gets[i]
      case None =>
      case Some(f) =>
        if f != 0.0 {
          freqs := freqs + [f];
        }
    }
    assert chord[..|chord|] == chord;
  }

  /** notes2freqs(chord), on NOTE_FREQUENCIES. */
  method Notes2Freqs(chord: seq<string>) returns (freqs: seq<real>)
    ensures freqs == KnownFrequencies(NoteFrequencies(), chord)
  {
    freqs := CollectFrequencies(NoteFrequencies(), chord);
  }

  /** The frequencies never outnumber the names, and each is the value the
      table holds for a name of the chord. */
  lemma {:induction false} KnownFrequenciesFrom(table: seq<Entry>, chord: seq<string>)
    ensures |KnownFrequencies(table, chord)| <= |chord|
    ensures forall x :: x in KnownFrequencies(table, chord) ==>
              exists j :: 0 <= j < |chord| && Get(table, chord[j]) == Some(x)
  {
    if |chord| > 0 {
      var init := chord[..|chord| - 1];
      KnownFrequenciesFrom(table, init);
      forall x | x in KnownFrequencies(table, init)
        ensures exists j :: 0 <= j < |chord| && Get(table, chord[j]) == Some(x)
      {
        var j :| 0 <= j < |init| && Get(table, init[j]) == Some(x);
        assert chord[j] == init[j];
      }
    }
  }

  /** With positive values and every name known, each name gives its own
      frequency, in order, and none is dropped. */
  lemma {:induction false} KnownFrequenciesAllKnown(table: seq<Entry>, chord: seq<string>)
    requires PositiveValues(table)
    requires forall j :: 0 <= j < |chord| ==> Get(table, chord[j]).Some?
    ensures |KnownFrequencies(table, chord)| == |chord|
    ensures forall j :: 0 <= j < |chord| ==> KnownFrequencies(table, chord)[j] == Get(table, chord[j]).value
  {
    if |chord| > 0 {
      var init := chord[..|chord| - 1];
      KnownFrequenciesAllKnown(table, init);
      var last := chord[|chord| - 1];
      var i := IndexOfName(table, last);
    }
  }

  /** A name the table does not know contributes nothing. */
  lemma KnownFrequenciesSkipsUnknown(table: seq<Entry>, chord: seq<string>, name: string)
    requires Get(table, name).None?
    ensures KnownFrequencies(table, chord + [name]) == KnownFrequencies(table, chord)
  {
    assert (chord + [name])[..|chord|] == chord;
  }

  /** Names appended one after the other are converted one after the other. */
  lemma KnownFrequenciesAppend(table: seq<Entry>, chord: seq<string>, name: string)
    ensures KnownFrequencies(table, chord + [name])
            == KnownFrequencies(table, chord) + KnownFrequencies(table, [name])
  {
    assert (chord + [name])[..|chord|] == chord;
    assert [name][..0] == [];
  }
}
