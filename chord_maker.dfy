// chord_maker.py: the 60-entry note list, flat-to-sharp normalisation and
// the chord-name parser that turns a prompt such as "2F#min7" into the names
// of the notes to play.

module ChordMaker {
  import opened PyBase

  /** The twelve pitch names in the order the note list uses: it starts at A. */
  const Letters: seq<string> := ["A", "A#", "B", "C", "C#", "D", "D#", "E", "F", "F#", "G", "G#"]

  const NumOctaves: nat := 5

  /** NOTES: the twelve pitch names followed by the octave digit, for octaves
      0 to 4. */
  function Notes(): seq<string>
  {
    seq(NumOctaves * 12, i requires 0 <= i < NumOctaves * 12 => Letters[i % 12] + [Digit(i / 12)])
  }

  /** Position of a pitch name in Letters. */
  function LetterIndex(s: string): (r: Option<nat>)
    ensures r.Some? ==> r.value < 12 && Letters[r.value] == s
  {
    if s == "A" then Some(0) else if s == "A#" then Some(1) else if s == "B" then Some(2)
    else if s == "C" then Some(3) else if s == "C#" then Some(4) else if s == "D" then Some(5)
    else if s == "D#" then Some(6) else if s == "E" then Some(7) else if s == "F" then Some(8)
    else if s == "F#" then Some(9) else if s == "G" then Some(10) else if s == "G#" then Some(11)
    else None
  }

  lemma LetterIndexOfLetters(k: nat)
    requires k < 12
    ensures LetterIndex(Letters[k]) == Some(k)
  {
    if k == 0 {} else if k == 1 {} else if k == 2 {} else if k == 3 {} else if k == 4 {} else if k == 5 {}
    else if k == 6 {} else if k == 7 {} else if k == 8 {} else if k == 9 {} else if k == 10 {} else {}
  }

  /** Where a note name sits in NOTES, read off the name itself: the pitch
      name, then one octave digit from 0 to 4. */
  function NoteIndex(name: string): (r: Option<nat>)
    ensures r.Some? ==> r.value < |Notes()| && Notes()[r.value] == name
  {
    if |name| < 2 then None
    else
      var pitch := LetterIndex(name[..|name| - 1]);
      var octave := name[|name| - 1];
      if pitch.None? || !('0' <= octave <= '4') then None
      else
        var o := octave as int - '0' as int;
        var i := 12 * o + pitch.value;
        assert i % 12 == pitch.value && i / 12 == o;
        assert name == name[..|name| - 1] + [octave];
        Some(i)
  }

  lemma NoteIndexOfNotes(i: nat)
    requires i < |Notes()|
    ensures NoteIndex(Notes()[i]) == Some(i)
  {
    var s := Notes()[i];
    assert s[..|s| - 1] == Letters[i % 12];
    LetterIndexOfLetters(i % 12);
  }

  /** NOTES.index(name) is the position NoteIndex reads off the name: the
      list holds every name exactly once, and nothing else. */
  lemma NotesIndex(name: string)
    ensures IndexOf(Notes(), name) == NoteIndex(name)
  {
    var r := IndexOf(Notes(), name);
    if r.Some? {
      NoteIndexOfNotes(r.value);
    }
  }

  /** `NOTES[12 * o + k]` is pitch k followed by octave digit o. */
  lemma NotesLayout(o: nat, k: nat)
    requires o < NumOctaves && k < 12
    ensures |Notes()| == 60
    ensures Notes()[12 * o + k] == Letters[k] + [Digit(o)]
  {
    assert (12 * o + k) % 12 == k && (12 * o + k) / 12 == o;
  }

  /** decrement_letter: the letter before, with A wrapping round to G;
      anything outside 'A'..'G' raises ValueError. */
  function DecrementLetter(letter: char): (r: Result<char>)
    ensures r.Ok? <==> 'A' <= letter <= 'G'
    ensures r.Err? ==> r.error == ValueError
    ensures r.Ok? ==> 'A' <= r.value <= 'G' && r.value != letter
    ensures r.Ok? ==> (r.value as int - 'A' as int + 1) % 7 == letter as int - 'A' as int
  {
    if 'A' <= letter <= 'G' then Ok(if letter != 'A' then (letter as int - 1) as char else 'G')
    else Err(ValueError)
  }

  /** flatToSharp: a note with a lower-case "b" anywhere becomes the letter
      before its first character followed by "#"; any other note is
      returned as it is. */
  function FlatToSharp(note: string): (r: Result<string>)
    ensures !Contains(note, "b") ==> r == Ok(note)
    ensures Contains(note, "b") ==> |note| >= 1 && (r.Ok? <==> 'A' <= note[0] <= 'G')
    ensures r.Err? ==> r.error == ValueError
    ensures Contains(note, "b") && r.Ok? ==> r.value == [DecrementLetter(note[0]).value, '#']
  {
    if Contains(note, "b") then
      assert |note| >= 1 by {
        ContainsOccurs(note, "b");
        var i :| OccursAt(note, "b", i);
      }
      match DecrementLetter(note[0])
      case Err(e) => Err(e)
      case Ok(c) => Ok([c, '#'])
    else Ok(note)
  }

  /** The sharp spelling names the same pitch as the flat one, a semitone
      below the letter, for the five flats that have a sharp in NOTES. */
  lemma FlatToSharpSamePitch(letter: char)
    requires letter in "ABDEG"
    ensures var r := FlatToSharp([letter, 'b']);
            && r.Ok? && LetterIndex([letter]).Some? && LetterIndex(r.value).Some?
            && LetterIndex(r.value).value == (LetterIndex([letter]).value + 11) % 12
  {
    assert OccursAt([letter, 'b'], "b", 1);
    ContainsOccurs([letter, 'b'], "b");
  }

  /** The normalisations the prompts rely on, and the two flats whose sharp
      spelling NOTES does not hold. */
  lemma FlatToSharpExamples()
    ensures FlatToSharp("Ab") == Ok("G#") && FlatToSharp("Db") == Ok("C#") && FlatToSharp("Bb") == Ok("A#")
    ensures FlatToSharp("Eb") == Ok("D#") && FlatToSharp("Gb") == Ok("F#")
    ensures FlatToSharp("Cb") == Ok("B#") && FlatToSharp("Fb") == Ok("E#")
    ensures FlatToSharp("C#") == Ok("C#") && FlatToSharp("bC") == Err(ValueError)
  {
    FlatPair('A'); FlatPair('D'); FlatPair('B'); FlatPair('E'); FlatPair('G'); FlatPair('C'); FlatPair('F');
    assert "Ab" == ['A', 'b'] && "Db" == ['D', 'b'] && "Bb" == ['B', 'b'] && "Eb" == ['E', 'b'];
    assert "Gb" == ['G', 'b'] && "Cb" == ['C', 'b'] && "Fb" == ['F', 'b'];
    assert OccursAt("bC", "b", 0);
    NotContained("C#", "b", 'b');
  }

  /** A letter followed by "b" is rewritten to the letter below it and "#". */
  lemma FlatPair(letter: char)
    requires 'A' <= letter <= 'G'
    ensures FlatToSharp([letter, 'b']) == Ok([DecrementLetter(letter).value, '#'])
  {
    assert OccursAt([letter, 'b'], "b", 1);
    Contained([letter, 'b'], "b", 1);
  }

  /** An ASCII digit. Python's str.isdigit also accepts other Unicode digits
      such as superscripts; those are not octave digits here. */
  predicate IsDigit(c: char)
  {
    '0' <= c <= '9'
  }

  /** The octave digit of a prompt: its first character when that is a
      digit, "3" otherwise. */
  function Octave(prompt: string): char
    requires |prompt| >= 1
  {
    if IsDigit(prompt[0]) then prompt[0] else '3'
  }

  /** The prompt once a leading octave digit is stripped; the substring
      tests that pick the intervals look at this. */
  function Body(prompt: string): string
    requires |prompt| >= 1
  {
    if IsDigit(prompt[0]) then prompt[1..] else prompt
  }

  predicate HasAccidental(body: string)
  {
    Contains(body, "#") || Contains(body, "b")
  }

  /** The root as spelled in the prompt: its first character, or its first
      two when a "#" or a "b" occurs anywhere in the body. */
  function Spelling(body: string): (r: Result<string>)
    ensures r.Err? <==> |body| == 0
    ensures r.Err? ==> r.error == IndexError
    ensures r.Ok? ==> 1 <= |r.value| <= 2 && r.value <= body
    ensures r.Ok? ==> (|r.value| == 2 <==> HasAccidental(body) && |body| >= 2)
  {
    if !HasAccidental(body) then
      if |body| == 0 then Err(IndexError) else Ok(body[..1])
    else
      assert |body| >= 1 by {
        if Contains(body, "#") {
          ContainsOccurs(body, "#");
          var i :| OccursAt(body, "#", i);
        } else {
          ContainsOccurs(body, "b");
          var i :| OccursAt(body, "b", i);
        }
      }
      Ok(body[..if |body| < 2 then |body| else 2])
  }

  /** The root of a chord: its name in NOTES, its position there, and the
      body of the prompt. */
  datatype Root = Root(name: string, index: nat, body: string)

  /** The first half of buildChord: octave digit, spelling, flat-to-sharp,
      and the lookup of the root in NOTES. */
  function ParseRoot(prompt: string): (r: Result<Root>)
    ensures r.Err? ==> (r.error == IndexError <==> |prompt| == 0 || |Body(prompt)| == 0)
    ensures r.Err? ==> r.error != KeyError
    ensures r.Ok? ==> r.value.index < |Notes()| && Notes()[r.value.index] == r.value.name
    ensures r.Ok? ==> |prompt| >= 1 && r.value.body == Body(prompt)
    ensures r.Ok? ==> |r.value.name| >= 1 && r.value.name[|r.value.name| - 1] == Octave(prompt)
    ensures r.Ok? ==> Spelling(Body(prompt)).Ok?
                      && FlatToSharp(Spelling(Body(prompt)).value) == Ok(r.value.name[..|r.value.name| - 1])
    ensures |prompt| >= 1 && |Body(prompt)| >= 1 && r.Err? ==> r.error == ValueError
  {
    if |prompt| == 0 then Err(IndexError)
    else
      match Spelling(Body(prompt))
      case Err(e) => Err(e)
      case Ok(spelling) =>
        match FlatToSharp(spelling)
        case Err(e) => Err(e)
        case Ok(sharp) =>
          var name := sharp + [Octave(prompt)];
          match IndexOf(Notes(), name)
          case None => Err(ValueError)
          case Some(i) => Ok(Root(name, i, Body(prompt)))
  }

  /** getNote: NOTES[idx], except that an index past the length (strictly)
      is taken an octave lower. */
  function GetNote(idx: int): (r: Result<string>)
    ensures r.Ok? <==> -|Notes()| <= idx < |Notes()| || |Notes()| < idx < |Notes()| + 12
    ensures r.Err? ==> r.error == IndexError
    ensures 0 <= idx < |Notes()| ==> r == Ok(Notes()[idx])
    ensures |Notes()| < idx < |Notes()| + 12 ==> r == Ok(Notes()[idx - 12])
  {
    if idx > |Notes()| then PyIndex(Notes(), idx - 12) else PyIndex(Notes(), idx)
  }

  function MinorThird(idx: int): Result<string> { GetNote(idx + 3) }
  function MajorThird(idx: int): Result<string> { GetNote(idx + 4) }
  function Fifth(idx: int): Result<string> { GetNote(idx + 7) }
  function Sixth(idx: int): Result<string> { GetNote(idx + 9) }
  function MinorSeventh(idx: int): Result<string> { GetNote(idx + 10) }
  function MajorSeventh(idx: int): Result<string> { GetNote(idx + 11) }
  function Nineth(idx: int): Result<string> { GetNote(idx + 14) }

  /** Semitones from the root to the third: minor for "min" or "dim". */
  function ThirdInterval(body: string): int
  {
    if Contains(body, "min") || Contains(body, "dim") then 3 else 4
  }

  /** Semitones to the fifth: diminished, augmented, a sixth in its place,
      or perfect, tested in that order. */
  function FifthInterval(body: string): int
  {
    if Contains(body, "dim") then 6 else if Contains(body, "aug") then 8
    else if Contains(body, "6") then 9 else 7
  }

  /** The seventh, present exactly when a "7" occurs. */
  function SeventhIntervals(body: string): seq<int>
  {
    if Contains(body, "dim7") then [9] else if Contains(body, "maj7") then [11]
    else if Contains(body, "7") then [10] else []
  }

  /** The ninth chord's seventh and ninth, present exactly when a "9" occurs. */
  function NinthIntervals(body: string): seq<int>
  {
    if !Contains(body, "9") then [] else if Contains(body, "min") then [10, 14] else [11, 14]
  }

  /** Semitones above the root of every note after it, in the order
      buildChord appends them. */
  function Intervals(body: string): seq<int>
  {
    [ThirdInterval(body), FifthInterval(body)] + SeventhIntervals(body) + NinthIntervals(body)
  }

  /** The notes the given numbers of semitones above position index, through
      getNote; the first index getNote rejects raises IndexError. */
  function NotesAbove(index: int, offsets: seq<int>): Result<seq<string>>
  {
    if |offsets| == 0 then Ok([])
    else
      match GetNote(index + offsets[0])
      case Err(e) => Err(e)
      case Ok(note) =>
        match NotesAbove(index, offsets[1..])
        case Err(e) => Err(e)
        case Ok(rest) => Ok([note] + rest)
  }

  /** NotesAbove succeeds exactly when getNote accepts every interval, and
      then holds getNote's note for each, in order. */
  lemma NotesAboveSpec(index: int, offsets: seq<int>)
    ensures var r := NotesAbove(index, offsets);
            && (r.Ok? <==> forall k :: 0 <= k < |offsets| ==> GetNote(index + offsets[k]).Ok?)
            && (r.Err? ==> r.error == IndexError)
            && (r.Ok? ==> |r.value| == |offsets|
                          && forall k :: 0 <= k < |offsets| ==> r.value[k] == GetNote(index + offsets[k]).value)
  {
    NotesAboveAccepts(index, offsets);
    NotesAboveError(index, offsets);
    NotesAboveValues(index, offsets);
  }

  lemma {:induction false} NotesAboveAccepts(index: int, offsets: seq<int>)
    ensures NotesAbove(index, offsets).Ok? <==> forall k :: 0 <= k < |offsets| ==> GetNote(index + offsets[k]).Ok?
  {
    if |offsets| > 0 {
      NotesAboveAccepts(index, offsets[1..]);
      TailIndex(offsets);
    }
  }

  lemma {:induction false} NotesAboveError(index: int, offsets: seq<int>)
    ensures NotesAbove(index, offsets).Err? ==> NotesAbove(index, offsets).error == IndexError
  {
    if |offsets| > 0 {
      NotesAboveError(index, offsets[1..]);
    }
  }

  lemma {:induction false} NotesAboveValues(index: int, offsets: seq<int>)
    ensures var r := NotesAbove(index, offsets);
            r.Ok? ==> |r.value| == |offsets|
                      && forall k :: 0 <= k < |offsets| ==> GetNote(index + offsets[k]) == Ok(r.value[k])
  {
    if |offsets| > 0 && NotesAbove(index, offsets).Ok? {
      var tail := offsets[1..];
      NotesAboveValues(index, tail);
      var note, rest := GetNote(index + offsets[0]).value, NotesAbove(index, tail).value;
      var r := NotesAbove(index, offsets).value;
      assert r == [note] + rest;
      forall k | 0 <= k < |offsets|
        ensures GetNote(index + offsets[k]) == Ok(r[k])
      {
        if k > 0 {
          assert tail[k - 1] == offsets[k] && r[k] == rest[k - 1];
        }
      }
    }
  }

  lemma TailIndex<T>(s: seq<T>)
    requires |s| > 0
    ensures forall k :: 1 <= k < |s| ==> s[1..][k - 1] == s[k]
  {
  }

  /** The chord built so far, followed by the notes still to come. */
  function Then(chord: seq<string>, rest: Result<seq<string>>): (r: Result<seq<string>>)
    ensures r.Ok? <==> rest.Ok?
  {
    if rest.Err? then rest else Ok(chord + rest.value)
  }

  /** The chord on a parsed root: the root, then the note at each interval
      above it. */
  function ChordOn(root: Root): Result<seq<string>>
  {
    Then([root.name], NotesAbove(root.index, Intervals(root.body)))
  }

  /** What buildChord returns for a prompt. */
  function Chord(prompt: string): Result<seq<string>>
  {
    match ParseRoot(prompt)
    case Err(e) => Err(e)
    case Ok(root) => ChordOn(root)
  }

  /** One append of buildChord: the next interval either raises or moves its
      note from the pending part to the chord. */
  lemma ThenStep(chord: seq<string>, index: int, o: int, rest: seq<int>)
    ensures GetNote(index + o).Err? ==> Then(chord, NotesAbove(index, [o] + rest)) == Err(IndexError)
    ensures GetNote(index + o).Ok? ==>
              Then(chord, NotesAbove(index, [o] + rest)) == Then(chord + [GetNote(index + o).value], NotesAbove(index, rest))
  {
    var offsets := [o] + rest;
    assert offsets[0] == o && offsets[1..] == rest;
    match GetNote(index + o)
    case Err(e) =>
      assert NotesAbove(index, offsets) == Err(e);
    case Ok(note) =>
      match NotesAbove(index, rest)
      case Err(e) =>
        assert NotesAbove(index, offsets) == Err(e);
      case Ok(tail) =>
        assert NotesAbove(index, offsets) == Ok([note] + tail);
        assert chord + ([note] + tail) == chord + [note] + tail;
  }

  /** The same step, for the chord buildChord must return. */
  lemma AppendStep(spec: Result<seq<string>>, chord: seq<string>, index: int, o: int, rest: seq<int>, note: Result<string>)
    requires spec == Then(chord, NotesAbove(index, [o] + rest))
    requires note == GetNote(index + o)
    ensures note.Err? ==> spec == Err(note.error)
    ensures note.Ok? ==> spec == Then(chord + [note.value], NotesAbove(index, rest))
  {
    ThenStep(chord, index, o, rest);
  }

  lemma ConcatShort<T>(a: seq<T>, b: seq<T>)
    ensures a + [] == a
    ensures |a| == 0 ==> a + b == b
    ensures |a| == 1 ==> a + b == [a[0]] + b
  {
  }

  lemma IntervalsSplit(body: string)
    ensures Intervals(body) == [ThirdInterval(body), FifthInterval(body)] + (SeventhIntervals(body) + NinthIntervals(body))
  {
  }

  /** "dim7" and "maj7" both contain "7": the seventh is there exactly when
      a "7" is. */
  lemma SeventhNeedsSeven(body: string)
    ensures |SeventhIntervals(body)| == (if Contains(body, "7") then 1 else 0)
  {
    ContainsOccurs(body, "7");
    if Contains(body, "dim7") {
      ContainsOccurs(body, "dim7");
      var i :| OccursAt(body, "dim7", i);
      assert OccursAt(body, "7", i + 3);
    } else if Contains(body, "maj7") {
      ContainsOccurs(body, "maj7");
      var i :| OccursAt(body, "maj7", i);
      assert OccursAt(body, "7", i + 3);
    }
  }

  /** buildChord: the root is looked up first, and any error there is
      raised before a note is appended. */
  method BuildChord(prompt: string) returns (r: Result<seq<string>>)
    ensures r == Chord(prompt)
  {
    var parsed := ParseRoot(prompt);
    if parsed.Err? {
      return Err(parsed.error);
    }
    r := AppendIntervals(parsed.value);
  }

  /** The third appended by buildChord: minorThird for "min" or "dim",
      majorThird otherwise. */
  method ThirdNote(chordStr: string, noteIdx: int) returns (note: Result<string>)
    ensures note == GetNote(noteIdx + ThirdInterval(chordStr))
  {
    if Contains(chordStr, "min") || Contains(chordStr, "dim") {
      note := MinorThird(noteIdx);
    } else {
      note := MajorThird(noteIdx);
    }
  }

  /** The fifth appended by buildChord: a fifth from one semitone lower for
      "dim", from one higher for "aug", a sixth for "6", else a fifth. */
  method FifthNote(chordStr: string, noteIdx: int) returns (note: Result<string>)
    ensures note == GetNote(noteIdx + FifthInterval(chordStr))
  {
    if Contains(chordStr, "dim") {
      note := Fifth(noteIdx - 1);
    } else if Contains(chordStr, "aug") {
      note := Fifth(noteIdx + 1);
    } else if Contains(chordStr, "6") {
      note := Sixth(noteIdx);
    } else {
      note := Fifth(noteIdx);
    }
  }

  /** The seventh appended by buildChord, if any: a sixth for "dim7", a major
      seventh for "maj7", a minor seventh for any other "7". */
  method SeventhNote(chordStr: string, noteIdx: int) returns (note: Option<Result<string>>)
    ensures note.None? <==> SeventhIntervals(chordStr) == []
    ensures note.Some? ==> |SeventhIntervals(chordStr)| == 1
                           && note.value == GetNote(noteIdx + SeventhIntervals(chordStr)[0])
  {
    if Contains(chordStr, "dim7") {
      note := Some(Sixth(noteIdx));
    } else if Contains(chordStr, "maj7") {
      note := Some(MajorSeventh(noteIdx));
    } else if Contains(chordStr, "7") {
      note := Some(MinorSeventh(noteIdx));
    } else {
      note := None;
    }
  }

  /** The first note of a ninth chord's pair: a minor seventh for "min", a
      major seventh otherwise. */
  method NinthSeventhNote(chordStr: string, noteIdx: int) returns (note: Result<string>)
    requires Contains(chordStr, "9")
    ensures NinthIntervals(chordStr) == [NinthIntervals(chordStr)[0], 14]
    ensures note == GetNote(noteIdx + NinthIntervals(chordStr)[0])
  {
    if Contains(chordStr, "min") {
      note := MinorSeventh(noteIdx);
    } else {
      note := MajorSeventh(noteIdx);
    }
  }

  /** The appends of buildChord: one note for the third, one for the fifth,
      and, when the body asks for them, the seventh and the ninth. */
  method AppendIntervals(root: Root) returns (r: Result<seq<string>>)
    ensures r == ChordOn(root)
  {
    var chordStr := root.body;
    var noteIdx: int := root.index;
    var chord := [root.name];
    ghost var spec := ChordOn(root);
    ghost var seventh, ninth := SeventhIntervals(chordStr), NinthIntervals(chordStr);
    IntervalsSplit(chordStr);

    // Thirds
    var note := ThirdNote(chordStr, noteIdx);
    TwoSteps(spec, chord, noteIdx, ThirdInterval(chordStr), FifthInterval(chordStr), seventh + ninth,
             note, GetNote(noteIdx + FifthInterval(chordStr)));
    if note.Err? {
      return Err(note.error);
    }
    chord := chord + [note.value];

    // Fifths
    note := FifthNote(chordStr, noteIdx);
    if note.Err? {
      return Err(note.error);
    }
    chord := chord + [note.value];

    r := AppendExtensions(chord, chordStr, noteIdx);
  }

  /** The optional appends of buildChord: the seventh when a "7" occurs, the
      ninth chord's seventh and ninth when a "9" occurs. */
  method AppendExtensions(chord: seq<string>, chordStr: string, noteIdx: int) returns (r: Result<seq<string>>)
    ensures r == Then(chord, NotesAbove(noteIdx, SeventhIntervals(chordStr) + NinthIntervals(chordStr)))
  {
    ThenConcat(chord, noteIdx, SeventhIntervals(chordStr), NinthIntervals(chordStr));
    r := AppendSeventh(chord, chordStr, noteIdx);
    if r.Err? {
      return;
    }
    r := AppendNinth(r.value, chordStr, noteIdx);
  }

  /** The seventh, when a "7" occurs. */
  method AppendSeventh(chord: seq<string>, chordStr: string, noteIdx: int) returns (r: Result<seq<string>>)
    ensures r == Then(chord, NotesAbove(noteIdx, SeventhIntervals(chordStr)))
  {
    ghost var seventh := SeventhIntervals(chordStr);
    ghost var spec := Then(chord, NotesAbove(noteIdx, seventh));
    r := Ok(chord);
    var maybe := SeventhNote(chordStr, noteIdx);
    if maybe.Some? {
      var note := maybe.value;
      ConcatShort(seventh, []);
      AppendStep(spec, chord, noteIdx, seventh[0], [], note);
      if note.Err? {
        return Err(note.error);
      }
      r := Ok(chord + [note.value]);
    }
    ConcatShort(r.value, []);
  }

  /** The ninth chord's seventh and ninth, when a "9" occurs. */
  method AppendNinth(chord: seq<string>, chordStr: string, noteIdx: int) returns (r: Result<seq<string>>)
    ensures r == Then(chord, NotesAbove(noteIdx, NinthIntervals(chordStr)))
  {
    ghost var ninth := NinthIntervals(chordStr);
    ghost var spec := Then(chord, NotesAbove(noteIdx, ninth));
    if !Contains(chordStr, "9") {
      ConcatShort(chord, []);
      return Ok(chord);
    }
    var note := NinthSeventhNote(chordStr, noteIdx);
    ConcatShort(ninth, []);
    TwoSteps(spec, chord, noteIdx, ninth[0], 14, [], note, GetNote(noteIdx + 14));
    if note.Err? {
      return Err(note.error);
    }
    r := Ok(chord + [note.value]);
    note := Nineth(noteIdx);
    if note.Err? {
      return Err(note.error);
    }
    r := Ok(r.value + [note.value]);
    ConcatShort(r.value, []);
  }

  /** Two appends in a row, o1 and then o2 semitones above index: the first
      error raised, or both notes appended and the rest still to come. */
  lemma TwoSteps(spec: Result<seq<string>>, chord: seq<string>, index: int, o1: int, o2: int, rest: seq<int>,
                 first: Result<string>, second: Result<string>)
    requires spec == Then(chord, NotesAbove(index, [o1, o2] + rest))
    requires first == GetNote(index + o1) && second == GetNote(index + o2)
    ensures first.Err? ==> spec == Err(first.error)
    ensures first.Ok? && second.Err? ==> spec == Err(second.error)
    ensures first.Ok? && second.Ok? ==> spec == Then(chord + [first.value] + [second.value], NotesAbove(index, rest))
  {
    assert [o1, o2] + rest == [o1] + ([o2] + rest);
    AppendStep(spec, chord, index, o1, [o2] + rest, first);
    if first.Ok? {
      AppendStep(spec, chord + [first.value], index, o2, rest, second);
    }
  }

  /** Appending the notes above for a + b is appending those for a, then,
      unless that raised, those for b. */
  lemma {:induction false} ThenConcat(chord: seq<string>, index: int, a: seq<int>, b: seq<int>)
    ensures Then(chord, NotesAbove(index, a + b))
            == match Then(chord, NotesAbove(index, a))
               case Err(e) => Err(e)
               case Ok(c) => Then(c, NotesAbove(index, b))
    decreases |a|
  {
    if |a| == 0 {
      assert a + b == b;
      ConcatShort(chord, []);
    } else {
      var o, rest := a[0], a[1..];
      assert a == [o] + rest && a + b == [o] + (rest + b);
      ThenStep(chord, index, o, rest + b);
      ThenStep(chord, index, o, rest);
      if GetNote(index + o).Ok? {
        ThenConcat(chord + [GetNote(index + o).value], index, rest, b);
      }
    }
  }

  /** The root sits in the octave the prompt names, default 3, at the
      position of its sharp spelling among the twelve pitch names. */
  lemma RootPosition(prompt: string)
    requires ParseRoot(prompt).Ok?
    ensures var root := ParseRoot(prompt).value;
            && root.index / 12 == Octave(prompt) as int - '0' as int
            && root.name == Letters[root.index % 12] + [Octave(prompt)]
            && (!IsDigit(prompt[0]) ==> 36 <= root.index < 48)
  {
    var root := ParseRoot(prompt).value;
    NotesIndex(root.name);
    var o, k := root.index / 12, root.index % 12;
    NotesLayout(o, k);
    assert root.index == 12 * o + k;
  }

  /** A leading octave digit from 5 to 9 names no entry of NOTES. */
  lemma HighOctaveRejected(prompt: string)
    requires |prompt| >= 2 && '5' <= prompt[0] <= '9'
    ensures ParseRoot(prompt) == Err(ValueError)
  {
    var spelling := Spelling(Body(prompt));
    if spelling.Ok? && FlatToSharp(spelling.value).Ok? {
      var name := FlatToSharp(spelling.value).value + [prompt[0]];
      NotesIndex(name);
    }
  }

  /** A bare letter asks for the major triad. */
  lemma BareLetterIntervals(c: char)
    requires 'A' <= c <= 'G'
    ensures Intervals([c]) == [4, 7]
  {
    NotContained([c], "min", 'i');
    NotContained([c], "dim", 'i');
    NotContained([c], "aug", 'u');
    NotContained([c], "6", '6');
    NotContained([c], "dim7", '7');
    NotContained([c], "maj7", '7');
    NotContained([c], "7", '7');
    NotContained([c], "9", '9');
  }

  lemma IntervalsOfCm7()
    ensures Intervals("Cm7") == [4, 7, 10]
  {
    var p := "Cm7";
    NotContained(p, "min", 'i');
    NotContained(p, "dim", 'd');
    NotContained(p, "aug", 'a');
    NotContained(p, "6", '6');
    NotContained(p, "dim7", 'd');
    NotContained(p, "maj7", 'a');
    Contained(p, "7", 2);
    NotContained(p, "9", '9');
  }

  /** The root of a prompt made of a letter with no flat or sharp, an
      optional octave digit before it, and anything without '#' or 'b' after. */
  lemma PlainRoot(prompt: string, o: nat, k: nat)
    requires o < NumOctaves && k < 12 && |Letters[k]| == 1
    requires |prompt| >= 1 && Octave(prompt) == Digit(o)
    requires |Body(prompt)| >= 1 && Body(prompt)[0] == Letters[k][0]
    requires '#' !in Body(prompt) && 'b' !in Body(prompt)
    ensures ParseRoot(prompt) == Ok(Root(Letters[k] + [Digit(o)], 12 * o + k, Body(prompt)))
  {
    var body := Body(prompt);
    NotContained(body, "#", '#');
    NotContained(body, "b", 'b');
    assert body[..1] == Letters[k];
    NotContained(Letters[k], "b", 'b');
    NotesLayout(o, k);
    NoteIndexOfNotes(12 * o + k);
    NotesIndex(Letters[k] + [Digit(o)]);
  }

  /** The root of a prompt whose body starts with a letter and a "b": the
      flat becomes the sharp a semitone below the letter, found at that
      pitch in the prompt's octave; Cb and Fb become B# and E#, which NOTES
      does not hold, so NOTES.index raises ValueError. */
  lemma FlatRoot(prompt: string, o: nat, letter: char)
    requires o < NumOctaves && |prompt| >= 1 && Octave(prompt) == Digit(o)
    requires |Body(prompt)| >= 2 && Body(prompt)[0] == letter && Body(prompt)[1] == 'b'
    requires letter in "ABCDEFG"
    ensures letter in "ABDEG" ==>
              var k := (LetterIndex([letter]).value + 11) % 12;
              ParseRoot(prompt) == Ok(Root(Letters[k] + [Digit(o)], 12 * o + k, Body(prompt)))
    ensures letter in "CF" ==> ParseRoot(prompt) == Err(ValueError)
  {
    var sharp := FlatSharp(letter);
    FlatSpelling(Body(prompt));
    assert Body(prompt)[..2] == [letter, 'b'];
    RootByName(prompt, [letter, 'b'], sharp);
    var name := sharp + [Digit(o)];
    NotesIndex(name);
    assert name[..|name| - 1] == sharp;
    if letter in "ABDEG" {
      var k := (LetterIndex([letter]).value + 11) % 12;
      NotesLayout(o, k);
      NoteIndexOfNotes(12 * o + k);
    }
  }

  /** A body whose second character is "b" is spelled by its first two. */
  lemma FlatSpelling(body: string)
    requires |body| >= 2 && body[1] == 'b'
    ensures Spelling(body) == Ok(body[..2])
  {
    assert OccursAt(body, "b", 1);
    Contained(body, "b", 1);
  }

  /** The sharp a letter's flat is rewritten to. */
  lemma FlatSharp(letter: char) returns (sharp: string)
    requires letter in "ABCDEFG"
    ensures FlatToSharp([letter, 'b']) == Ok(sharp)
    ensures letter in "ABDEG" ==> LetterIndex([letter]).Some? && sharp == Letters[(LetterIndex([letter]).value + 11) % 12]
    ensures letter in "CF" ==> LetterIndex(sharp).None?
  {
    assert OccursAt([letter, 'b'], "b", 1);
    Contained([letter, 'b'], "b", 1);
    sharp := FlatToSharp([letter, 'b']).value;
  }

  /** ParseRoot once the spelling and its sharp form are known: the lookup
      of the sharp name with the octave digit. */
  lemma RootByName(prompt: string, spelling: string, sharp: string)
    requires |prompt| >= 1 && Spelling(Body(prompt)) == Ok(spelling) && FlatToSharp(spelling) == Ok(sharp)
    ensures ParseRoot(prompt) == match IndexOf(Notes(), sharp + [Octave(prompt)])
                                 case None => Err(ValueError)
                                 case Some(i) => Ok(Root(sharp + [Octave(prompt)], i, Body(prompt)))
  {
  }

  /** A-flat without an octave digit: the root is G#3, the last entry of
      octave 3. */
  lemma AFlatRoot(prompt: string)
    requires |prompt| >= 2 && prompt[0] == 'A' && prompt[1] == 'b'
    ensures ParseRoot(prompt) == Ok(Root("G#3", 47, prompt))
  {
    assert Octave(prompt) == Digit(3) && Body(prompt) == prompt;
    assert LetterIndex(['A']) == Some(0);
    var sharp := FlatSharp('A');
    assert sharp == Letters[11] == "G#";
    FlatSpelling(prompt);
    assert prompt[..2] == ['A', 'b'];
    RootByName(prompt, ['A', 'b'], sharp);
    assert sharp + [Digit(3)] == "G#3";
    NotesIndex("G#3");
    NotesLayout(3, 11);
    NoteIndexOfNotes(47);
  }

  /** "Abmaj7", from the example sequence. */
  lemma FlatRootExample(prompt: string)
    requires prompt == "Abmaj7"
    ensures ParseRoot(prompt) == Ok(Root("G#3", 47, prompt))
  {
    AFlatRoot(prompt);
  }

  /** "Cb": the sharp spelling B# is not in NOTES. */
  lemma CFlatRejected(prompt: string)
    requires prompt == "Cb"
    ensures ParseRoot(prompt) == Err(ValueError)
  {
    assert !IsDigit(prompt[0]) && prompt[0] == 'C' && prompt[1] == 'b';
    FlatRoot(prompt, 3, 'C');
  }

  /** A note name without its octave digit: the pitch class. */
  function PitchClass(name: string): string
  {
    if |name| == 0 then name else name[..|name| - 1]
  }

  /** Every name getNote gives for a non-negative index has the pitch class
      of that index; past the end of NOTES the octave digit is one lower. */
  lemma GetNotePitch(idx: int)
    requires idx >= 0 && GetNote(idx).Ok?
    ensures idx < |Notes()| ==> GetNote(idx).value == Letters[idx % 12] + [Digit(idx / 12)]
    ensures idx > |Notes()| ==> GetNote(idx).value == Letters[idx % 12] + [Digit(idx / 12 - 1)]
    ensures PitchClass(GetNote(idx).value) == Letters[idx % 12]
  {
    if idx < |Notes()| {
      PitchOfName(Letters[idx % 12], Digit(idx / 12));
    } else {
      OctaveBelow(idx);
      PitchOfName(Letters[idx % 12], Digit(idx / 12 - 1));
    }
  }

  lemma OctaveBelow(idx: int)
    requires idx >= 12
    ensures (idx - 12) % 12 == idx % 12 && (idx - 12) / 12 == idx / 12 - 1
  {
  }

  /** A name's pitch class is the name less its octave digit. */
  lemma PitchOfName(pitch: string, digit: char)
    ensures PitchClass(pitch + [digit]) == pitch
  {
    assert (pitch + [digit])[..|pitch|] == pitch;
  }

  /** A chord buildChord returns is the chord on the root it parses. */
  lemma ChordViaRoot(prompt: string)
    requires Chord(prompt).Ok?
    ensures ParseRoot(prompt).Ok? && ChordOn(ParseRoot(prompt).value) == Chord(prompt)
  {
  }

  /** The notes of a chord on a root: the root, then one note per interval,
      three to six in all, the seventh there exactly when the body holds a
      "7" and the ninth's pair exactly when it holds a "9". */
  predicate ChordShaped(root: Root, c: seq<string>)
  {
    && NotesAtIntervals(root.index, root.name, Intervals(root.body), c)
    && |c| == 3 + (if Contains(root.body, "7") then 1 else 0) + (if Contains(root.body, "9") then 2 else 0)
  }

  /** The root's name, then the note getNote gives at each interval above
      the root's index. */
  predicate NotesAtIntervals(index: int, name: string, ivs: seq<int>, c: seq<string>)
  {
    && |c| == 1 + |ivs|
    && c[0] == name
    && forall k :: 0 <= k < |ivs| ==> GetNote(index + ivs[k]) == Ok(c[k + 1])
  }

  /** Every chord buildChord returns has that shape around the root it
      parses. */
  lemma ChordShape(prompt: string)
    requires Chord(prompt).Ok?
    ensures ParseRoot(prompt).Ok? && ChordShaped(ParseRoot(prompt).value, Chord(prompt).value)
  {
    ChordViaRoot(prompt);
    ChordOnShape(ParseRoot(prompt).value);
  }

  lemma ChordOnShape(root: Root)
    requires ChordOn(root).Ok?
    ensures ChordShaped(root, ChordOn(root).value)
  {
    ChordOnNotes(root);
    IntervalsCount(root.body);
  }

  lemma ChordOnNotes(root: Root)
    requires ChordOn(root).Ok?
    ensures NotesAtIntervals(root.index, root.name, Intervals(root.body), ChordOn(root).value)
  {
    var ivs := Intervals(root.body);
    var above := NotesAbove(root.index, ivs).value;
    NotesAtFromAbove(root.index, root.name, ivs, above);
  }

  /** A successful NotesAbove, behind the root's name. */
  lemma NotesAtFromAbove(index: int, name: string, ivs: seq<int>, above: seq<string>)
    requires NotesAbove(index, ivs) == Ok(above)
    ensures NotesAtIntervals(index, name, ivs, [name] + above)
  {
    NotesAboveValues(index, ivs);
    ConsIndex(name, above);
  }

  lemma ConsIndex<T>(x: T, s: seq<T>)
    ensures |[x] + s| == |s| + 1 && ([x] + s)[0] == x
    ensures forall k :: 0 <= k < |s| ==> ([x] + s)[k + 1] == s[k]
  {
  }

  /** Two to five intervals: the seventh counts when a "7" occurs, the
      ninth's pair when a "9" does. */
  lemma IntervalsCount(body: string)
    ensures |Intervals(body)| == 2 + (if Contains(body, "7") then 1 else 0) + (if Contains(body, "9") then 2 else 0)
  {
    SeventhNeedsSeven(body);
  }

  /** buildChord's third and fifth come from the named helpers: minorThird
      or majorThird, then fifth a semitone lower for "dim", a semitone higher
      for "aug", sixth for "6", and plain fifth otherwise. */
  lemma ChordThirdAndFifth(prompt: string)
    requires Chord(prompt).Ok?
    ensures ParseRoot(prompt).Ok?
    ensures var root := ParseRoot(prompt).value;
            var i, body, c := root.index, root.body, Chord(prompt).value;
            && |c| >= 3
            && Ok(c[1]) == (if Contains(body, "min") || Contains(body, "dim") then MinorThird(i) else MajorThird(i))
            && Ok(c[2]) == (if Contains(body, "dim") then Fifth(i - 1)
                            else if Contains(body, "aug") then Fifth(i + 1)
                            else if Contains(body, "6") then Sixth(i)
                            else Fifth(i))
  {
    ChordViaRoot(prompt);
    ChordOnThirdAndFifth(ParseRoot(prompt).value);
  }

  lemma ChordOnThirdAndFifth(root: Root)
    requires ChordOn(root).Ok?
    ensures var i, body, c := root.index, root.body, ChordOn(root).value;
            && |c| >= 3
            && Ok(c[1]) == (if Contains(body, "min") || Contains(body, "dim") then MinorThird(i) else MajorThird(i))
            && Ok(c[2]) == (if Contains(body, "dim") then Fifth(i - 1)
                            else if Contains(body, "aug") then Fifth(i + 1)
                            else if Contains(body, "6") then Sixth(i)
                            else Fifth(i))
  {
    ChordOnNotes(root);
    IntervalsHead(root.body);
    FirstTwoNotes(root.index, root.name, Intervals(root.body), ChordOn(root).value);
    ThirdHelpers(root.body, root.index);
    FifthHelpers(root.body, root.index);
  }

  lemma IntervalsHead(body: string)
    ensures |Intervals(body)| >= 2
    ensures Intervals(body)[0] == ThirdInterval(body) && Intervals(body)[1] == FifthInterval(body)
  {
  }

  lemma FirstTwoNotes(index: int, name: string, ivs: seq<int>, c: seq<string>)
    requires NotesAtIntervals(index, name, ivs, c) && |ivs| >= 2
    ensures |c| >= 3 && GetNote(index + ivs[0]) == Ok(c[1]) && GetNote(index + ivs[1]) == Ok(c[2])
  {
  }

  /** The third at ThirdInterval is the one minorThird or majorThird gives. */
  lemma ThirdHelpers(body: string, i: int)
    ensures GetNote(i + ThirdInterval(body))
            == (if Contains(body, "min") || Contains(body, "dim") then MinorThird(i) else MajorThird(i))
  {
  }

  /** The fifth at FifthInterval is the one fifth or sixth gives. */
  lemma FifthHelpers(body: string, i: int)
    ensures GetNote(i + FifthInterval(body))
            == (if Contains(body, "dim") then Fifth(i - 1)
                else if Contains(body, "aug") then Fifth(i + 1)
                else if Contains(body, "6") then Sixth(i)
                else Fifth(i))
  {
    if Contains(body, "dim") {
      assert i + FifthInterval(body) == (i - 1) + 7;
    } else if Contains(body, "aug") {
      assert i + FifthInterval(body) == (i + 1) + 7;
    }
  }


  /** Every interval lies between a minor third and a ninth. */
  predicate IntervalsInRange(ivs: seq<int>)
  {
    forall k :: 0 <= k < |ivs| ==> 3 <= ivs[k] <= 14
  }

  lemma IntervalsRange(body: string)
    ensures IntervalsInRange(Intervals(body))
  {
    var seventh, ninth := SeventhIntervals(body), NinthIntervals(body);
    var more := seventh + ninth;
    assert Intervals(body) == [ThirdInterval(body), FifthInterval(body)] + more;
    assert forall k :: 0 <= k < |more| ==> 3 <= more[k] <= 14 by {
      forall k | 0 <= k < |more| ensures 3 <= more[k] <= 14 {
        if k < |seventh| { assert more[k] == seventh[k]; }
        else { assert more[k] == ninth[k - |seventh|]; }
      }
    }
  }

  /** The pitch classes of a chord on a root at the given index: each note
      has the pitch class its interval above the root calls for, whatever
      octave digit getNote attaches to it. */
  predicate HasPitchClasses(index: int, ivs: seq<int>, c: seq<string>)
  {
    && |c| == |ivs| + 1
    && PitchClass(c[0]) == Letters[index % 12]
    && forall k :: 0 <= k < |ivs| ==> PitchClass(c[k + 1]) == Letters[(index + ivs[k]) % 12]
  }

  /** Every chord buildChord returns has those pitch classes. */
  lemma ChordPitchClasses(prompt: string)
    requires Chord(prompt).Ok?
    ensures ParseRoot(prompt).Ok?
    ensures var root := ParseRoot(prompt).value;
            HasPitchClasses(root.index, Intervals(root.body), Chord(prompt).value)
  {
    ChordViaRoot(prompt);
    ChordOnPitchClasses(ParseRoot(prompt).value);
  }

  lemma ChordOnPitchClasses(root: Root)
    requires root.index < |Notes()| && Notes()[root.index] == root.name
    requires ChordOn(root).Ok?
    ensures HasPitchClasses(root.index, Intervals(root.body), ChordOn(root).value)
  {
    ChordOnNotes(root);
    IntervalsRange(root.body);
    PitchClassesAt(root.index, root.name, Intervals(root.body), ChordOn(root).value);
  }

  /** The pitch classes of a root found in NOTES and of the notes getNote
      gives at the intervals above it. */
  lemma PitchClassesAt(index: nat, name: string, ivs: seq<int>, c: seq<string>)
    requires index < |Notes()| && Notes()[index] == name
    requires NotesAtIntervals(index, name, ivs, c) && IntervalsInRange(ivs)
    ensures HasPitchClasses(index, ivs, c)
  {
    NotePitchClass(index, name);
    forall k | 0 <= k < |ivs|
      ensures PitchClass(c[k + 1]) == Letters[(index + ivs[k]) % 12]
    {
      NotePitchClass(index + ivs[k], c[k + 1]);
    }
  }

  lemma NotePitchClass(idx: int, name: string)
    requires idx >= 0 && GetNote(idx) == Ok(name)
    ensures PitchClass(name) == Letters[idx % 12]
  {
    GetNotePitch(idx);
  }

  /** When buildChord fails: an empty prompt or body raises IndexError,
      nothing raises KeyError, and past parsing it fails exactly when
      getNote rejects one of the intervals, with IndexError. */
  lemma ChordErrors(prompt: string)
    ensures |prompt| == 0 ==> Chord(prompt) == Err(IndexError)
    ensures Chord(prompt).Err? ==> Chord(prompt).error != KeyError
    ensures ParseRoot(prompt).Ok? ==>
              var root := ParseRoot(prompt).value;
              var ivs := Intervals(root.body);
              && (Chord(prompt).Ok? <==> forall k :: 0 <= k < |ivs| ==> GetNote(root.index + ivs[k]).Ok?)
              && (Chord(prompt).Err? ==> Chord(prompt).error == IndexError)
  {
    if ParseRoot(prompt).Ok? {
      var root := ParseRoot(prompt).value;
      NotesAboveSpec(root.index, Intervals(root.body));
    }
  }

  /** The notes above an index, when getNote gives each of them. */
  lemma NotesAboveOk(index: int, offsets: seq<int>, notes: seq<string>)
    requires |notes| == |offsets|
    requires forall k :: 0 <= k < |offsets| ==> GetNote(index + offsets[k]) == Ok(notes[k])
    ensures NotesAbove(index, offsets) == Ok(notes)
  {
    NotesAboveSpec(index, offsets);
    var r := NotesAbove(index, offsets);
    assert r.Ok?;
    assert r.value == notes;
  }

  lemma PrependThree<T>(a: T, b: T, c: T)
    ensures [a] + [b, c] == [a, b, c]
  {
  }

  lemma PrependFour<T>(a: T, b: T, c: T, d: T)
    ensures [a] + [b, c, d] == [a, b, c, d]
  {
  }

  lemma ChordFrom(prompt: string, root: Root, above: seq<string>)
    requires ParseRoot(prompt) == Ok(root)
    requires NotesAbove(root.index, Intervals(root.body)) == Ok(above)
    ensures Chord(prompt) == Ok([root.name] + above)
  {
  }

  lemma ExampleNames()
    ensures |Notes()| == 60
    ensures Notes()[43] == "E3" && Notes()[46] == "G3" && Notes()[49] == "A#4"
    ensures Notes()[59] == "G#4" && Notes()[50] == "B4"
  {
    NotesLayout(3, 7);
    NotesLayout(3, 10);
    NotesLayout(4, 1);
    NotesLayout(4, 11);
    NotesLayout(4, 2);
  }

  lemma MinorSeventhRoot(prompt: string)
    requires prompt == "Cm7"
    ensures ParseRoot(prompt) == Ok(Root("C3", 39, prompt))
  {
    assert Octave(prompt) == '3' && Body(prompt) == prompt && prompt[0] == 'C';
    assert '#' !in prompt && 'b' !in prompt;
    PlainRoot(prompt, 3, 3);
    assert Letters[3] + [Digit(3)] == "C3";
  }

  lemma MinorSeventhAbove(prompt: string, above: seq<string>)
    requires prompt == "Cm7" && above == ["E3", "G3", "A#4"]
    ensures NotesAbove(39, Intervals(prompt)) == Ok(above)
  {
    var ivs := Intervals(prompt);
    IntervalsOfCm7();
    assert ivs == [4, 7, 10];
    ExampleNames();
    NotesAboveOk(39, ivs, above);
  }

  /** C minor seventh in octave 3: "m" is neither "min" nor "dim", so the
      third stays major, and the seventh crosses into the next NOTES row. */
  lemma ChordExampleMinorSeventh(prompt: string)
    requires prompt == "Cm7"
    ensures Chord(prompt) == Ok(["C3", "E3", "G3", "A#4"])
  {
    MinorSeventhRoot(prompt);
    MinorSeventhAbove(prompt, ["E3", "G3", "A#4"]);
    ChordFrom(prompt, Root("C3", 39, prompt), ["E3", "G3", "A#4"]);
    PrependFour("C3", "E3", "G3", "A#4");
  }

  /** The off-by-one in getNote: the fifth of D4 is index 60, which the
      guard lets through to NOTES[60]. */
  lemma ChordExampleOffByOne(prompt: string)
    requires prompt == "4D"
    ensures Chord(prompt) == Err(IndexError)
  {
    assert Octave(prompt) == '4' && Body(prompt) == "D";
    PlainRoot(prompt, 4, 5);
    BareLetterIntervals('D');
    NotesAboveSpec(53, Intervals(prompt));
    assert GetNote(53 + Intervals(prompt)[1]).Err?;
  }

  lemma FoldedRoot(prompt: string)
    requires prompt == "4E"
    ensures ParseRoot(prompt) == Ok(Root("E4", 55, "E"))
  {
    assert Octave(prompt) == '4' && Body(prompt) == "E";
    PlainRoot(prompt, 4, 7);
    assert Letters[7] + [Digit(4)] == "E4";
  }

  lemma FoldedAbove(above: seq<string>)
    requires above == ["G#4", "B4"]
    ensures NotesAbove(55, Intervals("E")) == Ok(above)
  {
    var ivs := Intervals("E");
    BareLetterIntervals('E');
    ExampleNames();
    NotesAboveOk(55, ivs, above);
  }

  /** Past index 60 getNote folds back an octave: the fifth of E4 comes out
      as B4, below the root. */
  lemma ChordExampleFolded(prompt: string)
    requires prompt == "4E"
    ensures Chord(prompt) == Ok(["E4", "G#4", "B4"])
  {
    FoldedRoot(prompt);
    FoldedAbove(["G#4", "B4"]);
    ChordFrom(prompt, Root("E4", 55, "E"), ["G#4", "B4"]);
    PrependThree("E4", "G#4", "B4");
  }
}
