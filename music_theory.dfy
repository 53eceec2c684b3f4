/** Pitch-class arithmetic: the note-name tables, scales with their
    sharp/flat spelling, the playable-note palette, triads of chord tokens,
    best-fit scale detection, and the negative-harmony mirror. */
module MusicTheory {
  import opened Lists
  import opened Strings
  import opened Types

  /** A chromatic pitch class, C = 0 up to B = 11. */
  type PitchClass = p: int | 0 <= p < 12

  const NotesSharp: seq<string> := ["C", "C#", "D", "D#", "E", "F", "F#", "G", "G#", "A", "A#", "B"]
  const NotesFlat: seq<string> := ["C", "Db", "D", "Eb", "E", "F", "Gb", "G", "Ab", "A", "Bb", "B"]

  /** Keys whose signature uses flats, per the circle of fifths. */
  const MajorKeysThatUseFlats: seq<string> := ["F", "Bb", "Eb", "Ab", "Db", "Gb", "Cb"]
  const MinorKeysThatUseFlats: seq<string> := ["D", "G", "C", "F", "Bb", "Eb", "Ab"]
  const FlatKeySignatures: set<string> :=
    (set k | k in MajorKeysThatUseFlats) + (set k | k in MinorKeysThatUseFlats)

  const NaturalMinorScaleIntervals: seq<nat> := [0, 2, 3, 5, 7, 8, 10]
  const MajorScaleIntervals: seq<nat> := [0, 2, 4, 5, 7, 9, 11]

  datatype ScaleType = Major | Minor

  /** A token of the form `[A-G][#b]?`. */
  predicate IsNoteToken(t: string) {
    && (|t| == 1 || |t| == 2)
    && 'A' <= t[0] <= 'G'
    && (|t| == 2 ==> t[1] == '#' || t[1] == 'b')
  }

  /** The chromatic index of a natural note letter. */
  function LetterIndex(letter: char): PitchClass {
    if letter == 'C' then 0
    else if letter == 'D' then 2
    else if letter == 'E' then 4
    else if letter == 'F' then 5
    else if letter == 'G' then 7
    else if letter == 'A' then 9
    else 11
  }

  /** `noteToIndex[name]`: the 21 keys of the table are exactly the tokens
      `[A-G][#b]?`, each mapped to its letter's index moved a semitone up by
      `#` and down by `b`, modulo 12 (so `B#` is 0 and `Cb` is 11). Any other
      string is `undefined`, here `None`. */
  function NoteToIndex(name: string): (index: Option<PitchClass>)
    ensures index.Some? <==> IsNoteToken(name)
  {
    if !IsNoteToken(name) then None
    else
      var natural := LetterIndex(name[0]);
      if |name| == 1 then Some(natural)
      else if name[1] == '#' then Some(if natural == 11 then 0 else natural + 1)
      else Some(if natural == 0 then 11 else natural - 1)
  }

  /** The entries of the source's table, one by one. */
  lemma NoteToIndexTable()
    ensures NoteToIndex("C") == Some(0) && NoteToIndex("B#") == Some(0)
    ensures NoteToIndex("C#") == Some(1) && NoteToIndex("Db") == Some(1)
    ensures NoteToIndex("D") == Some(2)
    ensures NoteToIndex("D#") == Some(3) && NoteToIndex("Eb") == Some(3)
    ensures NoteToIndex("E") == Some(4) && NoteToIndex("Fb") == Some(4)
    ensures NoteToIndex("F") == Some(5) && NoteToIndex("E#") == Some(5)
    ensures NoteToIndex("F#") == Some(6) && NoteToIndex("Gb") == Some(6)
    ensures NoteToIndex("G") == Some(7)
    ensures NoteToIndex("G#") == Some(8) && NoteToIndex("Ab") == Some(8)
    ensures NoteToIndex("A") == Some(9)
    ensures NoteToIndex("A#") == Some(10) && NoteToIndex("Bb") == Some(10)
    ensures NoteToIndex("B") == Some(11) && NoteToIndex("Cb") == Some(11)
    ensures NoteToIndex("") == None && NoteToIndex("H") == None && NoteToIndex("Cm") == None
  {
  }

  /** The match of `/^[A-G][#b]?/` against `s`, if any. */
  function NoteBase(s: string): (base: Option<string>)
    ensures base.Some? <==> |s| > 0 && 'A' <= s[0] <= 'G'
    ensures base.Some? ==> IsNoteToken(base.value) && base.value <= s
  {
    if |s| > 0 && 'A' <= s[0] <= 'G' then
      Some(if |s| >= 2 && (s[1] == '#' || s[1] == 'b') then s[..2] else s[..1])
    else None
  }

  /** Both spelling tables list the twelve pitch classes in order. */
  lemma SpellingTablesRoundTrip()
    ensures |NotesSharp| == 12 && |NotesFlat| == 12
    ensures forall i: PitchClass :: NoteToIndex(NotesSharp[i]) == Some(i) && NoteToIndex(NotesFlat[i]) == Some(i)
  {
    forall i: PitchClass
      ensures NoteToIndex(NotesSharp[i]) == Some(i) && NoteToIndex(NotesFlat[i]) == Some(i)
    {
      assert i == 0 || i == 1 || i == 2 || i == 3 || i == 4 || i == 5 || i == 6 || i == 7 || i == 8 || i == 9 || i == 10 || i == 11;
    }
  }

  /** A token is its own base, also when something other than an accidental
      follows it. */
  lemma TokenBase(t: string, rest: string)
    requires IsNoteToken(t)
    requires |t| == 2 || rest == [] || (rest[0] != '#' && rest[0] != 'b')
    ensures NoteBase(t + rest) == Some(t)
  {
    if |t| == 1 {
      assert (t + rest)[..1] == t;
    } else {
      assert (t + rest)[..2] == t;
    }
  }

  /** A spelling table entry is a note token that neither ends in a digit
      nor contains `m`. */
  lemma TableEntryShape(name: string)
    requires name in NotesSharp || name in NotesFlat
    ensures IsNoteToken(name)
    ensures !IsDigit(name[|name| - 1]) && 'm' !in name
  {
  }

  // ---------------------------------------------------------------------
  // Scales

  /** The root as `getNotesInScale` rewrites it before matching: first
      letter upper case, the rest lower case, the first `sharp` turned into
      `#` and the first `flat` into `b`. */
  function SanitizeRoot(rootNote: string): string {
    if rootNote == [] then []
    else
      var rest := ReplaceFirst(ReplaceFirst(ToLower(rootNote[1..]), "sharp", "#"), "flat", "b");
      [ToUpperAscii(rootNote[0])] + rest
  }

  /** Note tokens come through the rewriting unchanged. */
  lemma SanitizeKeepsTokens(t: string)
    requires IsNoteToken(t)
    ensures SanitizeRoot(t) == t
  {
    var rest := t[1..];
    assert ToLower(rest) == rest;
    assert ReplaceFirst(rest, "sharp", "#") == rest;
    assert ReplaceFirst(rest, "flat", "b") == rest;
    assert [t[0]] + rest == t;
  }

  /** Spelled-out and lower-case roots are understood. */
  lemma SanitizeExamples()
    ensures SanitizeRoot("c#") == "C#"
    ensures SanitizeRoot("Bflat") == "Bb"
    ensures SanitizeRoot("fsharp") == "F#"
    ensures NoteBase(SanitizeRoot("h")) == None
  {
    assert ToLower("#") == "#";
    assert ReplaceFirst("#", "sharp", "#") == "#";
    assert ReplaceFirst("#", "flat", "b") == "#";
    assert ToLower("flat") == "flat";
    assert ReplaceFirst("flat", "sharp", "#") == "flat";
    assert "flat"[..4] == "flat";
    assert ReplaceFirst("flat", "flat", "b") == "b";
    assert ToLower("sharp") == "sharp";
    assert "sharp"[..5] == "sharp";
    assert ReplaceFirst("sharp", "sharp", "#") == "#";
    assert ToUpperAscii('c') == 'C';
    assert ToUpperAscii('f') == 'F';
    assert ToUpperAscii('h') == 'H';
  }

  /** The key-signature rule of `getNotesInScale`. */
  predicate ScaleUsesFlats(rootNoteBase: string, scaleType: ScaleType) {
    || (if scaleType == Major then rootNoteBase in MajorKeysThatUseFlats
        else rootNoteBase in MinorKeysThatUseFlats)
    || 'b' in rootNoteBase
  }

  /** The pitch class `interval` semitones above `p`. */
  function Transpose(p: PitchClass, interval: int): PitchClass {
    (p + interval) % 12
  }

  /** Moving up by less than an octave adds the interval, wrapping past B
      back to C. */
  lemma TransposeUp(p: PitchClass, interval: int)
    requires 0 <= p + interval < 24
    ensures Transpose(p, interval) == if p + interval < 12 then p + interval else p + interval - 12
  {
  }

  /** `getNotesInScale(rootNote, intervals, scaleType)`. */
  function NotesInScale(rootNote: string, intervals: seq<nat>, scaleType: ScaleType): seq<string> {
    var rootNoteBase := NoteBase(SanitizeRoot(rootNote));
    if rootNoteBase.None? || NoteToIndex(rootNoteBase.value).None? then []
    else
      var startIndex := NoteToIndex(rootNoteBase.value).value;
      var noteArray := if ScaleUsesFlats(rootNoteBase.value, scaleType) then NotesFlat else NotesSharp;
      seq(|intervals|, k requires 0 <= k < |intervals| => noteArray[Transpose(startIndex, intervals[k])])
  }

  /** A root without a valid `[A-G][#b]?` prefix gives no notes; otherwise
      the k-th name is the root moved up by the k-th interval, spelled from
      the flat table exactly when the key-signature rule says so. */
  lemma NotesInScaleSpec(rootNote: string, intervals: seq<nat>, scaleType: ScaleType)
    ensures NoteBase(SanitizeRoot(rootNote)).None? ==> NotesInScale(rootNote, intervals, scaleType) == []
    ensures NoteBase(SanitizeRoot(rootNote)).Some? ==>
      var rootNoteBase := NoteBase(SanitizeRoot(rootNote)).value;
      var startIndex := NoteToIndex(rootNoteBase).value;
      var names := NotesInScale(rootNote, intervals, scaleType);
      var noteArray := if ScaleUsesFlats(rootNoteBase, scaleType) then NotesFlat else NotesSharp;
      && |names| == |intervals|
      && forall k :: 0 <= k < |names| ==>
           && names[k] == noteArray[Transpose(startIndex, intervals[k])]
           && NoteToIndex(names[k]) == Some(Transpose(startIndex, intervals[k]))
  {
    var sanitized := SanitizeRoot(rootNote);
    if NoteBase(sanitized).Some? {
      var rootNoteBase := NoteBase(sanitized).value;
      var startIndex := NoteToIndex(rootNoteBase).value;
      var names := NotesInScale(rootNote, intervals, scaleType);
      var noteArray := if ScaleUsesFlats(rootNoteBase, scaleType) then NotesFlat else NotesSharp;
      forall k | 0 <= k < |names|
        ensures NoteToIndex(names[k]) == Some(Transpose(startIndex, intervals[k]))
      {
        TableIndex(noteArray, Transpose(startIndex, intervals[k]));
      }
    }
  }

  /** Looking up entry `p` of either spelling table gives back `p`. */
  lemma TableIndex(noteArray: seq<string>, p: PitchClass)
    requires noteArray == NotesFlat || noteArray == NotesSharp
    ensures p < |noteArray| && NoteToIndex(noteArray[p]) == Some(p)
  {
    SpellingTablesRoundTrip();
  }

  // ---------------------------------------------------------------------
  // Playable notes

  /** The sort key of `generatePlayableNotes`: `noteToIndex[base] || 0`. */
  function ChromaticKey(name: string): int {
    var sanitized := match NoteBase(name) case Some(b) => b case None => "";
    match NoteToIndex(sanitized) case Some(i) => i case None => 0
  }

  predicate ChromaticallySorted(names: seq<string>) {
    forall i, j :: 0 <= i < j < |names| ==> ChromaticKey(names[i]) <= ChromaticKey(names[j])
  }

  /** Where `InsertChromatic` puts `name`: before the first entry whose key
      is not smaller. */
  function InsertPosition(name: string, sorted: seq<string>): (k: nat)
    ensures k <= |sorted|
    ensures forall i :: 0 <= i < k ==> ChromaticKey(sorted[i]) < ChromaticKey(name)
    ensures k < |sorted| ==> ChromaticKey(name) <= ChromaticKey(sorted[k])
  {
    if sorted == [] || ChromaticKey(name) <= ChromaticKey(sorted[0]) then 0
    else 1 + InsertPosition(name, sorted[1..])
  }

  /** One step of the insertion sort. */
  function InsertChromatic(name: string, sorted: seq<string>): (r: seq<string>)
    requires ChromaticallySorted(sorted)
    ensures ChromaticallySorted(r)
    ensures multiset(r) == multiset(sorted) + multiset{name}
    ensures name !in sorted && NoDuplicates(sorted) ==> NoDuplicates(r)
  {
    var k := InsertPosition(name, sorted);
    assert sorted[..k] + sorted[k..] == sorted;
    InsertedSorted(name, sorted, k);
    InsertedNoDuplicates(name, sorted, k);
    sorted[..k] + [name] + sorted[k..]
  }

  lemma InsertedSorted(name: string, sorted: seq<string>, k: nat)
    requires ChromaticallySorted(sorted) && k <= |sorted|
    requires forall i :: 0 <= i < k ==> ChromaticKey(sorted[i]) < ChromaticKey(name)
    requires k < |sorted| ==> ChromaticKey(name) <= ChromaticKey(sorted[k])
    ensures ChromaticallySorted(sorted[..k] + [name] + sorted[k..])
  {
    var r := sorted[..k] + [name] + sorted[k..];
    forall i, j | 0 <= i < j < |r|
      ensures ChromaticKey(r[i]) <= ChromaticKey(r[j])
    {
      if j < k {
        assert r[i] == sorted[i] && r[j] == sorted[j];
      } else if j == k {
        assert r[i] == sorted[i] && r[j] == name;
      } else if i < k {
        assert r[i] == sorted[i] && r[j] == sorted[j - 1];
      } else if i == k {
        assert r[i] == name && r[j] == sorted[j - 1];
      } else {
        assert r[i] == sorted[i - 1] && r[j] == sorted[j - 1];
      }
    }
  }

  lemma InsertedNoDuplicates(name: string, sorted: seq<string>, k: nat)
    requires k <= |sorted|
    ensures name !in sorted && NoDuplicates(sorted) ==> NoDuplicates(sorted[..k] + [name] + sorted[k..])
  {
    var r := sorted[..k] + [name] + sorted[k..];
    if name !in sorted && NoDuplicates(sorted) {
      forall i, j | 0 <= i < j < |r|
        ensures r[i] != r[j]
      {
        if j < k {
          assert r[i] == sorted[i] && r[j] == sorted[j];
        } else if j == k {
          assert r[i] == sorted[i] && r[j] == name;
        } else if i < k {
          assert r[i] == sorted[i] && r[j] == sorted[j - 1];
        } else if i == k {
          assert r[i] == name && r[j] == sorted[j - 1];
        } else {
          assert r[i] == sorted[i - 1] && r[j] == sorted[j - 1];
        }
      }
    }
  }

  /** The stable sort by chromatic index that `Array.prototype.sort` performs
      with the comparator of `generatePlayableNotes`: each entry is inserted
      ahead of the later entries with the same key. */
  function SortChromatic(names: seq<string>): (sorted: seq<string>)
    ensures ChromaticallySorted(sorted)
    ensures multiset(sorted) == multiset(names)
    ensures NoDuplicates(names) ==> NoDuplicates(sorted)
  {
    if names == [] then []
    else
      assert names == [names[0]] + names[1..];
      var rest := SortChromatic(names[1..]);
      assert names[0] in multiset(rest) <==> names[0] in names[1..];
      InsertChromatic(names[0], rest)
  }

  /** `names` with `octave` appended to each. */
  function OctaveRow(names: seq<string>, octave: int): (row: seq<string>)
    ensures |row| == |names|
    ensures forall j :: 0 <= j < |names| ==> row[j] == names[j] + IntToString(octave)
  {
    seq(|names|, j requires 0 <= j < |names| => names[j] + IntToString(octave))
  }

  /** Every name with every octave appended, octave in the outer loop. */
  function NotesAcrossOctaves(names: seq<string>, octaves: seq<int>): seq<string> {
    if octaves == [] then []
    else NotesAcrossOctaves(names, octaves[..|octaves| - 1]) + OctaveRow(names, octaves[|octaves| - 1])
  }

  lemma MulSucc(a: nat, n: nat)
    ensures (a + 1) * n == a * n + n
  {
  }

  lemma {:induction false} NotesAcrossOctavesLength(names: seq<string>, octaves: seq<int>)
    ensures |NotesAcrossOctaves(names, octaves)| == |octaves| * |names|
  {
    if octaves != [] {
      NotesAcrossOctavesLength(names, octaves[..|octaves| - 1]);
      MulSucc(|octaves| - 1, |names|);
    }
  }

  /** Entry `o * |names| + j` is name `j` at octave `octaves[o]`. */
  lemma {:induction false} NotesAcrossOctavesAt(names: seq<string>, octaves: seq<int>, o: nat, j: nat)
    requires o < |octaves| && j < |names|
    ensures 0 <= o * |names| + j < |NotesAcrossOctaves(names, octaves)|
    ensures NotesAcrossOctaves(names, octaves)[o * |names| + j] == names[j] + IntToString(octaves[o])
  {
    var m := |octaves| - 1;
    var init := octaves[..m];
    var prefix := NotesAcrossOctaves(names, init);
    var row := OctaveRow(names, octaves[m]);
    assert NotesAcrossOctaves(names, octaves) == prefix + row;
    if o < m {
      NotesAcrossOctavesAt(names, init, o, j);
      assert init[o] == octaves[o];
    } else {
      NotesAcrossOctavesLength(names, init);
      assert o == m;
    }
  }

  /** The distinct names (by string) of the natural minor and major scales
      on the root, in order of first appearance. */
  function ScaleNamesUnion(rootNote: string): seq<string> {
    Dedup(NotesInScale(rootNote, NaturalMinorScaleIntervals, Minor) +
          NotesInScale(rootNote, MajorScaleIntervals, Major))
  }

  /** `generatePlayableNotes(rootNote, octaves)`. */
  function PlayableNotes(rootNote: string, octaves: seq<int>): seq<string> {
    var sortedNotes := SortChromatic(ScaleNamesUnion(rootNote));
    if |sortedNotes| == 0 then [] else NotesAcrossOctaves(sortedNotes, octaves)
  }

  /** `generatePlayableNotes`: dedup, sort, then the palette built by the
      nested `forEach`. */
  method GeneratePlayableNotes(rootNote: string, octaves: seq<int>) returns (playableNotes: seq<string>)
    ensures playableNotes == PlayableNotes(rootNote, octaves)
  {
    var minorScaleNotes := NotesInScale(rootNote, NaturalMinorScaleIntervals, Minor);
    var majorScaleNotes := NotesInScale(rootNote, MajorScaleIntervals, Major);
    var combinedNotes := Dedup(minorScaleNotes + majorScaleNotes);
    var sortedNotes := SortChromatic(combinedNotes);
    if |sortedNotes| == 0 {
      return [];
    }
    playableNotes := EmitAcrossOctaves(sortedNotes, octaves);
  }

  /** The inner `forEach`: push every name followed by the octave. */
  method PushRow(notes: seq<string>, names: seq<string>, octave: int) returns (pushed: seq<string>)
    ensures pushed == notes + OctaveRow(names, octave)
  {
    pushed := notes;
    for j := 0 to |names|
      invariant pushed == notes + OctaveRow(names[..j], octave)
    {
      assert OctaveRow(names[..j + 1], octave) == OctaveRow(names[..j], octave) + [names[j] + IntToString(octave)];
      pushed := pushed + [names[j] + IntToString(octave)];
    }
    assert names[..|names|] == names;
  }

  /** The palette over one more octave is one more row. */
  lemma NotesAcrossOctavesSnoc(names: seq<string>, octaves: seq<int>, o: nat)
    requires o < |octaves|
    ensures NotesAcrossOctaves(names, octaves[..o + 1]) == NotesAcrossOctaves(names, octaves[..o]) + OctaveRow(names, octaves[o])
  {
    assert octaves[..o + 1][..o] == octaves[..o];
  }

  /** The nested `forEach` of `generatePlayableNotes`: for each octave, for
      each name, push the name followed by the octave. */
  method EmitAcrossOctaves(sortedNotes: seq<string>, octaves: seq<int>) returns (playableNotes: seq<string>)
    ensures playableNotes == NotesAcrossOctaves(sortedNotes, octaves)
  {
    playableNotes := [];
    for o := 0 to |octaves|
      invariant playableNotes == NotesAcrossOctaves(sortedNotes, octaves[..o])
    {
      NotesAcrossOctavesSnoc(sortedNotes, octaves, o);
      playableNotes := PushRow(playableNotes, sortedNotes, octaves[o]);
    }
    assert octaves[..|octaves|] == octaves;
  }

  /** The names of the palette are the sorted, duplicate-free union of the
      names of both scales on the root. */
  lemma PaletteNames(rootNote: string)
    ensures var names := SortChromatic(ScaleNamesUnion(rootNote));
      && NoDuplicates(names)
      && ChromaticallySorted(names)
      && forall n :: n in names <==>
           n in NotesInScale(rootNote, NaturalMinorScaleIntervals, Minor) ||
           n in NotesInScale(rootNote, MajorScaleIntervals, Major)
  {
    var union := ScaleNamesUnion(rootNote);
    var names := SortChromatic(union);
    forall n ensures n in names <==> n in union {
      assert n in names <==> n in multiset(names);
      assert n in union <==> n in multiset(union);
    }
  }

  /** The palette has one entry per name and octave. */
  lemma PlayableNotesLength(rootNote: string, octaves: seq<int>)
    ensures |PlayableNotes(rootNote, octaves)| == |octaves| * |SortChromatic(ScaleNamesUnion(rootNote))|
  {
    var names := SortChromatic(ScaleNamesUnion(rootNote));
    if |names| == 0 {
      assert PlayableNotes(rootNote, octaves) == [];
      assert |octaves| * 0 == 0;
    } else {
      assert PlayableNotes(rootNote, octaves) == NotesAcrossOctaves(names, octaves);
      NotesAcrossOctavesLength(names, octaves);
    }
  }

  /** An unusable root gives an empty palette. */
  lemma PlayableNotesOfInvalidRoot(rootNote: string, octaves: seq<int>)
    requires NoteBase(SanitizeRoot(rootNote)).None?
    ensures PlayableNotes(rootNote, octaves) == []
  {
    NotesInScaleSpec(rootNote, NaturalMinorScaleIntervals, Minor);
    NotesInScaleSpec(rootNote, MajorScaleIntervals, Major);
    assert ScaleNamesUnion(rootNote) == [];
  }

  // ---------------------------------------------------------------------
  // Chords

  /** An `m` right after the root marks a minor triad. */
  predicate MinorMarked(chord: string) {
    NoteBase(chord).Some? && |chord| > |NoteBase(chord).value| && chord[|NoteBase(chord).value|] == 'm'
  }

  /** The triad on a pitch class: root, minor or major third, fifth. */
  function Triad(root: PitchClass, minor: bool): seq<PitchClass> {
    [root, Transpose(root, if minor then 3 else 4), Transpose(root, 7)]
  }

  /** `getNoteIndicesFromChord(chord)`. */
  function NoteIndicesFromChord(chord: string): seq<PitchClass> {
    match NoteBase(chord)
    case None => []
    case Some(root) =>
      if NoteToIndex(root).None? then []
      else
        var rootIndex := NoteToIndex(root).value;
        var thirdInterval := if MinorMarked(chord) then 3 else 4;
        [rootIndex, Transpose(rootIndex, thirdInterval), Transpose(rootIndex, 7)]
  }

  /** A chord gives no indices exactly when it does not start with
      `[A-G][#b]?`; otherwise it gives the triad on that root, minor exactly
      when an `m` follows the root. */
  lemma ChordTriad(chord: string)
    ensures NoteIndicesFromChord(chord) == [] <==> NoteBase(chord).None?
    ensures NoteBase(chord).Some? ==>
      && NoteToIndex(NoteBase(chord).value).Some?
      && NoteIndicesFromChord(chord) == Triad(NoteToIndex(NoteBase(chord).value).value, MinorMarked(chord))
  {
    if NoteBase(chord).Some? {
      var root := NoteBase(chord).value;
      assert IsNoteToken(root);
      assert NoteToIndex(root).Some?;
    }
  }

  /** The pitch classes of a triad: the root, three or four semitones above
      it, and seven above it, all in 0..11. */
  lemma TriadIntervals(root: PitchClass, minor: bool)
    ensures var t := Triad(root, minor);
      && |t| == 3 && t[0] == root
      && (t[1] - root) % 12 == (if minor then 3 else 4)
      && (t[2] - root) % 12 == 7
  {
  }

  // ---------------------------------------------------------------------
  // Scale detection

  /** The pitch classes used by all triads of the progression. */
  function ChordPitchClasses(chords: seq<string>): set<PitchClass> {
    if chords == [] then {}
    else ChordPitchClasses(chords[..|chords| - 1]) + Elements(NoteIndicesFromChord(chords[|chords| - 1]))
  }

  /** Only chords that start with a note token contribute pitch classes. */
  lemma {:induction false} ChordPitchClassesEmpty(chords: seq<string>)
    ensures ChordPitchClasses(chords) == {} <==> forall i :: 0 <= i < |chords| ==> NoteBase(chords[i]).None?
  {
    if chords != [] {
      var init, last := chords[..|chords| - 1], chords[|chords| - 1];
      ChordPitchClassesEmpty(init);
      ChordTriad(last);
      if NoteBase(last).Some? {
        assert NoteIndicesFromChord(last)[0] in ChordPitchClasses(chords);
      }
      forall i | 0 <= i < |init| ensures init[i] == chords[i] { }
    }
  }

  /** `new Set(names.map(n => noteToIndex[n]))`, keeping only defined indices. */
  function ScaleIndexSet(names: seq<string>): set<PitchClass> {
    set n | n in names && NoteToIndex(n).Some? :: NoteToIndex(n).value
  }

  lemma ScaleIndexSetMember(names: seq<string>, k: nat)
    requires k < |names| && NoteToIndex(names[k]).Some?
    ensures NoteToIndex(names[k]).value in ScaleIndexSet(names)
  {
    assert names[k] in names;
  }

  /** Candidates in the order `detectScale` tries them: C Major, C Minor,
      C# Major, ..., B Minor. */
  function CandidateScaleType(c: nat): ScaleType {
    if c % 2 == 0 then Major else Minor
  }

  function CandidateIntervals(c: nat): seq<nat> {
    if c % 2 == 0 then MajorScaleIntervals else NaturalMinorScaleIntervals
  }

  function CandidateName(c: nat): string
    requires c < 24
  {
    NotesSharp[c / 2] + (if c % 2 == 0 then " Major" else " Minor")
  }

  function CandidateScaleIndices(c: nat): set<PitchClass>
    requires c < 24
  {
    ScaleIndexSet(NotesInScale(NotesSharp[c / 2], CandidateIntervals(c), CandidateScaleType(c)))
  }

  /** How many of the progression's pitch classes lie in candidate `c`. */
  function CandidateScore(noteIndices: set<PitchClass>, c: nat): nat
    requires c < 24
  {
    |noteIndices * CandidateScaleIndices(c)|
  }

  /** The scores of all 24 candidates, in trial order. */
  function CandidateScores(noteIndices: set<PitchClass>): (scores: seq<nat>)
    ensures |scores| == 24
    ensures forall c :: 0 <= c < 24 ==> scores[c] == CandidateScore(noteIndices, c)
  {
    seq(24, c requires 0 <= c < 24 => CandidateScore(noteIndices, c))
  }

  /** The names of candidate `c` are its root moved up by its intervals. */
  lemma CandidateNames(c: nat)
    requires c < 24
    ensures var names := NotesInScale(NotesSharp[c / 2], CandidateIntervals(c), CandidateScaleType(c));
      && |names| == |CandidateIntervals(c)|
      && forall k :: 0 <= k < |names| ==> NoteToIndex(names[k]) == Some(Transpose(c / 2, CandidateIntervals(c)[k]))
  {
    var root := NotesSharp[c / 2];
    TableIndex(NotesSharp, c / 2);
    TableEntryShape(root);
    SanitizeKeepsTokens(root);
    TokenBase(root, "");
    assert root + "" == root;
    NotesInScaleSpec(root, CandidateIntervals(c), CandidateScaleType(c));
  }

  /** Candidate `c` holds exactly the root moved up by its intervals. */
  lemma CandidateScaleIndicesClosedForm(c: nat)
    requires c < 24
    ensures CandidateScaleIndices(c) == set iv | iv in CandidateIntervals(c) :: Transpose(c / 2, iv)
  {
    var ivs := CandidateIntervals(c);
    CandidateNames(c);
    var names := NotesInScale(NotesSharp[c / 2], ivs, CandidateScaleType(c));
    forall p | p in CandidateScaleIndices(c) ensures p in set iv | iv in ivs :: Transpose(c / 2, iv) {
      var n :| n in names && NoteToIndex(n).Some? && p == NoteToIndex(n).value;
      var k :| 0 <= k < |names| && names[k] == n;
      assert ivs[k] in ivs;
    }
    forall p | p in set iv | iv in ivs :: Transpose(c / 2, iv) ensures p in CandidateScaleIndices(c) {
      var iv :| iv in ivs && p == Transpose(c / 2, iv);
      var k :| 0 <= k < |ivs| && ivs[k] == iv;
      assert names[k] in names;
    }
  }

  /** The major scale on a pitch class contains that pitch class. */
  lemma MajorCandidateContainsRoot(p: PitchClass)
    ensures p in CandidateScaleIndices(2 * p)
  {
    CandidateNames(2 * p);
    assert 2 * p / 2 == p && CandidateIntervals(2 * p) == MajorScaleIntervals && CandidateScaleType(2 * p) == Major;
    var names := NotesInScale(NotesSharp[p], MajorScaleIntervals, Major);
    TransposeUp(p, 0);
    assert NoteToIndex(names[0]) == Some(p);
    ScaleIndexSetMember(names, 0);
  }

  /** The index of the first strictly highest score: the candidate a scan
      that replaces its best only on a strictly higher score ends with. */
  function FirstArgMax(scores: seq<int>): (best: nat)
    requires |scores| > 0
    ensures best < |scores|
  {
    if |scores| == 1 then 0
    else
      var best := FirstArgMax(scores[..|scores| - 1]);
      if scores[|scores| - 1] > scores[best] then |scores| - 1 else best
  }

  /** `FirstArgMax` has the highest score, and every earlier index scores
      strictly less. */
  lemma {:induction false} FirstArgMaxIsFirstMaximum(scores: seq<int>)
    requires |scores| > 0
    ensures forall c :: 0 <= c < |scores| ==> scores[c] <= scores[FirstArgMax(scores)]
    ensures forall c :: 0 <= c < FirstArgMax(scores) ==> scores[c] < scores[FirstArgMax(scores)]
  {
    if |scores| > 1 {
      var init := scores[..|scores| - 1];
      FirstArgMaxIsFirstMaximum(init);
      assert forall c :: 0 <= c < |init| ==> init[c] == scores[c];
    }
  }

  /** What `detectScale(chords)` returns. */
  function DetectedScale(chords: seq<string>): Option<string> {
    if chords == [] then None
    else
      var scores := CandidateScores(ChordPitchClasses(chords));
      var best := FirstArgMax(scores);
      if scores[best] > 0 then Some(CandidateName(best)) else None
  }

  /** A detected scale is the first candidate with the highest score. */
  lemma DetectedScaleIsBest(chords: seq<string>)
    requires DetectedScale(chords).Some?
    ensures exists best :: (
      && 0 <= best < 24 && DetectedScale(chords) == Some(CandidateName(best))
      && (forall c :: 0 <= c < 24 ==> CandidateScore(ChordPitchClasses(chords), c) <= CandidateScore(ChordPitchClasses(chords), best))
      && (forall c :: 0 <= c < best ==> CandidateScore(ChordPitchClasses(chords), c) < CandidateScore(ChordPitchClasses(chords), best)))
  {
    var scores := CandidateScores(ChordPitchClasses(chords));
    FirstArgMaxIsFirstMaximum(scores);
    var best := FirstArgMax(scores);
    assert DetectedScale(chords) == Some(CandidateName(best));
  }

  /** No scale is detected exactly when no chord starts with a note token. */
  lemma DetectedScaleAbsent(chords: seq<string>)
    ensures DetectedScale(chords).None? <==>
      forall i :: 0 <= i < |chords| ==> NoteBase(chords[i]).None?
  {
    ChordPitchClassesEmpty(chords);
    var noteIndices := ChordPitchClasses(chords);
    if chords != [] && noteIndices != {} {
      var p :| p in noteIndices;
      MajorCandidateContainsRoot(p);
      assert p in noteIndices * CandidateScaleIndices(2 * p);
      var scores := CandidateScores(noteIndices);
      assert scores[2 * p] > 0;
      FirstArgMaxIsFirstMaximum(scores);
    }
  }

  /** Counts the members of `noteIndices` that lie in `scaleIndices`,
      visiting the set element by element. */
  method CountMatches(noteIndices: set<PitchClass>, scaleIndices: set<PitchClass>) returns (count: nat)
    ensures count == |noteIndices * scaleIndices|
  {
    count := 0;
    var remaining := noteIndices;
    while remaining != {}
      invariant remaining <= noteIndices
      invariant count == |(noteIndices - remaining) * scaleIndices|
      decreases |remaining|
    {
      var noteIndex :| noteIndex in remaining;
      VisitOne(noteIndices, remaining, scaleIndices, noteIndex);
      if noteIndex in scaleIndices {
        count := count + 1;
      }
      remaining := remaining - {noteIndex};
    }
    assert noteIndices - remaining == noteIndices;
  }

  /** Visiting one more element adds one match exactly when it is in the
      scale. */
  lemma VisitOne(noteIndices: set<PitchClass>, remaining: set<PitchClass>, scaleIndices: set<PitchClass>, x: PitchClass)
    requires remaining <= noteIndices && x in remaining
    ensures |(noteIndices - (remaining - {x})) * scaleIndices| ==
      |(noteIndices - remaining) * scaleIndices| + (if x in scaleIndices then 1 else 0)
  {
    var done := (noteIndices - remaining) * scaleIndices;
    var next := (noteIndices - (remaining - {x})) * scaleIndices;
    assert x !in done;
    if x in scaleIndices {
      assert next == done + {x};
    } else {
      assert next == done;
    }
  }

  /** The first loop of `detectScale`: every index of every chord's triad
      is added to one set. */
  method CollectPitchClasses(chords: seq<string>) returns (progressionNoteIndices: set<PitchClass>)
    ensures progressionNoteIndices == ChordPitchClasses(chords)
  {
    progressionNoteIndices := {};
    for i := 0 to |chords|
      invariant progressionNoteIndices == ChordPitchClasses(chords[..i])
    {
      var indices := NoteIndicesFromChord(chords[i]);
      for j := 0 to |indices|
        invariant progressionNoteIndices == ChordPitchClasses(chords[..i]) + Elements(indices[..j])
      {
        assert indices[..j + 1] == indices[..j] + [indices[j]];
        progressionNoteIndices := progressionNoteIndices + {indices[j]};
      }
      assert indices[..|indices|] == indices;
      assert chords[..i + 1][..i] == chords[..i];
    }
    assert chords[..|chords|] == chords;
  }

  /** `detectScale`: collect the progression's pitch classes, then keep the
      first candidate with the strictly highest score. */
  method DetectScale(chords: seq<string>) returns (scaleName: Option<string>)
    ensures scaleName == DetectedScale(chords)
  {
    if |chords| == 0 {
      return None;
    }
    var progressionNoteIndices := CollectPitchClasses(chords);
    var bestName, bestScore := ScanCandidates(progressionNoteIndices);
    ScanStateIsFirstArgMax(progressionNoteIndices, 24);
    assert CandidateScores(progressionNoteIndices)[..24] == CandidateScores(progressionNoteIndices);
    scaleName := if bestScore > 0 then Some(bestName) else None;
  }

  /** The best fit after trying the first `n` candidates in order, replacing
      it only on a strictly higher score: the `(scaleName, score)` record of
      `detectScale`, starting from `('', -1)`. */
  function ScanState(noteIndices: set<PitchClass>, n: nat): (string, int)
    requires n <= 24
  {
    if n == 0 then ("", -1)
    else
      var (name, score) := ScanState(noteIndices, n - 1);
      if CandidateScore(noteIndices, n - 1) > score then (CandidateName(n - 1), CandidateScore(noteIndices, n - 1))
      else (name, score)
  }

  /** Trying candidate `n` after the first `n`. */
  lemma ScanStateStep(noteIndices: set<PitchClass>, n: nat)
    requires n < 24
    ensures ScanState(noteIndices, n + 1) ==
      if CandidateScore(noteIndices, n) > ScanState(noteIndices, n).1 then (CandidateName(n), CandidateScore(noteIndices, n))
      else ScanState(noteIndices, n)
  {
  }

  /** After at least one candidate the scan holds the first highest-scoring
      candidate and its score. */
  lemma {:induction false} ScanStateIsFirstArgMax(noteIndices: set<PitchClass>, n: nat)
    requires 1 <= n <= 24
    ensures var scores := CandidateScores(noteIndices);
      var best := FirstArgMax(scores[..n]);
      ScanState(noteIndices, n) == (CandidateName(best), scores[best])
  {
    var scores := CandidateScores(noteIndices);
    FirstArgMaxStep(scores, n - 1);
    if n > 1 {
      ScanStateIsFirstArgMax(noteIndices, n - 1);
    }
  }

  /** The loop of `detectScale` over the twelve roots. */
  method ScanCandidates(progressionNoteIndices: set<PitchClass>) returns (bestName: string, bestScore: int)
    ensures (bestName, bestScore) == ScanState(progressionNoteIndices, 24)
  {
    bestName := "";
    bestScore := -1;
    for r := 0 to 12
      invariant (bestName, bestScore) == ScanState(progressionNoteIndices, 2 * r)
    {
      bestName, bestScore := TryRoot(progressionNoteIndices, r, bestName, bestScore);
      assert 2 * r + 2 == 2 * (r + 1);
    }
  }

  /** One pass of that loop: the major and then the minor scale on root `r`,
      each replacing the best fit only on a strictly higher score. */
  method TryRoot(progressionNoteIndices: set<PitchClass>, r: nat, bestName: string, bestScore: int)
    returns (newName: string, newScore: int)
    requires r < 12 && (bestName, bestScore) == ScanState(progressionNoteIndices, 2 * r)
    ensures (newName, newScore) == ScanState(progressionNoteIndices, 2 * r + 2)
  {
    newName, newScore := bestName, bestScore;
    var root := NotesSharp[r];
    ScoresOfRoot(progressionNoteIndices, r);
    var majorScaleIndices := ScaleIndexSet(NotesInScale(root, MajorScaleIntervals, Major));
    var majorMatchCount := CountMatches(progressionNoteIndices, majorScaleIndices);
    ScanStateStep(progressionNoteIndices, 2 * r);
    if majorMatchCount > newScore {
      newName, newScore := root + " Major", majorMatchCount;
    }
    var minorScaleIndices := ScaleIndexSet(NotesInScale(root, NaturalMinorScaleIntervals, Minor));
    var minorMatchCount := CountMatches(progressionNoteIndices, minorScaleIndices);
    ScanStateStep(progressionNoteIndices, 2 * r + 1);
    if minorMatchCount > newScore {
      newName, newScore := root + " Minor", minorMatchCount;
    }
  }

  /** Candidates `2 * r` and `2 * r + 1` are the major and minor scales on
      `NotesSharp[r]`. */
  lemma CandidatesOfRoot(r: nat)
    requires r < 12
    ensures CandidateName(2 * r) == NotesSharp[r] + " Major"
    ensures CandidateName(2 * r + 1) == NotesSharp[r] + " Minor"
    ensures CandidateScaleIndices(2 * r) == ScaleIndexSet(NotesInScale(NotesSharp[r], MajorScaleIntervals, Major))
    ensures CandidateScaleIndices(2 * r + 1) == ScaleIndexSet(NotesInScale(NotesSharp[r], NaturalMinorScaleIntervals, Minor))
  {
    assert (2 * r) / 2 == r && (2 * r) % 2 == 0;
    assert (2 * r + 1) / 2 == r && (2 * r + 1) % 2 == 1;
  }

  /** The scores of the two candidates on root `r`, as the loop computes
      them. */
  lemma ScoresOfRoot(noteIndices: set<PitchClass>, r: nat)
    requires r < 12
    ensures CandidateScore(noteIndices, 2 * r) == |noteIndices * ScaleIndexSet(NotesInScale(NotesSharp[r], MajorScaleIntervals, Major))|
    ensures CandidateScore(noteIndices, 2 * r + 1) == |noteIndices * ScaleIndexSet(NotesInScale(NotesSharp[r], NaturalMinorScaleIntervals, Minor))|
    ensures CandidateName(2 * r) == NotesSharp[r] + " Major"
    ensures CandidateName(2 * r + 1) == NotesSharp[r] + " Minor"
  {
    CandidatesOfRoot(r);
  }

  /** Extending the scanned prefix by one score. */
  lemma FirstArgMaxStep(scores: seq<int>, k: nat)
    requires k < |scores|
    ensures k > 0 ==> (FirstArgMax(scores[..k + 1]) ==
      if scores[k] > scores[FirstArgMax(scores[..k])] then k else FirstArgMax(scores[..k]))
    ensures k > 0 ==> FirstArgMax(scores[..k]) < k
    ensures FirstArgMax(scores[..1]) == 0
  {
    assert scores[..k + 1][..k] == scores[..k];
  }

  // ---------------------------------------------------------------------
  // Spelling by key

  /** `getNoteArrayForKey(rootNote)`. */
  function NoteArrayForKey(rootNote: string): (noteArray: seq<string>)
    ensures noteArray == NotesFlat || noteArray == NotesSharp
  {
    match NoteBase(rootNote)
    case None => NotesSharp
    case Some(rootNoteBase) =>
      if 'b' in rootNoteBase || rootNoteBase in FlatKeySignatures then NotesFlat else NotesSharp
  }

  /** The key spells with flats exactly when its root token contains `b` or
      is in either flat-key list; a root without a token spells with sharps. */
  lemma NoteArrayForKeyUsesFlats(rootNote: string)
    ensures NoteArrayForKey(rootNote) == NotesFlat <==>
      match NoteBase(rootNote)
      case None => false
      case Some(b) => 'b' in b || b in MajorKeysThatUseFlats || b in MinorKeysThatUseFlats
  {
    assert NotesFlat[1] != NotesSharp[1];
  }

  /** `getNotesFromChord(chord, rootNoteForKey)`. */
  function NotesFromChord(chord: string, rootNoteForKey: string): seq<string> {
    var indices := NoteIndicesFromChord(chord);
    if |indices| == 0 then []
    else
      var noteArray := NoteArrayForKey(rootNoteForKey);
      seq(|indices|, k requires 0 <= k < |indices| => noteArray[indices[k]])
  }

  /** The chord's notes are empty exactly when it has no triad; otherwise
      they are its three triad pitch classes, spelled from the key's table. */
  lemma NotesFromChordSpec(chord: string, rootNoteForKey: string)
    ensures NotesFromChord(chord, rootNoteForKey) == [] <==> NoteIndicesFromChord(chord) == []
    ensures NoteIndicesFromChord(chord) != [] ==>
      var names := NotesFromChord(chord, rootNoteForKey);
      && |names| == 3
      && forall k :: 0 <= k < 3 ==>
           && names[k] in NoteArrayForKey(rootNoteForKey)
           && NoteToIndex(names[k]) == Some(NoteIndicesFromChord(chord)[k])
  {
    var indices := NoteIndicesFromChord(chord);
    ChordTriad(chord);
    if indices != [] {
      var noteArray := NoteArrayForKey(rootNoteForKey);
      var names := NotesFromChord(chord, rootNoteForKey);
      forall k | 0 <= k < 3
        ensures names[k] in noteArray && NoteToIndex(names[k]) == Some(indices[k])
      {
        TableIndex(noteArray, indices[k]);
      }
    }
  }

  /** Key `C` spells with flats: `C#` becomes Db-F-Ab. */
  lemma SharpChordInFlatKey()
    ensures NotesFromChord("C#", "C") == ["Db", "F", "Ab"]
  {
    assert "C" in FlatKeySignatures;
    assert "C#"[..2] == "C#" && "C"[..1] == "C";
    assert NoteBase("C") == Some("C") && NoteBase("C#") == Some("C#");
    TransposeUp(1, 4);
    TransposeUp(1, 7);
    var indices := NoteIndicesFromChord("C#");
    assert indices == [1, 5, 8];
    var names := NotesFromChord("C#", "C");
    assert names[0] == "Db" && names[1] == "F" && names[2] == "Ab";
  }

  /** In key `C`, `Am` is A-C-E. */
  lemma MinorChordInKeyOfC()
    ensures NotesFromChord("Am", "C") == ["A", "C", "E"]
  {
    assert "Am"[..1] == "A" && "C"[..1] == "C";
    assert NoteBase("C") == Some("C") && NoteBase("Am") == Some("A");
    TransposeUp(9, 3);
    TransposeUp(9, 7);
    var indices := NoteIndicesFromChord("Am");
    assert indices == [9, 0, 4];
    var names := NotesFromChord("Am", "C");
    assert names[0] == "A" && names[1] == "C" && names[2] == "E";
  }

  // ---------------------------------------------------------------------
  // Negative harmony

  /** Reflection of pitch class `p` in the axis between the key root and its
      fifth. */
  function MirrorPitchClass(rootIndex: PitchClass, p: PitchClass): PitchClass {
    (rootIndex + Transpose(rootIndex, 7) - p) % 12
  }

  /** Reflecting twice gives back the pitch class. */
  lemma MirrorInvolution(rootIndex: PitchClass, p: PitchClass)
    ensures MirrorPitchClass(rootIndex, MirrorPitchClass(rootIndex, p)) == p
  {
    var axisSum := rootIndex + Transpose(rootIndex, 7);
    var m := MirrorPitchClass(rootIndex, p);
    var q := (axisSum - p) / 12;
    assert axisSum - m == p + 12 * q;
    ModOfOctaves(axisSum - m, p, q);
  }

  /** A number `p + 12 * q` with `p` a pitch class is `p` modulo 12. */
  lemma ModOfOctaves(y: int, p: PitchClass, q: int)
    requires y == p + 12 * q
    ensures y % 12 == p
  {
  }

  /** The key root as `transformNoteNegative` reads it: its `[A-G][#b]?`
      prefix, or `C` when there is none. */
  function KeyRootBase(rootNote: string): (base: string)
    ensures IsNoteToken(base)
  {
    match NoteBase(rootNote) case Some(b) => b case None => "C"
  }

  /** The pitch class of the key root; `C` when the root does not parse. */
  function KeyRootIndex(rootNote: string): PitchClass {
    NoteToIndex(KeyRootBase(rootNote)).value
  }

  /** What `transformNoteNegative(noteName, rootNote, noteArray)` returns. */
  function MirroredNoteName(noteName: string, rootNote: string, noteArray: seq<string>): string
    requires |noteArray| == 12
  {
    if noteName == "" then noteName
    else
      var rootIndex := NoteToIndex(KeyRootBase(rootNote));
      if rootIndex.None? then noteName
      else
        match NoteBase(noteName)
        case None => noteName
        case Some(noteBase) =>
          if NoteToIndex(noteBase).None? then noteName
          else noteArray[MirrorPitchClass(rootIndex.value, NoteToIndex(noteBase).value)]
  }

  /** `transformNoteNegative`: the reflected index is brought to zero or
      above by a loop adding 12, then reduced modulo 12. */
  method TransformNoteNegative(noteName: string, rootNote: string, noteArray: seq<string>) returns (result: string)
    requires |noteArray| == 12
    ensures result == MirroredNoteName(noteName, rootNote, noteArray)
  {
    if noteName == "" {
      return noteName;
    }
    var rootLookup := NoteToIndex(KeyRootBase(rootNote));
    if rootLookup.None? {
      return noteName;
    }
    var rootIndex: int := rootLookup.value;
    var fifthIndex: int := (rootIndex + 7) % 12;
    var axisSum: int := rootIndex + fifthIndex;
    var noteBase := NoteBase(noteName);
    if noteBase.None? {
      return noteName;
    }
    var oldLookup := NoteToIndex(noteBase.value);
    if oldLookup.None? {
      return noteName;
    }
    var oldNoteIndex: int := oldLookup.value;
    var newNoteIndex := axisSum - oldNoteIndex;
    while newNoteIndex < 0
      invariant newNoteIndex % 12 == (axisSum - oldNoteIndex) % 12
      decreases -newNoteIndex
    {
      newNoteIndex := newNoteIndex + 12;
    }
    newNoteIndex := newNoteIndex % 12;
    result := noteArray[newNoteIndex];
  }

  /** The pitch class a note string names: that of the `[A-G][#b]?` prefix
      of its part before the octave digits. */
  function NotePitchClass(note: string): Option<PitchClass> {
    match NoteBase(WithoutTrailingDigits(note))
    case None => None
    case Some(b) => NoteToIndex(b)
  }

  /** Mirroring a note name: an empty or unparseable name comes back
      unchanged; otherwise the result is the key table's spelling of the
      reflected pitch class, the root being read as `C` when it does not
      parse. */
  lemma MirroredNoteNameSpec(noteName: string, rootNote: string)
    ensures var noteArray := NoteArrayForKey(rootNote);
      var r := MirroredNoteName(noteName, rootNote, noteArray);
      && (noteName == "" || NoteBase(noteName).None? ==> r == noteName)
      && (noteName != "" && NoteBase(noteName).Some? ==>
            var p := MirrorPitchClass(KeyRootIndex(rootNote), NoteToIndex(NoteBase(noteName).value).value);
            && r == noteArray[p]
            && r in noteArray
            && NoteToIndex(r) == Some(p))
  {
    var noteArray := NoteArrayForKey(rootNote);
    if noteName != "" && NoteBase(noteName).Some? {
      var p := MirrorPitchClass(KeyRootIndex(rootNote), NoteToIndex(NoteBase(noteName).value).value);
      TableIndex(noteArray, p);
    }
  }

  /** Mirroring twice gives back the pitch class; a name already spelled
      from the key's table comes back exactly. */
  lemma MirroredNoteNameInvolution(noteName: string, rootNote: string)
    requires NoteBase(noteName).Some?
    ensures var noteArray := NoteArrayForKey(rootNote);
      var twice := MirroredNoteName(MirroredNoteName(noteName, rootNote, noteArray), rootNote, noteArray);
      && NoteToIndex(twice) == NoteToIndex(NoteBase(noteName).value)
      && (noteName in noteArray ==> twice == noteName)
  {
    var noteArray := NoteArrayForKey(rootNote);
    var p := NoteToIndex(NoteBase(noteName).value).value;
    MirroredNoteNameSpec(noteName, rootNote);
    var once := MirroredNoteName(noteName, rootNote, noteArray);
    TableEntryShape(once);
    TokenBase(once, "");
    assert once + "" == once;
    MirroredNoteNameSpec(once, rootNote);
    MirrorInvolution(KeyRootIndex(rootNote), p);
    TableIndex(noteArray, p);
    if noteName in noteArray {
      TableEntryShape(noteName);
      TokenBase(noteName, "");
      assert noteName + "" == noteName;
      TableEntryAtOwnIndex(noteArray, noteName, p);
    }
  }

  /** A table entry is the entry at its own pitch class. */
  lemma TableEntryAtOwnIndex(noteArray: seq<string>, name: string, p: PitchClass)
    requires noteArray == NotesFlat || noteArray == NotesSharp
    requires name in noteArray && NoteToIndex(name) == Some(p)
    ensures noteArray[p] == name
  {
    var k :| 0 <= k < |noteArray| && noteArray[k] == name;
    TableIndex(noteArray, k);
  }

  /** Is the step sounding a note (`step.active && step.note` is truthy)? */
  predicate HasSoundingNote(step: SequenceStep) {
    step.active && step.note.Some? && step.note.value != ""
  }

  /** A note with its pitch part mirrored and its octave digits kept. */
  function MirrorNote(note: string, rootNote: string, noteArray: seq<string>): string
    requires |noteArray| == 12
  {
    MirroredNoteName(WithoutTrailingDigits(note), rootNote, noteArray) + TrailingDigits(note)
  }

  /** One step of `applyNegativeHarmonyToSequence`. */
  function MirrorStep(step: SequenceStep, rootNote: string, noteArray: seq<string>): SequenceStep
    requires |noteArray| == 12
  {
    if !HasSoundingNote(step) then step
    else step.(note := Some(MirrorNote(step.note.value, rootNote, noteArray)))
  }

  /** `applyNegativeHarmonyToSequence(sequence, rootNote)`: same length, only
      notes change, and a step without a sounding note is passed through. */
  function ApplyNegativeHarmonyToSequence(sequence: seq<SequenceStep>, rootNote: string): (mirrored: seq<SequenceStep>)
    ensures |mirrored| == |sequence|
    ensures forall i :: 0 <= i < |sequence| ==> mirrored[i] == sequence[i].(note := mirrored[i].note)
    ensures forall i :: 0 <= i < |sequence| && !HasSoundingNote(sequence[i]) ==> mirrored[i] == sequence[i]
    ensures forall i :: 0 <= i < |sequence| ==> mirrored[i].note.Some? == sequence[i].note.Some?
  {
    var noteArray := NoteArrayForKey(rootNote);
    seq(|sequence|, i requires 0 <= i < |sequence| => MirrorStep(sequence[i], rootNote, noteArray))
  }

  /** A mirrored note keeps its octave digits and has the reflected pitch
      class spelled from the key's table; a note whose pitch part does not
      parse is kept. */
  lemma MirroredNoteKeepsOctave(note: string, rootNote: string)
    ensures var noteArray := NoteArrayForKey(rootNote);
      var mirrored := MirrorNote(note, rootNote, noteArray);
      && TrailingDigits(mirrored) == TrailingDigits(note)
      && (NotePitchClass(note).None? ==> mirrored == note)
      && (NotePitchClass(note).Some? ==>
            && NotePitchClass(mirrored) == Some(MirrorPitchClass(KeyRootIndex(rootNote), NotePitchClass(note).value))
            && WithoutTrailingDigits(mirrored) in noteArray)
  {
    var noteArray := NoteArrayForKey(rootNote);
    var noteBase := WithoutTrailingDigits(note);
    var octave := TrailingDigits(note);
    MirroredNoteNameSpec(noteBase, rootNote);
    var newBase := MirroredNoteName(noteBase, rootNote, noteArray);
    if noteBase == "" || NoteBase(noteBase).None? {
      TrailingDigitsOfConcat(noteBase, octave);
    } else {
      TableEntryShape(newBase);
      TrailingDigitsOfConcat(newBase, octave);
      TokenBase(newBase, "");
      assert newBase + "" == newBase;
    }
  }

  /** Mirroring a note twice keeps its octave digits and pitch class, gives
      back a non-empty note for a non-empty one, and gives back the note
      itself when its pitch part is spelled from the key's table. */
  lemma MirrorNoteTwice(note: string, rootNote: string)
    ensures var noteArray := NoteArrayForKey(rootNote);
      var once := MirrorNote(note, rootNote, noteArray);
      var twice := MirrorNote(once, rootNote, noteArray);
      && (note != "" ==> once != "")
      && TrailingDigits(twice) == TrailingDigits(note)
      && NotePitchClass(twice) == NotePitchClass(note)
      && (WithoutTrailingDigits(note) in noteArray ==> twice == note)
  {
    var noteArray := NoteArrayForKey(rootNote);
    var once := MirrorNote(note, rootNote, noteArray);
    MirroredNoteKeepsOctave(note, rootNote);
    MirroredNoteKeepsOctave(once, rootNote);
    if NotePitchClass(note).Some? {
      MirrorInvolution(KeyRootIndex(rootNote), NotePitchClass(note).value);
      assert WithoutTrailingDigits(once) + TrailingDigits(once) == once;
    }
    var b := WithoutTrailingDigits(note);
    if b in noteArray {
      TableEntryShape(b);
      TokenBase(b, "");
      assert b + "" == b;
      MirroredNoteNameInvolution(b, rootNote);
      var newBase := MirroredNoteName(b, rootNote, noteArray);
      MirroredNoteNameSpec(b, rootNote);
      TableEntryShape(newBase);
      TrailingDigitsOfConcat(newBase, TrailingDigits(note));
      assert b + TrailingDigits(note) == note;
    }
  }

  /** Mirroring a step twice changes at most its note, keeps the octave
      digits and pitch class of that note, and restores the step when its
      sounding note is spelled from the key's table. */
  lemma MirrorStepTwice(step: SequenceStep, rootNote: string)
    ensures var noteArray := NoteArrayForKey(rootNote);
      var twice := MirrorStep(MirrorStep(step, rootNote, noteArray), rootNote, noteArray);
      && twice == step.(note := twice.note)
      && (step.note.Some? ==>
            && twice.note.Some?
            && TrailingDigits(twice.note.value) == TrailingDigits(step.note.value)
            && NotePitchClass(twice.note.value) == NotePitchClass(step.note.value))
      && ((HasSoundingNote(step) ==> WithoutTrailingDigits(step.note.value) in noteArray) ==> twice == step)
  {
    if HasSoundingNote(step) {
      MirrorNoteTwice(step.note.value, rootNote);
    }
  }

  /** Mirroring a sequence twice restores every pitch class and octave, and
      restores the sequence exactly when its sounding notes are spelled from
      the key's table. */
  lemma NegativeSequenceInvolution(sequence: seq<SequenceStep>, rootNote: string)
    ensures var twice := ApplyNegativeHarmonyToSequence(ApplyNegativeHarmonyToSequence(sequence, rootNote), rootNote);
      && |twice| == |sequence|
      && (forall i :: 0 <= i < |sequence| ==> twice[i] == sequence[i].(note := twice[i].note))
      && (forall i :: 0 <= i < |sequence| && sequence[i].note.Some? ==>
            && TrailingDigits(twice[i].note.value) == TrailingDigits(sequence[i].note.value)
            && NotePitchClass(twice[i].note.value) == NotePitchClass(sequence[i].note.value))
      && ((forall i :: 0 <= i < |sequence| && HasSoundingNote(sequence[i]) ==>
             WithoutTrailingDigits(sequence[i].note.value) in NoteArrayForKey(rootNote))
          ==> twice == sequence)
  {
    var once := ApplyNegativeHarmonyToSequence(sequence, rootNote);
    var twice := ApplyNegativeHarmonyToSequence(once, rootNote);
    var noteArray := NoteArrayForKey(rootNote);
    forall i | 0 <= i < |sequence|
      ensures twice[i] == MirrorStep(MirrorStep(sequence[i], rootNote, noteArray), rootNote, noteArray)
    {
    }
    forall i | 0 <= i < |sequence| {
      MirrorStepTwice(sequence[i], rootNote);
    }
  }

  /** One chord of `applyNegativeHarmonyToChords`: the root part (the chord
      with its first `m` removed) is mirrored and the quality flipped. */
  function MirrorChord(chord: string, rootNote: string, noteArray: seq<string>): string
    requires |noteArray| == 12
  {
    if chord == "" then chord
    else
      var isMinor := 'm' in chord;
      var noteBase := ReplaceFirst(chord, "m", "");
      var newNoteBase := MirroredNoteName(noteBase, rootNote, noteArray);
      newNoteBase + (if isMinor then "" else "m")
  }

  /** `applyNegativeHarmonyToChords(chords, rootNote)`: same length, and an
      empty slot stays empty. */
  function ApplyNegativeHarmonyToChords(chords: seq<string>, rootNote: string): (mirrored: seq<string>)
    ensures |mirrored| == |chords|
    ensures forall i :: 0 <= i < |chords| && chords[i] == "" ==> mirrored[i] == ""
  {
    var noteArray := NoteArrayForKey(rootNote);
    seq(|chords|, i requires 0 <= i < |chords| => MirrorChord(chords[i], rootNote, noteArray))
  }

  /** A chord whose root part parses is mirrored to the key's spelling of
      the reflected root with the opposite quality: the result ends in `m`
      exactly when the chord had no `m`, and its triad is the one on the
      reflected root with the flipped quality. */
  lemma MirrorChordFlipsQuality(chord: string, rootNote: string)
    ensures var noteArray := NoteArrayForKey(rootNote);
      var r := MirrorChord(chord, rootNote, noteArray);
      var noteBase := NoteBase(ReplaceFirst(chord, "m", ""));
      chord != "" && noteBase.Some? ==>
        var root := NoteToIndex(noteBase.value).value;
        && r != ""
        && (r[|r| - 1] == 'm' <==> 'm' !in chord)
        && NoteIndicesFromChord(r) == Triad(MirrorPitchClass(KeyRootIndex(rootNote), root), 'm' !in chord)
  {
    var noteArray := NoteArrayForKey(rootNote);
    var noteBase := ReplaceFirst(chord, "m", "");
    if chord != "" && NoteBase(noteBase).Some? {
      MirroredNoteNameSpec(noteBase, rootNote);
      var newBase := MirroredNoteName(noteBase, rootNote, noteArray);
      TableEntryShape(newBase);
      var quality := if 'm' in chord then "" else "m";
      TokenBase(newBase, quality);
      ChordTriad(newBase + quality);
      assert MinorMarked(newBase + quality) <==> quality == "m" by {
        if quality == "m" {
          assert (newBase + quality)[|newBase|] == 'm';
        } else {
          assert newBase + quality == newBase;
        }
      }
    }
  }

  /** The quality suffix of a triad: `m` for minor, nothing for major. */
  function QualitySuffix(minor: bool): string {
    if minor then "m" else ""
  }

  /** Mirroring a chord spelled in the key's table mirrors its root and
      flips its quality. */
  lemma MirrorSpelledChord(noteBase: string, minor: bool, rootNote: string)
    requires noteBase in NoteArrayForKey(rootNote)
    ensures var noteArray := NoteArrayForKey(rootNote);
      MirrorChord(noteBase + QualitySuffix(minor), rootNote, noteArray) ==
        MirroredNoteName(noteBase, rootNote, noteArray) + QualitySuffix(!minor)
  {
    TableEntryShape(noteBase);
    var chord := noteBase + QualitySuffix(minor);
    if minor {
      ReplaceFirstChar(noteBase, 'm', "", "");
      assert noteBase + ['m'] + "" == chord;
      assert chord[|noteBase|] == 'm';
    } else {
      ReplaceFirstChar(noteBase, 'm', "", "");
      assert chord == noteBase;
    }
  }

  /** A chord spelled in the key's table, with or without `m`, comes back
      unchanged after mirroring twice. */
  lemma MirrorChordInvolution(noteBase: string, minor: bool, rootNote: string)
    requires noteBase in NoteArrayForKey(rootNote)
    ensures var noteArray := NoteArrayForKey(rootNote);
      var chord := noteBase + QualitySuffix(minor);
      MirrorChord(MirrorChord(chord, rootNote, noteArray), rootNote, noteArray) == chord
  {
    var noteArray := NoteArrayForKey(rootNote);
    TableEntryShape(noteBase);
    TokenBase(noteBase, "");
    assert noteBase + "" == noteBase;
    MirroredNoteNameSpec(noteBase, rootNote);
    MirroredNoteNameInvolution(noteBase, rootNote);
    var once := MirroredNoteName(noteBase, rootNote, noteArray);
    MirrorSpelledChord(noteBase, minor, rootNote);
    MirrorSpelledChord(once, !minor, rootNote);
  }

  /** With key `C` (axis C-G), `Cm` becomes `G`. */
  lemma NegativeChordExample()
    ensures ApplyNegativeHarmonyToChords(["Cm"], "C") == ["G"]
  {
    assert "C" in FlatKeySignatures;
    assert "Cm"[..1] != "m" && "m"[..1] == "m";
    assert ReplaceFirst("Cm", "m", "") == "C";
    assert "C"[..1] == "C";
    assert NoteBase("C") == Some("C");
    TransposeUp(0, 7);
    assert MirrorPitchClass(0, 0) == 7;
    assert MirrorChord("Cm", "C", NotesFlat) == "G";
  }
}
