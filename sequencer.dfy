/** The sequencer view's logic: the CSS classes of a step, the chord-tone and
    scale-tone options offered for a sounding step's note, and how a choice
    in the note menu becomes a note change. */
module Sequencer {
  import opened Lists
  import opened Strings
  import opened Types
  import opened MusicTheory
  import opened App

  // ---------------------------------------------------------------------
  // Step classes

  /** The classes `getStepClass` collects, in order. */
  function StepClasses(step: SequenceStep, index: nat, currentStep: Option<int>, isPlaying: bool): (classes: seq<string>)
    ensures |classes| >= 1 && classes[0] == "sequencer-step"
    ensures "active" in classes <==> step.active
    ensures "playing" in classes <==> currentStep == Some(index) && isPlaying
    ensures "paused" in classes <==> currentStep == Some(index) && !isPlaying
    ensures NoDuplicates(classes)
  {
    ["sequencer-step"]
      + (if step.active then ["active"] else [])
      + (if currentStep == Some(index) then [if isPlaying then "playing" else "paused"] else [])
  }

  /** `getStepClass(step, index)`: push the classes, join them with spaces. */
  method GetStepClass(step: SequenceStep, index: nat, currentStep: Option<int>, isPlaying: bool) returns (className: string)
    ensures className == Join(StepClasses(step, index, currentStep, isPlaying), " ")
  {
    var classes := ["sequencer-step"];
    if step.active {
      classes := classes + ["active"];
    }
    if currentStep == Some(index) {
      if isPlaying {
        classes := classes + ["playing"];
      } else {
        classes := classes + ["paused"];
      }
    }
    assert classes == StepClasses(step, index, currentStep, isPlaying);
    className := Join(classes, " ");
  }

  /** A silent step off the playhead carries only the base class. */
  lemma PlainStepClass(step: SequenceStep, index: nat, currentStep: Option<int>, isPlaying: bool)
    requires !step.active && currentStep != Some(index)
    ensures Join(StepClasses(step, index, currentStep, isPlaying), " ") == "sequencer-step"
  {
  }

  // ---------------------------------------------------------------------
  // Note options

  /** The chord's notes in `octave`, or nothing when the octave lies outside
      0..5. */
  function KeptOctaveTones(bases: seq<string>, octave: int): seq<string> {
    if 0 <= octave <= 5 then OctaveRow(bases, octave) else []
  }

  /** The octave offsets around the current octave. */
  const OctaveOffsets: seq<int> := [-1, 0, 1]

  /** The chord tones pushed for the first `k` octave offsets, skipping the
      octaves outside 0..5. */
  function ChordTonesThrough(bases: seq<string>, octave: int, k: nat): seq<string>
    requires k <= |OctaveOffsets|
  {
    if k == 0 then [] else ChordTonesThrough(bases, octave, k - 1) + KeptOctaveTones(bases, octave + OctaveOffsets[k - 1])
  }

  /** Over all three offsets the chord tones are the kept tones of the
      octave below, the current octave and the octave above, in that order. */
  lemma ThreeOctaves(bases: seq<string>, octave: int)
    ensures ChordTonesThrough(bases, octave, 3)
      == KeptOctaveTones(bases, octave - 1) + KeptOctaveTones(bases, octave) + KeptOctaveTones(bases, octave + 1)
  {
    var below, here, above := KeptOctaveTones(bases, octave - 1), KeptOctaveTones(bases, octave), KeptOctaveTones(bases, octave + 1);
    assert OctaveOffsets[0] == -1 && OctaveOffsets[1] == 0 && OctaveOffsets[2] == 1;
    assert ChordTonesThrough(bases, octave, 0) == [];
    var one := ChordTonesThrough(bases, octave, 1);
    assert one == [] + below == below;
    var two := ChordTonesThrough(bases, octave, 2);
    assert two == one + here;
    assert ChordTonesThrough(bases, octave, 3) == below + here + above;
  }

  /** The chord-tone options of a step whose chord is `chord`. */
  function ChordToneOptions(chord: string, rootNote: string, octave: int): seq<string> {
    if chord == "" then [] else ChordTonesThrough(NotesFromChord(chord, rootNote), octave, 3)
  }

  /** The outer `forEach` over the octave offsets. */
  method PushChordTones(bases: seq<string>, octave: int) returns (options: seq<string>)
    ensures options == ChordTonesThrough(bases, octave, 3)
  {
    options := [];
    for k := 0 to |OctaveOffsets|
      invariant options == ChordTonesThrough(bases, octave, k)
    {
      var currentOctave := octave + OctaveOffsets[k];
      if 0 <= currentOctave <= 5 {
        options := PushRow(options, bases, currentOctave);
      }
    }
  }

  /** `chordToneOptions` in `renderStep`: nothing for a blank chord,
      otherwise the chord's notes pushed octave by octave. */
  method BuildChordToneOptions(chord: string, rootNote: string, octave: int) returns (options: seq<string>)
    ensures options == ChordToneOptions(chord, rootNote, octave)
  {
    options := [];
    if chord != "" {
      var chordNoteBases := NotesFromChord(chord, rootNote);
      options := PushChordTones(chordNoteBases, octave);
    }
  }

  /** `name` is a chord note in `octave`, and that octave lies in 0..5. */
  predicate ToneInKeptOctave(name: string, bases: seq<string>, octave: int) {
    0 <= octave <= 5 && name in OctaveRow(bases, octave)
  }

  /** The chord tones offered are the chord's notes in the octave below, the
      current octave and the octave above, each kept only within 0..5; a
      blank chord offers none. */
  lemma ChordToneOptionsMembers(chord: string, rootNote: string, octave: int, n: string)
    ensures var bases := NotesFromChord(chord, rootNote);
      n in ChordToneOptions(chord, rootNote, octave) <==>
        && chord != ""
        && (|| ToneInKeptOctave(n, bases, octave - 1)
            || ToneInKeptOctave(n, bases, octave)
            || ToneInKeptOctave(n, bases, octave + 1))
  {
    if chord != "" {
      ThreeOctaves(NotesFromChord(chord, rootNote), octave);
    }
  }

  /** Each chord tone in a kept octave is the chord note followed by that
      octave's numeral. */
  lemma ToneInKeptOctaveShape(name: string, bases: seq<string>, octave: int)
    ensures ToneInKeptOctave(name, bases, octave) <==>
      0 <= octave <= 5 && exists j :: 0 <= j < |bases| && name == bases[j] + IntToString(octave)
  {
    if 0 <= octave <= 5 && exists j :: 0 <= j < |bases| && name == bases[j] + IntToString(octave) {
      var j :| 0 <= j < |bases| && name == bases[j] + IntToString(octave);
      assert OctaveRow(bases, octave)[j] == name;
    }
  }

  /** The chord-tone options `renderStep` builds for step `index`: the step
      uses chord slot `index / 4`, and a slot past the end of `chords` is
      undefined and offers nothing. */
  function StepChordToneOptions(index: nat, chords: seq<string>, rootNote: string, octave: int): (options: seq<string>)
    ensures index / 4 < |chords| ==> options == ChordToneOptions(chords[index / 4], rootNote, octave)
    ensures index / 4 >= |chords| ==> options == []
    ensures options != [] ==> index / 4 < |chords| && chords[index / 4] != ""
  {
    ChordToneOptions(ChordForStep(chords, index), rootNote, octave)
  }

  /** `uniqueChordTones`: the chord tones without repeats, first occurrence
      first. */
  function UniqueChordTones(chord: string, rootNote: string, octave: int): (tones: seq<string>)
    ensures NoDuplicates(tones)
    ensures forall n :: n in tones <==> n in ChordToneOptions(chord, rootNote, octave)
  {
    Dedup(ChordToneOptions(chord, rootNote, octave))
  }

  /** `scaleToneOptions`: the palette notes that are not chord tones. */
  function ScaleToneOptions(playableNotes: seq<string>, uniqueChordTones: seq<string>): (options: seq<string>)
    ensures forall n :: n in options <==> n in playableNotes && n !in uniqueChordTones
  {
    Filter(playableNotes, n => n !in uniqueChordTones)
  }

  /** The scale tones keep the palette's order and repeats: the palette's
      notes in turn, each kept exactly when it is not a chord tone. */
  lemma ScaleToneOptionsInOrder(playableNotes: seq<string>, more: seq<string>, uniqueChordTones: seq<string>, n: string)
    ensures ScaleToneOptions(playableNotes + more, uniqueChordTones)
      == ScaleToneOptions(playableNotes, uniqueChordTones) + ScaleToneOptions(more, uniqueChordTones)
    ensures ScaleToneOptions([n], uniqueChordTones) == if n in uniqueChordTones then [] else [n]
  {
    FilterAppend(playableNotes, more, m => m !in uniqueChordTones);
    FilterSingleton(n, m => m !in uniqueChordTones);
  }

  /** Every palette note is offered exactly once across the two groups of
      the note menu, and a step without a usable chord offers the whole
      palette and no chord tones. */
  lemma NoteMenuPartition(chord: string, rootNote: string, octave: int, playableNotes: seq<string>)
    ensures var unique := UniqueChordTones(chord, rootNote, octave);
      var scale := ScaleToneOptions(playableNotes, unique);
      && (forall n :: n in playableNotes ==> (n in unique <==> n !in scale))
      && (forall n :: n in scale ==> n in playableNotes)
      && (chord == "" || NoteIndicesFromChord(chord) == [] ==> unique == [] && scale == playableNotes)
  {
    var unique := UniqueChordTones(chord, rootNote, octave);
    if chord == "" || NoteIndicesFromChord(chord) == [] {
      NotesFromChordSpec(chord, rootNote);
      ThreeOctaves(NotesFromChord(chord, rootNote), octave);
      assert NotesFromChord(chord, rootNote) == [];
      assert ChordToneOptions(chord, rootNote, octave) == [];
      assert unique == [];
      FilterKeepingAll(playableNotes, n => n !in unique);
    }
  }

  // ---------------------------------------------------------------------
  // Note menu

  /** The menu's value: `REST` is a rest, anything else a note name. */
  function SelectedNote(value: string): (note: Option<string>)
    ensures note.None? <==> value == "REST"
    ensures note.Some? ==> note.value == value
  {
    if value == "REST" then None else Some(value)
  }

  /** Picking from the note menu of a sounding step keeps the step valid: a
      rest silences it, a note keeps it sounding at its own gate. */
  lemma MenuChoiceKeepsStepValid(step: SequenceStep, value: string)
    requires StepValid(step) && step.active && step.gate >= 0.0
    ensures var r := NoteChangedStep(step, SelectedNote(value));
      && StepValid(r)
      && (r.active <==> value != "REST")
      && (r.active ==> r.gate == step.gate && r.note == Some(value))
  {
  }
}
