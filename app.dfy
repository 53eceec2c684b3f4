/** The editor state of the application and its handlers: the default
    progression, the negative-harmony display, toggling a step, changing a
    step's note or gate, re-rhythming on a pulse change and randomizing the
    bass line. `Math.random` draws are parameters in [0, 1), except the
    root-note draws of a pulse change, which are only compared against
    `newPulses / 16` and may be any real. */
module App {
  import opened Lists
  import opened Strings
  import opened Types
  import opened Rhythm
  import opened MusicTheory

  /** Gate given to a step that starts sounding. */
  const DefaultGate: real := 0.8

  /** The octaves of the playable-note palette. */
  const PaletteOctaves: seq<int> := [0, 1, 2, 3, 4]

  /** The palette of the app: the playable notes of the key in octaves 0 to
      4, one row of the key's scale names per octave. */
  function AppPlayableNotes(rootNote: string): (notes: seq<string>)
    ensures |notes| == 5 * |SortChromatic(ScaleNamesUnion(rootNote))|
  {
    PlayableNotesLength(rootNote, PaletteOctaves);
    PlayableNotes(rootNote, PaletteOctaves)
  }

  /** An empty step at position `i`, numbered `i + 1`. */
  function RestStep(i: int): SequenceStep {
    SequenceStep(i + 1, None, false, 0.0)
  }

  /** `defaultSequence`: four blank chord slots and sixteen silent steps. */
  const DefaultProgression: Progression :=
    Progression(["", "", "", ""], seq(16, i => RestStep(i)))

  /** `chords.every(c => c === '')`. */
  predicate AllBlank(chords: seq<string>) {
    forall i :: 0 <= i < |chords| ==> chords[i] == ""
  }

  /** The default progression has four blank chords and sixteen steps
      numbered 1 to 16, all silent, so it counts as empty and satisfies the
      step invariant. */
  lemma DefaultProgressionShape()
    ensures |DefaultProgression.chords| == 4 && AllBlank(DefaultProgression.chords)
    ensures |DefaultProgression.sequence| == 16
    ensures forall i :: 0 <= i < 16 ==>
      var s := DefaultProgression.sequence[i];
      s.step == i + 1 && s.note == None && !s.active && s.gate == 0.0
    ensures AllStepsValid(DefaultProgression.sequence)
    ensures CountActive(DefaultProgression.sequence) == 0
  {
    NoneActive(DefaultProgression.sequence);
  }

  lemma {:induction false} NoneActive(steps: seq<SequenceStep>)
    requires forall i :: 0 <= i < |steps| ==> !steps[i].active
    ensures CountActive(steps) == 0
  {
    if steps != [] {
      NoneActive(steps[..|steps| - 1]);
    }
  }

  // ---------------------------------------------------------------------
  // Display

  /** The display effect: with negative harmony on, the source's sequence
      and chords mirrored about the key; with it off, the source itself. */
  function DisplayProgression(source: Progression, useNegativeHarmony: bool, rootNote: string): (display: Progression)
    ensures !useNegativeHarmony ==> display == source
    ensures |display.chords| == |source.chords| && |display.sequence| == |source.sequence|
    ensures useNegativeHarmony ==>
      && display.chords == ApplyNegativeHarmonyToChords(source.chords, rootNote)
      && display.sequence == ApplyNegativeHarmonyToSequence(source.sequence, rootNote)
  {
    if useNegativeHarmony then
      Progression(ApplyNegativeHarmonyToChords(source.chords, rootNote),
                  ApplyNegativeHarmonyToSequence(source.sequence, rootNote))
    else source
  }

  /** Blank source chords stay blank on display, and the default progression
      is displayed as it is, mirrored or not. */
  lemma DisplayOfBlank(source: Progression, useNegativeHarmony: bool, rootNote: string)
    ensures AllBlank(source.chords) ==> AllBlank(DisplayProgression(source, useNegativeHarmony, rootNote).chords)
    ensures DisplayProgression(DefaultProgression, useNegativeHarmony, rootNote) == DefaultProgression
  {
    var d := DisplayProgression(DefaultProgression, useNegativeHarmony, rootNote);
    if useNegativeHarmony {
      assert d.chords == DefaultProgression.chords;
      assert d.sequence == DefaultProgression.sequence;
    }
  }

  // ---------------------------------------------------------------------
  // One-step edits

  /** `${rootNote}${octave}`. */
  function RootNoteAt(rootNote: string, octave: int): string {
    rootNote + IntToString(octave)
  }

  /** The step after a click: an active step falls silent, a silent one
      plays the root in the current octave with the default gate. */
  function ToggledStep(step: SequenceStep, rootNote: string, octave: int): (r: SequenceStep)
    ensures r.step == step.step && r.active == !step.active
    ensures StepValid(r)
    ensures r.active ==> r.note == Some(RootNoteAt(rootNote, octave)) && r.gate == DefaultGate
  {
    if step.active then step.(active := false, note := None, gate := 0.0)
    else step.(active := true, note := Some(RootNoteAt(rootNote, octave)), gate := DefaultGate)
  }

  /** Toggling a silent step with gate 0 twice gives it back. */
  lemma ToggleTwiceRestores(step: SequenceStep, rootNote: string, octave: int)
    requires !step.active && step.note == None && step.gate == 0.0
    ensures ToggledStep(ToggledStep(step, rootNote, octave), rootNote, octave) == step
  {
  }

  /** The step after choosing `newNote` (`None` for `REST`): a rest silences
      it; a note makes it sound, with the default gate if its gate was 0 and
      its own gate otherwise. */
  function NoteChangedStep(step: SequenceStep, newNote: Option<string>): (r: SequenceStep)
    ensures r.step == step.step && r.note == newNote && r.active == newNote.Some?
    ensures newNote.None? ==> r.gate == 0.0
    ensures newNote.Some? ==> r.gate == if step.gate == 0.0 then DefaultGate else step.gate
    ensures step.gate >= 0.0 ==> StepValid(r)
  {
    if newNote.None? then step.(active := false, note := None, gate := 0.0)
    else step.(active := true, note := newNote, gate := if step.gate == 0.0 then DefaultGate else step.gate)
  }

  /** Choosing a rest is the same as clicking an active step, and choosing
      the root note on a silent step with gate 0 is the same as clicking it. */
  lemma NoteChangeAgreesWithToggle(step: SequenceStep, rootNote: string, octave: int)
    ensures step.active ==> NoteChangedStep(step, None) == ToggledStep(step, rootNote, octave)
    ensures !step.active && step.gate == 0.0 ==>
      NoteChangedStep(step, Some(RootNoteAt(rootNote, octave))) == ToggledStep(step, rootNote, octave)
  {
  }

  /** The step after moving its gate fader: only the gate changes, without
      clamping. */
  function GateChangedStep(step: SequenceStep, newGate: real): (r: SequenceStep)
    ensures r.step == step.step && r.note == step.note && r.active == step.active && r.gate == newGate
  {
    step.(gate := newGate)
  }

  /** A gate change keeps an active valid step valid exactly when the new
      gate is positive; the fader's range starts at 0.1. */
  lemma GateChangeValidity(step: SequenceStep, newGate: real)
    requires StepValid(step) && step.active
    ensures StepValid(GateChangedStep(step, newGate)) <==> newGate > 0.0
    ensures 0.1 <= newGate ==> StepValid(GateChangedStep(step, newGate))
  {
  }

  /** Replacing one step changes the active count by that step's change. */
  lemma {:induction false} CountActiveUpdate(steps: seq<SequenceStep>, i: nat, s: SequenceStep)
    requires i < |steps|
    ensures CountActive(steps[i := s]) ==
      CountActive(steps) - (if steps[i].active then 1 else 0) + (if s.active then 1 else 0)
  {
    var n := |steps| - 1;
    var updated := steps[i := s];
    assert updated[..n] == if i < n then steps[..n][i := s] else steps[..n];
    if i < n {
      CountActiveUpdate(steps[..n], i, s);
    }
  }

  /** A click makes exactly one more or one fewer step sound. */
  lemma ToggleCount(steps: seq<SequenceStep>, i: nat, rootNote: string, octave: int)
    requires i < |steps|
    ensures var after := steps[i := ToggledStep(steps[i], rootNote, octave)];
      CountActive(after) == if steps[i].active then CountActive(steps) - 1 else CountActive(steps) + 1
  {
    CountActiveUpdate(steps, i, ToggledStep(steps[i], rootNote, octave));
  }

  // ---------------------------------------------------------------------
  // Pulse change

  /** `Math.floor(draw * n)`: an index below `n` for a draw in [0, 1). */
  function PickIndex(draw: real, n: nat): (k: nat)
    requires 0.0 <= draw < 1.0 && n > 0
    ensures k < n
  {
    assert draw * (n as real) < n as real;
    (draw * (n as real)).Floor
  }

  /** The notes of the palette in the given octave (ending in its numeral). */
  function NotesInOctave(playableNotes: seq<string>, octave: int): (notes: seq<string>)
    ensures forall n :: n in notes <==> n in playableNotes && EndsWith(n, IntToString(octave))
  {
    Filter(playableNotes, n => EndsWith(n, IntToString(octave)))
  }

  /** `pattern[index]`, which is `undefined` (false) past the end. */
  function PatternSlot(pattern: seq<bool>, i: nat): bool {
    i < |pattern| && pattern[i]
  }

  /** The note a newly sounding step gets: the root with probability
      `newPulses / 16`, otherwise a palette note of the octave; the root when
      the octave has no palette notes. */
  function NewStepNote(newPulses: int, rootNote: string, octave: int, notesInCurrentOctave: seq<string>,
                       rootDraw: real, pickDraw: real): (note: string)
    requires 0.0 <= pickDraw < 1.0
    ensures note == RootNoteAt(rootNote, octave) || note in notesInCurrentOctave
  {
    if |notesInCurrentOctave| > 0 then
      if rootDraw < (newPulses as real) / 16.0 then RootNoteAt(rootNote, octave)
      else notesInCurrentOctave[PickIndex(pickDraw, |notesInCurrentOctave|)]
    else RootNoteAt(rootNote, octave)
  }

  /** One step of the re-rhythm: off the pattern it falls silent; on the
      pattern it sounds, keeping its note and gate if it already did and
      getting a new note and the default gate otherwise. */
  function RepatternedStep(step: SequenceStep, isActive: bool, newPulses: int, rootNote: string, octave: int,
                           notesInCurrentOctave: seq<string>, rootDraw: real, pickDraw: real): (r: SequenceStep)
    requires 0.0 <= pickDraw < 1.0
    ensures r.step == step.step && r.active == isActive
    ensures !isActive ==> r.note == None && r.gate == 0.0
    ensures isActive && step.active ==> r == step
    ensures isActive && !step.active ==>
      && r.gate == DefaultGate
      && r.note.Some?
      && (r.note.value == RootNoteAt(rootNote, octave) || r.note.value in notesInCurrentOctave)
  {
    if isActive then
      if !step.active then
        step.(active := true, gate := DefaultGate,
              note := Some(NewStepNote(newPulses, rootNote, octave, notesInCurrentOctave, rootDraw, pickDraw)))
      else step.(active := true)
    else step.(active := false, note := None, gate := 0.0)
  }

  predicate DrawsInRange(draws: seq<real>) {
    forall i :: 0 <= i < |draws| ==> 0.0 <= draws[i] < 1.0
  }

  /** `handlePulsesChange(newPulses)` on the source progression: nothing
      changes while every chord is blank; otherwise each step follows the
      sixteen-step Euclidean pattern for `newPulses`. Step `i` uses the draws
      `rootDraws[i]` and `pickDraws[i]`. */
  function PulsesChanged(prev: Progression, newPulses: int, rootNote: string, octave: int,
                         playableNotes: seq<string>, rootDraws: seq<real>, pickDraws: seq<real>): (next: Progression)
    requires |rootDraws| == |prev.sequence| && |pickDraws| == |prev.sequence| && DrawsInRange(pickDraws)
    ensures AllBlank(prev.chords) ==> next == prev
    ensures next.chords == prev.chords && |next.sequence| == |prev.sequence|
    ensures !AllBlank(prev.chords) ==> forall i :: 0 <= i < |prev.sequence| ==>
      next.sequence[i] == RepatternedStep(prev.sequence[i], PatternSlot(EuclideanPattern(16, newPulses), i), newPulses,
                                          rootNote, octave, NotesInOctave(playableNotes, octave), rootDraws[i], pickDraws[i])
  {
    if AllBlank(prev.chords) then prev
    else
      var pattern := EuclideanPattern(16, newPulses);
      var notesInCurrentOctave := NotesInOctave(playableNotes, octave);
      prev.(sequence := seq(|prev.sequence|, i requires 0 <= i < |prev.sequence| =>
        RepatternedStep(prev.sequence[i], PatternSlot(pattern, i), newPulses, rootNote, octave,
                        notesInCurrentOctave, rootDraws[i], pickDraws[i])))
  }

  /** After a pulse change the steps sound exactly where the pattern says,
      every step still satisfies the step invariant if it did before, and a
      newly sounding step plays the root or a palette note of the octave. */
  lemma PulsesChangeSteps(prev: Progression, newPulses: int, rootNote: string, octave: int,
                          playableNotes: seq<string>, rootDraws: seq<real>, pickDraws: seq<real>)
    requires |rootDraws| == |prev.sequence| && |pickDraws| == |prev.sequence| && DrawsInRange(pickDraws)
    requires !AllBlank(prev.chords)
    ensures var next := PulsesChanged(prev, newPulses, rootNote, octave, playableNotes, rootDraws, pickDraws);
      && (forall i :: 0 <= i < |prev.sequence| ==> next.sequence[i].active == PatternSlot(EuclideanPattern(16, newPulses), i))
      && (AllStepsValid(prev.sequence) ==> AllStepsValid(next.sequence))
      && (forall i :: 0 <= i < |prev.sequence| && next.sequence[i].active && !prev.sequence[i].active ==>
            && next.sequence[i].note.Some?
            && (next.sequence[i].note.value == RootNoteAt(rootNote, octave) ||
                (next.sequence[i].note.value in playableNotes &&
                 EndsWith(next.sequence[i].note.value, IntToString(octave)))))
  {
  }

  /** The active count of a sequence is the number of `true`s in its
      activity flags. */
  lemma {:induction false} CountActiveIsCountTrue(steps: seq<SequenceStep>, flags: seq<bool>)
    requires |flags| == |steps| && forall i :: 0 <= i < |steps| ==> steps[i].active == flags[i]
    ensures CountActive(steps) == CountTrue(flags)
  {
    if steps != [] {
      CountActiveIsCountTrue(steps[..|steps| - 1], flags[..|flags| - 1]);
    }
  }

  /** On a sixteen-step progression with some chord, a pulse change to `n`
      in 0..16 leaves exactly `n` steps sounding. */
  lemma PulsesChangeCount(prev: Progression, newPulses: int, rootNote: string, octave: int,
                          playableNotes: seq<string>, rootDraws: seq<real>, pickDraws: seq<real>)
    requires |rootDraws| == |prev.sequence| && |pickDraws| == |prev.sequence| && DrawsInRange(pickDraws)
    requires !AllBlank(prev.chords) && |prev.sequence| == 16 && 0 <= newPulses <= 16
    ensures CountActive(PulsesChanged(prev, newPulses, rootNote, octave, playableNotes, rootDraws, pickDraws).sequence) == newPulses
  {
    var next := PulsesChanged(prev, newPulses, rootNote, octave, playableNotes, rootDraws, pickDraws);
    var pattern := EuclideanPattern(16, newPulses);
    CountActiveIsCountTrue(next.sequence, pattern);
    PulseCount(16, newPulses);
  }

  // ---------------------------------------------------------------------
  // Randomize

  /** `Math.floor(draw * 9) + 5`. */
  function RandomPulses(draw: real): (n: int)
    requires 0.0 <= draw < 1.0
    ensures 5 <= n <= 13
  {
    PickIndex(draw, 9) + 5
  }

  /** `0.6 + draw * 0.4`. */
  function RandomGate(draw: real): (gate: real)
    requires 0.0 <= draw < 1.0
    ensures 0.6 <= gate < 1.0
  {
    0.6 + draw * 0.4
  }

  /** The chord of step `i` (`chords[Math.floor(i / 4)]`), blank when the slot
      does not exist. */
  function ChordForStep(chords: seq<string>, i: nat): (chord: string)
    ensures i / 4 < |chords| ==> chord == chords[i / 4]
    ensures i / 4 >= |chords| ==> chord == ""
  {
    if i / 4 < |chords| then chords[i / 4] else ""
  }

  /** Step `i` of a randomized sequence: sounding when the pattern says so
      and the step's chord has a triad, playing one triad note in the
      current octave. */
  function RandomStep(i: nat, isActive: bool, displayChords: seq<string>, rootNote: string, octave: int,
                      noteDraw: real, gateDraw: real): (s: SequenceStep)
    requires 0.0 <= noteDraw < 1.0 && 0.0 <= gateDraw < 1.0
    ensures s.step == i + 1 && StepValid(s)
    ensures !s.active ==> s == RestStep(i)
    ensures s.active <==> isActive && NotesFromChord(ChordForStep(displayChords, i), rootNote) != []
    ensures s.active ==>
      && 0.6 <= s.gate < 1.0
      && exists n :: n in NotesFromChord(ChordForStep(displayChords, i), rootNote) && s.note == Some(n + IntToString(octave))
  {
    var currentChord := ChordForStep(displayChords, i);
    if isActive && currentChord != "" then
      var chordNotes := NotesFromChord(currentChord, rootNote);
      if |chordNotes| > 0 then
        var randomNoteBase := chordNotes[PickIndex(noteDraw, |chordNotes|)];
        SequenceStep(i + 1, Some(randomNoteBase + IntToString(octave)), true, RandomGate(gateDraw))
      else RestStep(i)
    else
      assert currentChord == "" ==> NotesFromChord(currentChord, rootNote) == [];
      RestStep(i)
  }

  /** `handleRandomizeSequence` on the source progression: nothing changes
      when the source or the displayed chords are all blank; otherwise the
      chords are kept and the sixteen steps are rebuilt from a Euclidean
      pattern with 5 to 13 pulses. */
  function Randomized(source: Progression, displayChords: seq<string>, rootNote: string, octave: int,
                      pulsesDraw: real, noteDraws: seq<real>, gateDraws: seq<real>): (next: Progression)
    requires 0.0 <= pulsesDraw < 1.0
    requires |noteDraws| == 16 && |gateDraws| == 16 && DrawsInRange(noteDraws) && DrawsInRange(gateDraws)
    ensures AllBlank(source.chords) || AllBlank(displayChords) ==> next == source
    ensures !AllBlank(source.chords) && !AllBlank(displayChords) ==>
      && next.chords == source.chords
      && |next.sequence| == 16
      && forall i :: 0 <= i < 16 ==>
           next.sequence[i] == RandomStep(i, EuclideanPattern(16, RandomPulses(pulsesDraw))[i], displayChords,
                                          rootNote, octave, noteDraws[i], gateDraws[i])
  {
    if AllBlank(source.chords) || AllBlank(displayChords) then source
    else
      var rhythmPattern := EuclideanPattern(16, RandomPulses(pulsesDraw));
      Progression(source.chords, seq(16, i requires 0 <= i < 16 =>
        RandomStep(i, rhythmPattern[i], displayChords, rootNote, octave, noteDraws[i], gateDraws[i])))
  }

  /** A randomized sequence satisfies the step invariant, numbers its steps
      1 to 16, and sounds at most as many steps as its pattern has pulses,
      each on a triad note of its chord. */
  lemma RandomizedSteps(source: Progression, displayChords: seq<string>, rootNote: string, octave: int,
                        pulsesDraw: real, noteDraws: seq<real>, gateDraws: seq<real>)
    requires 0.0 <= pulsesDraw < 1.0
    requires |noteDraws| == 16 && |gateDraws| == 16 && DrawsInRange(noteDraws) && DrawsInRange(gateDraws)
    requires !AllBlank(source.chords) && !AllBlank(displayChords)
    ensures var next := Randomized(source, displayChords, rootNote, octave, pulsesDraw, noteDraws, gateDraws);
      && AllStepsValid(next.sequence)
      && (forall i :: 0 <= i < 16 ==> next.sequence[i].step == i + 1)
      && (forall i :: 0 <= i < 16 && !next.sequence[i].active ==> next.sequence[i] == RestStep(i))
      && CountActive(next.sequence) <= RandomPulses(pulsesDraw)
  {
    var next := Randomized(source, displayChords, rootNote, octave, pulsesDraw, noteDraws, gateDraws);
    var n := RandomPulses(pulsesDraw);
    var pattern := EuclideanPattern(16, n);
    var flags := seq(16, i requires 0 <= i < 16 => next.sequence[i].active);
    CountActiveIsCountTrue(next.sequence, flags);
    CountTrueMonotone(flags, pattern);
    PulseCount(16, n);
  }

  /** Turning some `true`s off does not raise the count. */
  lemma {:induction false} CountTrueMonotone(a: seq<bool>, b: seq<bool>)
    requires |a| == |b| && forall i :: 0 <= i < |a| && a[i] ==> b[i]
    ensures CountTrue(a) <= CountTrue(b)
  {
    if a != [] {
      CountTrueMonotone(a[..|a| - 1], b[..|b| - 1]);
    }
  }

  // ---------------------------------------------------------------------
  // The editor state

  /** The source progression the handlers edit and the progression on
      display. */
  class Editor {
    var sourceProgression: Progression
    var displayProgression: Progression

    constructor ()
      ensures sourceProgression == DefaultProgression && displayProgression == DefaultProgression
    {
      sourceProgression := DefaultProgression;
      displayProgression := DefaultProgression;
    }

    /** `isProgressionEmpty`. */
    predicate IsProgressionEmpty()
      reads this
    {
      AllBlank(sourceProgression.chords)
    }

    /** The display effect: recomputes the display from the source and
      leaves the source alone. */
    method RefreshDisplay(useNegativeHarmony: bool, rootNote: string)
      modifies this
      ensures sourceProgression == old(sourceProgression)
      ensures displayProgression == DisplayProgression(sourceProgression, useNegativeHarmony, rootNote)
    {
      if useNegativeHarmony {
        var negativeSequence := ApplyNegativeHarmonyToSequence(sourceProgression.sequence, rootNote);
        var negativeChords := ApplyNegativeHarmonyToChords(sourceProgression.chords, rootNote);
        displayProgression := Progression(negativeChords, negativeSequence);
      } else {
        displayProgression := sourceProgression;
      }
    }

    /** `handleStepClick(stepIndex)`: copy the step, flip it field by field,
      store it back. */
    method StepClick(stepIndex: nat, rootNote: string, octave: int)
      requires stepIndex < |sourceProgression.sequence|
      modifies this
      ensures displayProgression == old(displayProgression)
      ensures sourceProgression == old(sourceProgression).(sequence :=
        old(sourceProgression.sequence)[stepIndex := ToggledStep(old(sourceProgression.sequence)[stepIndex], rootNote, octave)])
    {
      var newSequence := sourceProgression.sequence;
      var step := newSequence[stepIndex];
      if step.active {
        step := step.(active := false);
        step := step.(note := None);
        step := step.(gate := 0.0);
      } else {
        step := step.(active := true);
        step := step.(note := Some(RootNoteAt(rootNote, octave)));
        step := step.(gate := DefaultGate);
      }
      newSequence := newSequence[stepIndex := step];
      sourceProgression := sourceProgression.(sequence := newSequence);
    }

    /** `handleNoteChange(stepIndex, newNote)`. */
    method NoteChange(stepIndex: nat, newNote: Option<string>)
      requires stepIndex < |sourceProgression.sequence|
      modifies this
      ensures displayProgression == old(displayProgression)
      ensures sourceProgression == old(sourceProgression).(sequence :=
        old(sourceProgression.sequence)[stepIndex := NoteChangedStep(old(sourceProgression.sequence)[stepIndex], newNote)])
    {
      var newSequence := sourceProgression.sequence;
      var step := newSequence[stepIndex];
      if newNote.None? {
        step := step.(active := false);
        step := step.(note := None);
        step := step.(gate := 0.0);
      } else {
        step := step.(active := true);
        step := step.(note := newNote);
        if step.gate == 0.0 {
          step := step.(gate := DefaultGate);
        }
      }
      newSequence := newSequence[stepIndex := step];
      sourceProgression := sourceProgression.(sequence := newSequence);
    }

    /** `handleGateChange(stepIndex, newGate)`. */
    method GateChange(stepIndex: nat, newGate: real)
      requires stepIndex < |sourceProgression.sequence|
      modifies this
      ensures displayProgression == old(displayProgression)
      ensures sourceProgression == old(sourceProgression).(sequence :=
        old(sourceProgression.sequence)[stepIndex := GateChangedStep(old(sourceProgression.sequence)[stepIndex], newGate)])
    {
      var newSequence := sourceProgression.sequence;
      var step := newSequence[stepIndex];
      step := step.(gate := newGate);
      newSequence := newSequence[stepIndex := step];
      sourceProgression := sourceProgression.(sequence := newSequence);
    }

    /** `handlePulsesChange(newPulses)`. */
    method PulsesChange(newPulses: int, rootNote: string, octave: int, playableNotes: seq<string>,
                        rootDraws: seq<real>, pickDraws: seq<real>)
      requires |rootDraws| == |sourceProgression.sequence| && |pickDraws| == |sourceProgression.sequence|
      requires DrawsInRange(pickDraws)
      requires playableNotes == AppPlayableNotes(rootNote)
      modifies this
      ensures displayProgression == old(displayProgression)
      ensures sourceProgression ==
        PulsesChanged(old(sourceProgression), newPulses, rootNote, octave, playableNotes, rootDraws, pickDraws)
    {
      if AllBlank(sourceProgression.chords) {
        return;
      }
      sourceProgression :=
        PulsesChanged(sourceProgression, newPulses, rootNote, octave, playableNotes, rootDraws, pickDraws);
    }

    /** `handleRandomizeSequence`, reading the chords on display. */
    method RandomizeSequence(rootNote: string, octave: int, pulsesDraw: real, noteDraws: seq<real>, gateDraws: seq<real>)
      requires 0.0 <= pulsesDraw < 1.0
      requires |noteDraws| == 16 && |gateDraws| == 16 && DrawsInRange(noteDraws) && DrawsInRange(gateDraws)
      modifies this
      ensures displayProgression == old(displayProgression)
      ensures sourceProgression == Randomized(old(sourceProgression), displayProgression.chords, rootNote, octave,
                                              pulsesDraw, noteDraws, gateDraws)
    {
      if IsProgressionEmpty() || AllBlank(displayProgression.chords) {
        return;
      }
      sourceProgression :=
        Randomized(sourceProgression, displayProgression.chords, rootNote, octave, pulsesDraw, noteDraws, gateDraws);
    }
  }
}
