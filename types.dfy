/** The record shapes shared by the editor, the sequencer view and the
    music-theory helpers (`SequenceStep` and `ChordProgressionResponse`). */
module Types {
  import opened Lists

  /** One step of the 16-step pattern: its 1-based position, the note it
      plays (`null` when silent), whether it sounds, and its gate length. */
  datatype SequenceStep = SequenceStep(step: int, note: Option<string>, active: bool, gate: real)

  /** A chord progression with its bass line: the chord slots (the empty
      string marks a blank slot) and the steps. */
  datatype Progression = Progression(chords: seq<string>, sequence: seq<SequenceStep>)

  /** The step invariant: a step is active exactly when it has a note, and
      exactly when its gate is positive. */
  predicate StepValid(s: SequenceStep) {
    s.active == s.note.Some? && s.note.Some? == (s.gate > 0.0)
  }

  predicate AllStepsValid(steps: seq<SequenceStep>) {
    forall i :: 0 <= i < |steps| ==> StepValid(steps[i])
  }

  /** Number of active steps. */
  function CountActive(steps: seq<SequenceStep>): nat {
    if steps == [] then 0
    else CountActive(steps[..|steps| - 1]) + (if steps[|steps| - 1].active then 1 else 0)
  }
}
