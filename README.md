# Luthier bass sequencer: a verified model of the editing core

Luthier is a browser bass-line sequencer. The user picks a key, the app obtains
a four-chord progression, and sixteen steps play a bass line over it. Each step
is one record: its number, the note it plays (`null` when silent), whether it
is active, and its gate length. This project models in Dafny the logic behind
that screen and proves its properties:

- **`Rhythm`** (`utils/rhythm.ts`): the Euclidean pattern generator. It is an
  accumulator loop, proved equal to a closed form. The proofs cover the exact
  pulse count, the edge cases, and where the first onset falls.
- **`MusicTheory`** (`utils/musicTheory.ts`):
  - the note-name tables and the sharp/flat spelling rule;
  - scales and the playable-note palette (de-duplicated, chromatically
    sorted, then expanded over octaves);
  - chord triads;
  - best-fit scale detection (24 candidates scanned in order, the first
    highest score wins);
  - the negative-harmony mirror of notes, steps and chords about the
    tonic–dominant axis.
- **`App`** (`App.tsx`): the default progression, the display derived from the
  source progression, and the step-editing handlers (click, note change, gate
  change, pulse change, randomize). They appear as pure functions with their
  properties, and as the imperative methods of an `Editor` class whose fields
  are the source and display progressions.
- **`Sequencer`** (`components/Sequencer.tsx`):
  - the CSS classes of a step;
  - the chord-tone options offered for a sounding step (three octaves,
    clipped to 0..5, pushed by nested loops);
  - the scale-tone options;
  - the meaning of the note menu's `REST` entry.
- **`Types`** (`types.ts`): the `SequenceStep` and progression records. It
  also holds the step invariant the handlers keep: a step is active exactly
  when it has a note, exactly when its gate is positive.
- **`Lists`, `Strings`**: the JavaScript array and string operations the
  source relies on. These are `new Set` de-duplication, `filter`, lower-casing,
  replacing the first match, `endsWith`, splitting off trailing octave digits,
  and number formatting.

`Math.random()` draws become parameters: reals in [0, 1), one per step where
the source draws. The root-note draws of a pulse change (`rootDraws`) are only
compared against `newPulses / 16`, so the model accepts any real there; this
covers the [0, 1) case and more.

The accumulator loop in `utils/rhythm.ts` places its first onset on slot
`ceil(steps / pulses) - 1`, not on slot 0 as rotations that start on the
downbeat do; for 16 steps and 4 pulses it sounds on slots 3, 7, 11 and 15
(`Rhythm.FirstOnset`, `Rhythm.FourOverSixteen`).

## Model

| member | source | states |
|---|---|---|
| Rhythm.EuclideanPattern | utils/rhythm.ts:8-28 | the pattern always has `steps` slots |
| Rhythm.GenerateEuclideanPattern | utils/rhythm.ts:8-28 | the accumulator loop returns exactly the closed-form pattern: all rests outside 0 <= pulses <= steps, all onsets when pulses == steps, otherwise slot i sounds iff a multiple of `steps` is crossed between i*pulses and (i+1)*pulses |
| Rhythm.AccumulatorStep | utils/rhythm.ts:18-26 | one accumulator step wraps exactly when the slot is an onset, and the accumulator stays (i*pulses) mod steps |
| Rhythm.OnsetsInPrefix | utils/rhythm.ts:16-27 | the first k slots hold floor(k*pulses/steps) onsets |
| Rhythm.PulseCount | utils/rhythm.ts:8-28 | for 0 <= pulses <= steps the pattern has exactly `pulses` onsets |
| Rhythm.EdgeCases | utils/rhythm.ts:9-14 | negative or too many pulses give no onsets; pulses == steps sounds everywhere |
| Rhythm.FirstRestLastOnset | utils/rhythm.ts:16-27 | with 0 < pulses < steps the first slot is a rest and the last an onset |
| Rhythm.OnsetAtCeiling | utils/rhythm.ts:18-26 | slot ceil(steps/pulses)-1 is an onset |
| Rhythm.RestsBeforeCeiling | utils/rhythm.ts:18-26 | every slot before ceil(steps/pulses)-1 is a rest |
| Rhythm.FirstOnset | utils/rhythm.ts:16-27 | the first onset is slot ceil(steps/pulses)-1, every earlier slot a rest |
| Rhythm.FourOverSixteen | utils/rhythm.ts:8-28 | (16, 4) sounds on slots 3, 7, 11, 15 |
| Rhythm.EightOverSixteen | utils/rhythm.ts:8-28 | (16, 8) sounds on every odd slot |
| Lists.Dedup | utils/musicTheory.ts:77 | `[...new Set(xs)]`: same elements, no duplicates, no longer than the input |
| Lists.DedupKeepsFirstOccurrenceOrder | utils/musicTheory.ts:77 | the de-duplicated list keeps elements in order of first occurrence |
| Lists.Filter | components/Sequencer.tsx:70 | `filter`: an element is kept iff it is in the input and satisfies the predicate |
| Lists.FilterAppend | components/Sequencer.tsx:70 | `filter` keeps order: filtering a concatenation is the concatenation of the filtered parts |
| Lists.FilterSingleton | components/Sequencer.tsx:70 | `filter` on one element keeps it exactly when the predicate holds |
| Lists.FilterKeepingAll | components/Sequencer.tsx:70 | filtering with a predicate every element satisfies returns the list unchanged |
| Strings.ToLower | utils/musicTheory.ts:39 | lower-casing maps each character and keeps the length |
| Strings.ReplaceFirstChar | utils/musicTheory.ts:264 | replacing a one-character pattern rewrites its first occurrence only, and leaves a string without it unchanged |
| Strings.TrailingDigits | utils/musicTheory.ts:245-246 | the `\d+$` match is a maximal all-digit suffix |
| Strings.WithoutTrailingDigits | utils/musicTheory.ts:248 | the part before the digits, concatenated with them, is the original string, and it does not end in a digit |
| Strings.TrailingDigitsOfConcat | utils/musicTheory.ts:245-253 | splitting `base + digits` gives back `base` and `digits` when `base` does not end in a digit |
| MusicTheory.NoteToIndex | utils/musicTheory.ts:7-20 | `noteToIndex` is defined exactly on the 21 tokens `[A-G][#b]?` |
| MusicTheory.NoteToIndexTable | utils/musicTheory.ts:7-20 | every entry of the table, enharmonics included, and that other strings are absent |
| MusicTheory.NoteBase | utils/musicTheory.ts:40 | the `^[A-G][#b]?` match exists iff the string starts with A–G, and is a note token that prefixes the string |
| MusicTheory.SpellingTablesRoundTrip | utils/musicTheory.ts:3-20 | both spelling tables have 12 names, and name i of each maps back to index i |
| MusicTheory.TokenBase | utils/musicTheory.ts:40 | a token followed by text not starting with `#`/`b` is matched as that token |
| MusicTheory.TableEntryShape | utils/musicTheory.ts:3-4 | table names are note tokens that neither end in a digit nor contain `m` |
| MusicTheory.SanitizeRoot | utils/musicTheory.ts:39 | definition: first letter upper case, the rest lower case, the first `sharp` made `#` and the first `flat` made `b`; properties in SanitizeKeepsTokens and SanitizeExamples |
| MusicTheory.SanitizeKeepsTokens | utils/musicTheory.ts:39 | the root rewriting leaves note tokens unchanged |
| MusicTheory.SanitizeExamples | utils/musicTheory.ts:39-40 | `c#` becomes `C#`, `Bflat` becomes `Bb`, `fsharp` becomes `F#`, `h` has no note base |
| MusicTheory.TransposeUp | utils/musicTheory.ts:58 | `(p + interval) % 12` for 0 <= p + interval < 24 subtracts 12 at most once |
| MusicTheory.ScaleUsesFlats | utils/musicTheory.ts:50-53 | definition: the major or minor flat-key list by scale type, or a `b` in the root; used by NotesInScaleSpec |
| MusicTheory.NotesInScale | utils/musicTheory.ts:38-63 | definition of `getNotesInScale`; properties in NotesInScaleSpec |
| MusicTheory.NotesInScaleSpec | utils/musicTheory.ts:38-63 | an invalid root gives []; otherwise one name per interval, the root moved up by that interval and spelled from the flat table iff the key-signature rule says so |
| MusicTheory.TableIndex | utils/musicTheory.ts:3-20 | entry p of either table has index p |
| MusicTheory.InsertPosition | utils/musicTheory.ts:80-84 | the insertion point is after all smaller keys and before the first key not smaller |
| MusicTheory.InsertChromatic | utils/musicTheory.ts:80-84 | inserting keeps the list sorted, adds exactly the new name, and keeps it duplicate-free |
| MusicTheory.SortChromatic | utils/musicTheory.ts:80-84 | the chromatic sort is sorted by the base's table index (0 when it has none), a permutation of its input, and duplicate-free if the input is |
| MusicTheory.OctaveRow | utils/musicTheory.ts:93-95 | the names with one octave numeral appended, one for one |
| MusicTheory.NotesAcrossOctavesLength | utils/musicTheory.ts:91-96 | the palette has one entry per octave and name |
| MusicTheory.NotesAcrossOctavesAt | utils/musicTheory.ts:91-96 | entry o*n + j of the palette is name j followed by octave o |
| MusicTheory.GeneratePlayableNotes | utils/musicTheory.ts:72-99 | the method returns the specified palette |
| MusicTheory.EmitAcrossOctaves | utils/musicTheory.ts:91-98 | the nested `forEach` pushes exactly the octave-major palette |
| MusicTheory.PushRow | utils/musicTheory.ts:93-95 | the inner `forEach` appends exactly one row: each name followed by the octave |
| MusicTheory.PlayableNotes | utils/musicTheory.ts:72-99 | definition of `generatePlayableNotes`; properties in NotesAcrossOctavesAt, PlayableNotesLength and PlayableNotesOfInvalidRoot, and GeneratePlayableNotes is proved equal to it |
| MusicTheory.PaletteNames | utils/musicTheory.ts:73-84 | the sorted names are distinct, chromatically sorted, and exactly the names of the minor and major scales |
| MusicTheory.PlayableNotesLength | utils/musicTheory.ts:72-99 | the palette length is octaves times distinct scale names |
| MusicTheory.PlayableNotesOfInvalidRoot | utils/musicTheory.ts:72-89 | an unparseable root gives an empty palette |
| MusicTheory.NoteIndicesFromChord | utils/musicTheory.ts:107-126 | definition of `getNoteIndicesFromChord`; properties in ChordTriad and TriadIntervals |
| MusicTheory.ChordTriad | utils/musicTheory.ts:107-126 | a chord gives [] iff it has no note base; otherwise the triad on its root, minor iff `m` follows the root |
| MusicTheory.TriadIntervals | utils/musicTheory.ts:117-125 | a triad is root, third (3 or 4 semitones up) and fifth (7 up), modulo 12 |
| MusicTheory.ChordPitchClassesEmpty | utils/musicTheory.ts:136-141 | the progression's pitch-class set is empty iff no chord has a note base |
| MusicTheory.ScaleIndexSetMember | utils/musicTheory.ts:149 | every parseable scale name contributes its index to the scale's set |
| MusicTheory.CandidateScores | utils/musicTheory.ts:146-174 | 24 scores, one per candidate in trial order |
| MusicTheory.CandidateNames | utils/musicTheory.ts:146-163 | candidate c's scale names are the transposed intervals of its root |
| MusicTheory.CandidateScaleIndicesClosedForm | utils/musicTheory.ts:148-149 | a candidate's index set is its root moved by each interval |
| MusicTheory.MajorCandidateContainsRoot | utils/musicTheory.ts:148-149 | each major candidate contains its own root |
| MusicTheory.FirstArgMax | utils/musicTheory.ts:157-173 | the strict `>` scan picks a valid index |
| MusicTheory.FirstArgMaxIsFirstMaximum | utils/musicTheory.ts:157-173 | that index holds the maximum, and every earlier score is strictly smaller |
| MusicTheory.DetectedScale | utils/musicTheory.ts:133-185 | definition of what `detectScale` returns; properties in DetectedScaleIsBest and DetectedScaleAbsent, and DetectScale is proved equal to it |
| MusicTheory.DetectedScaleIsBest | utils/musicTheory.ts:133-185 | a detected scale is the first candidate with the highest score |
| MusicTheory.DetectedScaleAbsent | utils/musicTheory.ts:133-185 | `null` is returned iff no chord has a note base |
| MusicTheory.CountMatches | utils/musicTheory.ts:150-155 | the counting `forEach` returns the size of the intersection |
| MusicTheory.CollectPitchClasses | utils/musicTheory.ts:136-141 | the nested `forEach` collects exactly the triads' pitch classes |
| MusicTheory.DetectScale | utils/musicTheory.ts:133-185 | the imperative detection returns the specified scale |
| MusicTheory.ScanStateIsFirstArgMax | utils/musicTheory.ts:144-174 | after n candidates the running best is the first maximum among them |
| MusicTheory.ScanCandidates | utils/musicTheory.ts:143-174 | the loop over the twelve roots ends in the scan state after all 24 candidates |
| MusicTheory.TryRoot | utils/musicTheory.ts:147-173 | one loop iteration advances the scan by the major and the minor candidate |
| MusicTheory.CandidatesOfRoot | utils/musicTheory.ts:148-172 | candidates 2r and 2r+1 are root r's major and minor scale, named `<root> Major`/`<root> Minor` |
| MusicTheory.ScoresOfRoot | utils/musicTheory.ts:148-169 | their scores are the match counts of the loop body |
| MusicTheory.NoteArrayForKey | utils/musicTheory.ts:189-195 | the key's table is the flat or the sharp one |
| MusicTheory.NoteArrayForKeyUsesFlats | utils/musicTheory.ts:189-195 | flats exactly when the root token contains `b` or is in either flat-key list |
| MusicTheory.NotesFromChord | utils/musicTheory.ts:203-209 | definition of `getNotesFromChord`; properties in NotesFromChordSpec, SharpChordInFlatKey and MinorChordInKeyOfC |
| MusicTheory.NotesFromChordSpec | utils/musicTheory.ts:203-209 | no names iff no triad; otherwise three names from the key's table whose indices are the triad |
| MusicTheory.SharpChordInFlatKey | utils/musicTheory.ts:203-209 | `C#` in key C is spelled Db, F, Ab |
| MusicTheory.MinorChordInKeyOfC | utils/musicTheory.ts:203-209 | `Am` in key C is A, C, E |
| MusicTheory.MirrorInvolution | utils/musicTheory.ts:218-232 | reflecting a pitch class about the axis twice gives it back |
| MusicTheory.KeyRootBase | utils/musicTheory.ts:214 | the key root read for the mirror is always a note token (C by default) |
| MusicTheory.TransformNoteNegative | utils/musicTheory.ts:211-235 | the add-12 loop and modulo return the specified mirrored name |
| MusicTheory.MirroredNoteName | utils/musicTheory.ts:211-235 | definition of what `transformNoteNegative` returns; properties in MirroredNoteNameSpec and MirroredNoteNameInvolution, and TransformNoteNegative is proved equal to it |
| MusicTheory.MirroredNoteNameSpec | utils/musicTheory.ts:211-235 | empty or unparseable names come back unchanged; others become the key table's name of the reflected pitch class |
| MusicTheory.MirroredNoteNameInvolution | utils/musicTheory.ts:211-235 | mirroring twice restores the pitch class, and the name itself when it is spelled in the key's table |
| MusicTheory.TableEntryAtOwnIndex | utils/musicTheory.ts:3-4 | a table name sits at the position of its own index |
| MusicTheory.ApplyNegativeHarmonyToSequence | utils/musicTheory.ts:237-256 | same length; only notes change; steps without a sounding note pass through; a note stays a note |
| MusicTheory.MirrorNote | utils/musicTheory.ts:245-253 | definition: the pitch part mirrored, the trailing octave digits kept; properties in MirroredNoteKeepsOctave and MirrorNoteTwice |
| MusicTheory.MirrorStep | utils/musicTheory.ts:240-255 | definition: a silent or note-less step unchanged, otherwise its note mirrored; properties in ApplyNegativeHarmonyToSequence and MirrorStepTwice |
| MusicTheory.MirroredNoteKeepsOctave | utils/musicTheory.ts:245-253 | a mirrored note keeps its octave digits and carries the reflected pitch class |
| MusicTheory.MirrorNoteTwice | utils/musicTheory.ts:245-253 | mirroring a note twice restores its octave and pitch class, and the note itself when spelled in the key |
| MusicTheory.MirrorStepTwice | utils/musicTheory.ts:240-255 | the same for a step, whose other fields never change |
| MusicTheory.NegativeSequenceInvolution | utils/musicTheory.ts:237-256 | applying negative harmony twice restores every step whose note is spelled in the key |
| MusicTheory.ApplyNegativeHarmonyToChords | utils/musicTheory.ts:258-273 | same length, and blank chord slots stay blank |
| MusicTheory.MirrorChord | utils/musicTheory.ts:261-272 | definition: a blank chord unchanged, otherwise the root part (first `m` removed) mirrored and the quality flipped; properties in MirrorChordFlipsQuality, MirrorSpelledChord and MirrorChordInvolution |
| MusicTheory.MirrorChordFlipsQuality | utils/musicTheory.ts:261-272 | a parseable chord becomes the reflected root with the opposite quality, and its triad is the flipped triad |
| MusicTheory.MirrorSpelledChord | utils/musicTheory.ts:261-272 | a key-spelled chord with or without `m` maps to the mirrored root with the other suffix |
| MusicTheory.MirrorChordInvolution | utils/musicTheory.ts:258-273 | mirroring a key-spelled chord twice gives it back |
| MusicTheory.NegativeChordExample | utils/musicTheory.ts:258-273 | in key C, `Cm` becomes `G` |
| App.AppPlayableNotes | App.tsx:84-86 | the app's palette spans five octaves of the key's scale names |
| App.AllBlank | App.tsx:69 | definition of `chords.every(c => c === '')`; DefaultProgressionShape shows the default progression is blank, and PulsesChanged and Randomized leave a blank progression unchanged |
| App.DefaultProgressionShape | App.tsx:17-25 | four blank chords, sixteen silent steps numbered 1..16 with gate 0, all valid, none active |
| App.DisplayProgression | App.tsx:71-82 | off: the source itself; on: mirrored chords and sequence of the same lengths |
| App.DisplayOfBlank | App.tsx:71-82 | blank source chords display blank, and the default progression displays unchanged |
| App.ToggledStep | App.tsx:203-211 | a click flips `active`, keeps the number, makes the step valid, and a sounding step plays root+octave at gate 0.8 |
| App.ToggleTwiceRestores | App.tsx:197-216 | clicking a silent gate-0 step twice restores it |
| App.ToggleCount | App.tsx:197-216 | a click changes the number of active steps by exactly one |
| App.NoteChangedStep | App.tsx:222-233 | a rest silences the step; a note makes it sound with gate 0.8 if its gate was 0, otherwise its own gate; a non-negative gate gives a valid step |
| App.NoteChangeAgreesWithToggle | App.tsx:218-239 | choosing rest on an active step, or the root on a silent gate-0 step, equals a click |
| App.GateChangedStep | App.tsx:241-250 | only the gate changes |
| App.GateChangeValidity | App.tsx:241-250 | an active valid step stays valid iff the new gate is positive, so any fader value from 0.1 up keeps it valid |
| App.PickIndex | App.tsx:138 | `Math.floor(random * n)` is below n |
| App.NotesInOctave | App.tsx:127 | exactly the palette notes ending in the octave numeral |
| App.NewStepNote | App.tsx:126-143 | a new note is root+octave or a palette note of that octave |
| App.RepatternedStep | App.tsx:118-152 | off the pattern the step is silenced; already sounding steps are kept; new ones get gate 0.8 and a root or palette note |
| App.PulsesChanged | App.tsx:105-155 | blank chords: no change; otherwise chords kept, length kept, step i re-patterned from slot i of the (16, newPulses) pattern |
| App.PulsesChangeSteps | App.tsx:118-152 | after a pulse change the steps sound exactly where the pattern does, validity is preserved, and new notes come from the root or the octave's palette |
| App.PulsesChangeCount | App.tsx:113-153 | on sixteen steps, a pulse change to n in 0..16 leaves exactly n steps sounding |
| App.RandomPulses | App.tsx:164 | the random pulse count is between 5 and 13 |
| App.RandomGate | App.tsx:182 | the random gate lies in [0.6, 1.0) |
| App.ChordForStep | App.tsx:171-172 | step i uses chord i/4, blank past the end of the chord list |
| App.RandomStep | App.tsx:169-189 | step i is numbered i+1 and valid; it sounds iff the pattern says so and its chord has notes, then on a chord note in the octave with gate in [0.6, 1.0); a silent step is the rest step with note null and gate 0 |
| App.Randomized | App.tsx:157-195 | nothing changes when source or displayed chords are blank; otherwise chords kept and sixteen steps rebuilt from a 5–13 pulse pattern |
| App.RandomizedSteps | App.tsx:163-189 | a randomized sequence is valid, numbered 1..16, and sounds at most as many steps as its pulse count; every silent step is the rest step with note null and gate 0 |
| App.Editor.constructor | App.tsx:45-46 | both progressions start as the default progression |
| App.Editor.IsProgressionEmpty | App.tsx:69 | definition of `isProgressionEmpty`: every source chord blank; RandomizeSequence does nothing while it holds |
| App.Editor.RefreshDisplay | App.tsx:71-82 | the display becomes the derived display; the source is untouched |
| App.Editor.StepClick | App.tsx:197-216 | only step `stepIndex` of the source changes, to its toggled form |
| App.Editor.NoteChange | App.tsx:218-239 | only step `stepIndex` of the source changes, to its note-changed form |
| App.Editor.GateChange | App.tsx:241-250 | only step `stepIndex` of the source changes, to its gate-changed form |
| App.Editor.PulsesChange | App.tsx:105-155 | with the app's five-octave palette (App.tsx:84-86) as its palette, the source becomes the pulse-changed progression and the display is untouched |
| App.Editor.RandomizeSequence | App.tsx:157-195 | the source becomes the randomized progression, read from the displayed chords |
| Sequencer.StepClasses | components/Sequencer.tsx:30-43 | classes start with `sequencer-step`, contain `active` iff the step is active, `playing`/`paused` iff it is the current step while playing/paused, without duplicates |
| Sequencer.GetStepClass | components/Sequencer.tsx:30-43 | the pushing method returns those classes joined by spaces |
| Sequencer.PlainStepClass | components/Sequencer.tsx:30-43 | a silent step off the playhead is just `sequencer-step` |
| Sequencer.ChordToneOptions | components/Sequencer.tsx:50-64 | definition: no options for a blank chord, otherwise the chord tones over the three octave offsets; properties in ThreeOctaves and ChordToneOptionsMembers, and BuildChordToneOptions is proved equal to it |
| Sequencer.ThreeOctaves | components/Sequencer.tsx:55-63 | the options are the octave below, the current octave and the octave above, in that order |
| Sequencer.PushChordTones | components/Sequencer.tsx:55-63 | the outer loop builds exactly the specified chord tones |
| Sequencer.BuildChordToneOptions | components/Sequencer.tsx:50-64 | the options for a step: none for a blank chord, otherwise the specified chord tones |
| Sequencer.ChordToneOptionsMembers | components/Sequencer.tsx:51-63 | a name is offered iff the chord is non-blank and the name is a chord note in the octave below, the current octave or the octave above, that octave lying in 0..5 |
| Sequencer.ToneInKeptOctaveShape | components/Sequencer.tsx:56-61 | a chord tone of a kept octave is exactly a chord note followed by that octave's numeral |
| Sequencer.StepChordToneOptions | components/Sequencer.tsx:47-51 | step `index` draws its chord tones from chord slot floor(index / 4); a slot past the end of the chords, or a blank chord, offers none |
| Sequencer.UniqueChordTones | components/Sequencer.tsx:67 | the chord tones without duplicates, same members |
| Sequencer.ScaleToneOptions | components/Sequencer.tsx:70 | exactly the palette notes that are not chord tones |
| Sequencer.ScaleToneOptionsInOrder | components/Sequencer.tsx:70 | the scale tones keep the palette's order and repeats: filtering distributes over concatenation, and one note is kept exactly when it is not a chord tone |
| Sequencer.NoteMenuPartition | components/Sequencer.tsx:67-70 | each palette note is in exactly one of the two menu groups; without a triad the menu is the whole palette and no chord tones |
| Sequencer.SelectedNote | components/Sequencer.tsx:86 | `REST` means no note, any other value is that note |
| Sequencer.MenuChoiceKeepsStepValid | components/Sequencer.tsx:82-86 | a menu choice on a sounding step keeps it valid: rest silences it, a note keeps it sounding at its gate |

## Left out

- The default argument `octaves = [1, 2]` of `generatePlayableNotes` is not modelled: its only caller passes octaves 0..4, and `PlayableNotes` always takes the octaves explicitly.
- Calls into code this model cannot see are not modelled: the chord-progression service (`handleGenerate`), Tone.js playback (`useTone`, tempo, the current step as a clock), screenshots, keyboard shortcuts and the JSX layout.
- `Math.random()` is a parameter per draw, so the model states what holds for every draw, not any distribution.
- Logging (`console.warn`) is not modelled.
- `setPulses` in `handlePulsesChange` stores the slider value. The stored pulse count is read by the view and by the `generateBassProgression` call in `handleGenerate`, which is not modelled; it is not a field of `Editor`.
- The `!prev` guards and `prev?.chords || defaultSequence.chords` cannot fire, because the progression state is never null. They are not modelled.
- App.Editor.StepClick, App.Editor.NoteChange, App.Editor.GateChange: require `stepIndex` to be a position of the sequence, as the view only passes rendered indices. Writing past the end of a JavaScript array is not modelled.
- The tie-breaker block of `detectScale` for a minor first chord has an empty body, so there is nothing to model.
- MusicTheory.ApplyNegativeHarmonyToChords: states only length and blank-stays-blank. A non-empty chord can come out blank (the chord `m` loses its `m` and mirrors the empty name to ""). The per-chord behaviour is in MusicTheory.MirrorChordFlipsQuality.
- MusicTheory.SanitizeRoot: upper and lower case are mapped for ASCII letters only. Non-ASCII case mapping is not modelled.
- Rhythm.EuclideanPattern: the step count is a natural number. `Array(steps)` with a negative count throws in JavaScript, and that path is not modelled; callers always pass 16.
- App.RandomGate: gates and probabilities are exact reals. In floating point `0.6 + r * 0.4` can round up to 1.0; the real-number model does not capture that rounding.
- Strings are sequences of characters. UTF-16 code units and regular-expression engines are not modelled; each regular expression used is written out as a function (`^[A-G][#b]?`, `\d+$`).
- Per-step arrays of draws replace the single random stream. In particular, `handlePulsesChange` draws the root probability only when the octave has palette notes, and the model takes the draw for every step.
