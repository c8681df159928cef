# Piano timeline engine, modelled in Dafny

This project models the note-event timeline engine of a piano trainer that plays MIDI files on a computer keyboard. Each playable pitch owns a key square. The square holds a list of toggle times and a cursor into that list. A virtual clock consumes the due toggles every frame. A rewind moves the cursor back and applies at most one corrective toggle. In recording mode, real presses and releases are appended at the tail of the list. A tune is transposed automatically to the shift that puts the fewest notes on black keys, then enqueued after the notes already scheduled. A recording is dumped as alternating note-on and note-off messages.

The model has two layers:

- Pure functions on values say what every operation does: `KeyModel` for one key square and `RendererModel` for the whole renderer.
- Classes with mutable fields (`Keys.KeySquare` and `Renderer.MIDIRenderer`) follow the source's loops and field updates. Each method is proved to leave exactly the state the corresponding function computes.

The lemmas in `KeyProperties`, `RendererProperties` and `TransposeProperties` state what the source promises about those functions.

Modules:

- `Wrappers`: `Option`, `Result`, and the exceptions the source can raise, as values.
- `Pitches`: MIDI note numbers, the note-name and keyboard-letter tables, and folding by octaves.
- `Notes`: (pitch, time) pairs and Python's stable `sorted(key=time)`.
- `KeyModel`, `Keys`, `KeyProperties`: the key square.
- `RendererModel`, `Renderer`, `RendererProperties`: the renderer: key setup, `enqueue_file`, the queries, and one frame of `update`.
- `Transpose`, `TransposeProperties`: `_apply_penalty` and `autotranspose`.
- `MidiDump`: the pairing and delta times of `dump_midi_file`.

Conventions of the model:

- A failed `assert` or a division by zero in the source becomes a fault value. The state is kept as it was when the exception was raised. The two "Still have stuff to play" assertions can fail, and the model shows when.
- The "Refuse!" assertions cannot fail. `__post_init__` makes `macro_output` imply `ignore_keypresses`, and nothing changes either flag later. The model carries this as the subtype `Settings` and the precondition `MacroIgnoresKeypresses`.
- The side effects are recorded in order as an effect log: sounds on the MIDI output and keystrokes to the macro device.
- Times are exact reals.
- `backout_before` terminates on every timeline, sorted or not. Its search only moves down while the previous event is in the future and only moves up while the next one is in the past, and the two phases cannot alternate. `KeyModel.SeekBoundary` is total.

## Model

| member | source | states |
|---|---|---|
| Pitches.MidiPitchToName | render_notes.py:59-67 | a returned name is one of the letters A to G (which pitches get None is stated by KeysAreExactlyNaturals) |
| Pitches.MidiPitchToKeyboard | render_notes.py:69-80 | None exactly outside the 36 slots of the layout; a returned letter is never '_' (a black key inside the slots fails the "Bad pitch" assertion) |
| Pitches.HasKeyIsSlotLetter | render_notes.py:69-80 | a pitch owns a key exactly when `midi_pitch_to_keyboard` returns a letter for it |
| Pitches.KeyLetterIsCapitalNotP | render_notes.py:35-39 | every key letter is a capital A-Z, and none is P, so K_p never matches a key square |
| Pitches.SlotLetterIsCapitalNotP | render_notes.py:35-39 | every non-'_' slot of the layout is a capital other than P |
| Pitches.SlotColumnIsBlack | render_notes.py:35-39 | in every row of the layout, '_' stands in exactly the five black-key columns of an octave starting on C |
| Pitches.SlotColumnMatchesNames | render_notes.py:35-39 | the layout's '_' columns are exactly the columns whose note name is a sharp or flat |
| Pitches.KeysAreExactlyNaturals | render_notes.py:112-131 | inside the slots, a pitch has a keyboard letter exactly when it has a note name, so the square constructor's "Bad key" and "no sharps or flats" assertions fail together or not at all |
| Pitches.HighestNoteHasNoKey | render_notes.py:24-27 | the slots end at 83: HIGHEST_NOTE 84 is outside them and has no key |
| Pitches.FoldSpec | render_notes.py:481-488 | octave folding lands in [48, 84], a whole number of octaves away; a pitch already in range is unchanged; from above it lands in the top octave, from below in the bottom one |
| Pitches.FoldUnique | render_notes.py:481-488 | any value with the properties of FoldSpec is the fold |
| Notes.SortByTime | read_notes.py:64 | the result is sorted by time and is a permutation of the input; its stability is SortIsStable |
| Notes.InsertLast | read_notes.py:64 | inserting a note no earlier than all others appends it |
| Notes.InsertAtTime | read_notes.py:64 | an insertion places the new note after every note of the same time already there |
| Notes.SortIsStable | read_notes.py:64 | the sort is stable, as `sorted` is: for every time, the notes at that time come out in their input order, which fixes the message order of simultaneous notes in the dump |
| Notes.AtTimeAppend | read_notes.py:64 | selecting the notes of one time distributes over concatenation |
| Notes.SortSortedIsIdentity | read_notes.py:64 | sorting notes already in time order changes nothing |
| KeyModel.Lower | render_notes.py:310-311 | upper-case letters map to lower case, every other character to itself |
| KeyModel.Peek | render_notes.py:140-144 | Some exactly when the cursor is inside the list, and then the event under the cursor |
| KeyModel.Pop | render_notes.py:147-151 | the cursor advances by one exactly when `peek` has an event, so the cursor stays within the list |
| KeyModel.FakeToggle | render_notes.py:209-210 | the expected state flips and nothing else changes |
| KeyModel.RecordNow | render_notes.py:312-315 | in recording mode, faults exactly when the cursor is not at the tail; otherwise appends `now` and moves the cursor to the new tail; outside recording nothing changes |
| KeyModel.RealDown | render_notes.py:299-315 | an already-down key changes only `key_is_pressed` and sends nothing; otherwise the key goes down, a note-on is sent when sounds play, the macro keystroke is sent when the window is unfocused and the press is not live, the key is marked pressed by a live press or by macro output to an unfocused window, and recording appends `now` or faults |
| KeyModel.RealUp | render_notes.py:319-334 | an already-up key changes only `key_is_pressed`; otherwise the key goes up, a note-off is sent exactly when `note_on` is set, `note_on` itself is never cleared, the pressed mark stays only if it was set and neither a live release nor macro output clears it, and recording appends `now` or faults |
| KeyModel.RealToggle | render_notes.py:336-340 | the real state always flips |
| KeyModel.OkayToProgress | render_notes.py:342-344 | not okay exactly when the key should be down and is not really down |
| KeyModel.Dump | render_notes.py:346-347 | one (pitch, time) pair per event of the list, in list order |
| KeyModel.DueEnd | render_notes.py:156-159 | the consume loop stops at the first event after `now` or at the end of the list, and every event it passes is due |
| KeyModel.SeekBoundary | render_notes.py:166-194 | from a cursor within the list, the search always ends, at a boundary: the previous event is not after `now` and the next one is; a cursor past the end is returned unchanged |
| KeyModel.ToggleOnce | render_notes.py:161-164 | one consumed event (a fake toggle, and a real toggle when scheduled events are replayed); its properties are ToggleOnceWhileRecording and ReplayFacts |
| KeyModel.Replay | render_notes.py:159-164 | the toggle loop of `update`, stopping at the first exception; its properties are ReplayWithoutOutput, ReplayOutsideRecording, ReplayWhileRecording and ReplayFacts |
| KeyModel.Update | render_notes.py:155-164 | `update(now)` as a value; its properties are UpdateConsumesAllDue and UpdateKeepsSync, and `Keys.KeySquare.Update` is proved equal to it |
| KeyModel.BackoutBefore | render_notes.py:166-205 | `backout_before(now)` as a value; its properties are BackoutReplaysFromStart, BackoutIdempotent, BackoutWhileRecordingAppends and RewindExample |
| KeyModel.BackoutTo | render_notes.py:196-205 | the parity toggle and the cursor write of `backout_before`; its properties are BackoutToFacts and BackoutToCursor |
| KeyModel.ClearAndRelease | render_notes.py:503-505 | the list is emptied and the key ends up; it faults exactly when a down key is released in recording mode with the cursor not at 0; otherwise the cursor is kept |
| Keys.KeySquare.constructor | render_notes.py:112-138 | a new square: empty list, cursor 0, every flag false |
| Keys.KeySquare.Pop | render_notes.py:147-151 | returns `peek` of the old state and leaves the state `KeyModel.Pop` computes |
| Keys.KeySquare.FakeToggle | render_notes.py:209-210 | the new state is `KeyModel.FakeToggle` of the old |
| Keys.KeySquare.RealDown | render_notes.py:299-315 | new state, effects and fault are those of `KeyModel.RealDown` |
| Keys.KeySquare.RealUp | render_notes.py:319-334 | new state, effects and fault are those of `KeyModel.RealUp` |
| Keys.KeySquare.RealToggle | render_notes.py:336-340 | new state, effects and fault are those of `KeyModel.RealToggle` |
| Keys.KeySquare.ClearAndRelease | render_notes.py:503-505 | new state, effects and fault are those of `KeyModel.ClearAndRelease` |
| Keys.KeySquare.Update | render_notes.py:155-164 | new state, effects and fault are those of `KeyModel.Update` |
| Keys.KeySquare.PopDue | render_notes.py:156-159 | the consume loop moves the cursor to `DueEnd` and counts the events it passed |
| Keys.KeySquare.ToggleTimes | render_notes.py:161-164 | the toggle loop leaves what `Replay` of that many events computes |
| Keys.KeySquare.SeekTarget | render_notes.py:167-194 | the boundary search returns `SeekBoundary` |
| Keys.KeySquare.BackoutBefore | render_notes.py:166-205 | new state, effects and fault are those of `KeyModel.BackoutBefore` |
| Keys.KeySquare.BackoutTo | render_notes.py:196-205 | one corrective toggle when the distance moved is odd, then the cursor is set |
| KeyProperties.ReplayWithoutOutput | render_notes.py:161-164 | without `recording_plays`, consuming n events only flips the expected state n times and sends nothing |
| KeyProperties.ReplayOutsideRecording | render_notes.py:161-164 | with `recording_plays` outside recording, n events flip the expected and the real state n times and leave the list alone |
| KeyProperties.ToggleOnceWhileRecording | render_notes.py:161-164 | one consumed event while recording with replay: faults exactly when the cursor is not at the tail, otherwise appends `now` and keeps the cursor at the tail |
| KeyProperties.ReplayWhileRecording | render_notes.py:161-164 | while recording with replay, n events fault exactly when the cursor is not at the tail; otherwise they append n copies of `now` and both states flip n times |
| KeyProperties.RecordingTimeline | render_notes.py:161-164 | the list and cursor half of ReplayWhileRecording, by induction |
| KeyProperties.RecordingParity | render_notes.py:161-164 | the expected and real state half of ReplayWhileRecording, by induction |
| KeyProperties.ReplayFacts | render_notes.py:161-164 | n toggles fault exactly when recording with replay, n > 0 and the cursor not at the tail; without a fault the expected state flips iff n is odd; only recording with replay touches the list or the cursor |
| KeyProperties.UpdateConsumesAllDue | render_notes.py:155-164 | after an `update` that does not fault, `peek` is None or after `now`; the expected state flipped iff an odd number of events was consumed; it faults exactly in recording with replay when events were consumed but the cursor did not reach the tail |
| KeyProperties.UpdateKeepsSync | render_notes.py:155-164 | away from recording with replay, `update` keeps the cursor within the list and the expected state equal to the cursor's parity |
| KeyProperties.BoundaryUnique | render_notes.py:173-194 | on a sorted list there is only one boundary for a given time |
| KeyProperties.SeekSorted | render_notes.py:173-194 | on a sorted list the search from any cursor ends where a replay from 0 to `now` would stop |
| KeyProperties.BackoutReplaysFromStart | render_notes.py:166-205 | a rewind flips the expected state iff the distance moved is odd; it keeps the state in step with the cursor; on a sorted list it leaves the key as a replay from the start would |
| KeyProperties.BackoutToFacts | render_notes.py:196-205 | moving the cursor flips the expected state exactly on an odd distance and can fault only then, while recording with replay |
| KeyProperties.BackoutToCursor | render_notes.py:196-205 | moving the cursor to where it is changes nothing |
| KeyProperties.BackoutIdempotent | render_notes.py:166-205 | a second rewind to the same time changes nothing when the first raised nothing and did not grow the list |
| KeyProperties.BackoutWhileRecordingAppends | render_notes.py:200-205 | while recording with replay, an odd rewind from the tail appends `now` to the list and leaves the cursor before the tail |
| KeyProperties.RewindExample | render_notes.py:155-205 | events at 2, 5 and 9, with replay off: updating to 6 consumes two, and rewinding to 1 returns the cursor to 0 with no toggle and no effect |
| KeyProperties.RewindExampleReplay | render_notes.py:155-205 | the same events under the default settings (replay on, macro output, window unfocused): updating to 6 sends note-on, the typed letter and note-off and leaves the key up; rewinding to 1 returns the cursor to 0 and sends nothing |
| KeyProperties.ClearKeepsCursor | render_notes.py:503-505 | a queue reset empties the list but keeps the cursor, so a new tune's first events under the old cursor are never offered by `peek` |
| Transpose.ApplyPenalty | read_notes.py:24-30 | the loop returns the sum over i of penalty[i] * freq[(i + rshift) mod n] |
| Transpose.Histogram | read_notes.py:39-41 | twelve non-negative bins |
| Transpose.FirstMin | read_notes.py:49-50 | the earliest candidate whose (penalty, abs(shift)) key is minimal |
| Transpose.InsertByKeySorted | read_notes.py:49 | inserting into a list sorted by key keeps it sorted |
| Transpose.InsertByKeyPermutes | read_notes.py:49 | inserting adds exactly the new candidate |
| Transpose.SortByKey | read_notes.py:49-50 | the stable sort's head is the earliest minimal candidate |
| Transpose.SortByKeySorts | read_notes.py:49 | the sort orders by key and is a permutation |
| Transpose.Candidates | read_notes.py:44-47 | one candidate per rotation, twelve in all |
| Transpose.CountClasses | read_notes.py:34-41 | the counting loop fills a fresh array with the histogram |
| Transpose.ScoreRotations | read_notes.py:44-47 | the scoring loop builds the candidate list |
| Transpose.Autotranspose | read_notes.py:33-52 | the whole procedure returns the head of the sorted candidates and its score, or the division by zero |
| Transpose.Solve | read_notes.py:33-52 | `autotranspose` as a value; its properties are SolveIsBest, AutotransposeFailsOnlyWhenEmpty, AutotransposeIsOptimal, AutotransposeScore and AllAStaysPut |
| TransposeProperties.HistogramCountsEveryNote | read_notes.py:39-41 | the bins add up to the number of notes |
| TransposeProperties.DistanceIsNegatedRotation | read_notes.py:36 | distance[r] lies in [-6, 5] and is congruent to -r modulo 12 |
| TransposeProperties.MaskMarksAccidentals | read_notes.py:34-35 | the penalty mask is 0/1 and marks exactly the classes with no letter name |
| TransposeProperties.PenaltyCountsAccidentals | read_notes.py:44-47 | the penalty of rotation r counts the notes that shift distance[r] puts on a black key |
| TransposeProperties.AccidentalsPeriodic | read_notes.py:34-41 | shifts a whole number of octaves apart put the same notes on black keys |
| TransposeProperties.RotationOf | read_notes.py:36 | every shift in [-6, 5] is the distance of some rotation |
| TransposeProperties.EqualReachIsDownwardFirst | read_notes.py:36 | of two rotations with equal abs(distance), the earlier is the downward shift |
| TransposeProperties.SolveIsBest | read_notes.py:49-52 | the result is the distance and score of the best rotation |
| TransposeProperties.BestBeatsEveryShift | read_notes.py:44-50 | no shift by any number of semitones puts fewer notes on black keys than the chosen one |
| TransposeProperties.BestIsPreferred | read_notes.py:49-50 | the chosen shift is first in the order (fewest black notes, then smallest abs(shift), then downward) |
| TransposeProperties.AutotransposeFailsOnlyWhenEmpty | read_notes.py:51 | the procedure raises exactly on an empty tune, by division by zero |
| TransposeProperties.AutotransposeIsOptimal | read_notes.py:33-52 | on a non-empty tune the shift lies in [-6, 5], minimises the black notes over all shifts and is preferred over every other shift in range |
| TransposeProperties.AutotransposeScore | read_notes.py:51 | the score is the fraction of notes on white keys and lies in [0, 1] |
| TransposeProperties.ScoreIsFraction | read_notes.py:51 | the white-key fraction (n - p) / n of a non-empty tune lies in [0, 1] |
| TransposeProperties.AllAStaysPut | read_notes.py:33-52 | a tune of A's only is left unshifted with score 1 |
| TransposeProperties.AllANoAccidentals | read_notes.py:39-41 | a tune of A's only has no black notes unshifted |
| MidiDump.MessageAt | read_notes.py:65-73 | the reference message for note i (off when its pitch is held, delta from the previous time); its properties are HeldStep, FirstOccurrenceIsOn, ConsecutiveAlternate, DeltasTelescope and OneKeyMessageAt |
| MidiDump.Messages | read_notes.py:64-73 | one message per note, each as the reference definition `MessageAt` gives it |
| MidiDump.HeldStep | read_notes.py:65-70 | a pitch is held exactly when it occurred an odd number of times so far, so it is switched off iff held, and the set is updated accordingly |
| MidiDump.PairInOrder | read_notes.py:62-73 | the held-set loop builds exactly the reference message list |
| MidiDump.DumpMessages | read_notes.py:62-73 | the track is the reference message list of the time-sorted notes |
| MidiDump.DeltasTelescope | read_notes.py:72-73 | the deltas of the first m messages add up to the time of the m-th note |
| MidiDump.DeltasNonNegative | read_notes.py:72-73 | in time order from a non-negative start, no delta is negative |
| MidiDump.FirstOccurrenceIsOn | read_notes.py:65-70 | a pitch's first message is note-on |
| MidiDump.ConsecutiveAlternate | read_notes.py:65-70 | two consecutive messages of the same pitch have opposite kinds |
| MidiDump.OneKeyRoundTrip | read_notes.py:62-73 | dumping one key square whose list is sorted gives its events in order, alternating on and off from on, with deltas from the previous event |
| RendererModel.PostInit | render_notes.py:366-368 | only `ignore_keypresses` may change, and the result satisfies `macro_output ==> ignore_keypresses`; settings that already satisfy it are unchanged |
| RendererModel.KeyOrder | render_notes.py:421-450 | the pitches that own a key, each once, in ascending order |
| RendererModel.Initial | render_notes.py:373-407 | a new renderer satisfies the invariant: one key per pitch with a letter, in creation order |
| RendererModel.TransformSpec | render_notes.py:481-488 | with `keep_in_bounds` the result lies in [48, 84] and is congruent to the transposed pitch modulo 12; without it, it is exactly the transposed pitch |
| RendererModel.Adjust | render_notes.py:585-609 | the settings keys never change `macro_output` or `ignore_keypresses` |
| RendererModel.HandleEvent | render_notes.py:553-625 | an event that raises or saves ends the loop, and a loop that ends has raised or marked the renderer done |
| RendererModel.Max | render_notes.py:523 | the larger of the two values |
| RendererModel.Apply | render_notes.py:155-205 | no key operation changes a square's pitch or letter |
| RendererModel.ReplayKeepsIdentity | render_notes.py:161-164 | consuming events keeps the square's pitch and letter |
| RendererModel.SweepKeys | render_notes.py:645-646 | a loop over the keys keeps the set of pitches that own a key |
| RendererModel.MidiToggles | render_notes.py:638-643 | the MIDI input keeps the set of pitches that own a key |
| RendererModel.Reset | render_notes.py:502-506 | the optional reset keeps the set of pitches that own a key |
| RendererModel.KeyOrderCoversKeys | render_notes.py:421-450 | in a valid renderer, the creation order lists exactly the pitches that own a key |
| RendererModel.SweptStaysValid | render_notes.py:645-646 | replacing the squares by ones with the same pitches, letters and key set keeps the invariant |
| RendererModel.Transform | render_notes.py:481-488 | `_transform_pitch` as a value; its property is TransformSpec |
| RendererModel.OkayToProgress | render_notes.py:527-535 | `okay_to_progress` as a value; its properties are TickSpec and InitialIsQuiet |
| RendererModel.ReviewingRecording | render_notes.py:461-468 | `reviewing_recording` as a value; its property is InitialIsQuiet |
| RendererModel.DumpKeys | render_notes.py:452-456 | `dump` as a value; its properties are DumpKeysSpec, DumpHoldsEveryEvent and RecordThenSave |
| RendererModel.PlaceNote | render_notes.py:514-523 | one turn of the placement loop; its property is PlaceSpec |
| RendererModel.Place | render_notes.py:509-523 | the placement loop; its property is PlaceSpec |
| RendererModel.Enqueue | render_notes.py:493-524 | `enqueue_file` after the file is read; its properties are EnqueueCountsEveryNote, RejectedOnlyResetsClock, ResetClears and ResetThenPlaceSkips |
| RendererModel.Tick | render_notes.py:538-545 | the clock step of `update`; its property is TickSpec |
| RendererModel.UpdateRenderer | render_notes.py:537-649 | one frame of `update`; its properties are FrameLeavesNothingDue and, per event, the HandleEvent lemmas |
| Renderer.SetupKeys | render_notes.py:421-450 | the nested loops create a fresh square for every pitch with a letter, in ascending order |
| Renderer.SetupRow | render_notes.py:430-449 | one row adds the squares of its octave and keeps the earlier ones |
| Renderer.SetupSlot | render_notes.py:432-447 | one slot adds a square exactly when it has a letter |
| Renderer.SlotOfPitch | render_notes.py:430-449 | slot (row, column) is pitch 48 + 12 * row + column and owns a key exactly when it has a letter |
| Renderer.MadeIsInitial | render_notes.py:421-450 | the squares made are the fresh keys of a new renderer, keyed by their pitches |
| Renderer.MIDIRenderer.constructor | render_notes.py:373-407 | the new renderer is `Initial` of the preset or of the default settings |
| Renderer.MIDIRenderer.SweepAll | render_notes.py:645-646 | a loop over the keys in creation order leaves what `SweepKeys` computes and changes nothing but the keys |
| Renderer.MIDIRenderer.TransformPitch | render_notes.py:481-488 | the two folding loops return `Transform` |
| Renderer.MIDIRenderer.OkayToProgress | render_notes.py:527-535 | true when scheduled events replay themselves, otherwise exactly when every key is okay to progress |
| Renderer.MIDIRenderer.ReviewingRecording | render_notes.py:461-468 | true exactly in recording mode with some key's cursor before the end of its list |
| Renderer.MIDIRenderer.Dump | render_notes.py:452-456 | every key's pairs, key after key in creation order |
| Renderer.MIDIRenderer.PlaceNotes | render_notes.py:511-523 | the placement loop leaves what `PlaceInto` computes |
| Renderer.MIDIRenderer.PlaceOne | render_notes.py:514-523 | one note is appended to the key it folds to, if any, and the counts and the queue end move as `PlaceNote` says |
| Renderer.MIDIRenderer.EnqueueNotes | render_notes.py:493-524 | `enqueue_file` after the file is read leaves what `Enqueue` computes |
| Renderer.MIDIRenderer.EnqueueSolved | render_notes.py:495-523 | after `autotranspose`: its exception, the rejection below the threshold, or the placement |
| Renderer.MIDIRenderer.PlaceAll | render_notes.py:500-523 | the optional reset, then the placement of the sorted notes |
| Renderer.MIDIRenderer.ResetQueues | render_notes.py:502-506 | the optional reset leaves what `Reset` computes |
| Renderer.MIDIRenderer.Tick | render_notes.py:538-545 | the clock step leaves what `RendererModel.Tick` computes |
| Renderer.MIDIRenderer.StartFrame | render_notes.py:538-550 | the clock, then the window focus |
| Renderer.MIDIRenderer.KeyCommand | render_notes.py:559-609 | the KEYDOWN branches before the letter keys leave what `Command` computes |
| Renderer.MIDIRenderer.EscapeKey | render_notes.py:559-561 | Escape marks the renderer done and breaks the loop |
| Renderer.MIDIRenderer.RecordKey | render_notes.py:563-571 | 0 saves the dump and ends in recording mode; otherwise it starts recording at time 0 and speed 1 |
| Renderer.MIDIRenderer.SeekForward | render_notes.py:573-576 | right arrow: the clock jumps 15 s ahead; `play_sounds` is saved and cleared |
| Renderer.MIDIRenderer.SeekBack | render_notes.py:578-583 | left arrow: the clock goes back 15 s but not below 0; `play_sounds` is saved and cleared; every key is rewound |
| Renderer.MIDIRenderer.SettingsKey | render_notes.py:585-609 | the speed, pause, layout and progression keys |
| Renderer.MIDIRenderer.HandleEvent | render_notes.py:553-625 | one event leaves what `RendererModel.HandleEvent` computes |
| Renderer.MIDIRenderer.PressKey | render_notes.py:558-615 | the command, then the live press of the matching square unless keypresses are ignored |
| Renderer.MIDIRenderer.PressSquare | render_notes.py:611-615 | the square whose letter was pressed goes down |
| Renderer.MIDIRenderer.ReleaseKey | render_notes.py:617-625 | the live release of the matching square, then P toggles the pause |
| Renderer.MIDIRenderer.PauseKey | render_notes.py:624-625 | releasing P flips the pause |
| Renderer.MIDIRenderer.HandleEvents | render_notes.py:552-625 | the event loop up to a break or an exception leaves what `RendererModel.HandleEvents` computes |
| Renderer.MIDIRenderer.ToggleMidiInput | render_notes.py:638-643 | each instrument pitch toggles the key it folds to, if any |
| Renderer.MIDIRenderer.EndFrame | render_notes.py:627-649 | MIDI input, every key's `update(now)`, and `play_sounds` restored |
| Renderer.MIDIRenderer.UpdateKeys | render_notes.py:645-649 | every key's `update(now)`, then the restore |
| Renderer.MIDIRenderer.RestorePlay | render_notes.py:648-649 | `play_sounds` is set back when a seek saved it |
| Renderer.MIDIRenderer.Update | render_notes.py:537-649 | one frame leaves what `UpdateRenderer` computes |
| RendererProperties.SweepPointwise | render_notes.py:645-646 | a loop over distinct keys that raises nothing applies the operation once to each listed key, leaves the others alone, and only appends effects |
| RendererProperties.SweepAllKeys | render_notes.py:645-646 | on a valid renderer the loop reaches every key |
| RendererProperties.SweepUnmatched | render_notes.py:611-622 | a key code that no key square carries presses or releases no square and sends nothing |
| RendererProperties.NoSquareIsP | render_notes.py:611-622 | no key square of a valid renderer answers to K_p |
| RendererProperties.SweepKeepsIdentity | render_notes.py:645-646 | a loop over the keys keeps every key's pitch and letter |
| RendererProperties.MidiKeepsIdentity | render_notes.py:638-643 | the MIDI input keeps every key's pitch and letter |
| RendererProperties.SweepStaysValid | render_notes.py:645-646 | a loop over the keys keeps the renderer's invariant |
| RendererProperties.HandleEventStaysValid | render_notes.py:553-625 | every event keeps the invariant |
| RendererProperties.CommandStaysValid | render_notes.py:559-609 | every KEYDOWN command keeps the invariant |
| RendererProperties.PressStaysValid | render_notes.py:558-615 | a key press keeps the invariant |
| RendererProperties.ReleaseStaysValid | render_notes.py:617-625 | a key release keeps the invariant |
| RendererProperties.HandleEventsStaysValid | render_notes.py:552-625 | the event loop keeps the invariant |
| RendererProperties.UpdateLeavesNothingDue | render_notes.py:645-649 | after every key's `update(now)` without an exception, no key has an event due at `now` |
| RendererProperties.EndFrameLeavesNothingDue | render_notes.py:627-649 | the end of a frame that raises nothing keeps the invariant and leaves no event due |
| RendererProperties.FrameLeavesNothingDue | render_notes.py:537-649 | a whole frame that raises nothing keeps the invariant and leaves no key with an event due at the final clock |
| RendererProperties.TickSpec | render_notes.py:538-545 | the clock moves only after an earlier frame, unpaused, and with progression mode off or every key ready; under exactly those conditions it moves by elapsed wall time times speed; nothing but `now` and `last_update` changes; it never runs backwards when wall time does not and the speed is positive |
| RendererProperties.AdjustSpeed | render_notes.py:585-590 | up adds 0.1, down subtracts 0.1 but never goes below 0.1, and a positive speed stays positive |
| RendererProperties.AdjustToggles | render_notes.py:592-609 | 1 and P flip the pause and nothing else, 3 flips progression mode; the pause changes only on 1 or P |
| RendererProperties.HandleEventsAppend | render_notes.py:553-556 | after a break later events are ignored; otherwise they continue from where the earlier ones left off |
| RendererProperties.QuitEndsLoop | render_notes.py:554-561 | closing the window or Escape marks the renderer done and ignores the rest of the queue |
| RendererProperties.RecordThenSave | render_notes.py:563-571 | 0 then 0 again: recording starts at time 0 and speed 1, then the keys are dumped to `save` and the game ends |
| RendererProperties.SeekAhead | render_notes.py:573-576 | right arrow saves `play_sounds`, mutes, and jumps 15 s |
| RendererProperties.OneSeekRestores | render_notes.py:573-649 | one seek mutes the sounds for its frame only |
| RendererProperties.TwoSeeksStayMuted | render_notes.py:573-649 | two seeks in one frame: the second saves the muted value, so the sounds stay off after the frame |
| RendererProperties.RewindSpec | render_notes.py:578-583 | left arrow: the clock is not negative and is 15 s earlier when it can be; sounds are muted with the old value saved; without an exception every key is rewound to the new time |
| RendererProperties.PressPToggles | render_notes.py:608-615 | on a valid renderer, whether or not keypresses are ignored, pressing P flips the pause and changes nothing else |
| RendererProperties.ReleasePToggles | render_notes.py:617-625 | on a valid renderer, whether or not keypresses are ignored, releasing P flips the pause and changes nothing else |
| RendererProperties.PressAndReleaseP | render_notes.py:608-625 | on a valid renderer, pressing and releasing P leaves the whole renderer as it was and does not break the loop |
| RendererProperties.DumpKeysSpec | render_notes.py:452-456 | the dump holds exactly the pairs of the listed keys |
| RendererProperties.DumpHoldsEveryEvent | render_notes.py:452-456 | a valid renderer's dump holds every event of every key and nothing else |
| RendererProperties.PlaceSpec | render_notes.py:511-523 | the placement appends to each key exactly the shifted times of the notes that fold to it; unplaced notes are counted as bad and the counts add up to the number of notes; the queue end becomes the maximum of its old value and every shifted time |
| RendererProperties.EnqueueCountsEveryNote | render_notes.py:493-524 | an empty tune raises after the clock is zeroed; an enqueued tune has all its notes counted, so the closing percentage never divides by zero |
| RendererProperties.RejectedOnlyResetsClock | render_notes.py:493-498 | a low score changes nothing but the clock, which is already zeroed |
| RendererProperties.ResetClears | render_notes.py:502-506 | outside recording the reset cannot raise; it empties every list, releases every key, keeps every cursor and sets the queue start to 2 |
| RendererProperties.ClearNeverFaults | render_notes.py:503-505 | outside recording, clearing and releasing the keys raises nothing |
| RendererProperties.ResetThenPlaceSkips | render_notes.py:502-523 | after a reset, a key's new list is the new tune's times, but its cursor is the old one, so `peek` skips that many new events |
| RendererProperties.InitialIsQuiet | render_notes.py:373-407 | a new renderer may progress and is not reviewing a recording; every key is fresh |

## Left out

- Drawing is not modelled: the squares' positions, colours, fonts, the window and its caption. `_rearrange` and the repositioning half of `_setup_keys` only move squares on screen, so key 2 only flips `is_staggered`.
- `time.time()`, the pygame event queue, window focus and the MIDI input port are parameters of `Update`. The bytes read from the port are reduced to the list of note-on pitches, filtered for status 144 (render_notes.py:627-636).
- The MIDI output, the macro keystroke device and `save`'s file writing are not performed. They appear as entries of an effect log and as the notes handed to `save`.
- The settings forwarding of `__getattr__` and `__setattr__` is not modelled: the renderer holds a settings record, and every read or write of a setting goes to it. The drawing fields of `GameSettings` are also left out.
- The file lookup and `read_midi_file` in `enqueue_file` are not modelled; `EnqueueNotes` takes the notes read. The printed messages are not modelled either.
- `dump_midi_file` is modelled without the file-name search, the mido file object and `mido.second2tick`. The deltas are in seconds; the integer truncation of the tick count is not modelled, so `DeltasTelescope` holds for seconds, not for ticks.
- Times are exact reals, not floats: float rounding in the clock, the offsets and the speed steps is not modelled.
- Transpose.ApplyPenalty: the "Not parallel" assertion is a precondition rather than a fault, because the only caller passes twelve bins and a twelve-entry mask.
- Keys.KeySquare.RealDown: the "Refuse!" assertion is not modelled as a fault, because it cannot fail. Every settings value satisfies `macro_output ==> ignore_keypresses`.
- Keys.KeySquare.RealUp: the same holds for the "Refuse!" assertion of `real_up`.
- `start`, `draw` and `main` (the game loop, window set-up and sleep) are not modelled.
- read_notes.py's `discover_files` and `main` are not modelled. The interception driver and the MuseScore integration are not part of this model.
