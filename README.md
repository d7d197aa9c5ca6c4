# Harmony Lab, the generation engine in Dafny

Harmony Lab is a browser loop-sketching tool. Each bar of a chord progression becomes a chord. From the chords it generates three parts:

- a bass line, with four slots a bar;
- an arpeggio, with sixteen slots a bar;
- a lead line, with eight slots a bar.

Each note is the pitch class the pattern asks for, placed nearest the previous note. The user may type notes for a part. Typed notes are fitted to the part's length and replace the generated ones. Every part is run-length encoded into note events, and the events are merged and stably sorted by step. A lookahead scheduler turns steps into seconds, with swing on the off-16ths. On every tick it dispatches the drum steps and note events that fall due, looping the event list for ever. An application store keeps the settings, the progression, the notes and the note text in step. A preset table in local storage saves, loads, lists and deletes named snapshots.

This project models that core and proves what it promises. The modules follow the source files:

| module | file | source |
|---|---|---|
| `Notes` | notes.dfy | `src/theory/notes.ts`: note tokens, clamping, note-text parsing and formatting, transposition, the nearest-pitch rule |
| `Scales` | scales.dfy | `src/theory/scales.ts`: scale and pentatonic pitch classes |
| `Chords` | chords.dfy | `src/theory/chords.ts`: the quality tables and chord pitch classes |
| `Progressions` | progressions.dfy | `src/theory/progressions.ts`: canonical progressions, normalising, validating |
| `Sorting` | sorting.dfy | the stable sort by an integer key that `Array.prototype.sort` provides (stable since ECMAScript 2019) |
| `Sequence` | sequence.dfy | `src/engine/sequence.ts`: the three generators, fitting user arrays, the run-length encoder, the whole sequence |
| `Scheduler` | scheduler.dfy | `src/engine/scheduler.ts`: step times, the scheduler's run state and its tick, start, stop and update operations |
| `Presets` | presets.dfy | `src/features/presets/localStorage.ts`: the preset list in local storage |
| `Store` | store.dfy | `src/store/useAppStore.ts`: progression repair, note text, and the store actions |

Each operation takes the same form as in the source:

- The source's loops are methods with loop invariants, proved against a specification function. Examples: `GenerateBass`, `NotesToEvents`, `EnsureLength`, `ParseNoteText`, `ClosestMidiToTarget`, `BuildProgression`, `RefillDegrees`, and the scheduler's drum and event passes.
- Expressions and table lookups are functions.
- The scheduler's closure state is two classes whose methods update their fields. The synthesiser and the note listener become a trace of `Call` records.
- The preset storage is a class over an abstract slot.
- The store's snapshots are values. Each action returns the next snapshot, the way the store's `set` replaces its state.

MIDI values and steps are unbounded integers. Times are exact reals. JavaScript's `%` (sign of the dividend) is written out as `TruncRem` wherever an operand can be negative.

Near the ends of the MIDI range the nearest-pitch rule clamps its candidate, and the clamped note can lose its pitch class (see "## Findings"). The generators use the rule as the program writes it, so the model plays what the program plays. One effect is that a bass line falling by thirds reaches MIDI 0 and plays a C on a B chord (`Sequence.BassFloorLine`). While the notes stay within 6..121 every bass bar keeps the chord root and its fifth (`Sequence.BassPitchClasses`).

## Model

| member | source | states |
|---|---|---|
| Notes.ClampMidi | src/theory/notes.ts:96-98 | the result is in 0..127; it is the input when that is in range, 0 below and 127 above |
| Notes.MatchToken | src/theory/notes.ts:92 | a token matches exactly when it is a letter A–G or a–g, then nothing, `-`, one of `#`, `b`, `B`, or one of those followed by `-`, then one digit; the name read is the upper-case letter followed by `#` for `#` and `b` for `b` or `B`, and the octave is the digit, negated after `-` |
| Notes.NoteTokenToMidi | src/theory/notes.ts:100-126 | a parsed pitch lies in 0..127, and the result is a rest exactly when the token is `---`; every other outcome is a pitch or one of the three refusals |
| Notes.SemitoneNameFacts | src/theory/notes.ts:55-88 | each of the twelve canonical names is a capital letter with an optional `#` or `b`, and the name table maps it back to its own pitch class |
| Notes.MidiToNoteToken | src/theory/notes.ts:128-138 | it gives `---` exactly for a rest |
| Notes.CanonicalTokenShape | src/theory/notes.ts:105-113 | the canonical spelling of a pitch class followed by an octave in -1..9 matches the token pattern with that name and octave |
| Notes.MidiTokenRoundTrip | src/theory/notes.ts:100-138 | for every m in 0..127, parsing the token of m gives m back |
| Notes.MidiTokenRoundTripClamps | src/theory/notes.ts:128-138 | for any integer m, parsing the token of m gives m clamped to 0..127 |
| Notes.CanonicalTokenRoundTrip | src/theory/notes.ts:111-137 | a canonical token with octave o in -1..9 parses to (o+1)*12+pc when that is at most 127, and that number formats back to the same token |
| Notes.TopOctaveClamps | src/theory/notes.ts:116-125 | a valid token above MIDI 127 (B9) parses to 127, which formats as G9, so that token does not round-trip |
| Notes.TokenExamples | tests/theory.spec.ts:14-19 | C1, Eb3 and F#4 parse to 24, 51 and 66 and format back to the same tokens |
| Notes.HighTokenExamples | tests/theory.spec.ts:14-19 | A5 and B7 parse to 81 and 107 and format back to the same tokens |
| Notes.LowerCaseTokenExample | src/theory/notes.ts:111-113 | a lower-case letter with a lower-case `b` (`db4`) is normalised and parses to 61 |
| Notes.RefusedTokenExamples | src/theory/notes.ts:105-118 | H4 and C10 do not match the pattern, and C-2 has an octave out of range |
| Notes.UnknownSpellingExamples | src/theory/notes.ts:120-123 | E#4 and Cb4 match the pattern but are not in the name table, so they are refused |
| Notes.TokenPitch | src/theory/notes.ts:144-152 | a token's pitch, with a refusal read as a rest, lies in 0..127 |
| Notes.TokensToMidi | src/theory/notes.ts:144-152 | one entry per token |
| Notes.TokensToMidiRests | src/theory/notes.ts:144-152 | an entry is a rest exactly when its token is `---` or refused, and otherwise it is the token's parsed pitch |
| Notes.TokenizeYieldsWords | src/theory/notes.ts:158-162 | splitting on whitespace yields only non-empty words with no whitespace in them |
| Notes.TokenizeJoin | src/theory/notes.ts:158-162 | splitting words joined by single spaces gives back the same words |
| Notes.PadTokens | src/theory/notes.ts:164-169 | exactly n tokens: the first n of the input, padded with `---` |
| Notes.RefusedTokens | src/theory/notes.ts:171-183 | the refused tokens are kept tokens that fail to parse, listed in order |
| Notes.ParseNoteText | src/theory/notes.ts:154-186 | exactly `expectedLength` pitches; they are the padded and cut tokens parsed, and the invalid list is the refused ones among them |
| Notes.ReadToken | src/theory/notes.ts:172-183 | one token's pitch; it is refused exactly when parsing fails, and then it is not `---` and gives a rest |
| Notes.ReadTokens | src/theory/notes.ts:171-185 | the loop over the kept tokens gives their pitches and the refused ones in order |
| Notes.FormatThenParse | src/theory/notes.ts:154-190 | parsing formatted text at the same length gives back the pitches, clamped, and reports no invalid token |
| Notes.FormatNoteText | src/theory/notes.ts:188-190 | splitting the text on white space gives back exactly one token per slot, each the slot's own token |
| Notes.KeyPitchClass | src/theory/notes.ts:192-205 | every key names a pitch class in 0..11 |
| Notes.TransposePitchClass | src/theory/notes.ts:207-209 | the result is in 0..11 and congruent to pc + semitones modulo 12, for negative shifts too |
| Notes.TransposeMatchesRuntime | src/theory/notes.ts:207-209 | it equals the source's double remainder, with remainders that keep the dividend's sign |
| Notes.MidiForPitchClass | src/theory/notes.ts:211-213 | in 0..127, and exactly (octave+1)*12+pc when that is in range |
| Notes.Windowed | src/theory/notes.ts:224-229 | the two window loops end within six semitones of the reference |
| Notes.ClosestMidi | src/theory/notes.ts:215-246 | in 0..127, and within six semitones of any reference in 0..127 |
| Notes.RefineIsIdentity | src/theory/notes.ts:231-243 | the two twelve-semitone refinements never change the windowed candidate |
| Notes.ClosestMidiToTarget | src/theory/notes.ts:215-246 | the two while loops and the refinements compute `ClosestMidi`: in 0..127 and within six semitones of the reference |
| Notes.ClosestMidiExamples | tests/theory.spec.ts:46-49 | (0,60,4) gives 60, (0,73,4) gives 72 and (0,47,3) gives 48 |
| Notes.ClosestMidiLowEdge | src/theory/notes.ts:224-245 | for (7,0,4) the windowed candidate is -5 and the result, clamped, is 0 |
| Notes.ClosestMidiKeepsPitchClass | src/theory/notes.ts:224-229 | away from the clamp, the result has the target pitch class |
| Notes.NearestInRange | src/theory/notes.ts:215-246 | the corrected rule: a pitch in 0..127 of the target's class, for every reference in 0..127 |
| Notes.NearestInRangeIsNearest | src/theory/notes.ts:215-246 | no pitch of the class in 0..127 is nearer the reference than the corrected rule's |
| Notes.NearestInRangeLowEdge | tests/theory.spec.ts:50 | the corrected rule gives 7 for (7, 0, 4), as the unit test expects |
| Notes.NearestInRangeAgrees | src/theory/notes.ts:224-245 | for references in 6..121 the corrected rule and the program's rule give the same pitch |
| Scales.Intervals | src/theory/scales.ts:4-9 | seven intervals, each in 0..11 |
| Scales.ScalePitchClasses | src/theory/scales.ts:7-11 | seven pitch classes in 0..11; element i is the key's root plus interval i, modulo 12 |
| Scales.PentatonicIndices | src/theory/scales.ts:15-17 | five indices into the scale, each in 0..6 |
| Scales.PentatonicPitchClasses | src/theory/scales.ts:13-18 | five pitch classes; element i is the scale degree the mode's index table picks |
| Scales.PentatonicInScale | src/theory/scales.ts:13-18 | every pentatonic pitch class is in the scale |
| Scales.ScaleDistinct | src/theory/scales.ts:4-11 | the seven scale pitch classes are pairwise different |
| Scales.RelativeMajor | src/theory/scales.ts:4-5 | the key three semitones above the minor key's root |
| Scales.MinorIsRelativeMajorRotated | src/theory/scales.ts:4-11 | a natural minor scale is its relative major's scale started from the sixth degree |
| Scales.MajorScaleExample | tests/theory.spec.ts:22 | C major is [0,2,4,5,7,9,11] |
| Scales.MinorScaleExample | tests/theory.spec.ts:23 | A minor is [9,11,0,2,4,5,7] |
| Scales.MajorPentatonicExample | tests/theory.spec.ts:27 | the C major pentatonic is [0,2,4,7,9] |
| Scales.MinorPentatonicExample | tests/theory.spec.ts:28 | the A minor pentatonic is [9,0,2,4,7] |
| Chords.Quality | src/theory/chords.ts:9-27 | every table entry is a triad starting at interval 0 plus a seventh, all in 0..11 |
| Chords.ChordPitchClasses | src/theory/chords.ts:29-44 | four pitch classes with the seventh and three without; the first is the scale degree's pitch class; all lie in 0..11 |
| Chords.ChordOnRoot | src/theory/chords.ts:39-43 | tone j is the root plus the table's interval j, modulo 12, with the seventh appended last |
| Chords.ChordTones | src/theory/chords.ts:35-43 | each chord tone is the scale root of the degree transposed by its table interval |
| Chords.TriadIsSeventhChordPrefix | src/theory/chords.ts:39-43 | the triad is the first three tones of the seventh chord |
| Chords.IntervalTablesStackThirds | src/theory/chords.ts:9-27 | each chord tone lies, up to an octave, on the scale step two, four or six degrees above the chord's degree, in both modes, except four minor-mode tones that match no scale step: the fifth of ii and the third of V are raised a semitone, and the third and fifth of vii are lowered one |
| Chords.ChordTonesAreScaleSteps | src/theory/chords.ts:35-43 | in major, every chord tone is the scale pitch class of the degree two, four or six steps up |
| Chords.MajorChordsAreDiatonic | src/theory/chords.ts:9-17 | every tone of a major-mode chord is in the major scale |
| Chords.MajorChordExamples | tests/theory.spec.ts:32-33 | C major degree 0 is [0,4,7,11] and degree 4 is [7,11,2,5] |
| Chords.MinorChordExample | tests/theory.spec.ts:34 | A minor degree 0 is [9,0,4,7] |
| Progressions.Patterns | src/theory/progressions.ts:3-13 | three patterns of four degrees each, per mode |
| Progressions.CanonicalDegrees | src/theory/progressions.ts:15-25 | exactly `bars` degrees |
| Progressions.BuildProgression | src/theory/progressions.ts:15-25 | the pattern-pushing loop gives `bars` as the bar count and the canonical degrees |
| Progressions.PatternBlock | src/theory/progressions.ts:19-23 | the four degrees of block k are pattern k mod 3 |
| Progressions.PatternPeriod | src/theory/progressions.ts:19-23 | the degrees repeat every twelve bars |
| Progressions.EveryFourthBarIsTonic | src/theory/progressions.ts:3-13 | every fourth bar, starting with the first, is degree 0 |
| Progressions.CanonicalPrefix | src/theory/progressions.ts:15-25 | a shorter canonical progression is a prefix of a longer one |
| Progressions.CanonicalExamples | tests/progressions.spec.ts:12-14 | major over 4 bars is [0,4,5,3]; minor over 16 bars starts [0,3,4,3] |
| Progressions.Normalized | src/theory/progressions.ts:27-35 | exactly `bars` degrees |
| Progressions.NormalizeProgression | src/theory/progressions.ts:27-35 | the slice-pushing loop keeps the bar count and gives the normalised degrees |
| Progressions.NormalizedKeepsPrefix | src/theory/progressions.ts:27-39 | the result validates; the user's prefix is kept, or cut to `bars`; missing bars take the canonical degree of the same bar |
| Progressions.NormalizeIdempotent | src/theory/progressions.ts:27-35 | degrees already of the right length are unchanged, so normalising twice is normalising once |
| Progressions.NormalizeEmpty | src/theory/progressions.ts:27-35 | normalising no degrees gives the canonical progression |
| Progressions.NormalizeExample | tests/progressions.spec.ts:18-20 | [0,1,2] in major over four bars becomes [0,1,2,3] |
| Progressions.ValidateExamples | tests/progressions.spec.ts:28-29 | four degrees validate for four bars; three do not |
| Progressions.ValidateProgression | src/theory/progressions.ts:37-39 | a progression is valid for `bars` exactly when normalizing it, in either mode, leaves it unchanged |
| Sorting.SortBy | src/engine/sequence.ts:181 | the same length and a permutation of the input |
| Sorting.SortBySorted | src/engine/sequence.ts:181 | the result is in key order |
| Sorting.SortByKeepsOrderedFilter | src/engine/sequence.ts:181 | a subsequence already in key order comes out of the sort unchanged |
| Sorting.SortByStable | src/engine/sequence.ts:181 | the elements sharing one key keep their order |
| Sequence.PartSteps | src/engine/sequence.ts:14-18 | four, eight or sixteen slots a bar |
| Sequence.ToMidi | src/engine/sequence.ts:29-34 | in 0..127; the first note is the pitch class in the preferred octave; every later one is within six semitones of the last |
| Sequence.BassBar | src/engine/sequence.ts:40-46 | four slots a bar |
| Sequence.BassNotes | src/engine/sequence.ts:36-49 | four slots per bar |
| Sequence.GenerateBass | src/engine/sequence.ts:36-49 | the loop builds the bass line bar by bar |
| Sequence.BassStep | src/engine/sequence.ts:39-47 | one loop pass appends the next bar and moves `last` to its root |
| Sequence.BassShape | src/engine/sequence.ts:40-46 | in every bar slots 0, 1 and 3 hold the same note and slot 2 holds a note within six semitones of it |
| Sequence.BassFirstRoot | src/engine/sequence.ts:38-43 | the first note is the first chord's root in octave 2 |
| Sequence.BassVoiceLed | src/engine/sequence.ts:43-46 | the line stays in 0..127 and each note is within six semitones of the one before |
| Sequence.BassBarVoiceLed | src/engine/sequence.ts:40-46 | a bar appended after a voice-led line keeps it voice-led and in range |
| Sequence.BassBarPitchClasses | src/engine/sequence.ts:41-44 | a bar's root has the chord root's pitch class when there is no previous note or it lies in 6..121, and its fifth has the class seven semitones up when the root lies in 6..121 |
| Sequence.BassPitchClasses | src/engine/sequence.ts:36-49 | for chord roots in 0..11, every bar of the line plays the chord root and its fifth by pitch class while the notes before them stay in 6..121 |
| Sequence.BassFloorExample | src/engine/sequence.ts:43-44 | a B root after a root at MIDI 2 is placed at -1 and clamped to 0, a C, with the fifth at 6 |
| Sequence.FallingLine | src/engine/sequence.ts:36-49 | the C major roots C A F D B G E C A F D fall a third a bar, from 36 to 2 |
| Sequence.BassFloorLine | src/engine/sequence.ts:36-49 | the twelfth bar of that progression, a B, is played as MIDI 0, so its root loses its pitch class |
| Sequence.ArpBars | src/engine/sequence.ts:51-66 | sixteen slots per bar |
| Sequence.ArpSteps | src/engine/sequence.ts:55-63 | 16*bar + step slots so far; each is the step's chord tone `[0,2,1,3][step mod 4]`, wrapped at the chord's size, placed in preferred octave 4 |
| Sequence.GenerateArp | src/engine/sequence.ts:51-66 | the nested loops build the arpeggio step by step |
| Sequence.ArpVoiceLed | src/engine/sequence.ts:57-63 | the arpeggio has no rests, stays in 0..127 and is voice-led |
| Sequence.LeadPattern | src/engine/sequence.ts:77-86 | eight slots: chord tones, pentatonic tones and rests in slots 1 and 5 |
| Sequence.LeadBars | src/engine/sequence.ts:68-99 | eight slots per bar |
| Sequence.LeadSteps | src/engine/sequence.ts:87-96 | 8*bar + step slots so far |
| Sequence.LeadStepsNext | src/engine/sequence.ts:87-96 | one step appends a rest for a rest slot, and otherwise the pattern's pitch class nearest the last note |
| Sequence.GenerateLead | src/engine/sequence.ts:68-99 | the nested loops, with `continue` on rests, build the lead line |
| Sequence.LeadVoiceLed | src/engine/sequence.ts:87-96 | the lead stays in 0..127 and each note is within six semitones of the previous note, skipping rests |
| Sequence.LeadRestSlots | src/engine/sequence.ts:77-92 | slots 1 and 5 of every bar are rests, and the other six are notes |
| Sequence.Fitted | src/engine/sequence.ts:137-144 | exactly n slots: the source's first n, padded with rests |
| Sequence.EnsureLength | src/engine/sequence.ts:130-145 | no array gives no array; otherwise the array fitted to the target length |
| Sequence.RunEnd | src/engine/sequence.ts:117-122 | the lookahead loop's stop: every slot of the run equals the first, and the slot after the run differs |
| Sequence.NotesToEvents | src/engine/sequence.ts:101-128 | the nested loops emit exactly the run-length events |
| Sequence.EventsRoundTrip | src/engine/sequence.ts:101-128 | expanding the events back onto slots gives back the array |
| Sequence.EventsShape | src/engine/sequence.ts:101-128 | every event is of the part, holds a note, lasts at least one slot, lies within the array's steps, and ends before the next one starts |
| Sequence.EventsMaximal | src/engine/sequence.ts:117-124 | two events that touch hold different notes, so every run is maximal |
| Sequence.EventsDuration | src/engine/sequence.ts:117-125 | the durations add up to one slot's steps per note |
| Sequence.OneRunOneEvent | src/engine/sequence.ts:117-125 | a run of m equal notes followed only by rests is one event of m slots from step 0 |
| Sequence.RestsGiveNoEvents | src/engine/sequence.ts:110-116 | rests emit no events |
| Sequence.EnsureChord | src/engine/sequence.ts:25-27 | four pitch classes, starting at the degree's scale pitch class |
| Sequence.BarDegrees | src/engine/sequence.ts:153-156 | one degree per bar |
| Sequence.BarDegreesCycle | src/engine/sequence.ts:153-156 | the progression is read in order, then repeated from its start |
| Sequence.CycleDegrees | src/engine/sequence.ts:153-156 | the loop reads the degrees cyclically |
| Sequence.BarChords | src/engine/sequence.ts:158-160 | one non-empty chord per bar |
| Sequence.GeneratedFrom | src/engine/sequence.ts:163-167 | the parts have bars*8, bars*16 and bars*4 slots |
| Sequence.SlotSizeSplitsBar | src/engine/sequence.ts:177 | a part's steps per slot times its slots a bar is sixteen, and its length is its slots a bar times the bars |
| Sequence.Chosen | src/engine/sequence.ts:170-172 | exactly n slots: the user's array fitted to n when there is one, and otherwise the generated part |
| Sequence.PlayedParts | src/engine/sequence.ts:169-173 | every part played has its full length |
| Sequence.PlayedWithoutUser | src/engine/sequence.ts:169-173 | with no user arrays, the generated parts are played |
| Sequence.CollectEvents | src/engine/sequence.ts:175-179 | the loop gathers the encoded parts in bass, arp, lead order |
| Sequence.CollectedInOrder | src/engine/sequence.ts:175-179 | the collected events are the bass events, then the arpeggio's, then the lead's |
| Sequence.PartEventsWithinLoop | src/engine/sequence.ts:175-179 | a part's events lie inside the loop of bars*16 steps and do not overlap |
| Sequence.PartEventsSorted | src/engine/sequence.ts:101-128 | a part's events come out in step order |
| Sequence.PartFilter | src/engine/sequence.ts:175-179 | picking one part out of a part's events keeps all of them for that part and none for another |
| Sequence.CollectedByPart | src/engine/sequence.ts:175-179 | the collected events picked out by part are that part's events |
| Sequence.GenerateParts | src/engine/sequence.ts:152-167 | the degree loop, the chords and the three generators give the generated parts |
| Sequence.ChooseParts | src/engine/sequence.ts:169-173 | the parts played are the user's arrays fitted to length, or the generated parts |
| Sequence.GenerateSequence | src/engine/sequence.ts:147-187 | the returned events and generated notes are those of the specification |
| Sequence.SequenceWithoutUser | src/engine/sequence.ts:163-181 | with no user arrays, the events are those of the generated parts |
| Sequence.SequenceSorted | src/engine/sequence.ts:175-181 | the events are sorted by step, are a permutation of the collected events, and give back each part's own events when picked out by part |
| Sequence.SequenceTiesKeepPartOrder | src/engine/sequence.ts:181 | events on the same step keep the bass, arp, lead order |
| Sequence.SequenceRoundTrip | src/engine/sequence.ts:169-181 | a part's events in the final list decode back to the part's slots |
| Sequence.SequenceDuration | tests/sequence.spec.ts:42-49 | a part's durations sum to its notes times its steps per slot |
| Sequence.SequenceWithinLoop | tests/sequence.spec.ts:50-53 | every event of a part ends by bars*16 and none overlap |
| Sequence.GeneratedLeadOpens | tests/sequence.spec.ts:73-76 | the generated lead's first slot is a note |
| Sequence.GeneratedLeadSounds | tests/sequence.spec.ts:73-76 | without a user lead, the lead has events |
| Sequence.FullUserLeadExample | tests/sequence.spec.ts:63-71 | a user lead of 32 slots of 72 over four bars is one event of 64 steps from step 0 |
| Sequence.ShortUserLeadExample | tests/sequence.spec.ts:78-86 | a user lead of five slots of 72 is padded and plays as one event of ten steps |
| Sequence.LongUserArpExample | tests/sequence.spec.ts:80-92 | a user arpeggio of 72 slots over four bars is cut, so every arp event ends by step 64 |
| Scheduler.StepDurationSeconds | src/engine/scheduler.ts:8-10 | a step lasts a positive number of seconds |
| Scheduler.StepDurationExample | src/engine/scheduler.ts:8-10 | at 120 beats per minute a step is 0.125 s |
| Scheduler.StepToTime | src/engine/scheduler.ts:12-17 | an odd non-negative step falls at (step + swing) times 15/bpm seconds, every other step at step times 15/bpm |
| Scheduler.SwungIsOdd | src/engine/scheduler.ts:14-15 | the swung steps are exactly the odd steps from 0 on; a negative step is never swung |
| Scheduler.StepTimeExamples | tests/scheduler.spec.ts:7-24 | step 0 is at 0; without swing step 1 is one step in; every fourth step is unswung; steps 4k+1 and 4k+2 are a step length times (1 - swing) apart; swing delays step 1 |
| Scheduler.StepTimeAtLeast | src/engine/scheduler.ts:12-17 | with swing at least 0, a step is never earlier than its unswung time |
| Scheduler.StepTimeMonotone | src/engine/scheduler.ts:12-17 | with swing in 0..1, a later step is never earlier |
| Scheduler.DueStepBound | src/engine/scheduler.ts:52-57 | a due drum step is bounded by the whole step lengths up to the horizon, so the drum loop ends |
| Scheduler.Notification | src/engine/scheduler.ts:69 | one notification when a listener is set, none otherwise |
| Scheduler.DrumCalls | src/engine/scheduler.ts:52-60 | one drum call per step dispatched, each carrying its step modulo the loop length and its time |
| Scheduler.Next | src/engine/scheduler.ts:71-75 | the index stays within the list; the end wraps to 0 and counts a loop |
| Scheduler.Advance | src/engine/scheduler.ts:71-75 | after any number of events the index stays within the list |
| Scheduler.AdvanceWithinLoop | src/engine/scheduler.ts:71-75 | within one loop the cursor moves index by index |
| Scheduler.AdvanceOneLoop | src/engine/scheduler.ts:72-75 | a whole pass through the list lands on index 0 with one more loop counted |
| Scheduler.NextStepNotEarlier | src/engine/scheduler.ts:62-76 | over a sorted list within the loop, the absolute step never goes down as the cursor moves |
| Scheduler.EventsInTimeOrder | src/engine/scheduler.ts:62-76 | over such a list, with swing in 0..1, events are played in time order |
| Scheduler.LoopWithinBound | src/engine/scheduler.ts:62-68 | a due event bounds the loop count, so the event loop ends |
| Scheduler.SortedFitsLoop | src/engine/scheduler.ts:81 | events whose steps lie in the loop fit it once sorted by step |
| Scheduler.LaterDrumsNotDue | src/engine/scheduler.ts:52-57 | after a tick no drum step from the cursor on is due |
| Scheduler.LaterEventsNotDue | src/engine/scheduler.ts:62-68 | after a tick no event from the cursor on is due |
| Scheduler.EventTimesAscend | src/engine/scheduler.ts:62-76 | later events along the cursor are never earlier |
| Scheduler.DrumCursorAt | src/engine/scheduler.ts:52-60 | the drum cursor stops exactly at the first step not due |
| Scheduler.EventCursorAt | src/engine/scheduler.ts:62-76 | the event cursor stops exactly at the first event not due |
| Scheduler.FirstDueIsPlayed | src/engine/scheduler.ts:62-70 | when the event under the cursor is due, it is dispatched first: its notification, then its play |
| Scheduler.ScheduleState.constructor | src/engine/scheduler.ts:83-91 | the events, settings and start time given, a loop of bars*16 steps, every cursor at zero |
| Scheduler.ScheduleState.Rewind | src/engine/scheduler.ts:122-125 | the start time re-anchored to now and every cursor at zero |
| Scheduler.ScheduleState.DrumPass | src/engine/scheduler.ts:52-60 | every due drum step from the cursor is dispatched in order, once each, and the cursor stops at the first step not due |
| Scheduler.ScheduleState.Poll | src/engine/scheduler.ts:45-77 | the drum pass, then the event pass, and the calls of both in that order |
| Scheduler.ScheduleState.EventPass | src/engine/scheduler.ts:62-76 | every due event from the cursor is dispatched (notification, then play) and the cursor wraps at the end; an empty list dispatches nothing |
| Scheduler.Scheduler.constructor | src/engine/scheduler.ts:39-43 | stopped, no timer, no cached events or settings, no listener |
| Scheduler.Scheduler.Tick | src/engine/scheduler.ts:45-77 | nothing while stopped; otherwise one poll up to now plus 0.25 s, with all other state unchanged |
| Scheduler.Scheduler.ResetSchedule | src/engine/scheduler.ts:79-92 | the events are cached sorted by step, the settings cached, and a fresh run state is anchored at now |
| Scheduler.Scheduler.Start | src/engine/scheduler.ts:94-106 | a fresh run state, one stopAll, a null notification, the timer set, then one tick from zeroed cursors |
| Scheduler.Scheduler.Stop | src/engine/scheduler.ts:108-116 | the timer cleared, one stopAll, no run state, then a null notification |
| Scheduler.Scheduler.SetEvents | src/engine/scheduler.ts:118-128 | the events cached sorted; while running, they replace the run's events and the run restarts from now; then a null notification |
| Scheduler.Scheduler.UpdateSettings | src/engine/scheduler.ts:130-141 | the settings cached; while running, they replace the run's settings, the loop length follows the bars, and the run restarts from now; then a null notification |
| Scheduler.Scheduler.IsRunning | src/engine/scheduler.ts:143-145 | running exactly when the timer is set |
| Scheduler.Scheduler.SetOnNote | src/engine/scheduler.ts:147-150 | the listener is set and hears null at once |
| Scheduler.ScenarioSorted | tests/scheduler.spec.ts:44-47 | the test's two events are already sorted and fit a four-bar loop |
| Scheduler.ScenarioTimes | tests/scheduler.spec.ts:28-47 | the test's step times at 120 bpm with swing 0.1 |
| Scheduler.ScenarioStartCursors | tests/scheduler.spec.ts:64 | the first tick at time 0 dispatches drum steps 0..2 and the first event |
| Scheduler.ScenarioStartTrace | tests/scheduler.spec.ts:64-75 | the exact calls of that first tick |
| Scheduler.ScenarioTickCursors | tests/scheduler.spec.ts:79-88 | a tick at 0.35 s (horizon 0.6 s) dispatches drum steps 3 and 4 and the second event, wrapping the cursor to loop 1; the test reaches that time through successive 50 ms ticks, the model through one tick |
| Scheduler.ScenarioTickTrace | tests/scheduler.spec.ts:67-88 | the exact calls of that tick, which play the second event |
| Scheduler.ScenarioStarted | tests/scheduler.spec.ts:64-65 | starting records one stopAll, then the first tick's calls |
| Scheduler.ScenarioTicked | tests/scheduler.spec.ts:67-88 | the next tick appends its calls to the trace |
| Scheduler.RuntimeScenario | tests/scheduler.spec.ts:54-94 | start, a tick and stop give a trace with two stopAll calls and both events played; the scheduler runs after the tick and no longer runs after stop |
| Presets.ReadPresets | src/features/presets/localStorage.ts:25-40 | the stored list, or the empty list when there is no storage, no value or a value that is not a list |
| Presets.WriteThenRead | src/features/presets/localStorage.ts:25-48 | reading gives back what was written, whenever there is storage |
| Presets.FirstNamed | src/features/presets/localStorage.ts:57-60 | an entry found is stored and has the name; nothing is found exactly when no entry has the name |
| Presets.FirstIsNamedHead | src/features/presets/localStorage.ts:57-60 | the entry found is the first of the entries with that name |
| Presets.ListPresets | src/features/presets/localStorage.ts:62-64 | the same length and a permutation of the stored list |
| Presets.ListNewestFirst | src/features/presets/localStorage.ts:62-64 | a permutation ordered newest first; entries created at the same time keep their stored order |
| Presets.PresetStorage.constructor | src/features/presets/localStorage.ts:14-23 | the storage starts with the slot it is given |
| Presets.PresetStorage.Save | src/features/presets/localStorage.ts:50-55 | the slot becomes the stored list without the payload's name, with the payload appended and stamped with now |
| Presets.PresetStorage.Delete | src/features/presets/localStorage.ts:66-69 | the slot becomes the stored list without the entries of that name |
| Presets.SaveReplaces | src/features/presets/localStorage.ts:50-55 | after a save exactly one entry has the name: the last one, stamped with now; the others keep their order |
| Presets.SaveKeepsOthers | src/features/presets/localStorage.ts:50-55 | a save leaves the entries of every other name, and what loading them finds, as they were |
| Presets.DeleteRemovesName | src/features/presets/localStorage.ts:66-69 | exactly the entries of that name go, the rest keep their order, deleting again changes nothing, and loading the name then finds nothing |
| Presets.TwoSaves | tests/presets.spec.ts:48-49 | saving Warm Pad at 1 and then Bright Lead at 2 stores both, in that order |
| Presets.TwoListed | tests/presets.spec.ts:51-52 | listing them gives Bright Lead before Warm Pad |
| Presets.StorageScenario | tests/presets.spec.ts:44-62 | the test's saves, list, load and delete: names listed newest first; Warm Pad loads with createdAt 1 and bpm 100; after its delete it is not found |
| Store.WithText | src/store/useAppStore.ts:261-263 | the part's text is replaced and every other part's text is kept |
| Store.WithUser | src/store/useAppStore.ts:269 | the part's user notes are replaced and every other part's are kept |
| Store.DeriveNoteText | src/store/useAppStore.ts:147-153 | each part's text splits into exactly that part's note tokens, one per slot |
| Store.DerivedTextParsesBack | src/store/useAppStore.ts:147-153 | text derived from notes parses back, at the part's length, to those notes clamped, with no invalid token |
| Store.ExpectedLengthIsPartLength | src/store/useAppStore.ts:267 | text is parsed into exactly as many slots as the sequence plays for the part |
| Store.Current | src/store/useAppStore.ts:181-184 | reading a field back gives a change of that same field |
| Store.ChangeOnlyNamed | src/store/useAppStore.ts:183-184 | a change sets its own field to its value and leaves every other field alone |
| Store.ChangeToCurrent | src/store/useAppStore.ts:183-184 | writing a field's current value changes nothing |
| Store.SyncProgression | src/store/useAppStore.ts:131-145 | exactly `bars` degrees: the old prefix cut to `bars`, and the canonical degree of each missing bar |
| Store.Refilled | src/store/useAppStore.ts:214-226 | exactly `bars` degrees |
| Store.RefilledKeeps | src/store/useAppStore.ts:214-226 | the given prefix is kept or cut; when the current progression has `bars` degrees, each gap takes the current degree of its bar, and resubmitting the current progression changes nothing |
| Store.RefillDegrees | src/store/useAppStore.ts:217-222 | the push loop gives the given degrees, then the current ones read cyclically |
| Store.RefilledCanonical | src/store/useAppStore.ts:136-140 | filling from the canonical progression of the same length is normalising the progression |
| Store.AfterGenerate | src/store/useAppStore.ts:229-243 | the generated notes and the events are always replaced; unlocked, the user notes are cleared and the text shows the generated notes; locked, both are kept |
| Store.AfterGenerateOf | src/store/useAppStore.ts:231-243 | the material after generating is built from the one sequence generated |
| Store.Regenerate | src/store/useAppStore.ts:229-243 | it computes the material after generating |
| Store.InitialIsGenerated | src/store/useAppStore.ts:81-96 | the starting material is what an unlocked generation without user notes gives |
| Store.GenerateInitial | src/store/useAppStore.ts:86-96 | it computes the starting material |
| Store.GenerateSettles | src/store/useAppStore.ts:229-243 | unlocked, generating twice leaves the notes and text as generating once |
| Store.NoteSource | src/store/useAppStore.ts:305-309 | each part comes from the preset's user notes when it has them, and from its generated notes otherwise |
| Store.ClearShowsGenerated | src/store/useAppStore.ts:274-280 | clearing a store in step leaves no user notes and text that shows the generated notes, locked or not |
| Store.InitialState | src/store/useAppStore.ts:171-180 | the default settings, the canonical 8-bar major progression, the material generated from them, the stored presets listed, and the generated notes in step |
| Store.Generate | src/store/useAppStore.ts:229-247 | only the material changes, to the material after generating, and the store is in step |
| Store.UpdateSetting | src/store/useAppStore.ts:181-213 | only the named setting changes; the progression is re-synced for bars (current mode) or mode (current bars), and kept otherwise; then the store generates |
| Store.UpdateProgression | src/store/useAppStore.ts:214-228 | exactly `bars` degrees, the given prefix kept and the gaps refilled cyclically from the current progression; then the store generates |
| Store.SetNoteText | src/store/useAppStore.ts:261-263 | only the part's text changes |
| Store.SetLockNotes | src/store/useAppStore.ts:281-283 | only the lock changes, and nothing is generated |
| Store.ApplyNoteText | src/store/useAppStore.ts:264-273 | the part's text is parsed to its length and becomes that part's user notes alone; the invalid tokens are returned; then the store generates |
| Store.ClearNotes | src/store/useAppStore.ts:274-280 | every user part is cleared and the text shows the generated notes before generating; in a store in step it still shows them after |
| Store.SavePreset | src/store/useAppStore.ts:287-299 | a snapshot of the store is saved under the name at now, and the presets are listed again |
| Store.LoadPreset | src/store/useAppStore.ts:300-319 | an unknown name changes nothing; otherwise the preset's settings, progression and notes are taken, the text shows its user notes or else its generated notes, and the store generates, which fails on an empty progression |

## Findings

| source | as written | input that shows it | evidently intended | confidence | as-written member | corrected member |
|---|---|---|---|---|---|---|
| src/theory/notes.ts:224-245 | the windowed candidate is clamped to 0..127, which moves it to another pitch class when the window runs past either end | `closestMidiToTarget(7, 0, 4)`: 67 is moved down to -5 and clamped to 0, where tests/theory.spec.ts:50 expects 7 | the nearest pitch of the target class within 0..127 | high, not executed | Notes.ClosestMidiLowEdge | Notes.NearestInRange |

The corrected rule is proved nearest (`Notes.NearestInRangeIsNearest`). It agrees with the program's rule for every reference in 6..121 (`Notes.NearestInRangeAgrees`). The generators keep the program's rule.

## Left out

- Web Audio is not part of this model. That covers the synthesiser's oscillators and drum voices, the mixer, the visualiser and the audio context. The scheduler's synthesiser calls are recorded as `Call` values.
- The polling timer is a boolean, and each timer callback is an explicit `Tick(now)`. `setInterval` and the 50 ms period are not modelled. The audio clock is the `now` parameter.
- The note listener is a boolean: the trace records what it hears when one is set.
- Local storage is an abstract `Slot`. JSON serialisation is not modelled, and neither are `exportPreset` and `importPreset` (thin JSON wrappers).
- `Date.now()` is a parameter.
- The store's `start`, `stop`, `refreshPresets`, `exportPreset` and `importPreset` actions are not modelled. Neither are `ensureEngine`, the auto-gain timer or the mixer and scheduler forwarding calls. These only reach the audio engine, timers or JSON. The store's actions are pure snapshots, and its scheduler calls are no-ops here.
- `clampMidi` rounds non-integer input. MIDI values are integers here, so the rounding is not modelled.
- Sorting in place is modelled as `Sorting.SortBy`, a stable insertion sort on a sequence. The source relies on `Array.prototype.sort`, which is stable.
- Scheduler.StepDurationSeconds: requires bpm > 0. The source's settings range is 70..130.
- Scheduler.ScheduleState.DrumPass: requires swing ≥ 0. So do `Scheduler.ScheduleState.Valid` and the members that set up or keep a schedule: `Scheduler.ScheduleState.constructor`, `Scheduler.ScheduleState.Rewind`, `Scheduler.Scheduler.ResetSchedule`, `Scheduler.Scheduler.Start` and `Scheduler.Scheduler.UpdateSettings`. The model's termination arguments need it: `Scheduler.DueStepBound` bounds the drum loop and `Scheduler.LoopWithinBound` bounds the event loop, both through offsets that are never negative. The source's loops end for any finite swing, because unswung even steps and the loop wrap keep times growing, and the settings range 0..0.25 meets the requirement.
- Scheduler.EventsInTimeOrder: stated for swing in 0..1. The source's settings range is 0..0.25.
- Sequence.GenerateSequence: requires a non-empty progression. With none, the source reads an undefined degree and throws.
  - Store.Generate, Store.UpdateProgression, Store.ApplyNoteText and Store.ClearNotes require it for the same reason.
  - Store.UpdateSetting requires it unless the change re-syncs the progression.
  - Store.LoadPreset reports the throw as the outcome `GenerateFailed`, with the preset already loaded.
- Store.LoadPreset: the source's boolean result is the `LoadOutcome` value.
- Store.InitialState: the source's default settings leave the synth style unset. The model takes `Modern`, the first style.
- Store.UpdateSetting: the scheduler's `updateSettings` and the mixer's update are not modelled.
- Store.Generate: the scheduler's `setEvents` is not modelled. Its effect is `Scheduler.Scheduler.SetEvents`.
