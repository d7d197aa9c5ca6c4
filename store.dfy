/** The application store: the settings, the chord progression, the user's own notes,
    the generated notes, the editable note text of each part and the events handed
    to the scheduler, together with the actions that change them. Every action that
    changes the material regenerates it; the audio engine the actions also notify is
    not part of this model. */
module Store {
  import opened Notes
  import opened Progressions
  import Sequence
  import Presets

  /** The editable text of each part. */
  datatype NoteText = NoteText(lead: string, arp: string, bass: string)

  const NoUserNotes: UserNotes := UserNotes(None, None, None)

  /** The settings the store starts with. The source's literal leaves the synth style
      unset; the model takes the first style. */
  const DefaultSettings: Settings :=
    Settings(C, Major, 8, 90.0, 0.08, 0.8, 1800.0, 0.35, 0.15, true, true, false, false, Modern)

  function TextOf(t: NoteText, part: Part): string {
    match part
    case Lead => t.lead
    case Arp => t.arp
    case Bass => t.bass
  }

  function WithText(t: NoteText, part: Part, value: string): (r: NoteText)
    ensures TextOf(r, part) == value
    ensures forall other :: other != part ==> TextOf(r, other) == TextOf(t, other)
  {
    match part
    case Lead => t.(lead := value)
    case Arp => t.(arp := value)
    case Bass => t.(bass := value)
  }

  function UserOf(u: UserNotes, part: Part): Option<seq<Pitch>> {
    match part
    case Lead => u.lead
    case Arp => u.arp
    case Bass => u.bass
  }

  function WithUser(u: UserNotes, part: Part, notes: Option<seq<Pitch>>): (r: UserNotes)
    ensures UserOf(r, part) == notes
    ensures forall other :: other != part ==> UserOf(r, other) == UserOf(u, other)
  {
    match part
    case Lead => u.(lead := notes)
    case Arp => u.(arp := notes)
    case Bass => u.(bass := notes)
  }

  /** The text of each part: its notes formatted one token per slot. */
  function DeriveNoteText(notes: PartNotes): (r: NoteText)
    ensures forall part :: Tokenize(TextOf(r, part)) == NoteTokens(Sequence.NotesOf(notes, part))
  {
    NoteText(FormatNoteText(notes.lead), FormatNoteText(notes.arp), FormatNoteText(notes.bass))
  }

  /** The pitches as formatting shows them: clamped to the MIDI range. */
  function Clamped(s: seq<Pitch>): (r: seq<Pitch>)
    ensures |r| == |s|
  {
    seq(|s|, i requires 0 <= i < |s| => ClampPitch(s[i]))
  }

  /** Parsing derived text at each part's own length gives back the (clamped) notes and
      reports no invalid token. */
  lemma DerivedTextParsesBack(notes: PartNotes, part: Part)
    ensures var ts := PadTokens(Tokenize(TextOf(DeriveNoteText(notes), part)), |Sequence.NotesOf(notes, part)|);
      TokensToMidi(ts) == Clamped(Sequence.NotesOf(notes, part)) && RefusedTokens(ts) == []
  {
    FormatThenParse(Sequence.NotesOf(notes, part));
  }

  /** The number of slots the text of a part is parsed into. */
  function ExpectedLength(part: Part, bars: nat): nat {
    bars * (if part == Lead then 8 else if part == Arp then 16 else 4)
  }

  /** Text is parsed into exactly the slots the sequence plays for the part. */
  lemma ExpectedLengthIsPartLength(part: Part, bars: nat)
    ensures ExpectedLength(part, bars) == Sequence.PartLength(part, bars)
  {
  }

  // ---------------------------------------------------------------------------
  // Settings changes

  /** A change of one settings field to a new value. */
  datatype SettingChange =
    | KeyChange(key: Key) | ModeChange(mode: Mode) | BarsChange(bars: BarCount)
    | BpmChange(bpm: real) | SwingChange(swing: real) | MasterChange(master: real)
    | CutoffChange(cutoff: real) | DelayChange(delayFB: real) | DriveChange(drive: real)
    | LimiterChange(limiter: bool) | AutoGainChange(autoGain: bool) | NiceChange(nice: bool)
    | LockChange(lockNotes: bool) | StyleChange(synthStyle: SynthStyle)

  datatype SettingField =
    | KeyField | ModeField | BarsField | BpmField | SwingField | MasterField | CutoffField
    | DelayField | DriveField | LimiterField | AutoGainField | NiceField | LockField | StyleField

  function FieldOf(c: SettingChange): SettingField {
    match c
    case KeyChange(_) => KeyField
    case ModeChange(_) => ModeField
    case BarsChange(_) => BarsField
    case BpmChange(_) => BpmField
    case SwingChange(_) => SwingField
    case MasterChange(_) => MasterField
    case CutoffChange(_) => CutoffField
    case DelayChange(_) => DelayField
    case DriveChange(_) => DriveField
    case LimiterChange(_) => LimiterField
    case AutoGainChange(_) => AutoGainField
    case NiceChange(_) => NiceField
    case LockChange(_) => LockField
    case StyleChange(_) => StyleField
  }

  /** The settings with the changed field set to its new value. */
  function Changed(s: Settings, c: SettingChange): Settings {
    match c
    case KeyChange(v) => s.(key := v)
    case ModeChange(v) => s.(mode := v)
    case BarsChange(v) => s.(bars := v)
    case BpmChange(v) => s.(bpm := v)
    case SwingChange(v) => s.(swing := v)
    case MasterChange(v) => s.(master := v)
    case CutoffChange(v) => s.(cutoff := v)
    case DelayChange(v) => s.(delayFB := v)
    case DriveChange(v) => s.(drive := v)
    case LimiterChange(v) => s.(limiter := v)
    case AutoGainChange(v) => s.(autoGain := v)
    case NiceChange(v) => s.(nice := v)
    case LockChange(v) => s.(lockNotes := v)
    case StyleChange(v) => s.(synthStyle := v)
  }

  /** The value a field holds, read back as the change that would set it. */
  function Current(s: Settings, f: SettingField): (c: SettingChange)
    ensures FieldOf(c) == f
  {
    match f
    case KeyField => KeyChange(s.key)
    case ModeField => ModeChange(s.mode)
    case BarsField => BarsChange(s.bars)
    case BpmField => BpmChange(s.bpm)
    case SwingField => SwingChange(s.swing)
    case MasterField => MasterChange(s.master)
    case CutoffField => CutoffChange(s.cutoff)
    case DelayField => DelayChange(s.delayFB)
    case DriveField => DriveChange(s.drive)
    case LimiterField => LimiterChange(s.limiter)
    case AutoGainField => AutoGainChange(s.autoGain)
    case NiceField => NiceChange(s.nice)
    case LockField => LockChange(s.lockNotes)
    case StyleField => StyleChange(s.synthStyle)
  }

  /** A change sets its own field to its value and leaves every other field alone. */
  lemma ChangeOnlyNamed(s: Settings, c: SettingChange, f: SettingField)
    ensures Current(Changed(s, c), FieldOf(c)) == c
    ensures f != FieldOf(c) ==> Current(Changed(s, c), f) == Current(s, f)
  {
    match c
    case KeyChange(_) =>
    case ModeChange(_) =>
    case BarsChange(_) =>
    case BpmChange(_) =>
    case SwingChange(_) =>
    case MasterChange(_) =>
    case CutoffChange(_) =>
    case DelayChange(_) =>
    case DriveChange(_) =>
    case LimiterChange(_) =>
    case AutoGainChange(_) =>
    case NiceChange(_) =>
    case LockChange(_) =>
    case StyleChange(_) =>
  }

  /** Writing a field's current value changes nothing. */
  lemma ChangeToCurrent(s: Settings, f: SettingField)
    ensures Changed(s, Current(s, f)) == s
  {
  }

  // ---------------------------------------------------------------------------
  // Progression repair

  /** Keeps at most `bars` of the degrees and fills up to `bars` from the canonical
      progression of the mode, one degree at a time. */
  method SyncProgression(mode: Mode, bars: BarCount, progression: Progression) returns (p: Progression)
    ensures p == Progression(bars, Normalized(progression.degrees, mode, bars))
  {
    var base := BuildProgression(mode, bars);
    var degrees := RefillDegrees(progression.degrees, base.degrees, bars);
    RefilledCanonical(progression.degrees, mode, bars);
    p := Progression(bars, degrees);
  }

  /** The degrees a progression edit leaves: the given degrees, at most `bars` of them,
      then the current progression's degrees read cyclically. */
  function Refilled(given: seq<Degree>, current: seq<Degree>, bars: nat): (r: seq<Degree>)
    requires |current| >= 1
    ensures |r| == bars
  {
    seq(bars, i requires 0 <= i < bars => if i < |given| then given[i] else current[i % |current|])
  }

  /** The edit keeps the given prefix; when the current progression already has `bars`
      degrees, every gap takes the current degree of the same bar, and resubmitting the
      current progression leaves it as it is. */
  lemma RefilledKeeps(given: seq<Degree>, current: seq<Degree>, bars: nat)
    requires |current| >= 1
    ensures |given| <= bars ==> Refilled(given, current, bars)[..|given|] == given
    ensures |given| >= bars ==> Refilled(given, current, bars) == given[..bars]
    ensures |current| == bars ==> (forall i :: |given| <= i < bars ==> Refilled(given, current, bars)[i] == current[i])
    ensures |current| == bars ==> Refilled(current, current, bars) == current
  {
    if |current| == bars {
      forall i | 0 <= i < bars ensures i % |current| == i {
      }
    }
  }

  /** Takes at most `bars` of the given degrees, then pushes the current degree of the
      next bar, read cyclically, until there are `bars` of them. */
  method RefillDegrees(given: seq<Degree>, current: seq<Degree>, bars: nat) returns (r: seq<Degree>)
    requires |current| >= 1
    ensures r == Refilled(given, current, bars)
  {
    r := if |given| <= bars then given else given[..bars];
    while |r| < bars
      invariant |r| <= bars
      invariant |r| == bars || |given| <= |r|
      invariant forall i :: 0 <= i < |r| ==> r[i] == if i < |given| then given[i] else current[i % |current|]
      decreases bars - |r|
    {
      r := r + [current[|r| % |current|]];
    }
    assert r == Refilled(given, current, bars);
  }

  /** Filling from the canonical progression of the same length is normalizing. */
  lemma RefilledCanonical(given: seq<Degree>, mode: Mode, bars: nat)
    requires bars >= 1
    ensures Refilled(given, CanonicalDegrees(mode, bars), bars) == Normalized(given, mode, bars)
  {
    var canonical := CanonicalDegrees(mode, bars);
    var refilled := Refilled(given, canonical, bars);
    var normalized := Normalized(given, mode, bars);
    forall i | 0 <= i < bars ensures refilled[i] == normalized[i] {
      assert i % bars == i;
    }
    assert refilled == normalized;
  }

  // ---------------------------------------------------------------------------
  // Generating

  /** The fields a regeneration produces. */
  datatype Material = Material(userNotes: UserNotes, generatedNotes: PartNotes, noteText: NoteText,
                               events: seq<NoteEvent>)

  /** The notes generated for settings and a progression, whatever the user wrote. */
  function GeneratedFor(settings: Settings, progression: Progression): PartNotes
    requires |progression.degrees| >= 1
  {
    Sequence.SequenceOf(settings, progression, NoUserNotes).generated
  }

  /** The material after generating: the generated notes and the events always
      replaced; unlocked, the user's notes are dropped and the text shows the
      generated notes; locked, both are kept. The events play the user's notes that
      were there before generating, even when generating then drops them. */
  function AfterGenerate(settings: Settings, progression: Progression, userNotes: UserNotes, noteText: NoteText)
    : (m: Material)
    requires |progression.degrees| >= 1
    ensures m.generatedNotes == GeneratedFor(settings, progression)
    ensures Sequence.PartsSized(m.generatedNotes, settings.bars)
    ensures m.events == Sequence.SequenceOf(settings, progression, userNotes).events
    ensures settings.lockNotes ==> m.userNotes == userNotes && m.noteText == noteText
    ensures !settings.lockNotes ==> m.userNotes == NoUserNotes && m.noteText == DeriveNoteText(m.generatedNotes)
  {
    var sq := Sequence.SequenceOf(settings, progression, userNotes);
    Material(if settings.lockNotes then userNotes else NoUserNotes, sq.generated,
             if settings.lockNotes then noteText else DeriveNoteText(sq.generated), sq.events)
  }

  /** The material after generating, in terms of the sequence generated. */
  lemma AfterGenerateOf(settings: Settings, progression: Progression, userNotes: UserNotes, noteText: NoteText,
                        sq: Sequence.SequenceResult)
    requires |progression.degrees| >= 1 && sq == Sequence.SequenceOf(settings, progression, userNotes)
    ensures AfterGenerate(settings, progression, userNotes, noteText)
      == Material(if settings.lockNotes then userNotes else NoUserNotes, sq.generated,
                  if settings.lockNotes then noteText else DeriveNoteText(sq.generated), sq.events)
    ensures sq.generated == GeneratedFor(settings, progression)
  {
  }

  /** Generates the sequence, then keeps or replaces the user's notes and the text
      as the lock says. */
  method Regenerate(settings: Settings, progression: Progression, userNotes: UserNotes, noteText: NoteText)
    returns (m: Material)
    requires |progression.degrees| >= 1
    ensures m == AfterGenerate(settings, progression, userNotes, noteText)
  {
    var sq := Sequence.GenerateSequence(settings, progression, userNotes);
    AfterGenerateOf(settings, progression, userNotes, noteText, sq);
    var nextText := if settings.lockNotes then noteText else DeriveNoteText(sq.generated);
    var nextUser := if settings.lockNotes then userNotes else NoUserNotes;
    m := Material(nextUser, sq.generated, nextText, sq.events);
  }

  /** The material the store starts with: generated without user notes, the text
      showing the generated notes. */
  function Initial(settings: Settings, progression: Progression): Material
    requires |progression.degrees| >= 1
  {
    var sq := Sequence.SequenceOf(settings, progression, NoUserNotes);
    Material(NoUserNotes, sq.generated, DeriveNoteText(sq.generated), sq.events)
  }

  /** The starting material is what generating without user notes gives, unlocked,
      whatever the text was. */
  lemma InitialIsGenerated(settings: Settings, progression: Progression, noteText: NoteText)
    requires |progression.degrees| >= 1 && !settings.lockNotes
    ensures Initial(settings, progression) == AfterGenerate(settings, progression, NoUserNotes, noteText)
  {
  }

  /** Generates the starting material. */
  method GenerateInitial(settings: Settings, progression: Progression) returns (m: Material)
    requires |progression.degrees| >= 1
    ensures m == Initial(settings, progression)
  {
    var sq := Sequence.GenerateSequence(settings, progression, NoUserNotes);
    m := Material(NoUserNotes, sq.generated, DeriveNoteText(sq.generated), sq.events);
  }

  /** Unlocked, generating twice is generating once. */
  lemma GenerateSettles(settings: Settings, progression: Progression, userNotes: UserNotes, noteText: NoteText)
    requires |progression.degrees| >= 1 && !settings.lockNotes
    ensures var m := AfterGenerate(settings, progression, userNotes, noteText);
      var m2 := AfterGenerate(settings, progression, m.userNotes, m.noteText);
      m2.userNotes == m.userNotes && m2.generatedNotes == m.generatedNotes && m2.noteText == m.noteText
  {
  }

  /** Where the text of a part comes from on loading a preset: the preset's user notes
      for the part when it has them, its generated notes otherwise. */
  function NoteSource(p: Presets.Preset): (r: PartNotes)
    ensures forall part ::
              (Sequence.NotesOf(r, part) == if UserOf(p.userNotes, part).Some? then UserOf(p.userNotes, part).value
                                            else Sequence.NotesOf(p.generatedNotes, part))
  {
    PartNotes(if p.userNotes.lead.Some? then p.userNotes.lead.value else p.generatedNotes.lead,
              if p.userNotes.arp.Some? then p.userNotes.arp.value else p.generatedNotes.arp,
              if p.userNotes.bass.Some? then p.userNotes.bass.value else p.generatedNotes.bass)
  }

  datatype LoadOutcome = NotFound | Loaded | GenerateFailed

  /** Clearing the notes of a store whose generated notes belong to its settings and
      progression leaves no user notes and text that shows the generated notes,
      whether or not the notes are locked. */
  lemma ClearShowsGenerated(settings: Settings, progression: Progression, generated: PartNotes)
    requires |progression.degrees| >= 1 && generated == GeneratedFor(settings, progression)
    ensures var m := AfterGenerate(settings, progression, NoUserNotes, DeriveNoteText(generated));
      m.userNotes == NoUserNotes && m.noteText == DeriveNoteText(m.generatedNotes)
  {
  }

  // ---------------------------------------------------------------------------
  // The store

  /** A snapshot of the store. Every action computes the next snapshot from the
      current one; the user's notes, the generated notes, the text and the events,
      which a regeneration replaces together, are held as one `Material` value. */
  datatype AppState = AppState(settings: Settings, progression: Progression, material: Material,
                               presets: seq<Presets.Preset>)

  /** The generated notes belong to the settings and the progression. */
  predicate InStep(st: AppState) {
    |st.progression.degrees| >= 1 && st.material.generatedNotes == GeneratedFor(st.settings, st.progression)
  }

  /** The default settings, the canonical progression for them, the material generated
      from those without user notes, and the stored presets listed. */
  method InitialState(storage: Presets.PresetStorage) returns (st: AppState)
    ensures st.settings == DefaultSettings && st.progression == Progression(8, CanonicalDegrees(Major, 8))
    ensures st.material == Initial(DefaultSettings, st.progression)
    ensures st.presets == Presets.ListPresets(storage.Stored())
    ensures InStep(st)
  {
    var initial := BuildProgression(DefaultSettings.mode, DefaultSettings.bars);
    var start := GenerateInitial(DefaultSettings, initial);
    st := AppState(DefaultSettings, initial, start, Presets.ListPresets(storage.Stored()));
  }

  /** Generates from the settings, the progression and the user's notes. */
  method Generate(st: AppState) returns (next: AppState)
    requires |st.progression.degrees| >= 1
    ensures next == st.(material := AfterGenerate(st.settings, st.progression, st.material.userNotes,
                                                  st.material.noteText))
    ensures InStep(next)
  {
    var m := Regenerate(st.settings, st.progression, st.material.userNotes, st.material.noteText);
    next := st.(material := m);
  }

  /** Changes one setting; a new bar count or mode re-syncs the progression to the
      (new) bar count and mode; then generates. */
  method UpdateSetting(st: AppState, change: SettingChange) returns (next: AppState)
    requires |st.progression.degrees| >= 1 || change.BarsChange? || change.ModeChange?
    ensures next.settings == Changed(st.settings, change) && next.presets == st.presets
    ensures next.progression == if change.BarsChange? || change.ModeChange?
      then Progression(next.settings.bars, Normalized(st.progression.degrees, next.settings.mode, next.settings.bars))
      else st.progression
    ensures next.material == AfterGenerate(next.settings, next.progression, st.material.userNotes, st.material.noteText)
    ensures InStep(next)
  {
    var nextSettings := Changed(st.settings, change);
    var nextProgression := st.progression;
    if change.BarsChange? {
      nextProgression := SyncProgression(nextSettings.mode, change.bars, st.progression);
    }
    if change.ModeChange? {
      nextProgression := SyncProgression(change.mode, nextSettings.bars, st.progression);
    }
    next := Generate(st.(settings := nextSettings, progression := nextProgression));
  }

  /** Takes the given degrees up to the bar count, fills the rest from the current
      progression read cyclically, then generates. */
  method UpdateProgression(st: AppState, degrees: seq<Degree>) returns (next: AppState)
    requires |st.progression.degrees| >= 1
    ensures next.settings == st.settings && next.presets == st.presets
    ensures next.progression == Progression(st.settings.bars, Refilled(degrees, st.progression.degrees, st.settings.bars))
    ensures next.material == AfterGenerate(next.settings, next.progression, st.material.userNotes, st.material.noteText)
    ensures InStep(next)
  {
    var bars := st.settings.bars;
    var normalized := RefillDegrees(degrees, st.progression.degrees, bars);
    next := Generate(st.(progression := Progression(bars, normalized)));
  }

  /** Replaces the text of one part. */
  function SetNoteText(st: AppState, part: Part, value: string): (next: AppState)
    ensures TextOf(next.material.noteText, part) == value
    ensures forall other :: other != part ==> TextOf(next.material.noteText, other) == TextOf(st.material.noteText, other)
    ensures next == st.(material := next.material) && next.material == st.material.(noteText := next.material.noteText)
  {
    st.(material := st.material.(noteText := WithText(st.material.noteText, part, value)))
  }

  /** Sets the lock alone; nothing is generated. */
  function SetLockNotes(st: AppState, lock: bool): (next: AppState)
    ensures next.settings.lockNotes == lock
    ensures forall f :: f != LockField ==> Current(next.settings, f) == Current(st.settings, f)
    ensures next.progression == st.progression && next.material == st.material && next.presets == st.presets
  {
    st.(settings := st.settings.(lockNotes := lock))
  }

  /** Parses the part's text to the part's length, makes it the part's user notes,
      generates, and reports the invalid tokens. */
  method ApplyNoteText(st: AppState, part: Part) returns (next: AppState, invalidTokens: seq<string>)
    requires |st.progression.degrees| >= 1
    ensures var tokens := PadTokens(Tokenize(TextOf(st.material.noteText, part)), ExpectedLength(part, st.settings.bars));
      invalidTokens == RefusedTokens(tokens)
      && next == st.(material := AfterGenerate(st.settings, st.progression,
                                               WithUser(st.material.userNotes, part, Some(TokensToMidi(tokens))),
                                               st.material.noteText))
    ensures InStep(next)
  {
    var expectedLength := ExpectedLength(part, st.settings.bars);
    var midis;
    midis, invalidTokens := ParseNoteText(TextOf(st.material.noteText, part), expectedLength);
    var withUser := st.(material := st.material.(userNotes := WithUser(st.material.userNotes, part, Some(midis))));
    next := Generate(withUser);
  }

  /** Drops every user part, shows the generated notes as text, then generates. */
  method ClearNotes(st: AppState) returns (next: AppState)
    requires |st.progression.degrees| >= 1
    ensures next == st.(material := AfterGenerate(st.settings, st.progression, NoUserNotes,
                                                  DeriveNoteText(st.material.generatedNotes)))
    ensures InStep(st) ==> next.material.userNotes == NoUserNotes
                           && next.material.noteText == DeriveNoteText(next.material.generatedNotes)
  {
    var cleared := st.(material := st.material.(userNotes := NoUserNotes));
    cleared := cleared.(material := cleared.material.(noteText := DeriveNoteText(cleared.material.generatedNotes)));
    next := Generate(cleared);
    if InStep(st) {
      ClearShowsGenerated(st.settings, st.progression, st.material.generatedNotes);
    }
  }

  /** The preset a save writes: the store's settings, progression and notes. */
  function Snapshot(st: AppState, name: string, now: int): Presets.Preset {
    Presets.Preset(name, now, st.settings, st.progression, st.material.userNotes, st.material.generatedNotes)
  }

  /** Saves a snapshot of the store under `name` at clock time `now` and lists the
      stored presets again. */
  method SavePreset(st: AppState, storage: Presets.PresetStorage, name: string, now: int) returns (next: AppState)
    modifies storage
    ensures storage.slot == Presets.WritePresets(old(storage.slot),
      Presets.Saved(Presets.ReadPresets(old(storage.slot)), Snapshot(st, name, now), now))
    ensures next == st.(presets := Presets.ListPresets(storage.Stored()))
  {
    storage.Save(Snapshot(st, name, now), now);
    next := st.(presets := Presets.ListPresets(storage.Stored()));
  }

  /** The store after loading a preset, before it generates: its settings, progression
      and notes, and for each part text that shows the preset's user notes or else its
      generated notes. */
  function Loading(st: AppState, p: Presets.Preset): AppState {
    st.(settings := p.settings, progression := p.progression,
        material := Material(p.userNotes, p.generatedNotes, DeriveNoteText(NoteSource(p)), st.material.events))
  }

  /** Loads the first preset named `name`: nothing changes when there is none;
      otherwise the preset replaces the store's settings, progression and notes and the
      store generates, which fails on a preset whose progression is empty. */
  method LoadPreset(st: AppState, storage: Presets.PresetStorage, name: string) returns (next: AppState, outcome: LoadOutcome)
    ensures var found := Presets.FirstNamed(storage.Stored(), name);
      found.None? ==> outcome == NotFound && next == st
    ensures var found := Presets.FirstNamed(storage.Stored(), name);
      found.Some? && |found.value.progression.degrees| == 0 ==>
        outcome == GenerateFailed && next == Loading(st, found.value)
    ensures var found := Presets.FirstNamed(storage.Stored(), name);
      found.Some? && |found.value.progression.degrees| >= 1 ==>
        var p := found.value;
        outcome == Loaded && InStep(next)
        && next == Loading(st, p).(material := AfterGenerate(p.settings, p.progression, p.userNotes,
                                                             DeriveNoteText(NoteSource(p))))
  {
    var found := Presets.FirstNamed(storage.Stored(), name);
    if found.None? {
      return st, NotFound;
    }
    var loading := Loading(st, found.value);
    if |loading.progression.degrees| == 0 {
      return loading, GenerateFailed;
    }
    next := Generate(loading);
    outcome := Loaded;
  }
}
