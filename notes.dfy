/** The pitch and note-token layer: the shared data model (modes, keys, parts, note
    events, settings, progressions), MIDI numbers and their textual tokens, parsing
    and formatting of whitespace-separated note text, pitch-class arithmetic and the
    "closest pitch to a reference" rule that every generated part uses. */
module Notes {

  datatype Option<T> = None | Some(value: T)

  /** A pitch or a rest: a MIDI number, or None for the rest slot. */
  type Pitch = Option<int>

  datatype Mode = Major | Minor

  /** The twelve key names, spelled as the program spells them. */
  datatype Key = C | CSharp | D | EFlat | E | F | FSharp | G | AFlat | A | BFlat | B

  datatype Part = Lead | Arp | Bass

  datatype SynthStyle = Modern | Chiptune | Ambient

  /** A scale degree, 0 = I to 6 = VII. */
  type Degree = d: int | 0 <= d < 7

  /** The bar counts the settings allow. */
  type BarCount = b: int | b == 4 || b == 8 || b == 16 witness 4

  /** The user's settings. Tempo is in beats per minute and swing a fraction of a
      step; the mixing fields are carried along but only matter to the audio graph. */
  datatype Settings = Settings(
    key: Key, mode: Mode, bars: BarCount, bpm: real, swing: real,
    master: real, cutoff: real, delayFB: real, drive: real,
    limiter: bool, autoGain: bool, nice: bool, lockNotes: bool, synthStyle: SynthStyle)

  datatype Progression = Progression(bars: nat, degrees: seq<Degree>)

  /** One note of one part: it starts at 16th-note `step` and lasts `durSteps` 16ths. */
  datatype NoteEvent = NoteEvent(part: Part, step: int, durSteps: int, midi: Pitch)

  /** One pitch-or-rest array per part. */
  datatype PartNotes = PartNotes(lead: seq<Pitch>, arp: seq<Pitch>, bass: seq<Pitch>)

  /** The user's own note arrays; None for a part the user has not written. */
  datatype UserNotes = UserNotes(lead: Option<seq<Pitch>>, arp: Option<seq<Pitch>>, bass: Option<seq<Pitch>>)

  /** Why a token was refused. */
  datatype TokenError = BadShape | BadOctave | UnknownPitchClass

  datatype TokenResult = Parsed(pitch: Pitch) | Refused(error: TokenError)

  const RestToken: string := "---"
  const OctaveMin: int := -1
  const OctaveMax: int := 9

  /** The seventeen spellings a token may use, with their semitone above C. */
  const NameToSemitone: map<string, int> := map[
    "C" := 0, "C#" := 1, "Db" := 1, "D" := 2, "D#" := 3, "Eb" := 3, "E" := 4,
    "F" := 5, "F#" := 6, "Gb" := 6, "G" := 7, "G#" := 8, "Ab" := 8, "A" := 9,
    "A#" := 10, "Bb" := 10, "B" := 11]

  /** The canonical spelling of each pitch class: sharps for C# and F#, flats elsewhere. */
  const SemitoneToName: seq<string> :=
    ["C", "C#", "D", "Eb", "E", "F", "F#", "G", "Ab", "A", "Bb", "B"]

  /** Clamps to the MIDI range. */
  function ClampMidi(m: int): (r: int)
    ensures 0 <= r <= 127
    ensures 0 <= m <= 127 ==> r == m
    ensures m < 0 ==> r == 0
    ensures m > 127 ==> r == 127
  {
    if m < 0 then 0 else if m > 127 then 127 else m
  }

  // ---------------------------------------------------------------------------
  // Tokens

  predicate IsLetter(c: char) { 'A' <= c <= 'G' || 'a' <= c <= 'g' }
  predicate IsAccidental(c: char) { c == '#' || c == 'b' || c == 'B' }
  predicate IsDigit(c: char) { '0' <= c <= '9' }

  function UpperLetter(c: char): char
    requires IsLetter(c)
  {
    if 'a' <= c then (c as int - 32) as char else c
  }

  /** The letter and accidental of a token, spelled as in NameToSemitone, and its octave. */
  datatype TokenShape = TokenShape(name: string, octave: int)

  /** The token pattern stated position by position: a letter first, a digit last,
      and between them nothing, a minus sign, an accidental, or an accidental and a
      minus sign. */
  predicate WellShaped(t: string) {
    2 <= |t| <= 4 && IsLetter(t[0]) && IsDigit(t[|t| - 1])
    && (|t| == 3 ==> IsAccidental(t[1]) || t[1] == '-')
    && (|t| == 4 ==> IsAccidental(t[1]) && t[2] == '-')
  }

  /** Matches a letter A-G or a-g, an optional `#`, `b` or `B`, an optional minus
      sign and exactly one decimal digit, with nothing before or after. The name read
      is the letter in upper case, followed by `#` for `#` and by `b` for `b` or `B`;
      the octave is the digit, negated after a minus sign. */
  function MatchToken(t: string): (r: Option<TokenShape>)
    ensures r.Some? <==> WellShaped(t)
    ensures r.Some? ==> -9 <= r.value.octave <= 9
    ensures r.Some? ==> (r.value.name ==
      [UpperLetter(t[0])] + (if |t| >= 3 && IsAccidental(t[1]) then [if t[1] == '#' then '#' else 'b'] else []))
    ensures r.Some? ==> (r.value.octave ==
      (if t[|t| - 2] == '-' then -1 else 1) * (t[|t| - 1] as int - '0' as int))
  {
    if |t| < 2 || !IsLetter(t[0]) || !IsDigit(t[|t| - 1]) then None
    else
      var mid := t[1..|t| - 1];
      var letter := [UpperLetter(t[0])];
      var d := t[|t| - 1] as int - '0' as int;
      if mid == [] then Some(TokenShape(letter, d))
      else if mid == "-" then Some(TokenShape(letter, -d))
      else if |mid| == 1 && IsAccidental(mid[0]) then
        Some(TokenShape(letter + (if mid[0] == '#' then "#" else "b"), d))
      else if |mid| == 2 && IsAccidental(mid[0]) && mid[1] == '-' then
        Some(TokenShape(letter + (if mid[0] == '#' then "#" else "b"), -d))
      else None
  }

  /** Reads one token: the rest marker is a rest, a well-formed token in octaves -1..9
      with a known spelling is its clamped MIDI number, anything else is refused. */
  function NoteTokenToMidi(token: string): (r: TokenResult)
    ensures r.Parsed? && r.pitch.Some? ==> 0 <= r.pitch.value <= 127
    ensures r == Parsed(None) <==> token == RestToken
  {
    if token == RestToken then Parsed(None)
    else match MatchToken(token)
      case None => Refused(BadShape)
      case Some(shape) =>
        if shape.octave < OctaveMin || shape.octave > OctaveMax then Refused(BadOctave)
        else if shape.name !in NameToSemitone then Refused(UnknownPitchClass)
        else Parsed(Some(ClampMidi((shape.octave + 1) * 12 + NameToSemitone[shape.name])))
  }

  function DigitChar(d: int): char
    requires 0 <= d <= 9
  {
    ('0' as int + d) as char
  }

  /** The decimal text of an octave number between -9 and 9. */
  function OctaveText(o: int): string
    requires -9 <= o <= 9
  {
    if o < 0 then ['-', DigitChar(-o)] else [DigitChar(o)]
  }

  /** Facts about each canonical name, read off the two tables. */
  lemma SemitoneNameFacts(pc: int)
    requires 0 <= pc < 12
    ensures 1 <= |SemitoneToName[pc]| <= 2
    ensures IsLetter(SemitoneToName[pc][0]) && UpperLetter(SemitoneToName[pc][0]) == SemitoneToName[pc][0]
    ensures |SemitoneToName[pc]| == 2 ==> SemitoneToName[pc][1] == '#' || SemitoneToName[pc][1] == 'b'
    ensures SemitoneToName[pc] in NameToSemitone && NameToSemitone[SemitoneToName[pc]] == pc
  {
    if pc == 0 { assert SemitoneToName[pc] == "C"; }
    else if pc == 1 { assert SemitoneToName[pc] == "C#"; }
    else if pc == 2 { assert SemitoneToName[pc] == "D"; }
    else if pc == 3 { assert SemitoneToName[pc] == "Eb"; }
    else if pc == 4 { assert SemitoneToName[pc] == "E"; }
    else if pc == 5 { assert SemitoneToName[pc] == "F"; }
    else if pc == 6 { assert SemitoneToName[pc] == "F#"; }
    else if pc == 7 { assert SemitoneToName[pc] == "G"; }
    else if pc == 8 { assert SemitoneToName[pc] == "Ab"; }
    else if pc == 9 { assert SemitoneToName[pc] == "A"; }
    else if pc == 10 { assert SemitoneToName[pc] == "Bb"; }
    else { assert SemitoneToName[pc] == "B"; }
  }

  /** Writes a pitch as a token: a rest as the rest marker, a number clamped to 0..127
      as its canonical spelling followed by its octave. */
  function MidiToNoteToken(p: Pitch): (t: string)
    ensures p.None? <==> t == RestToken
  {
    match p
    case None => RestToken
    case Some(m) =>
      var v := ClampMidi(m);
      SemitoneNameFacts(v % 12);
      var t := SemitoneToName[v % 12] + OctaveText(v / 12 - 1);
      assert t[0] == SemitoneToName[v % 12][0];
      t
  }

  lemma CanonicalTokenShape(pc: int, o: int)
    requires 0 <= pc < 12 && -9 <= o <= 9
    ensures MatchToken(SemitoneToName[pc] + OctaveText(o)) == Some(TokenShape(SemitoneToName[pc], o))
    ensures SemitoneToName[pc] in NameToSemitone && NameToSemitone[SemitoneToName[pc]] == pc
  {
    SemitoneNameFacts(pc);
    var name := SemitoneToName[pc];
    var digits := OctaveText(o);
    var t := name + digits;
    assert t[0] == name[0];
    assert t[|t| - 1] == digits[|digits| - 1];
    var mid := t[1..|t| - 1];
    assert mid == name[1..] + digits[..|digits| - 1];
    if |name| == 2 {
      assert name == [name[0]] + [name[1]];
    } else {
      assert name == [name[0]];
    }
  }

  /** Every MIDI number survives writing and reading back unchanged. */
  lemma MidiTokenRoundTrip(m: int)
    requires 0 <= m <= 127
    ensures NoteTokenToMidi(MidiToNoteToken(Some(m))) == Parsed(Some(m))
  {
    CanonicalTokenShape(m % 12, m / 12 - 1);
  }

  /** Outside 0..127 the number is clamped first. */
  lemma MidiTokenRoundTripClamps(m: int)
    ensures NoteTokenToMidi(MidiToNoteToken(Some(m))) == Parsed(Some(ClampMidi(m)))
  {
    MidiTokenRoundTrip(ClampMidi(m));
  }

  /** A canonical token whose pitch lies in the MIDI range reads as a number that is
      written back as the same token. */
  lemma CanonicalTokenRoundTrip(pc: int, o: int)
    requires 0 <= pc < 12 && OctaveMin <= o <= OctaveMax
    requires (o + 1) * 12 + pc <= 127
    ensures NoteTokenToMidi(SemitoneToName[pc] + OctaveText(o)) == Parsed(Some((o + 1) * 12 + pc))
    ensures MidiToNoteToken(Some((o + 1) * 12 + pc)) == SemitoneToName[pc] + OctaveText(o)
  {
    CanonicalTokenShape(pc, o);
    OctaveSplit(pc, o);
  }

  lemma OctaveSplit(pc: int, o: int)
    requires 0 <= pc < 12
    ensures ((o + 1) * 12 + pc) % 12 == pc && ((o + 1) * 12 + pc) / 12 - 1 == o
  {
    var m := (o + 1) * 12 + pc;
    assert m == 12 * (o + 1) + pc;
  }

  /** The four canonical tokens above G9 do not round-trip: they clamp to 127. */
  lemma TopOctaveClamps()
    ensures NoteTokenToMidi("B9") == Parsed(Some(127))
    ensures MidiToNoteToken(Some(127)) == "G9"
  {
    CanonicalTokenShape(11, 9);
    assert "B9" == SemitoneToName[11] + OctaveText(9);
    assert "G9" == SemitoneToName[7] + OctaveText(9);
  }

  /** Tokens from the unit tests. */
  lemma TokenExamples()
    ensures NoteTokenToMidi("C1") == Parsed(Some(24)) && MidiToNoteToken(Some(24)) == "C1"
    ensures NoteTokenToMidi("Eb3") == Parsed(Some(51)) && MidiToNoteToken(Some(51)) == "Eb3"
    ensures NoteTokenToMidi("F#4") == Parsed(Some(66)) && MidiToNoteToken(Some(66)) == "F#4"
  {
    CanonicalTokenRoundTrip(0, 1);
    assert "C1" == SemitoneToName[0] + OctaveText(1);
    CanonicalTokenRoundTrip(3, 3);
    assert "Eb3" == SemitoneToName[3] + OctaveText(3);
    CanonicalTokenRoundTrip(6, 4);
    assert "F#4" == SemitoneToName[6] + OctaveText(4);
  }

  lemma HighTokenExamples()
    ensures NoteTokenToMidi("A5") == Parsed(Some(81)) && MidiToNoteToken(Some(81)) == "A5"
    ensures NoteTokenToMidi("B7") == Parsed(Some(107)) && MidiToNoteToken(Some(107)) == "B7"
  {
    CanonicalTokenRoundTrip(9, 5);
    assert "A5" == SemitoneToName[9] + OctaveText(5);
    CanonicalTokenRoundTrip(11, 7);
    assert "B7" == SemitoneToName[11] + OctaveText(7);
  }

  /** Other spellings: lower case with a flat is accepted. */
  lemma LowerCaseTokenExample()
    ensures NoteTokenToMidi("db4") == Parsed(Some(61))
  {
    assert "db4"[1..2] == "b";
    assert UpperLetter('d') == 'D';
    assert "db4"[|"db4"| - 1] == '4';
    assert ['D'] + "b" == "Db";
    assert MatchToken("db4") == Some(TokenShape("Db", 4));
  }

  /** A letter outside A-G, a two-digit octave and an octave below -1 are refused. */
  lemma RefusedTokenExamples()
    ensures NoteTokenToMidi("H4") == Refused(BadShape)
    ensures NoteTokenToMidi("C10") == Refused(BadShape)
    ensures NoteTokenToMidi("C-2") == Refused(BadOctave)
  {
    assert "C-2"[1..2] == "-";
    assert "C10"[1..2] == "1";
  }

  /** A spelling the name table lacks is refused even when it is well formed. */
  lemma UnknownSpellingExamples()
    ensures NoteTokenToMidi("E#4") == Refused(UnknownPitchClass)
    ensures NoteTokenToMidi("Cb4") == Refused(UnknownPitchClass)
  {
    assert "E#4"[1..2] == "#";
    assert ['E'] + "#" == "E#";
    assert MatchToken("E#4") == Some(TokenShape("E#", 4));
    assert "E#" !in NameToSemitone.Keys;
    assert "Cb4"[1..2] == "b";
    assert ['C'] + "b" == "Cb";
    assert MatchToken("Cb4") == Some(TokenShape("Cb", 4));
    assert "Cb" !in NameToSemitone.Keys;
  }

  /** What a token contributes to a parsed array: its pitch, or a rest if refused. */
  function TokenPitch(t: string): (p: Pitch)
    ensures p.Some? ==> 0 <= p.value <= 127
  {
    match NoteTokenToMidi(t)
    case Parsed(q) => q
    case Refused(_) => None
  }

  /** Reads a list of tokens, a refused token reading as a rest. */
  function TokensToMidi(ts: seq<string>): (r: seq<Pitch>)
    ensures |r| == |ts|
  {
    seq(|ts|, i requires 0 <= i < |ts| => TokenPitch(ts[i]))
  }

  /** A slot reads as a rest exactly when its token is the rest marker or is refused. */
  lemma TokensToMidiRests(ts: seq<string>)
    ensures forall i :: 0 <= i < |ts| ==>
      (TokensToMidi(ts)[i] == None <==> ts[i] == RestToken || NoteTokenToMidi(ts[i]).Refused?)
  {
  }

  lemma TokensToMidiStep(ts: seq<string>, i: int)
    requires 0 <= i < |ts|
    ensures TokensToMidi(ts[..i + 1]) == TokensToMidi(ts[..i]) + [TokenPitch(ts[i])]
  {
  }

  // ---------------------------------------------------------------------------
  // Note text

  /** The characters the runtime's regular expressions treat as white space. */
  const WhiteSpace: set<char> := {
    ' ', '\t', '\n', '\r', '\U{000B}', '\U{000C}', '\U{00A0}', '\U{1680}',
    '\U{2000}', '\U{2001}', '\U{2002}', '\U{2003}', '\U{2004}', '\U{2005}',
    '\U{2006}', '\U{2007}', '\U{2008}', '\U{2009}', '\U{200A}', '\U{2028}',
    '\U{2029}', '\U{202F}', '\U{205F}', '\U{3000}', '\U{FEFF}'}

  predicate IsWord(t: string) {
    t != [] && forall i :: 0 <= i < |t| ==> t[i] !in WhiteSpace
  }

  /** Splits `s` into its maximal runs of non-space characters; `word` is the run
      read so far. */
  function TokenizeFrom(s: string, word: string): (r: seq<string>)
    decreases |s|
  {
    if s == [] then (if word == [] then [] else [word])
    else if s[0] in WhiteSpace then (if word == [] then [] else [word]) + TokenizeFrom(s[1..], [])
    else TokenizeFrom(s[1..], word + [s[0]])
  }

  /** Collapses white space runs, trims, splits on the space and drops empty pieces. */
  function Tokenize(s: string): seq<string> {
    TokenizeFrom(s, [])
  }

  lemma {:induction false} TokenizeFromWords(s: string, word: string)
    requires word == [] || IsWord(word)
    ensures forall k :: 0 <= k < |TokenizeFrom(s, word)| ==> IsWord(TokenizeFrom(s, word)[k])
    decreases |s|
  {
    if s != [] {
      if s[0] in WhiteSpace {
        TokenizeFromWords(s[1..], []);
      } else {
        TokenizeFromWords(s[1..], word + [s[0]]);
      }
    }
  }

  /** Every token of any text is non-empty and holds no white space. */
  lemma TokenizeYieldsWords(s: string)
    ensures forall k :: 0 <= k < |Tokenize(s)| ==> IsWord(Tokenize(s)[k])
  {
    TokenizeFromWords(s, []);
  }

  /** Joins tokens with single spaces. */
  function Join(ts: seq<string>): string {
    if ts == [] then []
    else if |ts| == 1 then ts[0]
    else ts[0] + " " + Join(ts[1..])
  }

  lemma {:induction false} TokenizeFromAppendWord(w: string, rest: string, word: string)
    requires forall i :: 0 <= i < |w| ==> w[i] !in WhiteSpace
    ensures TokenizeFrom(w + rest, word) == TokenizeFrom(rest, word + w)
    decreases |w|
  {
    if w != [] {
      assert (w + rest)[1..] == w[1..] + rest;
      assert word + [w[0]] + w[1..] == word + w;
      TokenizeFromAppendWord(w[1..], rest, word + [w[0]]);
    } else {
      assert w + rest == rest;
      assert word + w == word;
    }
  }

  /** Splitting joined words gives the words back. */
  lemma {:induction false} TokenizeJoin(ts: seq<string>)
    requires forall k :: 0 <= k < |ts| ==> IsWord(ts[k])
    ensures Tokenize(Join(ts)) == ts
  {
    if |ts| == 1 {
      TokenizeFromAppendWord(ts[0], [], []);
      assert ts[0] + [] == ts[0];
      assert [] + ts[0] == ts[0];
      assert IsWord(ts[0]);
      assert TokenizeFrom([], ts[0]) == [ts[0]];
    } else if |ts| > 1 {
      TokenizeFromAppendWord(ts[0], " " + Join(ts[1..]), []);
      assert ts[0] + " " + Join(ts[1..]) == ts[0] + (" " + Join(ts[1..]));
      assert (" " + Join(ts[1..]))[1..] == Join(ts[1..]);
      assert [] + ts[0] == ts[0];
      TokenizeJoin(ts[1..]);
      assert ts == [ts[0]] + ts[1..];
    }
  }

  /** The token at each position after padding with rests to `n` and cutting at `n`. */
  function PadTokens(ts: seq<string>, n: nat): (r: seq<string>)
    ensures |r| == n
    ensures forall i :: 0 <= i < n ==> r[i] == if i < |ts| then ts[i] else RestToken
  {
    if |ts| >= n then ts[..n] else ts + seq(n - |ts|, _ => RestToken)
  }

  /** The refused tokens of `ts`, in order. */
  function RefusedTokens(ts: seq<string>): (r: seq<string>)
    ensures |r| <= |ts|
    ensures forall k :: 0 <= k < |r| ==> r[k] in ts && NoteTokenToMidi(r[k]).Refused?
  {
    if ts == [] then []
    else
      RefusedTokens(ts[..|ts| - 1])
        + (if NoteTokenToMidi(ts[|ts| - 1]).Refused? then [ts[|ts| - 1]] else [])
  }

  /** Parses note text into exactly `expectedLength` pitches: missing tokens are rests,
      extra tokens are dropped, rests and refused tokens read as rests, and the refused
      tokens among those kept are reported in order. */
  method ParseNoteText(text: string, expectedLength: nat) returns (midis: seq<Pitch>, invalidTokens: seq<string>)
    ensures |midis| == expectedLength
    ensures midis == TokensToMidi(PadTokens(Tokenize(text), expectedLength))
    ensures invalidTokens == RefusedTokens(PadTokens(Tokenize(text), expectedLength))
  {
    var tokens := Tokenize(text);
    var padded := tokens;
    while |padded| < expectedLength
      invariant |tokens| <= |padded| <= if |tokens| < expectedLength then expectedLength else |tokens|
      invariant forall i :: 0 <= i < |padded| ==> padded[i] == if i < |tokens| then tokens[i] else RestToken
    {
      padded := padded + [RestToken];
    }
    var trimmed := padded[..expectedLength];
    assert trimmed == PadTokens(tokens, expectedLength);
    midis, invalidTokens := ReadTokens(trimmed);
  }

  /** One step of the mapping pass: a rest token reads as a rest; any other token is
      parsed, and when it is refused it reads as a rest and is reported. */
  method ReadToken(token: string) returns (midi: Pitch, refused: bool)
    ensures midi == TokenPitch(token)
    ensures refused <==> NoteTokenToMidi(token).Refused?
    ensures refused ==> token != RestToken && midi == None
  {
    refused := false;
    if token == RestToken {
      midi := None;
    } else {
      match NoteTokenToMidi(token)
      case Parsed(p) =>
        midi := p;
      case Refused(_) =>
        refused := true;
        midi := None;
    }
  }

  /** The mapping pass of ParseNoteText: a rest token reads as a rest, any other token
      is parsed, and a refused one reads as a rest and is recorded. */
  method ReadTokens(trimmed: seq<string>) returns (midis: seq<Pitch>, invalidTokens: seq<string>)
    ensures midis == TokensToMidi(trimmed)
    ensures invalidTokens == RefusedTokens(trimmed)
  {
    midis := [];
    invalidTokens := [];
    var i := 0;
    while i < |trimmed|
      invariant 0 <= i <= |trimmed|
      invariant midis == TokensToMidi(trimmed[..i])
      invariant invalidTokens == RefusedTokens(trimmed[..i])
    {
      var midi, refused := ReadToken(trimmed[i]);
      TokensToMidiStep(trimmed, i);
      RefusedTokensStep(trimmed, i);
      if refused {
        invalidTokens := invalidTokens + [trimmed[i]];
      }
      midis := midis + [midi];
      i := i + 1;
    }
    assert trimmed[..i] == trimmed;
  }

  lemma RefusedTokensStep(ts: seq<string>, i: int)
    requires 0 <= i < |ts|
    ensures RefusedTokens(ts[..i + 1])
      == RefusedTokens(ts[..i]) + (if NoteTokenToMidi(ts[i]).Refused? then [ts[i]] else [])
  {
    assert ts[..i + 1][..i] == ts[..i];
  }

  /** The token of each slot, in order. */
  function NoteTokens(midis: seq<Pitch>): (ts: seq<string>)
    ensures |ts| == |midis|
  {
    seq(|midis|, i requires 0 <= i < |midis| => MidiToNoteToken(midis[i]))
  }

  /** One token per slot, separated by single spaces: splitting the text on white
      space gives back exactly the slots' tokens. */
  function FormatNoteText(midis: seq<Pitch>): (r: string)
    ensures Tokenize(r) == NoteTokens(midis)
  {
    NoteTokensAreWords(midis);
    TokenizeJoin(NoteTokens(midis));
    Join(NoteTokens(midis))
  }

  lemma NoteTokensAreWords(midis: seq<Pitch>)
    ensures forall k :: 0 <= k < |midis| ==> IsWord(NoteTokens(midis)[k])
  {
    forall k | 0 <= k < |midis| ensures IsWord(NoteTokens(midis)[k]) {
      MidiTokenIsWord(midis[k]);
    }
  }

  function ClampPitch(p: Pitch): Pitch {
    match p
    case None => None
    case Some(m) => Some(ClampMidi(m))
  }

  lemma MidiTokenIsWord(p: Pitch)
    ensures IsWord(MidiToNoteToken(p))
  {
    if p.Some? {
      var v := ClampMidi(p.value);
      SemitoneNameFacts(v % 12);
      var name := SemitoneToName[v % 12];
      var digits := OctaveText(v / 12 - 1);
      var t := MidiToNoteToken(p);
      assert t == name + digits;
      forall i | 0 <= i < |t| ensures t[i] !in WhiteSpace {
        if i < |name| {
          assert t[i] == name[i];
        } else {
          assert t[i] == digits[i - |name|];
        }
        VisibleIsNotSpace(t[i]);
      }
    }
  }

  /** No visible ASCII character is white space. */
  lemma VisibleIsNotSpace(c: char)
    requires '!' <= c <= '~'
    ensures c !in WhiteSpace
  {
  }

  lemma RefusedTokensNone(ts: seq<string>)
    requires forall k :: 0 <= k < |ts| ==> NoteTokenToMidi(ts[k]).Parsed?
    ensures RefusedTokens(ts) == []
  {
    if ts != [] {
      RefusedTokensNone(ts[..|ts| - 1]);
    }
  }

  /** Parsing formatted text at its own length gives back the (clamped) pitches and
      reports nothing. */
  lemma FormatThenParse(midis: seq<Pitch>)
    ensures TokensToMidi(PadTokens(Tokenize(FormatNoteText(midis)), |midis|))
      == seq(|midis|, i requires 0 <= i < |midis| => ClampPitch(midis[i]))
    ensures RefusedTokens(PadTokens(Tokenize(FormatNoteText(midis)), |midis|)) == []
  {
    var ts := NoteTokens(midis);
    assert PadTokens(ts, |midis|) == ts;
    forall k | 0 <= k < |ts|
      ensures NoteTokenToMidi(ts[k]).Parsed? && TokenPitch(ts[k]) == ClampPitch(midis[k])
    {
      if midis[k].Some? {
        MidiTokenRoundTripClamps(midis[k].value);
      }
    }
    RefusedTokensNone(ts);
  }

  // ---------------------------------------------------------------------------
  // Pitch classes

  /** The root pitch class of each key. */
  function KeyPitchClass(k: Key): (pc: int)
    ensures 0 <= pc < 12
  {
    match k
    case C => 0 case CSharp => 1 case D => 2 case EFlat => 3 case E => 4 case F => 5
    case FSharp => 6 case G => 7 case AFlat => 8 case A => 9 case BFlat => 10 case B => 11
  }

  /** The runtime's `%`: the remainder takes the sign of the dividend. */
  function TruncRem(a: int, b: int): int
    requires b > 0
  {
    if a >= 0 then a % b else -((-a) % b)
  }

  /** Adds `semitones` to a pitch class and wraps into 0..11, also for negative sums.
      The program writes this as a remainder, plus 12, and a second remainder, with the
      runtime's sign-keeping `%`; TransposeMatchesRuntime shows that this is the
      non-negative remainder used here. */
  function TransposePitchClass(pc: int, semitones: int): (r: int)
    ensures 0 <= r < 12
    ensures (pc + semitones - r) % 12 == 0
  {
    (pc + semitones) % 12
  }

  lemma TransposeMatchesRuntime(pc: int, semitones: int)
    ensures TransposePitchClass(pc, semitones) == TruncRem(TruncRem(pc + semitones, 12) + 12, 12)
  {
    var t := TruncRem(pc + semitones, 12);
    assert (t + 12) % 12 == (pc + semitones) % 12;
  }

  /** The pitch of class `pc` in `octave`, where octave -1 starts at MIDI 0. */
  function MidiForPitchClass(pc: int, octave: int): (m: int)
    ensures 0 <= m <= 127
    ensures 0 <= (octave + 1) * 12 + pc <= 127 ==> m == (octave + 1) * 12 + pc
  {
    ClampMidi((octave + 1) * 12 + pc)
  }

  /** The octave shift of `base` that the two window loops settle on: moved up an
      octave at a time while more than six semitones below `reference`, down while
      more than six above, so that it ends within six semitones of it. */
  function Windowed(base: int, reference: int): (c: int)
    ensures reference - 6 <= c <= reference + 6
    decreases if base < reference then reference - base else base - reference
  {
    if base < reference - 6 then Windowed(base + 12, reference)
    else if base > reference + 6 then Windowed(base - 12, reference)
    else base
  }

  /** The pitch of class `targetPc` nearest `reference`, starting from the preferred
      octave, clamped to the MIDI range. */
  function ClosestMidi(targetPc: int, reference: int, preferredOctave: int): (m: int)
    ensures 0 <= m <= 127
    ensures 0 <= reference <= 127 ==> -6 <= m - reference <= 6
  {
    ClampMidi(Windowed(MidiForPitchClass(targetPc, preferredOctave), reference))
  }

  /** The octave-up and octave-down checks that follow the window loops: each
      replaces the candidate only when strictly closer to the reference. */
  function Refine(candidate: int, reference: int): int {
    var distance := if candidate >= reference then candidate - reference else reference - candidate;
    var up := candidate + 12;
    var upDistance := if up >= reference then up - reference else reference - up;
    var c1 := if upDistance < distance then up else candidate;
    var d1 := if upDistance < distance then upDistance else distance;
    var down := c1 - 12;
    var downDistance := if down >= reference then down - reference else reference - down;
    if downDistance < d1 then down else c1
  }

  /** Once the candidate is within six semitones of the reference neither refinement
      can be closer, so neither is ever taken. */
  lemma RefineIsIdentity(candidate: int, reference: int)
    requires -6 <= candidate - reference <= 6
    ensures Refine(candidate, reference) == candidate
  {
  }

  /** The octave-picking rule as the program runs it: two loops move the candidate
      into the window around the reference, then two refinement checks, then the
      clamp. */
  method ClosestMidiToTarget(targetPc: int, reference: int, preferredOctave: int) returns (m: int)
    ensures m == ClosestMidi(targetPc, reference, preferredOctave)
    ensures 0 <= m <= 127
    ensures 0 <= reference <= 127 ==> -6 <= m - reference <= 6
  {
    var base := MidiForPitchClass(targetPc, preferredOctave);
    var candidate := base;
    while candidate < reference - 6
      invariant Windowed(candidate, reference) == Windowed(base, reference)
      decreases reference - 6 - candidate
    {
      candidate := candidate + 12;
    }
    while candidate > reference + 6
      invariant Windowed(candidate, reference) == Windowed(base, reference)
      invariant candidate >= reference - 6
      decreases candidate - reference
    {
      candidate := candidate - 12;
    }
    var distance := if candidate >= reference then candidate - reference else reference - candidate;
    var altUp := candidate + 12;
    var altDown := candidate - 12;
    if (if altUp >= reference then altUp - reference else reference - altUp) < distance {
      candidate := altUp;
      distance := if candidate >= reference then candidate - reference else reference - candidate;
    }
    if (if altDown >= reference then altDown - reference else reference - altDown) < distance {
      candidate := altDown;
    }
    m := ClampMidi(candidate);
  }

  /** Examples from the unit tests. */
  lemma ClosestMidiExamples()
    ensures ClosestMidi(0, 60, 4) == 60
    ensures ClosestMidi(0, 73, 4) == 72
    ensures ClosestMidi(0, 47, 3) == 48
  {
  }

  /** Near the bottom of the range the window loop goes below 0 and the clamp then
      leaves the target's pitch class: G in octave 4 against reference 0 is moved to
      -5 and clamped to 0, where the unit test expects 7. */
  lemma ClosestMidiLowEdge()
    ensures Windowed(MidiForPitchClass(7, 4), 0) == -5
    ensures ClosestMidi(7, 0, 4) == 0
  {
  }

  /** When the whole window lies in the MIDI range the result keeps the target's
      pitch class. */
  lemma ClosestMidiKeepsPitchClass(targetPc: int, reference: int, preferredOctave: int)
    requires 0 <= targetPc < 12
    requires -1 <= preferredOctave <= 9 && (preferredOctave + 1) * 12 + targetPc <= 127
    requires 6 <= reference <= 121
    ensures ClosestMidi(targetPc, reference, preferredOctave) % 12 == targetPc
  {
    var base := MidiForPitchClass(targetPc, preferredOctave);
    assert base % 12 == targetPc;
    assert ClosestMidi(targetPc, reference, preferredOctave) == Windowed(base, reference);
    WindowedKeepsPitchClass(base, reference);
  }

  /** Moving by whole octaves keeps the pitch class. */
  lemma {:induction false} WindowedKeepsPitchClass(base: int, reference: int)
    ensures Windowed(base, reference) % 12 == base % 12
    decreases if base < reference then reference - base else base - reference
  {
    if base < reference - 6 {
      WindowedKeepsPitchClass(base + 12, reference);
      OctaveUp(base);
    } else if base > reference + 6 {
      WindowedKeepsPitchClass(base - 12, reference);
      OctaveUp(base - 12);
    }
  }

  lemma OctaveUp(x: int)
    ensures (x + 12) % 12 == x % 12
  {
    var q := x / 12;
    assert x + 12 == (q + 1) * 12 + x % 12;
  }

  // ---------------------------------------------------------------------------
  // The nearest pitch of a class within the MIDI range

  function Distance(a: int, b: int): nat {
    if a >= b then a - b else b - a
  }

  /** The pitch of class `targetPc` nearest `reference` among MIDI 0..127: the window
      loops' candidate, moved back by an octave when the window runs past either end
      of the range, where ClosestMidi clamps it and so changes its class. */
  function NearestInRange(targetPc: int, reference: int, preferredOctave: int): (m: int)
    requires 0 <= targetPc < 12 && 0 <= reference <= 127
    ensures 0 <= m <= 127
    ensures m % 12 == targetPc
  {
    var base := (preferredOctave + 1) * 12 + targetPc;
    PitchClassOf(preferredOctave + 1, targetPc);
    WindowedKeepsPitchClass(base, reference);
    var c := Windowed(base, reference);
    if c < 0 then
      OctaveUp(c);
      c + 12
    else if c > 127 then
      OctaveUp(c - 12);
      c - 12
    else c
  }

  lemma PitchClassOf(k: int, pc: int)
    requires 0 <= pc < 12
    ensures (k * 12 + pc) % 12 == pc
  {
  }

  /** Two pitches of one class are equal or at least an octave apart. */
  lemma SameClassApart(a: int, b: int)
    requires a % 12 == b % 12 && a != b
    ensures a - b >= 12 || b - a >= 12
  {
    var q := a / 12 - b / 12;
    assert a - b == 12 * q;
  }

  /** No pitch of the class in the MIDI range is nearer the reference. */
  lemma NearestInRangeIsNearest(targetPc: int, reference: int, preferredOctave: int, n: int)
    requires 0 <= targetPc < 12 && 0 <= reference <= 127
    requires 0 <= n <= 127 && n % 12 == targetPc
    ensures Distance(NearestInRange(targetPc, reference, preferredOctave), reference) <= Distance(n, reference)
  {
    var m := NearestInRange(targetPc, reference, preferredOctave);
    if n != m {
      SameClassApart(n, m);
    }
  }

  /** The unit test's expectation holds of the corrected rule: G nearest MIDI 0 is 7. */
  lemma NearestInRangeLowEdge()
    ensures NearestInRange(7, 0, 4) == 7
  {
  }

  /** Away from the ends of the range the corrected rule and the program's agree. */
  lemma NearestInRangeAgrees(targetPc: int, reference: int, preferredOctave: int)
    requires 0 <= targetPc < 12
    requires -1 <= preferredOctave <= 9 && (preferredOctave + 1) * 12 + targetPc <= 127
    requires 6 <= reference <= 121
    ensures NearestInRange(targetPc, reference, preferredOctave) == ClosestMidi(targetPc, reference, preferredOctave)
  {
  }
}
