/** The sequence generator: one chord per bar gives a bass line (four slots a bar), an
    arpeggio (sixteen) and a lead line (eight), each note picked near the previous one;
    user arrays are fitted to length and replace the generated ones; each array is
    run-length encoded into note events, and all events are merged and stably sorted
    by step. */
module Sequence {
  import opened Notes
  import opened Scales
  import opened Chords
  import opened Sorting

  const StepsPerBar: int := 16

  /** Slots per bar of each part. */
  function PartSteps(part: Part): (n: int)
    ensures n == 4 || n == 8 || n == 16
  {
    match part
    case Bass => 4
    case Arp => 16
    case Lead => 8
  }

  /** The first note of a part sits in the preferred octave; every later one is the
      pitch of that class nearest the previous note. */
  function ToMidi(pc: int, last: Pitch, preferredOctave: int): (m: int)
    ensures 0 <= m <= 127
    ensures last.None? ==> m == MidiForPitchClass(pc, preferredOctave)
    ensures last.Some? && 0 <= last.value <= 127 ==> -6 <= m - last.value <= 6
  {
    if last.None? then MidiForPitchClass(pc, preferredOctave)
    else ClosestMidi(pc, last.value, preferredOctave)
  }

  /** The chords the generators read: none empty. */
  predicate ChordsOk(chords: seq<seq<int>>) {
    forall c :: c in chords ==> |c| >= 1
  }

  /** At least one well-formed chord per bar. */
  predicate ChordsFor(chords: seq<seq<int>>, bars: nat) {
    bars <= |chords| && ChordsOk(chords)
  }

  // ---------------------------------------------------------------------------
  // Voice leading, stated once for the three parts

  /** The last note among the first `n` slots of `s`, skipping rests. */
  function LastBefore(s: seq<Pitch>, n: nat): Pitch
    requires n <= |s|
    decreases n
  {
    if n == 0 then None
    else if s[n - 1].Some? then s[n - 1]
    else LastBefore(s, n - 1)
  }

  /** The last note of `s`, skipping rests: the `last` each generator carries along. */
  function LastNote(s: seq<Pitch>): Pitch {
    LastBefore(s, |s|)
  }

  /** A rest, or a MIDI note number. */
  predicate InMidi(p: Pitch) {
    p.Some? ==> 0 <= p.value <= 127
  }

  /** A rest, the first note, or a note within six semitones of `last`. */
  predicate Near(p: Pitch, last: Pitch) {
    p.Some? && last.Some? ==> -6 <= p.value - last.value <= 6
  }

  predicate InRange(s: seq<Pitch>) {
    forall i :: 0 <= i < |s| ==> InMidi(s[i])
  }

  /** Every note lies within six semitones of the note before it, rests skipped. */
  predicate VoiceLed(s: seq<Pitch>) {
    forall i :: 0 <= i < |s| ==> Near(s[i], LastBefore(s, i))
  }

  lemma {:induction false} LastBeforeAppend(s: seq<Pitch>, p: Pitch, n: nat)
    requires n <= |s|
    ensures LastBefore(s + [p], n) == LastBefore(s, n)
    decreases n
  {
    if n > 0 {
      LastBeforeAppend(s, p, n - 1);
    }
  }

  lemma LastNoteAppend(s: seq<Pitch>, p: Pitch)
    ensures LastNote(s + [p]) == if p.Some? then p else LastNote(s)
  {
    LastBeforeAppend(s, p, |s|);
  }

  lemma {:induction false} LastBeforeInRange(s: seq<Pitch>, n: nat)
    requires InRange(s) && n <= |s|
    ensures InMidi(LastBefore(s, n))
    decreases n
  {
    if n > 0 && s[n - 1].None? {
      LastBeforeInRange(s, n - 1);
    }
  }

  /** Appending a note near the last one, or a rest, keeps a line voice-led. */
  lemma Extend(s: seq<Pitch>, p: Pitch)
    requires InRange(s) && VoiceLed(s)
    requires InMidi(p) && Near(p, LastNote(s))
    ensures InRange(s + [p]) && VoiceLed(s + [p])
    ensures LastNote(s + [p]) == if p.Some? then p else LastNote(s)
  {
    var t := s + [p];
    forall i | 0 <= i < |t| ensures Near(t[i], LastBefore(t, i)) {
      LastBeforeAppend(s, p, i);
    }
    LastNoteAppend(s, p);
  }

  /** Placing a pitch class with ToMidi after a voice-led line keeps it voice-led. */
  lemma Place(s: seq<Pitch>, pc: int, octave: int)
    requires InRange(s) && VoiceLed(s)
    ensures var t := s + [Some(ToMidi(pc, LastNote(s), octave))];
      InRange(t) && VoiceLed(t) && LastNote(t) == t[|t| - 1]
  {
    LastBeforeInRange(s, |s|);
    Extend(s, Some(ToMidi(pc, LastNote(s), octave)));
  }

  // ---------------------------------------------------------------------------
  // Bass: root, root, fifth, root in every bar

  /** One bar of bass after a line whose last note is `last`: the chord root nearest
      `last` (in octave 2 when there is none), twice, the fifth nearest that root, and
      the root again. */
  function BassBar(rootPc: int, last: Pitch): (r: seq<Pitch>)
    ensures |r| == 4
  {
    var root := ToMidi(rootPc, last, 2);
    var fifth := ClosestMidi((rootPc + 7) % 12, root, 2);
    [Some(root), Some(root), Some(fifth), Some(root)]
  }

  /** The bass line of the first `bars` bars. */
  function BassNotes(chords: seq<seq<int>>, bars: nat): (r: seq<Pitch>)
    requires ChordsFor(chords, bars)
    ensures |r| == 4 * bars
  {
    if bars == 0 then []
    else
      var prev := BassNotes(chords, bars - 1);
      prev + BassBar(chords[bars - 1][0], LastNote(prev))
  }

  method GenerateBass(chords: seq<seq<int>>, bars: nat) returns (result: seq<Pitch>)
    requires ChordsFor(chords, bars)
    ensures result == BassNotes(chords, bars)
  {
    result := [];
    var last: Pitch := None;
    for bar := 0 to bars
      invariant result == BassNotes(chords, bar)
      invariant last == LastNote(result)
    {
      var chord := chords[bar];
      var rootPc := chord[0];
      var fifthPc := (rootPc + 7) % 12;
      var rootMidi := ToMidi(rootPc, last, 2);
      var fifthMidi := ClosestMidiToTarget(fifthPc, rootMidi, 2);
      BassStep(chords, bar, result, last);
      result := result + [Some(rootMidi), Some(rootMidi), Some(fifthMidi), Some(rootMidi)];
      last := Some(rootMidi);
    }
  }

  /** One loop step of GenerateBass: appending the next bar's root, root, fifth, root
      extends the line by one bar and makes the root the last note. */
  lemma BassStep(chords: seq<seq<int>>, bar: nat, result: seq<Pitch>, last: Pitch)
    requires ChordsFor(chords, bar + 1) && result == BassNotes(chords, bar) && last == LastNote(result)
    ensures var rootMidi := ToMidi(chords[bar][0], last, 2);
      var next := result + [Some(rootMidi), Some(rootMidi), Some(ClosestMidi((chords[bar][0] + 7) % 12, rootMidi, 2)),
                            Some(rootMidi)];
      next == BassNotes(chords, bar + 1) && LastNote(next) == Some(rootMidi)
  {
    LastOfAppend(result, BassBar(chords[bar][0], last));
  }

  /** Bar b of a bass line is root, root, fifth, root, with the fifth within six
      semitones of the root. */
  predicate BassBarShape(s: seq<Pitch>, b: nat)
    requires 4 * b + 4 <= |s|
  {
    s[4 * b].Some? && s[4 * b + 1] == s[4 * b] && s[4 * b + 3] == s[4 * b]
    && s[4 * b + 2].Some? && -6 <= s[4 * b + 2].value - s[4 * b].value <= 6
  }

  lemma BassBarShapeAppend(s: seq<Pitch>, t: seq<Pitch>, b: nat)
    requires 4 * b + 4 <= |s|
    ensures BassBarShape(s + t, b) == BassBarShape(s, b)
  {
  }

  /** Every bar of the bass line has the root, root, fifth, root shape. */
  lemma {:induction false} BassShape(chords: seq<seq<int>>, bars: nat)
    requires ChordsFor(chords, bars)
    ensures forall b :: 0 <= b < bars ==> BassBarShape(BassNotes(chords, bars), b)
  {
    if bars > 0 {
      var prev := BassNotes(chords, bars - 1);
      var next := BassBar(chords[bars - 1][0], LastNote(prev));
      BassShape(chords, bars - 1);
      assert BassNotes(chords, bars) == prev + next;
      forall b | 0 <= b < bars ensures BassBarShape(prev + next, b) {
        if b < bars - 1 {
          BassBarShapeAppend(prev, next, b);
        }
      }
    }
  }

  /** The very first bass note is the first chord's root in octave 2. */
  lemma {:induction false} BassFirstRoot(chords: seq<seq<int>>, bars: nat)
    requires ChordsFor(chords, bars) && bars >= 1
    ensures BassNotes(chords, bars)[0] == Some(MidiForPitchClass(chords[0][0], 2))
  {
    var prev := BassNotes(chords, bars - 1);
    var next := BassBar(chords[bars - 1][0], LastNote(prev));
    assert BassNotes(chords, bars) == prev + next;
    if bars > 1 {
      BassFirstRoot(chords, bars - 1);
    }
  }

  /** The bass line stays in the MIDI range and is voice-led. */
  lemma {:induction false} BassVoiceLed(chords: seq<seq<int>>, bars: nat)
    requires ChordsFor(chords, bars)
    ensures InRange(BassNotes(chords, bars)) && VoiceLed(BassNotes(chords, bars))
  {
    if bars > 0 {
      BassVoiceLed(chords, bars - 1);
      BassBarVoiceLed(BassNotes(chords, bars - 1), chords[bars - 1][0]);
    }
  }

  /** A bass bar played after a voice-led line keeps it voice-led and in range. */
  lemma BassBarVoiceLed(prev: seq<Pitch>, rootPc: int)
    requires InRange(prev) && VoiceLed(prev)
    ensures var s := prev + BassBar(rootPc, LastNote(prev)); InRange(s) && VoiceLed(s)
  {
    var root := ToMidi(rootPc, LastNote(prev), 2);
    var fifth := ClosestMidi((rootPc + 7) % 12, root, 2);
    Place(prev, rootPc, 2);
    var s1 := prev + [Some(root)];
    Extend(s1, Some(root));
    var s2 := s1 + [Some(root)];
    Extend(s2, Some(fifth));
    var s3 := s2 + [Some(fifth)];
    Extend(s3, Some(root));
    AppendFour(prev, Some(root), Some(root), Some(fifth), Some(root));
  }

  /** The pitch classes of bar b of a bass line: its root has the chord root's class
      whenever the root before it (if any) lies in 6..121, and its fifth has the
      class seven semitones up whenever its own root lies in 6..121. */
  predicate BassBarClasses(s: seq<Pitch>, b: nat, rootPc: int)
    requires 4 * b + 4 <= |s|
  {
    s[4 * b].Some? && s[4 * b + 2].Some?
    && ((b == 0 || (s[4 * b - 4].Some? && 6 <= s[4 * b - 4].value <= 121)) ==> s[4 * b].value % 12 == rootPc)
    && (6 <= s[4 * b].value <= 121 ==> s[4 * b + 2].value % 12 == (rootPc + 7) % 12)
  }

  lemma BassBarClassesAppend(s: seq<Pitch>, t: seq<Pitch>, b: nat, rootPc: int)
    requires 4 * b + 4 <= |s|
    ensures BassBarClasses(s + t, b, rootPc) == BassBarClasses(s, b, rootPc)
  {
    assert (s + t)[4 * b] == s[4 * b] && (s + t)[4 * b + 2] == s[4 * b + 2];
    if b > 0 {
      assert (s + t)[4 * b - 4] == s[4 * b - 4];
    }
  }

  /** One bar: the root keeps the chord root's class after no note or after a note
      in 6..121, and the fifth keeps its class when the root lies in 6..121. */
  lemma BassBarPitchClasses(rootPc: int, last: Pitch)
    requires 0 <= rootPc < 12
    ensures var bar := BassBar(rootPc, last);
      ((last.None? || 6 <= last.value <= 121) ==> bar[0].value % 12 == rootPc)
      && (6 <= bar[0].value <= 121 ==> bar[2].value % 12 == (rootPc + 7) % 12)
  {
    var root := ToMidi(rootPc, last, 2);
    if last.Some? && 6 <= last.value <= 121 {
      ClosestMidiKeepsPitchClass(rootPc, last.value, 2);
    }
    if 6 <= root <= 121 {
      ClosestMidiKeepsPitchClass((rootPc + 7) % 12, root, 2);
    }
  }

  /** Every bar of the bass line plays the chord root and its fifth, by pitch class,
      as long as the line stays away from the ends of the MIDI range. */
  lemma {:induction false} BassPitchClasses(chords: seq<seq<int>>, bars: nat)
    requires ChordsFor(chords, bars)
    requires forall b :: 0 <= b < bars ==> 0 <= chords[b][0] < 12
    ensures forall b :: 0 <= b < bars ==> BassBarClasses(BassNotes(chords, bars), b, chords[b][0])
  {
    if bars > 0 {
      var prev := BassNotes(chords, bars - 1);
      var bar := BassBar(chords[bars - 1][0], LastNote(prev));
      assert BassNotes(chords, bars) == prev + bar;
      BassPitchClasses(chords, bars - 1);
      LastBassBarClasses(chords, bars);
      forall b | 0 <= b < bars - 1 ensures BassBarClasses(prev + bar, b, chords[b][0]) {
        BassBarClassesAppend(prev, bar, b, chords[b][0]);
      }
    }
  }

  /** The newest bar of the line has the pitch classes BassBarClasses asks for. */
  lemma LastBassBarClasses(chords: seq<seq<int>>, bars: nat)
    requires ChordsFor(chords, bars) && bars > 0 && 0 <= chords[bars - 1][0] < 12
    ensures BassBarClasses(BassNotes(chords, bars), bars - 1, chords[bars - 1][0])
  {
    var prev := BassNotes(chords, bars - 1);
    var last := LastNote(prev);
    var s := prev + BassBar(chords[bars - 1][0], last);
    assert BassNotes(chords, bars) == s;
    BassBarPitchClasses(chords[bars - 1][0], last);
    if bars > 1 {
      BassShape(chords, bars - 1);
      assert BassBarShape(prev, bars - 2);
      assert last == prev[|prev| - 1] == s[4 * (bars - 1) - 4];
    }
  }

  /** At the bottom of the range the bass leaves the chord: a B root after a root at
      MIDI 2 is moved down to -1 and clamped to 0, a C. */
  lemma BassFloorExample()
    ensures ToMidi(11, Some(2), 2) == 0
    ensures BassBar(11, Some(2)) == [Some(0), Some(0), Some(6), Some(0)]
  {
  }

  /** After a line whose last note is `r`, the next bar's root is the last note. */
  lemma BassRootAfter(chords: seq<seq<int>>, k: nat, r: int)
    requires ChordsFor(chords, k + 1) && LastNote(BassNotes(chords, k)) == Some(r)
    ensures LastNote(BassNotes(chords, k + 1)) == Some(ToMidi(chords[k][0], Some(r), 2))
  {
    BassStep(chords, k, BassNotes(chords, k), Some(r));
  }

  /** C major roots falling a third at a time: C A F D B G E C A F D B. */
  const FallingRoots: seq<seq<int>> := [[0], [9], [5], [2], [11], [7], [4], [0], [9], [5], [2], [11]]

  /** The first eleven bars of that progression fall from 36 to 2, a third at a
      time: 36, 33, 29, 26, 23, 19, 16, 12, 9, 5, 2. */
  lemma FallingLine()
    ensures ChordsFor(FallingRoots, 12)
    ensures LastNote(BassNotes(FallingRoots, 11)) == Some(2)
  {
    var chords := FallingRoots;
    var roots := [36, 33, 29, 26, 23, 19, 16, 12, 9, 5, 2];
    BassFirstRoot(chords, 1);
    assert LastNote(BassNotes(chords, 1)) == Some(36) by {
      LastOfAppend([], BassBar(0, None));
    }
    var k := 1;
    while k < 11
      invariant 1 <= k <= 11 && LastNote(BassNotes(chords, k)) == Some(roots[k - 1])
    {
      BassRootAfter(chords, k, roots[k - 1]);
      BassNextRoot(k, chords[k][0], roots[k - 1], roots[k]);
      k := k + 1;
    }
  }

  /** The twelfth bar of that progression reaches the floor: its B root is played as
      MIDI 0, a C. */
  lemma BassFloorLine()
    ensures ChordsFor(FallingRoots, 12)
    ensures var s := BassNotes(FallingRoots, 12);
      s[43] == Some(2) && s[44] == Some(0) && s[44].value % 12 != FallingRoots[11][0]
  {
    FallingLine();
    var prev := BassNotes(FallingRoots, 11);
    assert BassNotes(FallingRoots, 12) == prev + BassBar(11, Some(2));
    BassFloorExample();
  }

  /** The roots of the falling line, one bar at a time. */
  lemma BassNextRoot(k: int, pc: int, r: int, next: int)
    requires 1 <= k < 11
    requires pc == [0, 9, 5, 2, 11, 7, 4, 0, 9, 5, 2, 11][k]
    requires r == [36, 33, 29, 26, 23, 19, 16, 12, 9, 5, 2][k - 1]
    requires next == [36, 33, 29, 26, 23, 19, 16, 12, 9, 5, 2][k]
    ensures ToMidi(pc, Some(r), 2) == next
  {
    if k == 1 { assert ToMidi(9, Some(36), 2) == 33; }
    else if k == 2 { assert ToMidi(5, Some(33), 2) == 29; }
    else if k == 3 { assert ToMidi(2, Some(29), 2) == 26; }
    else if k == 4 { assert ToMidi(11, Some(26), 2) == 23; }
    else if k == 5 { assert ToMidi(7, Some(23), 2) == 19; }
    else if k == 6 { assert ToMidi(4, Some(19), 2) == 16; }
    else if k == 7 { assert ToMidi(0, Some(16), 2) == 12; }
    else if k == 8 { assert ToMidi(9, Some(12), 2) == 9; }
    else if k == 9 { assert ToMidi(5, Some(9), 2) == 5; }
    else { assert ToMidi(2, Some(5), 2) == 2; }
  }

  // ---------------------------------------------------------------------------
  // Arpeggio: sixteen slots a bar walking the chord tones 0, 2, 1, 3

  const ArpPattern: seq<int> := [0, 2, 1, 3]

  /** `i % n` for a natural `i`, counted down by whole `n`s. */
  function Wrap(i: nat, n: nat): (r: nat)
    requires n > 0
    ensures r < n
    decreases i
  {
    if i < n then i else Wrap(i - n, n)
  }

  lemma {:induction false} WrapIsMod(i: nat, n: nat)
    requires n > 0
    ensures Wrap(i, n) == i % n
    decreases i
  {
    if i < n {
      ModOfForm(i, n, 0, i);
    } else {
      WrapIsMod(i - n, n);
      var q := (i - n) / n;
      var r := (i - n) % n;
      assert i - n == q * n + r;
      ModOfForm(i, n, q + 1, r);
    }
  }

  /** The remainder is the one `r` in 0 .. n - 1 with x == q * n + r. */
  lemma ModOfForm(x: int, n: int, q: int, r: int)
    requires n > 0 && 0 <= r < n && x == q * n + r
    ensures x % n == r
  {
    var d := x / n - q;
    assert d * n == r - x % n;
  }

  /** The chord tone arpeggio step `step` plays; the pattern index wraps at the chord's
      size. */
  function ArpTone(chord: seq<int>, step: nat): int
    requires |chord| >= 1
  {
    chord[Wrap(ArpPattern[step % 4], |chord|)]
  }

  /** The arpeggio of the first `bars` bars. */
  function ArpBars(chords: seq<seq<int>>, bars: nat): (r: seq<Pitch>)
    requires ChordsFor(chords, bars)
    ensures |r| == 16 * bars
    decreases bars, 0
  {
    if bars == 0 then [] else ArpSteps(chords, bars - 1, 16)
  }

  /** The arpeggio up to step `step` of bar `bar`: each note is the step's chord tone
      nearest the previous note, in preferred octave 4 (the generator's 4 + step / 16
      with step < 16). */
  function ArpSteps(chords: seq<seq<int>>, bar: nat, step: nat): (r: seq<Pitch>)
    requires ChordsFor(chords, bar + 1) && step <= 16
    ensures |r| == 16 * bar + step
    decreases bar, step + 1
  {
    if step == 0 then ArpBars(chords, bar)
    else
      var prev := ArpSteps(chords, bar, step - 1);
      prev + [Some(ToMidi(ArpTone(chords[bar], step - 1), LastNote(prev), 4))]
  }

  method GenerateArp(chords: seq<seq<int>>, bars: nat) returns (result: seq<Pitch>)
    requires ChordsFor(chords, bars)
    ensures result == ArpBars(chords, bars)
  {
    result := [];
    var last: Pitch := None;
    var pattern := ArpPattern;
    for bar := 0 to bars
      invariant result == ArpBars(chords, bar)
      invariant last == LastNote(result)
    {
      var chord := chords[bar];
      for step := 0 to StepsPerBar
        invariant result == ArpSteps(chords, bar, step)
        invariant last == LastNote(result)
      {
        var tone := chord[Wrap(pattern[step % 4], |chord|)];
        var preferredOctave := 4 + step / 16;
        assert preferredOctave == 4;
        var midi := ToMidi(tone, last, preferredOctave);
        LastNoteAppend(result, Some(midi));
        result := result + [Some(midi)];
        last := Some(midi);
      }
    }
  }

  /** The arpeggio has no rests, stays in the MIDI range and is voice-led. */
  lemma {:induction false} ArpVoiceLed(chords: seq<seq<int>>, bar: nat, step: nat)
    requires ChordsFor(chords, bar + 1) && step <= 16
    ensures var r := ArpSteps(chords, bar, step);
      InRange(r) && VoiceLed(r) && forall i :: 0 <= i < |r| ==> r[i].Some?
    decreases bar, step
  {
    if step == 0 {
      if bar > 0 {
        ArpVoiceLed(chords, bar - 1, 16);
      }
    } else {
      var prev := ArpSteps(chords, bar, step - 1);
      ArpVoiceLed(chords, bar, step - 1);
      Place(prev, ArpTone(chords[bar], step - 1), 4);
    }
  }

  // ---------------------------------------------------------------------------
  // Lead: eight slots a bar, two of them rests

  /** The bar's eight lead slots as pitch classes: chord tones 0, 2, 3 and 1 (wrapping
      at the chord's size), pentatonic tones bar + 1 and bar + 2 (wrapping at its size),
      and rests in slots 1 and 5. */
  function LeadPattern(chord: seq<int>, pentatonic: seq<int>, bar: nat): (r: seq<Option<int>>)
    requires |chord| >= 1 && |pentatonic| >= 1
    ensures |r| == 8
  {
    [Some(chord[0]), None, Some(chord[Wrap(2, |chord|)]), Some(pentatonic[Wrap(bar + 1, |pentatonic|)]),
     Some(chord[Wrap(3, |chord|)]), None, Some(pentatonic[Wrap(bar + 2, |pentatonic|)]), Some(chord[Wrap(1, |chord|)])]
  }

  /** The lead line of the first `bars` bars. */
  function LeadBars(chords: seq<seq<int>>, pentatonic: seq<int>, bars: nat): (r: seq<Pitch>)
    requires ChordsFor(chords, bars) && |pentatonic| >= 1
    ensures |r| == 8 * bars
    decreases bars, 0
  {
    if bars == 0 then [] else LeadSteps(chords, pentatonic, bars - 1, 8)
  }

  /** The lead line up to step `step` of bar `bar`: a rest where the pattern has one,
      otherwise the pattern's pitch class nearest the last note (octave 5 for the very
      first). */
  function LeadSteps(chords: seq<seq<int>>, pentatonic: seq<int>, bar: nat, step: nat): (r: seq<Pitch>)
    requires ChordsFor(chords, bar + 1) && |pentatonic| >= 1 && step <= 8
    ensures |r| == 8 * bar + step
    decreases bar, step + 1
  {
    if step == 0 then LeadBars(chords, pentatonic, bar)
    else
      var prev := LeadSteps(chords, pentatonic, bar, step - 1);
      var tone := LeadPattern(chords[bar], pentatonic, bar)[step - 1];
      prev + [if tone.None? then None else Some(ToMidi(tone.value, LastNote(prev), 5))]
  }

  /** One step of the lead line. */
  lemma LeadStepsNext(chords: seq<seq<int>>, pentatonic: seq<int>, bar: nat, step: nat, tone: Option<int>)
    requires ChordsFor(chords, bar + 1) && |pentatonic| >= 1 && step < 8
    requires tone == LeadPattern(chords[bar], pentatonic, bar)[step]
    ensures var prev := LeadSteps(chords, pentatonic, bar, step);
      LeadSteps(chords, pentatonic, bar, step + 1)
        == prev + [if tone.None? then None else Some(ToMidi(tone.value, LastNote(prev), 5))]
  {
  }

  method GenerateLead(chords: seq<seq<int>>, pentatonic: seq<int>, bars: nat) returns (result: seq<Pitch>)
    requires ChordsFor(chords, bars) && |pentatonic| >= 1
    ensures result == LeadBars(chords, pentatonic, bars)
  {
    result := [];
    var last: Pitch := None;
    for bar := 0 to bars
      invariant result == LeadBars(chords, pentatonic, bar)
      invariant last == LastNote(result)
    {
      var chord := chords[bar];
      var pattern := LeadPattern(chord, pentatonic, bar);
      for step := 0 to PartSteps(Lead)
        invariant result == LeadSteps(chords, pentatonic, bar, step)
        invariant last == LastNote(result)
      {
        // step < 8 == |pattern|, so wrapping the index at the pattern length is the identity
        var tone := pattern[step];
        LeadStepsNext(chords, pentatonic, bar, step, tone);
        if tone == None {
          LastNoteAppend(result, None);
          result := result + [None];
          continue;
        }
        var midi := ToMidi(tone.value, last, 5);
        LastNoteAppend(result, Some(midi));
        result := result + [Some(midi)];
        last := Some(midi);
      }
    }
  }

  /** The lead line stays in the MIDI range and is voice-led. */
  lemma {:induction false} LeadVoiceLed(chords: seq<seq<int>>, pentatonic: seq<int>, bar: nat, step: nat)
    requires ChordsFor(chords, bar + 1) && |pentatonic| >= 1 && step <= 8
    ensures InRange(LeadSteps(chords, pentatonic, bar, step)) && VoiceLed(LeadSteps(chords, pentatonic, bar, step))
    decreases bar, step
  {
    if step == 0 {
      if bar > 0 {
        LeadVoiceLed(chords, pentatonic, bar - 1, 8);
      }
    } else {
      var prev := LeadSteps(chords, pentatonic, bar, step - 1);
      LeadVoiceLed(chords, pentatonic, bar, step - 1);
      var tone := LeadPattern(chords[bar], pentatonic, bar)[step - 1];
      LeadStepsNext(chords, pentatonic, bar, step - 1, tone);
      if tone.None? {
        Extend(prev, None);
      } else {
        Place(prev, tone.value, 5);
      }
    }
  }

  /** Slots 1 and 5 of every bar of the lead line are rests; the other six are notes. */
  predicate LeadRests(s: seq<Pitch>) {
    forall i :: 0 <= i < |s| ==> (s[i].None? <==> i % 8 == 1 || i % 8 == 5)
  }

  lemma {:induction false} LeadRestSlots(chords: seq<seq<int>>, pentatonic: seq<int>, bar: nat, step: nat)
    requires ChordsFor(chords, bar + 1) && |pentatonic| >= 1 && step <= 8
    ensures LeadRests(LeadSteps(chords, pentatonic, bar, step))
    decreases bar, step
  {
    if step == 0 {
      if bar > 0 {
        LeadRestSlots(chords, pentatonic, bar - 1, 8);
      }
    } else {
      LeadRestSlots(chords, pentatonic, bar, step - 1);
      var tone := LeadPattern(chords[bar], pentatonic, bar)[step - 1];
      LeadStepsNext(chords, pentatonic, bar, step - 1, tone);
      SlotInBar(bar, step - 1);
    }
  }

  // ---------------------------------------------------------------------------
  // Fitting a user array to the part's length

  /** A user array fitted to `n` slots: cut to its first `n`, or padded with rests. */
  function Fitted(source: seq<Pitch>, n: nat): (r: seq<Pitch>)
    ensures |r| == n
    ensures forall i :: 0 <= i < n ==> r[i] == if i < |source| then source[i] else None
  {
    if |source| >= n then source[..n] else source + seq(n - |source|, _ => None)
  }

  /** No array gives no array; otherwise a copy, cut to `targetLength` when it is at
      least that long and padded with rests one at a time when shorter. */
  method EnsureLength(source: Option<seq<Pitch>>, targetLength: nat) returns (r: Option<seq<Pitch>>)
    ensures source.None? ==> r.None?
    ensures source.Some? ==> r == Some(Fitted(source.value, targetLength))
  {
    if source.None? {
      return None;
    }
    var copy := source.value;
    if |copy| >= targetLength {
      return Some(copy[..targetLength]);
    }
    while |copy| < targetLength
      invariant |source.value| <= |copy| <= targetLength
      invariant forall i :: 0 <= i < |copy| ==> copy[i] == if i < |source.value| then source.value[i] else None
      decreases targetLength - |copy|
    {
      copy := copy + [None];
    }
    var fitted := Fitted(source.value, targetLength);
    assert forall i :: 0 <= i < targetLength ==> copy[i] == fitted[i];
    assert copy == fitted;
    return Some(copy);
  }

  // ---------------------------------------------------------------------------
  // Run-length encoding of a pitch-or-rest array into note events

  /** `n` slots of `size` steps, summed slot by slot as the encoder's running step
      counter does. */
  function Span(n: nat, size: nat): nat
    decreases n
  {
    if n == 0 then 0 else Span(n - 1, size) + size
  }

  lemma {:induction false} SpanIsProduct(n: nat, size: nat)
    ensures Span(n, size) == n * size
    decreases n
  {
    if n > 0 {
      SpanIsProduct(n - 1, size);
    }
  }

  lemma {:induction false} SpanAdd(m: nat, n: nat, size: nat)
    ensures Span(m + n, size) == Span(m, size) + Span(n, size)
    decreases n
  {
    if n > 0 {
      SpanAdd(m, n - 1, size);
    }
  }

  lemma {:induction false} SpanMonotone(m: nat, n: nat, size: nat)
    requires m <= n
    ensures Span(m, size) <= Span(n, size)
    decreases n
  {
    if m < n {
      SpanMonotone(m, n - 1, size);
    }
  }

  /** The slot after the run of equal slots that starts at `j`. */
  function RunEnd(notes: seq<Pitch>, j: nat): (k: nat)
    requires j < |notes|
    ensures j < k <= |notes|
    ensures forall m :: j <= m < k ==> notes[m] == notes[j]
    ensures k < |notes| ==> notes[k] != notes[j]
    decreases |notes| - j
  {
    if j + 1 < |notes| && notes[j + 1] == notes[j] then RunEnd(notes, j + 1) else j + 1
  }

  /** The events the encoder emits for slots `idx` onwards: a rest emits nothing; a
      note emits one event for its whole run of equal slots, starting at the run's
      first step and lasting all of its steps. */
  function EventsFrom(part: Part, notes: seq<Pitch>, size: nat, idx: nat): seq<NoteEvent>
    requires idx <= |notes|
    decreases |notes| - idx
  {
    if idx == |notes| then []
    else if notes[idx].None? then EventsFrom(part, notes, size, idx + 1)
    else
      var k := RunEnd(notes, idx);
      [NoteEvent(part, Span(idx, size), Span(k - idx, size), notes[idx])] + EventsFrom(part, notes, size, k)
  }

  /** One step of the encoder: the events from a note's slot are its run's event
      followed by the events after the run. */
  lemma EventsFromNote(part: Part, notes: seq<Pitch>, size: nat, idx: nat)
    requires idx < |notes| && notes[idx].Some?
    ensures var k := RunEnd(notes, idx);
      EventsFrom(part, notes, size, idx)
        == [NoteEvent(part, Span(idx, size), Span(k - idx, size), notes[idx])] + EventsFrom(part, notes, size, k)
  {
  }

  method NotesToEvents(part: Part, notes: seq<Pitch>, stepsPerNote: nat) returns (events: seq<NoteEvent>)
    ensures events == EventsFrom(part, notes, stepsPerNote, 0)
  {
    events := [];
    var stepIndex := 0;
    var idx := 0;
    var stepSize := stepsPerNote;
    while idx < |notes|
      invariant idx <= |notes|
      invariant stepIndex == Span(idx, stepSize)
      invariant events + EventsFrom(part, notes, stepSize, idx) == EventsFrom(part, notes, stepSize, 0)
      decreases |notes| - idx
    {
      var midi := notes[idx];
      if midi.None? {
        idx := idx + 1;
        stepIndex := stepIndex + stepSize;
        continue;
      }
      var duration := stepSize;
      var lookahead := idx + 1;
      while lookahead < |notes| && notes[lookahead] == midi
        invariant idx < lookahead <= |notes|
        invariant notes[lookahead - 1] == midi
        invariant duration == Span(lookahead - idx, stepSize)
        invariant RunEnd(notes, lookahead - 1) == RunEnd(notes, idx)
        decreases |notes| - lookahead
      {
        duration := duration + stepSize;
        lookahead := lookahead + 1;
      }
      var event := NoteEvent(part, stepIndex, duration, midi);
      EventsFromNote(part, notes, stepSize, idx);
      AppendAssoc(events, [event], EventsFrom(part, notes, stepSize, lookahead));
      SpanAdd(idx, lookahead - idx, stepSize);
      events := events + [event];
      idx := lookahead;
      stepIndex := stepIndex + duration;
    }
    AppendEmpty(events);
  }

  // ---------------------------------------------------------------------------
  // What the encoder's events say about the array

  /** `n` copies of `p`. */
  function Repeat(p: Pitch, n: nat): (r: seq<Pitch>)
    ensures |r| == n && forall i :: 0 <= i < n ==> r[i] == p
  {
    seq(n, _ => p)
  }

  /** How many whole slots of `size` steps fit in `d` steps. */
  function Slots(d: int, size: nat): nat
    requires size >= 1
    decreases d
  {
    if d < size then 0 else 1 + Slots(d - size, size)
  }

  lemma {:induction false} SlotsOfSpan(n: nat, size: nat)
    requires size >= 1
    ensures Slots(Span(n, size), size) == n
    decreases n
  {
    if n > 0 {
      SlotsOfSpan(n - 1, size);
    }
  }

  /** Decodes events into slots `idx` .. `n - 1`: an event that starts at a slot's
      first step fills that slot and the following ones, for as many slots as its
      duration covers, with its note; every other slot is a rest. */
  function Expand(events: seq<NoteEvent>, size: nat, idx: nat, n: nat): (r: seq<Pitch>)
    requires size >= 1
    decreases n - idx, |events|
  {
    if idx >= n then []
    else if events == [] || events[0].step != Span(idx, size) then [None] + Expand(events, size, idx + 1, n)
    else
      var len := Slots(events[0].durSteps, size);
      if len == 0 then Expand(events[1..], size, idx, n)
      else if idx + len > n then Repeat(events[0].midi, n - idx)
      else Repeat(events[0].midi, len) + Expand(events[1..], size, idx + len, n)
  }

  /** The events from slot `idx` start no earlier than that slot, and one that starts
      exactly there holds that slot's note. */
  lemma {:induction false} EventsStart(part: Part, notes: seq<Pitch>, size: nat, idx: nat)
    requires idx <= |notes| && size >= 1
    ensures var es := EventsFrom(part, notes, size, idx);
      es != [] ==> es[0].step >= Span(idx, size)
                   && (es[0].step == Span(idx, size) ==> idx < |notes| && notes[idx] == es[0].midi)
    decreases |notes| - idx
  {
    if idx < |notes| && notes[idx].None? {
      EventsStart(part, notes, size, idx + 1);
    }
  }

  /** A slot whose first step no event starts at decodes to a rest. */
  lemma ExpandRest(es: seq<NoteEvent>, size: nat, idx: nat, n: nat)
    requires size >= 1 && idx < n
    requires es == [] || es[0].step >= Span(idx + 1, size)
    ensures Expand(es, size, idx, n) == [None] + Expand(es, size, idx + 1, n)
  {
  }

  /** An event that starts at slot `idx` and covers `len` slots decodes to `len`
      copies of its note. */
  lemma ExpandRun(e: NoteEvent, rest: seq<NoteEvent>, size: nat, idx: nat, len: nat, n: nat)
    requires size >= 1 && 1 <= len && idx + len <= n
    requires e.step == Span(idx, size) && Slots(e.durSteps, size) == len
    ensures Expand([e] + rest, size, idx, n) == Repeat(e.midi, len) + Expand(rest, size, idx + len, n)
  {
    assert ([e] + rest)[1..] == rest;
  }

  lemma {:induction false} ExpandEvents(part: Part, notes: seq<Pitch>, size: nat, idx: nat)
    requires idx <= |notes| && size >= 1
    ensures Expand(EventsFrom(part, notes, size, idx), size, idx, |notes|) == notes[idx..]
    decreases |notes| - idx
  {
    if idx < |notes| {
      if notes[idx].None? {
        ExpandEvents(part, notes, size, idx + 1);
        ExpandRestStep(part, notes, size, idx);
      } else {
        ExpandEvents(part, notes, size, RunEnd(notes, idx));
        ExpandRunStep(part, notes, size, idx);
      }
    }
  }

  /** A rest slot decodes to a rest in front of what the following slots decode to. */
  lemma ExpandRestStep(part: Part, notes: seq<Pitch>, size: nat, idx: nat)
    requires idx < |notes| && size >= 1 && notes[idx].None?
    requires Expand(EventsFrom(part, notes, size, idx + 1), size, idx + 1, |notes|) == notes[idx + 1..]
    ensures Expand(EventsFrom(part, notes, size, idx), size, idx, |notes|) == notes[idx..]
  {
    var es := EventsFrom(part, notes, size, idx + 1);
    EventsStart(part, notes, size, idx + 1);
    ExpandRest(es, size, idx, |notes|);
    assert notes[idx..] == [None] + notes[idx + 1..];
  }

  /** A run of equal notes decodes to its copies in front of what the slots after the
      run decode to. */
  lemma ExpandRunStep(part: Part, notes: seq<Pitch>, size: nat, idx: nat)
    requires idx < |notes| && size >= 1 && notes[idx].Some?
    requires var k := RunEnd(notes, idx);
      Expand(EventsFrom(part, notes, size, k), size, k, |notes|) == notes[k..]
    ensures Expand(EventsFrom(part, notes, size, idx), size, idx, |notes|) == notes[idx..]
  {
    var k := RunEnd(notes, idx);
    var e := NoteEvent(part, Span(idx, size), Span(k - idx, size), notes[idx]);
    EventsFromNote(part, notes, size, idx);
    SlotsOfSpan(k - idx, size);
    ExpandRun(e, EventsFrom(part, notes, size, k), size, idx, k - idx, |notes|);
    assert notes[idx..k] == Repeat(notes[idx], k - idx);
    assert notes[idx..] == notes[idx..k] + notes[k..];
  }

  /** Decoding the encoder's events gives back the array: the encoding loses
      nothing. */
  lemma EventsRoundTrip(part: Part, notes: seq<Pitch>, size: nat)
    requires size >= 1
    ensures Expand(EventsFrom(part, notes, size, 0), size, 0, |notes|) == notes
  {
    ExpandEvents(part, notes, size, 0);
    assert notes[0..] == notes;
  }

  /** Every event is of `part`, holds a note, lasts at least one slot and lies
      between steps `from` and `to`; each event ends before the next one starts. */
  predicate EventsWithin(es: seq<NoteEvent>, part: Part, size: nat, from: int, to: int) {
    (forall i :: 0 <= i < |es| ==>
      es[i].part == part && es[i].midi.Some? && es[i].durSteps >= size
      && from <= es[i].step && es[i].step + es[i].durSteps <= to)
    && (forall i, j :: 0 <= i < j < |es| ==> es[i].step + es[i].durSteps <= es[j].step)
  }

  lemma {:induction false} EventsShape(part: Part, notes: seq<Pitch>, size: nat, idx: nat)
    requires idx <= |notes|
    ensures EventsWithin(EventsFrom(part, notes, size, idx), part, size, Span(idx, size), Span(|notes|, size))
    decreases |notes| - idx
  {
    if idx < |notes| {
      if notes[idx].None? {
        EventsShape(part, notes, size, idx + 1);
      } else {
        EventsShape(part, notes, size, RunEnd(notes, idx));
        EventsShapeRun(part, notes, size, idx);
      }
    }
  }

  /** A run's event, put in front of the events after the run, keeps the shape. */
  lemma EventsShapeRun(part: Part, notes: seq<Pitch>, size: nat, idx: nat)
    requires idx < |notes| && notes[idx].Some?
    requires var k := RunEnd(notes, idx);
      EventsWithin(EventsFrom(part, notes, size, k), part, size, Span(k, size), Span(|notes|, size))
    ensures EventsWithin(EventsFrom(part, notes, size, idx), part, size, Span(idx, size), Span(|notes|, size))
  {
    var k := RunEnd(notes, idx);
    var es := EventsFrom(part, notes, size, idx);
    var rest := EventsFrom(part, notes, size, k);
    EventsFromNote(part, notes, size, idx);
    SpanAdd(idx, k - idx, size);
    SpanMonotone(k, |notes|, size);
    SpanMonotone(idx, k, size);
    assert Span(k - idx, size) == Span(k - idx - 1, size) + size;
    forall i | 0 <= i < |es|
      ensures es[i].part == part && es[i].midi.Some? && es[i].durSteps >= size
        && Span(idx, size) <= es[i].step && es[i].step + es[i].durSteps <= Span(|notes|, size)
    {
      if i > 0 {
        assert es[i] == rest[i - 1];
      }
    }
    forall i, j | 0 <= i < j < |es| ensures es[i].step + es[i].durSteps <= es[j].step {
      assert es[j] == rest[j - 1];
      if i > 0 {
        assert es[i] == rest[i - 1];
      }
    }
  }

  /** Runs are maximal: an event that starts right where the one before it ends holds
      a different note. */
  lemma {:induction false} EventsMaximal(part: Part, notes: seq<Pitch>, size: nat, idx: nat)
    requires idx <= |notes| && size >= 1
    ensures var es := EventsFrom(part, notes, size, idx);
      forall i :: 0 <= i < |es| - 1 && es[i].step + es[i].durSteps == es[i + 1].step ==> es[i].midi != es[i + 1].midi
    decreases |notes| - idx
  {
    if idx < |notes| {
      if notes[idx].None? {
        EventsMaximal(part, notes, size, idx + 1);
        assert EventsFrom(part, notes, size, idx) == EventsFrom(part, notes, size, idx + 1);
      } else {
        var k := RunEnd(notes, idx);
        var es := EventsFrom(part, notes, size, idx);
        var rest := EventsFrom(part, notes, size, k);
        EventsFromNote(part, notes, size, idx);
        EventsMaximal(part, notes, size, k);
        EventsStart(part, notes, size, k);
        SpanAdd(idx, k - idx, size);
        forall i | 0 <= i < |es| - 1 && es[i].step + es[i].durSteps == es[i + 1].step
          ensures es[i].midi != es[i + 1].midi
        {
          assert es[i + 1] == rest[i];
          if i > 0 {
            assert es[i] == rest[i - 1];
          }
        }
      }
    }
  }

  /** The number of notes (slots that are not rests) from slot `idx` on. */
  function NoteCount(notes: seq<Pitch>, idx: nat): nat
    requires idx <= |notes|
    decreases |notes| - idx
  {
    if idx == |notes| then 0 else (if notes[idx].Some? then 1 else 0) + NoteCount(notes, idx + 1)
  }

  function TotalDuration(es: seq<NoteEvent>): int {
    if es == [] then 0 else es[0].durSteps + TotalDuration(es[1..])
  }

  lemma {:induction false} RunCount(notes: seq<Pitch>, j: nat, k: nat)
    requires j <= k <= |notes|
    requires forall m :: j <= m < k ==> notes[m].Some?
    ensures NoteCount(notes, j) == (k - j) + NoteCount(notes, k)
    decreases k - j
  {
    if j < k {
      RunCount(notes, j + 1, k);
    }
  }

  /** The events' durations add up to one slot's steps per note. */
  lemma {:induction false} EventsDuration(part: Part, notes: seq<Pitch>, size: nat, idx: nat)
    requires idx <= |notes|
    ensures TotalDuration(EventsFrom(part, notes, size, idx)) == Span(NoteCount(notes, idx), size)
    decreases |notes| - idx
  {
    if idx < |notes| {
      if notes[idx].None? {
        EventsDuration(part, notes, size, idx + 1);
      } else {
        var k := RunEnd(notes, idx);
        var es := EventsFrom(part, notes, size, idx);
        EventsFromNote(part, notes, size, idx);
        EventsDuration(part, notes, size, k);
        assert es[1..] == EventsFrom(part, notes, size, k);
        RunCount(notes, idx, k);
        SpanAdd(k - idx, NoteCount(notes, k), size);
      }
    }
  }

  /** A run of `m` equal notes followed by rests only gives one event. */
  lemma OneRunOneEvent(part: Part, notes: seq<Pitch>, size: nat, m: nat)
    requires 1 <= m <= |notes| && notes[0].Some?
    requires forall i :: 0 <= i < m ==> notes[i] == notes[0]
    requires forall i :: m <= i < |notes| ==> notes[i].None?
    ensures EventsFrom(part, notes, size, 0) == [NoteEvent(part, 0, Span(m, size), notes[0])]
  {
    RunEndIs(notes, 0, m);
    EventsFromNote(part, notes, size, 0);
    RestsGiveNoEvents(part, notes, size, m);
  }

  /** The run from slot `j` ends at `m` when slots `j` .. `m - 1` agree and slot `m`
      (if any) differs. */
  lemma {:induction false} RunEndIs(notes: seq<Pitch>, j: nat, m: nat)
    requires j < m <= |notes|
    requires forall i :: j <= i < m ==> notes[i] == notes[j]
    requires m < |notes| ==> notes[m] != notes[j]
    ensures RunEnd(notes, j) == m
    decreases m - j
  {
    if j + 1 < m {
      RunEndIs(notes, j + 1, m);
    }
  }

  lemma {:induction false} RestsGiveNoEvents(part: Part, notes: seq<Pitch>, size: nat, idx: nat)
    requires idx <= |notes|
    requires forall i :: idx <= i < |notes| ==> notes[i].None?
    ensures EventsFrom(part, notes, size, idx) == []
    decreases |notes| - idx
  {
    if idx < |notes| {
      RestsGiveNoEvents(part, notes, size, idx + 1);
    }
  }

  // ---------------------------------------------------------------------------
  // The whole sequence

  datatype SequenceResult = SequenceResult(events: seq<NoteEvent>, generated: PartNotes)

  /** A bar's chord: the degree's triad with its seventh. */
  function EnsureChord(key: Key, mode: Mode, degree: Degree): (r: seq<int>)
    ensures |r| == 4 && r[0] == ScalePitchClasses(key, mode)[degree]
  {
    ChordPitchClasses(key, mode, degree, true)
  }

  /** The degree of each of `bars` bars: the progression's degrees taken cyclically. */
  function BarDegrees(degrees: seq<Degree>, bars: nat): (r: seq<Degree>)
    requires |degrees| >= 1
    ensures |r| == bars
  {
    seq(bars, i requires 0 <= i < bars => degrees[Wrap(i, |degrees|)])
  }

  /** The progression is read in order and then repeated from its start. */
  lemma BarDegreesCycle(degrees: seq<Degree>, bars: nat)
    requires |degrees| >= 1
    ensures forall i :: 0 <= i < bars && i < |degrees| ==> BarDegrees(degrees, bars)[i] == degrees[i]
    ensures forall i :: 0 <= i && i + |degrees| < bars ==>
      BarDegrees(degrees, bars)[i + |degrees|] == BarDegrees(degrees, bars)[i]
  {
    var r := BarDegrees(degrees, bars);
    forall i | 0 <= i && i + |degrees| < bars ensures r[i + |degrees|] == r[i] {
      assert Wrap(i + |degrees|, |degrees|) == Wrap(i, |degrees|);
    }
  }

  function BarChords(key: Key, mode: Mode, degrees: seq<Degree>): (r: seq<seq<int>>)
    ensures |r| == |degrees| && ChordsFor(r, |degrees|)
  {
    seq(|degrees|, i requires 0 <= i < |degrees| => EnsureChord(key, mode, degrees[i]))
  }

  /** The three generated parts for `bars` bars of chords. */
  function GeneratedFrom(chords: seq<seq<int>>, pentatonic: seq<int>, bars: nat): (r: PartNotes)
    requires ChordsFor(chords, bars) && |pentatonic| >= 1
    ensures PartsSized(r, bars)
  {
    PartNotes(LeadBars(chords, pentatonic, bars), ArpBars(chords, bars), BassNotes(chords, bars))
  }

  /** Each part holds its slots per bar for `bars` bars. */
  predicate PartsSized(p: PartNotes, bars: nat) {
    |p.lead| == 8 * bars && |p.arp| == 16 * bars && |p.bass| == 4 * bars
  }

  function NotesOf(notes: PartNotes, part: Part): seq<Pitch> {
    match part
    case Lead => notes.lead
    case Arp => notes.arp
    case Bass => notes.bass
  }

  /** Steps per slot of a part. */
  function SlotSize(part: Part): (size: nat)
    ensures size >= 1
  {
    match part
    case Bass => 4
    case Arp => 1
    case Lead => 2
  }

  /** A part's slot size is the bar's steps divided by the part's slots per bar, and
      `bars` bars of a part hold `bars` times its slots per bar. */
  lemma SlotSizeSplitsBar(part: Part, bars: nat)
    ensures SlotSize(part) == StepsPerBar / PartSteps(part)
    ensures SlotSize(part) * PartSteps(part) == StepsPerBar
    ensures bars * PartSteps(part) == PartLength(part, bars)
  {
  }

  /** The slots of `bars` bars of a part. */
  function PartLength(part: Part, bars: nat): nat {
    match part
    case Bass => 4 * bars
    case Arp => 16 * bars
    case Lead => 8 * bars
  }

  /** A user array, fitted to `n` slots, when there is one; the generated slots
      otherwise. */
  function Chosen(user: Option<seq<Pitch>>, n: nat, generated: seq<Pitch>): (r: seq<Pitch>)
    requires |generated| == n
    ensures |r| == n
    ensures user.Some? ==> r == Fitted(user.value, n)
    ensures user.None? ==> r == generated
  {
    if user.Some? then Fitted(user.value, n) else generated
  }

  /** The slots each part plays. */
  function PlayedParts(generated: PartNotes, user: UserNotes, bars: nat): (r: PartNotes)
    requires PartsSized(generated, bars)
    ensures PartsSized(r, bars)
  {
    PartNotes(Chosen(user.lead, 8 * bars, generated.lead), Chosen(user.arp, 16 * bars, generated.arp),
              Chosen(user.bass, 4 * bars, generated.bass))
  }

  /** The events the encoder makes of one part's slots. */
  function PartEvents(played: PartNotes, part: Part): seq<NoteEvent> {
    EventsFrom(part, NotesOf(played, part), SlotSize(part), 0)
  }

  /** The parts in the order their events are collected. */
  const PartOrder: seq<Part> := [Bass, Arp, Lead]

  /** The events of `parts`, one part after the other. */
  function CollectedEvents(played: PartNotes, parts: seq<Part>): seq<NoteEvent> {
    if parts == [] then []
    else CollectedEvents(played, parts[..|parts| - 1]) + PartEvents(played, parts[|parts| - 1])
  }

  function StepKey(e: NoteEvent): int {
    e.step
  }

  function IsPart(part: Part): NoteEvent -> bool {
    (e: NoteEvent) => e.part == part
  }

  function AtStep(step: int): NoteEvent -> bool {
    (e: NoteEvent) => e.step == step
  }

  /** The collected events, stably sorted by step. */
  function SortedEvents(played: PartNotes): seq<NoteEvent> {
    SortBy(CollectedEvents(played, PartOrder), StepKey)
  }

  /** What generating a sequence returns: the sorted events of the parts played, and
      the parts generated from one chord per bar of the progression read cyclically
      and the key's pentatonic scale. */
  function SequenceOf(settings: Settings, progression: Progression, user: UserNotes): SequenceResult
    requires |progression.degrees| >= 1
  {
    var chords := BarChords(settings.key, settings.mode, BarDegrees(progression.degrees, settings.bars));
    var generated := GeneratedFrom(chords, PentatonicPitchClasses(settings.key, settings.mode), settings.bars);
    SequenceResult(SortedEvents(PlayedParts(generated, user, settings.bars)), generated)
  }

  /** Without user notes the events are those of the generated notes. */
  lemma SequenceWithoutUser(settings: Settings, progression: Progression)
    requires |progression.degrees| >= 1
    ensures var sq := SequenceOf(settings, progression, UserNotes(None, None, None));
      sq.events == SortedEvents(sq.generated)
  {
    PlayedWithoutUser(SequenceOf(settings, progression, UserNotes(None, None, None)).generated, settings.bars);
  }

  /** Without user notes each part plays its generated slots. */
  lemma PlayedWithoutUser(generated: PartNotes, bars: nat)
    requires PartsSized(generated, bars)
    ensures PlayedParts(generated, UserNotes(None, None, None), bars) == generated
  {
  }

  /** Reads the progression cyclically into one degree per bar. */
  method CycleDegrees(degrees: seq<Degree>, bars: nat) returns (r: seq<Degree>)
    requires |degrees| >= 1
    ensures r == BarDegrees(degrees, bars)
  {
    r := [];
    for i := 0 to bars
      invariant |r| == i
      invariant forall j :: 0 <= j < i ==> r[j] == degrees[Wrap(j, |degrees|)]
    {
      WrapIsMod(i, |degrees|);
      r := r + [degrees[i % |degrees|]];
    }
  }

  /** Encodes each part in turn and appends its events. */
  method CollectEvents(played: PartNotes) returns (events: seq<NoteEvent>)
    ensures events == CollectedEvents(played, PartOrder)
  {
    events := [];
    for k := 0 to |PartOrder|
      invariant events == CollectedEvents(played, PartOrder[..k])
    {
      var part := PartOrder[k];
      var stepsPerNote := StepsPerBar / PartSteps(part);
      SlotSizeSplitsBar(part, 0);
      var partEvents := NotesToEvents(part, NotesOf(played, part), stepsPerNote);
      assert PartOrder[..k + 1][..k] == PartOrder[..k];
      events := events + partEvents;
    }
    assert PartOrder[..|PartOrder|] == PartOrder;
  }

  /** The parts generated for the settings: one chord per bar of the progression read
      cyclically, then the bass, the arpeggio and the lead over those chords. */
  method GenerateParts(settings: Settings, progression: Progression) returns (generated: PartNotes)
    requires |progression.degrees| >= 1
    ensures generated == GeneratedFrom(BarChords(settings.key, settings.mode, BarDegrees(progression.degrees, settings.bars)),
                                       PentatonicPitchClasses(settings.key, settings.mode), settings.bars)
  {
    var bars := settings.bars;
    var degrees := CycleDegrees(progression.degrees, bars);
    var chords := BarChords(settings.key, settings.mode, degrees);
    var pentatonic := PentatonicPitchClasses(settings.key, settings.mode);
    var bass := GenerateBass(chords, bars);
    var arp := GenerateArp(chords, bars);
    var lead := GenerateLead(chords, pentatonic, bars);
    generated := PartNotes(lead, arp, bass);
  }

  /** The slots each part plays: a user array fitted to the part's length, or the
      generated part when the user gave none. */
  method ChooseParts(generated: PartNotes, userNotes: UserNotes, bars: nat) returns (played: PartNotes)
    requires PartsSized(generated, bars)
    ensures played == PlayedParts(generated, userNotes, bars)
  {
    SlotSizeSplitsBar(Bass, bars);
    SlotSizeSplitsBar(Arp, bars);
    SlotSizeSplitsBar(Lead, bars);
    var userBass := EnsureLength(userNotes.bass, bars * PartSteps(Bass));
    var userArp := EnsureLength(userNotes.arp, bars * PartSteps(Arp));
    var userLead := EnsureLength(userNotes.lead, bars * PartSteps(Lead));
    played := PartNotes(if userLead.Some? then userLead.value else generated.lead,
                        if userArp.Some? then userArp.value else generated.arp,
                        if userBass.Some? then userBass.value else generated.bass);
  }

  method GenerateSequence(settings: Settings, progression: Progression, userNotes: UserNotes)
    returns (result: SequenceResult)
    requires |progression.degrees| >= 1
    ensures result == SequenceOf(settings, progression, userNotes)
  {
    var generated := GenerateParts(settings, progression);
    var played := ChooseParts(generated, userNotes, settings.bars);
    var events := CollectEvents(played);
    events := SortBy(events, StepKey);
    result := SequenceResult(events, generated);
  }

  /** The collected events are the bass events, then the arpeggio's, then the lead's. */
  lemma CollectedInOrder(played: PartNotes)
    ensures CollectedEvents(played, PartOrder)
      == PartEvents(played, Bass) + PartEvents(played, Arp) + PartEvents(played, Lead)
  {
    assert PartOrder[..2] == [Bass, Arp];
    assert PartOrder[..2][..1] == [Bass];
    assert [Bass][..0] == [];
    calc {
      CollectedEvents(played, PartOrder);
      CollectedEvents(played, PartOrder[..2]) + PartEvents(played, Lead);
      CollectedEvents(played, [Bass]) + PartEvents(played, Arp) + PartEvents(played, Lead);
      CollectedEvents(played, []) + PartEvents(played, Bass) + PartEvents(played, Arp) + PartEvents(played, Lead);
    }
  }

  /** Every event of a part belongs to it, holds a note, lasts at least one slot and
      lies inside the loop of `bars` bars; the part's events do not overlap. */
  lemma PartEventsWithinLoop(played: PartNotes, bars: nat, part: Part)
    requires PartsSized(played, bars)
    ensures EventsWithin(PartEvents(played, part), part, SlotSize(part), 0, StepsPerBar * bars)
  {
    var slots := NotesOf(played, part);
    EventsShape(part, slots, SlotSize(part), 0);
    SpanIsProduct(|slots|, SlotSize(part));
  }

  /** A part's events are in step order. */
  lemma PartEventsSorted(played: PartNotes, part: Part)
    ensures SortedBy(PartEvents(played, part), StepKey)
  {
    var slots := NotesOf(played, part);
    EventsShape(part, slots, SlotSize(part), 0);
  }

  /** Events that all belong to one part pass that part's filter whole and every other
      part's filter not at all. */
  lemma {:induction false} FilterOnePart(es: seq<NoteEvent>, part: Part, other: Part)
    requires forall i :: 0 <= i < |es| ==> es[i].part == part
    ensures Filter(es, IsPart(other)) == if other == part then es else []
  {
    if es != [] {
      FilterOnePart(es[..|es| - 1], part, other);
    }
  }

  /** One part's events picked out by a part: all of them for their own part, none
      for another. */
  lemma PartFilter(played: PartNotes, own: Part, part: Part)
    ensures Filter(PartEvents(played, own), IsPart(part)) == if own == part then PartEvents(played, own) else []
  {
    EventsShape(own, NotesOf(played, own), SlotSize(own), 0);
    FilterOnePart(PartEvents(played, own), own, part);
  }

  /** The collected events picked out by part are that part's events. */
  lemma CollectedByPart(played: PartNotes, part: Part)
    ensures Filter(CollectedEvents(played, PartOrder), IsPart(part)) == PartEvents(played, part)
  {
    var b := PartEvents(played, Bass);
    var a := PartEvents(played, Arp);
    var l := PartEvents(played, Lead);
    var fb, fa, fl := Filter(b, IsPart(part)), Filter(a, IsPart(part)), Filter(l, IsPart(part));
    CollectedInOrder(played);
    FilterAppend(b + a, l, IsPart(part));
    FilterAppend(b, a, IsPart(part));
    assert Filter(CollectedEvents(played, PartOrder), IsPart(part)) == fb + fa + fl;
    OnePartPicked(played, part);
  }

  /** Of the three parts' events picked out by one part, only that part's remain. */
  lemma OnePartPicked(played: PartNotes, part: Part)
    ensures Filter(PartEvents(played, Bass), IsPart(part)) + Filter(PartEvents(played, Arp), IsPart(part))
      + Filter(PartEvents(played, Lead), IsPart(part)) == PartEvents(played, part)
  {
    PartFilter(played, Bass, part);
    PartFilter(played, Arp, part);
    PartFilter(played, Lead, part);
    match part {
      case Bass => assert PartEvents(played, Bass) + [] + [] == PartEvents(played, Bass);
      case Arp => assert [] + PartEvents(played, Arp) + [] == PartEvents(played, Arp);
      case Lead => assert [] + [] + PartEvents(played, Lead) == PartEvents(played, Lead);
    }
  }

  /** The returned events are sorted by step, are the collected events rearranged, and
      picked out by part give back each part's events in their own order. */
  lemma SequenceSorted(played: PartNotes, part: Part)
    ensures var events := SortedEvents(played);
      SortedBy(events, StepKey)
      && multiset(events) == multiset(CollectedEvents(played, PartOrder))
      && Filter(events, IsPart(part)) == PartEvents(played, part)
  {
    var all := CollectedEvents(played, PartOrder);
    SortBySorted(all, StepKey);
    CollectedByPart(played, part);
    PartEventsSorted(played, part);
    SortByKeepsOrderedFilter(all, StepKey, IsPart(part));
  }

  /** Events that start on the same step keep the order they were collected in: bass,
      then arpeggio, then lead. */
  lemma SequenceTiesKeepPartOrder(played: PartNotes, step: int)
    ensures Filter(SortedEvents(played), AtStep(step)) == Filter(CollectedEvents(played, PartOrder), AtStep(step))
  {
    SortByStable(CollectedEvents(played, PartOrder), StepKey, AtStep(step), step);
  }

  /** Decoding a part's events from the sorted sequence gives back the slots the part
      plays. */
  lemma SequenceRoundTrip(played: PartNotes, part: Part)
    ensures Expand(Filter(SortedEvents(played), IsPart(part)), SlotSize(part), 0, |NotesOf(played, part)|)
      == NotesOf(played, part)
  {
    SequenceSorted(played, part);
    EventsRoundTrip(part, NotesOf(played, part), SlotSize(part));
  }

  /** A part's durations add up to one slot's steps per note it plays. */
  lemma SequenceDuration(played: PartNotes, part: Part)
    ensures TotalDuration(Filter(SortedEvents(played), IsPart(part)))
      == NoteCount(NotesOf(played, part), 0) * SlotSize(part)
  {
    var slots := NotesOf(played, part);
    SequenceSorted(played, part);
    EventsDuration(part, slots, SlotSize(part), 0);
    SpanIsProduct(NoteCount(slots, 0), SlotSize(part));
  }

  /** A part's events in the sorted sequence lie inside the loop and do not overlap. */
  lemma SequenceWithinLoop(played: PartNotes, bars: nat, part: Part)
    requires PartsSized(played, bars)
    ensures EventsWithin(Filter(SortedEvents(played), IsPart(part)), part, SlotSize(part), 0, StepsPerBar * bars)
  {
    SequenceSorted(played, part);
    PartEventsWithinLoop(played, bars, part);
  }

  /** The generated lead opens on a note. */
  lemma GeneratedLeadOpens(chords: seq<seq<int>>, pentatonic: seq<int>, bars: nat)
    requires ChordsFor(chords, bars) && |pentatonic| >= 1 && bars >= 1
    ensures GeneratedFrom(chords, pentatonic, bars).lead[0].Some?
  {
    LeadRestSlots(chords, pentatonic, bars - 1, 8);
  }

  /** With no user lead, the lead sounds: its events in the sorted sequence are not
      empty. */
  lemma GeneratedLeadSounds(chords: seq<seq<int>>, pentatonic: seq<int>, bars: nat, user: UserNotes)
    requires ChordsFor(chords, bars) && |pentatonic| >= 1 && bars >= 1 && user.lead.None?
    ensures Filter(SortedEvents(PlayedParts(GeneratedFrom(chords, pentatonic, bars), user, bars)), IsPart(Lead)) != []
  {
    var played := PlayedParts(GeneratedFrom(chords, pentatonic, bars), user, bars);
    GeneratedLeadOpens(chords, pentatonic, bars);
    EventsFromNote(Lead, played.lead, SlotSize(Lead), 0);
    SequenceSorted(played, Lead);
  }

  /** A user lead of 32 slots of MIDI 72 over four bars plays as one event of 64 steps
      from step 0. */
  lemma FullUserLeadExample(generated: PartNotes, user: UserNotes)
    requires PartsSized(generated, 4) && user.lead == Some(Repeat(Some(72), 32))
    ensures Filter(SortedEvents(PlayedParts(generated, user, 4)), IsPart(Lead)) == [NoteEvent(Lead, 0, 64, Some(72))]
  {
    var played := PlayedParts(generated, user, 4);
    assert played.lead == Repeat(Some(72), 32);
    OneRunOneEvent(Lead, played.lead, 2, 32);
    SpanIsProduct(32, 2);
    SequenceSorted(played, Lead);
  }

  /** A user lead of five slots of MIDI 72 is padded with rests: one event of ten steps
      from step 0. */
  lemma ShortUserLeadExample(generated: PartNotes, user: UserNotes)
    requires PartsSized(generated, 4) && user.lead == Some(Repeat(Some(72), 5))
    ensures Filter(SortedEvents(PlayedParts(generated, user, 4)), IsPart(Lead)) == [NoteEvent(Lead, 0, 10, Some(72))]
  {
    var played := PlayedParts(generated, user, 4);
    OneRunOneEvent(Lead, played.lead, 2, 5);
    SpanIsProduct(5, 2);
    SequenceSorted(played, Lead);
  }

  /** A user arpeggio longer than four bars is cut: every arpeggio event ends by step 64. */
  lemma LongUserArpExample(generated: PartNotes, user: UserNotes)
    requires PartsSized(generated, 4) && user.arp.Some? && |user.arp.value| == 72
    ensures forall e :: e in Filter(SortedEvents(PlayedParts(generated, user, 4)), IsPart(Arp)) ==> e.step + e.durSteps <= 64
  {
    SequenceWithinLoop(PlayedParts(generated, user, 4), 4, Arp);
  }

  lemma AppendAssoc<T>(a: seq<T>, b: seq<T>, c: seq<T>)
    ensures a + (b + c) == a + b + c
  {
  }

  lemma AppendEmpty<T>(a: seq<T>)
    ensures a + [] == a
  {
  }

  lemma AppendFour<T>(s: seq<T>, a: T, b: T, c: T, d: T)
    ensures s + [a, b, c, d] == s + [a] + [b] + [c] + [d]
  {
  }

  lemma LastOfAppend(s: seq<Pitch>, t: seq<Pitch>)
    requires t != [] && t[|t| - 1].Some?
    ensures LastNote(s + t) == t[|t| - 1]
  {
  }

  lemma SlotInBar(bar: nat, k: nat)
    requires k < 8
    ensures (8 * bar + k) % 8 == k
  {
  }
}
