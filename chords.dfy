/** Diatonic chords: the triad (and optionally the seventh) built on a scale degree,
    with chord qualities fixed per mode and degree. */
module Chords {
  import opened Notes
  import opened Scales

  /** Intervals above the chord root: three for the triad, one for the seventh. */
  datatype ChordQuality = ChordQuality(triad: seq<int>, seventh: int)

  /** The chord quality on each degree of a major key: I and IV major sevenths, V a
      dominant seventh, ii, iii and vi minor sevenths, vii half-diminished. */
  function MajorQuality(degree: Degree): ChordQuality {
    match degree
    case 0 => ChordQuality([0, 4, 7], 11)
    case 1 => ChordQuality([0, 3, 7], 10)
    case 2 => ChordQuality([0, 3, 7], 10)
    case 3 => ChordQuality([0, 4, 7], 11)
    case 4 => ChordQuality([0, 4, 7], 10)
    case 5 => ChordQuality([0, 3, 7], 10)
    case _ => ChordQuality([0, 3, 6], 10)
  }

  /** The chord quality on each degree of a minor key: natural minor, except that ii
      (degree 1) takes a perfect fifth, the dominant (degree 4) a major third, and vii
      (degree 6) a minor third and a diminished fifth. */
  function MinorQuality(degree: Degree): ChordQuality {
    match degree
    case 0 => ChordQuality([0, 3, 7], 10)
    case 1 => ChordQuality([0, 3, 7], 10)
    case 2 => ChordQuality([0, 4, 7], 11)
    case 3 => ChordQuality([0, 3, 7], 10)
    case 4 => ChordQuality([0, 4, 7], 10)
    case 5 => ChordQuality([0, 4, 7], 11)
    case _ => ChordQuality([0, 3, 6], 10)
  }

  /** The quality of the chord on `degree` in `mode`. */
  function Quality(mode: Mode, degree: Degree): (q: ChordQuality)
    ensures |q.triad| == 3 && q.triad[0] == 0
    ensures 0 <= q.triad[1] < 12 && 0 <= q.triad[2] < 12 && 0 <= q.seventh < 12
  {
    if mode == Major then MajorQuality(degree) else MinorQuality(degree)
  }

  /** The j-th chord tone above the root: triad tones first, then the seventh. */
  function ToneInterval(q: ChordQuality, j: int): int
    requires |q.triad| == 3 && 0 <= j < 4
  {
    if j < 3 then q.triad[j] else q.seventh
  }

  /** The chord on `degree`: its root is that scale step, and each chord tone is the
      root moved up by the quality's interval, wrapped into 0..11; with
      `includeSeventh` a fourth tone is appended. */
  function ChordPitchClasses(key: Key, mode: Mode, degree: Degree, includeSeventh: bool): (r: seq<int>)
    ensures |r| == if includeSeventh then 4 else 3
    ensures r[0] == ScalePitchClasses(key, mode)[degree]
    ensures forall j :: 0 <= j < |r| ==> 0 <= r[j] < 12
  {
    ChordOnRoot(ScalePitchClasses(key, mode)[degree], Quality(mode, degree), includeSeventh)
  }

  /** The chord of `quality` on the pitch class `rootPc`. */
  function ChordOnRoot(rootPc: int, quality: ChordQuality, includeSeventh: bool): (r: seq<int>)
    requires |quality.triad| == 3
    ensures |r| == if includeSeventh then 4 else 3
    ensures forall j :: 0 <= j < 3 ==> r[j] == (rootPc + quality.triad[j]) % 12
    ensures includeSeventh ==> r[3] == (rootPc + quality.seventh) % 12
    ensures forall j :: 0 <= j < |r| ==> 0 <= r[j] < 12
  {
    var chord := seq(3, j requires 0 <= j < 3 => TransposePitchClass(rootPc, quality.triad[j]));
    if includeSeventh then chord + [TransposePitchClass(rootPc, quality.seventh)] else chord
  }

  /** Each chord tone is the root moved up by the quality's interval for that tone,
      wrapped into 0..11. */
  lemma ChordTones(key: Key, mode: Mode, degree: Degree, includeSeventh: bool)
    ensures var chord := ChordPitchClasses(key, mode, degree, includeSeventh);
      forall j :: 0 <= j < |chord| ==>
        chord[j] == (ScalePitchClasses(key, mode)[degree] + ToneInterval(Quality(mode, degree), j)) % 12
  {
    var rootPc := ScalePitchClasses(key, mode)[degree];
    var quality := Quality(mode, degree);
    var chord := ChordOnRoot(rootPc, quality, includeSeventh);
    assert chord == ChordPitchClasses(key, mode, degree, includeSeventh);
    forall j | 0 <= j < |chord| ensures chord[j] == (rootPc + ToneInterval(quality, j)) % 12 {
      ToneOnRoot(rootPc, quality, includeSeventh, j);
    }
  }

  lemma ToneOnRoot(rootPc: int, quality: ChordQuality, includeSeventh: bool, j: int)
    requires |quality.triad| == 3 && 0 <= j < (if includeSeventh then 4 else 3)
    ensures ChordOnRoot(rootPc, quality, includeSeventh)[j] == (rootPc + ToneInterval(quality, j)) % 12
  {
  }

  /** The triad is the seventh chord without its last tone. */
  lemma TriadIsSeventhChordPrefix(key: Key, mode: Mode, degree: Degree)
    ensures ChordPitchClasses(key, mode, degree, false) == ChordPitchClasses(key, mode, degree, true)[..3]
  {
  }

  /** Whether chord tone `j` on `degree` lies on the scale, as the scale step 2j above
      the chord's root. In a major key every tone does. In a minor key four do not:
      the fifth of ii and the third of V are a semitone higher than the scale step,
      and the third and fifth of vii a semitone lower. */
  predicate StackedThird(mode: Mode, degree: Degree, j: int) {
    mode == Major || !((degree == 1 && j == 2) || (degree == 4 && j == 1) || (degree == 6 && (j == 1 || j == 2)))
  }

  /** The span from the key's root to tone j of the chord on degree d. */
  function ToneSpan(mode: Mode, d: Degree, j: int): int
    requires 0 <= j < 4
  {
    Intervals(mode)[d] + ToneInterval(Quality(mode, d), j)
  }

  /** The interval tables agree with the scale templates exactly where StackedThird
      says so: there the span to tone j equals, up to an octave, the interval of scale
      step d + 2j; elsewhere it matches no scale step at all. */
  lemma {:induction false} IntervalTablesStackThirds(mode: Mode, d: Degree, j: int)
    requires 0 <= j < 4
    ensures StackedThird(mode, d, j) ==>
      ToneSpan(mode, d, j) == Intervals(mode)[(d + 2 * j) % 7]
      || ToneSpan(mode, d, j) == Intervals(mode)[(d + 2 * j) % 7] + 12
    ensures !StackedThird(mode, d, j) ==> forall i :: 0 <= i < 7 ==>
      ToneSpan(mode, d, j) != Intervals(mode)[i] && ToneSpan(mode, d, j) != Intervals(mode)[i] + 12
  {
    if mode == Major {
      MajorTableStacksThirds(d, j);
    } else {
      MinorTableStacksThirds(d, j);
    }
  }

  lemma MajorTableStacksThirds(d: Degree, j: int)
    requires 0 <= j < 4
    ensures ToneSpan(Major, d, j) == MajorIntervals[(d + 2 * j) % 7]
      || ToneSpan(Major, d, j) == MajorIntervals[(d + 2 * j) % 7] + 12
  {
    assert d == 0 || d == 1 || d == 2 || d == 3 || d == 4 || d == 5 || d == 6;
    assert j == 0 || j == 1 || j == 2 || j == 3;
  }

  lemma MinorTableStacksThirds(d: Degree, j: int)
    requires 0 <= j < 4
    ensures StackedThird(Minor, d, j) ==>
      ToneSpan(Minor, d, j) == NaturalMinorIntervals[(d + 2 * j) % 7]
      || ToneSpan(Minor, d, j) == NaturalMinorIntervals[(d + 2 * j) % 7] + 12
    ensures !StackedThird(Minor, d, j) ==> forall i :: 0 <= i < 7 ==>
      ToneSpan(Minor, d, j) != NaturalMinorIntervals[i] && ToneSpan(Minor, d, j) != NaturalMinorIntervals[i] + 12
  {
    assert d == 0 || d == 1 || d == 2 || d == 3 || d == 4 || d == 5 || d == 6;
    assert j == 0 || j == 1 || j == 2 || j == 3;
  }

  lemma ModShift(r: int, a: int, q: int, b: int)
    requires 0 <= r < 12 && 0 <= a < 12 && 0 <= q < 12 && 0 <= b < 12
    requires a + q == b || a + q == b + 12
    ensures ((r + a) % 12 + q) % 12 == (r + b) % 12
  {
    assert (r + a) % 12 == if r + a < 12 then r + a else r + a - 12;
    assert (r + b) % 12 == if r + b < 12 then r + b else r + b - 12;
    var x := (r + a) % 12 + q;
    assert x % 12 == if x < 12 then x else if x < 24 then x - 12 else x - 24;
  }

  lemma ModShiftApart(r: int, a: int, q: int, b: int)
    requires 0 <= r < 12 && 0 <= a < 12 && 0 <= q < 12 && 0 <= b < 12
    requires a + q != b && a + q != b + 12
    ensures ((r + a) % 12 + q) % 12 != (r + b) % 12
  {
    assert (r + a) % 12 == if r + a < 12 then r + a else r + a - 12;
    assert (r + b) % 12 == if r + b < 12 then r + b else r + b - 12;
    var x := (r + a) % 12 + q;
    assert x % 12 == if x < 12 then x else if x < 24 then x - 12 else x - 24;
  }

  /** Tone j of the chord on `degree`, compared with the scale. */
  lemma ToneAgainstScale(key: Key, mode: Mode, degree: Degree, j: int)
    requires 0 <= j < 4
    ensures var tone := (ScalePitchClasses(key, mode)[degree] + ToneInterval(Quality(mode, degree), j)) % 12;
      (StackedThird(mode, degree, j) ==> tone == ScalePitchClasses(key, mode)[(degree + 2 * j) % 7])
      && (!StackedThird(mode, degree, j) ==> tone !in ScalePitchClasses(key, mode))
  {
    IntervalTablesStackThirds(mode, degree, j);
    if StackedThird(mode, degree, j) {
      ToneOnScale(key, mode, degree, j);
    } else {
      ToneOffScale(key, mode, degree, j);
    }
  }

  lemma ToneOnScale(key: Key, mode: Mode, degree: Degree, j: int)
    requires 0 <= j < 4
    requires var e := (degree + 2 * j) % 7;
      ToneSpan(mode, degree, j) == Intervals(mode)[e] || ToneSpan(mode, degree, j) == Intervals(mode)[e] + 12
    ensures (ScalePitchClasses(key, mode)[degree] + ToneInterval(Quality(mode, degree), j)) % 12
      == ScalePitchClasses(key, mode)[(degree + 2 * j) % 7]
  {
    var e := (degree + 2 * j) % 7;
    ScaleStep(key, mode, degree);
    ScaleStep(key, mode, e);
    ModShift(KeyPitchClass(key), Intervals(mode)[degree], ToneInterval(Quality(mode, degree), j), Intervals(mode)[e]);
  }

  lemma ToneOffScale(key: Key, mode: Mode, degree: Degree, j: int)
    requires 0 <= j < 4
    requires forall i :: 0 <= i < 7 ==>
      ToneSpan(mode, degree, j) != Intervals(mode)[i] && ToneSpan(mode, degree, j) != Intervals(mode)[i] + 12
    ensures (ScalePitchClasses(key, mode)[degree] + ToneInterval(Quality(mode, degree), j)) % 12
      !in ScalePitchClasses(key, mode)
  {
    var scale := ScalePitchClasses(key, mode);
    forall i | 0 <= i < 7
      ensures scale[i] != (scale[degree] + ToneInterval(Quality(mode, degree), j)) % 12
    {
      ToneOffStep(key, mode, degree, j, i);
    }
  }

  lemma ToneOffStep(key: Key, mode: Mode, degree: Degree, j: int, i: int)
    requires 0 <= j < 4 && 0 <= i < 7
    requires ToneSpan(mode, degree, j) != Intervals(mode)[i] && ToneSpan(mode, degree, j) != Intervals(mode)[i] + 12
    ensures ScalePitchClasses(key, mode)[i]
      != (ScalePitchClasses(key, mode)[degree] + ToneInterval(Quality(mode, degree), j)) % 12
  {
    ScaleStep(key, mode, degree);
    ScaleStep(key, mode, i);
    ModShiftApart(KeyPitchClass(key), Intervals(mode)[degree], ToneInterval(Quality(mode, degree), j), Intervals(mode)[i]);
  }

  /** Chords are stacked thirds of the scale: a tone of the chord on `degree` lies on
      the scale exactly when StackedThird holds for it, and then tone j is scale step
      degree + 2j, wrapping round the seven steps. */
  lemma ChordTonesAreScaleSteps(key: Key, mode: Mode, degree: Degree, includeSeventh: bool)
    ensures var chord := ChordPitchClasses(key, mode, degree, includeSeventh);
      forall j :: 0 <= j < |chord| ==>
        (chord[j] in ScalePitchClasses(key, mode) <==> StackedThird(mode, degree, j))
        && (StackedThird(mode, degree, j) ==> chord[j] == ScalePitchClasses(key, mode)[(degree + 2 * j) % 7])
  {
    var chord := ChordPitchClasses(key, mode, degree, includeSeventh);
    ChordTones(key, mode, degree, includeSeventh);
    forall j | 0 <= j < |chord|
      ensures (chord[j] in ScalePitchClasses(key, mode) <==> StackedThird(mode, degree, j))
        && (StackedThird(mode, degree, j) ==> chord[j] == ScalePitchClasses(key, mode)[(degree + 2 * j) % 7])
    {
      ToneAgainstScale(key, mode, degree, j);
    }
  }

  /** In a major key every chord tone lies on the scale. */
  lemma MajorChordsAreDiatonic(key: Key, degree: Degree, includeSeventh: bool)
    ensures forall x :: x in ChordPitchClasses(key, Major, degree, includeSeventh) ==> x in ScalePitchClasses(key, Major)
  {
    ChordTonesAreScaleSteps(key, Major, degree, includeSeventh);
  }

  /** Examples from the unit tests: the tonic and dominant sevenths of C major and the
      tonic seventh of A minor. */
  lemma MajorChordExamples()
    ensures ChordPitchClasses(C, Major, 0, true) == [0, 4, 7, 11]
    ensures ChordPitchClasses(C, Major, 4, true) == [7, 11, 2, 5]
  {
    ScaleStep(C, Major, 0);
    ChordOnRootTones(0, Quality(Major, 0));
    ScaleStep(C, Major, 4);
    ChordOnRootTones(7, Quality(Major, 4));
  }

  lemma MinorChordExample()
    ensures ChordPitchClasses(A, Minor, 0, true) == [9, 0, 4, 7]
  {
    ScaleStep(A, Minor, 0);
    ChordOnRootTones(9, Quality(Minor, 0));
  }

  lemma ChordOnRootTones(root: int, q: ChordQuality)
    requires |q.triad| == 3
    ensures ChordOnRoot(root, q, true)
      == [(root + q.triad[0]) % 12, (root + q.triad[1]) % 12, (root + q.triad[2]) % 12, (root + q.seventh) % 12]
  {
    var chord := ChordOnRoot(root, q, true);
    assert chord[0] == (root + q.triad[0]) % 12;
    assert chord[1] == (root + q.triad[1]) % 12;
    assert chord[2] == (root + q.triad[2]) % 12;
  }
}
