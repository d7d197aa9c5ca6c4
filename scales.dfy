/** Scales: a key and a mode give seven pitch classes, and a five-note pentatonic
    subset of them. */
module Scales {
  import opened Notes

  const MajorIntervals: seq<int> := [0, 2, 4, 5, 7, 9, 11]
  const NaturalMinorIntervals: seq<int> := [0, 2, 3, 5, 7, 8, 10]

  function Intervals(mode: Mode): (r: seq<int>)
    ensures |r| == 7
    ensures forall i :: 0 <= i < 7 ==> 0 <= r[i] < 12
  {
    if mode == Major then MajorIntervals else NaturalMinorIntervals
  }

  /** The seven pitch classes of the scale: each interval of the mode's template added
      to the key's root pitch class, modulo 12. */
  function ScalePitchClasses(key: Key, mode: Mode): (r: seq<int>)
    ensures |r| == 7
    ensures forall i :: 0 <= i < 7 ==> 0 <= r[i] < 12
    ensures forall i :: 0 <= i < 7 ==> r[i] == (KeyPitchClass(key) + Intervals(mode)[i]) % 12
  {
    var root := KeyPitchClass(key);
    var iv := Intervals(mode);
    seq(7, i requires 0 <= i < 7 => TransposePitchClass(root, iv[i]))
  }

  /** Which scale steps the pentatonic keeps. */
  function PentatonicIndices(mode: Mode): (r: seq<int>)
    ensures |r| == 5 && forall i :: 0 <= i < 5 ==> 0 <= r[i] < 7
  {
    if mode == Major then [0, 1, 2, 4, 5] else [0, 2, 3, 4, 6]
  }

  /** Five scale members: steps 0, 1, 2, 4, 5 of a major scale, 0, 2, 3, 4, 6 of a minor one. */
  function PentatonicPitchClasses(key: Key, mode: Mode): (r: seq<int>)
    ensures |r| == 5
    ensures forall i :: 0 <= i < 5 ==> r[i] == ScalePitchClasses(key, mode)[PentatonicIndices(mode)[i]]
  {
    var scale := ScalePitchClasses(key, mode);
    var steps := PentatonicIndices(mode);
    seq(5, i requires 0 <= i < 5 => scale[steps[i]])
  }

  /** Every pentatonic pitch class belongs to the scale. */
  lemma PentatonicInScale(key: Key, mode: Mode)
    ensures forall x :: x in PentatonicPitchClasses(key, mode) ==> x in ScalePitchClasses(key, mode)
  {
    var p := PentatonicPitchClasses(key, mode);
    var s := ScalePitchClasses(key, mode);
    forall x | x in p ensures x in s {
      var i :| 0 <= i < 5 && p[i] == x;
      assert s[PentatonicIndices(mode)[i]] == x;
    }
  }

  lemma ScaleStep(key: Key, mode: Mode, i: int)
    requires 0 <= i < 7
    ensures ScalePitchClasses(key, mode)[i] == (KeyPitchClass(key) + Intervals(mode)[i]) % 12
  {
  }

  /** The seven pitch classes of a scale are all different. */
  lemma ScaleDistinct(key: Key, mode: Mode)
    ensures forall i, j :: 0 <= i < j < 7 ==> ScalePitchClasses(key, mode)[i] != ScalePitchClasses(key, mode)[j]
  {
    var s := ScalePitchClasses(key, mode);
    forall i, j | 0 <= i < j < 7 ensures s[i] != s[j] {
      ScaleStep(key, mode, i);
      ScaleStep(key, mode, j);
      ShiftDistinct(KeyPitchClass(key), Intervals(mode)[i], Intervals(mode)[j]);
    }
  }

  lemma ShiftDistinct(r: int, a: int, b: int)
    requires 0 <= r < 12 && 0 <= a < b < 12
    ensures (r + a) % 12 != (r + b) % 12
  {
    assert (r + a) % 12 == if r + a < 12 then r + a else r + a - 12;
    assert (r + b) % 12 == if r + b < 12 then r + b else r + b - 12;
  }

  /** The key a minor scale shares its notes with: three semitones up. */
  function RelativeMajor(key: Key): (k: Key)
    ensures KeyPitchClass(k) == (KeyPitchClass(key) + 3) % 12
  {
    match key
    case C => EFlat case CSharp => E case D => F case EFlat => FSharp case E => G case F => AFlat
    case FSharp => A case G => BFlat case AFlat => B case A => C case BFlat => CSharp case B => D
  }

  /** A natural minor scale is its relative major scale started from the sixth step. */
  lemma MinorIsRelativeMajorRotated(key: Key)
    ensures forall i :: 0 <= i < 7 ==>
      ScalePitchClasses(key, Minor)[i] == ScalePitchClasses(RelativeMajor(key), Major)[(i + 5) % 7]
  {
    forall i | 0 <= i < 7
      ensures ScalePitchClasses(key, Minor)[i] == ScalePitchClasses(RelativeMajor(key), Major)[(i + 5) % 7]
    {
      RotatedStep(key, i);
    }
  }

  lemma RotatedStep(key: Key, i: int)
    requires 0 <= i < 7
    ensures ScalePitchClasses(key, Minor)[i] == ScalePitchClasses(RelativeMajor(key), Major)[(i + 5) % 7]
  {
    var j := (i + 5) % 7;
    RotationTable(i);
    ScaleStep(key, Minor, i);
    ScaleStep(RelativeMajor(key), Major, j);
    ShiftMod(KeyPitchClass(key), MajorIntervals[j], NaturalMinorIntervals[i]);
  }

  /** Step i of the minor template is step i + 5 of the major template, three
      semitones higher. */
  lemma RotationTable(i: int)
    requires 0 <= i < 7
    ensures 0 <= (i + 5) % 7 < 7
    ensures Intervals(Major)[(i + 5) % 7] == MajorIntervals[(i + 5) % 7]
    ensures Intervals(Minor)[i] == NaturalMinorIntervals[i]
    ensures 3 + MajorIntervals[(i + 5) % 7] == NaturalMinorIntervals[i]
      || 3 + MajorIntervals[(i + 5) % 7] == NaturalMinorIntervals[i] + 12
  {
    if i < 2 {
      assert (i + 5) % 7 == i + 5;
    } else {
      assert (i + 5) % 7 == i - 2;
    }
    assert i == 0 || i == 1 || i == 2 || i == 3 || i == 4 || i == 5 || i == 6;
  }

  lemma ShiftMod(r: int, m: int, d: int)
    requires 0 <= r < 12 && 0 <= m < 12 && 0 <= d < 12
    requires 3 + m == d || 3 + m == d + 12
    ensures ((r + 3) % 12 + m) % 12 == (r + d) % 12
  {
    assert (r + 3) % 12 == if r + 3 < 12 then r + 3 else r + 3 - 12;
    assert ((r + 3) % 12 + m) % 12 == (r + 3 + m) % 12;
  }

  /** Examples from the unit tests. */
  lemma MajorScaleExample()
    ensures ScalePitchClasses(C, Major) == [0, 2, 4, 5, 7, 9, 11]
  {
  }

  lemma MinorScaleExample()
    ensures ScalePitchClasses(A, Minor) == [9, 11, 0, 2, 4, 5, 7]
  {
  }

  lemma MajorPentatonicExample()
    ensures PentatonicPitchClasses(C, Major) == [0, 2, 4, 7, 9]
  {
    MajorScaleExample();
  }

  lemma MinorPentatonicExample()
    ensures PentatonicPitchClasses(A, Minor) == [9, 0, 2, 4, 7]
  {
    MinorScaleExample();
  }
}
