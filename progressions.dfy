/** Chord progressions: the canonical degree sequence of a mode, built from three
    four-bar patterns used in turn, and the repair of a user progression to its
    declared length. */
module Progressions {
  import opened Notes

  /** I V vi IV, I vi IV V, I IV V V. */
  const MajorPatterns: seq<seq<Degree>> := [[0, 4, 5, 3], [0, 5, 3, 4], [0, 3, 4, 4]]
  /** i iv V iv, i VI iv V, i V VI V. */
  const MinorPatterns: seq<seq<Degree>> := [[0, 3, 4, 3], [0, 5, 3, 4], [0, 4, 5, 4]]

  function Patterns(mode: Mode): (r: seq<seq<Degree>>)
    ensures |r| == 3 && forall k :: 0 <= k < 3 ==> |r[k]| == 4
  {
    if mode == Major then MajorPatterns else MinorPatterns
  }

  /** The canonical degree of bar `i`: bar i lies in pattern i / 4, taken cyclically,
      at position i % 4. */
  function PatternDegree(mode: Mode, i: nat): Degree {
    Patterns(mode)[(i / 4) % 3][i % 4]
  }

  /** The canonical progression of `bars` bars, as a value. */
  function CanonicalDegrees(mode: Mode, bars: nat): (r: seq<Degree>)
    ensures |r| == bars
  {
    seq(bars, i requires 0 <= i < bars => PatternDegree(mode, i))
  }

  /** Pushes whole patterns, cycling through the three, until there are at least `bars`
      degrees, then cuts to `bars`. */
  method BuildProgression(mode: Mode, bars: BarCount) returns (p: Progression)
    ensures p.bars == bars
    ensures p.degrees == CanonicalDegrees(mode, bars)
  {
    var patterns := Patterns(mode);
    var result: seq<Degree> := [];
    var patternIndex := 0;
    while |result| < bars
      invariant |result| == 4 * patternIndex
      invariant |result| < bars + 4
      invariant forall i :: 0 <= i < |result| ==> result[i] == PatternDegree(mode, i)
      decreases bars - |result|
    {
      var pattern := patterns[patternIndex % |patterns|];
      AppendPattern(mode, result, patternIndex);
      result := result + pattern;
      patternIndex := patternIndex + 1;
    }
    p := Progression(bars, result[..bars]);
  }

  /** One loop step of BuildProgression: pattern k extends the first 4k canonical
      bars to the first 4k + 4. */
  lemma AppendPattern(mode: Mode, result: seq<Degree>, k: nat)
    requires |result| == 4 * k
    requires forall i :: 0 <= i < |result| ==> result[i] == PatternDegree(mode, i)
    ensures var r := result + Patterns(mode)[k % 3];
      |r| == 4 * k + 4 && forall i :: 0 <= i < |r| ==> r[i] == PatternDegree(mode, i)
  {
    var r := result + Patterns(mode)[k % 3];
    PatternBlock(mode, k);
    forall i | 0 <= i < |r| ensures r[i] == PatternDegree(mode, i) {
      if i >= |result| {
        assert r[i] == Patterns(mode)[k % 3][i - 4 * k];
        assert i == 4 * k + (i - 4 * k);
      }
    }
  }

  /** Pattern k covers bars 4k .. 4k + 3. */
  lemma PatternBlock(mode: Mode, k: nat)
    ensures forall j :: 0 <= j < 4 ==> PatternDegree(mode, 4 * k + j) == Patterns(mode)[k % 3][j]
  {
    forall j | 0 <= j < 4 ensures PatternDegree(mode, 4 * k + j) == Patterns(mode)[k % 3][j] {
      assert (4 * k + j) / 4 == k && (4 * k + j) % 4 == j;
    }
  }

  /** The progression repeats every twelve bars. */
  lemma PatternPeriod(mode: Mode, i: nat)
    ensures PatternDegree(mode, i + 12) == PatternDegree(mode, i)
  {
    assert (i + 12) / 4 == i / 4 + 3 && (i + 12) % 4 == i % 4;
  }

  /** Every pattern opens on the tonic, so every fourth bar is degree 0. */
  lemma EveryFourthBarIsTonic(mode: Mode, k: nat)
    ensures PatternDegree(mode, 4 * k) == 0
  {
    PatternBlock(mode, k);
    assert Patterns(mode)[k % 3][0] == 0;
  }

  /** A shorter canonical progression is a prefix of a longer one. */
  lemma CanonicalPrefix(mode: Mode, m: nat, n: nat)
    requires m <= n
    ensures CanonicalDegrees(mode, m) == CanonicalDegrees(mode, n)[..m]
  {
  }

  /** Examples from the unit tests. */
  lemma CanonicalExamples()
    ensures CanonicalDegrees(Major, 4) == [0, 4, 5, 3]
    ensures CanonicalDegrees(Minor, 16)[..4] == [0, 3, 4, 3]
  {
    CanonicalPrefix(Minor, 4, 16);
  }

  /** The canonical degree at positions the user did not supply; the user's own
      degrees up to the target length. */
  function Normalized(degrees: seq<Degree>, mode: Mode, bars: nat): (r: seq<Degree>)
    ensures |r| == bars
  {
    seq(bars, i requires 0 <= i < bars => if i < |degrees| then degrees[i] else PatternDegree(mode, i))
  }

  /** Builds the canonical progression for the declared length, then appends the part
      of it the user's degrees do not reach and cuts to the declared length. */
  method NormalizeProgression(progression: Progression, mode: Mode) returns (p: Progression)
    requires progression.bars == 4 || progression.bars == 8 || progression.bars == 16
    ensures p.bars == progression.bars
    ensures p.degrees == Normalized(progression.degrees, mode, progression.bars)
  {
    var targetBars: BarCount := progression.bars;
    var base := BuildProgression(mode, targetBars);
    var given := progression.degrees;
    var degrees := given;
    while |degrees| < targetBars
      invariant |given| <= |degrees| <= if |given| < targetBars then targetBars else |given|
      invariant forall i :: 0 <= i < |degrees| ==>
        degrees[i] == if i < |given| then given[i] else PatternDegree(mode, i)
      decreases targetBars - |degrees|
    {
      degrees := degrees + base.degrees[|degrees|..targetBars];
    }
    p := Progression(targetBars, degrees[..targetBars]);
  }

  /** A progression has the right length for `bars`: exactly the progressions that
      normalizing, in either mode, leaves as they are. */
  predicate ValidateProgression(progression: Progression, bars: nat): (ok: bool)
    ensures ok <==> Normalized(progression.degrees, Major, bars) == progression.degrees
    ensures ok <==> Normalized(progression.degrees, Minor, bars) == progression.degrees
  {
    |progression.degrees| == bars
  }

  /** Normalizing keeps the user's degrees that fit, fills the rest canonically, and
      always yields a valid progression. */
  lemma NormalizedKeepsPrefix(degrees: seq<Degree>, mode: Mode, bars: nat)
    ensures ValidateProgression(Progression(bars, Normalized(degrees, mode, bars)), bars)
    ensures |degrees| <= bars ==> Normalized(degrees, mode, bars)[..|degrees|] == degrees
    ensures |degrees| >= bars ==> Normalized(degrees, mode, bars) == degrees[..bars]
    ensures forall i :: |degrees| <= i < bars ==> Normalized(degrees, mode, bars)[i] == CanonicalDegrees(mode, bars)[i]
  {
  }

  /** A valid progression is left as it is, and normalizing twice is normalizing once. */
  lemma NormalizeIdempotent(degrees: seq<Degree>, mode: Mode, bars: nat)
    ensures |degrees| == bars ==> Normalized(degrees, mode, bars) == degrees
    ensures Normalized(Normalized(degrees, mode, bars), mode, bars) == Normalized(degrees, mode, bars)
  {
  }

  /** An empty progression normalizes to the canonical one. */
  lemma NormalizeEmpty(mode: Mode, bars: nat)
    ensures Normalized([], mode, bars) == CanonicalDegrees(mode, bars)
  {
  }

  /** The example from the unit tests: three user degrees in a four-bar major progression. */
  lemma NormalizeExample()
    ensures Normalized([0, 1, 2], Major, 4) == [0, 1, 2, 3]
  {
    assert PatternDegree(Major, 3) == 3;
  }

  lemma ValidateExamples()
    ensures ValidateProgression(Progression(4, [0, 4, 5, 3]), 4)
    ensures !ValidateProgression(Progression(4, [0, 4, 5]), 4)
  {
  }
}
