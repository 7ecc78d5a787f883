/**
 * BPM and key estimation for one track. The signal processing (decoding,
 * beat tracking, the chroma short-time Fourier transform) is abstract: it is
 * represented by its result, an `Analysis`. What is modelled is what the
 * extractor does with that result: average each pitch-class row of the chroma
 * matrix over time, take the first pitch class of greatest mean energy, call
 * the key major exactly when that pitch class is 0, 5 or 7, and round the
 * tempo to an integer.
 */
module AudioUtils {
  import opened Base

  /** The binary key estimate; `Name` is the string the extractor returns. */
  datatype Key = Major | Minor {
    function Name(): (s: string)
      ensures s == "major" || s == "minor"
    {
      match this
      case Major => "major"
      case Minor => "minor"
    }
  }

  /** Number of pitch classes, and so of rows of a chroma matrix. */
  const PitchClasses: nat := 12

  /** Pitch classes whose dominance makes the key "major" (tonic, subdominant, dominant). */
  const MajorRoots: set<nat> := {0, 5, 7}

  /** A chroma matrix as the chroma transform yields it: 12 rows of F >= 1 frames each. */
  predicate IsChroma(m: seq<seq<real>>)
  {
    |m| == PitchClasses && |m[0]| > 0 && forall i :: 0 <= i < |m| ==> |m[i]| == |m[0]|
  }

  type Chroma = m: seq<seq<real>> | IsChroma(m) witness seq(12, i => [0.0])

  /** What the audio library yields for one file: the beat tracker's tempo and the chroma matrix. */
  datatype Analysis = Analysis(tempo: real, chroma: Chroma)

  function Sum(s: seq<real>): real
  {
    if s == [] then 0.0 else Sum(s[..|s| - 1]) + s[|s| - 1]
  }

  /** Arithmetic mean of one row of frames. */
  function Mean(s: seq<real>): (m: real)
    requires |s| > 0
    ensures m * (|s| as real) == Sum(s)
  {
    Sum(s) / (|s| as real)
  }

  lemma {:induction false} SumBounds(s: seq<real>, lo: real, hi: real)
    requires forall j :: 0 <= j < |s| ==> lo <= s[j] <= hi
    ensures lo * (|s| as real) <= Sum(s) <= hi * (|s| as real)
    decreases |s|
  {
    if s != [] {
      SumBounds(s[..|s| - 1], lo, hi);
    }
  }

  /** The mean of a row lies between the least and the greatest bound of its frames. */
  lemma MeanBounds(s: seq<real>, lo: real, hi: real)
    requires |s| > 0
    requires forall j :: 0 <= j < |s| ==> lo <= s[j] <= hi
    ensures lo <= Mean(s) <= hi
  {
    SumBounds(s, lo, hi);
    var n := |s| as real;
    assert Mean(s) * n >= lo * n;
    assert Mean(s) * n <= hi * n;
  }

  /** `chroma.mean(axis=1)`: one mean per pitch-class row, over all frames of that row. */
  function ChromaMean(m: Chroma): (means: seq<real>)
    ensures |means| == PitchClasses
    ensures forall i :: 0 <= i < PitchClasses ==> means[i] * (|m[i]| as real) == Sum(m[i])
  {
    seq(PitchClasses, i requires 0 <= i < PitchClasses => Mean(m[i]))
  }

  /** `k` is what `numpy.argmax` returns on `s`: a greatest element, the first of them. */
  predicate IsFirstMax(s: seq<real>, k: nat)
  {
    && k < |s|
    && (forall j :: 0 <= j < |s| ==> s[j] <= s[k])
    && (forall j :: 0 <= j < k ==> s[j] < s[k])
  }

  /** There is only one first maximum. */
  lemma FirstMaxUnique(s: seq<real>, k: nat, l: nat)
    requires IsFirstMax(s, k) && IsFirstMax(s, l)
    ensures k == l
  {
    assert s[k] == s[l];
  }

  /** `numpy.argmax` on a non-empty vector. */
  function ArgMax(s: seq<real>): (k: nat)
    requires |s| > 0
    ensures IsFirstMax(s, k)
    decreases |s|
  {
    if |s| == 1 then 0
    else
      var prefix := s[..|s| - 1];
      var k := ArgMax(prefix);
      assert forall j :: 0 <= j < |s| - 1 ==> s[j] == prefix[j];
      if s[|s| - 1] > s[k] then |s| - 1 else k
  }

  /** The key branch of `extract_bpm_key`. */
  function EstimateKey(m: Chroma): (key: Key)
    ensures var means := ChromaMean(m);
      key == Major <==> IsFirstMax(means, 0) || IsFirstMax(means, 5) || IsFirstMax(means, 7)
    ensures var means := ChromaMean(m);
      forall p :: p !in MajorRoots && IsFirstMax(means, p) ==> key == Minor
  {
    var means := ChromaMean(m);
    var k := ArgMax(means);
    forall p | IsFirstMax(means, p) ensures p == k {
      FirstMaxUnique(means, p, k);
    }
    if k in MajorRoots then Major else Minor
  }

  /**
   * Python's `round` on a number: the nearest integer, and on a tie (a
   * fractional part of exactly one half) the even one.
   */
  function RoundHalfEven(x: real): (r: int)
    ensures -0.5 <= x - r as real <= 0.5
    ensures (x - r as real == 0.5 || x - r as real == -0.5) ==> r % 2 == 0
  {
    var f := x.Floor;
    var d := x - f as real;
    if d < 0.5 then f
    else if d > 0.5 then f + 1
    else if f % 2 == 0 then f
    else f + 1
  }

  /** Nearest-with-ties-to-even determines the integer: no other integer has both properties. */
  lemma RoundHalfEvenUnique(x: real, n: int)
    requires -0.5 <= x - n as real <= 0.5
    requires (x - n as real == 0.5 || x - n as real == -0.5) ==> n % 2 == 0
    ensures n == RoundHalfEven(x)
  {
    var r := RoundHalfEven(x);
    assert -1.0 <= n as real - r as real <= 1.0;
  }

  /**
   * `extract_bpm_key(filepath)`: `analyze` stands for loading the file and
   * running the beat tracker and the chroma transform on it; None means one of
   * them raised, and then the extractor raises too.
   */
  function ExtractBpmKey(analyze: string -> Option<Analysis>, path: string): (r: Option<(int, Key)>)
    ensures r.None? <==> analyze(path).None?
    ensures r.Some? ==> -0.5 <= analyze(path).value.tempo - r.value.0 as real <= 0.5
    ensures r.Some? ==> r.value.0 == RoundHalfEven(analyze(path).value.tempo)
    ensures r.Some? ==> r.value.1 == EstimateKey(analyze(path).value.chroma)
  {
    match analyze(path)
    case None => None
    case Some(a) => Some((RoundHalfEven(a.tempo), EstimateKey(a.chroma)))
  }
}
