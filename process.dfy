/**
  The feature summaries and the key estimation of `AudioProcessor`
  (src/process.py): the sub-range means of the spectral contrast bands and of
  the MFCC profile, and the Krumhansl-Schmuckler key estimator.
 */
module Process {
  import opened Stats
  import opened PyValues

  // ---------------------------------------------------------------------
  // Sub-range summaries of the spectral contrast bands and the MFCC profile
  // ---------------------------------------------------------------------

  /** Number of MFCC coefficients librosa is asked for. */
  const NMfcc := 13

  /** `bass_contrast`: the mean of bands 0, 1 and 2. */
  function BassContrast(contrast: seq<real>): real
    requires |contrast| >= 3
  {
    Mean(contrast[..3])
  }

  /** `treble_contrast`: the mean of bands 3 to the last. */
  function TrebleContrast(contrast: seq<real>): real
    requires |contrast| > 3
  {
    Mean(contrast[3..])
  }

  /** `complexity_score`: the mean over all bands. */
  function ComplexityScore(contrast: seq<real>): real
    requires |contrast| > 0
  {
    Mean(contrast)
  }

  /** `low_mfcc`, `mid_mfcc` and `high_mfcc`: coefficients 0-3, 4-8 and 9-12. */
  function LowMfcc(mfcc: seq<real>): real
    requires |mfcc| == NMfcc
  {
    Mean(mfcc[..4])
  }

  function MidMfcc(mfcc: seq<real>): real
    requires |mfcc| == NMfcc
  {
    Mean(mfcc[4..9])
  }

  function HighMfcc(mfcc: seq<real>): real
    requires |mfcc| == NMfcc
  {
    Mean(mfcc[9..])
  }

  /**
    The bass and treble ranges split the bands without overlap or gap, so the
    complexity score is their mean weighted by the number of bands in each.
   */
  lemma ContrastRangesPartition(contrast: seq<real>)
    requires |contrast| > 3
    ensures contrast[..3] + contrast[3..] == contrast
    ensures ComplexityScore(contrast) * |contrast| as real
         == 3.0 * BassContrast(contrast) + (|contrast| - 3) as real * TrebleContrast(contrast)
  {
    assert contrast[..3] + contrast[3..] == contrast;
    SumConcat(contrast[..3], contrast[3..]);
    MeanTimesLength(contrast);
    MeanTimesLength(contrast[..3]);
    MeanTimesLength(contrast[3..]);
  }

  /**
    The low, mid and high ranges split the 13 coefficients without overlap or
    gap: weighted by 4, 5 and 4 coefficients they give the overall mean.
   */
  lemma MfccRangesPartition(mfcc: seq<real>)
    requires |mfcc| == NMfcc
    ensures mfcc[..4] + mfcc[4..9] + mfcc[9..] == mfcc
    ensures Mean(mfcc) * 13.0 == 4.0 * LowMfcc(mfcc) + 5.0 * MidMfcc(mfcc) + 4.0 * HighMfcc(mfcc)
  {
    assert mfcc[..4] + mfcc[4..9] + mfcc[9..] == mfcc;
    SumConcat(mfcc[..4], mfcc[4..9]);
    SumConcat(mfcc[..4] + mfcc[4..9], mfcc[9..]);
    MeanTimesLength(mfcc);
    MeanTimesLength(mfcc[..4]);
    MeanTimesLength(mfcc[4..9]);
    MeanTimesLength(mfcc[9..]);
  }

  // ---------------------------------------------------------------------
  // Krumhansl-Schmuckler key estimation (`_detect_key`)
  // ---------------------------------------------------------------------

  const Pitches: seq<string> := ["C", "C#", "D", "D#", "E", "F", "F#", "G", "G#", "A", "A#", "B"]

  /** The 24 candidate keys: the twelve majors, then the twelve minors. */
  function KeyNames(): (names: seq<string>)
    ensures |names| == 24
  {
    seq(12, i requires 0 <= i < 12 => Pitches[i] + " Major") +
    seq(12, i requires 0 <= i < 12 => Pitches[i] + " Minor")
  }

  const MajorProfile: seq<real> := [6.35, 2.23, 3.48, 2.33, 4.38, 4.09, 2.52, 5.19, 2.39, 3.66, 2.29, 2.88]
  const MinorProfile: seq<real> := [6.33, 2.68, 3.52, 5.38, 2.60, 3.53, 2.54, 4.75, 3.98, 2.69, 3.34, 3.17]

  /**
    The correlation of a reference profile with an observed profile, rounded
    to three decimals (`round(np.corrcoef(ref, obs)[1, 0], 3)`). Floating-point
    correlation is not modelled; every property below holds for any scoring.
   */
  type Score = (seq<real>, seq<real>) -> real

  /** The per-pitch-class totals of a chromagram: the sums of its first 12 rows. */
  function RowSums(chromagram: seq<seq<real>>): (totals: seq<real>)
    requires |chromagram| >= 12
    ensures |totals| == 12
  {
    seq(12, i requires 0 <= i < 12 => Sum(chromagram[i]))
  }

  /** `key_freq`: the totals keyed by pitch name. */
  function PitchTable(totals: seq<real>): map<string, real>
    requires |totals| == 12
  {
    map i | 0 <= i < 12 :: Pitches[i] := totals[i]
  }

  /** The totals read from tonic `i` upwards: position `m` holds pitch class `(i + m) mod 12`. */
  function Rotation(totals: seq<real>, i: int): (r: seq<real>)
    requires |totals| == 12 && 0 <= i < 12
    ensures |r| == 12
  {
    seq(12, m requires 0 <= m < 12 => totals[(i + m) % 12])
  }

  /** The 24 scores, in the order of `KeyNames()`. */
  function ScoreTable(totals: seq<real>, score: Score): (t: seq<real>)
    requires |totals| == 12
    ensures |t| == 24
  {
    seq(12, i requires 0 <= i < 12 => score(MajorProfile, Rotation(totals, i))) +
    seq(12, i requires 0 <= i < 12 => score(MinorProfile, Rotation(totals, i)))
  }

  /** `k` is where Python's `max` stops: a maximum, and no earlier entry is as large. */
  ghost predicate IsFirstMax(s: seq<real>, k: int) {
    && 0 <= k < |s|
    && (forall j :: 0 <= j < |s| ==> s[j] <= s[k])
    && (forall j :: 0 <= j < k ==> s[j] < s[k])
  }

  /** The index a left-to-right scan that replaces only on a strictly larger value ends at. */
  function FirstMax(s: seq<real>): (k: nat)
    requires |s| > 0
    ensures IsFirstMax(s, k)
    decreases |s|
  {
    if |s| == 1 then 0
    else
      var k := FirstMax(s[..|s| - 1]);
      if s[|s| - 1] > s[k] then |s| - 1 else k
  }

  lemma FirstMaxUnique(s: seq<real>, k: int, k': int)
    requires IsFirstMax(s, k) && IsFirstMax(s, k')
    ensures k == k'
  {
    assert s[k] <= s[k'];
    assert s[k'] <= s[k];
  }

  /** The key `_detect_key` returns for the given pitch-class totals. */
  function EstimateKey(totals: seq<real>, score: Score): string
    requires |totals| == 12
  {
    KeyNames()[FirstMax(ScoreTable(totals, score))]
  }

  /**
    `_detect_key`: sums the chroma rows, scores every rotation of the totals
    against both profiles, and returns the first key of maximal score.
   */
  method DetectKey(chromagram: seq<seq<real>>, score: Score) returns (key: string)
    requires |chromagram| >= 12
    ensures key == EstimateKey(RowSums(chromagram), score)
    ensures exists k :: 0 <= k < 24 && key == KeyNames()[k] && IsFirstMax(ScoreTable(RowSums(chromagram), score), k)
  {
    var chromaVals := RowSums(chromagram);
    var keyFreq := PitchTable(chromaVals);
    PitchLookup(chromaVals);
    var correlationsMaj, correlationsMin := Correlations(keyFreq, chromaVals, score);
    // key_dict maps KeyNames()[k] to keyScores[k]; its 24 keys are distinct
    var keyScores := correlationsMaj + correlationsMin;
    ScoreTableIs(chromaVals, score, correlationsMaj, correlationsMin);
    var best := MaxKey(keyScores);
    key := KeyNames()[best];
    KeyOfScores(chromaVals, score, best);
  }

  /** The loop over the twelve tonics: the major and the minor score of each rotation. */
  method Correlations(keyFreq: map<string, real>, totals: seq<real>, score: Score)
    returns (correlationsMaj: seq<real>, correlationsMin: seq<real>)
    requires |totals| == 12
    requires forall p :: 0 <= p < 12 ==> Pitches[p] in keyFreq && keyFreq[Pitches[p]] == totals[p]
    ensures |correlationsMaj| == 12 && |correlationsMin| == 12
    ensures forall t :: 0 <= t < 12 ==> correlationsMaj[t] == score(MajorProfile, Rotation(totals, t))
    ensures forall t :: 0 <= t < 12 ==> correlationsMin[t] == score(MinorProfile, Rotation(totals, t))
  {
    correlationsMaj, correlationsMin := [], [];
    for i := 0 to 12
      invariant |correlationsMaj| == i && |correlationsMin| == i
      invariant forall t :: 0 <= t < i ==> correlationsMaj[t] == score(MajorProfile, Rotation(totals, t))
      invariant forall t :: 0 <= t < i ==> correlationsMin[t] == score(MinorProfile, Rotation(totals, t))
    {
      CandidateIsRotation(keyFreq, totals, i);
      var estimatedKey := Candidate(keyFreq, i);
      correlationsMaj := correlationsMaj + [score(MajorProfile, estimatedKey)];
      correlationsMin := correlationsMin + [score(MinorProfile, estimatedKey)];
    }
  }

  lemma ScoreTableIs(totals: seq<real>, score: Score, maj: seq<real>, min: seq<real>)
    requires |totals| == 12 && |maj| == 12 && |min| == 12
    requires forall t :: 0 <= t < 12 ==> maj[t] == score(MajorProfile, Rotation(totals, t))
    requires forall t :: 0 <= t < 12 ==> min[t] == score(MinorProfile, Rotation(totals, t))
    ensures maj + min == ScoreTable(totals, score)
  {
  }

  /** The first maximal score in key order picks the key `EstimateKey` names. */
  lemma KeyOfScores(totals: seq<real>, score: Score, best: nat)
    requires |totals| == 12
    requires IsFirstMax(ScoreTable(totals, score), best)
    ensures best < 24 && KeyNames()[best] == EstimateKey(totals, score)
  {
    FirstMaxUnique(ScoreTable(totals, score), best, FirstMax(ScoreTable(totals, score)));
  }

  /**
    `max(key_dict, key=key_dict.get)` over the scores in key order: the scan
    replaces the current best only on a strictly larger score.
   */
  method MaxKey(scores: seq<real>) returns (best: nat)
    requires |scores| > 0
    ensures IsFirstMax(scores, best)
  {
    best := 0;
    for k := 1 to |scores|
      invariant best < k
      invariant forall j :: 0 <= j < k ==> scores[j] <= scores[best]
      invariant forall j :: 0 <= j < best ==> scores[j] < scores[best]
    {
      if scores[k] > scores[best] {
        best := k;
      }
    }
  }

  lemma PitchesDistinct()
    ensures forall i, j :: 0 <= i < j < 12 ==> Pitches[i] != Pitches[j]
  {
  }

  /**
    `estimated_key` for tonic `i`: the pitch names from the tonic upwards,
    looked up in `key_freq`.
   */
  function Candidate(keyFreq: map<string, real>, i: int): (r: seq<real>)
    requires 0 <= i < 12
    requires forall p :: 0 <= p < 12 ==> Pitches[p] in keyFreq
    ensures |r| == 12
  {
    seq(12, m requires 0 <= m < 12 => keyFreq[Pitches[(i + m) % 12]])
  }

  /**
    Reading the candidate through the name-keyed table gives the plain
    rotation of the totals: position `m` holds pitch class `(i + m) mod 12`,
    so position 0 is the tonic itself.
   */
  lemma CandidateIsRotation(keyFreq: map<string, real>, totals: seq<real>, i: int)
    requires |totals| == 12 && 0 <= i < 12
    requires forall p :: 0 <= p < 12 ==> Pitches[p] in keyFreq && keyFreq[Pitches[p]] == totals[p]
    ensures Candidate(keyFreq, i) == Rotation(totals, i)
    ensures Rotation(totals, i)[0] == totals[i]
  {
    var c, r := Candidate(keyFreq, i), Rotation(totals, i);
    forall m | 0 <= m < 12
      ensures c[m] == r[m]
    {
      var p := (i + m) % 12;
      assert c[m] == keyFreq[Pitches[p]];
    }
  }

  /** Looking a pitch name up in `key_freq` yields that pitch class's total. */
  lemma PitchLookup(totals: seq<real>)
    requires |totals| == 12
    ensures forall p :: 0 <= p < 12 ==> Pitches[p] in PitchTable(totals) && PitchTable(totals)[Pitches[p]] == totals[p]
  {
    PitchesDistinct();
  }
  // ---------------------------------------------------------------------
  // Properties of the key estimator
  // ---------------------------------------------------------------------

  /** Every candidate key is a pitch name followed by its mode, majors first. */
  lemma KeyNamesLayout(i: int)
    requires 0 <= i < 12
    ensures KeyNames()[i] == Pitches[i] + " Major"
    ensures KeyNames()[i + 12] == Pitches[i] + " Minor"
  {
  }

  /** Appending suffixes of equal length that differ gives different strings. */
  lemma SuffixesDiffer(p: string, q: string, s: string, t: string)
    requires |s| == |t| && s != t
    ensures p + s != q + t
  {
    assert (p + s)[|p|..] == s;
    assert (q + t)[|q|..] == t;
  }

  /** Appending the same suffix to different strings gives different strings. */
  lemma PrefixesDiffer(p: string, q: string, s: string)
    requires p != q
    ensures p + s != q + s
  {
    assert (p + s)[..|p|] == p;
    assert (q + s)[..|q|] == q;
  }

  /** The 24 names are distinct, so `key_dict` has 24 entries and none overwrites another. */
  lemma KeyNamesDistinct(a: int, b: int)
    requires 0 <= a < b < 24
    ensures KeyNames()[a] != KeyNames()[b]
  {
    var ia, ib := if a < 12 then a else a - 12, if b < 12 then b else b - 12;
    var ma, mb := if a < 12 then " Major" else " Minor", if b < 12 then " Major" else " Minor";
    KeyNamesLayout(ia);
    KeyNamesLayout(ib);
    assert KeyNames()[a] == Pitches[ia] + ma && KeyNames()[b] == Pitches[ib] + mb;
    if a < 12 <= b {
      SuffixesDiffer(Pitches[ia], Pitches[ib], ma, mb);
    } else {
      PitchesDistinct();
      PrefixesDiffer(Pitches[ia], Pitches[ib], ma);
    }
  }

  /** The estimate is one of the 24 key names, the first one of maximal score. */
  lemma EstimateKeyIsFirstBest(totals: seq<real>, score: Score)
    requires |totals| == 12
    ensures EstimateKey(totals, score) in KeyNames()
    ensures forall k :: 0 <= k < 24 ==> ScoreTable(totals, score)[k] <= ScoreTable(totals, score)[FirstMax(ScoreTable(totals, score))]
    ensures forall k :: 0 <= k < FirstMax(ScoreTable(totals, score)) ==>
      ScoreTable(totals, score)[k] < ScoreTable(totals, score)[FirstMax(ScoreTable(totals, score))]
  {
  }

  /** A major key and a minor key of equal, maximal score: the major key wins. */
  lemma MajorWinsTie(totals: seq<real>, score: Score, i: int, j: int)
    requires |totals| == 12 && 0 <= i < 12 && 0 <= j < 12
    requires ScoreTable(totals, score)[i] == ScoreTable(totals, score)[j + 12]
    ensures EstimateKey(totals, score) != Pitches[j] + " Minor"
  {
    var s := ScoreTable(totals, score);
    var k := FirstMax(s);
    assert s[i] <= s[k];
    KeyNamesLayout(j);
    if k != j + 12 {
      KeyNamesDistinct(if k < j + 12 then k else j + 12, if k < j + 12 then j + 12 else k);
    }
  }

  /** The totals of the same music transposed up by `k` semitones. */
  function Transpose(totals: seq<real>, k: int): (r: seq<real>)
    requires |totals| == 12 && 0 <= k < 12
    ensures |r| == 12
  {
    seq(12, p requires 0 <= p < 12 => totals[(p + 12 - k) % 12])
  }

  lemma TransposeMoves(totals: seq<real>, k: int, p: int)
    requires |totals| == 12 && 0 <= k < 12 && 0 <= p < 12
    ensures Transpose(totals, k)[(p + k) % 12] == totals[p]
  {
  }

  /** Reading transposed totals from tonic `i` is reading the originals from `i - k`. */
  lemma RotationOfTransposed(totals: seq<real>, k: int, i: int)
    requires |totals| == 12 && 0 <= k < 12 && 0 <= i < 12
    ensures Rotation(Transpose(totals, k), i) == Rotation(totals, (i + 12 - k) % 12)
  {
    var a, b := Rotation(Transpose(totals, k), i), Rotation(totals, (i + 12 - k) % 12);
    forall m | 0 <= m < 12
      ensures a[m] == b[m]
    {
      ModShift(i, m, k);
    }
  }

  lemma ModShift(i: int, m: int, k: int)
    requires 0 <= i < 12 && 0 <= m < 12 && 0 <= k < 12
    ensures ((i + m) % 12 + 12 - k) % 12 == ((i + 12 - k) % 12 + m) % 12
  {
    var x := i + m + 12 - k;
    assert 0 <= x < 36;
    assert (i + m) % 12 == (if i + m < 12 then i + m else i + m - 12);
    assert (i + 12 - k) % 12 == (if i + 12 - k < 12 then i + 12 - k else i - k);
  }

  /** The shift of candidate index `x` to the same mode with the tonic moved up `k`. */
  function ShiftKey(x: int, k: int): (y: int)
    requires 0 <= x < 24 && 0 <= k < 12
    ensures 0 <= y < 24 && (y < 12 <==> x < 12)
  {
    (x / 12) * 12 + (x % 12 + k) % 12
  }

  /** Transposing by `k` permutes each mode's scores: entry `x` moves to `ShiftKey(x, k)`. */
  lemma ScoreTableOfTransposed(totals: seq<real>, score: Score, k: int, x: int)
    requires |totals| == 12 && 0 <= k < 12 && 0 <= x < 24
    ensures ScoreTable(Transpose(totals, k), score)[ShiftKey(x, k)] == ScoreTable(totals, score)[x]
  {
    var i := x % 12;
    var y := ShiftKey(x, k);
    assert y % 12 == (i + k) % 12;
    assert ((i + k) % 12 + 12 - k) % 12 == i;
    RotationOfTransposed(totals, k, (i + k) % 12);
  }

  /** `ShiftKey(., k)` is one-to-one on the 24 candidates. */
  lemma ShiftKeyInjective(x: int, x': int, k: int)
    requires 0 <= x < 24 && 0 <= x' < 24 && 0 <= k < 12
    requires ShiftKey(x, k) == ShiftKey(x', k)
    ensures x == x'
  {
    assert x / 12 == x' / 12;
    assert (x % 12 + k) % 12 == (x' % 12 + k) % 12;
  }

  /** Every candidate is the shift of some candidate. */
  lemma ShiftKeyOnto(y: int, k: int) returns (x: int)
    requires 0 <= y < 24 && 0 <= k < 12
    ensures 0 <= x < 24 && ShiftKey(x, k) == y
  {
    x := (y / 12) * 12 + (y % 12 + 12 - k) % 12;
  }

  /**
    Rotation equivariance: when one candidate scores strictly above all
    others, transposing the music by `k` semitones moves the estimate to the
    key of the same mode whose tonic is `k` semitones higher.
   */
  lemma EstimateKeyTransposes(totals: seq<real>, score: Score, k: int, best: int)
    requires |totals| == 12 && 0 <= k < 12 && 0 <= best < 24
    requires forall x :: 0 <= x < 24 && x != best ==> ScoreTable(totals, score)[x] < ScoreTable(totals, score)[best]
    ensures EstimateKey(totals, score) == KeyNames()[best]
    ensures EstimateKey(Transpose(totals, k), score) == KeyNames()[ShiftKey(best, k)]
    ensures EstimateKey(Transpose(totals, k), score) == ShiftedKeyName(best, k)
  {
    var s, s' := ScoreTable(totals, score), ScoreTable(Transpose(totals, k), score);
    FirstMaxUnique(s, best, FirstMax(s));
    var b' := ShiftKey(best, k);
    ScoreTableOfTransposed(totals, score, k, best);
    forall y | 0 <= y < 24 && y != b'
      ensures s'[y] < s'[b']
    {
      ShiftedScoreBelow(totals, score, k, best, y);
    }
    assert IsFirstMax(s', b');
    FirstMaxUnique(s', b', FirstMax(s'));
    ShiftedKeyNameIs(best, k);
  }

  /** The name of the key of the same mode as candidate `x` whose tonic is `k` semitones higher. */
  function ShiftedKeyName(x: int, k: int): string
    requires 0 <= x < 24 && 0 <= k < 12
  {
    Pitches[(x % 12 + k) % 12] + (if x < 12 then " Major" else " Minor")
  }

  lemma ShiftedKeyNameIs(x: int, k: int)
    requires 0 <= x < 24 && 0 <= k < 12
    ensures KeyNames()[ShiftKey(x, k)] == ShiftedKeyName(x, k)
  {
    var t := (x % 12 + k) % 12;
    KeyNamesLayout(t);
    if x < 12 {
      assert ShiftKey(x, k) == t;
    } else {
      assert ShiftKey(x, k) == t + 12;
    }
  }

  lemma ShiftedScoreBelow(totals: seq<real>, score: Score, k: int, best: int, y: int)
    requires |totals| == 12 && 0 <= k < 12 && 0 <= best < 24 && 0 <= y < 24
    requires forall x :: 0 <= x < 24 && x != best ==> ScoreTable(totals, score)[x] < ScoreTable(totals, score)[best]
    requires y != ShiftKey(best, k)
    ensures ScoreTable(Transpose(totals, k), score)[y] < ScoreTable(totals, score)[best]
  {
    var x := ShiftKeyOnto(y, k);
    ScoreTableOfTransposed(totals, score, k, x);
    assert x != best;
  }
}
