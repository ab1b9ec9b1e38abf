/**
  The pydantic record of one track (`AudioMetadata`, mir/metadata_model.py),
  its schema descriptions and the name-keyed collection of records.

  The class declaration is modelled as a schema: one `Field` per declared
  field, in declaration order, each with its value kind, its inclusive
  `ge`/`le` bounds, its description and its default. Validation follows
  pydantic's lax mode for the kinds used here: an `int` field also takes a
  float with no fractional part, a `float` field also takes an int, an
  `Optional` field takes `None`, a field with a default may be omitted, and
  keys outside the schema are ignored.
 */
module MetadataModel {
  import opened Wrappers
  import opened PyValues

  /** The declared fields of `AudioMetadata`. */
  datatype Field =
    | SamplingRate | Tempo | RhythmRegularity | SpectralCentroidMean | SpectralContrastMean
    | BassContrast | TrebleContrast | EnergyMean | EnergyStd | ZeroCrossingRateMean | MfccProfile
    | LowMfcc | MidMfcc | HighMfcc | MfccSpread | TonalFeatures | Key | ComplexityScore
    | TonalStability | Mood | Function | Description | BeatTimes | BeatStrength | TempoScores
    | TempoStructure | ChromaMean

  /** The keys of the declared fields. */
  const SamplingRateKey := "sampling_rate"
  const TempoKey := "tempo"
  const RhythmRegularityKey := "rhythm_regularity"
  const SpectralCentroidMeanKey := "spectral_centroid_mean"
  const SpectralContrastMeanKey := "spectral_contrast_mean"
  const BassContrastKey := "bass_contrast"
  const TrebleContrastKey := "treble_contrast"
  const EnergyMeanKey := "energy_mean"
  const EnergyStdKey := "energy_std"
  const ZeroCrossingRateMeanKey := "zero_crossing_rate_mean"
  const MfccProfileKey := "mfcc_profile"
  const LowMfccKey := "low_mfcc"
  const MidMfccKey := "mid_mfcc"
  const HighMfccKey := "high_mfcc"
  const MfccSpreadKey := "mfcc_spread"
  const TonalFeaturesKey := "tonal_features"
  const KeyKey := "key"
  const ComplexityScoreKey := "complexity_score"
  const TonalStabilityKey := "tonal_stability"
  const MoodKey := "mood"
  const FunctionKey := "function"
  const DescriptionKey := "description"
  const BeatTimesKey := "beat_times"
  const BeatStrengthKey := "beat_strength"
  const TempoScoresKey := "tempo_scores"
  const TempoStructureKey := "tempo_structure"
  const ChromaMeanKey := "chroma_mean"

  /** The field's key in a raw record and in the JSON schema. */
  function Name(f: Field): string {
    match f
    case SamplingRate => SamplingRateKey
    case Tempo => TempoKey
    case RhythmRegularity => RhythmRegularityKey
    case SpectralCentroidMean => SpectralCentroidMeanKey
    case SpectralContrastMean => SpectralContrastMeanKey
    case BassContrast => BassContrastKey
    case TrebleContrast => TrebleContrastKey
    case EnergyMean => EnergyMeanKey
    case EnergyStd => EnergyStdKey
    case ZeroCrossingRateMean => ZeroCrossingRateMeanKey
    case MfccProfile => MfccProfileKey
    case LowMfcc => LowMfccKey
    case MidMfcc => MidMfccKey
    case HighMfcc => HighMfccKey
    case MfccSpread => MfccSpreadKey
    case TonalFeatures => TonalFeaturesKey
    case Key => KeyKey
    case ComplexityScore => ComplexityScoreKey
    case TonalStability => TonalStabilityKey
    case Mood => MoodKey
    case Function => FunctionKey
    case Description => DescriptionKey
    case BeatTimes => BeatTimesKey
    case BeatStrength => BeatStrengthKey
    case TempoScores => TempoScoresKey
    case TempoStructure => TempoStructureKey
    case ChromaMean => ChromaMeanKey
  }

  /** The field whose key is `key`, if any. */
  function FieldOf(key: string): Option<Field> {
    if key == SamplingRateKey then Some(SamplingRate)
    else if key == TempoKey then Some(Tempo)
    else if key == RhythmRegularityKey then Some(RhythmRegularity)
    else if key == SpectralCentroidMeanKey then Some(SpectralCentroidMean)
    else if key == SpectralContrastMeanKey then Some(SpectralContrastMean)
    else if key == BassContrastKey then Some(BassContrast)
    else if key == TrebleContrastKey then Some(TrebleContrast)
    else if key == EnergyMeanKey then Some(EnergyMean)
    else if key == EnergyStdKey then Some(EnergyStd)
    else if key == ZeroCrossingRateMeanKey then Some(ZeroCrossingRateMean)
    else if key == MfccProfileKey then Some(MfccProfile)
    else if key == LowMfccKey then Some(LowMfcc)
    else if key == MidMfccKey then Some(MidMfcc)
    else if key == HighMfccKey then Some(HighMfcc)
    else if key == MfccSpreadKey then Some(MfccSpread)
    else if key == TonalFeaturesKey then Some(TonalFeatures)
    else if key == KeyKey then Some(Key)
    else if key == ComplexityScoreKey then Some(ComplexityScore)
    else if key == TonalStabilityKey then Some(TonalStability)
    else if key == MoodKey then Some(Mood)
    else if key == FunctionKey then Some(Function)
    else if key == DescriptionKey then Some(Description)
    else if key == BeatTimesKey then Some(BeatTimes)
    else if key == BeatStrengthKey then Some(BeatStrength)
    else if key == TempoScoresKey then Some(TempoScores)
    else if key == TempoStructureKey then Some(TempoStructure)
    else if key == ChromaMeanKey then Some(ChromaMean)
    else None
  }

  lemma FieldOfName(f: Field)
    ensures FieldOf(Name(f)) == Some(f)
  {
  }

  lemma NamesInjective()
    ensures forall f, g :: Name(f) == Name(g) ==> f == g
  {
    forall f
      ensures FieldOf(Name(f)) == Some(f)
    {
      FieldOfName(f);
    }
  }

  /** The fields in declaration order, the order of the schema's `properties`. */
  const Schema: seq<Field> := [
    SamplingRate, Tempo, RhythmRegularity, SpectralCentroidMean, SpectralContrastMean,
    BassContrast, TrebleContrast, EnergyMean, EnergyStd, ZeroCrossingRateMean, MfccProfile,
    LowMfcc, MidMfcc, HighMfcc, MfccSpread, TonalFeatures, Key, ComplexityScore, TonalStability,
    Mood, Function, Description, BeatTimes, BeatStrength, TempoScores, TempoStructure, ChromaMean
  ]

  lemma SchemaCovers(f: Field)
    ensures f in Schema
  {
  }

  lemma SchemaComplete()
    ensures forall f :: f in Schema
  {
    forall f
      ensures f in Schema
    {
      SchemaCovers(f);
    }
  }

  datatype Kind = IntK | FloatK | FloatListK | StrK | OptionalFloatListK | OptionalFloatK

  datatype FieldSpec = FieldSpec(
    kind: Kind,
    ge: Option<real>,
    le: Option<real>,
    default: Option<Value>)

  /** Text that `function` and `description` pass as `Field`'s first positional argument, its default. */
  const FunctionDefault := "Categorized in-game function of the audio track. Multiple functions may be combined with commas"
  const DescriptionDefault := "Human-readable description of the audio track's characteristics"

  /** The declaration of each field, `Annotated[type, Field(...)]`, less its description. */
  function Spec(f: Field): FieldSpec {
    match f
    case SamplingRate => FieldSpec(IntK, Some(8000.0), Some(48000.0), None)
    case Tempo => FieldSpec(IntK, Some(50.0), Some(300.0), None)
    case RhythmRegularity => FieldSpec(FloatK, Some(1.0), Some(15.0), None)
    case SpectralCentroidMean => FieldSpec(FloatK, Some(50.0), Some(3000.0), None)
    case SpectralContrastMean => FieldSpec(FloatListK, None, None, None)
    case BassContrast => FieldSpec(FloatK, Some(10.0), Some(30.0), None)
    case TrebleContrast => FieldSpec(FloatK, Some(5.0), Some(40.0), None)
    case EnergyMean => FieldSpec(FloatK, Some(0.0), Some(1.0), None)
    case EnergyStd => FieldSpec(FloatK, Some(0.0), Some(1.0), None)
    case ZeroCrossingRateMean => FieldSpec(FloatK, Some(0.0), Some(0.5), None)
    case MfccProfile => FieldSpec(FloatListK, None, None, None)
    case LowMfcc => FieldSpec(FloatK, None, Some(0.0), None)
    case MidMfcc => FieldSpec(FloatK, None, None, None)
    case HighMfcc => FieldSpec(FloatK, None, None, None)
    case MfccSpread => FieldSpec(FloatK, Some(0.0), None, None)
    case TonalFeatures => FieldSpec(FloatListK, None, None, None)
    case Key => FieldSpec(StrK, None, None, None)
    case ComplexityScore => FieldSpec(FloatK, Some(10.0), Some(40.0), None)
    case TonalStability => FieldSpec(FloatK, Some(0.0), Some(0.5), None)
    case Mood => FieldSpec(StrK, None, None, None)
    case Function => FieldSpec(StrK, None, None, Some(StrV(FunctionDefault)))
    case Description => FieldSpec(StrK, None, None, Some(StrV(DescriptionDefault)))
    case BeatTimes => FieldSpec(OptionalFloatListK, None, None, Some(NoneV))
    case BeatStrength => FieldSpec(OptionalFloatK, None, None, Some(NoneV))
    case TempoScores => FieldSpec(OptionalFloatListK, None, None, Some(NoneV))
    case TempoStructure => FieldSpec(OptionalFloatListK, None, None, Some(NoneV))
    case ChromaMean => FieldSpec(OptionalFloatListK, None, None, Some(NoneV))
  }

  /** The `description=` of each field's `Field(...)`, if it has one. */
  const SamplingRateText := "Audio sampling rate in Hz"
  const TempoText := "Tempo in beats per minute (BPM)"
  const RhythmRegularityText := "Measure of rhythm consistency (std/mean of tempo structure). Lower values indicate more regular patterns"
  const SpectralCentroidMeanText := "Average frequency center of the spectrum. Higher values indicate brighter sounds"
  const SpectralContrastMeanText := "Mean spectral contrast values across frequency bands"
  const BassContrastText := "Contrast in the bass frequencies. Higher values indicate stronger bass presence"
  const TrebleContrastText := "Contrast in the treble frequencies. Higher values indicate brighter treble"
  const EnergyMeanText := "Average energy/RMS of the audio. Higher values indicate louder or more consistent volume"
  const EnergyStdText := "Standard deviation of energy/RMS. Higher values indicate more dynamic range"
  const ZeroCrossingRateMeanText := "Average rate of sign changes in the audio. Higher values indicate more high-frequency content or noise"
  const MfccProfileText := "Average values for each MFCC coefficient, representing the timbre profile"
  const LowMfccText := "Average of lower MFCCs (1-4), related to timbre and bass characteristics"
  const MidMfccText := "Average of middle MFCCs (5-9), related to timbral characteristics"
  const HighMfccText := "Average of higher MFCCs (10-13), related to high-frequency characteristics"
  const MfccSpreadText := "Standard deviation of MFCC values, indicating timbral complexity"
  const TonalFeaturesText := "Average tonnetz features representing harmonic content"
  const KeyText := "Estimated musical key of the audio based on Krumhansl-Schmuckler key profiles"
  const ComplexityScoreText := "Overall complexity measure based on spectral contrast. Higher values indicate more complex audio"
  const TonalStabilityText := "Standard deviation of tonal features. Lower values indicate more stable tonality"
  const MoodText := "Classified mood of the track based on energy, tempo, complexity, and tonality"
  const BeatTimesText := "List of timestamps (in seconds) where beats occur"
  const BeatStrengthText := "Number of beats relative to track tempo, indicating rhythmic density"
  const TempoScoresText := "Scores for different candidate tempos, useful for identifying rhythm patterns"
  const TempoStructureText := "Temporal evolution of tempo patterns in the track"
  const ChromaMeanText := "Mean chromagram values for each pitch class, useful for key detection"

  /**
    The text each field passes to `Field(...)`: its `description=`, except for
    `function` and `description`, which pass their text as the default.
   */
  function FieldText(f: Field): string {
    match f
    case SamplingRate => SamplingRateText
    case Tempo => TempoText
    case RhythmRegularity => RhythmRegularityText
    case SpectralCentroidMean => SpectralCentroidMeanText
    case SpectralContrastMean => SpectralContrastMeanText
    case BassContrast => BassContrastText
    case TrebleContrast => TrebleContrastText
    case EnergyMean => EnergyMeanText
    case EnergyStd => EnergyStdText
    case ZeroCrossingRateMean => ZeroCrossingRateMeanText
    case MfccProfile => MfccProfileText
    case LowMfcc => LowMfccText
    case MidMfcc => MidMfccText
    case HighMfcc => HighMfccText
    case MfccSpread => MfccSpreadText
    case TonalFeatures => TonalFeaturesText
    case Key => KeyText
    case ComplexityScore => ComplexityScoreText
    case TonalStability => TonalStabilityText
    case Mood => MoodText
    case Function => FunctionDefault
    case Description => DescriptionDefault
    case BeatTimes => BeatTimesText
    case BeatStrength => BeatStrengthText
    case TempoScores => TempoScoresText
    case TempoStructure => TempoStructureText
    case ChromaMean => ChromaMeanText
  }

  /** The `description=` of each field's `Field(...)`, if it has one. */
  function DescriptionOf(f: Field): Option<string> {
    if f == Function || f == Description then None else Some(FieldText(f))
  }

  /** The fields with a default, which may be omitted. */
  const DefaultedFields: set<Field> := {Function, Description, BeatTimes, BeatStrength, TempoScores, TempoStructure, ChromaMean}

  lemma DefaultedFieldsExactly(f: Field)
    ensures Spec(f).default.Some? <==> f in DefaultedFields
  {
  }

  /** A validated record: the stored value of every declared field. */
  type Stored = map<Field, Value>

  /** The values `v` a field of kind `k` stores. */
  predicate HasKind(k: Kind, v: Value) {
    match k
    case IntK => v.IntV?
    case FloatK => v.FloatV?
    case FloatListK => v.FloatListV?
    case StrK => v.StrV?
    case OptionalFloatListK => v.NoneV? || v.FloatListV?
    case OptionalFloatK => v.NoneV? || v.FloatV?
  }

  /** Every declared field is present and holds a value of its declared type. */
  ghost predicate WellTyped(m: Stored) {
    forall f :: f in m && HasKind(Spec(f).kind, m[f])
  }

  /** The number a numeric field holds. */
  function Num(m: Stored, f: Field): real {
    if f in m && IsNumber(m[f]) then Numeric(m[f]) else 0.0
  }

  /** The bounds of the record, all inclusive, written out field by field. */
  predicate Valid(m: Stored) {
    && 8000.0 <= Num(m, SamplingRate) <= 48000.0
    && 50.0 <= Num(m, Tempo) <= 300.0
    && 1.0 <= Num(m, RhythmRegularity) <= 15.0
    && 50.0 <= Num(m, SpectralCentroidMean) <= 3000.0
    && 10.0 <= Num(m, BassContrast) <= 30.0
    && 5.0 <= Num(m, TrebleContrast) <= 40.0
    && 0.0 <= Num(m, EnergyMean) <= 1.0
    && 0.0 <= Num(m, EnergyStd) <= 1.0
    && 0.0 <= Num(m, ZeroCrossingRateMean) <= 0.5
    && Num(m, LowMfcc) <= 0.0
    && 0.0 <= Num(m, MfccSpread)
    && 10.0 <= Num(m, ComplexityScore) <= 40.0
    && 0.0 <= Num(m, TonalStability) <= 0.5
  }

  // ---------------------------------------------------------------------
  // Validation of one raw value against one field
  // ---------------------------------------------------------------------

  predicate Integral(r: real) {
    r.Floor as real == r
  }

  /** The number a numeric value stands for. */
  function Numeric(v: Value): real
    requires IsNumber(v)
  {
    if v.IntV? then v.i as real else v.r
  }

  predicate InBounds(s: FieldSpec, x: real) {
    && (s.ge.Some? ==> s.ge.value <= x)
    && (s.le.Some? ==> x <= s.le.value)
  }

  /** Lax-mode acceptance of `v` by a field declared as `s`, bounds included. */
  predicate Accepts(s: FieldSpec, v: Value) {
    match s.kind
    case IntK => (v.IntV? || (v.FloatV? && Integral(v.r))) && InBounds(s, Numeric(v))
    case FloatK => IsNumber(v) && InBounds(s, Numeric(v))
    case FloatListK => v.FloatListV?
    case StrK => v.StrV?
    case OptionalFloatListK => v.NoneV? || v.FloatListV?
    case OptionalFloatK => v.NoneV? || IsNumber(v)
  }

  /** The value an accepted input is stored as: lax mode converts between `int` and `float`. */
  function Coerce(s: FieldSpec, v: Value): Value
    requires Accepts(s, v)
  {
    match s.kind
    case IntK => IntV(Numeric(v).Floor)
    case FloatK => FloatV(Numeric(v))
    case OptionalFloatK => if v.NoneV? then NoneV else FloatV(Numeric(v))
    case _ => v
  }

  /** The field validates: present and accepted, or absent with a default (defaults are not validated). */
  predicate FieldOk(raw: Record, f: Field) {
    if Name(f) in raw then Accepts(Spec(f), raw[Name(f)]) else Spec(f).default.Some?
  }

  /** The stored value of a field that validates. */
  function Input(raw: Record, f: Field): Value
    requires FieldOk(raw, f)
  {
    if Name(f) in raw then Coerce(Spec(f), raw[Name(f)]) else Spec(f).default.value
  }

  // ---------------------------------------------------------------------
  // Validation of a record
  // ---------------------------------------------------------------------

  /** The names of the fields that fail, one error per field as pydantic collects them. */
  function Errors(raw: Record): set<string> {
    set f | f in Schema && !FieldOk(raw, f) :: Name(f)
  }

  /** Every declared field validates. */
  ghost predicate FieldsOk(raw: Record) {
    forall f :: FieldOk(raw, f)
  }

  lemma NoErrorsFieldsOk(raw: Record)
    requires Errors(raw) == {}
    ensures FieldsOk(raw)
  {
    forall f
      ensures FieldOk(raw, f)
    {
      SchemaCovers(f);
      assert Name(f) !in Errors(raw);
    }
  }

  /** The record holding every field's stored value. */
  function Build(raw: Record): (m: Stored)
    requires FieldsOk(raw)
    ensures forall f :: f in m && m[f] == Input(raw, f)
  {
    SchemaComplete();
    map f | f in Schema :: Input(raw, f)
  }

  /** `AudioMetadata(**raw)`: the record, or the names of the fields that fail. */
  function Validate(raw: Record): Result<Stored, set<string>> {
    if Errors(raw) == {} then
      NoErrorsFieldsOk(raw);
      Success(Build(raw))
    else Failure(Errors(raw))
  }

  /** `model_dump()`: every field under its name. */
  function ToRaw(m: Stored): Record
    requires WellTyped(m)
  {
    NamesInjective();
    map f | f in Schema :: Name(f) := m[f]
  }

  // ---------------------------------------------------------------------
  // Properties of validation
  // ---------------------------------------------------------------------

  /** A stored value is accepted by its own field and has the field's type. */
  lemma InputAccepted(raw: Record, f: Field)
    requires FieldOk(raw, f)
    ensures Accepts(Spec(f), Input(raw, f))
    ensures HasKind(Spec(f).kind, Input(raw, f))
  {
  }

  /** Coercion leaves a value that already has the field's type as it is. */
  lemma CoerceTyped(s: FieldSpec, v: Value)
    requires Accepts(s, v) && HasKind(s.kind, v)
    ensures Coerce(s, v) == v
  {
  }

  /** A well-typed record that every field accepts keeps the hand-written bounds. */
  lemma AcceptedMeansValid(m: Stored)
    requires WellTyped(m)
    requires forall f :: Accepts(Spec(f), m[f])
    ensures Valid(m)
  {
    assert Accepts(Spec(SamplingRate), m[SamplingRate]);
    assert Accepts(Spec(Tempo), m[Tempo]);
    assert Accepts(Spec(RhythmRegularity), m[RhythmRegularity]);
    assert Accepts(Spec(SpectralCentroidMean), m[SpectralCentroidMean]);
    assert Accepts(Spec(BassContrast), m[BassContrast]);
    assert Accepts(Spec(TrebleContrast), m[TrebleContrast]);
    assert Accepts(Spec(EnergyMean), m[EnergyMean]);
    assert Accepts(Spec(EnergyStd), m[EnergyStd]);
    assert Accepts(Spec(ZeroCrossingRateMean), m[ZeroCrossingRateMean]);
    assert Accepts(Spec(LowMfcc), m[LowMfcc]);
    assert Accepts(Spec(MfccSpread), m[MfccSpread]);
    assert Accepts(Spec(ComplexityScore), m[ComplexityScore]);
    assert Accepts(Spec(TonalStability), m[TonalStability]);
  }

  /** A well-typed record within the hand-written bounds is accepted by the field `f`. */
  lemma ValidMeansAccepted(m: Stored, f: Field)
    requires WellTyped(m) && Valid(m)
    ensures Accepts(Spec(f), m[f])
  {
    assert HasKind(Spec(f).kind, m[f]);
  }

  /** The schema's constraints on a well-typed record are exactly its hand-written bounds. */
  lemma SchemaMeansValid(m: Stored)
    requires WellTyped(m)
    ensures Valid(m) <==> forall f :: Accepts(Spec(f), m[f])
  {
    if forall f :: Accepts(Spec(f), m[f]) {
      AcceptedMeansValid(m);
    }
    if Valid(m) {
      forall f
        ensures Accepts(Spec(f), m[f])
      {
        ValidMeansAccepted(m, f);
      }
    }
  }

  /** A record that validates has every field, each of its type, and keeps every bound. */
  lemma ValidateSound(raw: Record)
    requires Validate(raw).Success?
    ensures WellTyped(Validate(raw).value) && Valid(Validate(raw).value)
  {
    NoErrorsFieldsOk(raw);
    var m := Build(raw);
    forall f
      ensures Accepts(Spec(f), m[f]) && HasKind(Spec(f).kind, m[f])
    {
      InputAccepted(raw, f);
    }
    SchemaMeansValid(m);
  }

  lemma ToRawLookup(m: Stored, f: Field)
    requires WellTyped(m)
    ensures Name(f) in ToRaw(m) && ToRaw(m)[Name(f)] == m[f]
  {
    NamesInjective();
    SchemaCovers(f);
  }

  /** A dumped field validates exactly when the field accepts the stored value. */
  lemma DumpedFieldOk(m: Stored, f: Field)
    requires WellTyped(m)
    ensures FieldOk(ToRaw(m), f) <==> Accepts(Spec(f), m[f])
    ensures FieldOk(ToRaw(m), f) ==> Input(ToRaw(m), f) == m[f]
  {
    ToRawLookup(m, f);
    if Accepts(Spec(f), m[f]) {
      CoerceTyped(Spec(f), m[f]);
    }
  }

  /** Every field of a dump of a valid record validates and stores the dumped value. */
  lemma DumpFieldsOk(m: Stored)
    requires WellTyped(m) && Valid(m)
    ensures FieldsOk(ToRaw(m))
    ensures forall f :: Input(ToRaw(m), f) == m[f]
  {
    forall f
      ensures FieldOk(ToRaw(m), f) && Input(ToRaw(m), f) == m[f]
    {
      ValidMeansAccepted(m, f);
      DumpedFieldOk(m, f);
    }
  }

  lemma DumpHasNoErrors(m: Stored)
    requires WellTyped(m) && Valid(m)
    ensures Errors(ToRaw(m)) == {}
  {
    DumpFieldsOk(m);
  }

  lemma BuildOfDump(m: Stored)
    requires WellTyped(m) && Valid(m)
    ensures FieldsOk(ToRaw(m)) && Build(ToRaw(m)) == m
  {
    DumpFieldsOk(m);
    SameStored(Build(ToRaw(m)), m);
  }

  /** Two records holding every field, with equal values, are equal. */
  lemma SameStored(a: Stored, b: Stored)
    requires forall f :: f in a && f in b && a[f] == b[f]
    ensures a == b
  {
    assert a.Keys == b.Keys;
  }

  lemma DumpValidates(m: Stored)
    requires WellTyped(m) && Valid(m)
    ensures Validate(ToRaw(m)) == Success(m)
  {
    DumpHasNoErrors(m);
    BuildOfDump(m);
  }

  lemma DumpFails(m: Stored, f: Field)
    requires WellTyped(m) && !Accepts(Spec(f), m[f])
    ensures Validate(ToRaw(m)).Failure?
  {
    DumpedFieldOk(m, f);
    SchemaCovers(f);
    assert Name(f) in Errors(ToRaw(m));
  }

  /**
    Dumping a well-typed record and validating the dump gives the record
    back exactly when it keeps the bounds; otherwise validation fails.
   */
  lemma ValidateRoundTrip(m: Stored)
    requires WellTyped(m)
    ensures Validate(ToRaw(m)).Success? <==> Valid(m)
    ensures Valid(m) ==> Validate(ToRaw(m)) == Success(m)
  {
    if Valid(m) {
      DumpValidates(m);
    } else {
      SchemaMeansValid(m);
      var f :| !Accepts(Spec(f), m[f]);
      DumpFails(m, f);
    }
  }

  /** Omitting a field without a default makes validation fail, naming that field. */
  lemma MissingRequiredFails(raw: Record, f: Field)
    requires f !in DefaultedFields && Name(f) !in raw
    ensures Validate(raw).Failure? && Name(f) in Validate(raw).error
  {
    DefaultedFieldsExactly(f);
    SchemaCovers(f);
    assert Name(f) in Errors(raw);
  }

  /**
    `function`, `description` and the five exploratory fields may be
    omitted: they are then never among the errors, and a record that
    validates holds their default (`None` for the exploratory ones).
   */
  lemma OmittedFieldTakesDefault(raw: Record, f: Field)
    requires f in DefaultedFields && Name(f) !in raw
    ensures Name(f) !in Errors(raw)
    ensures Validate(raw).Success? ==> Validate(raw).value[f] == Spec(f).default.value
  {
    DefaultedFieldsExactly(f);
    NamesInjective();
    if Validate(raw).Success? {
      NoErrorsFieldsOk(raw);
    }
  }

  /** Keys outside the declared fields are ignored. */
  lemma ExtraKeysIgnored(raw: Record, k: string, v: Value)
    requires forall f :: Name(f) != k
    ensures Validate(raw[k := v]) == Validate(raw)
  {
    var raw' := raw[k := v];
    assert forall f :: FieldOk(raw', f) == FieldOk(raw, f);
    assert Errors(raw') == Errors(raw);
    if Errors(raw) == {} {
      NoErrorsFieldsOk(raw);
      NoErrorsFieldsOk(raw');
      forall f
        ensures Build(raw')[f] == Build(raw)[f]
      {
        assert Input(raw', f) == Input(raw, f);
      }
      assert Build(raw') == Build(raw);
    }
  }

  // ---------------------------------------------------------------------
  // Schema descriptions (`get_schema_descriptions`)
  // ---------------------------------------------------------------------

  /** `function` and `description` are the only fields without a description. */
  lemma DescribedFields(f: Field)
    ensures DescriptionOf(f).Some? <==> f != Function && f != Description
  {
  }

  predicate HasDescription(f: Field) {
    DescriptionOf(f).Some?
  }

  /** The declaration list around `function` and `description`. */
  lemma SchemaParts()
    ensures Schema == Schema[..20] + [Function, Description] + Schema[22..]
    ensures Function !in Schema[..20] && Description !in Schema[..20]
    ensures Function !in Schema[22..] && Description !in Schema[22..]
  {
    assert Schema[..20] == [
      SamplingRate, Tempo, RhythmRegularity, SpectralCentroidMean, SpectralContrastMean,
      BassContrast, TrebleContrast, EnergyMean, EnergyStd, ZeroCrossingRateMean, MfccProfile,
      LowMfcc, MidMfcc, HighMfcc, MfccSpread, TonalFeatures, Key, ComplexityScore, TonalStability, Mood];
    assert Schema[22..] == [BeatTimes, BeatStrength, TempoScores, TempoStructure, ChromaMean];
  }

  /** A list without `function` and `description` has only described fields. */
  lemma AllDescribed(fields: seq<Field>)
    requires Function !in fields && Description !in fields
    ensures forall i :: 0 <= i < |fields| ==> HasDescription(fields[i])
  {
    forall i | 0 <= i < |fields|
      ensures HasDescription(fields[i])
    {
      DescribedFields(fields[i]);
    }
  }

  /**
    The described keys come in declaration order: the first twenty fields,
    then the five exploratory ones, with `function` and `description` left out.
   */
  lemma SchemaDescriptionOrder()
    ensures KeysWhere(Schema, HasDescription, Name) == KeysOf(Schema[..20], Name) + KeysOf(Schema[22..], Name)
  {
    var head, middle, tail := Schema[..20], [Function, Description], Schema[22..];
    SchemaParts();
    AllDescribed(head);
    AllDescribed(tail);
    assert !HasDescription(Function) && !HasDescription(Description);
    KeysWhereDropsMiddle(head, middle, tail, HasDescription, Name);
  }

  /**
    The name and description of every field that carries one, that is of
    every field but `function` and `description`; `keyOrder` is the order
    in which the dict receives its keys, the order of the schema's fields.
   */
  method GetSchemaDescriptions() returns (descriptions: map<string, string>, keyOrder: seq<string>)
    ensures forall f :: Name(f) in descriptions <==> DescriptionOf(f).Some?
    ensures forall f :: DescriptionOf(f).Some? ==> descriptions[Name(f)] == DescriptionOf(f).value
    ensures forall n :: n in descriptions ==> exists f :: Name(f) == n
    ensures forall f :: Name(f) in descriptions <==> f != Function && f != Description
    ensures keyOrder == KeysWhere(Schema, HasDescription, Name)
    ensures forall n :: n in keyOrder <==> n in descriptions
  {
    NamesInjective();
    descriptions, keyOrder := FillWhere(Schema, HasDescription, Name, FieldText);
    forall f
      ensures Name(f) in descriptions <==> DescriptionOf(f).Some?
      ensures DescriptionOf(f).Some? ==> descriptions[Name(f)] == DescriptionOf(f).value
      ensures Name(f) in descriptions <==> f != Function && f != Description
    {
      SchemaCovers(f);
      DescribedFields(f);
    }
  }

  // ---------------------------------------------------------------------
  // The collection (`AudioMetadataCollection`)
  // ---------------------------------------------------------------------

  /** Track file name to record. */
  datatype AudioMetadataCollection = AudioMetadataCollection(root: map<string, Stored>)
  {
    /** `c[key]`; a missing key, a `KeyError` in Python, is `None`. */
    function GetItem(key: string): (r: Option<Stored>)
      ensures r.Some? <==> key in root
      ensures r.Some? ==> r.value == root[key]
    {
      if key in root then Some(root[key]) else None
    }

    /** `keys()`: every track name, exactly the keys `GetItem` finds. */
    function Keys(): (ks: set<string>)
      ensures forall k :: k in ks <==> GetItem(k).Some?
    {
      root.Keys
    }

    /** `items()`: every name with its record. */
    function Items(): (items: set<(string, Stored)>)
      ensures forall k, m :: (k, m) in items <==> GetItem(k) == Some(m)
    {
      set k | k in root :: (k, root[k])
    }
  }

  /** The names of the entries that fail. */
  function FailingEntries(raw: map<string, Record>): set<string> {
    set k | k in raw && Validate(raw[k]).Failure?
  }

  /** Validating the collection: every entry must validate, or the whole collection fails. */
  function ValidateCollection(raw: map<string, Record>): Result<AudioMetadataCollection, set<string>> {
    if FailingEntries(raw) == {} then
      Success(AudioMetadataCollection(map k | k in raw && Validate(raw[k]).Success? :: Validate(raw[k]).value))
    else Failure(FailingEntries(raw))
  }

  /**
    The collection validates exactly when every entry does; it then holds
    every entry's validated record under the same name, each within the
    bounds; otherwise it reports exactly the failing names.
   */
  lemma ValidateCollectionAllOrNothing(raw: map<string, Record>)
    ensures ValidateCollection(raw).Success? <==> forall k :: k in raw ==> Validate(raw[k]).Success?
    ensures ValidateCollection(raw).Success? ==>
      && ValidateCollection(raw).value.Keys() == raw.Keys
      && forall k :: k in raw ==>
           && ValidateCollection(raw).value.GetItem(k) == Some(Validate(raw[k]).value)
           && WellTyped(ValidateCollection(raw).value.GetItem(k).value)
           && Valid(ValidateCollection(raw).value.GetItem(k).value)
    ensures ValidateCollection(raw).Failure? ==>
      forall k :: k in ValidateCollection(raw).error <==> k in raw && Validate(raw[k]).Failure?
  {
    if FailingEntries(raw) == {} {
      forall k | k in raw
        ensures Validate(raw[k]).Success?
      {
        assert k !in FailingEntries(raw);
      }
      forall k | k in raw
        ensures WellTyped(Validate(raw[k]).value) && Valid(Validate(raw[k]).value)
      {
        ValidateSound(raw[k]);
      }
    } else {
      var k :| k in FailingEntries(raw);
    }
  }
}
