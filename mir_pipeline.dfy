/**
  The catalog step of `AudioPipeline` (mir/pipeline.py): the text
  description of one track, and the in-memory catalog that
  `create_metadata_json` serialises, one entry per track holding its scalar
  features and its description.

  The corpus averages (`metadata_averages`) are an input: they are computed
  elsewhere. Writing the catalog to a JSON file is not modelled.
 */
module MirPipeline {
  import opened PyValues

  /** The features of a record that the description reads. */
  const MoodKey := "mood"
  const FunctionKey := "function"
  const KeyKey := "key"
  const TempoKey := "tempo"
  const EnergyKey := "energy_mean"
  const ComplexityKey := "complexity_score"
  const BassKey := "bass_contrast"
  const TrebleKey := "treble_contrast"

  /** The feature that `create_metadata_json` skips whatever its value. */
  const WaveformKey := "waveform"
  const DescriptionKey := "description"

  /**
    What the description needs of a track and of the averages: the four
    shown features are present, and the four compared ones are numbers in
    both (a missing key is a `KeyError`, a non-number a `TypeError`).
   */
  predicate Describable(metadata: Record, averages: Record) {
    && MoodKey in metadata && FunctionKey in metadata && KeyKey in metadata && TempoKey in metadata
    && Comparable(metadata, averages, EnergyKey)
    && Comparable(metadata, averages, ComplexityKey)
    && Comparable(metadata, averages, BassKey)
    && Comparable(metadata, averages, TrebleKey)
  }

  predicate Comparable(metadata: Record, averages: Record, feature: string) {
    && feature in metadata && IsNumber(metadata[feature])
    && feature in averages && IsNumber(averages[feature])
  }

  /** `metadata[feature] > metadata_averages[feature]`, strictly. */
  predicate Above(metadata: Record, averages: Record, feature: string)
    requires Comparable(metadata, averages, feature)
  {
    AsReal(metadata[feature]) > AsReal(averages[feature])
  }

  function EnergyWord(metadata: Record, averages: Record): string
    requires Comparable(metadata, averages, EnergyKey)
  {
    if Above(metadata, averages, EnergyKey) then "high" else "low"
  }

  function ComplexityWord(metadata: Record, averages: Record): string
    requires Comparable(metadata, averages, ComplexityKey)
  {
    if Above(metadata, averages, ComplexityKey) then "complex" else "simple"
  }

  function BassWord(metadata: Record, averages: Record): string
    requires Comparable(metadata, averages, BassKey)
  {
    if Above(metadata, averages, BassKey) then "strong" else "subtle"
  }

  function TrebleWord(metadata: Record, averages: Record): string
    requires Comparable(metadata, averages, TrebleKey)
  {
    if Above(metadata, averages, TrebleKey) then "bright" else "warm"
  }

  /** The pieces of the f-string of `_create_text_description`, in order, adjacent literals joined. */
  function DescriptionPieces(name: string, metadata: Record, averages: Record, show: Value -> string): (pieces: seq<string>)
    requires Describable(metadata, averages)
    ensures |pieces| == 19
  {
    [ "This track is named ", name, ".This is a ", Str(metadata[MoodKey], show), " ",
      Str(metadata[FunctionKey], show), " track in ", Str(metadata[KeyKey], show),
      " with a tempo of ", Str(metadata[TempoKey], show), " BPM. It has ",
      EnergyWord(metadata, averages), " energy and ", ComplexityWord(metadata, averages),
      " structure. The track features ", BassWord(metadata, averages), " bass and ",
      TrebleWord(metadata, averages), " treble characteristics.\n" ]
  }

  /** `_create_text_description(name, metadata)`, with `metadata_averages` as `averages`. */
  function CreateTextDescription(name: string, metadata: Record, averages: Record, show: Value -> string): string
    requires Describable(metadata, averages)
  {
    Join(DescriptionPieces(name, metadata, averages, show))
  }

  /** The description opens with the name, and "This is a" follows the full stop with no space. */
  lemma DescriptionBegins(name: string, metadata: Record, averages: Record, show: Value -> string)
    requires Describable(metadata, averages)
    ensures StartsWith(CreateTextDescription(name, metadata, averages, show), "This track is named " + name + ".This is a ")
  {
    var pieces := DescriptionPieces(name, metadata, averages, show);
    JoinStartsWith(pieces, 3);
    var opening := pieces[..3];
    assert opening == ["This track is named ", name, ".This is a "];
    assert Join(opening[2..]) == ".This is a " by {
      assert opening[2..][1..] == [];
    }
    assert Join(opening[1..]) == name + ".This is a " by {
      assert opening[1..][1..] == opening[2..];
    }
  }

  /** The description closes with " treble characteristics." and a newline. */
  lemma DescriptionEnds(name: string, metadata: Record, averages: Record, show: Value -> string)
    requires Describable(metadata, averages)
    ensures EndsWith(CreateTextDescription(name, metadata, averages, show), " treble characteristics.\n")
  {
    JoinEndsWith(DescriptionPieces(name, metadata, averages, show));
  }

  /**
    The description names the track, then its mood, function, key and
    tempo, each after the previous one and separated from it by literal
    text.
   */
  lemma DescriptionOrder(name: string, metadata: Record, averages: Record, show: Value -> string)
    requires Describable(metadata, averages)
    ensures var d := CreateTextDescription(name, metadata, averages, show);
      exists p0, p1, p2, p3, p4 ::
        && OccursAt(d, name, p0)
        && p0 + |name| < p1 && OccursAt(d, Str(metadata[MoodKey], show), p1)
        && p1 + |Str(metadata[MoodKey], show)| < p2 && OccursAt(d, Str(metadata[FunctionKey], show), p2)
        && p2 + |Str(metadata[FunctionKey], show)| < p3 && OccursAt(d, Str(metadata[KeyKey], show), p3)
        && p3 + |Str(metadata[KeyKey], show)| < p4 && OccursAt(d, Str(metadata[TempoKey], show), p4)
  {
    var pieces := DescriptionPieces(name, metadata, averages, show);
    var d := Join(pieces);
    JoinPieceAt(pieces, 1);
    JoinPieceAt(pieces, 3);
    JoinPieceAt(pieces, 5);
    JoinPieceAt(pieces, 7);
    JoinPieceAt(pieces, 9);
    PieceGap(pieces, 1, 3);
    PieceGap(pieces, 3, 5);
    PieceGap(pieces, 5, 7);
    PieceGap(pieces, 7, 9);
    var p0, p1, p2, p3, p4 :=
      PieceStart(pieces, 1), PieceStart(pieces, 3), PieceStart(pieces, 5), PieceStart(pieces, 7), PieceStart(pieces, 9);
    assert OccursAt(d, name, p0) && p0 + |name| < p1;
    assert OccursAt(d, pieces[3], p1) && p1 + |pieces[3]| < p2;
    assert OccursAt(d, pieces[5], p2) && p2 + |pieces[5]| < p3;
    assert OccursAt(d, pieces[7], p3) && p3 + |pieces[7]| < p4;
    assert OccursAt(d, pieces[9], p4);
    assert d == CreateTextDescription(name, metadata, averages, show);
    assert pieces[3] == Str(metadata[MoodKey], show) && pieces[5] == Str(metadata[FunctionKey], show);
    assert pieces[7] == Str(metadata[KeyKey], show) && pieces[9] == Str(metadata[TempoKey], show);
  }

  /**
    After the tempo come the energy, complexity, bass and treble words, in
    that order and separated by literal text.
   */
  lemma DescriptionWordsOrder(name: string, metadata: Record, averages: Record, show: Value -> string)
    requires Describable(metadata, averages)
    ensures var d := CreateTextDescription(name, metadata, averages, show);
      exists p4, p5, p6, p7, p8 ::
        && OccursAt(d, Str(metadata[TempoKey], show), p4)
        && p4 + |Str(metadata[TempoKey], show)| < p5 && OccursAt(d, EnergyWord(metadata, averages), p5)
        && p5 + |EnergyWord(metadata, averages)| < p6 && OccursAt(d, ComplexityWord(metadata, averages), p6)
        && p6 + |ComplexityWord(metadata, averages)| < p7 && OccursAt(d, BassWord(metadata, averages), p7)
        && p7 + |BassWord(metadata, averages)| < p8 && OccursAt(d, TrebleWord(metadata, averages), p8)
  {
    var pieces := DescriptionPieces(name, metadata, averages, show);
    var d := Join(pieces);
    JoinPieceAt(pieces, 9);
    JoinPieceAt(pieces, 11);
    JoinPieceAt(pieces, 13);
    JoinPieceAt(pieces, 15);
    JoinPieceAt(pieces, 17);
    PieceGap(pieces, 9, 11);
    PieceGap(pieces, 11, 13);
    PieceGap(pieces, 13, 15);
    PieceGap(pieces, 15, 17);
    var p4, p5, p6, p7, p8 :=
      PieceStart(pieces, 9), PieceStart(pieces, 11), PieceStart(pieces, 13), PieceStart(pieces, 15), PieceStart(pieces, 17);
    assert OccursAt(d, pieces[9], p4) && p4 + |pieces[9]| < p5;
    assert OccursAt(d, pieces[11], p5) && p5 + |pieces[11]| < p6;
    assert OccursAt(d, pieces[13], p6) && p6 + |pieces[13]| < p7;
    assert OccursAt(d, pieces[15], p7) && p7 + |pieces[15]| < p8;
    assert OccursAt(d, pieces[17], p8);
    assert d == CreateTextDescription(name, metadata, averages, show);
    assert pieces[9] == Str(metadata[TempoKey], show) && pieces[11] == EnergyWord(metadata, averages);
    assert pieces[13] == ComplexityWord(metadata, averages) && pieces[15] == BassWord(metadata, averages);
    assert pieces[17] == TrebleWord(metadata, averages);
  }

  /** The four features of `metadata` that the description compares, each as compared. */
  predicate SameComparisons(m1: Record, a1: Record, m2: Record, a2: Record)
    requires Describable(m1, a1) && Describable(m2, a2)
  {
    && Above(m1, a1, EnergyKey) == Above(m2, a2, EnergyKey)
    && Above(m1, a1, ComplexityKey) == Above(m2, a2, ComplexityKey)
    && Above(m1, a1, BassKey) == Above(m2, a2, BassKey)
    && Above(m1, a1, TrebleKey) == Above(m2, a2, TrebleKey)
  }

  /** The four features that the description shows, each as shown. */
  predicate SameShownFeatures(m1: Record, m2: Record, show: Value -> string)
    requires MoodKey in m1 && FunctionKey in m1 && KeyKey in m1 && TempoKey in m1
    requires MoodKey in m2 && FunctionKey in m2 && KeyKey in m2 && TempoKey in m2
  {
    && Str(m1[MoodKey], show) == Str(m2[MoodKey], show)
    && Str(m1[FunctionKey], show) == Str(m2[FunctionKey], show)
    && Str(m1[KeyKey], show) == Str(m2[KeyKey], show)
    && Str(m1[TempoKey], show) == Str(m2[TempoKey], show)
  }

  /**
    For one name and the same shown features, two descriptions are equal
    exactly when the four comparisons against the averages come out the
    same: the text depends on nothing else, and it tells every outcome.
   */
  lemma DescriptionRevealsComparisons(
    name: string, m1: Record, a1: Record, m2: Record, a2: Record, show: Value -> string)
    requires Describable(m1, a1) && Describable(m2, a2)
    requires SameShownFeatures(m1, m2, show)
    ensures CreateTextDescription(name, m1, a1, show) == CreateTextDescription(name, m2, a2, show)
      <==> SameComparisons(m1, a1, m2, a2)
  {
    var xs := DescriptionPieces(name, m1, a1, show);
    var ys := DescriptionPieces(name, m2, a2, show);
    assert xs[..11] == ys[..11];
    if Above(m1, a1, EnergyKey) != Above(m2, a2, EnergyKey) {
      JoinDiffersAt(xs, ys, 11, 0);
    } else if Above(m1, a1, ComplexityKey) != Above(m2, a2, ComplexityKey) {
      assert xs[..13] == ys[..13];
      JoinDiffersAt(xs, ys, 13, 0);
    } else if Above(m1, a1, BassKey) != Above(m2, a2, BassKey) {
      assert xs[..15] == ys[..15];
      JoinDiffersAt(xs, ys, 15, 1);
    } else if Above(m1, a1, TrebleKey) != Above(m2, a2, TrebleKey) {
      assert xs[..17] == ys[..17];
      JoinDiffersAt(xs, ys, 17, 0);
    } else {
      assert xs == ys;
    }
  }

  /**
    The comparisons are strict: a track sitting exactly at the averages is
    described as low-energy, simple, with subtle bass and warm treble (the
    words that `DescriptionWordsOrder` places in the text).
   */
  lemma AtAverageReadsLow(metadata: Record, averages: Record)
    requires Describable(metadata, averages)
    requires AsReal(metadata[EnergyKey]) == AsReal(averages[EnergyKey])
    requires AsReal(metadata[ComplexityKey]) == AsReal(averages[ComplexityKey])
    requires AsReal(metadata[BassKey]) == AsReal(averages[BassKey])
    requires AsReal(metadata[TrebleKey]) == AsReal(averages[TrebleKey])
    ensures EnergyWord(metadata, averages) == "low" && ComplexityWord(metadata, averages) == "simple"
    ensures BassWord(metadata, averages) == "subtle" && TrebleWord(metadata, averages) == "warm"
  {
  }

  // ---------------------------------------------------------------------
  // The catalog (`create_metadata_json`, before the file write)
  // ---------------------------------------------------------------------

  /** The features an entry keeps: every one but `waveform` whose value is an int, a float or a str. */
  predicate Kept(data: Record, feature: string) {
    feature in data && feature != WaveformKey && IsScalar(data[feature])
  }

  /** `track_data` once the feature loop is done. */
  function KeepScalars(data: Record): Record {
    map feature | feature in data && Kept(data, feature) :: data[feature]
  }

  /** The catalog entry of one track: its kept features and its description. */
  function TrackEntry(name: string, data: Record, averages: Record, show: Value -> string): Record
    requires Describable(data, averages)
  {
    KeepScalars(data)[DescriptionKey := StrV(CreateTextDescription(name, data, averages, show))]
  }

  /**
    The body of the outer loop: copy the kept features one by one, then
    attach the description (which replaces a `description` feature, if the
    track had one).
   */
  method TrackData(name: string, data: Record, averages: Record, show: Value -> string)
    returns (trackData: Record)
    requires Describable(data, averages)
    ensures trackData == TrackEntry(name, data, averages, show)
  {
    trackData := map[];
    var remaining := data.Keys;
    while remaining != {}
      invariant remaining <= data.Keys
      invariant forall f :: f in trackData <==> Kept(data, f) && f !in remaining
      invariant forall f :: f in trackData ==> trackData[f] == data[f]
      decreases remaining
    {
      var featureName :| featureName in remaining;
      remaining := remaining - {featureName};
      var value := data[featureName];
      if featureName == WaveformKey {
        continue;
      }
      if IsScalar(value) {
        trackData := trackData[featureName := value];
      }
    }
    var description := CreateTextDescription(name, data, averages, show);
    trackData := trackData[DescriptionKey := StrV(description)];
  }

  /** Every track named in `names` has a describable record. */
  predicate AllDescribable(names: seq<string>, rows: map<string, Record>, averages: Record) {
    forall n :: n in names ==> n in rows && Describable(rows[n], averages)
  }

  /** The entries that the outer loop has inserted after visiting `names`, in order. */
  function CatalogRows(names: seq<string>, rows: map<string, Record>, averages: Record, show: Value -> string)
    : map<string, Record>
    requires AllDescribable(names, rows, averages)
  {
    if names == [] then map[]
    else
      var name := names[|names| - 1];
      CatalogRows(names[..|names| - 1], rows, averages, show)[name := TrackEntry(name, rows[name], averages, show)]
  }

  /** The catalog has an entry for exactly the visited tracks, each that track's entry. */
  lemma {:induction false} CatalogRowsLookup(
    names: seq<string>, rows: map<string, Record>, averages: Record, show: Value -> string)
    requires AllDescribable(names, rows, averages)
    ensures forall n :: n in CatalogRows(names, rows, averages, show) <==> n in names
    ensures forall n :: n in names ==>
      CatalogRows(names, rows, averages, show)[n] == TrackEntry(n, rows[n], averages, show)
  {
    if names != [] {
      var init := names[..|names| - 1];
      CatalogRowsLookup(init, rows, averages, show);
      assert names == init + [names[|names| - 1]];
    }
  }

  /**
    The in-memory catalog: one entry per track, in the tracks' order. `show`
    is `str()` of the values that are neither strings nor ints.
   */
  method CreateMetadataJson(audioMetadata: Table, averages: Record, show: Value -> string)
    returns (processedMetadata: Table)
    requires audioMetadata.WellFormed()
    requires forall n :: n in audioMetadata.rows ==> Describable(audioMetadata.rows[n], averages)
    ensures processedMetadata.order == audioMetadata.order
    ensures processedMetadata.rows == CatalogRows(audioMetadata.order, audioMetadata.rows, averages, show)
  {
    var rows: map<string, Record> := map[];
    for i := 0 to |audioMetadata.order|
      invariant rows == CatalogRows(audioMetadata.order[..i], audioMetadata.rows, averages, show)
    {
      var name := audioMetadata.order[i];
      var trackData := TrackData(name, audioMetadata.rows[name], averages, show);
      rows := rows[name := trackData];
      assert audioMetadata.order[..i + 1][..i] == audioMetadata.order[..i];
    }
    assert audioMetadata.order[..|audioMetadata.order|] == audioMetadata.order;
    // the keys of `processed_metadata` are inserted in the order of the tracks
    processedMetadata := Table(audioMetadata.order, rows);
  }

  /**
    The catalog has the same tracks, in the same order, and every track's
    entry is built from that same track's record.
   */
  lemma CatalogShape(audioMetadata: Table, averages: Record, show: Value -> string)
    requires audioMetadata.WellFormed()
    requires forall n :: n in audioMetadata.rows ==> Describable(audioMetadata.rows[n], averages)
    ensures var catalog := Table(audioMetadata.order, CatalogRows(audioMetadata.order, audioMetadata.rows, averages, show));
      && catalog.WellFormed()
      && catalog.rows.Keys == audioMetadata.rows.Keys
      && forall n :: n in catalog.rows ==> catalog.rows[n] == TrackEntry(n, audioMetadata.rows[n], averages, show)
  {
    CatalogRowsLookup(audioMetadata.order, audioMetadata.rows, averages, show);
  }

  /**
    An entry holds `description`, set to the track's description, and
    otherwise exactly the features that are not `waveform` and whose value
    is an int, a float or a str, each unchanged.
   */
  lemma EntryFields(name: string, data: Record, averages: Record, show: Value -> string)
    requires Describable(data, averages)
    ensures var entry := TrackEntry(name, data, averages, show);
      && (forall f :: f in entry <==> f == DescriptionKey || Kept(data, f))
      && (forall f :: f in entry && f != DescriptionKey ==> entry[f] == data[f])
      && entry[DescriptionKey] == StrV(CreateTextDescription(name, data, averages, show))
  {
  }

  /** Every value in an entry is an int, a float or a str. */
  lemma EntryIsFlat(name: string, data: Record, averages: Record, show: Value -> string)
    requires Describable(data, averages)
    ensures forall f :: f in TrackEntry(name, data, averages, show) ==> IsScalar(TrackEntry(name, data, averages, show)[f])
  {
  }

  /**
    The function tags set by the classifier are not kept in the entry,
    though their text appears in the description.
   */
  lemma TagSetDropped(name: string, data: Record, averages: Record, show: Value -> string)
    requires Describable(data, averages) && data[FunctionKey].TagsV?
    ensures FunctionKey !in TrackEntry(name, data, averages, show)
    ensures Contains(TrackEntry(name, data, averages, show)[DescriptionKey].s, show(data[FunctionKey]))
  {
    var d := CreateTextDescription(name, data, averages, show);
    DescriptionOrder(name, data, averages, show);
    ContainsIffOccurs(d, Str(data[FunctionKey], show));
  }

  /** Filtering an entry's features again changes nothing. */
  lemma KeepScalarsIdempotent(data: Record)
    ensures KeepScalars(KeepScalars(data)) == KeepScalars(data)
  {
  }
}
