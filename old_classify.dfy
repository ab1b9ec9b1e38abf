/**
  `OldAudioClassifier` (src/old_classify.py): enriches every track's feature
  dictionary in place with a set of in-game function tags, derived from the
  track's name, and a mood, derived from a Gaussian-mixture clustering of a
  13-slot feature vector. The scaler and mixture model are a parameter `fit`;
  the population standard deviation is a parameter `stdOf`.
 */
module OldClassify {
  import opened PyValues
  import opened Stats

  // ---------------------------------------------------------------------
  // Function tagging (`_classify_function`)
  // ---------------------------------------------------------------------

  /** Keyword and tag: a lowercased name containing the keyword gets the tag. */
  const Keywords: seq<(string, string)> := [
    ("complete", "victory"),
    ("game_over", "game_over"),
    ("lost_life", "game_over"),
    ("theme", "background"),
    ("effect", "effect")
  ]

  const Vocabulary: set<string> := {"victory", "game_over", "background", "effect"}

  /** The tags of a track, a function of its name alone. */
  function FunctionTags(name: string): set<string> {
    set e | e in Keywords && Contains(Lower(name), e.0) :: e.1
  }

  /** Each tag is present exactly when one of its keywords occurs in the lowercased name. */
  lemma FunctionTagsByKeyword(name: string)
    ensures "victory" in FunctionTags(name) <==> Contains(Lower(name), "complete")
    ensures "game_over" in FunctionTags(name) <==> Contains(Lower(name), "game_over") || Contains(Lower(name), "lost_life")
    ensures "background" in FunctionTags(name) <==> Contains(Lower(name), "theme")
    ensures "effect" in FunctionTags(name) <==> Contains(Lower(name), "effect")
    ensures FunctionTags(name) <= Vocabulary
  {
    var l := Lower(name);
    assert Keywords[0] == ("complete", "victory");
    assert Keywords[1] == ("game_over", "game_over");
    assert Keywords[2] == ("lost_life", "game_over");
    assert Keywords[3] == ("theme", "background");
    assert Keywords[4] == ("effect", "effect");
  }

  /** The tags as the four keyword tests of `_classify_function` build them. */
  function TagsOfLowered(lowered: string): set<string> {
    (if Contains(lowered, "complete") then {"victory"} else {})
    + (if Contains(lowered, "game_over") || Contains(lowered, "lost_life") then {"game_over"} else {})
    + (if Contains(lowered, "theme") then {"background"} else {})
    + (if Contains(lowered, "effect") then {"effect"} else {})
  }

  lemma FunctionTagsAsTests(name: string)
    ensures FunctionTags(name) == TagsOfLowered(Lower(name))
  {
    FunctionTagsByKeyword(name);
  }

  /** The body of `_classify_function`'s loop: the keyword tests on one lowercased name. */
  method TrackFunctions(name: string) returns (trackFunctions: set<string>)
    ensures trackFunctions == FunctionTags(name)
  {
    var lowered := Lower(name);
    trackFunctions := {};
    if Contains(lowered, "complete") {
      trackFunctions := trackFunctions + {"victory"};
    }
    if Contains(lowered, "game_over") || Contains(lowered, "lost_life") {
      trackFunctions := trackFunctions + {"game_over"};
    }
    if Contains(lowered, "theme") {
      trackFunctions := trackFunctions + {"background"};
    }
    if Contains(lowered, "effect") {
      trackFunctions := trackFunctions + {"effect"};
    }
    FunctionTagsAsTests(name);
  }

  /** A name matching no keyword gets no tag (there is no default tag). */
  lemma UnmatchedNameHasNoTags(name: string)
    requires forall e :: e in Keywords ==> !Contains(Lower(name), e.0)
    ensures FunctionTags(name) == {}
  {
  }

  // ---------------------------------------------------------------------
  // Feature vector (`_get_selected_features`)
  // ---------------------------------------------------------------------

  /** The 13 slots of the feature vector, in order. */
  const FeatureNames: seq<string> := [
    "tempo", "spectral_centroid_mean", "energy_mean", "zero_crossing_rate_mean",
    "low_mfcc", "mid_mfcc", "high_mfcc", "mfcc_spread", "bass_contrast",
    "treble_contrast", "complexity_score", "tonal_stability", "rhythm_regularity"
  ]

  /** The slots the mood rules read. */
  const TempoSlot := 0
  const EnergySlot := 2
  const ComplexitySlot := 10
  const TonalStabilitySlot := 11

  /** The track has a number under each of the 13 feature names. */
  predicate HasFeatures(rec: Record) {
    forall j :: 0 <= j < |FeatureNames| ==> FeatureNames[j] in rec && IsNumber(rec[FeatureNames[j]])
  }

  function SelectedFeatures(rec: Record): (v: seq<real>)
    requires HasFeatures(rec)
    ensures |v| == |FeatureNames|
  {
    seq(|FeatureNames|, j requires 0 <= j < |FeatureNames| => AsReal(rec[FeatureNames[j]]))
  }

  /** The mood rules read tempo, energy, complexity and tonal stability from these slots. */
  lemma FeatureSlots(rec: Record)
    requires HasFeatures(rec)
    ensures |SelectedFeatures(rec)| == 13
    ensures "tempo" in rec && "energy_mean" in rec && "complexity_score" in rec && "tonal_stability" in rec
    ensures IsNumber(rec["tempo"]) && IsNumber(rec["energy_mean"])
    ensures IsNumber(rec["complexity_score"]) && IsNumber(rec["tonal_stability"])
    ensures SelectedFeatures(rec)[TempoSlot] == AsReal(rec["tempo"])
    ensures SelectedFeatures(rec)[EnergySlot] == AsReal(rec["energy_mean"])
    ensures SelectedFeatures(rec)[ComplexitySlot] == AsReal(rec["complexity_score"])
    ensures SelectedFeatures(rec)[TonalStabilitySlot] == AsReal(rec["tonal_stability"])
  {
    assert FeatureNames[0] == "tempo" && FeatureNames[2] == "energy_mean";
    assert FeatureNames[10] == "complexity_score" && FeatureNames[11] == "tonal_stability";
  }

  /** Every track of the table has its 13 features. */
  ghost predicate Featured(t: Table) {
    forall i :: 0 <= i < |t.order| ==> t.order[i] in t.rows && HasFeatures(t.rows[t.order[i]])
  }

  /** `feature_vectors`: one vector per track, in key order. */
  function FeatureMatrix(t: Table): (x: seq<seq<real>>)
    requires Featured(t)
    ensures |x| == |t.order|
    ensures forall i :: 0 <= i < |x| ==> |x[i]| == |FeatureNames|
  {
    seq(|t.order|, i requires 0 <= i < |t.order| => SelectedFeatures(t.rows[t.order[i]]))
  }

  function Column(x: seq<seq<real>>, j: int): seq<real>
    requires forall i :: 0 <= i < |x| ==> 0 <= j < |x[i]|
  {
    seq(|x|, i requires 0 <= i < |x| => assert 0 <= j < |x[i]|; x[i][j])
  }

  ghost predicate Rectangular(x: seq<seq<real>>) {
    forall i :: 0 <= i < |x| ==> |x[i]| == |FeatureNames|
  }

  /** `np.mean(all_features, axis=0)` */
  function FeatureMeans(x: seq<seq<real>>): (m: seq<real>)
    requires |x| > 0 && Rectangular(x)
    ensures |m| == |FeatureNames|
  {
    seq(|FeatureNames|, j requires 0 <= j < |FeatureNames| => Mean(Column(x, j)))
  }

  /** `np.std(all_features, axis=0)`, with the column deviation given as `stdOf`. */
  function FeatureStds(x: seq<seq<real>>, stdOf: seq<real> -> real): (s: seq<real>)
    requires Rectangular(x)
    ensures |s| == |FeatureNames|
  {
    seq(|FeatureNames|, j requires 0 <= j < |FeatureNames| => stdOf(Column(x, j)))
  }

  // ---------------------------------------------------------------------
  // Cluster-to-mood rules (`_map_clusters_to_moods`)
  // ---------------------------------------------------------------------

  datatype Mood = Intense | Energetic | Triumphant | Mysterious | Balanced

  function MoodName(m: Mood): string {
    match m
    case Intense => "intense"
    case Energetic => "energetic"
    case Triumphant => "triumphant"
    case Mysterious => "mysterious"
    case Balanced => "balanced"
  }

  lemma MoodNamesDistinct(a: Mood, b: Mood)
    requires a != b
    ensures MoodName(a) != MoodName(b)
  {
    assert MoodName(a)[..2] != MoodName(b)[..2] || MoodName(a) != MoodName(b);
  }

  /** `centroid` reads as intense: energy one deviation above the mean and tempo above 140. */
  predicate IntenseRule(centroid: seq<real>, means: seq<real>, stds: seq<real>)
    requires |centroid| == |means| == |stds| == |FeatureNames|
  {
    centroid[EnergySlot] > means[EnergySlot] + stds[EnergySlot] && centroid[TempoSlot] > 140.0
  }

  predicate EnergeticRule(centroid: seq<real>, means: seq<real>, stds: seq<real>)
    requires |centroid| == |means| == |stds| == |FeatureNames|
  {
    && centroid[EnergySlot] > means[EnergySlot]
    && centroid[TempoSlot] > 120.0
    && centroid[ComplexitySlot] > means[ComplexitySlot]
  }

  predicate TriumphantRule(centroid: seq<real>, means: seq<real>, stds: seq<real>)
    requires |centroid| == |means| == |stds| == |FeatureNames|
  {
    centroid[TonalStabilitySlot] > means[TonalStabilitySlot] + stds[TonalStabilitySlot]
    && centroid[EnergySlot] > means[EnergySlot]
  }

  predicate MysteriousRule(centroid: seq<real>, means: seq<real>, stds: seq<real>)
    requires |centroid| == |means| == |stds| == |FeatureNames|
  {
    centroid[EnergySlot] < means[EnergySlot] - stds[EnergySlot]
    && centroid[ComplexitySlot] < means[ComplexitySlot]
  }

  /** The rules tried in order; the first that matches names the mood. */
  function MoodOf(centroid: seq<real>, means: seq<real>, stds: seq<real>): Mood
    requires |centroid| == |means| == |stds| == |FeatureNames|
  {
    if IntenseRule(centroid, means, stds) then Intense
    else if EnergeticRule(centroid, means, stds) then Energetic
    else if TriumphantRule(centroid, means, stds) then Triumphant
    else if MysteriousRule(centroid, means, stds) then Mysterious
    else Balanced
  }

  /**
    With a non-negative energy deviation, a centroid whose energy is at most
    the mean is never intense, energetic or triumphant, and one whose energy
    is at least the mean is never mysterious.
   */
  lemma MoodFollowsEnergy(centroid: seq<real>, means: seq<real>, stds: seq<real>)
    requires |centroid| == |means| == |stds| == |FeatureNames|
    requires stds[EnergySlot] >= 0.0
    ensures centroid[EnergySlot] <= means[EnergySlot] ==>
      MoodOf(centroid, means, stds) in {Mysterious, Balanced}
    ensures centroid[EnergySlot] >= means[EnergySlot] ==>
      MoodOf(centroid, means, stds) != Mysterious
  {
  }

  /** At most 120 BPM a centroid is never intense or energetic, whatever its energy. */
  lemma SlowIsNeverEnergetic(centroid: seq<real>, means: seq<real>, stds: seq<real>)
    requires |centroid| == |means| == |stds| == |FeatureNames|
    requires centroid[TempoSlot] <= 120.0
    ensures MoodOf(centroid, means, stds) !in {Intense, Energetic}
  {
  }

  /**
    `_map_clusters_to_moods`: the mood of every cluster index, judged against
    the mean and deviation of each feature over all tracks.
   */
  method MapClustersToMoods(clusterFeatures: seq<seq<real>>, featureVectors: seq<seq<real>>, stdOf: seq<real> -> real)
    returns (moodMapping: map<nat, string>)
    requires |featureVectors| > 0 && Rectangular(featureVectors)
    requires Rectangular(clusterFeatures)
    ensures forall i: nat :: i in moodMapping <==> i < |clusterFeatures|
    ensures forall i :: 0 <= i < |clusterFeatures| ==>
      moodMapping[i] == MoodName(MoodOf(clusterFeatures[i], FeatureMeans(featureVectors), FeatureStds(featureVectors, stdOf)))
  {
    moodMapping := map[];
    var featureMeans := FeatureMeans(featureVectors);
    var featureStds := FeatureStds(featureVectors, stdOf);
    for i := 0 to |clusterFeatures|
      invariant forall c: nat :: c in moodMapping <==> c < i
      invariant forall c :: 0 <= c < i ==> moodMapping[c] == MoodName(MoodOf(clusterFeatures[c], featureMeans, featureStds))
    {
      var features := clusterFeatures[i];
      var tempo := features[TempoSlot];
      var energy := features[EnergySlot];
      var complexity := features[ComplexitySlot];
      var tonalStability := features[TonalStabilitySlot];
      var mood: string;
      if energy > featureMeans[EnergySlot] + featureStds[EnergySlot] && tempo > 140.0 {
        mood := "intense";
      } else if energy > featureMeans[EnergySlot] && tempo > 120.0 && complexity > featureMeans[ComplexitySlot] {
        mood := "energetic";
      } else if tonalStability > featureMeans[TonalStabilitySlot] + featureStds[TonalStabilitySlot]
             && energy > featureMeans[EnergySlot] {
        mood := "triumphant";
      } else if energy < featureMeans[EnergySlot] - featureStds[EnergySlot] && complexity < featureMeans[ComplexitySlot] {
        mood := "mysterious";
      } else {
        mood := "balanced";
      }
      moodMapping := moodMapping[i := mood];
    }
  }

  // ---------------------------------------------------------------------
  // Clustering and the enrichment stages
  // ---------------------------------------------------------------------

  /** `GaussianMixture(n_components=6)` */
  const NComponents := 6

  /** The cluster label of every track and the centroid of every cluster. */
  datatype Clustering = Clustering(labels: seq<nat>, means: seq<seq<real>>)

  /** What `fit_predict` and `means_` guarantee for `x`. */
  ghost predicate GmmContract(x: seq<seq<real>>, c: Clustering) {
    && |c.labels| == |x|
    && |c.means| == NComponents
    && (forall i :: 0 <= i < |c.labels| ==> c.labels[i] < |c.means|)
    && Rectangular(c.means)
  }

  /**
    The mood stage can run on `t`: a dict of tracks with their features, at
    least as many tracks as mixture components, and a fit that keeps its
    contract on their feature vectors.
   */
  ghost predicate MoodReady(t: Table, fit: seq<seq<real>> -> Clustering) {
    && t.WellFormed()
    && Featured(t)
    && |t.order| >= NComponents
    && GmmContract(FeatureMatrix(t), fit(FeatureMatrix(t)))
  }

  /** The record of track `name` with its tags under `function`. */
  function Tagged(rec: Record, name: string): Record {
    rec["function" := TagsV(FunctionTags(name))]
  }

  /** Every record with a `function` entry holding the tags of its name. */
  function TagStage(rows: map<string, Record>): (r: map<string, Record>)
    ensures r.Keys == rows.Keys
  {
    map n | n in rows :: Tagged(rows[n], n)
  }

  /** The mood of the track at position `i`: the mood of its own cluster. */
  function TrackMood(t: Table, fit: seq<seq<real>> -> Clustering, stdOf: seq<real> -> real, i: int): string
    requires MoodReady(t, fit) && 0 <= i < |t.order|
  {
    var x := FeatureMatrix(t);
    var c := fit(x);
    MoodName(MoodOf(c.means[c.labels[i]], FeatureMeans(x), FeatureStds(x, stdOf)))
  }

  /** The mood of position `i` is the mood of cluster `labels[i]`. */
  function MoodsByPosition(labels: seq<nat>, moodMapping: map<nat, string>): (moods: seq<string>)
    requires forall j :: 0 <= j < |labels| ==> labels[j] in moodMapping
    ensures |moods| == |labels|
  {
    seq(|labels|, j requires 0 <= j < |labels| => moodMapping[labels[j]])
  }

  /** Every record with a `mood` entry holding the mood of its position. */
  function SetMoods(t: Table, moods: seq<string>): (r: map<string, Record>)
    requires t.WellFormed() && |moods| == |t.order|
    ensures r.Keys == t.rows.Keys
  {
    map n | n in t.rows :: t.rows[n]["mood" := StrV(moods[IndexOf(t.order, n)])]
  }

  /**
    The second loop of `_classify_mood`: the track at position `i` gets the
    mood of cluster `labels[i]`.
   */
  method AssignMoods(t: Table, labels: seq<nat>, moodMapping: map<nat, string>) returns (rows: map<string, Record>)
    requires t.WellFormed() && |labels| == |t.order|
    requires forall j :: 0 <= j < |labels| ==> labels[j] in moodMapping
    ensures rows == SetMoods(t, MoodsByPosition(labels, moodMapping))
  {
    rows := t.rows;
    for i := 0 to |t.order|
      invariant rows.Keys == t.rows.Keys
      invariant forall j :: 0 <= j < i ==> rows[t.order[j]] == t.rows[t.order[j]]["mood" := StrV(moodMapping[labels[j]])]
      invariant forall j :: i <= j < |t.order| ==> rows[t.order[j]] == t.rows[t.order[j]]
    {
      var name := t.order[i];
      var mood := moodMapping[labels[i]];
      assert forall j :: 0 <= j < |t.order| && j != i ==> t.order[j] != name;
      rows := rows[name := rows[name]["mood" := StrV(mood)]];
    }
    forall n | n in rows
      ensures rows[n] == SetMoods(t, MoodsByPosition(labels, moodMapping))[n]
    {
      var j := IndexOf(t.order, n);
      assert rows[t.order[j]] == t.rows[t.order[j]]["mood" := StrV(moodMapping[labels[j]])];
    }
  }

  /** The mood of every position. */
  function TrackMoods(t: Table, fit: seq<seq<real>> -> Clustering, stdOf: seq<real> -> real): (moods: seq<string>)
    requires MoodReady(t, fit)
    ensures |moods| == |t.order|
  {
    seq(|t.order|, i requires 0 <= i < |t.order| => TrackMood(t, fit, stdOf, i))
  }

  /** Every record with a `mood` entry holding its track's mood. */
  function MoodStage(t: Table, fit: seq<seq<real>> -> Clustering, stdOf: seq<real> -> real): map<string, Record>
    requires MoodReady(t, fit)
  {
    SetMoods(t, TrackMoods(t, fit, stdOf))
  }

  /** Tagging writes only `function`, which is not a feature: the feature vectors stay the same. */
  lemma TaggingKeepsFeatures(t: Table)
    requires t.WellFormed() && Featured(t)
    ensures Table(t.order, TagStage(t.rows)).WellFormed()
    ensures Featured(Table(t.order, TagStage(t.rows)))
    ensures FeatureMatrix(Table(t.order, TagStage(t.rows))) == FeatureMatrix(t)
  {
    var t' := Table(t.order, TagStage(t.rows));
    assert "function" !in FeatureNames;
    forall i | 0 <= i < |t.order|
      ensures HasFeatures(t'.rows[t.order[i]])
      ensures SelectedFeatures(t'.rows[t.order[i]]) == SelectedFeatures(t.rows[t.order[i]])
    {
      var n := t.order[i];
      assert forall j :: 0 <= j < |FeatureNames| ==> FeatureNames[j] != "function";
    }
  }

  /** The state after construction: tags first, then moods on the tagged records. */
  function Enriched(t: Table, fit: seq<seq<real>> -> Clustering, stdOf: seq<real> -> real): map<string, Record>
    requires MoodReady(t, fit)
  {
    TaggingKeepsFeatures(t);
    MoodStage(Table(t.order, TagStage(t.rows)), fit, stdOf)
  }

  /** `SetMoods` gives the record at position `i` the `i`-th mood and changes nothing else. */
  lemma SetMoodsAt(t: Table, moods: seq<string>)
    requires t.WellFormed() && |moods| == |t.order|
    ensures forall i :: 0 <= i < |t.order| ==>
      SetMoods(t, moods)[t.order[i]] == t.rows[t.order[i]]["mood" := StrV(moods[i])]
  {
    forall i | 0 <= i < |t.order|
      ensures SetMoods(t, moods)[t.order[i]] == t.rows[t.order[i]]["mood" := StrV(moods[i])]
    {
      IndexOfDistinct(t.order, i);
    }
  }

  /** The moods do not depend on the tags: tagging leaves the feature vectors as they were. */
  lemma TaggingKeepsMoods(t: Table, fit: seq<seq<real>> -> Clustering, stdOf: seq<real> -> real)
    requires MoodReady(t, fit)
    ensures MoodReady(Table(t.order, TagStage(t.rows)), fit)
    ensures TrackMoods(Table(t.order, TagStage(t.rows)), fit, stdOf) == TrackMoods(t, fit, stdOf)
  {
    TaggingKeepsFeatures(t);
  }

  /**
    After construction no track is added or removed, and the record at
    position `i` is the original one with its name's tags under `function`
    and its own cluster's mood under `mood`; no other entry changes.
   */
  lemma EnrichedShape(t: Table, fit: seq<seq<real>> -> Clustering, stdOf: seq<real> -> real)
    requires MoodReady(t, fit)
    ensures Enriched(t, fit, stdOf).Keys == t.rows.Keys
    ensures forall i :: 0 <= i < |t.order| ==>
      Enriched(t, fit, stdOf)[t.order[i]] ==
        t.rows[t.order[i]]["function" := TagsV(FunctionTags(t.order[i]))]["mood" := StrV(TrackMood(t, fit, stdOf, i))]
  {
    var t' := Table(t.order, TagStage(t.rows));
    TaggingKeepsMoods(t, fit, stdOf);
    SetMoodsAt(t', TrackMoods(t', fit, stdOf));
  }

  /** After construction every track has a `function` and a `mood` entry. */
  lemma EnrichedHasLabels(t: Table, fit: seq<seq<real>> -> Clustering, stdOf: seq<real> -> real)
    requires MoodReady(t, fit)
    ensures forall n :: n in Enriched(t, fit, stdOf) ==>
      "function" in Enriched(t, fit, stdOf)[n] && "mood" in Enriched(t, fit, stdOf)[n]
  {
    EnrichedShape(t, fit, stdOf);
    forall n | n in Enriched(t, fit, stdOf)
      ensures "function" in Enriched(t, fit, stdOf)[n] && "mood" in Enriched(t, fit, stdOf)[n]
    {
      var i := IndexOf(t.order, n);
    }
  }

  /** Tagging twice is tagging once. */
  lemma TagStageIdempotent(rows: map<string, Record>)
    ensures TagStage(TagStage(rows)) == TagStage(rows)
  {
    forall n | n in rows
      ensures Tagged(Tagged(rows[n], n), n) == Tagged(rows[n], n)
    {
      var tags := TagsV(FunctionTags(n));
      assert rows[n]["function" := tags]["function" := tags] == rows[n]["function" := tags];
    }
  }

  // ---------------------------------------------------------------------
  // The classifier object
  // ---------------------------------------------------------------------

  class OldAudioClassifier {
    /** The keys of `enriched_metadata`, in insertion order. */
    var order: seq<string>
    var enrichedMetadata: map<string, Record>

    ghost predicate Valid()
      reads this
    {
      Table(order, enrichedMetadata).WellFormed()
    }

    /** Every track has its `function` and `mood` entries. */
    ghost predicate Classified()
      reads this
    {
      forall n :: n in enrichedMetadata ==> "function" in enrichedMetadata[n] && "mood" in enrichedMetadata[n]
    }

    /** Copies the tracks, then tags them, then assigns their moods. */
    constructor (audioMetadata: Table, fit: seq<seq<real>> -> Clustering, stdOf: seq<real> -> real)
      requires MoodReady(audioMetadata, fit)
      ensures Valid() && Classified()
      ensures order == audioMetadata.order
      ensures enrichedMetadata == Enriched(audioMetadata, fit, stdOf)
    {
      order := audioMetadata.order;
      enrichedMetadata := audioMetadata.rows;
      new;
      ClassifyFunction();
      TaggingKeepsFeatures(audioMetadata);
      ClassifyMood(fit, stdOf);
      EnrichedHasLabels(audioMetadata, fit, stdOf);
    }

    /** `_classify_function`: store every track's tags under `function`. */
    method ClassifyFunction()
      requires Valid()
      modifies this
      ensures Valid() && order == old(order)
      ensures enrichedMetadata == TagStage(old(enrichedMetadata))
    {
      for i := 0 to |order|
        invariant order == old(order)
        invariant enrichedMetadata.Keys == old(enrichedMetadata).Keys
        invariant forall j :: 0 <= j < i ==>
          enrichedMetadata[order[j]] == Tagged(old(enrichedMetadata)[order[j]], order[j])
        invariant forall j :: i <= j < |order| ==> enrichedMetadata[order[j]] == old(enrichedMetadata)[order[j]]
      {
        var name := order[i];
        var trackFunctions := TrackFunctions(name);
        assert enrichedMetadata[name] == old(enrichedMetadata)[name];
        assert forall j :: 0 <= j < |order| && j != i ==> order[j] != name;
        enrichedMetadata := enrichedMetadata[name := enrichedMetadata[name]["function" := TagsV(trackFunctions)]];
      }
      forall n | n in enrichedMetadata
        ensures enrichedMetadata[n] == TagStage(old(enrichedMetadata))[n]
      {
        var j := IndexOf(order, n);
        assert enrichedMetadata[order[j]] == Tagged(old(enrichedMetadata)[order[j]], order[j]);
      }
    }

    /**
      `_classify_mood`: build the feature vectors in key order, cluster them,
      map the clusters to moods and give each track its cluster's mood.
     */
    method ClassifyMood(fit: seq<seq<real>> -> Clustering, stdOf: seq<real> -> real)
      requires MoodReady(Table(order, enrichedMetadata), fit)
      modifies this
      ensures order == old(order)
      ensures enrichedMetadata == MoodStage(old(Table(order, enrichedMetadata)), fit, stdOf)
    {
      var featureVectors := FeatureVectors();
      var clustering := fit(featureVectors);
      var moodMapping := MapClustersToMoods(clustering.means, featureVectors, stdOf);
      var t := Table(order, enrichedMetadata);
      assert |clustering.labels| == |order|;
      assert MoodsByPosition(clustering.labels, moodMapping) == TrackMoods(t, fit, stdOf);
      enrichedMetadata := AssignMoods(t, clustering.labels, moodMapping);
    }

    /** The first loop of `_classify_mood`: every track's feature vector, in key order. */
    method FeatureVectors() returns (featureVectors: seq<seq<real>>)
      requires Featured(Table(order, enrichedMetadata))
      ensures featureVectors == FeatureMatrix(Table(order, enrichedMetadata))
    {
      featureVectors := [];
      for i := 0 to |order|
        invariant |featureVectors| == i
        invariant forall j :: 0 <= j < i ==> featureVectors[j] == SelectedFeatures(enrichedMetadata[order[j]])
      {
        featureVectors := featureVectors + [SelectedFeatures(enrichedMetadata[order[i]])];
      }
    }

    /** `get_features`: every track's `[mood, function]`. */
    method GetFeatures() returns (features: map<string, seq<Value>>)
      requires Valid() && Classified()
      ensures features.Keys == enrichedMetadata.Keys
      ensures forall n :: n in features ==>
        features[n] == [enrichedMetadata[n]["mood"], enrichedMetadata[n]["function"]]
    {
      features := map[];
      for i := 0 to |order|
        invariant forall n :: n in features <==> n in order[..i]
        invariant forall n :: n in features ==>
          features[n] == [enrichedMetadata[n]["mood"], enrichedMetadata[n]["function"]]
      {
        var name := order[i];
        features := features[name := [enrichedMetadata[name]["mood"], enrichedMetadata[name]["function"]]];
      }
      assert order[..|order|] == order;
    }
  }
}
