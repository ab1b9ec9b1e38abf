# mair.io metadata enrichment, modelled in Dafny

This project models the metadata-enrichment layer of mair.io. That layer
sits between audio feature extraction and the chat front end. It:

- estimates each track's key with the Krumhansl-Schmuckler algorithm;
- summarises the spectral contrast and MFCC profiles by sub-range means;
- tags each track with in-game functions derived from its name;
- clusters the tracks and names each cluster with a mood;
- validates a track record against the pydantic schema;
- builds a catalog with a templated text description per track.

Modules, one per source file (plus small shared modules):

| module | models |
|---|---|
| `Wrappers` | `Option` and `Result` |
| `PyValues` | Python values in feature dictionaries, insertion-ordered dicts (`Table`), `lower()`, `in` on strings, `str()` of an int, f-strings as joined pieces |
| `Stats` | sums and means over reals |
| `Process` | src/process.py: sub-range means and `_detect_key` |
| `OldClassify` | src/old_classify.py: `OldAudioClassifier` as a class over its `enriched_metadata` dict |
| `MetadataModel` | mir/metadata_model.py: `AudioMetadata` as a field schema, validation, `get_schema_descriptions` and `AudioMetadataCollection` |
| `MirPipeline` | mir/pipeline.py: `_create_text_description` and the in-memory catalog of `create_metadata_json` |
| `SrcPipeline` | src/pipeline.py: the duplicate `_create_text_description` |

Things that the environment provides are parameters of the model:

- the Pearson correlation with its rounding: `Score`;
- the StandardScaler and GaussianMixture fit: `fit`, returning cluster labels and centroids;
- `np.std`: `stdOf`;
- `str()` of floats, sets and lists: `show`;
- the corpus averages: `averages`.

Every property holds for any choice of these parameters that meets the conditions stated under "## Left out": the fit keeps its contract (one label per track, below six, and six 13-slot centroids), and `MoodFollowsEnergy` also needs a non-negative energy deviation from `stdOf`.

Where the code and the written design of the system differ, the model follows the code:

- The tag vocabulary has no `hurry` tag.
- Mood clustering uses a 13-slot feature vector and six mixture components. The moods are intense, energetic, triumphant, mysterious and balanced.
- The exploratory fields (`beat_times`, `beat_strength`, `tempo_scores`, `tempo_structure`, `chroma_mean`) are optional schema fields that default to `None`. They are not excluded from the schema.
- A collection with one invalid record fails as a whole. Invalid records are not skipped one by one.
- A chromagram with constant totals raises no error in `_detect_key`.
- The catalog file is always overwritten. There is no cache that is loaded when present.

## Model

| member | source | states |
|---|---|---|
| `Process.BassContrast` | src/process.py:61 | definition: `bass_contrast`, the mean of bands 0-2; related to the other ranges by `ContrastRangesPartition` |
| `Process.TrebleContrast` | src/process.py:62 | definition: `treble_contrast`, the mean of bands 3 to the last; see `ContrastRangesPartition` |
| `Process.ComplexityScore` | src/process.py:92 | definition: `complexity_score`, the mean of all bands; see `ContrastRangesPartition` |
| `Process.LowMfcc` | src/process.py:76 | definition: `low_mfcc`, the mean of coefficients 0-3; see `MfccRangesPartition` |
| `Process.MidMfcc` | src/process.py:77 | definition: `mid_mfcc`, the mean of coefficients 4-8; see `MfccRangesPartition` |
| `Process.HighMfcc` | src/process.py:78 | definition: `high_mfcc`, the mean of coefficients 9-12; see `MfccRangesPartition` |
| `Process.ContrastRangesPartition` | src/process.py:61-62 | bands 0-2 (bass) and bands 3 to the end (treble) split the contrast bands with no overlap or gap; the complexity score (line 92) is their mean weighted by band count |
| `Process.MfccRangesPartition` | src/process.py:76-78 | coefficients 0-3, 4-8 and 9-12 split the 13 MFCCs with no overlap or gap; weighted 4/5/4 they give the overall mean |
| `Process.RowSums` | src/process.py:127 | the totals are 12 values, one per pitch-class row |
| `Process.PitchLookup` | src/process.py:129 | looking pitch `p` up in `key_freq` gives total `p` |
| `Process.PitchTable` | src/process.py:129 | definition: `key_freq`, the totals keyed by pitch name; `PitchLookup` states its lookups |
| `Process.KeyNames` | src/process.py:130-132 | there are 24 candidate names |
| `Process.KeyNamesLayout` | src/process.py:130-132 | candidate `i` is `"{pitch i} Major"` and candidate `i + 12` is `"{pitch i} Minor"`: all majors come before all minors |
| `Process.KeyNamesDistinct` | src/process.py:130-132 | the 24 names are pairwise distinct, so no `key_dict` entry overwrites another |
| `Process.Rotation` | src/process.py:167-168 | the rotation for tonic `i` has 12 entries |
| `Process.Candidate` | src/process.py:168 | `estimated_key` for tonic `i` has 12 entries, read through `key_freq` from the tonic upwards; `CandidateIsRotation` states its contents |
| `Process.CandidateIsRotation` | src/process.py:167-168 | the candidate for tonic `i`, read through the name-keyed table, holds at position `m` the total of pitch `(i + m) mod 12`; position 0 is the tonic itself |
| `Process.ScoreTable` | src/process.py:169-179 | the key table has 24 scores |
| `Process.Correlations` | src/process.py:164-174 | after the loop over the twelve tonics, entry `t` of each list is the score of rotation `t` against that list's profile |
| `Process.ScoreTableIs` | src/process.py:169-179 | major tonic `i` is scored against the major profile at index `i`; minor tonic `i` against the minor profile at index `i + 12` |
| `Process.FirstMax` | src/process.py:181 | the index is a maximum, and every earlier entry is strictly smaller (Python `max` keeps the first of equal keys) |
| `Process.FirstMaxUnique` | src/process.py:181 | the first maximum is unique |
| `Process.MaxKey` | src/process.py:181 | the scan over `key_dict` ends at the first maximal score |
| `Process.EstimateKey` | src/process.py:127-182 | definition: the key `_detect_key` returns, the name at the first maximum of the score table; properties in `EstimateKeyIsFirstBest`, `MajorWinsTie` and `EstimateKeyTransposes` |
| `Process.DetectKey` | src/process.py:126-182 | the result is the first key of maximal score in the 24-entry table; it depends only on the 12 row sums and is one of the 24 names |
| `Process.KeyOfScores` | src/process.py:181-182 | the first maximum of the score table names `EstimateKey`'s key |
| `Process.EstimateKeyIsFirstBest` | src/process.py:181 | the estimate is one of the 24 names; its score is at least every candidate's, and strictly above every earlier candidate's |
| `Process.MajorWinsTie` | src/process.py:176-181 | when a major and a minor key tie on the maximal score, the minor is not chosen |
| `Process.ShiftKey` | src/process.py:167-168 | shifting a candidate stays among the 24 and keeps its mode |
| `Process.ScoreTableOfTransposed` | src/process.py:167-173 | transposing the totals by `k` moves each mode's score from tonic `i` to tonic `i + k` |
| `Process.ShiftKeyInjective` | src/process.py:167-168 | the shift is one-to-one on the candidates |
| `Process.ShiftKeyOnto` | src/process.py:167-168 | every candidate is the shift of some candidate |
| `Process.EstimateKeyTransposes` | src/process.py:167-181 | when one candidate strictly beats all others, transposing by `k` moves the estimate to the key of the same mode whose tonic is `k` semitones higher |
| `OldClassify.FunctionTags` | src/old_classify.py:83-92 | definition: the tags of the keyword table whose keyword occurs in the lowercased name; properties in `FunctionTagsByKeyword` |
| `OldClassify.TagsOfLowered` | src/old_classify.py:85-92 | definition: the four `if` tests as one set; equal to `FunctionTags` by `FunctionTagsAsTests` |
| `OldClassify.FunctionTagsByKeyword` | src/old_classify.py:85-92 | `victory` iff the lowercased name contains "complete"; `game_over` iff it contains "game_over" or "lost_life"; `background` iff "theme"; `effect` iff "effect"; no tag outside these four |
| `OldClassify.FunctionTagsAsTests` | src/old_classify.py:84-92 | the keyword table gives the same set as the four `if` tests on the lowercased name |
| `OldClassify.TrackFunctions` | src/old_classify.py:83-92 | the loop body builds exactly the tags of the name |
| `OldClassify.UnmatchedNameHasNoTags` | src/old_classify.py:84-95 | a name that matches no keyword gets the empty set (there is no default tag) |
| `OldClassify.TagStageIdempotent` | src/old_classify.py:83-97 | tagging depends only on the name, so tagging twice is tagging once |
| `OldClassify.SelectedFeatures` | src/old_classify.py:99-116 | the feature vector has 13 slots |
| `OldClassify.FeatureSlots` | src/old_classify.py:99-116 | slots 0, 2, 10 and 11 are tempo, energy_mean, complexity_score and tonal_stability, which the mood rules read |
| `OldClassify.FeatureMatrix` | src/old_classify.py:34-37 | one 13-slot vector per track, in key order |
| `OldClassify.IntenseRule` | src/old_classify.py:133 | definition: energy above mean plus deviation, and tempo above 140 |
| `OldClassify.EnergeticRule` | src/old_classify.py:135-139 | definition: energy and complexity above their means, and tempo above 120 |
| `OldClassify.TriumphantRule` | src/old_classify.py:141-144 | definition: tonal stability above mean plus deviation, and energy above its mean |
| `OldClassify.MysteriousRule` | src/old_classify.py:146-149 | definition: energy below mean minus deviation, and complexity below its mean |
| `OldClassify.MoodOf` | src/old_classify.py:133-152 | definition: the first rule that holds, in the order intense, energetic, triumphant, mysterious, else balanced; properties in `MoodFollowsEnergy` and `SlowIsNeverEnergetic`, and `MapClustersToMoods` is proved against it |
| `OldClassify.MoodName` | src/old_classify.py:134-152 | definition: the string stored for each mood; `MoodNamesDistinct` |
| `OldClassify.MoodNamesDistinct` | src/old_classify.py:133-152 | the five mood names are distinct |
| `OldClassify.MapClustersToMoods` | src/old_classify.py:118-156 | every cluster index gets exactly one mood: the first rule that matches, in the order intense, energetic, triumphant, mysterious, balanced, against the feature means and deviations |
| `OldClassify.MoodFollowsEnergy` | src/old_classify.py:133-152 | with a non-negative energy deviation, a centroid at or below the mean energy is mysterious or balanced; one at or above it is never mysterious |
| `OldClassify.SlowIsNeverEnergetic` | src/old_classify.py:133-140 | at or below 120 BPM a centroid is neither intense nor energetic |
| `OldClassify.TrackMood` | src/old_classify.py:44-50 | definition: the mood of the cluster that the fit gives the track at position `i` |
| `OldClassify.Tagged` | src/old_classify.py:97 | definition: the record with its name's tags under `function` |
| `OldClassify.MoodStage` | src/old_classify.py:33-50 | definition: every record with its own position's mood under `mood`; `ClassifyMood` is proved against it |
| `OldClassify.Enriched` | src/old_classify.py:13-16 | definition: the tagging stage, then the mood stage on the tagged records; properties in `EnrichedShape` and `EnrichedHasLabels` |
| `OldClassify.MoodsByPosition` | src/old_classify.py:45-48 | one mood per cluster label |
| `OldClassify.AssignMoods` | src/old_classify.py:45-50 | each track's `mood` becomes the mood of its own cluster label; nothing else in any record changes |
| `OldClassify.SetMoodsAt` | src/old_classify.py:45-50 | the record at position `i` gets the `i`-th mood and is otherwise unchanged |
| `OldClassify.TaggingKeepsFeatures` | src/old_classify.py:97-116 | writing `function` leaves every feature vector as it was |
| `OldClassify.TaggingKeepsMoods` | src/old_classify.py:15-16 | the moods are the same whether or not the tracks were tagged first |
| `OldClassify.EnrichedShape` | src/old_classify.py:13-16 | after construction no track is added or removed; each record is the original with its name's tags under `function` and its cluster's mood under `mood`, and no other entry changes |
| `OldClassify.EnrichedHasLabels` | src/old_classify.py:13-16 | after construction every track has `function` and `mood` entries |
| `OldClassify.TagStage` | src/old_classify.py:83-97 | tagging keeps the set of tracks |
| `OldClassify.SetMoods` | src/old_classify.py:45-50 | assigning moods keeps the set of tracks |
| `OldClassify.TrackMoods` | src/old_classify.py:45-50 | one mood per track |
| `OldClassify.FeatureMeans` | src/old_classify.py:122 | one mean per feature slot |
| `OldClassify.FeatureStds` | src/old_classify.py:123 | one deviation per feature slot |
| `OldClassify.OldAudioClassifier.constructor` | src/old_classify.py:11-16 | the classifier holds the tracks in their order, tagged and then given moods, and every track is classified |
| `OldClassify.OldAudioClassifier.ClassifyFunction` | src/old_classify.py:52-97 | every record gets its name's tags under `function`; the keys and their order are unchanged |
| `OldClassify.OldAudioClassifier.ClassifyMood` | src/old_classify.py:33-50 | every record gets the mood of its cluster; the keys and their order are unchanged |
| `OldClassify.OldAudioClassifier.FeatureVectors` | src/old_classify.py:34-37 | the feature vectors of the tracks, in key order |
| `OldClassify.OldAudioClassifier.GetFeatures` | src/old_classify.py:24-31 | for every track, and only those, the pair `[mood, function]` |
| `MetadataModel.Name` | mir/metadata_model.py:18-187 | definition: the key of each declared field; `NamesInjective` |
| `MetadataModel.FieldOf` | mir/metadata_model.py:18-187 | definition: the declared field of a key, if any; the inverse of `Name` by `FieldOfName` |
| `MetadataModel.Spec` | mir/metadata_model.py:18-187 | definition: each field's type, inclusive `ge`/`le` bounds and default, as declared; `AcceptedMeansValid` and `ValidMeansAccepted` compare it with `Valid` |
| `MetadataModel.FieldText` | mir/metadata_model.py:18-187 | definition: the text each field passes to `Field(...)` |
| `MetadataModel.DescriptionOf` | mir/metadata_model.py:18-187 | definition: the `description=` of each field, absent for `function` and `description`; `DescribedFields` |
| `MetadataModel.Valid` | mir/metadata_model.py:18-141 | definition: the bounds written out field by field, the reference that `SchemaMeansValid` ties to the schema |
| `MetadataModel.Accepts` | mir/metadata_model.py:14-187 | definition: lax-mode acceptance of a value by a field, bounds included |
| `MetadataModel.Coerce` | mir/metadata_model.py:14-187 | definition: the value an accepted input is stored as; `CoerceTyped` |
| `MetadataModel.FieldOk` | mir/metadata_model.py:14-187 | definition: a field is present and accepted, or absent with a default |
| `MetadataModel.Input` | mir/metadata_model.py:14-187 | definition: the stored value of a field that validates; `InputAccepted` |
| `MetadataModel.Errors` | mir/metadata_model.py:14-187 | definition: the names of the fields that fail; `MissingRequiredFails` and `ExtraKeysIgnored` |
| `MetadataModel.FieldOfName` | mir/metadata_model.py:18-187 | each field is found again from its key |
| `MetadataModel.NamesInjective` | mir/metadata_model.py:18-187 | distinct fields have distinct keys |
| `MetadataModel.SchemaCovers` | mir/metadata_model.py:18-187 | every field is in the declaration list |
| `MetadataModel.SchemaComplete` | mir/metadata_model.py:18-187 | the declaration list holds every field |
| `MetadataModel.DefaultedFieldsExactly` | mir/metadata_model.py:148-187 | a field has a default exactly when it is `function`, `description` or one of the five exploratory fields |
| `MetadataModel.NoErrorsFieldsOk` | mir/metadata_model.py:14-187 | with no errors, every field validates |
| `MetadataModel.Build` | mir/metadata_model.py:14-187 | the record holds every field, each with its validated value |
| `MetadataModel.Validate` | mir/metadata_model.py:14-187 | definition: `AudioMetadata(**raw)`, the record or the failing field names; properties in `ValidateSound`, `ValidateRoundTrip`, `DumpFails`, `MissingRequiredFails` and `OmittedFieldTakesDefault` |
| `MetadataModel.ToRaw` | mir/metadata_model.py:14-187 | definition: every field's value under its key, the inverse partner of `Validate` in `ValidateRoundTrip` |
| `MetadataModel.InputAccepted` | mir/metadata_model.py:14-187 | a stored value is accepted by its field and has the field's type |
| `MetadataModel.CoerceTyped` | mir/metadata_model.py:14-187 | a value that already has the field's type is stored unchanged |
| `MetadataModel.AcceptedMeansValid` | mir/metadata_model.py:18-141 | a record that every field accepts keeps the inclusive bounds: sampling_rate in [8000, 48000], tempo in [50, 300], rhythm_regularity in [1, 15], spectral_centroid_mean in [50, 3000], bass_contrast in [10, 30], treble_contrast in [5, 40], energy_mean and energy_std in [0, 1], zero_crossing_rate_mean in [0, 0.5], low_mfcc at most 0, mfcc_spread at least 0, complexity_score in [10, 40], tonal_stability in [0, 0.5] |
| `MetadataModel.ValidMeansAccepted` | mir/metadata_model.py:18-141 | conversely, a well-typed record within those bounds is accepted by every field |
| `MetadataModel.SchemaMeansValid` | mir/metadata_model.py:18-141 | for a well-typed record, the bounds hold iff every field accepts its value; the other fields have no bound |
| `MetadataModel.ValidateSound` | mir/metadata_model.py:14-187 | a record that validates has every field, each of its type, within the bounds |
| `MetadataModel.ToRawLookup` | mir/metadata_model.py:14-187 | the dump holds each field's value under the field's key |
| `MetadataModel.DumpedFieldOk` | mir/metadata_model.py:14-187 | a dumped field validates iff its field accepts the stored value, and is then stored unchanged |
| `MetadataModel.DumpFieldsOk` | mir/metadata_model.py:14-187 | every field of a valid record's dump validates and keeps its value |
| `MetadataModel.DumpHasNoErrors` | mir/metadata_model.py:14-187 | the dump of a valid record has no errors |
| `MetadataModel.BuildOfDump` | mir/metadata_model.py:14-187 | building from the dump of a valid record gives the record back |
| `MetadataModel.DumpValidates` | mir/metadata_model.py:14-187 | the dump of a valid record validates to that same record |
| `MetadataModel.DumpFails` | mir/metadata_model.py:14-187 | the dump of a record with one out-of-bounds field does not validate |
| `MetadataModel.ValidateRoundTrip` | mir/metadata_model.py:14-187 | a well-typed record's dump validates iff the record keeps the bounds, and it then validates to the record itself |
| `MetadataModel.MissingRequiredFails` | mir/metadata_model.py:18-147 | omitting a field without a default fails validation and names that field |
| `MetadataModel.OmittedFieldTakesDefault` | mir/metadata_model.py:148-187 | the seven defaulted fields may be omitted; a validated record then holds their default (the text given as `Field`'s first argument for `function` and `description`, `None` for the others) |
| `MetadataModel.ExtraKeysIgnored` | mir/metadata_model.py:14-15 | a key that is not a declared field changes neither the result nor the errors |
| `MetadataModel.DescribedFields` | mir/metadata_model.py:148-156 | exactly `function` and `description` have no description, because their text is a default |
| `PyValues.FillWhere` | mir/metadata_model.py:7-10 | the loop over the schema's properties: a key is in the dict exactly when its item passes the test, it holds that item's value, and the keys are inserted in list order |
| `MetadataModel.SchemaDescriptionOrder` | mir/metadata_model.py:5-11 | the described keys, in declaration order, are the first twenty fields' keys followed by the five exploratory fields' keys |
| `MetadataModel.GetSchemaDescriptions` | mir/metadata_model.py:5-11 | the result maps each field's key to its description for exactly the fields that have one, which is every field but `function` and `description`; it has no other key; its keys are inserted in declaration order |
| `MetadataModel.AudioMetadataCollection.GetItem` | mir/metadata_model.py:196-197 | `c[k]` finds the stored record exactly for the stored names |
| `MetadataModel.AudioMetadataCollection.Keys` | mir/metadata_model.py:202-204 | `keys()` is exactly the names that `c[k]` finds |
| `MetadataModel.AudioMetadataCollection.Items` | mir/metadata_model.py:199-200 | `items()` is exactly the pairs `(k, c[k])` |
| `MetadataModel.FailingEntries` | mir/metadata_model.py:190-194 | definition: the names whose record does not validate |
| `MetadataModel.ValidateCollection` | mir/metadata_model.py:190-194 | definition: the collection of validated records, or the failing names; properties in `ValidateCollectionAllOrNothing` |
| `MetadataModel.ValidateCollectionAllOrNothing` | mir/metadata_model.py:190-194 | the collection validates iff every entry does; it then holds each entry's validated, in-bounds record under the same name; otherwise its errors are exactly the failing names |
| `MirPipeline.EnergyWord` | mir/pipeline.py:41 | definition: "high" when `energy_mean` is strictly above its average, else "low" |
| `MirPipeline.ComplexityWord` | mir/pipeline.py:42 | definition: "complex" when `complexity_score` is strictly above its average, else "simple" |
| `MirPipeline.BassWord` | mir/pipeline.py:43 | definition: "strong" when `bass_contrast` is strictly above its average, else "subtle" |
| `MirPipeline.TrebleWord` | mir/pipeline.py:44 | definition: "bright" when `treble_contrast` is strictly above its average, else "warm" |
| `MirPipeline.CreateTextDescription` | mir/pipeline.py:36-46 | definition: `_create_text_description`, the pieces of the f-string joined; properties in `DescriptionBegins`, `DescriptionEnds`, `DescriptionOrder`, `DescriptionWordsOrder` and `DescriptionRevealsComparisons` |
| `MirPipeline.DescriptionPieces` | mir/pipeline.py:37-45 | the f-string has 19 pieces |
| `MirPipeline.DescriptionBegins` | mir/pipeline.py:38-39 | the description starts with "This track is named {name}." followed by "This is a " with no space in between |
| `MirPipeline.DescriptionEnds` | mir/pipeline.py:44 | the description ends with " treble characteristics." and a newline |
| `MirPipeline.DescriptionOrder` | mir/pipeline.py:37-45 | name, mood, function, key and tempo occur in that order, each separated from the previous by literal text |
| `MirPipeline.DescriptionWordsOrder` | mir/pipeline.py:40-44 | after the tempo come the energy, complexity, bass and treble words, in that order |
| `MirPipeline.DescriptionRevealsComparisons` | mir/pipeline.py:41-44 | for the same name and shown features, two descriptions are equal iff the four strict comparisons come out the same: energy is judged on energy_mean, complexity on complexity_score, bass on bass_contrast and treble on treble_contrast |
| `MirPipeline.AtAverageReadsLow` | mir/pipeline.py:41-44 | the comparisons are strict: a track at the averages reads low, simple, subtle and warm |
| `MirPipeline.KeepScalars` | mir/pipeline.py:19-24 | definition: the features other than `waveform` whose value is an int, float or str; `KeepScalarsIdempotent` |
| `MirPipeline.TrackEntry` | mir/pipeline.py:19-28 | definition: the kept features plus the description; `EntryFields`, `EntryIsFlat` |
| `MirPipeline.CatalogRows` | mir/pipeline.py:17-29 | definition: the entries inserted after visiting some tracks in order; `CatalogRowsLookup` |
| `MirPipeline.TrackData` | mir/pipeline.py:19-28 | the inner loop yields the track's entry |
| `MirPipeline.CatalogRowsLookup` | mir/pipeline.py:17-29 | after visiting some tracks, the catalog has an entry for exactly those tracks, each built from that track's own record |
| `MirPipeline.CreateMetadataJson` | mir/pipeline.py:17-29 | the catalog lists the tracks in their order, one entry per track |
| `MirPipeline.CatalogShape` | mir/pipeline.py:17-29 | the catalog has the same key set as the input, and each track's entry is built from that same track's record |
| `MirPipeline.EntryFields` | mir/pipeline.py:19-28 | an entry holds `description`, set to the track's own description, and otherwise exactly the features other than `waveform` whose value is an int, float or str, unchanged |
| `MirPipeline.EntryIsFlat` | mir/pipeline.py:20-28 | every value in an entry is an int, float or str |
| `MirPipeline.TagSetDropped` | mir/pipeline.py:20-28 | a set of function tags is not kept in the entry, but its shown text occurs in the entry's description |
| `MirPipeline.KeepScalarsIdempotent` | mir/pipeline.py:20-24 | filtering an entry's features again changes nothing |
| `SrcPipeline.CreateTextDescription` | src/pipeline.py:16-26 | definition: the older copy of the template, written out piece by piece; `SameAsMirDescription` |
| `SrcPipeline.SameAsMirDescription` | src/pipeline.py:16-26 | the older copy gives the same text as mir/pipeline.py; it starts with the name followed directly by "This is a " and ends with " treble characteristics." and a newline |

## Left out

- Floating point: values are reals. Rounding, NaN (the correlation of a constant chromagram) and infinities are not modelled. The correlation is the `Score` parameter.
- The StandardScaler and GaussianMixture fit (src/old_classify.py:39-42) is the `fit` parameter. Its contract is one label per track below six, and six 13-slot centroids.
- The centroids come from scaled space but are compared with raw means and with 140 and 120 BPM. This is modelled as written.
- `np.std` is the `stdOf` parameter. Nothing is assumed of it, except that `MoodFollowsEnergy` needs its energy deviation to be at least 0, as a standard deviation is. `str()` of floats, sets and lists is the `show` parameter.
- Feature extraction with librosa and file loading (src/process.py:25-124) are not modelled. Only the sub-range means at lines 61-62, 76-78 and 92 and `_detect_key` are.
- The corpus averages are a parameter. mir/process.py is not part of this model.
- Writing the catalog file (mir/pipeline.py:31-32) is not modelled. The model ends with the in-memory dict.
- `print_features`, `print_descriptions`, `tqdm` and logging are output only.
- `AudioMetadataCollection.values` is left out. It reads `self.__root__`, which a pydantic v2 `RootModel` does not have, so it raises `AttributeError`.
- `src/pipeline.py` `create_metadata_json` is left out. Its body is `pass` and it returns `None`.
- The `AudioPipeline` of src/pipeline.py cannot be constructed: line 10 reads `self.processor.metadata_averages`, which src/process.py's `AudioProcessor` never sets, and src/classify.py's `AudioClassifier.__init__` takes no `metadata_averages` argument. Its `_create_text_description`, modelled by `SrcPipeline.CreateTextDescription`, runs only when called on its own, with the averages supplied.
- `lower()` folds only ASCII letters.
- pydantic's coercion of numeric strings (`"5"` to 5) and of bools is not modelled.
- The model rejects a numpy array (`ArrayV`) for the `List[float]` fields, as pydantic v2 does in lax mode, where a list field takes only Python's list-like built-ins. The extractor passes these fields through `.tolist()`, so they arrive as lists.
- Defaults are not validated, as in pydantic.
- Errors are reported as the set of failing field names. pydantic's error messages are not modelled.
- Each record is an immutable value. `audio_metadata.copy()` is shallow, so in Python the classifier also changes the caller's inner dicts. This aliasing is not modelled.
- Inside one record, the insertion order of keys is not kept: records are maps. The order of tracks is kept by the classifier (`order`) and by the catalog (`Table`); the collection is a map and keeps none.
- `MetadataModel.AudioMetadataCollection.Keys`: returns a set, so the insertion order of Python's `keys()` is lost.
- `MetadataModel.AudioMetadataCollection.Items`: returns a set, so the insertion order of Python's `items()` is lost.
- `OldClassify.OldAudioClassifier.GetFeatures`: returns a map, so the dict's key order, which is the classifier's `order`, is not part of the result.
- Missing keys that the source reads without a check (`KeyError`) are preconditions. These are the four shown and four compared features of the description, the 13 feature slots and the 12 chroma rows. The same applies to comparing a non-number (`TypeError`) and to fitting six components to fewer than six tracks.
- `MirPipeline.AtAverageReadsLow`: states the four words chosen at the averages, not the whole text. `MirPipeline.DescriptionWordsOrder` places those words in the text.
