/**
  The older copy of the pipeline (src/pipeline.py), whose
  `_create_text_description` repeats the template of mir/pipeline.py
  line for line.
 */
module SrcPipeline {
  import opened PyValues
  import MirPipeline

  /** `_create_text_description(name, metadata)` of src/pipeline.py. */
  function CreateTextDescription(name: string, metadata: Record, averages: Record, show: Value -> string): string
    requires MirPipeline.Describable(metadata, averages)
  {
    Join([ "This track is named ", name, ".This is a ", Str(metadata[MirPipeline.MoodKey], show), " ",
           Str(metadata[MirPipeline.FunctionKey], show), " track in ", Str(metadata[MirPipeline.KeyKey], show),
           " with a tempo of ", Str(metadata[MirPipeline.TempoKey], show), " BPM. It has ",
           MirPipeline.EnergyWord(metadata, averages), " energy and ", MirPipeline.ComplexityWord(metadata, averages),
           " structure. The track features ", MirPipeline.BassWord(metadata, averages), " bass and ",
           MirPipeline.TrebleWord(metadata, averages), " treble characteristics.\n" ])
  }

  /**
    Both copies give the same text, so it opens with the name followed by
    ".This is a", closes with " treble characteristics." and a newline, and
    uses the same strict comparisons.
   */
  lemma SameAsMirDescription(name: string, metadata: Record, averages: Record, show: Value -> string)
    requires MirPipeline.Describable(metadata, averages)
    ensures CreateTextDescription(name, metadata, averages, show)
      == MirPipeline.CreateTextDescription(name, metadata, averages, show)
    ensures StartsWith(CreateTextDescription(name, metadata, averages, show), "This track is named " + name + ".This is a ")
    ensures EndsWith(CreateTextDescription(name, metadata, averages, show), " treble characteristics.\n")
  {
    MirPipeline.DescriptionBegins(name, metadata, averages, show);
    MirPipeline.DescriptionEnds(name, metadata, averages, show);
  }
}
