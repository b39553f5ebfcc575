/**
 * The `transcribe` command (cli.py): it parses its comma-separated options, then runs the same stages as
 * `run_pipeline` with two differences: route A never takes the tempo of the export's metadata, and an empty
 * selection ends the command with exit code 1 instead of raising `ValueError`. The renaming, filter and
 * analysis-stem helpers of cli.py are the same code as those of pipeline.py and are shared with the
 * `Pipeline` module.
 */
module Cli {
  import opened Outcome
  import opened Assoc
  import opened Strings
  import opened Router
  import SunoImporter
  import Exporter
  import opened Pipeline
  import opened CliOptions

  // ---------------------------------------------------------------------------------------------------------
  // The command

  /** What the command prints at the end: tempo, key, time signature and one line per written file. */
  datatype Printed = Printed(tempo: real, key: string, timeSignature: int, outputFiles: Dict<Exporter.FilePath>)

  /** The stems and analysis by route; route A keeps the analysed tempo. */
  function CliStems(inputPath: string, outputDir: string, preset: GenrePreset, w: World): Result<Prepared>
  {
    var route :- RouteInput(inputPath, Facts(w));
    match route
    case RouteB =>
      var analysis :- w.analyze(inputPath);
      var stems :- w.separate(inputPath, JoinPath(outputDir, "stems"), preset.stage1Model);
      Ok(Prepared(RouteB, analysis, PutAll(RouteBEntries(stems))))
    case RouteA =>
      var stems :- SunoImporter.ImportedStems(JoinPath(inputPath, "stems"), w.stemsDirExists, w.metadata, w.wavFiles);
      var analysisPath :- SelectAnalysisStem(stems);
      var analysis :- w.analyze(analysisPath);
      Ok(Prepared(RouteA, analysis, stems))
  }

  /** `transcribe(input_path, output_dir, parts, genre, format)` */
  function Transcribe(inputPath: string, outputDir: string, parts: string, genre: string, format: string, w: World)
    : Result<Printed>
  {
    var requested := ParseList(parts);
    var formats := ParseList(format);
    var preset := ResolveGenre(genre);
    var prepared :- CliStems(inputPath, outputDir, preset, w);
    var filtered := FilterParts(prepared.stems, requested);
    if filtered == [] then Err(Exit(1))
    else
      var summary :- Finish(Prepared(prepared.route, prepared.analysis, filtered), preset, outputDir, formats,
                            w.transcribers);
      Ok(Printed(summary.tempo, summary.key, summary.timeSignature, summary.outputFiles))
  }

  /**
   * The metadata as the command's route A sees it: the importer still reads it, so a read error stays, but
   * readable metadata counts as none, since no tempo is taken from it.
   */
  function TempoDropped(m: Metadata): (r: Metadata)
    ensures m.Unreadable? ==> r == m
    ensures !m.Unreadable? ==> ReadSunoTempo(r) == Ok(None) && !r.Unreadable?
  {
    if m.Unreadable? then m else SunoImporter.Missing
  }

  /**
   * The command prepares the stems as the pipeline does for an export whose readable `metadata.json` is
   * removed; an unreadable one fails both in the importer.
   */
  lemma CliStemsIgnoreMetadata(inputPath: string, outputDir: string, preset: GenrePreset, w: World)
    ensures CliStems(inputPath, outputDir, preset, w) ==
      RoutedStems(inputPath, outputDir, preset, w.(metadata := TempoDropped(w.metadata)))
    ensures CliStems(inputPath, outputDir, preset, w).Ok? && CliStems(inputPath, outputDir, preset, w).value.route == RouteA ==>
      var stems := SunoImporter.ImportedStems(JoinPath(inputPath, "stems"), w.stemsDirExists, w.metadata, w.wavFiles).value;
      CliStems(inputPath, outputDir, preset, w).value.analysis == w.analyze(SelectAnalysisStem(stems).value).value
  {
    var w' := w.(metadata := TempoDropped(w.metadata));
    assert Facts(w') == Facts(w);
    if !w.metadata.Unreadable? {
      SunoImporter.ReadableMetadataIgnored(JoinPath(inputPath, "stems"), w.stemsDirExists, w.metadata, w'.metadata,
                                           w.wavFiles);
    }
  }

  /** With nothing left after filtering the command exits with code 1, before any transcription. */
  lemma EmptySelectionExits(inputPath: string, outputDir: string, parts: string, genre: string, format: string, w: World)
    requires CliStems(inputPath, outputDir, ResolveGenre(genre), w).Ok?
    requires FilterParts(CliStems(inputPath, outputDir, ResolveGenre(genre), w).value.stems, ParseList(parts)) == []
    ensures Transcribe(inputPath, outputDir, parts, genre, format, w) == Err(Exit(1))
  {
  }

  /**
   * The command and `run_pipeline`, given the parsed options and the world without readable Suno metadata,
   * succeed together and then print what the pipeline returns; where the pipeline raises `ValueError` for an
   * empty selection, the command exits with code 1.
   */
  lemma CliAgreesWithPipeline(inputPath: string, outputDir: string, parts: string, genre: string, format: string,
                              w: World)
    ensures var p := RunPipeline(inputPath, outputDir, ParseList(parts), genre, ParseList(format),
                                 w.(metadata := TempoDropped(w.metadata)));
      var c := Transcribe(inputPath, outputDir, parts, genre, format, w);
      && (c.Ok? <==> p.Ok?)
      && (p.Ok? ==> c.value == Printed(p.value.tempo, p.value.key, p.value.timeSignature, p.value.outputFiles))
    ensures var w' := w.(metadata := TempoDropped(w.metadata));
      var routed := RoutedStems(inputPath, outputDir, ResolveGenre(genre), w');
      routed.Ok? && FilterParts(routed.value.stems, ParseList(parts)) == [] ==>
        && RunPipeline(inputPath, outputDir, ParseList(parts), genre, ParseList(format), w') ==
             Err(ValueError("No matching stems found for requested parts"))
        && Transcribe(inputPath, outputDir, parts, genre, format, w) == Err(Exit(1))
  {
    CliStemsIgnoreMetadata(inputPath, outputDir, ResolveGenre(genre), w);
    ParseListValues(parts);
    assert LowerAll(ParseList(parts)) == ParseList(parts);
  }
}
