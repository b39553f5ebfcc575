/**
 * The end-to-end pipeline (pipeline.py): pick the genre preset, route the input, obtain the stems and the
 * analysis by route, keep the requested parts, transcribe each and assemble the score. Route B renames
 * the separator's stems; route A imports a Suno export and may take its tempo from `metadata.json`.
 * Analysis, separation, the filesystem facts and the parsed metadata are inputs.
 */
module Pipeline {
  import opened Outcome
  import opened Assoc
  import opened Strings
  import opened PyObject
  import opened Router
  import SunoImporter
  import opened TranscriberDispatch
  import Assembler
  import Exporter

  // ---------------------------------------------------------------------------------------------------------
  // Route B renaming

  /** `_ROUTE_B_MAP`: the separator's stem names and the parts they become. */
  const ROUTE_B_MAP: Dict<string> := [
    ("vocals", "lead_vocal"),
    ("drums", "drums"),
    ("bass", "bass"),
    ("other", "backing_harmony")]

  /** The table as a case analysis. */
  function RouteBFor(k: string): Option<string>
  {
    if k == "vocals" then Some("lead_vocal")
    else if k == "drums" then Some("drums")
    else if k == "bass" then Some("bass")
    else if k == "other" then Some("backing_harmony")
    else None
  }

  /** Looking a name up in the table gives the case analysis. */
  lemma RouteBLookup(k: string)
    ensures Get(ROUTE_B_MAP, k) == RouteBFor(k)
  {
    var d := ROUTE_B_MAP;
    if RouteBFor(k).None? {
      assert !HasKey(d, k) by {
        forall i | 0 <= i < |d| ensures d[i].0 != k {
          assert i == 0 || i == 1 || i == 2 || i == 3;
        }
      }
    } else {
      assert DistinctKeys(d);
      assert d[0].0 == "vocals" && d[1].0 == "drums" && d[2].0 == "bass" && d[3].0 == "other";
    }
  }

  /**
   * `_ROUTE_B_MAP.get(stem_name.lower(), stem_name.lower())`, with the lookup written as the case analysis
   * `RouteBLookup` shows it to be.
   */
  function RouteBName(stemName: string): string
  {
    var lowered := Lower(stemName);
    match RouteBFor(lowered)
    case Some(part) => part
    case None => lowered
  }

  /**
   * Renaming ignores case: `vocals` becomes the lead vocal, `other` the backing harmony, `drums` and `bass`
   * keep their names, and any other stem is named by its lowercased name; the result is always lower case.
   */
  lemma RouteBNameMeaning(stemName: string)
    ensures Lower(stemName) == "vocals" ==> RouteBName(stemName) == "lead_vocal"
    ensures Lower(stemName) == "other" ==> RouteBName(stemName) == "backing_harmony"
    ensures Lower(stemName) == "drums" || Lower(stemName) == "bass" ==> RouteBName(stemName) == Lower(stemName)
    ensures RouteBFor(Lower(stemName)).None? ==> RouteBName(stemName) == Lower(stemName)
    ensures IsLowerCase(RouteBName(stemName))
  {
    LowerIsLowerCase(stemName);
  }

  /** The assignments the renaming loop makes, one per stem, in order. */
  function RouteBEntries(stems: Dict<string>): (entries: Dict<string>)
    ensures |entries| == |stems|
  {
    seq(|stems|, i requires 0 <= i < |stems| => (RouteBName(stems[i].0), stems[i].1))
  }

  /** `_map_route_b_stems(stems)`: assign each stem's path under its part; a later stem replaces an earlier one. */
  method MapRouteBStems(stems: Dict<string>) returns (mapped: Dict<string>)
    ensures mapped == PutAll(RouteBEntries(stems))
  {
    ghost var entries := RouteBEntries(stems);
    mapped := [];
    for i := 0 to |stems|
      invariant mapped == PutAll(entries[..i])
    {
      var (stemName, stemPath) := stems[i];
      var partName := RouteBName(stemName);
      assert entries[i] == (partName, stemPath);
      PutAllStep(entries, i);
      mapped := Put(mapped, partName, stemPath);
    }
    PutAllWhole(entries);
  }

  /**
   * After renaming, a part holds the path of the last stem renamed to it, and only such parts exist; there
   * are never more parts than stems, and no part twice.
   */
  lemma RouteBLastWins(stems: Dict<string>, part: string)
    ensures Get(PutAll(RouteBEntries(stems)), part) == LastFor(RouteBEntries(stems), part)
    ensures |PutAll(RouteBEntries(stems))| <= |stems|
    ensures DistinctKeys(PutAll(RouteBEntries(stems)))
  {
    GetPutAll(RouteBEntries(stems), part);
    PutAllSize(RouteBEntries(stems));
  }

  /** The renaming of Demucs' four stems, entry by entry. */
  lemma FourStemEntries(v: string, d: string, b: string, o: string)
    ensures RouteBEntries([("vocals", v), ("drums", d), ("bass", b), ("other", o)]) ==
      [("lead_vocal", v), ("drums", d), ("bass", b), ("backing_harmony", o)]
  {
    var stems := [("vocals", v), ("drums", d), ("bass", b), ("other", o)];
    var expected := [("lead_vocal", v), ("drums", d), ("bass", b), ("backing_harmony", o)];
    LowerOfLowerCase("vocals");
    LowerOfLowerCase("drums");
    LowerOfLowerCase("bass");
    LowerOfLowerCase("other");
    var e := RouteBEntries(stems);
    assert e[0] == expected[0] && e[1] == expected[1] && e[2] == expected[2] && e[3] == expected[3];
  }

  /** Demucs' four stems become four different parts, in the same order. */
  lemma FourStems(v: string, d: string, b: string, o: string)
    ensures PutAll(RouteBEntries([("vocals", v), ("drums", d), ("bass", b), ("other", o)])) ==
      [("lead_vocal", v), ("drums", d), ("bass", b), ("backing_harmony", o)]
  {
    FourStemEntries(v, d, b, o);
    var expected := [("lead_vocal", v), ("drums", d), ("bass", b), ("backing_harmony", o)];
    assert DistinctKeys(expected);
    PutAllDistinct(expected);
  }

  // ---------------------------------------------------------------------------------------------------------
  // Part filter and analysis stem

  /** The entries of `stems` whose lowercased name is requested, in order. */
  function Selected(stems: Dict<string>, parts: seq<string>): (r: Dict<string>)
    ensures |r| <= |stems|
  {
    if stems == [] then []
    else
      var last := stems[|stems| - 1];
      Selected(stems[..|stems| - 1], parts) + if Lower(last.0) in parts then [last] else []
  }

  /** `_filter_parts(stems, parts)`: an empty request keeps every stem. */
  function FilterParts(stems: Dict<string>, parts: seq<string>): Dict<string>
  {
    if parts == [] then stems else Selected(stems, parts)
  }

  /** `xs` is `ys` with some elements left out: it picks elements of `ys` at increasing positions. */
  ghost predicate IsSubsequence<T>(xs: seq<T>, ys: seq<T>)
  {
    exists idx: seq<int> ::
      && |idx| == |xs|
      && (forall k :: 0 <= k < |idx| ==> 0 <= idx[k] < |ys| && ys[idx[k]] == xs[k])
      && (forall k, l :: 0 <= k < l < |idx| ==> idx[k] < idx[l])
  }

  /** The positions `Selected` keeps. */
  lemma {:induction false} SelectedPositions(stems: Dict<string>, parts: seq<string>) returns (idx: seq<int>)
    ensures |idx| == |Selected(stems, parts)|
    ensures forall k :: 0 <= k < |idx| ==> 0 <= idx[k] < |stems| && stems[idx[k]] == Selected(stems, parts)[k]
    ensures forall k, l :: 0 <= k < l < |idx| ==> idx[k] < idx[l]
  {
    if stems == [] {
      idx := [];
    } else {
      var n := |stems| - 1;
      var init := stems[..n];
      var prev := SelectedPositions(init, parts);
      assert forall k :: 0 <= k < |prev| ==> stems[prev[k]] == init[prev[k]];
      idx := if Lower(stems[n].0) in parts then prev + [n] else prev;
    }
  }

  /** An entry is kept exactly when it is an entry of `stems` with a requested lowercased name. */
  lemma {:induction false} SelectedMembers(stems: Dict<string>, parts: seq<string>, e: (string, string))
    ensures e in Selected(stems, parts) <==> e in stems && Lower(e.0) in parts
  {
    if stems != [] {
      var n := |stems| - 1;
      SelectedMembers(stems[..n], parts, e);
      assert stems == stems[..n] + [stems[n]];
    }
  }

  /**
   * `_filter_parts` keeps every stem for an empty request; otherwise exactly the stems whose lowercased name
   * is requested, in their order, so a dictionary stays a dictionary.
   */
  lemma FilterPartsMeaning(stems: Dict<string>, parts: seq<string>)
    ensures parts == [] ==> FilterParts(stems, parts) == stems
    ensures parts != [] ==> forall e :: e in FilterParts(stems, parts) <==> e in stems && Lower(e.0) in parts
    ensures IsSubsequence(FilterParts(stems, parts), stems)
    ensures DistinctKeys(stems) ==> DistinctKeys(FilterParts(stems, parts))
  {
    if parts == [] {
      var idx := seq(|stems|, i => i);
      assert forall k :: 0 <= k < |idx| ==> idx[k] == k;
    } else {
      forall e ensures e in Selected(stems, parts) <==> e in stems && Lower(e.0) in parts {
        SelectedMembers(stems, parts, e);
      }
      var idx := SelectedPositions(stems, parts);
      var r := Selected(stems, parts);
      if DistinctKeys(stems) {
        forall k, l | 0 <= k < l < |r| ensures r[k].0 != r[l].0 {
          assert stems[idx[k]] == r[k] && stems[idx[l]] == r[l];
        }
      }
    }
  }

  /** `_select_analysis_stem(stems)`: the lead vocal if there is one, else the first stem. */
  function SelectAnalysisStem(stems: Dict<string>): (r: Result<string>)
    ensures r.Err? <==> stems == []
    ensures r.Err? ==> r.error == StopIteration
    ensures r.Ok? ==> exists i :: 0 <= i < |stems| && stems[i].1 == r.value
    ensures HasKey(stems, "lead_vocal") && DistinctKeys(stems) ==>
      forall i :: 0 <= i < |stems| && stems[i].0 == "lead_vocal" ==> r == Ok(stems[i].1)
    ensures !HasKey(stems, "lead_vocal") && stems != [] ==> r == Ok(stems[0].1)
  {
    match Get(stems, "lead_vocal")
    case Some(path) => Ok(path)
    case None => if stems == [] then Err(StopIteration) else Ok(stems[0].1)
  }

  // ---------------------------------------------------------------------------------------------------------
  // Genre presets and the Suno tempo

  /** The two assembly settings of a preset `assemble` uses. */
  datatype AssemblySettings = AssemblySettings(quantizeLevel: int, swingDetection: bool)

  /** What the pipeline reads from a `GenrePreset`: the separation model and the transcription and assembly settings. */
  datatype GenrePreset = GenrePreset(stage1Model: string, transcription: TranscriptionConfig, assembly: AssemblySettings)

  /** The defaults: Demucs `htdemucs_ft`, 80 ms notes, nine drum classes, sixteenth notes, no swing. */
  const POP: GenrePreset := GenrePreset("htdemucs_ft", TranscriptionConfig(80, 9), AssemblySettings(16, false))

  const JAZZ: GenrePreset := GenrePreset("htdemucs_ft", TranscriptionConfig(60, 13), AssemblySettings(8, true))

  const EDM: GenrePreset := GenrePreset("htdemucs_ft", TranscriptionConfig(60, 9), AssemblySettings(16, false))

  /** `GENRE_PRESETS` */
  const GENRE_PRESETS: map<string, GenrePreset> := map["pop" := POP, "jazz" := JAZZ, "edm" := EDM]

  /** `_resolve_genre(genre)`: the preset of that name; any other name, in any case, gets `pop`. */
  function ResolveGenre(genre: string): (preset: GenrePreset)
    ensures genre in GENRE_PRESETS ==> preset == GENRE_PRESETS[genre]
    ensures genre !in GENRE_PRESETS ==> preset == POP
  {
    if genre in GENRE_PRESETS then GENRE_PRESETS[genre] else GENRE_PRESETS["pop"]
  }

  /** The lookup is exact: `Jazz` is not `jazz` and gets the `pop` settings. */
  lemma GenreExamples()
    ensures ResolveGenre("jazz").assembly == AssemblySettings(8, true)
    ensures ResolveGenre("jazz").transcription == TranscriptionConfig(60, 13)
    ensures ResolveGenre("Jazz") == POP && ResolveGenre("rock") == POP
    ensures ResolveGenre("pop").transcription == DEFAULT_TRANSCRIPTION
  {
    assert "Jazz" != "jazz" && "Jazz" != "pop" && "Jazz" != "edm";
    assert "rock" != "jazz" && "rock" != "pop" && "rock" != "edm";
  }

  type Metadata = SunoImporter.Metadata

  /**
   * `_read_suno_tempo(input_dir)`: the `tempo` of a JSON object, when `float()` accepts it; a read error
   * escapes, since only `JSONDecodeError` is caught.
   */
  function ReadSunoTempo(metadata: Metadata): (tempo: Result<Option<real>>)
    ensures tempo.Err? <==> metadata.Unreadable?
    ensures tempo.Err? ==> tempo.error == ReadError(metadata.reason)
    ensures tempo.Ok? && tempo.value.Some? <==>
      && metadata.Parsed? && metadata.payload.PyDict? && "tempo" in metadata.payload.entries
      && Float(metadata.payload.entries["tempo"]).Ok?
    ensures tempo.Ok? && tempo.value.Some? ==> tempo.value == Some(Float(metadata.payload.entries["tempo"]).value)
  {
    match metadata
    case Unreadable(reason) => Err(ReadError(reason))
    case Parsed(PyDict(entries)) =>
      if "tempo" in entries then
        match Float(entries["tempo"])
        case Ok(t) => Ok(Some(t))
        case Err(_) => Ok(None)
      else Ok(None)
    case _ => Ok(None)
  }

  /** What `analyze` gives: tempo, key and time signature. */
  datatype AnalysisResult = AnalysisResult(tempo: real, key: string, timeSignature: int)

  /** The analysis with the tempo replaced when the export gives one. */
  function WithTempo(analysis: AnalysisResult, tempoOverride: Option<real>): (r: AnalysisResult)
    ensures r.key == analysis.key && r.timeSignature == analysis.timeSignature
    ensures r.tempo == if tempoOverride.Some? then tempoOverride.value else analysis.tempo
  {
    match tempoOverride
    case Some(t) => AnalysisResult(t, analysis.key, analysis.timeSignature)
    case None => analysis
  }

  /**
   * Worked payloads: a number or numeric string is taken; a list, a missing key or bad JSON are ignored; an
   * unreadable file raises.
   */
  lemma TempoExamples()
    ensures ReadSunoTempo(SunoImporter.Parsed(PyDict(map["tempo" := PyNum(128.0)]))) == Ok(Some(128.0))
    ensures ReadSunoTempo(SunoImporter.Parsed(PyDict(map["tempo" := PyStr("95")]))) == Ok(Some(95.0))
    ensures ReadSunoTempo(SunoImporter.Parsed(PyDict(map["tempo" := PyList([])]))) == Ok(None)
    ensures ReadSunoTempo(SunoImporter.Parsed(PyDict(map["bpm" := PyNum(128.0)]))) == Ok(None)
    ensures ReadSunoTempo(SunoImporter.Parsed(PyList([PyNum(128.0)]))) == Ok(None)
    ensures ReadSunoTempo(SunoImporter.Malformed) == Ok(None) && ReadSunoTempo(SunoImporter.Missing) == Ok(None)
    ensures ReadSunoTempo(SunoImporter.Unreadable("is a directory")) == Err(ReadError("is a directory"))
  {
    assert ParseUnsignedDecimal("95") == Some(95.0) by {
      assert !exists i :: 0 <= i < |"95"| && "95"[i] == '.';
      assert DigitsValue("95") == 95 by {
        DigitsValueAppend("9", "5");
        assert "9" + "5" == "95";
      }
    }
    assert "bpm" != "tempo";
  }

  // ---------------------------------------------------------------------------------------------------------
  // The run

  /** The world the pipeline runs in. */
  datatype World = World(
    isDir: bool,                                          // `input_path.is_dir()`
    isFile: bool,                                         // `input_path.is_file()`
    suffix: string,                                       // `input_path.suffix`
    stemsDirExists: bool,                                 // `(input_path / "stems").exists()`
    wavFiles: seq<SunoImporter.WavFile>,                  // `glob("*.wav")` in `stems/`, in its order
    metadata: Metadata,                                   // `metadata.json` of the export
    analyze: string -> Result<AnalysisResult>,            // `analyzer.analyze(path)`
    separate: (string, string, string) -> Result<Dict<string>>, // `separator.separate(path, dir, model)`
    transcribers: Transcribers)

  /** `a / b` for paths. */
  function JoinPath(a: string, b: string): string
  {
    a + "/" + b
  }

  /** What the router learns about the input path; it counts the same WAV files the importer reads. */
  function Facts(w: World): PathFacts
  {
    PathFacts(w.isDir, w.stemsDirExists, |w.wavFiles|, w.isFile, w.suffix)
  }

  /** The state of a run once the stems are chosen: the route, the analysis and the stems to transcribe. */
  datatype Prepared = Prepared(route: Route, analysis: AnalysisResult, stems: Dict<string>)

  /** The part of `run_pipeline` before the requested parts are kept: route, then stems and analysis by route. */
  function RoutedStems(inputPath: string, outputDir: string, preset: GenrePreset, w: World): Result<Prepared>
  {
    var route :- RouteInput(inputPath, Facts(w));
    match route
    case RouteB =>
      var analysis :- w.analyze(inputPath);
      var stems :- w.separate(inputPath, JoinPath(outputDir, "stems"), preset.stage1Model);
      Ok(Prepared(RouteB, analysis, PutAll(RouteBEntries(stems))))
    case RouteA =>
      var stems :- SunoImporter.ImportedStems(JoinPath(inputPath, "stems"), w.stemsDirExists, w.metadata, w.wavFiles);
      var analysisPath :- SelectAnalysisStem(stems);
      var analysis :- w.analyze(analysisPath);
      var tempoOverride :- ReadSunoTempo(w.metadata);
      Ok(Prepared(RouteA, WithTempo(analysis, tempoOverride), stems))
  }

  /** `[part.lower() for part in parts]` */
  function LowerAll(parts: seq<string>): (r: seq<string>)
    ensures |r| == |parts| && forall i :: 0 <= i < |parts| ==> r[i] == Lower(parts[i])
  {
    seq(|parts|, i requires 0 <= i < |parts| => Lower(parts[i]))
  }

  /** The stems to transcribe, or the error raised before the first transcription. */
  function Selection(inputPath: string, outputDir: string, parts: seq<string>, preset: GenrePreset, w: World)
    : Result<Prepared>
  {
    var routed :- RoutedStems(inputPath, outputDir, preset, w);
    var filtered := FilterParts(routed.stems, LowerAll(parts));
    if filtered == [] then Err(ValueError("No matching stems found for requested parts"))
    else Ok(Prepared(routed.route, routed.analysis, filtered))
  }

  /** The notes of one stem: `transcribe_part(stem_path, part_name, preset.transcription).notes`. */
  function TranscribeEntry(config: TranscriptionConfig, ts: Transcribers): ((string, string)) -> Result<(string, seq<Event>)>
  {
    (entry: (string, string)) =>
      var result :- TranscribePart(entry.1, entry.0, config, ts);
      Ok((entry.0, result.notes))
  }

  /** The `note_parts` dictionary: each stem's notes under its part name, or the first transcription error. */
  function NoteParts(config: TranscriptionConfig, ts: Transcribers, stems: Dict<string>): Result<Dict<seq<Event>>>
  {
    var noteParts :- MapAll(TranscribeEntry(config, ts), stems);
    Ok(PutAll(noteParts))
  }

  /**
   * The `note_parts` loop of `run_pipeline`, which `transcribe` repeats: each stem in turn is transcribed and
   * its notes assigned under its part name; the first transcription that raises ends the loop.
   */
  method TranscribeStems(config: TranscriptionConfig, ts: Transcribers, stems: Dict<string>)
    returns (r: Result<Dict<seq<Event>>>)
    ensures r == NoteParts(config, ts, stems)
  {
    var f := TranscribeEntry(config, ts);
    var noteParts: Dict<seq<Event>> := [];
    ghost var done: Dict<seq<Event>> := [];
    for i := 0 to |stems|
      invariant MapAll(f, stems[..i]) == Ok(done)
      invariant noteParts == PutAll(done)
    {
      var partName := stems[i].0;
      var result := TranscribePart(stems[i].1, partName, config, ts);
      MapAllStep(f, stems, i);
      if result.Err? {
        MapAllStop(f, stems, i + 1);
        return Err(result.error);
      }
      PutAllAppend(done, partName, result.value.notes);
      done := done + [(partName, result.value.notes)];
      noteParts := Put(noteParts, partName, result.value.notes);
    }
    MapAllDone(f, stems);
    r := Ok(noteParts);
  }

  /**
   * `note_parts` exists exactly when every stem transcribes; for distinct part names it holds each stem's
   * notes under its name, in order, and otherwise the error is that of the first stem that raises.
   */
  lemma NotePartsMeaning(config: TranscriptionConfig, ts: Transcribers, stems: Dict<string>)
    ensures NoteParts(config, ts, stems).Ok? <==>
      forall i :: 0 <= i < |stems| ==> TranscribePart(stems[i].1, stems[i].0, config, ts).Ok?
    ensures NoteParts(config, ts, stems).Ok? && DistinctKeys(stems) ==>
      && |NoteParts(config, ts, stems).value| == |stems|
      && forall i :: 0 <= i < |stems| ==>
           NoteParts(config, ts, stems).value[i] == (stems[i].0, TranscribePart(stems[i].1, stems[i].0, config, ts).value.notes)
    ensures NoteParts(config, ts, stems).Err? ==>
      exists i :: FirstFailure(TranscribeEntry(config, ts), stems, i) &&
        NoteParts(config, ts, stems).error == TranscribePart(stems[i].1, stems[i].0, config, ts).error
  {
    var f := TranscribeEntry(config, ts);
    MapAllOk(f, stems);
    if MapAll(f, stems).Ok? {
      TranscribedKeys(config, ts, stems);
      if DistinctKeys(stems) {
        PutAllDistinct(MapAll(f, stems).value);
      }
    } else {
      MapAllErr(f, stems);
    }
  }

  /** The dictionary `run_pipeline` returns. */
  datatype Summary = Summary(route: string, tempo: real, key: string, timeSignature: int,
                             outputFiles: Dict<Exporter.FilePath>, numParts: int, totalNotes: int)

  /** The rest of the run once the stems are chosen: transcribe each stem in turn, then assemble the score. */
  function Finish(selection: Prepared, preset: GenrePreset, outputDir: string, formats: seq<string>, ts: Transcribers)
    : Result<Summary>
  {
    var noteParts :- NoteParts(preset.transcription, ts, selection.stems);
    var analysis := selection.analysis;
    var assembly :- Assembler.Assembly(noteParts, analysis.tempo, analysis.key, analysis.timeSignature,
                                       outputDir, formats, preset.assembly.quantizeLevel,
                                       preset.assembly.swingDetection);
    Ok(Summary(RouteName(selection.route), analysis.tempo, analysis.key, analysis.timeSignature,
               assembly.outputFiles, assembly.numParts, assembly.totalNotes))
  }

  /** `run_pipeline(input_path, output_dir, parts, genre, formats)` */
  function RunPipeline(inputPath: string, outputDir: string, parts: seq<string>, genre: string, formats: seq<string>,
                       w: World): Result<Summary>
  {
    var preset := ResolveGenre(genre);
    var selection :- Selection(inputPath, outputDir, parts, preset, w);
    Finish(selection, preset, outputDir, formats, w.transcribers)
  }

  /**
   * When no stem is left after filtering, the run raises `ValueError` before any transcription: the result
   * is the same whatever the transcribers would do.
   */
  lemma EmptySelectionRaises(inputPath: string, outputDir: string, parts: seq<string>, genre: string,
                             formats: seq<string>, w: World, ts: Transcribers)
    requires RoutedStems(inputPath, outputDir, ResolveGenre(genre), w).Ok?
    requires FilterParts(RoutedStems(inputPath, outputDir, ResolveGenre(genre), w).value.stems, LowerAll(parts)) == []
    ensures RunPipeline(inputPath, outputDir, parts, genre, formats, w) ==
      Err(ValueError("No matching stems found for requested parts"))
    ensures RunPipeline(inputPath, outputDir, parts, genre, formats, w.(transcribers := ts)) ==
      RunPipeline(inputPath, outputDir, parts, genre, formats, w)
  {
    assert RoutedStems(inputPath, outputDir, ResolveGenre(genre), w.(transcribers := ts)) ==
      RoutedStems(inputPath, outputDir, ResolveGenre(genre), w);
  }

  /**
   * In route A a `tempo` the export's metadata gives replaces the analysed tempo and nothing else; without
   * one the analysis is kept, and metadata that cannot be read makes the import raise its read error. Route B
   * never reads the metadata.
   */
  lemma SunoTempoOverride(inputPath: string, outputDir: string, preset: GenrePreset, w: World, m: Metadata)
    ensures RoutedStems(inputPath, outputDir, preset, w).Ok? && RoutedStems(inputPath, outputDir, preset, w).value.route == RouteA ==>
      var stems := SunoImporter.ImportedStems(JoinPath(inputPath, "stems"), w.stemsDirExists, w.metadata, w.wavFiles).value;
      var analysis := w.analyze(SelectAnalysisStem(stems).value).value;
      var tempoOverride := ReadSunoTempo(w.metadata);
      && tempoOverride.Ok?
      && RoutedStems(inputPath, outputDir, preset, w).value.analysis.key == analysis.key
      && RoutedStems(inputPath, outputDir, preset, w).value.analysis.timeSignature == analysis.timeSignature
      && RoutedStems(inputPath, outputDir, preset, w).value.analysis.tempo ==
           (if tempoOverride.value.Some? then tempoOverride.value.value else analysis.tempo)
    ensures RouteInput(inputPath, Facts(w)) == Ok(RouteA) && w.metadata.Unreadable? ==>
      RoutedStems(inputPath, outputDir, preset, w) == Err(ReadError(w.metadata.reason))
    ensures RouteInput(inputPath, Facts(w)) == Ok(RouteB) ==>
      RoutedStems(inputPath, outputDir, preset, w.(metadata := m)) == RoutedStems(inputPath, outputDir, preset, w)
  {
    assert Facts(w.(metadata := m)) == Facts(w);
  }

  /** Whatever the route, the prepared stems form a dictionary: no part name twice. */
  lemma RoutedDistinct(inputPath: string, outputDir: string, preset: GenrePreset, w: World)
    requires RoutedStems(inputPath, outputDir, preset, w).Ok?
    ensures DistinctKeys(RoutedStems(inputPath, outputDir, preset, w).value.stems)
  {
    if RouteInput(inputPath, Facts(w)) == Ok(RouteB) {
      PutAllSize(RouteBEntries(w.separate(inputPath, JoinPath(outputDir, "stems"), preset.stage1Model).value));
    } else {
      PutAllSize(SunoImporter.Assignments(w.wavFiles));
    }
  }

  /** The selected stems are a non-empty dictionary. */
  lemma SelectionDistinct(inputPath: string, outputDir: string, parts: seq<string>, preset: GenrePreset, w: World)
    requires Selection(inputPath, outputDir, parts, preset, w).Ok?
    ensures Selection(inputPath, outputDir, parts, preset, w).value.stems != []
    ensures DistinctKeys(Selection(inputPath, outputDir, parts, preset, w).value.stems)
  {
    var routed := RoutedStems(inputPath, outputDir, preset, w).value;
    RoutedDistinct(inputPath, outputDir, preset, w);
    FilterPartsMeaning(routed.stems, LowerAll(parts));
  }

  /** Transcribing the stems one by one gives one note list per stem, under the stem's own part name. */
  lemma TranscribedKeys(config: TranscriptionConfig, ts: Transcribers, stems: Dict<string>)
    requires MapAll(TranscribeEntry(config, ts), stems).Ok?
    ensures forall i :: 0 <= i < |stems| ==> TranscribeEntry(config, ts)(stems[i]).Ok?
    ensures Keys(MapAll(TranscribeEntry(config, ts), stems).value) == Keys(stems)
    ensures DistinctKeys(stems) ==> DistinctKeys(MapAll(TranscribeEntry(config, ts), stems).value)
  {
    var f := TranscribeEntry(config, ts);
    MapAllOk(f, stems);
    var notes := MapAll(f, stems).value;
    forall i | 0 <= i < |stems| ensures notes[i].0 == stems[i].0 {
      TranscribeEntryKey(config, ts, stems[i]);
    }
    assert Keys(notes) == Keys(stems);
  }

  /** A transcribed stem keeps its part name. */
  lemma TranscribeEntryKey(config: TranscriptionConfig, ts: Transcribers, entry: (string, string))
    ensures TranscribeEntry(config, ts)(entry).Ok? ==> TranscribeEntry(config, ts)(entry).value.0 == entry.0
  {
  }

  /** A finished run has transcribed every stem, and its part count is that of the transcribed dictionary. */
  lemma FinishSteps(selection: Prepared, preset: GenrePreset, outputDir: string, formats: seq<string>, ts: Transcribers)
    requires Finish(selection, preset, outputDir, formats, ts).Ok?
    ensures MapAll(TranscribeEntry(preset.transcription, ts), selection.stems).Ok?
    ensures Finish(selection, preset, outputDir, formats, ts).value.numParts ==
      |PutAll(MapAll(TranscribeEntry(preset.transcription, ts), selection.stems).value)|
  {
  }

  /** Finishing a dictionary of stems transcribes every one of them and assembles one part per stem. */
  lemma FinishCounts(selection: Prepared, preset: GenrePreset, outputDir: string, formats: seq<string>, ts: Transcribers)
    requires Finish(selection, preset, outputDir, formats, ts).Ok? && DistinctKeys(selection.stems)
    ensures Finish(selection, preset, outputDir, formats, ts).value.numParts == |selection.stems|
    ensures forall i :: 0 <= i < |selection.stems| ==> TranscribeEntry(preset.transcription, ts)(selection.stems[i]).Ok?
  {
    FinishSteps(selection, preset, outputDir, formats, ts);
    var noteParts := MapAll(TranscribeEntry(preset.transcription, ts), selection.stems).value;
    TranscribedKeys(preset.transcription, ts, selection.stems);
    PutAllDistinct(noteParts);
    assert |Keys(noteParts)| == |Keys(selection.stems)|;
  }

  /**
   * A successful run transcribes every selected stem and assembles exactly those parts: `num_parts` is the
   * number of selected stems.
   */
  lemma RunCounts(inputPath: string, outputDir: string, parts: seq<string>, genre: string, formats: seq<string>, w: World)
    requires RunPipeline(inputPath, outputDir, parts, genre, formats, w).Ok?
    ensures Selection(inputPath, outputDir, parts, ResolveGenre(genre), w).Ok?
    ensures var selection := Selection(inputPath, outputDir, parts, ResolveGenre(genre), w).value;
      && RunPipeline(inputPath, outputDir, parts, genre, formats, w).value.numParts == |selection.stems| > 0
      && forall i :: 0 <= i < |selection.stems| ==>
           TranscribeEntry(ResolveGenre(genre).transcription, w.transcribers)(selection.stems[i]).Ok?
  {
    var preset := ResolveGenre(genre);
    var selection := Selection(inputPath, outputDir, parts, preset, w).value;
    SelectionDistinct(inputPath, outputDir, parts, preset, w);
    FinishCounts(selection, preset, outputDir, formats, w.transcribers);
  }
}
