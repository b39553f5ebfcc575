/** The assembly stage (assembler/__init__.py): quantize every part, merge them into one score, export it. */
module Assembler {
  import opened Outcome
  import opened Assoc
  import opened PyObject
  import opened Quantizer
  import opened Merger
  import opened Exporter

  /** `AssemblyResult`: the exported files and two counts. */
  datatype AssemblyResult = AssemblyResult(outputFiles: Dict<FilePath>, numParts: int, totalNotes: int)

  /** The number of notes over all parts. */
  function NoteCount(parts: Dict<seq<Event>>): nat
  {
    if parts == [] then 0 else NoteCount(parts[..|parts| - 1]) + |parts[|parts| - 1].1|
  }

  /** One more part adds its notes. */
  lemma NoteCountAppend(parts: Dict<seq<Event>>, name: string, notes: seq<Event>)
    ensures NoteCount(parts + [(name, notes)]) == NoteCount(parts) + |notes|
  {
    assert (parts + [(name, notes)])[..|parts|] == parts;
  }

  /** Quantizing one part, every part with the same tempo, level and swing. */
  function QuantizePart(tempo: real, level: int, swing: bool): ((string, seq<Event>)) -> Result<(string, seq<Event>)>
  {
    (entry: (string, seq<Event>)) => var quantized :- Quantize(entry.1, tempo, level, swing); Ok((entry.0, quantized))
  }

  /** The score `merge_parts` builds from the quantized parts: the loop stops at the first part that raises. */
  function AssembledScore(parts: Dict<seq<Event>>, tempo: real, key: string, timeSignature: int, level: int, swing: bool)
    : Result<ScoreRecord>
  {
    var quantized :- MapAll(QuantizePart(tempo, level, swing), parts);
    Merge(PutAll(quantized), tempo, key, timeSignature)
  }

  /** What `assemble` returns. */
  function Assembly(parts: Dict<seq<Event>>, tempo: real, key: string, timeSignature: int, outputDir: string,
                    formats: seq<string>, level: int, swing: bool): Result<AssemblyResult>
  {
    var quantized :- MapAll(QuantizePart(tempo, level, swing), parts);
    var score :- Merge(PutAll(quantized), tempo, key, timeSignature);
    Ok(AssemblyResult(ExportWritten(outputDir, formats), |parts|, NoteCount(quantized)))
  }

  /**
   * The quantizing loop of `assemble`: each part in turn is quantized and stored under its name, and its notes
   * counted, until a part raises.
   */
  method QuantizeParts(parts: Dict<seq<Event>>, tempo: real, level: int, swing: bool)
    returns (r: Result<Dict<seq<Event>>>, totalNotes: int)
    ensures MapAll(QuantizePart(tempo, level, swing), parts).Err? ==>
      r == Err(MapAll(QuantizePart(tempo, level, swing), parts).error)
    ensures MapAll(QuantizePart(tempo, level, swing), parts).Ok? ==>
      && r == Ok(PutAll(MapAll(QuantizePart(tempo, level, swing), parts).value))
      && totalNotes == NoteCount(MapAll(QuantizePart(tempo, level, swing), parts).value)
  {
    ghost var f := QuantizePart(tempo, level, swing);
    ghost var done: Dict<seq<Event>> := [];
    var quantizedParts: Dict<seq<Event>> := [];
    totalNotes := 0;
    var i := 0;
    while i < |parts|
      invariant 0 <= i <= |parts|
      invariant MapAll(f, parts[..i]) == Ok(done)
      invariant quantizedParts == PutAll(done) && totalNotes == NoteCount(done)
    {
      var (partName, notes) := parts[i];
      var quantized := QuantizeNotes(notes, tempo, level, swing);
      MapAllStep(f, parts, i);
      if quantized.Err? {
        MapAllStop(f, parts, i + 1);
        return Err(quantized.error), totalNotes;
      }
      PutAllAppend(done, partName, quantized.value);
      NoteCountAppend(done, partName, quantized.value);
      done := done + [(partName, quantized.value)];
      quantizedParts := Put(quantizedParts, partName, quantized.value);
      totalNotes := totalNotes + |quantized.value|;
      i := i + 1;
    }
    MapAllDone(f, parts);
    r := Ok(quantizedParts);
  }

  /**
   * `assemble(parts, tempo, key, time_signature, output_dir, formats, level, swing)`: the result, and the
   * directory and files it creates; when quantizing or merging raises, nothing is created.
   */
  method Assemble(fs: FileSystem, parts: Dict<seq<Event>>, tempo: real, key: string, timeSignature: int,
                  outputDir: string, formats: seq<string>, level: int, swing: bool) returns (r: Result<AssemblyResult>)
    modifies fs
    ensures r == Assembly(parts, tempo, key, timeSignature, outputDir, formats, level, swing)
    ensures AssembledScore(parts, tempo, key, timeSignature, level, swing).Ok? ==>
      && fs.created == old(fs.created) + [outputDir]
      && fs.writes == old(fs.writes) + ExportCalls(AssembledScore(parts, tempo, key, timeSignature, level, swing).value, outputDir, formats)
    ensures AssembledScore(parts, tempo, key, timeSignature, level, swing).Err? ==>
      fs.created == old(fs.created) && fs.writes == old(fs.writes)
  {
    var quantizedParts, totalNotes := QuantizeParts(parts, tempo, level, swing);
    if quantizedParts.Err? {
      return Err(quantizedParts.error);
    }
    var score := MergeParts(quantizedParts.value, tempo, key, timeSignature);
    if score.Err? {
      return Err(score.error);
    }
    var outputFiles := ExportScore(fs, score.value, outputDir, formats);
    r := Ok(AssemblyResult(outputFiles, |parts|, totalNotes));
  }
}
