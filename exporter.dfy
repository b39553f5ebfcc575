/** Writing the score in the requested formats (assembler/exporter.py), with the file system as a log of effects. */
module Exporter {
  import opened Strings
  import opened Assoc
  import opened Merger

  /** `output_dir / name` */
  datatype FilePath = FilePath(dir: string, name: string)

  /** One call of `score.write(music21_fmt, fp=...)`: which writer, which file, and the score written. */
  datatype WriteCall = WriteCall(writer: string, fp: FilePath, content: ScoreRecord)

  /** Each accepted format name: the music21 writer and the file suffix. */
  const FORMAT_MAP: map<string, (string, string)> := map[
    "midi" := ("midi", ".mid"),
    "mid" := ("midi", ".mid"),
    "musicxml" := ("musicxml", ".musicxml"),
    "xml" := ("musicxml", ".musicxml"),
    "pdf" := ("musicxml.pdf", ".pdf")]

  /** `output_dir / f"score{suffix}"` */
  function OutputPath(dir: string, formatKey: string): FilePath
    requires formatKey in FORMAT_MAP
  {
    FilePath(dir, "score" + FORMAT_MAP[formatKey].1)
  }

  /** The write a single requested format makes: none when its lower-cased name is not in the table. */
  function FormatCall(score: ScoreRecord, dir: string, format: string): seq<WriteCall>
  {
    var formatKey := Lower(format);
    if formatKey in FORMAT_MAP then [WriteCall(FORMAT_MAP[formatKey].0, OutputPath(dir, formatKey), score)] else []
  }

  /** The writes `export_score` makes for `formats`, in order. */
  function ExportCalls(score: ScoreRecord, dir: string, formats: seq<string>): seq<WriteCall>
  {
    if formats == [] then []
    else ExportCalls(score, dir, formats[..|formats| - 1]) + FormatCall(score, dir, formats[|formats| - 1])
  }

  /** The `written` dictionary `export_score` returns for `formats`. */
  function ExportWritten(dir: string, formats: seq<string>): Dict<FilePath>
  {
    if formats == [] then []
    else
      var written := ExportWritten(dir, formats[..|formats| - 1]);
      var formatKey := Lower(formats[|formats| - 1]);
      if formatKey in FORMAT_MAP then Put(written, formatKey, OutputPath(dir, formatKey)) else written
  }

  /** The directories created and the files written, in order. */
  class FileSystem {
    var created: seq<string>
    var writes: seq<WriteCall>

    constructor ()
      ensures created == [] && writes == []
    {
      created, writes := [], [];
    }

    /** `output_dir.mkdir(parents=True, exist_ok=True)` */
    method Mkdir(dir: string)
      modifies this
      ensures created == old(created) + [dir] && writes == old(writes)
    {
      created := created + [dir];
    }

    /** `score.write(writer, fp=str(fp))` */
    method Write(writer: string, fp: FilePath, content: ScoreRecord)
      modifies this
      ensures writes == old(writes) + [WriteCall(writer, fp, content)] && created == old(created)
    {
      writes := writes + [WriteCall(writer, fp, content)];
    }
  }

  /** `export_score(score, output_dir, formats)` */
  method ExportScore(fs: FileSystem, score: Score, outputDir: string, formats: seq<string>) returns (written: Dict<FilePath>)
    modifies fs
    ensures fs.created == old(fs.created) + [outputDir]
    ensures fs.writes == old(fs.writes) + ExportCalls(score.Record(), outputDir, formats)
    ensures written == ExportWritten(outputDir, formats)
  {
    fs.Mkdir(outputDir);
    written := [];
    var i := 0;
    while i < |formats|
      invariant 0 <= i <= |formats|
      invariant fs.created == old(fs.created) + [outputDir]
      invariant fs.writes == old(fs.writes) + ExportCalls(score.Record(), outputDir, formats[..i])
      invariant written == ExportWritten(outputDir, formats[..i])
    {
      assert formats[..i + 1][..i] == formats[..i];
      var formatKey := Lower(formats[i]);
      if formatKey in FORMAT_MAP {
        var (music21Format, suffix) := FORMAT_MAP[formatKey];
        var outputPath := FilePath(outputDir, "score" + suffix);
        fs.Write(music21Format, outputPath, score.Record());
        written := Put(written, formatKey, outputPath);
      }
      i := i + 1;
    }
    assert formats[..i] == formats;
  }
}
