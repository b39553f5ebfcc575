/** What `export_score` guarantees about the files it writes and the dictionary it returns. */
module ExporterFacts {
  import opened Outcome
  import opened Strings
  import opened Assoc
  import opened Merger
  import opened Exporter

  /** Writes happen in the order of `formats`: exporting two lists in turn makes the calls of each, one after the other. */
  lemma {:induction false} ExportCallsConcat(score: ScoreRecord, dir: string, xs: seq<string>, ys: seq<string>)
    ensures ExportCalls(score, dir, xs + ys) == ExportCalls(score, dir, xs) + ExportCalls(score, dir, ys)
  {
    if ys == [] {
      assert xs + ys == xs;
    } else {
      var init, zs := ys[..|ys| - 1], xs + ys;
      assert zs[..|zs| - 1] == xs + init;
      assert zs[|zs| - 1] == ys[|ys| - 1];
      ExportCallsConcat(score, dir, xs, init);
      var last := FormatCall(score, dir, ys[|ys| - 1]);
      assert ExportCalls(score, dir, zs) == ExportCalls(score, dir, xs + init) + last;
      assert ExportCalls(score, dir, ys) == ExportCalls(score, dir, init) + last;
    }
  }

  /** How many of `formats` are in the table once lower-cased. */
  function SupportedCount(formats: seq<string>): nat
  {
    if formats == [] then 0 else (if Lower(formats[0]) in FORMAT_MAP then 1 else 0) + SupportedCount(formats[1..])
  }

  /** Exactly one write per supported format, and none for the others. */
  lemma {:induction false} OneWritePerSupportedFormat(score: ScoreRecord, dir: string, formats: seq<string>)
    ensures |ExportCalls(score, dir, formats)| == SupportedCount(formats)
  {
    if formats != [] {
      ExportCallsConcat(score, dir, [formats[0]], formats[1..]);
      assert [formats[0]] + formats[1..] == formats;
      assert [formats[0]][..0] == [];
      assert ExportCalls(score, dir, [formats[0]]) == FormatCall(score, dir, formats[0]);
      OneWritePerSupportedFormat(score, dir, formats[1..]);
    }
  }

  /** Every write uses the writer and the `score.<ext>` path the table gives the lower-cased format. */
  lemma {:induction false} WritesFollowTable(score: ScoreRecord, dir: string, formats: seq<string>)
    ensures forall c :: c in ExportCalls(score, dir, formats) ==>
      c.content == score && exists k :: k in FORMAT_MAP && c.writer == FORMAT_MAP[k].0 && c.fp == OutputPath(dir, k)
  {
    if formats != [] {
      WritesFollowTable(score, dir, formats[..|formats| - 1]);
    }
  }

  /**
   * The returned keys are exactly the lower-cased supported formats requested, each once, each mapped to its
   * `score.<ext>` path; aliases such as `mid` and `midi` stay separate keys.
   */
  lemma {:induction false} WrittenKeys(dir: string, formats: seq<string>)
    ensures DistinctKeys(ExportWritten(dir, formats))
    ensures forall k :: HasKey(ExportWritten(dir, formats), k) <==>
      k in FORMAT_MAP && exists i :: 0 <= i < |formats| && Lower(formats[i]) == k
    ensures forall k :: k in FORMAT_MAP && HasKey(ExportWritten(dir, formats), k) ==>
      Get(ExportWritten(dir, formats), k) == Some(OutputPath(dir, k))
  {
    if formats != [] {
      WrittenKeys(dir, formats[..|formats| - 1]);
      forall k
        ensures HasKey(ExportWritten(dir, formats), k) <==>
          k in FORMAT_MAP && exists i :: 0 <= i < |formats| && Lower(formats[i]) == k
        ensures k in FORMAT_MAP && HasKey(ExportWritten(dir, formats), k) ==>
          Get(ExportWritten(dir, formats), k) == Some(OutputPath(dir, k))
      {
        WrittenKeyStep(dir, formats, k);
      }
    }
  }

  /** The step of `WrittenKeys` for one key: what holds of the formats but the last holds of all of them. */
  lemma WrittenKeyStep(dir: string, formats: seq<string>, k: string)
    requires formats != []
    requires var init := formats[..|formats| - 1];
      && (HasKey(ExportWritten(dir, init), k) <==> k in FORMAT_MAP && exists i :: 0 <= i < |init| && Lower(init[i]) == k)
      && (k in FORMAT_MAP && HasKey(ExportWritten(dir, init), k) ==> Get(ExportWritten(dir, init), k) == Some(OutputPath(dir, k)))
    ensures HasKey(ExportWritten(dir, formats), k) <==>
      k in FORMAT_MAP && exists i :: 0 <= i < |formats| && Lower(formats[i]) == k
    ensures k in FORMAT_MAP && HasKey(ExportWritten(dir, formats), k) ==>
      Get(ExportWritten(dir, formats), k) == Some(OutputPath(dir, k))
  {
    var init := formats[..|formats| - 1];
    var last := Lower(formats[|formats| - 1]);
    var before := ExportWritten(dir, init);
    if k in FORMAT_MAP && exists i :: 0 <= i < |formats| && Lower(formats[i]) == k {
      var i :| 0 <= i < |formats| && Lower(formats[i]) == k;
      if i < |formats| - 1 {
        assert init[i] == formats[i];
      }
    }
    if k != last || last !in FORMAT_MAP {
      assert (exists i :: 0 <= i < |init| && Lower(init[i]) == k) ==> exists i :: 0 <= i < |formats| && Lower(formats[i]) == k by {
        if exists i :: 0 <= i < |init| && Lower(init[i]) == k {
          var i :| 0 <= i < |init| && Lower(init[i]) == k;
          assert formats[i] == init[i];
        }
      }
      if last in FORMAT_MAP {
        assert Get(ExportWritten(dir, formats), k) == Get(before, k);
      }
    }
  }

  /** An unsupported format adds no write and no entry. */
  lemma UnsupportedSkipped(score: ScoreRecord, dir: string, formats: seq<string>, format: string)
    requires Lower(format) !in FORMAT_MAP
    ensures ExportCalls(score, dir, formats + [format]) == ExportCalls(score, dir, formats)
    ensures ExportWritten(dir, formats + [format]) == ExportWritten(dir, formats)
  {
    assert (formats + [format])[..|formats|] == formats;
  }

  /** A repeated format rewrites its own key: the dictionary keeps its size and the key its position. */
  lemma RepeatedFormatRewrites(dir: string, formats: seq<string>, format: string)
    requires Lower(format) in FORMAT_MAP && HasKey(ExportWritten(dir, formats), Lower(format))
    ensures |ExportWritten(dir, formats + [format])| == |ExportWritten(dir, formats)|
    ensures Keys(ExportWritten(dir, formats + [format])) == Keys(ExportWritten(dir, formats))
  {
    assert (formats + [format])[..|formats|] == formats;
  }

  /** One more requested format. */
  lemma ExportStep(score: ScoreRecord, dir: string, formats: seq<string>, format: string)
    ensures ExportCalls(score, dir, formats + [format]) == ExportCalls(score, dir, formats) + FormatCall(score, dir, format)
    ensures ExportWritten(dir, formats + [format]) ==
      var formatKey := Lower(format);
      if formatKey in FORMAT_MAP then Put(ExportWritten(dir, formats), formatKey, OutputPath(dir, formatKey))
      else ExportWritten(dir, formats)
  {
    assert (formats + [format])[..|formats|] == formats;
  }

  /** The five table entries; `xml` is an alias of `musicxml`. */
  lemma TableEntries(dir: string)
    ensures "midi" in FORMAT_MAP && FORMAT_MAP["midi"].0 == "midi" && OutputPath(dir, "midi") == FilePath(dir, "score.mid")
    ensures "mid" in FORMAT_MAP && FORMAT_MAP["mid"].0 == "midi" && OutputPath(dir, "mid") == FilePath(dir, "score.mid")
    ensures "musicxml" in FORMAT_MAP && FORMAT_MAP["musicxml"].0 == "musicxml"
    ensures OutputPath(dir, "musicxml") == FilePath(dir, "score.musicxml")
    ensures "xml" in FORMAT_MAP && FORMAT_MAP["xml"].0 == "musicxml" && OutputPath(dir, "xml") == FilePath(dir, "score.musicxml")
    ensures "pdf" in FORMAT_MAP && FORMAT_MAP["pdf"].0 == "musicxml.pdf" && OutputPath(dir, "pdf") == FilePath(dir, "score.pdf")
  {
  }

  lemma ExampleNamesLower()
    ensures Lower("midi") == "midi" && Lower("musicxml") == "musicxml" && Lower("pdf") == "pdf"
    ensures Lower("mid") == "mid" && Lower("MIDI") == "midi"
  {
  }

  /** A supported format adds its one write at the end. */
  lemma SupportedCall(score: ScoreRecord, dir: string, formats: seq<string>, format: string)
    requires Lower(format) in FORMAT_MAP
    ensures ExportCalls(score, dir, formats + [format]) ==
      ExportCalls(score, dir, formats) + [WriteCall(FORMAT_MAP[Lower(format)].0, OutputPath(dir, Lower(format)), score)]
  {
    assert (formats + [format])[..|formats|] == formats;
  }

  /** A supported format whose key is new adds its entry at the end. */
  lemma NewEntry(dir: string, formats: seq<string>, format: string)
    requires Lower(format) in FORMAT_MAP && !HasKey(ExportWritten(dir, formats), Lower(format))
    ensures ExportWritten(dir, formats + [format]) == ExportWritten(dir, formats) + [(Lower(format), OutputPath(dir, Lower(format)))]
  {
    assert (formats + [format])[..|formats|] == formats;
  }

  /** The first two formats of the worked example. */
  lemma MidiThenMusicXml(dir: string)
    ensures ExportWritten(dir, ["midi", "musicxml"]) == [
      ("midi", FilePath(dir, "score.mid")), ("musicxml", FilePath(dir, "score.musicxml"))]
  {
    var midi, xml := FilePath(dir, "score.mid"), FilePath(dir, "score.musicxml");
    assert !HasKey([("midi", midi)], "musicxml");
    assert [] + ["midi"] == ["midi"];
    assert ["midi"] + ["musicxml"] == ["midi", "musicxml"];
    ExampleNamesLower();
    TableEntries(dir);
    NewEntry(dir, [], "midi");
    NewEntry(dir, ["midi"], "musicxml");
  }

  /** The worked example as entries: `midi`, `musicxml` and `pdf` each get their own `score.<ext>` path. */
  lemma WorkedExampleWritten(dir: string)
    ensures ExportWritten(dir, ["midi", "musicxml", "pdf"]) == [
      ("midi", FilePath(dir, "score.mid")), ("musicxml", FilePath(dir, "score.musicxml")), ("pdf", FilePath(dir, "score.pdf"))]
  {
    var midi, xml, pdf := FilePath(dir, "score.mid"), FilePath(dir, "score.musicxml"), FilePath(dir, "score.pdf");
    var w2 := [("midi", midi), ("musicxml", xml)];
    MidiThenMusicXml(dir);
    assert !HasKey(w2, "pdf");
    assert w2 + [("pdf", pdf)] == [("midi", midi), ("musicxml", xml), ("pdf", pdf)];
    assert ["midi", "musicxml"] + ["pdf"] == ["midi", "musicxml", "pdf"];
    ExampleNamesLower();
    TableEntries(dir);
    NewEntry(dir, ["midi", "musicxml"], "pdf");
  }

  /** The worked example as writes: `midi`, `musicxml` and `pdf` write three files with the three writers. */
  lemma WorkedExample(score: ScoreRecord, dir: string)
    ensures ExportCalls(score, dir, ["midi", "musicxml", "pdf"]) == [
      WriteCall("midi", FilePath(dir, "score.mid"), score),
      WriteCall("musicxml", FilePath(dir, "score.musicxml"), score),
      WriteCall("musicxml.pdf", FilePath(dir, "score.pdf"), score)]
  {
    var c1 := WriteCall("midi", FilePath(dir, "score.mid"), score);
    var c2 := WriteCall("musicxml", FilePath(dir, "score.musicxml"), score);
    var c3 := WriteCall("musicxml.pdf", FilePath(dir, "score.pdf"), score);
    assert [] + [c1] == [c1];
    assert [c1] + [c2] == [c1, c2];
    assert [c1, c2] + [c3] == [c1, c2, c3];
    assert [] + ["midi"] == ["midi"];
    assert ["midi"] + ["musicxml"] == ["midi", "musicxml"];
    assert ["midi", "musicxml"] + ["pdf"] == ["midi", "musicxml", "pdf"];
    ExampleNamesLower();
    TableEntries(dir);
    SupportedCall(score, dir, [], "midi");
    SupportedCall(score, dir, ["midi"], "musicxml");
    SupportedCall(score, dir, ["midi", "musicxml"], "pdf");
  }

  /** A supported format puts its entry: a new key at the end, an existing one in place. */
  lemma SupportedEntry(dir: string, formats: seq<string>, format: string)
    requires Lower(format) in FORMAT_MAP
    ensures ExportWritten(dir, formats + [format]) == Put(ExportWritten(dir, formats), Lower(format), OutputPath(dir, Lower(format)))
  {
    assert (formats + [format])[..|formats|] == formats;
  }

  /** `mid` then `midi`: two keys for the one file. */
  lemma MidThenMidi(dir: string)
    ensures ExportWritten(dir, ["mid", "midi"]) == [("mid", FilePath(dir, "score.mid")), ("midi", FilePath(dir, "score.mid"))]
  {
    var p := FilePath(dir, "score.mid");
    assert !HasKey([("mid", p)], "midi");
    assert [] + ["mid"] == ["mid"];
    assert ["mid"] + ["midi"] == ["mid", "midi"];
    assert [("mid", p)] + [("midi", p)] == [("mid", p), ("midi", p)];
    ExampleNamesLower();
    TableEntries(dir);
    NewEntry(dir, [], "mid");
    NewEntry(dir, ["mid"], "midi");
  }

  /** Aliases and case: `mid`, `midi` and `MIDI` give two keys for the same file. */
  lemma AliasesStayDistinct(dir: string)
    ensures ExportWritten(dir, ["mid", "midi", "MIDI"]) ==
      [("mid", FilePath(dir, "score.mid")), ("midi", FilePath(dir, "score.mid"))]
  {
    var p := FilePath(dir, "score.mid");
    var w := [("mid", p), ("midi", p)];
    MidThenMidi(dir);
    assert HasKey(w, "midi") by { assert w[1].0 == "midi"; }
    assert ["mid", "midi"] + ["MIDI"] == ["mid", "midi", "MIDI"];
    PutSame(w, "midi", p);
    ExampleNamesLower();
    TableEntries(dir);
    SupportedEntry(dir, ["mid", "midi"], "MIDI");
  }

  /** The same three names still write the file three times, once per request. */
  lemma AliasesWriteEach(score: ScoreRecord, dir: string)
    ensures |ExportCalls(score, dir, ["mid", "midi", "MIDI"])| == 3
  {
    assert [] + ["mid"] == ["mid"];
    assert ["mid"] + ["midi"] == ["mid", "midi"];
    assert ["mid", "midi"] + ["MIDI"] == ["mid", "midi", "MIDI"];
    ExampleNamesLower();
    TableEntries(dir);
    SupportedCall(score, dir, [], "mid");
    SupportedCall(score, dir, ["mid"], "midi");
    SupportedCall(score, dir, ["mid", "midi"], "MIDI");
  }
}
