/**
 * Reading a Suno export (suno/importer.py): each WAV file in `stems/` is named after its stem, the name is
 * mapped to a part, unmapped files are skipped and a later file for the same part replaces an earlier one.
 * Whether `stems/` exists, what reading `metadata.json` gives and the files `glob` lists, in its order,
 * are inputs.
 */
module SunoImporter {
  import opened Outcome
  import opened Assoc
  import opened Strings
  import opened PyObject

  /** `_PART_MAP`, in insertion order. */
  const PART_MAP: Dict<string> := [
    ("vocals", "lead_vocal"),
    ("backing_vox", "backing_vocal"),
    ("bass", "bass"),
    ("drums", "drums"),
    ("guitar", "backing_harmony"),
    ("synth", "backing_harmony"),
    ("pad", "backing_harmony"),
    ("keys", "backing_harmony")]

  /** The parts a Suno stem can become. */
  const SUNO_PARTS: set<string> := {"lead_vocal", "backing_vocal", "bass", "drums", "backing_harmony"}

  /** The value of the first entry, in order, whose key occurs somewhere in `name`. */
  function FirstContained(entries: Dict<string>, name: string): (r: Option<string>)
    ensures r.Some? ==> exists i :: 0 <= i < |entries| && r.value == entries[i].1
  {
    if entries == [] then None
    else if Contains(name, entries[0].0) then Some(entries[0].1)
    else
      var r := FirstContained(entries[1..], name);
      assert r.Some? ==> entries[1..] != [] && exists i :: 0 <= i < |entries[1..]| && r.value == entries[1..][i].1;
      assert forall i :: 1 <= i < |entries| ==> entries[i] == entries[1..][i - 1];
      r
  }

  /** `FirstContained` finds nothing exactly when no key occurs, and otherwise the first key that does. */
  lemma {:induction false} FirstContainedMeaning(entries: Dict<string>, name: string)
    ensures FirstContained(entries, name).None? <==> forall i :: 0 <= i < |entries| ==> !Contains(name, entries[i].0)
    ensures FirstContained(entries, name).Some? ==>
      exists i :: 0 <= i < |entries| && Contains(name, entries[i].0) && FirstContained(entries, name).value == entries[i].1 &&
                  (forall j :: 0 <= j < i ==> !Contains(name, entries[j].0))
  {
    if entries != [] && !Contains(name, entries[0].0) {
      var r := FirstContained(entries[1..], name);
      FirstContainedMeaning(entries[1..], name);
      assert forall i :: 1 <= i < |entries| ==> entries[i] == entries[1..][i - 1];
      if r.Some? {
        var i :| 0 <= i < |entries| - 1 && Contains(name, entries[1..][i].0) && r.value == entries[1..][i].1 &&
          forall j :: 0 <= j < i ==> !Contains(name, entries[1..][j].0);
        assert forall j :: 0 <= j < i + 1 ==> !Contains(name, entries[j].0) by {
          forall j | 0 <= j < i + 1 ensures !Contains(name, entries[j].0) {
            if j > 0 {
              assert entries[j] == entries[1..][j - 1];
            }
          }
        }
      }
    }
  }

  /** The table as a case analysis: exactly the eight stem names are keys. */
  function PartFor(k: string): Option<string>
  {
    if k == "vocals" then Some("lead_vocal")
    else if k == "backing_vox" then Some("backing_vocal")
    else if k == "bass" then Some("bass")
    else if k == "drums" then Some("drums")
    else if k == "guitar" || k == "synth" || k == "pad" || k == "keys" then Some("backing_harmony")
    else None
  }

  /** Looking a name up in the table gives the case analysis. */
  lemma PartMapLookup(k: string)
    ensures Get(PART_MAP, k) == PartFor(k)
  {
    var d := PART_MAP;
    if PartFor(k).None? {
      assert !HasKey(d, k) by {
        forall i | 0 <= i < |d| ensures d[i].0 != k {
          assert i == 0 || i == 1 || i == 2 || i == 3 || i == 4 || i == 5 || i == 6 || i == 7;
        }
      }
    } else {
      assert DistinctKeys(d);
      assert d[0].0 == "vocals" && d[1].0 == "backing_vox" && d[2].0 == "bass" && d[3].0 == "drums";
      assert d[4].0 == "guitar" && d[5].0 == "synth" && d[6].0 == "pad" && d[7].0 == "keys";
    }
  }

  /** A value of the table: a part some stem name maps to. */
  predicate IsTablePart(part: string)
  {
    exists i :: 0 <= i < |PART_MAP| && PART_MAP[i].1 == part
  }

  /** The table's values are the five Suno parts. */
  lemma TableParts(part: string)
    ensures IsTablePart(part) <==> part in SUNO_PARTS
  {
    if part in SUNO_PARTS {
      assert PART_MAP[0].1 == "lead_vocal" && PART_MAP[1].1 == "backing_vocal" && PART_MAP[2].1 == "bass";
      assert PART_MAP[3].1 == "drums" && PART_MAP[4].1 == "backing_harmony";
    }
  }

  /** `_map_stem_name(stem_name)`: an exact key wins; otherwise the first key that occurs in the name. */
  function MapStemName(stemName: string): (part: Option<string>)
    ensures part.Some? ==> IsTablePart(part.value)
  {
    var exact := Get(PART_MAP, stemName);
    if exact.Some? then exact else FirstContained(PART_MAP, stemName)
  }

  /** A WAV file in `stems/`: its stem (the name without `.wav`) and its path. */
  datatype WavFile = WavFile(stem: string, path: string)

  /** The assignments the loop makes, in order: one per file whose lowercased stem maps to a part. */
  function Assignments(files: seq<WavFile>): (entries: Dict<string>)
    ensures |entries| <= |files|
  {
    if files == [] then []
    else
      var last := files[|files| - 1];
      var part := MapStemName(Lower(last.stem));
      Assignments(files[..|files| - 1]) + if part.Some? then [(part.value, last.path)] else []
  }

  /**
   * `metadata.json` in a Suno export: absent, unreadable (`read_text` raises, for a directory or bytes that
   * are not UTF-8), not valid JSON, or the value it parses to.
   */
  datatype Metadata = Missing | Unreadable(reason: string) | Malformed | Parsed(payload: PyObj)

  /**
   * `_log_metadata(input_dir)`: it only logs, except that a read error escapes it, since it catches only
   * `JSONDecodeError`.
   */
  function LogMetadata(metadata: Metadata): (r: Result<()>)
    ensures r.Err? <==> metadata.Unreadable?
    ensures r.Err? ==> r.error == ReadError(metadata.reason)
  {
    if metadata.Unreadable? then Err(ReadError(metadata.reason)) else Ok(())
  }

  /** What `import_suno` returns for the stems directory it found (or did not) and the metadata beside it. */
  function ImportedStems(stemsDir: string, stemsDirExists: bool, metadata: Metadata, files: seq<WavFile>)
    : Result<Dict<string>>
  {
    if !stemsDirExists then Err(FileNotFoundError("Missing stems directory: " + stemsDir))
    else
      var _ :- LogMetadata(metadata);
      var stems := PutAll(Assignments(files));
      if stems == [] then Err(FileNotFoundError("No supported stems found in " + stemsDir))
      else Ok(stems)
  }

  /** One more file of the listing: its assignment, if its stem maps to a part. */
  lemma AssignmentsStep(files: seq<WavFile>, i: int)
    requires 0 <= i < |files|
    ensures MapStemName(Lower(files[i].stem)).None? ==> Assignments(files[..i + 1]) == Assignments(files[..i])
    ensures MapStemName(Lower(files[i].stem)).Some? ==>
      Assignments(files[..i + 1]) == Assignments(files[..i]) + [(MapStemName(Lower(files[i].stem)).value, files[i].path)]
  {
    assert files[..i + 1][..i] == files[..i];
  }

  /** `import_suno(input_dir)` as written: map each stem, skip the unmapped ones, assign the rest. */
  method ImportSuno(stemsDir: string, stemsDirExists: bool, metadata: Metadata, files: seq<WavFile>)
    returns (r: Result<Dict<string>>)
    ensures r == ImportedStems(stemsDir, stemsDirExists, metadata, files)
  {
    if !stemsDirExists {
      return Err(FileNotFoundError("Missing stems directory: " + stemsDir));
    }
    var logged := LogMetadata(metadata);
    if logged.Err? {
      return Err(logged.error);
    }
    var stems: Dict<string> := [];
    for i := 0 to |files|
      invariant stems == PutAll(Assignments(files[..i]))
    {
      var partName := MapStemName(Lower(files[i].stem));
      AssignmentsStep(files, i);
      if partName.None? {
        continue;
      }
      PutAllAppend(Assignments(files[..i]), partName.value, files[i].path);
      stems := Put(stems, partName.value, files[i].path);
    }
    assert files[..|files|] == files;
    if stems == [] {
      return Err(FileNotFoundError("No supported stems found in " + stemsDir));
    }
    r := Ok(stems);
  }

  /**
   * A successful import has one entry per part that some file maps to, holding the path of the LAST such
   * file, and never more entries than files; every part is one of the five Suno parts.
   */
  lemma LastFileWins(stemsDir: string, metadata: Metadata, files: seq<WavFile>, part: string)
    requires ImportedStems(stemsDir, true, metadata, files).Ok?
    ensures Get(ImportedStems(stemsDir, true, metadata, files).value, part) == LastFor(Assignments(files), part)
    ensures |ImportedStems(stemsDir, true, metadata, files).value| <= |files|
    ensures DistinctKeys(ImportedStems(stemsDir, true, metadata, files).value)
  {
    GetPutAll(Assignments(files), part);
    PutAllSize(Assignments(files));
  }

  /** Every assigned part is one of the five Suno parts, so the import has no other keys. */
  lemma {:induction false} AssignedParts(files: seq<WavFile>)
    ensures forall i :: 0 <= i < |Assignments(files)| ==> Assignments(files)[i].0 in SUNO_PARTS
  {
    if files != [] {
      var n := |files| - 1;
      AssignedParts(files[..n]);
      AssignmentsStep(files, n);
      assert files[..n + 1] == files;
      var part := MapStemName(Lower(files[n].stem));
      if part.Some? {
        TableParts(part.value);
      }
    }
  }

  /**
   * The import raises exactly when `stems/` is missing, `metadata.json` cannot be read or no file maps to a
   * part: the read error as it is, and `FileNotFoundError` otherwise.
   */
  lemma ImportErrors(stemsDir: string, stemsDirExists: bool, metadata: Metadata, files: seq<WavFile>)
    ensures ImportedStems(stemsDir, stemsDirExists, metadata, files).Err? <==>
      !stemsDirExists || metadata.Unreadable? || Assignments(files) == []
    ensures stemsDirExists && metadata.Unreadable? ==>
      ImportedStems(stemsDir, stemsDirExists, metadata, files) == Err(ReadError(metadata.reason))
    ensures ImportedStems(stemsDir, stemsDirExists, metadata, files).Err? && !metadata.Unreadable? ==>
      ImportedStems(stemsDir, stemsDirExists, metadata, files).error.FileNotFoundError?
  {
    if Assignments(files) != [] {
      var e := Assignments(files);
      GetPutAll(e, e[0].0);
      assert HasKey(e, e[0].0);
    }
  }

  /** Metadata that can be read only gets logged: which readable metadata the export has changes nothing. */
  lemma ReadableMetadataIgnored(stemsDir: string, stemsDirExists: bool, m: Metadata, m': Metadata, files: seq<WavFile>)
    requires !m.Unreadable? && !m'.Unreadable?
    ensures ImportedStems(stemsDir, stemsDirExists, m, files) == ImportedStems(stemsDir, stemsDirExists, m', files)
  {
  }

  /**
   * `_map_stem_name` in full: one of the eight keys gives its own part; any other name gives the part of the
   * first key, in table order, that occurs in it, and nothing when none does.
   */
  lemma MapStemNameMeaning(stemName: string)
    ensures PartFor(stemName).Some? ==> MapStemName(stemName) == PartFor(stemName)
    ensures PartFor(stemName).None? ==>
      (MapStemName(stemName).None? <==> forall i :: 0 <= i < |PART_MAP| ==> !Contains(stemName, PART_MAP[i].0))
    ensures PartFor(stemName).None? && MapStemName(stemName).Some? ==>
      exists i :: 0 <= i < |PART_MAP| && Contains(stemName, PART_MAP[i].0) && MapStemName(stemName).value == PART_MAP[i].1 &&
                  (forall j :: 0 <= j < i ==> !Contains(stemName, PART_MAP[j].0))
  {
    PartMapLookup(stemName);
    FirstContainedMeaning(PART_MAP, stemName);
  }

  /** The keys with a `b` in them: `bass`, and `backing_vox`, which comes earlier in the table. */
  lemma BassKeys(name: string)
    requires PartFor(name).Some? && Contains(name, "bass")
    ensures name == "bass" || name == "backing_vox"
  {
    if name != "bass" && name != "backing_vox" {
      NoOccurrence("vocals", "bass");
      NoOccurrence("drums", "bass");
      NoOccurrence("guitar", "bass");
      NoOccurrence("synth", "bass");
      NoOccurrence("keys", "bass");
    }
  }

  /** The only key that contains `vocals` is `vocals` itself. */
  lemma VocalsKeys(name: string)
    requires PartFor(name).Some? && Contains(name, "vocals")
    ensures name == "vocals"
  {
    if name != "vocals" {
      NoOccurrence("backing_vox", "vocals");
      NoOccurrence("guitar", "vocals");
    }
  }

  /** Any stem name containing `vocals` is the lead vocal, whatever else it contains: `vocals` is the first key. */
  lemma VocalsFirst(name: string)
    requires Contains(name, "vocals")
    ensures MapStemName(name) == Some("lead_vocal")
  {
    PartMapLookup(name);
    if PartFor(name).Some? {
      VocalsKeys(name);
    } else {
      assert PART_MAP[0].0 == "vocals";
    }
  }

  /**
   * A stem name containing `bass` but neither of the two earlier keys is the bass, even when it also contains
   * a later key such as `drums`.
   */
  lemma BassBeforeLaterKeys(name: string)
    requires Contains(name, "bass") && !Contains(name, "vocals") && !Contains(name, "backing_vox")
    ensures MapStemName(name) == Some("bass")
  {
    PartMapLookup(name);
    if PartFor(name).Some? {
      BassKeys(name);
      assert Contains(name, name) by { assert name[..|name|] == name; }
    } else {
      var d := PART_MAP;
      assert d[0].0 == "vocals" && d[1..][0].0 == "backing_vox" && d[1..][1..][0] == ("bass", "bass");
      FirstContainedStep(d, name);
      FirstContainedStep(d[1..], name);
      FirstContainedStep(d[1..][1..], name);
    }
  }

  /** One step of the scan: the first key is taken if it occurs in the name, and skipped otherwise. */
  lemma FirstContainedStep(entries: Dict<string>, name: string)
    requires entries != []
    ensures FirstContained(entries, name) ==
      if Contains(name, entries[0].0) then Some(entries[0].1) else FirstContained(entries[1..], name)
  {
  }

  /** `lead_vocals` is not a key but contains `vocals`. */
  lemma LeadVocals()
    ensures MapStemName("lead_vocals") == Some("lead_vocal")
  {
    assert OccursAt("lead_vocals", "vocals", 5);
    VocalsFirst("lead_vocals");
  }

  /** `bass_drums` contains both `bass` and `drums` and becomes bass, the earlier key. */
  lemma BassDrums()
    ensures MapStemName("bass_drums") == Some("bass")
  {
    assert OccursAt("bass_drums", "bass", 0);
    NoOccurrence("bass_drums", "vocals");
    NoOccurrence("bass_drums", "backing_vox");
    BassBeforeLaterKeys("bass_drums");
  }

  /** Each file's path under the part at the same position. */
  function Paired(parts: seq<string>, files: seq<WavFile>): (entries: Dict<string>)
    requires |parts| == |files|
    ensures |entries| == |files|
  {
    seq(|files|, i requires 0 <= i < |files| => (parts[i], files[i].path))
  }

  lemma PairedSnoc(parts: seq<string>, files: seq<WavFile>)
    requires |parts| == |files| > 0
    ensures Paired(parts, files) ==
      Paired(parts[..|files| - 1], files[..|files| - 1]) + [(parts[|files| - 1], files[|files| - 1].path)]
  {
  }

  /** When every stem maps to a part, there is one assignment per file, in the order of the listing. */
  lemma {:induction false} EveryFileMapped(files: seq<WavFile>, parts: seq<string>)
    requires |parts| == |files|
    requires forall i :: 0 <= i < |files| ==> MapStemName(Lower(files[i].stem)) == Some(parts[i])
    ensures Assignments(files) == Paired(parts, files)
  {
    if files != [] {
      var n := |files| - 1;
      assert files[..n + 1] == files;
      AssignmentsStep(files, n);
      EveryFileMapped(files[..n], parts[..n]);
      PairedSnoc(parts, files);
    }
  }

  /** A stem that is a key, in lower case, maps to that key's part. */
  lemma ExactStem(stem: string)
    requires IsLowerCase(stem) && PartFor(stem).Some?
    ensures MapStemName(Lower(stem)) == PartFor(stem)
  {
    LowerOfLowerCase(stem);
    MapStemNameMeaning(stem);
  }

  /** The part of each file whose stem is a key. */
  function KeyParts(files: seq<WavFile>): (parts: seq<string>)
    requires forall i :: 0 <= i < |files| ==> PartFor(files[i].stem).Some?
    ensures |parts| == |files|
    ensures forall i :: 0 <= i < |files| ==> Some(parts[i]) == PartFor(files[i].stem)
  {
    seq(|files|, i requires 0 <= i < |files| => PartFor(files[i].stem).value)
  }

  /** A listing whose stems are all lower-case keys is assigned file by file, each to its key's part. */
  lemma {:induction false} KeyStems(files: seq<WavFile>)
    requires forall i :: 0 <= i < |files| ==> IsLowerCase(files[i].stem) && PartFor(files[i].stem).Some?
    ensures Assignments(files) == Paired(KeyParts(files), files)
  {
    if files != [] {
      var n := |files| - 1;
      assert files[..n + 1] == files;
      AssignmentsStep(files, n);
      ExactStem(files[n].stem);
      KeyStems(files[..n]);
      assert KeyParts(files[..n]) == KeyParts(files)[..n];
      PairedSnoc(KeyParts(files), files);
    }
  }

  /** The export of the importer test: five stems, each a different part. */
  const TEST_FILES: seq<WavFile> := [
    WavFile("vocals", "stems/vocals.wav"),
    WavFile("backing_vox", "stems/backing_vox.wav"),
    WavFile("bass", "stems/bass.wav"),
    WavFile("drums", "stems/drums.wav"),
    WavFile("keys", "stems/keys.wav")]

  /** The parts the importer test expects, in the order the files are listed. */
  const TEST_STEMS: Dict<string> := [
    ("lead_vocal", "stems/vocals.wav"),
    ("backing_vocal", "stems/backing_vox.wav"),
    ("bass", "stems/bass.wav"),
    ("drums", "stems/drums.wav"),
    ("backing_harmony", "stems/keys.wav")]

  /** Each test file's stem is a lower-case key, and the five parts are those expected, all different. */
  lemma TestParts()
    ensures forall i :: 0 <= i < |TEST_FILES| ==> IsLowerCase(TEST_FILES[i].stem) && PartFor(TEST_FILES[i].stem).Some?
    ensures Paired(KeyParts(TEST_FILES), TEST_FILES) == TEST_STEMS
    ensures DistinctKeys(TEST_STEMS)
  {
    var f := TEST_FILES;
    assert forall i :: 0 <= i < |f| ==> IsLowerCase(f[i].stem) && PartFor(f[i].stem).Some?;
    var p := Paired(KeyParts(f), f);
    assert p[0] == TEST_STEMS[0] && p[1] == TEST_STEMS[1] && p[2] == TEST_STEMS[2];
    assert p[3] == TEST_STEMS[3] && p[4] == TEST_STEMS[4];
  }

  /** The importer test: each of the five files lands under its own part, in the order found. */
  lemma WorkedExample()
    ensures Assignments(TEST_FILES) == TEST_STEMS
    ensures ImportedStems("stems", true, Missing, TEST_FILES) == Ok(TEST_STEMS)
  {
    TestAssignments();
    TestPutAll();
  }

  /** The five test files are assigned in the order listed. */
  lemma TestAssignments()
    ensures Assignments(TEST_FILES) == TEST_STEMS
  {
    TestParts();
    KeyStems(TEST_FILES);
  }

  /** Putting the five different parts one after the other keeps them as they are. */
  lemma TestPutAll()
    ensures PutAll(TEST_STEMS) == TEST_STEMS
  {
    TestParts();
    PutAllDistinct(TEST_STEMS);
  }
}
