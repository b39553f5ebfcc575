# stemscore: a verified model of the score-assembly stage

stemscore turns a full mix, or a Suno export of pre-separated stems, into a score of up to six parts, written
as MIDI, MusicXML and PDF. This project models in Dafny the deterministic part of that program and proves
what it does:

- **Score assembly** (`src/stemscore/assembler/`):
  - the quantizer snaps note times to a tick grid;
  - the merger builds one score with one track per part;
  - the exporter issues one `write` per supported format;
  - `assemble` runs the three in sequence and counts parts and notes.
- **The transcribers, over their analysed inputs.** Each takes its analysed input (labels, onsets, Basic Pitch
  output) and builds events from it:
  - the chord segmenter and chord templates;
  - the drum class list, the centroid-to-class mapping, the velocity scaling and the hit loop;
  - pitch-event normalisation, its key aliases and defaults, and the minimum-length filter;
  - the part-to-transcriber dispatch.
- **The time-signature decision** between three and four beats per bar, from the onset envelope and the beat
  frames.
- **Input handling**:
  - the input router;
  - the Suno stem-name mapping and import loop;
  - the pipeline's stem renaming, part filter, analysis-stem choice, genre presets and Suno tempo override;
  - the `transcribe` command's comma-list parsing and its differences from `run_pipeline`.
- **The interface-string lookup** with its fallbacks.

## How the program is modelled

- **Python values.** Python dictionaries of events are `map<string, PyObj>`, with `PyObj` a small Python
  object datatype. Dictionaries whose insertion order matters are association lists (`Assoc.Dict`):
  - assigning to an existing key keeps its position;
  - assigning to a new key appends it.
- **`float()` and `int()`** are modelled on numbers, booleans and plain decimal strings; other objects raise.
- **Arithmetic.** Seconds and ticks are exact reals. Python's `round` is written out as round-half-to-even, and
  `int()` of a real truncates toward zero.
- **Exceptions** are values of `Outcome.Result`. The wrapping `except Exception` blocks of the transcribers are
  `Outcome.Wrapped`.
- **Imperative code stays imperative.**
  - Every source loop that appends to a list or fills a dictionary is a `method` with a loop: the quantizer
    loop, the merger's loops, the exporter loop, `assemble`'s loop, the chord segmentation loop, `_template`,
    `_build_templates`, the drum loop, the pitch filter, the Suno import, the route-B renaming and the
    `note_parts` loop that `run_pipeline` and `transcribe` share.
  - Each such method is proved equal to a specification function, and the properties are proved about that
    function.
- **music21 and the filesystem.**
  - The music21 `Score` and `Part` are classes (`Merger.Score`, `Merger.Part`) with the `insert`/`append`
    shape of the fakes in the merger test.
  - The filesystem the exporter writes to is a class (`Exporter.FileSystem`) that logs each `mkdir` and each
    `score.write`.
- **External collaborators are parameters:**
  - the analysis, separation and transcription calls of the pipeline (`Pipeline.World`);
  - the filesystem facts of the router;
  - the glob of `stems/`;
  - `metadata.json`: missing, unreadable, not valid JSON, or the value it parses to (`SunoImporter.Metadata`);
  - the onset, chroma and Basic Pitch results of the transcribers.

In these places the code does less than its names and docstrings suggest (the docstring of `quantize_notes`, for
example, says it snaps note times to the nearest rhythmic grid); the model follows the code:

- **Grid alignment.** Ticks are grid multiples only without swing and when the level divides 1920
  (`QuantizerFacts.TimingOnGrid`, an integer grid). With swing, an odd grid index is shifted by half a step.
- **Positive duration.** It holds only when the grid is wider than half a tick, or wider than one tick with
  swing (`QuantizerFacts.DurationPositive`). At a finer grid the rounded duration can be 0
  (`QuantizerFacts.ZeroDurationAtFineGrid`).
- **Drum events.** The drum transcriber gives its events no `end`, so quantizing a drums part that has hits
  raises. Nothing synthesises an end time for them (`DrumFacts.DrumsPartRaises`).
- **The merger's fallback** for events without ticks multiplies seconds by 480 as if they were beats
  (`MergerFacts.SecondsFallback`).
- **`total_notes`** counts the quantized notes, so events the merger later skips are still counted
  (`AssemblerFacts.AssemblyCounts`).
- **A failing `write`** is not caught per format. In the model, writes do not fail.

## Model

| member | source | states |
|---|---|---|
| Router.RouteInput | src/stemscore/router.py:11-20 | route A exactly for a directory whose `stems/` holds at least three WAV files; otherwise route B exactly for a file with one of the five suffixes; otherwise `FileNotFoundError` naming the path |
| Router.DirectoryWithoutStems | src/stemscore/router.py:12-16 | a directory without `stems/`, or with fewer than three WAV files in it, is no valid input |
| Router.SuffixCase | src/stemscore/router.py:17 | the suffix test is case-sensitive: `.MP3` is rejected, `.mp3` is a full mix |
| Strings.Lower | src/stemscore/pipeline.py:42 | `str.lower` on ASCII: same length, each character lowered |
| Strings.Title | src/stemscore/assembler/merger.py:51 | `str.title` on ASCII: a letter is upper-cased after a non-letter, lower-cased otherwise |
| Strings.StripMeaning | src/stemscore/cli.py:35 | `strip()` removes exactly the leading and trailing whitespace, `\x1c` to `\x1f` included, and keeps the middle; the result is a slice of the input with only whitespace cut off at either end |
| Strings.JoinSplit | src/stemscore/cli.py:35 | `split(",")` loses nothing: joining the pieces with the separator gives the string back |
| Strings.SplitJoin | src/stemscore/cli.py:35 | splitting pieces that were joined, none of which holds the separator, gives the pieces back |
| Strings.SplitConcat | src/stemscore/cli.py:35 | splitting `s + sep + t` gives the pieces of `s` followed by the pieces of `t` |
| Strings.NatToString | src/stemscore/assembler/merger.py:46 | the decimal digits of `n`: their value is `n`, and there is no leading zero |
| Assoc.Put | src/stemscore/pipeline.py:110 | dictionary assignment: an existing key is overwritten in place; a new key is appended; every other key keeps its value |
| Assoc.Get | src/stemscore/pipeline.py:121-122 | a lookup finds a value exactly for a present key, one the dictionary holds under it; with distinct keys, the only one |
| Assoc.GetPutAll | src/stemscore/suno/importer.py:46 | after a run of assignments, each key holds the value assigned to it last |
| Assoc.PutAllDistinct | src/stemscore/assembler/__init__.py:51-53 | assigning distinct keys in order builds exactly that list |
| Assoc.PutAllSize | src/stemscore/pipeline.py:107-111 | a run of assignments gives distinct keys and no more entries than assignments |
| Outcome.MapAllOk | src/stemscore/assembler/__init__.py:51-54 | a loop that may raise succeeds exactly when every step does, and keeps every result in order |
| Outcome.MapAllFailsAt | src/stemscore/assembler/__init__.py:52 | the first step that raises decides the loop's error |
| Outcome.MapAllErr | src/stemscore/assembler/__init__.py:51-53 | a loop that raises has a first failing step, and raises that step's error |
| Outcome.Wrapped | src/stemscore/transcriber/pitch_transcriber.py:44-48 | a `TranscriptionError` passes through; any other error becomes a `TranscriptionError` with the given message |
| Outcome.SomesLength | src/stemscore/assembler/merger.py:57-58 | dropping the skipped events keeps at most as many as there were |
| PyObject.Trunc | src/stemscore/transcriber/drum_transcriber.py:83 | `int()` of a real truncates toward zero |
| PyObject.Float | src/stemscore/transcriber/pitch_transcriber.py:90 | `float()` returns a number as it is, and raises exactly for objects it cannot convert |
| PyObject.Int | src/stemscore/transcriber/pitch_transcriber.py:97 | `int()` truncates a number toward zero, and raises exactly for objects it cannot convert |
| I18n.T | src/stemscore/i18n.py:179-182 | the text in the language asked for, else the English text, else the key itself |
| I18n.TextSource | src/stemscore/i18n.py:181-182 | `t` never raises, and returns either the key or one of the texts of its entry |
| I18n.CompleteTable | src/stemscore/i18n.py:3-176 | with a complete table, a known key never falls back to itself; Japanese and English are served in their own language |
| I18n.AppTitle | src/stemscore/i18n.py:4-7 | the title in Japanese; in French, which the table lacks, the English title; an unknown key comes back as itself |
| Quantizer.QuantizeSettings.GridSize | src/stemscore/assembler/quantizer.py:17-19 | a positive level gives a positive grid of `1920 / level` ticks |
| Quantizer.QuantizeSettings.TicksPerSecond | src/stemscore/assembler/quantizer.py:21-23 | 480 ticks per beat at `tempo` beats per minute is `8 * tempo` ticks per second |
| Quantizer.WithTiming | src/stemscore/assembler/quantizer.py:67-71 | the copy keeps every other field of the note and overwrites only `tick`, `duration_ticks`, `start` and `end` |
| Quantizer.QuantizeNote | src/stemscore/assembler/quantizer.py:53-73 | fails exactly when `start` or `end` is missing or cannot be converted, in that order of checks; otherwise the copy carries the note's snapped timing |
| Quantizer.Quantize | src/stemscore/assembler/quantizer.py:43-76 | tempo is checked before level, both before any note; then the notes are processed in order and the first failing note raises |
| Quantizer.QuantizeNotes | src/stemscore/assembler/quantizer.py:26-76 | the loop of `quantize_notes` computes `Quantize` |
| Quantizer.QuantizeOne | src/stemscore/assembler/quantizer.py:53-73 | one pass of the loop body computes `QuantizeNote` |
| Quantizer.RetimeNote | src/stemscore/assembler/quantizer.py:57-71 | snapping, repairing and copying one note give the note with its new timing |
| Quantizer.RoundHalfEven | src/stemscore/assembler/quantizer.py:82 | Python's `round` on a real, with no contract of its own; `QuantizerFacts.RoundHalfEvenNearest` specifies it |
| Quantizer.SnapTicks | src/stemscore/assembler/quantizer.py:79-86 | `_snap_ticks`, with no contract of its own; `QuantizerFacts.SnapNearest` and `QuantizerFacts.SnapSwing` specify it |
| QuantizerFacts.RoundHalfEvenNearest | src/stemscore/assembler/quantizer.py:82 | `round` is within one half of its argument, and picks the even neighbour on a tie |
| QuantizerFacts.SnapNearest | src/stemscore/assembler/quantizer.py:79-86 | without swing, the snapped position is the nearest grid multiple, within half a step |
| QuantizerFacts.SnapSwing | src/stemscore/assembler/quantizer.py:79-86 | a grid that is not positive leaves ticks unchanged; swing adds half a step exactly at odd grid indexes |
| QuantizerFacts.SpanWidened | src/stemscore/assembler/quantizer.py:63-64 | after the repair the end is after the start; a snapped end at or before the start becomes start plus one step |
| QuantizerFacts.SpanLength | src/stemscore/assembler/quantizer.py:60-64 | the snapped span is at least one grid step, or half a step with swing |
| QuantizerFacts.TimingSeconds | src/stemscore/assembler/quantizer.py:66-71 | the rewritten seconds convert back to exactly `tick` and `tick + duration_ticks` |
| QuantizerFacts.TickNearStart | src/stemscore/assembler/quantizer.py:57-68 | without swing, the tick is within half a step plus one half of the start converted to ticks |
| QuantizerFacts.DurationPositive | src/stemscore/assembler/quantizer.py:63-66 | a grid wider than half a tick, or than one tick with swing, gives a duration of at least one tick |
| QuantizerFacts.TimingOnGrid | src/stemscore/assembler/quantizer.py:19 | without swing and on an integer grid, tick and duration are grid multiples, and the duration is at least one step |
| QuantizerFacts.QuantizeIdempotent | src/stemscore/assembler/quantizer.py:53-73 | without swing, and when the level divides 1920, quantizing a quantized note changes nothing |
| QuantizerFacts.TimingIdempotent | src/stemscore/assembler/quantizer.py:57-66 | on an integer grid without swing, snapping already-snapped seconds gives the same timing |
| QuantizerFacts.RequantizeReadsSeconds | src/stemscore/assembler/quantizer.py:54-71 | requantizing a quantized note reads only its rewritten `start` and `end` |
| QuantizerFacts.WholeGrid | src/stemscore/assembler/quantizer.py:19 | a level dividing 1920 gives a whole grid of `1920 / level` ticks |
| QuantizerFacts.WithTimingTwice | src/stemscore/assembler/quantizer.py:67-71 | a second retiming replaces the first one entirely |
| QuantizerFacts.QuantizeAll | src/stemscore/assembler/quantizer.py:52-73 | succeeds exactly when every note quantizes; then it has the same length and order, with element `i` the quantized note `i` |
| QuantizerFacts.QuantizeFailsAt | src/stemscore/assembler/quantizer.py:53-55 | the first failing note decides the error; a note missing `start` or `end` makes the whole call raise |
| QuantizerFacts.SixteenthsAt120 | src/stemscore/assembler/quantizer.py:8-23 | sixteenth notes at 120 bpm: a grid of 120 ticks and 960 ticks per second |
| QuantizerFacts.WorkedExample | tests/test_assembler/test_quantizer.py:6-18 | 0.13 s to 0.36 s becomes tick 120 and 240 ticks long, i.e. 0.125 s to 0.375 s |
| QuantizerFacts.WorkedExampleNote | tests/test_assembler/test_quantizer.py:6-18 | the quantized copy of the test note, with its pitch and velocity kept |
| QuantizerFacts.SwingNotIdempotent | src/stemscore/assembler/quantizer.py:84-85 | with swing, quantizing a quantized note can move it again |
| QuantizerFacts.ZeroDurationAtFineGrid | src/stemscore/assembler/quantizer.py:19 | at level 7680 the grid is a quarter tick, and a zero-length note gets `duration_ticks` 0 |
| Merger.InsertNote | src/stemscore/assembler/merger.py:82-108 | inserts the note's placement, inserts nothing for a skipped note, or raises the conversion error; the part is otherwise unchanged |
| Merger.FillPart | src/stemscore/assembler/merger.py:57-58 | the part's inserts grow by the placements of its notes, in order, unless a conversion raises |
| Merger.NewPart | src/stemscore/assembler/merger.py:49-60 | builds a fresh part whose record is `BuildPart` of the entry |
| Merger.MergeParts | src/stemscore/assembler/merger.py:19-63 | `merge_parts` builds a fresh score whose record is `Merge`, or raises its error |
| Merger.BuildPart | src/stemscore/assembler/merger.py:49-60 | the record of one part, with no contract of its own; `MergerFacts.NameAndInstrument`, `MergerFacts.DrumsKeepTimed` and `MergerFacts.PartNeverRaises` specify it |
| Merger.Merge | src/stemscore/assembler/merger.py:19-63 | the record `merge_parts` builds, with no contract of its own; `MergerFacts.MergeShape` and `MergerFacts.MergeFailsAt` specify it |
| Merger.Part.Append | tests/test_assembler/test_merger.py:28-29 | appends an instrument and changes nothing else |
| Merger.Part.Insert | tests/test_assembler/test_merger.py:31-32 | appends an `(offset, event)` insert and changes nothing else |
| Merger.Score.Insert | tests/test_assembler/test_merger.py:15-16 | appends an `(offset, mark)` insert and changes nothing else |
| Merger.Score.Append | tests/test_assembler/test_merger.py:18-19 | appends a part and changes nothing else |
| MergerFacts.NameAndInstrument | src/stemscore/assembler/merger.py:9-16 | a name of the six-entry table gets that display name and the instrument of the same name; any other name gets its title case and the generic instrument |
| MergerFacts.TickedPlacement | src/stemscore/assembler/merger.py:83-108 | a `tick` and `duration_ticks` place a drum hit at `tick / 480` quarters; a note of another part needs a pitch and is skipped without one |
| MergerFacts.SecondsFallback | src/stemscore/assembler/merger.py:86-93 | without both ticks, the position is `start * 480` and the length `max((end - start) * 480, 1)` ticks, once `start` and `end` are present |
| MergerFacts.UntimedSkipped | src/stemscore/assembler/merger.py:86-91 | an event with no usable timing is skipped without raising |
| MergerFacts.MalformedTickRaises | src/stemscore/assembler/merger.py:83 | a `tick` that `float()` rejects raises out of the merger |
| MergerFacts.ConvertibleNeverRaises | src/stemscore/assembler/merger.py:82-108 | an event whose fields convert never raises; it is placed exactly when it is timed and is a drum hit or has a pitch |
| MergerFacts.PartNeverRaises | src/stemscore/assembler/merger.py:57-58 | a part of convertible events never raises, and inserts at most one event per note |
| MergerFacts.DrumsKeepTimed | src/stemscore/assembler/merger.py:98-99 | in the drums part every timed event is inserted, in order, as an unpitched hit |
| MergerFacts.PitchlessPartEmpty | src/stemscore/assembler/merger.py:100-104 | outside the drums part, events without `pitch` (such as chord events) leave the part empty |
| MergerFacts.MergeShape | src/stemscore/assembler/merger.py:36-60 | the tempo check comes before the time-signature check; then three marks at offset 0; then one part per entry, in order, with its id, display name, single instrument and placements |
| MergerFacts.MergeFailsAt | src/stemscore/assembler/merger.py:48-60 | the first part whose notes raise decides the error |
| MergerFacts.WorkedExample | tests/test_assembler/test_merger.py:86-95 | a lead vocal and a drums part merge into two tracks with ids `lead_vocal` and `drums` |
| Exporter.FileSystem.Mkdir | src/stemscore/assembler/exporter.py:29 | logs one directory creation and no write |
| Exporter.FileSystem.Write | src/stemscore/assembler/exporter.py:39 | logs one `score.write` call and no directory |
| Exporter.ExportScore | src/stemscore/assembler/exporter.py:18-43 | creates the output directory, then makes the writes and returns the dictionary that the format list determines |
| Exporter.ExportCalls | src/stemscore/assembler/exporter.py:32-39 | the writes `export_score` makes, with no contract of its own; `ExporterFacts.ExportCallsConcat`, `ExporterFacts.OneWritePerSupportedFormat` and `ExporterFacts.WritesFollowTable` specify it |
| Exporter.ExportWritten | src/stemscore/assembler/exporter.py:32-43 | the dictionary `export_score` returns, with no contract of its own; `ExporterFacts.WrittenKeys` and `ExporterFacts.RepeatedFormatRewrites` specify it |
| ExporterFacts.ExportCallsConcat | src/stemscore/assembler/exporter.py:32-40 | writes happen in the order of the formats: the writes for `xs + ys` are those for `xs`, then those for `ys` |
| ExporterFacts.OneWritePerSupportedFormat | src/stemscore/assembler/exporter.py:32-39 | one write per requested format whose lower case is in the table |
| ExporterFacts.WritesFollowTable | src/stemscore/assembler/exporter.py:37-39 | every write is of this score, with a table writer, to `score<suffix>` of that entry |
| ExporterFacts.WrittenKeys | src/stemscore/assembler/exporter.py:32-40 | the result's keys are distinct, and are exactly the supported lower-cased formats requested; each maps to its fixed path |
| ExporterFacts.UnsupportedSkipped | src/stemscore/assembler/exporter.py:34-36 | an unsupported format adds no write and no entry, and does not raise |
| ExporterFacts.RepeatedFormatRewrites | src/stemscore/assembler/exporter.py:40 | a repeated format rewrites its key and adds none |
| ExporterFacts.ExportStep | src/stemscore/assembler/exporter.py:32-40 | one more format adds its write; a supported one is assigned under its lower-cased name |
| ExporterFacts.TableEntries | src/stemscore/assembler/exporter.py:9-15 | `midi` and `mid` write `score.mid` with `midi`; `musicxml` and its alias `xml` write `score.musicxml`; `pdf` writes `score.pdf` with `musicxml.pdf` |
| ExporterFacts.WorkedExample | tests/test_assembler/test_exporter.py:16-24 | midi, musicxml and pdf give the three writes of the test, in order |
| ExporterFacts.WorkedExampleWritten | tests/test_assembler/test_exporter.py:16-20 | and the three paths of the test |
| ExporterFacts.AliasesStayDistinct | src/stemscore/assembler/exporter.py:38-40 | `mid`, `midi` and `MIDI` give two keys with the same path |
| ExporterFacts.MidThenMidi | src/stemscore/assembler/exporter.py:9-11 | `mid` then `midi` give two keys with the same `score.mid` path |
| ExporterFacts.AliasesWriteEach | src/stemscore/assembler/exporter.py:39 | yet each of the three writes once |
| Assembler.QuantizeParts | src/stemscore/assembler/__init__.py:48-54 | the loop stores each quantized part under its name and counts its notes, or raises the first quantizer error |
| Assembler.NoteCountAppend | src/stemscore/assembler/__init__.py:54 | adding a part adds its notes to the total |
| Assembler.Assemble | src/stemscore/assembler/__init__.py:23-60 | returns `Assembly`; on success the directory is created and the score is written once per supported format; when quantizing or merging raises, nothing is created |
| Assembler.Assembly | src/stemscore/assembler/__init__.py:23-60 | the result of `assemble`, with no contract of its own; `AssemblerFacts.AssemblyCounts` and `AssemblerFacts.QuantizeErrorFirst` specify it |
| AssemblerFacts.QuantizedParts | src/stemscore/assembler/__init__.py:51-53 | the parts keep their names and order, each quantized with the same settings |
| AssemblerFacts.QuantizeLoop | src/stemscore/assembler/__init__.py:51-53 | the loop succeeds exactly when every part quantizes, and then gives each part quantized under its own name |
| AssemblerFacts.QuantizedNoteCount | src/stemscore/assembler/__init__.py:54 | quantizing keeps each part's length, so the total equals the input notes |
| AssemblerFacts.AssemblyCounts | src/stemscore/assembler/__init__.py:56-60 | success exactly when merging succeeds; then `num_parts` is the number of parts, `total_notes` the number of input notes, `output_files` the exporter's result, and the score is merged from the quantized parts |
| AssemblerFacts.QuantizeErrorFirst | src/stemscore/assembler/__init__.py:52 | the first part that fails to quantize decides the error, before any merge or export |
| AssemblerFacts.PartWithoutEndsRaises | src/stemscore/assembler/quantizer.py:54-55 | a part whose notes have no `end` makes `assemble` raise the missing-times error |
| AssemblerFacts.MissingEndRaises | src/stemscore/assembler/__init__.py:51-53 | any note without `end`, in any part, makes `assemble` raise |
| AssemblerFacts.TempoRejected | src/stemscore/assembler/quantizer.py:43-44 | a tempo that is not positive is always rejected, by the quantizer or, with no parts, by the merger |
| AssemblerFacts.LevelUncheckedWithoutParts | src/stemscore/assembler/quantizer.py:45-46 | the level is only checked by the quantizer, so with no parts a bad level goes through |
| AssemblerFacts.TimeSignatureCheckedLate | src/stemscore/assembler/merger.py:38-39 | a time signature that is not positive is rejected only after every part has been quantized |
| ChordRecognizer.ChordSegment.AsEvent | src/stemscore/transcriber/chord_recognizer.py:58 | an event dictionary with exactly `start`, `end` and `chord` |
| ChordRecognizer.SegmentChords | src/stemscore/transcriber/chord_recognizer.py:52-68 | the segmentation loop computes `Segments`: one event per run of equal labels |
| ChordRecognizer.Segments | src/stemscore/transcriber/chord_recognizer.py:52-68 | the chord events of the per-frame labels, with no contract of its own; `ChordFacts.SegmentsMeaning`, `ChordFacts.SegmentsChain` and `ChordFacts.SegmentsRoundTrip` specify it |
| ChordRecognizer.RunsFacts | src/stemscore/transcriber/chord_recognizer.py:52-68 | the runs are nonempty and maximal, cover every frame once, expand back to the labels, and the last carries the last label |
| ChordRecognizer.Template | src/stemscore/transcriber/chord_recognizer.py:88-91 | the vector has a one exactly at the pitch classes `(root + interval) % 12` and zero elsewhere (before the division by its norm) |
| ChordRecognizer.BuildTemplates | src/stemscore/transcriber/chord_recognizer.py:79-85 | 36 entries: for each of the twelve roots in order, `maj`, `min` and `7`, each with its template |
| ChordRecognizer.TemplateKeysDistinct | src/stemscore/transcriber/chord_recognizer.py:13 | the 36 labels are distinct, so no template overwrites another |
| ChordRecognizer.TemplateLabelInjective | src/stemscore/transcriber/chord_recognizer.py:13 | two templates with the same root-and-quality label are the same template |
| ChordRecognizer.FrameLabels | src/stemscore/transcriber/chord_recognizer.py:47 | one label per frame: the label of its best template |
| ChordRecognizer.FrameTimes | src/stemscore/transcriber/chord_recognizer.py:50 | one time per frame and one past the last |
| ChordRecognizer.RecognizeChords | src/stemscore/transcriber/chord_recognizer.py:16-76 | raises only `TranscriptionError`; every event has exactly `start`, `end` and `chord` |
| ChordFacts.RunsCount | src/stemscore/transcriber/chord_recognizer.py:55-60 | one run for the first frame and one more per change of label |
| ChordFacts.SegmentsMeaning | src/stemscore/transcriber/chord_recognizer.py:52-68 | event `k` starts at its first frame's time, ends at the next event's first frame (the last at the last time), every frame in it has its chord, and the frame before it has another |
| ChordFacts.SegmentsChain | src/stemscore/transcriber/chord_recognizer.py:54-68 | 1 + changes events; the first starts at `frame_times[0]`, the last ends at `frame_times[-1]`, each ends where the next starts, and neighbours differ |
| ChordFacts.SegmentsRoundTrip | src/stemscore/transcriber/chord_recognizer.py:52-68 | the events carry the chords of the runs, in order, so expanding them by their runs' frame counts gives back the per-frame labels |
| ChordFacts.RecognizeOutcomes | src/stemscore/transcriber/chord_recognizer.py:29-76 | a missing file raises; no frames give no events; other errors become `TranscriptionError`; otherwise 1 + changes events, each named by a template label |
| ChordFacts.TemplateRotation | src/stemscore/transcriber/chord_recognizer.py:88-91 | the template on a root is the C template rotated by that root |
| ChordFacts.ExampleMajor | src/stemscore/transcriber/chord_recognizer.py:82 | C major sounds C, E and G |
| ChordFacts.ExampleMinor | src/stemscore/transcriber/chord_recognizer.py:83 | A minor sounds A, C and E |
| ChordFacts.WorkedExample | tests/test_transcriber/test_chord_recognizer.py:31-50 | frames C major, C major, A minor give an event for C major from 0 to 2 and then one for A minor from 2 to 3 |
| DrumTranscriber.GmNoteClasses | src/stemscore/transcriber/drum_transcriber.py:70-76 | `max(n, 1)` classes, all General MIDI drum notes of the base list |
| DrumTranscriber.Clamp | src/stemscore/transcriber/drum_transcriber.py:82 | `min(max(x, 0), hi)` lies in `[0, hi]` and keeps values already inside |
| DrumTranscriber.CentroidPosition | src/stemscore/transcriber/drum_transcriber.py:82-83 | the class index lies in `[0, count - 1]` |
| DrumTranscriber.MapCentroidToGm | src/stemscore/transcriber/drum_transcriber.py:79-84 | always a member of the class list, the one at the centroid's position, even for a single class |
| DrumTranscriber.ClampFrame | src/stemscore/transcriber/drum_transcriber.py:49 | a frame index is cut to the last column and kept when it is in range |
| DrumTranscriber.VelocityFromEnv | src/stemscore/transcriber/drum_transcriber.py:87-92 | 80 for an empty envelope or a maximum that is not positive; otherwise in `[1, 127]`, and 127 at the maximum |
| DrumTranscriber.SeqMax | src/stemscore/transcriber/drum_transcriber.py:44 | `np.max`: a member of the envelope and at least every sample |
| DrumTranscriber.DrumEvent | src/stemscore/transcriber/drum_transcriber.py:53-59 | a hit has exactly `start`, `pitch` and `velocity` |
| DrumTranscriber.BuildDrumEvents | src/stemscore/transcriber/drum_transcriber.py:47-59 | the onset loop computes `DrumEvents` |
| DrumTranscriber.DrumEvents | src/stemscore/transcriber/drum_transcriber.py:47-59 | the hits of the onsets, with no contract of its own; `DrumFacts.DrumEventsShape` specifies it |
| DrumTranscriber.TranscribeDrums | src/stemscore/transcriber/drum_transcriber.py:14-67 | raises only `TranscriptionError` |
| DrumFacts.GmNoteClassesShape | src/stemscore/transcriber/drum_transcriber.py:70-76 | `[36]` for no classes, a prefix of the base list up to nine, then hi-hats; fewer classes give a prefix of more |
| DrumFacts.CentroidMonotone | src/stemscore/transcriber/drum_transcriber.py:82-84 | a brighter hit never maps to an earlier class |
| DrumFacts.VelocityMonotone | src/stemscore/transcriber/drum_transcriber.py:90-92 | a louder envelope at the onset never gives a softer hit |
| DrumFacts.DrumEventsShape | src/stemscore/transcriber/drum_transcriber.py:47-59 | raises exactly when there are onsets and no centroid column; otherwise one event per onset, in order, whose pitch is the entry of `_gm_note_classes(num_classes)` that the centroid at the clamped onset frame selects, with a velocity in `[1, 127]` and no `end` |
| DrumFacts.TranscribeDrumsOutcomes | src/stemscore/transcriber/drum_transcriber.py:28-67 | a missing file raises; no onsets give no events; other errors, including the loop's own, become `TranscriptionError` |
| DrumFacts.WorkedExample | tests/test_transcriber/test_drum_transcriber.py:42-56 | three classes: the 100 Hz hit is a bass drum (36), the 3000 Hz one a snare (38) |
| DrumFacts.DrumsPartRaises | src/stemscore/transcriber/drum_transcriber.py:53-59 | a drums part with hits makes `assemble` raise the quantizer's missing-times error once the parts before it have quantized |
| PitchTranscriber.FirstFloat | src/stemscore/transcriber/pitch_transcriber.py:87-91 | the first alias present is converted by `float()`; with none present, the default |
| PitchTranscriber.FirstInt | src/stemscore/transcriber/pitch_transcriber.py:94-98 | the first alias present is converted by `int()`; with none present, the default |
| PitchTranscriber.PitchNote.AsEvent | src/stemscore/transcriber/pitch_transcriber.py:78-84 | a normalised event has exactly `start`, `end`, `pitch`, `velocity` and `confidence` |
| PitchTranscriber.MinNoteSeconds | src/stemscore/transcriber/pitch_transcriber.py:34 | the minimum length is never negative |
| PitchTranscriber.FilterNotes | src/stemscore/transcriber/pitch_transcriber.py:33-41 | the filter loop computes `FilteredNotes` |
| PitchTranscriber.NormalizeNoteEvent | src/stemscore/transcriber/pitch_transcriber.py:65-84 | `_normalize_note_event`, with no contract of its own; `PitchFacts.StartAlias`, `EndAlias`, `PitchAlias`, `Defaults` and `NormalizeNumeric` specify it |
| PitchTranscriber.ExtractNoteEvents | src/stemscore/transcriber/pitch_transcriber.py:51-62 | `_extract_note_events`, with no contract of its own; `PitchFacts.ExtractDispatch` specifies it |
| PitchTranscriber.FilteredNotes | src/stemscore/transcriber/pitch_transcriber.py:33-41 | the kept notes, with no contract of its own; `PitchFacts.LongNotesSound` and `PitchFacts.LongNotesConcat` specify it, and `FilterNotes` computes it |
| PitchTranscriber.TranscribePitch | src/stemscore/transcriber/pitch_transcriber.py:11-48 | `transcribe_pitch`, with no contract of its own; `PitchFacts.OnlyTranscriptionErrors` specifies it |
| PitchTranscriber.LongNotesAppend | src/stemscore/transcriber/pitch_transcriber.py:38-40 | one more normalised note is appended exactly when it is at least the minimum length |
| PitchFacts.ExtractDispatch | src/stemscore/transcriber/pitch_transcriber.py:51-62 | a dict with `note_events` gives that value, a tuple of three or more gives item 2, anything else raises; a value that is not a list raises |
| PitchFacts.StartAlias | src/stemscore/transcriber/pitch_transcriber.py:69 | `start` wins over `start_time`, which wins over `onset` |
| PitchFacts.EndAlias | src/stemscore/transcriber/pitch_transcriber.py:70 | `end` wins over `end_time`, which wins over `offset` |
| PitchFacts.PitchAlias | src/stemscore/transcriber/pitch_transcriber.py:71 | `pitch` wins over `note` |
| PitchFacts.Defaults | src/stemscore/transcriber/pitch_transcriber.py:72-73 | velocity defaults to 100 and confidence to 1.0 |
| PitchFacts.NormalizeNumeric | src/stemscore/transcriber/pitch_transcriber.py:65-76 | a non-dict raises; a numeric dict normalises exactly when it has a start, an end and a pitch, and otherwise raises the missing-fields error |
| PitchFacts.LongNotesConcat | src/stemscore/transcriber/pitch_transcriber.py:36-40 | filtering a concatenation is the concatenation of the filtered halves |
| PitchFacts.LongNotesSound | src/stemscore/transcriber/pitch_transcriber.py:36-40 | every kept note is a long-enough input note, in order; all long gives all, none long gives none |
| PitchFacts.NegativeMinimum | src/stemscore/transcriber/pitch_transcriber.py:34 | a minimum that is not positive keeps exactly the notes that do not end before they start |
| PitchFacts.OnlyTranscriptionErrors | src/stemscore/transcriber/pitch_transcriber.py:25-48 | `transcribe_pitch` raises only `TranscriptionError`; a failing `predict` is wrapped |
| PitchFacts.WorkedExample | tests/test_transcriber/test_pitch_transcriber.py:26-40 | the two test events pass the 80 ms filter and keep their fields |
| TimeSignature.Strided | src/stemscore/analyzer/time_sig.py:13 | `beat_frames[::n]` is no longer than the beats and starts with the first beat |
| TimeSignature.StridedAt | src/stemscore/analyzer/time_sig.py:13 | bar start `k` exists exactly when `k * n` is a beat index, and is that beat |
| TimeSignature.TwelveBeatsStrided | src/stemscore/analyzer/time_sig.py:13 | of twelve beats, bars of three start at beats 0, 3, 6, 9 and bars of four at 0, 4, 8 |
| TimeSignature.Gather | src/stemscore/analyzer/time_sig.py:16 | `onset_env[bar_starts]` picks the envelope at every index, or raises `IndexError` for one out of range |
| TimeSignature.DetectTimeSignature | src/stemscore/analyzer/time_sig.py:19-43 | the result is always 3 or 4 |
| TimeSignature.ScoreBarsMeaning | src/stemscore/analyzer/time_sig.py:10-16 | 0.0 without beats; otherwise the mean envelope at beats 0, n, 2n, ... |
| TimeSignature.ScoreBars | src/stemscore/analyzer/time_sig.py:10-16 | `_score_bars`, with no contract of its own; `TimeSignature.ScoreBarsMeaning` specifies it |
| TimeSignature.DecisionRule | src/stemscore/analyzer/time_sig.py:41-43 | 3 exactly when the score for three beats is strictly greater; ties give 4 |
| TimeSignature.FewBeats | src/stemscore/analyzer/time_sig.py:37-39 | fewer than four beats give 4 |
| TimeSignature.DetectErrors | src/stemscore/analyzer/time_sig.py:36-43 | beat frames inside the envelope never make the decision raise |
| TimeSignature.ThreeExample | tests/test_analyzer/test_time_sig.py:9-36 | the first test envelope gives 3 |
| TimeSignature.FourExample | tests/test_analyzer/test_time_sig.py:39-66 | the second test envelope gives 4 |
| TranscriberDispatch.KindFor | src/stemscore/transcriber/__init__.py:27-36 | the drum transcriber exactly for `drums` in any case, the chord recogniser exactly for `chords` or `harmony`, the pitch transcriber otherwise |
| TranscriberDispatch.TranscribePart | src/stemscore/transcriber/__init__.py:24-37 | the result keeps the part name as given and names the method of the chosen transcriber |
| TranscriberDispatch.DispatchOutcome | src/stemscore/transcriber/__init__.py:28-37 | exactly the chosen transcriber is called; its error propagates, its notes are returned unchanged |
| TranscriberDispatch.DispatchExamples | src/stemscore/transcriber/__init__.py:28-36 | `Drums` and `HARMONY` dispatch by lower case; `backing_harmony` goes to the pitch transcriber |
| TranscriberDispatch.OnlyTranscriptionErrors | src/stemscore/transcriber/__init__.py:24-37 | with the modelled transcribers, a dispatch raises only `TranscriptionError` |
| SunoImporter.FirstContainedMeaning | src/stemscore/suno/importer.py:58-61 | the first table key, in order, that is a substring of the name wins; with none, `None` |
| SunoImporter.PartMapLookup | src/stemscore/suno/importer.py:10-19 | the eight-entry table as a case analysis |
| SunoImporter.TableParts | src/stemscore/suno/importer.py:10-19 | the table maps onto exactly five parts |
| SunoImporter.MapStemName | src/stemscore/suno/importer.py:55-61 | a mapped name is always one of the table's parts |
| SunoImporter.MapStemNameMeaning | src/stemscore/suno/importer.py:55-61 | an exact key maps directly; otherwise the first contained key decides; with none, the stem is unmapped |
| SunoImporter.VocalsFirst | src/stemscore/suno/importer.py:58-60 | any name containing `vocals` is the lead vocal |
| SunoImporter.BassBeforeLaterKeys | src/stemscore/suno/importer.py:58-60 | a name containing `bass` but neither `vocals` nor `backing_vox` is the bass, whatever later key it also contains |
| SunoImporter.LeadVocals | src/stemscore/suno/importer.py:58-60 | `lead_vocals` maps to `lead_vocal` |
| SunoImporter.BassDrums | src/stemscore/suno/importer.py:58-60 | `bass_drums` maps to `bass` |
| SunoImporter.LogMetadata | src/stemscore/suno/importer.py:64-76 | `_log_metadata` raises exactly for an unreadable `metadata.json`, since it catches only `JSONDecodeError`, and then the read error |
| SunoImporter.ReadableMetadataIgnored | src/stemscore/suno/importer.py:64-76 | which readable `metadata.json` an export has does not change the import |
| SunoImporter.ImportSuno | src/stemscore/suno/importer.py:22-52 | the import loop computes `ImportedStems` |
| SunoImporter.ImportedStems | src/stemscore/suno/importer.py:22-52 | the result of `import_suno`, with no contract of its own; `SunoImporter.ImportErrors`, `LastFileWins` and `AssignedParts` specify it |
| SunoImporter.LastFileWins | src/stemscore/suno/importer.py:46 | each part holds the last file mapped to it; no more parts than files; distinct parts |
| SunoImporter.AssignedParts | src/stemscore/suno/importer.py:42-46 | every imported part is one of the five table parts |
| SunoImporter.ImportErrors | src/stemscore/suno/importer.py:34-49 | an error exactly for a missing `stems/`, an unreadable `metadata.json` or when no file maps; the read error as raised when `stems/` exists and the metadata cannot be read, and `FileNotFoundError` in the other cases |
| SunoImporter.EveryFileMapped | src/stemscore/suno/importer.py:41-46 | when every file maps, the assignments pair each file with its part, in order |
| SunoImporter.WorkedExample | tests/test_suno/test_importer.py:10-25 | the five test stems map to the five expected parts |
| Pipeline.RouteBLookup | src/stemscore/pipeline.py:14-19 | the four-entry table as a case analysis |
| Pipeline.RouteBNameMeaning | src/stemscore/pipeline.py:106-111 | `vocals` to `lead_vocal`, `other` to `backing_harmony`, `drums` and `bass` to themselves, any other name to its lower case, all compared in lower case |
| Pipeline.MapRouteBStems | src/stemscore/pipeline.py:106-111 | the renaming loop assigns each renamed stem in order |
| Pipeline.RouteBLastWins | src/stemscore/pipeline.py:110 | a later stem renamed to the same part overwrites an earlier one; no more parts than stems; distinct parts |
| Pipeline.FourStems | src/stemscore/pipeline.py:106-111 | the four Demucs stems become the four parts, in order |
| Pipeline.FilterPartsMeaning | src/stemscore/pipeline.py:114-117 | no request keeps everything; otherwise exactly the entries whose lower-cased name is requested, in order, with distinct keys kept distinct |
| Pipeline.FilterParts | src/stemscore/pipeline.py:114-117 | `_filter_parts`, with no contract of its own; `Pipeline.FilterPartsMeaning` specifies it |
| Pipeline.SelectAnalysisStem | src/stemscore/pipeline.py:120-123 | the lead vocal when present, else the first stem; no stems raise `StopIteration` |
| Pipeline.ResolveGenre | src/stemscore/pipeline.py:102-103 | the preset of that name, else `pop` |
| Pipeline.GenreExamples | src/stemscore/config.py:36-47 | jazz uses eighth notes with swing, 60 ms notes and 13 drum classes; names are case-sensitive |
| Pipeline.ReadSunoTempo | src/stemscore/pipeline.py:126-140 | the read error exactly for an unreadable file; a tempo exactly for a JSON object whose `tempo` `float()` accepts, and then that value |
| Pipeline.WithTempo | src/stemscore/pipeline.py:60-66 | only the tempo is replaced, and only when one is given |
| Pipeline.TempoExamples | src/stemscore/pipeline.py:126-140 | numbers and numeric strings are accepted; lists, other keys, non-objects, malformed and missing files are not; an unreadable file raises |
| Pipeline.SunoTempoOverride | src/stemscore/pipeline.py:55-66 | route A keeps the key and meter of the analysed stem and takes the export's tempo when it has one; unreadable metadata makes route A raise the read error; route B ignores the metadata |
| Pipeline.LowerAll | src/stemscore/pipeline.py:42 | each requested part in lower case, in order |
| Pipeline.EmptySelectionRaises | src/stemscore/pipeline.py:70-72 | an empty selection raises `ValueError` before any transcriber is called |
| Pipeline.RoutedDistinct | src/stemscore/pipeline.py:44-68 | both routes give stems with distinct part names |
| Pipeline.SelectionDistinct | src/stemscore/pipeline.py:70-72 | a selection that goes through is nonempty and has distinct part names |
| Pipeline.TranscribedKeys | src/stemscore/pipeline.py:74-77 | the transcribed parts keep the stems' names and order |
| Pipeline.TranscribeStems | src/stemscore/pipeline.py:74-77 | the `note_parts` loop (repeated at `src/stemscore/cli.py:88-92`) computes `NoteParts`, stopping at the first transcription that raises |
| Pipeline.NoteParts | src/stemscore/pipeline.py:74-77 | the `note_parts` dictionary, with no contract of its own; `Pipeline.NotePartsMeaning` and `Pipeline.TranscribeStems` specify it |
| Pipeline.NotePartsMeaning | src/stemscore/pipeline.py:74-77 | `note_parts` exists exactly when every stem transcribes; for distinct part names it holds each stem's notes under its name, in order; otherwise the error is that of the first stem that raises |
| Pipeline.TranscribeEntryKey | src/stemscore/pipeline.py:75-77 | a transcribed stem keeps its part name |
| Pipeline.FinishCounts | src/stemscore/pipeline.py:79-99 | `num_parts` is the number of selected stems, each transcribed |
| Pipeline.RunCounts | src/stemscore/pipeline.py:41-99 | a successful run reports as many parts as stems were selected, at least one, and every one was transcribed |
| Pipeline.RoutedStems | src/stemscore/pipeline.py:44-68 | the stems and analysis by route, with no contract of its own; `Pipeline.RoutedDistinct` and `Pipeline.SunoTempoOverride` specify it |
| Pipeline.Selection | src/stemscore/pipeline.py:41-72 | the selected stems, with no contract of its own; `Pipeline.EmptySelectionRaises` and `Pipeline.SelectionDistinct` specify it |
| Pipeline.Finish | src/stemscore/pipeline.py:74-99 | transcription, assembly and the summary, with no contract of its own; `Pipeline.FinishCounts`, `Pipeline.NotePartsMeaning` and `Pipeline.TranscribedKeys` specify it |
| Pipeline.RunPipeline | src/stemscore/pipeline.py:22-99 | `run_pipeline`, with no contract of its own; `Pipeline.RunCounts`, `Pipeline.EmptySelectionRaises`, `Pipeline.SunoTempoOverride` and `Cli.CliAgreesWithPipeline` specify it |
| CliOptions.CleanItemValue | src/stemscore/cli.py:35 | an item is dropped exactly when it is blank; a kept one is the lower-cased slice of the item between whitespace-only ends, nonempty and lower-case |
| CliOptions.ParseListMembers | src/stemscore/cli.py:35 | a parsed value is exactly the cleaned form of some comma-separated item |
| CliOptions.ParseListValues | src/stemscore/cli.py:35-36 | every value is nonempty, lower-case and free of commas |
| CliOptions.ParseListConcat | src/stemscore/cli.py:35-36 | parsing `s,t` gives the values of `s`, then those of `t` |
| CliOptions.ParseJoined | src/stemscore/cli.py:35-36 | parsing clean items joined by commas gives the items back |
| CliOptions.Defaults | src/stemscore/cli.py:24-29 | the default options give the six parts and `midi`, `musicxml` |
| CliOptions.ParseList | src/stemscore/cli.py:35-36 | the list comprehension over `split(",")`, with no contract of its own; `CliOptions.ParseListMembers`, `ParseListValues`, `ParseListConcat` and `ParseJoined` specify it |
| CliOptions.SingleItem | src/stemscore/cli.py:35 | text without a comma gives its one cleaned item, or nothing when it is blank |
| CliOptions.SeparatorsAreBlank | src/stemscore/cli.py:35 | `\x1f` is blank to `strip()`, so `" Bass ,\x1f"` gives only `bass` |
| Cli.CliStemsIgnoreMetadata | src/stemscore/cli.py:70-78 | the command prepares stems as the pipeline does once a readable `metadata.json` is dropped: route A keeps the analysed tempo, and an unreadable one makes both raise in the importer |
| Cli.EmptySelectionExits | src/stemscore/cli.py:82-85 | an empty selection exits with code 1 |
| Cli.CliAgreesWithPipeline | src/stemscore/cli.py:53-113 | the command and `run_pipeline`, on the parsed options and without readable metadata, succeed together and print the same; an empty selection gives `ValueError` there and exit code 1 here |
| Cli.CliStems | src/stemscore/cli.py:39-78 | the stems and analysis by route, with no contract of its own; `Cli.CliStemsIgnoreMetadata` specifies it |
| Cli.Transcribe | src/stemscore/cli.py:20-112 | the `transcribe` command, with no contract of its own; `Cli.CliAgreesWithPipeline` and `Cli.EmptySelectionExits` specify it |

## Left out

- **Signal processing and models.** The chroma features, template scoring and `argmax`; onset detection, the
  onset envelope and the spectral centroid; beat tracking; Basic Pitch `predict`; Demucs separation; tempo and
  key estimation. Their results are inputs to the model, or raise an error given as an input.
- **Norm division.** The final division of a chord template by its norm, `_template` at
  `src/stemscore/transcriber/chord_recognizer.py:92`, is floating point and only scales the vector. It is left
  out.
- **music21 serialisation.** MIDI, MusicXML and PDF output stays behind `score.write`. The model logs the call
  and is silent about the bytes.
- **A failing `write`** (for example, a missing PDF renderer) is not modelled.
- **`mkdir` and `Path`.** The flags of `mkdir` are not modelled, and `Path` joining is string concatenation,
  with no normalisation.
- **Filesystem and JSON inputs.** The results of `exists`, `is_dir`, `is_file`, `glob`, `read_text` and
  `json.loads` are inputs. The order of `glob` is the order of the given file list. A `read_text` of
  `metadata.json` that raises (a directory, bytes that are not UTF-8) is the `Unreadable` case. Its
  exception is one `ReadError` with the message as an input, not the distinct `OSError` and
  `UnicodeDecodeError` classes.
- **Logging, Rich progress bars and console printing** are left out. The printed summary of `transcribe` is
  its result value.
- **The `version` command** only echoes a constant and is not modelled.
- **`_log_metadata`** (`src/stemscore/suno/importer.py:64-76`) is modelled only as far as it raises (`SunoImporter.LogMetadata`); what it logs is left out.
- **Floating point.** Reals are exact.
  - The rounding of IEEE-754 arithmetic is not modelled. Round-half-to-even applies to exact halves only.
  - `float()` and `int()` of a string accept an optional sign and plain decimal digits. Exponents, `inf`,
    `nan`, underscores and surrounding whitespace are not modelled.
  - `str.lower`, `str.title` and `str.strip` act on ASCII letters only. Their whitespace is the ASCII characters
    `str.isspace()` holds for: space, `\t`, `\n`, `\r`, `\x0b`, `\x0c` and `\x1c` to `\x1f`. Non-ASCII
    whitespace such as `\x85` or `\xa0` is not stripped.
- **The translation table.** Only the `app_title` entry is included, as an excerpt. `t` is proved for any
  table, and the fact that every shipped entry has a Japanese and an English text is the `I18n.Complete`
  predicate, not a proof over the shipped texts.
- **An unknown route.** The `Unsupported route` branch of `run_pipeline` (`src/stemscore/pipeline.py:67-68`)
  and the `typer.Exit(code=1)` branch of `transcribe` (`src/stemscore/cli.py:79-80`) only follow a route other
  than A or B. `route` never returns one, so the route datatype has no third value.
- **The CLI's own helpers.** `_map_route_b_stems`, `_filter_parts` and `_select_analysis_stem` in
  `src/stemscore/cli.py:121-143` are the same code as in `src/stemscore/pipeline.py`, so the `Cli` module uses
  the `Pipeline` definitions.
  - The CLI lowercases the parts while parsing, so `Pipeline.LowerAll` is the identity on them.
  - The CLI's genre lookup at `src/stemscore/cli.py:37` is `Pipeline.ResolveGenre`.
- **The dict comprehension** of `_filter_parts` is modelled as a filter of the ordered entries. Its keys are
  already distinct, so nothing is overwritten.
- **Presets and config.** The genre presets carry only the fields the pipeline reads: the separation model, the
  transcription settings and the assembly settings. The analysis settings and `triplet` are not read by the
  modelled code.
- **Key detection, tempo estimation, audio loading, the separator wrapper, the Streamlit app and the preview
  plots** are outside the modelled core.
