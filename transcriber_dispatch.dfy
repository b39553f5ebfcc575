/**
 * `transcribe_part` (transcriber/__init__.py): the part name, lowercased, picks one of the three
 * transcribers, and the result carries the notes, the part name as given and the method used. The three
 * transcribers are parameters.
 */
module TranscriberDispatch {
  import opened Outcome
  import opened PyObject
  import opened Strings
  import DrumTranscriber
  import ChordRecognizer
  import PitchTranscriber
  import PitchFacts

  /** The two fields of `TranscriptionConfig` the dispatch passes on. */
  datatype TranscriptionConfig = TranscriptionConfig(vocalMinNoteMs: int, drumClasses: int)

  /** `TranscriptionConfig()`: 80 ms notes and nine drum classes. */
  const DEFAULT_TRANSCRIPTION: TranscriptionConfig := TranscriptionConfig(80, 9)

  /** The frozen `TranscriptionResult`. */
  datatype TranscriptionResult = TranscriptionResult(notes: seq<Event>, partName: string, methodName: string)

  /**
   * The transcribers called by path: the drum transcriber with a class count, the chord recognizer, and the
   * pitch transcriber with a minimum note length in milliseconds. Each returns the notes or what it raised.
   */
  datatype Transcribers = Transcribers(
    drums: (string, int) -> Result<seq<Event>>,
    chords: string -> Result<seq<Event>>,
    pitch: (string, int) -> Result<seq<Event>>)

  /** Which transcriber a part goes to. */
  datatype Kind = Drums | Chords | Pitch

  /** The branch `transcribe_part` takes: `drums`, then `chords` or `harmony`, then everything else. */
  function KindFor(part: string): (k: Kind)
    ensures k == Drums <==> Lower(part) == "drums"
    ensures k == Chords <==> Lower(part) == "chords" || Lower(part) == "harmony"
  {
    var normalized := Lower(part);
    if normalized == "drums" then Drums
    else if normalized == "chords" || normalized == "harmony" then Chords
    else Pitch
  }

  /** The method recorded for each transcriber. */
  function MethodName(k: Kind): string
  {
    match k
    case Drums => "onset_heuristic"
    case Chords => "chroma_template"
    case Pitch => "basic_pitch"
  }

  /** The notes one transcriber gives for a path, with the parameter the configuration supplies. */
  function Call(ts: Transcribers, k: Kind, audioPath: string, config: TranscriptionConfig): Result<seq<Event>>
  {
    match k
    case Drums => ts.drums(audioPath, config.drumClasses)
    case Chords => ts.chords(audioPath)
    case Pitch => ts.pitch(audioPath, config.vocalMinNoteMs)
  }

  /** `transcribe_part(audio_path, part, config)` */
  function TranscribePart(audioPath: string, part: string, config: TranscriptionConfig, ts: Transcribers)
    : (r: Result<TranscriptionResult>)
    ensures r.Ok? ==> r.value.partName == part && r.value.methodName == MethodName(KindFor(part))
  {
    var normalized := Lower(part);
    if normalized == "drums" then
      var notes :- ts.drums(audioPath, config.drumClasses);
      Ok(TranscriptionResult(notes, part, "onset_heuristic"))
    else if normalized == "chords" || normalized == "harmony" then
      var notes :- ts.chords(audioPath);
      Ok(TranscriptionResult(notes, part, "chroma_template"))
    else
      var notes :- ts.pitch(audioPath, config.vocalMinNoteMs);
      Ok(TranscriptionResult(notes, part, "basic_pitch"))
  }

  /**
   * Exactly one transcriber runs, the one `KindFor` names, with the class count or the note length from the
   * configuration; its notes come back untouched and its error propagates.
   */
  lemma DispatchOutcome(audioPath: string, part: string, config: TranscriptionConfig, ts: Transcribers)
    ensures Call(ts, KindFor(part), audioPath, config).Err? ==>
      TranscribePart(audioPath, part, config, ts) == Err(Call(ts, KindFor(part), audioPath, config).error)
    ensures Call(ts, KindFor(part), audioPath, config).Ok? ==>
      TranscribePart(audioPath, part, config, ts) ==
        Ok(TranscriptionResult(Call(ts, KindFor(part), audioPath, config).value, part, MethodName(KindFor(part))))
  {
  }

  /**
   * The branch ignores case but is an exact match: `Drums` and `HARMONY` go to their transcribers, while
   * `backing_harmony`, which only contains `harmony`, goes to the pitch transcriber.
   */
  lemma DispatchExamples()
    ensures KindFor("Drums") == Drums
    ensures KindFor("HARMONY") == Chords
    ensures KindFor("chords") == Chords
    ensures KindFor("backing_harmony") == Pitch
    ensures KindFor("lead_vocal") == Pitch
  {
    assert Lower("Drums") == "drums";
    assert Lower("HARMONY") == "harmony";
    assert Lower("chords") == "chords";
    assert |Lower("backing_harmony")| != |"drums"| && |Lower("backing_harmony")| != |"chords"|;
    assert |Lower("backing_harmony")| != |"harmony"|;
    assert Lower("lead_vocal")[0] == 'l';
  }

  /**
   * What the three modelled transcribers need from the outside world, per audio path: whether the file
   * exists, the onset analysis, the best template per chroma frame, the frame times, and what Basic Pitch's
   * `predict` returned.
   */
  datatype Audio = Audio(
    fileExists: string -> bool,
    onsets: string -> Result<DrumTranscriber.Onsets>,
    bestIndices: string -> Result<seq<ChordRecognizer.TemplateIndex>>,
    frameTime: int -> real,
    predicted: string -> Result<PyObj>)

  /** The transcribers of this model, run against that world. */
  function Modelled(audio: Audio): Transcribers
  {
    Transcribers(
      (path: string, numClasses: int) =>
        DrumTranscriber.TranscribeDrums(path, audio.fileExists(path), audio.onsets(path), numClasses),
      (path: string) =>
        ChordRecognizer.RecognizeChords(path, audio.fileExists(path), audio.bestIndices(path), audio.frameTime),
      (path: string, minNoteMs: int) =>
        PitchTranscriber.TranscribePitch(path, audio.fileExists(path), audio.predicted(path), minNoteMs))
  }

  /** With the modelled transcribers, whatever part is asked for, a failure is always a `TranscriptionError`. */
  lemma OnlyTranscriptionErrors(audioPath: string, part: string, config: TranscriptionConfig, audio: Audio)
    ensures TranscribePart(audioPath, part, config, Modelled(audio)).Err? ==>
      TranscribePart(audioPath, part, config, Modelled(audio)).error.TranscriptionError?
  {
    PitchFacts.OnlyTranscriptionErrors(audioPath, audio.fileExists(audioPath), audio.predicted(audioPath),
                                       config.vocalMinNoteMs);
  }
}
