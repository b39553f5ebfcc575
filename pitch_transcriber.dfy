/**
 * Turning Basic Pitch output into note dictionaries (transcriber/pitch_transcriber.py): the result-shape
 * dispatch, the normalisation of each event with its alias keys and defaults, and the minimum-length filter.
 * The call to `predict` is a parameter: its result, or the exception it raised.
 */
module PitchTranscriber {
  import opened Outcome
  import opened PyObject

  /** `_coerce_float(event, keys, default)`: the first key present decides; none present gives the default. */
  function FirstFloat(event: Event, keys: seq<string>, default: Option<real>): (r: Result<Option<real>>)
    ensures (forall i :: 0 <= i < |keys| ==> keys[i] !in event) ==> r == Ok(default)
    ensures forall i :: 0 <= i < |keys| && keys[i] in event && (forall j :: 0 <= j < i ==> keys[j] !in event) ==>
      r == if Float(event[keys[i]]).Err? then Err(Float(event[keys[i]]).error) else Ok(Some(Float(event[keys[i]]).value))
    ensures default.Some? && r.Ok? ==> r.value.Some?
  {
    if keys == [] then Ok(default)
    else if keys[0] in event then
      var x :- Float(event[keys[0]]);
      Ok(Some(x))
    else
      var r := FirstFloat(event, keys[1..], default);
      assert forall i :: 1 <= i < |keys| ==> keys[i] == keys[1..][i - 1];
      r
  }

  /** `_coerce_int(event, keys, default)`: the first key present decides; none present gives the default. */
  function FirstInt(event: Event, keys: seq<string>, default: Option<int>): (r: Result<Option<int>>)
    ensures (forall i :: 0 <= i < |keys| ==> keys[i] !in event) ==> r == Ok(default)
    ensures forall i :: 0 <= i < |keys| && keys[i] in event && (forall j :: 0 <= j < i ==> keys[j] !in event) ==>
      r == if Int(event[keys[i]]).Err? then Err(Int(event[keys[i]]).error) else Ok(Some(Int(event[keys[i]]).value))
    ensures default.Some? && r.Ok? ==> r.value.Some?
  {
    if keys == [] then Ok(default)
    else if keys[0] in event then
      var n :- Int(event[keys[0]]);
      Ok(Some(n))
    else
      var r := FirstInt(event, keys[1..], default);
      assert forall i :: 1 <= i < |keys| ==> keys[i] == keys[1..][i - 1];
      r
  }

  const START_KEYS: seq<string> := ["start", "start_time", "onset"]
  const END_KEYS: seq<string> := ["end", "end_time", "offset"]
  const PITCH_KEYS: seq<string> := ["pitch", "note"]
  const VELOCITY_KEYS: seq<string> := ["velocity"]
  const CONFIDENCE_KEYS: seq<string> := ["confidence", "probability"]

  const DEFAULT_VELOCITY: int := 100
  const DEFAULT_CONFIDENCE: real := 1.0

  /** A normalised note event. */
  datatype PitchNote = PitchNote(start: real, end: real, pitch: int, velocity: int, confidence: real)
  {
    /** The dictionary `_normalize_note_event` returns. */
    function AsEvent(): (e: Event)
      ensures e.Keys == NOTE_FIELDS
      ensures e["start"] == PyNum(start) && e["end"] == PyNum(end) && e["pitch"] == PyNum(pitch as real)
      ensures e["velocity"] == PyNum(velocity as real) && e["confidence"] == PyNum(confidence)
    {
      map["start" := PyNum(start), "end" := PyNum(end), "pitch" := PyNum(pitch as real),
          "velocity" := PyNum(velocity as real), "confidence" := PyNum(confidence)]
    }
  }

  /** The keys of every normalised note. */
  const NOTE_FIELDS: set<string> := {"start", "end", "pitch", "velocity", "confidence"}

  /**
   * `_normalize_note_event`: a dict, read through its alias keys; all five lookups run (and may raise)
   * before the check that start, end and pitch were found.
   */
  function NormalizeNoteEvent(event: PyObj): Result<PitchNote>
  {
    if !event.PyDict? then Err(TranscriptionError("Note event must be a dict"))
    else
      var e := event.entries;
      var start :- FirstFloat(e, START_KEYS, None);
      var end :- FirstFloat(e, END_KEYS, None);
      var pitch :- FirstInt(e, PITCH_KEYS, None);
      var velocity :- FirstInt(e, VELOCITY_KEYS, Some(DEFAULT_VELOCITY));
      var confidence :- FirstFloat(e, CONFIDENCE_KEYS, Some(DEFAULT_CONFIDENCE));
      if start.None? || end.None? || pitch.None? then Err(TranscriptionError("Note event missing required fields"))
      else Ok(PitchNote(start.value, end.value, pitch.value, velocity.value, confidence.value))
  }

  /** `_extract_note_events`: the `note_events` entry of a dict, or the third element of a tuple, which must be a list. */
  function ExtractNoteEvents(result: PyObj): (r: Result<seq<PyObj>>)
  {
    var noteEvents :-
      if result.PyDict? && "note_events" in result.entries then Ok(result.entries["note_events"])
      else if result.PyTuple? && |result.items| >= 3 then Ok(result.items[2])
      else Err(TranscriptionError("Unexpected Basic Pitch result format"));
    if !noteEvents.PyList? then Err(TranscriptionError("Basic Pitch note events must be a list"))
    else Ok(noteEvents.items)
  }

  /** `max(min_note_ms, 0) / 1000.0` */
  function MinNoteSeconds(minNoteMs: int): (s: real)
    ensures s >= 0.0
  {
    (if minNoteMs >= 0 then minNoteMs else 0) as real / 1000.0
  }

  /** A note the filter keeps: it lasts at least the minimum. */
  predicate LongEnough(n: PitchNote, minSeconds: real)
  {
    !(n.end - n.start < minSeconds)
  }

  /** The dictionaries of the notes the filter keeps, in order. */
  function LongNotes(notes: seq<PitchNote>, minSeconds: real): seq<Event>
  {
    if notes == [] then []
    else
      var last := notes[|notes| - 1];
      LongNotes(notes[..|notes| - 1], minSeconds) + (if LongEnough(last, minSeconds) then [last.AsEvent()] else [])
  }

  /** The loop of `transcribe_pitch`: normalise every event (the first failure raises), keep the long ones. */
  function FilteredNotes(noteEvents: seq<PyObj>, minNoteMs: int): Result<seq<Event>>
  {
    var notes :- MapAll(NormalizeNoteEvent, noteEvents);
    Ok(LongNotes(notes, MinNoteSeconds(minNoteMs)))
  }

  /**
   * `transcribe_pitch(audio_path, min_note_ms)` with the existence of the file and the outcome of `predict`
   * given: a missing file raises first; everything after `predict` is inside the wrapper.
   */
  function TranscribePitch(audioPath: string, audioExists: bool, predicted: Result<PyObj>, minNoteMs: int)
    : Result<seq<Event>>
  {
    if !audioExists then Err(TranscriptionError("Input audio not found: " + audioPath))
    else
      Wrapped(
        var result :- predicted;
        var noteEvents :- ExtractNoteEvents(result);
        FilteredNotes(noteEvents, minNoteMs),
        "Pitch transcription failed")
  }

  /** One more note through the filter. */
  lemma LongNotesAppend(notes: seq<PitchNote>, n: PitchNote, minSeconds: real)
    ensures LongNotes(notes + [n], minSeconds) ==
      LongNotes(notes, minSeconds) + (if LongEnough(n, minSeconds) then [n.AsEvent()] else [])
  {
    assert (notes + [n])[..|notes|] == notes;
  }

  /** The filter loop of `transcribe_pitch` as written: normalise each event, skip the short ones, append the rest. */
  method FilterNotes(noteEvents: seq<PyObj>, minNoteMs: int) returns (r: Result<seq<Event>>)
    ensures r == FilteredNotes(noteEvents, minNoteMs)
  {
    ghost var done: seq<PitchNote> := [];
    var filtered: seq<Event> := [];
    var minNoteSeconds := MinNoteSeconds(minNoteMs);
    var i := 0;
    while i < |noteEvents|
      invariant 0 <= i <= |noteEvents|
      invariant MapAll(NormalizeNoteEvent, noteEvents[..i]) == Ok(done)
      invariant filtered == LongNotes(done, minNoteSeconds)
    {
      var note := NormalizeNoteEvent(noteEvents[i]);
      MapAllStep(NormalizeNoteEvent, noteEvents, i);
      if note.Err? {
        MapAllStop(NormalizeNoteEvent, noteEvents, i + 1);
        return Err(note.error);
      }
      LongNotesAppend(done, note.value, minNoteSeconds);
      done := done + [note.value];
      i := i + 1;
      if note.value.end - note.value.start < minNoteSeconds {
        continue;
      }
      filtered := filtered + [note.value.AsEvent()];
    }
    MapAllDone(NormalizeNoteEvent, noteEvents);
    r := Ok(filtered);
  }
}
