/** What the pitch transcriber guarantees about the events it returns and the errors it raises. */
module PitchFacts {
  import opened Outcome
  import opened PyObject
  import opened PitchTranscriber

  /** The shapes `_extract_note_events` accepts: a dict is looked at first, then a tuple of three or more. */
  lemma ExtractDispatch(result: PyObj)
    ensures result.PyDict? && "note_events" in result.entries ==>
      ExtractNoteEvents(result) == if result.entries["note_events"].PyList? then Ok(result.entries["note_events"].items)
        else Err(TranscriptionError("Basic Pitch note events must be a list"))
    ensures result.PyTuple? && |result.items| >= 3 ==>
      ExtractNoteEvents(result) == if result.items[2].PyList? then Ok(result.items[2].items)
        else Err(TranscriptionError("Basic Pitch note events must be a list"))
    ensures !(result.PyDict? && "note_events" in result.entries) && !(result.PyTuple? && |result.items| >= 3) ==>
      ExtractNoteEvents(result) == Err(TranscriptionError("Unexpected Basic Pitch result format"))
    ensures ExtractNoteEvents(result).Err? ==> ExtractNoteEvents(result).error.TranscriptionError?
  {
  }

  /** The float lookup of one present key, as `_coerce_float` returns it. */
  function FloatAt(e: Event, k: string): Result<Option<real>>
    requires k in e
  {
    if Float(e[k]).Err? then Err(Float(e[k]).error) else Ok(Some(Float(e[k]).value))
  }

  /** The int lookup of one present key, as `_coerce_int` returns it. */
  function IntAt(e: Event, k: string): Result<Option<int>>
    requires k in e
  {
    if Int(e[k]).Err? then Err(Int(e[k]).error) else Ok(Some(Int(e[k]).value))
  }

  /** The first alias present wins: `start` over `start_time` over `onset`; none of them gives nothing. */
  lemma StartAlias(e: Event)
    ensures "start" in e ==> FirstFloat(e, START_KEYS, None) == FloatAt(e, "start")
    ensures "start" !in e && "start_time" in e ==> FirstFloat(e, START_KEYS, None) == FloatAt(e, "start_time")
    ensures "start" !in e && "start_time" !in e && "onset" in e ==> FirstFloat(e, START_KEYS, None) == FloatAt(e, "onset")
    ensures "start" !in e && "start_time" !in e && "onset" !in e ==> FirstFloat(e, START_KEYS, None) == Ok(None)
  {
    assert START_KEYS[0] == "start" && START_KEYS[1] == "start_time" && START_KEYS[2] == "onset";
  }

  /** `end` over `end_time` over `offset`. */
  lemma EndAlias(e: Event)
    ensures "end" in e ==> FirstFloat(e, END_KEYS, None) == FloatAt(e, "end")
    ensures "end" !in e && "end_time" in e ==> FirstFloat(e, END_KEYS, None) == FloatAt(e, "end_time")
    ensures "end" !in e && "end_time" !in e && "offset" in e ==> FirstFloat(e, END_KEYS, None) == FloatAt(e, "offset")
    ensures "end" !in e && "end_time" !in e && "offset" !in e ==> FirstFloat(e, END_KEYS, None) == Ok(None)
  {
    assert END_KEYS[0] == "end" && END_KEYS[1] == "end_time" && END_KEYS[2] == "offset";
  }

  /** `pitch` over `note`, through `int()`. */
  lemma PitchAlias(e: Event)
    ensures "pitch" in e ==> FirstInt(e, PITCH_KEYS, None) == IntAt(e, "pitch")
    ensures "pitch" !in e && "note" in e ==> FirstInt(e, PITCH_KEYS, None) == IntAt(e, "note")
    ensures "pitch" !in e && "note" !in e ==> FirstInt(e, PITCH_KEYS, None) == Ok(None)
  {
    assert PITCH_KEYS[0] == "pitch" && PITCH_KEYS[1] == "note";
  }

  /** Velocity defaults to 100 and confidence to 1.0; `confidence` is preferred over `probability`. */
  lemma Defaults(e: Event)
    ensures "velocity" !in e ==> FirstInt(e, VELOCITY_KEYS, Some(DEFAULT_VELOCITY)) == Ok(Some(100))
    ensures "velocity" in e ==> FirstInt(e, VELOCITY_KEYS, Some(DEFAULT_VELOCITY)) == IntAt(e, "velocity")
    ensures "confidence" in e ==> FirstFloat(e, CONFIDENCE_KEYS, Some(DEFAULT_CONFIDENCE)) == FloatAt(e, "confidence")
    ensures "confidence" !in e && "probability" in e ==>
      FirstFloat(e, CONFIDENCE_KEYS, Some(DEFAULT_CONFIDENCE)) == FloatAt(e, "probability")
    ensures "confidence" !in e && "probability" !in e ==> FirstFloat(e, CONFIDENCE_KEYS, Some(DEFAULT_CONFIDENCE)) == Ok(Some(1.0))
  {
    assert VELOCITY_KEYS[0] == "velocity";
    assert CONFIDENCE_KEYS[0] == "confidence" && CONFIDENCE_KEYS[1] == "probability";
  }

  /** An alias of the field among those keys. */
  predicate HasAlias(e: Event, keys: seq<string>)
  {
    exists i :: 0 <= i < |keys| && keys[i] in e
  }

  /**
   * With numeric fields, an event normalises exactly when it has a start, an end and a pitch under some alias;
   * otherwise it raises the missing-fields error. Anything that is not a dict is rejected.
   */
  lemma NormalizeNumeric(event: PyObj)
    ensures !event.PyDict? ==> NormalizeNoteEvent(event) == Err(TranscriptionError("Note event must be a dict"))
    ensures event.PyDict? && Numeric(event.entries) ==>
      (NormalizeNoteEvent(event).Ok? <==>
        HasAlias(event.entries, START_KEYS) && HasAlias(event.entries, END_KEYS) && HasAlias(event.entries, PITCH_KEYS))
    ensures event.PyDict? && Numeric(event.entries) && NormalizeNoteEvent(event).Err? ==>
      NormalizeNoteEvent(event) == Err(TranscriptionError("Note event missing required fields"))
  {
    if event.PyDict? && Numeric(event.entries) {
      var e := event.entries;
      FirstNumeric(e, START_KEYS, None);
      FirstNumeric(e, END_KEYS, None);
      FirstNumericInt(e, PITCH_KEYS, None);
      FirstNumericInt(e, VELOCITY_KEYS, Some(DEFAULT_VELOCITY));
      FirstNumeric(e, CONFIDENCE_KEYS, Some(DEFAULT_CONFIDENCE));
    }
  }

  /** On numeric fields the float lookup never raises, and finds a value exactly when some key is present. */
  lemma {:induction false} FirstNumeric(e: Event, keys: seq<string>, default: Option<real>)
    requires Numeric(e)
    ensures FirstFloat(e, keys, default).Ok?
    ensures default.None? ==> (FirstFloat(e, keys, default).value.Some? <==> HasAlias(e, keys))
  {
    if keys != [] && keys[0] !in e {
      FirstNumeric(e, keys[1..], default);
      assert HasAlias(e, keys) <==> HasAlias(e, keys[1..]) by {
        if HasAlias(e, keys) {
          var i :| 0 <= i < |keys| && keys[i] in e;
          assert keys[1..][i - 1] == keys[i];
        }
        if HasAlias(e, keys[1..]) {
          var i :| 0 <= i < |keys[1..]| && keys[1..][i] in e;
          assert keys[i + 1] == keys[1..][i];
        }
      }
    }
  }

  /** The same for the int lookup. */
  lemma {:induction false} FirstNumericInt(e: Event, keys: seq<string>, default: Option<int>)
    requires Numeric(e)
    ensures FirstInt(e, keys, default).Ok?
    ensures default.None? ==> (FirstInt(e, keys, default).value.Some? <==> HasAlias(e, keys))
  {
    if keys != [] && keys[0] !in e {
      FirstNumericInt(e, keys[1..], default);
      assert HasAlias(e, keys) <==> HasAlias(e, keys[1..]) by {
        if HasAlias(e, keys) {
          var i :| 0 <= i < |keys| && keys[i] in e;
          assert keys[1..][i - 1] == keys[i];
        }
        if HasAlias(e, keys[1..]) {
          var i :| 0 <= i < |keys[1..]| && keys[1..][i] in e;
          assert keys[i + 1] == keys[1..][i];
        }
      }
    }
  }

  /** Filtering two runs of notes one after the other keeps each run's notes, in order. */
  lemma {:induction false} LongNotesConcat(a: seq<PitchNote>, b: seq<PitchNote>, minSeconds: real)
    ensures LongNotes(a + b, minSeconds) == LongNotes(a, minSeconds) + LongNotes(b, minSeconds)
  {
    if b == [] {
      assert a + b == a;
    } else {
      var init, last := b[..|b| - 1], b[|b| - 1];
      assert a + b == (a + init) + [last];
      LongNotesConcat(a, init, minSeconds);
      LongNotesAppend(a + init, last, minSeconds);
      LongNotesAppend(init, last, minSeconds);
      assert b == init + [last];
    }
  }

  /**
   * Every event the filter keeps has exactly the five fields and lasts at least the minimum; the filter never
   * adds events, keeps all of them when all are long enough, and none when none is.
   */
  lemma {:induction false} LongNotesSound(notes: seq<PitchNote>, minSeconds: real)
    ensures |LongNotes(notes, minSeconds)| <= |notes|
    ensures forall k :: 0 <= k < |LongNotes(notes, minSeconds)| ==>
      && LongNotes(notes, minSeconds)[k].Keys == NOTE_FIELDS
      && exists i :: 0 <= i < |notes| && LongEnough(notes[i], minSeconds) && LongNotes(notes, minSeconds)[k] == notes[i].AsEvent()
    ensures (forall i :: 0 <= i < |notes| ==> LongEnough(notes[i], minSeconds)) ==>
      LongNotes(notes, minSeconds) == seq(|notes|, i requires 0 <= i < |notes| => notes[i].AsEvent())
    ensures (forall i :: 0 <= i < |notes| ==> !LongEnough(notes[i], minSeconds)) ==> LongNotes(notes, minSeconds) == []
  {
    if notes != [] {
      var init := notes[..|notes| - 1];
      LongNotesSound(init, minSeconds);
      var last := notes[|notes| - 1];
      var rest := if LongEnough(last, minSeconds) then [last.AsEvent()] else [];
      assert LongNotes(notes, minSeconds) == LongNotes(init, minSeconds) + rest;
      assert forall i :: 0 <= i < |init| ==> init[i] == notes[i];
    }
  }

  /** A negative minimum counts as zero: notes whose end comes before their start are still dropped. */
  lemma NegativeMinimum(n: PitchNote, minNoteMs: int)
    requires minNoteMs <= 0
    ensures LongEnough(n, MinNoteSeconds(minNoteMs)) <==> n.end >= n.start
  {
  }

  /** Whatever happens inside, `transcribe_pitch` only ever raises `TranscriptionError`. */
  lemma OnlyTranscriptionErrors(audioPath: string, audioExists: bool, predicted: Result<PyObj>, minNoteMs: int)
    ensures TranscribePitch(audioPath, audioExists, predicted, minNoteMs).Err? ==>
      TranscribePitch(audioPath, audioExists, predicted, minNoteMs).error.TranscriptionError?
    ensures predicted.Err? && !predicted.error.TranscriptionError? && audioExists ==>
      TranscribePitch(audioPath, audioExists, predicted, minNoteMs) == Err(TranscriptionError("Pitch transcription failed"))
  {
  }

  const FIRST_EVENT: Event := map["start" := PyNum(0.0), "end" := PyNum(0.5), "pitch" := PyNum(60.0),
                                  "velocity" := PyNum(90.0), "confidence" := PyNum(0.8)]
  const SECOND_EVENT: Event := map["start" := PyNum(0.6), "end" := PyNum(1.0), "pitch" := PyNum(62.0),
                                   "velocity" := PyNum(100.0), "confidence" := PyNum(0.9)]

  lemma FirstEventNormalized()
    ensures NormalizeNoteEvent(PyDict(FIRST_EVENT)) == Ok(PitchNote(0.0, 0.5, 60, 90, 0.8))
  {
    assert Trunc(60.0) == 60 && Trunc(90.0) == 90;
  }

  lemma SecondEventNormalized()
    ensures NormalizeNoteEvent(PyDict(SECOND_EVENT)) == Ok(PitchNote(0.6, 1.0, 62, 100, 0.9))
  {
    assert Trunc(62.0) == 62 && Trunc(100.0) == 100;
  }

  lemma ExampleNormalized()
    ensures MapAll(NormalizeNoteEvent, [PyDict(FIRST_EVENT), PyDict(SECOND_EVENT)])
      == Ok([PitchNote(0.0, 0.5, 60, 90, 0.8), PitchNote(0.6, 1.0, 62, 100, 0.9)])
  {
    var n1, n2 := PitchNote(0.0, 0.5, 60, 90, 0.8), PitchNote(0.6, 1.0, 62, 100, 0.9);
    assert [PyDict(FIRST_EVENT)] + [PyDict(SECOND_EVENT)] == [PyDict(FIRST_EVENT), PyDict(SECOND_EVENT)];
    assert [n1] + [n2] == [n1, n2];
    FirstEventNormalized();
    SecondEventNormalized();
    MapAllSingle(NormalizeNoteEvent, PyDict(FIRST_EVENT));
    MapAllAppend(NormalizeNoteEvent, [PyDict(FIRST_EVENT)], PyDict(SECOND_EVENT));
  }

  lemma ExampleLong()
    ensures LongNotes([PitchNote(0.0, 0.5, 60, 90, 0.8), PitchNote(0.6, 1.0, 62, 100, 0.9)], 0.08)
      == [PitchNote(0.0, 0.5, 60, 90, 0.8).AsEvent(), PitchNote(0.6, 1.0, 62, 100, 0.9).AsEvent()]
  {
    var n1, n2 := PitchNote(0.0, 0.5, 60, 90, 0.8), PitchNote(0.6, 1.0, 62, 100, 0.9);
    assert [n1] + [n2] == [n1, n2];
    assert [] + [n1] == [n1];
    var e1: seq<Event>, e2: seq<Event> := [n1.AsEvent()], [n2.AsEvent()];
    assert [] + e1 == e1;
    assert e1 + e2 == [n1.AsEvent(), n2.AsEvent()];
    LongNotesAppend([], n1, 0.08);
    LongNotesAppend([n1], n2, 0.08);
  }

  /** The dict result of `predict` from the test, with two events: both come back as five-field dictionaries. */
  lemma WorkedExample()
    ensures TranscribePitch("melody.wav", true, Ok(PyDict(map["note_events" := PyList([PyDict(FIRST_EVENT), PyDict(SECOND_EVENT)])])), 80)
      == Ok([PitchNote(0.0, 0.5, 60, 90, 0.8).AsEvent(), PitchNote(0.6, 1.0, 62, 100, 0.9).AsEvent()])
  {
    assert MinNoteSeconds(80) == 0.08;
    ExampleNormalized();
    ExampleLong();
  }
}
