/** Building the score from the quantized parts (assembler/merger.py), with music21's `Score` and `Part` as plain records. */
module Merger {
  import opened Outcome
  import opened Strings
  import opened PyObject
  import opened Assoc

  const TICKS_PER_BEAT: real := 480.0

  /** The display name of each known part. */
  const PART_NAME_MAP: map<string, string> := map[
    "lead_vocal" := "Soprano",
    "backing_vocal" := "Alto",
    "bass" := "Bass",
    "drums" := "Percussion",
    "backing_harmony" := "Piano",
    "chords" := "Guitar"]

  /** The music21 instrument classes a part can get. */
  datatype Instrument = Soprano | Alto | Bass | Percussion | Piano | Guitar | GenericInstrument

  /** The class name of an instrument. */
  function InstrumentLabel(i: Instrument): string
  {
    match i
    case Soprano => "Soprano"
    case Alto => "Alto"
    case Bass => "Bass"
    case Percussion => "Percussion"
    case Piano => "Piano"
    case Guitar => "Guitar"
    case GenericInstrument => "Instrument"
  }

  /** `_instrument_for_name`: a fixed instrument for the six known parts, the generic one otherwise. */
  function InstrumentFor(partName: string): Instrument
  {
    if partName == "lead_vocal" then Soprano
    else if partName == "backing_vocal" then Alto
    else if partName == "bass" then Bass
    else if partName == "drums" then Percussion
    else if partName == "backing_harmony" then Piano
    else if partName == "chords" then Guitar
    else GenericInstrument
  }

  /** `PART_NAME_MAP.get(part_name, part_name.title())` */
  function PartName(partName: string): string
  {
    if partName in PART_NAME_MAP then PART_NAME_MAP[partName] else Title(partName)
  }

  /** The three global objects inserted into the score. */
  datatype Mark = MetronomeMark(number: real) | KeyMark(name: string) | TimeSignatureMark(ratio: string)

  /** What a note dictionary turns into inside a part, with its length in quarter notes. */
  datatype NotationEvent = Note(pitch: int, quarterLength: real) | Unpitched(quarterLength: real)

  /** A part as the merger leaves it: its id, display name, appended instruments and inserted events. */
  datatype PartRecord = PartRecord(id: string, partName: string, appended: seq<Instrument>, inserted: seq<(real, NotationEvent)>)

  /** A score as the merger leaves it: its inserted global marks and its appended parts. */
  datatype ScoreRecord = ScoreRecord(inserted: seq<(real, Mark)>, parts: seq<PartRecord>)

  /** `_coerce_float`: an absent key gives `None`; a present one goes through `float()`, which may raise. */
  function CoerceFloat(e: Event, key: string): Result<Option<real>>
  {
    if key !in e then Ok(None)
    else
      var x :- Float(e[key]);
      Ok(Some(x))
  }

  /** `_coerce_int`: an absent key gives `None`; a present one goes through `int()`, which may raise. */
  function CoerceInt(e: Event, key: string): Result<Option<int>>
  {
    if key !in e then Ok(None)
    else
      var n :- Int(e[key]);
      Ok(Some(n))
  }

  function Max(a: real, b: real): real { if a >= b then a else b }

  /**
   * The position and length in ticks `_insert_note` uses: `tick` and `duration_ticks` when both are present,
   * else `start` and `end` read as beats; `None` when the event is skipped for lack of timing.
   */
  function EventTicks(e: Event): Result<Option<(real, real)>>
  {
    var tick :- CoerceFloat(e, "tick");
    var durationTicks :- CoerceFloat(e, "duration_ticks");
    if tick.Some? && durationTicks.Some? then Ok(Some((tick.value, durationTicks.value)))
    else
      var start :- CoerceFloat(e, "start");
      var end :- CoerceFloat(e, "end");
      if start.None? || end.None? then Ok(None)
      else Ok(Some((start.value * TICKS_PER_BEAT, Max((end.value - start.value) * TICKS_PER_BEAT, 1.0))))
  }

  /** What `_insert_note` inserts into the part named `partName`, and at which offset; `None` when it skips the event. */
  function Placement(e: Event, partName: string): Result<Option<(real, NotationEvent)>>
  {
    var ticks :- EventTicks(e);
    if ticks.None? then Ok(None)
    else
      var offset := ticks.value.0 / TICKS_PER_BEAT;
      var length := ticks.value.1 / TICKS_PER_BEAT;
      if partName == "drums" then Ok(Some((offset, Unpitched(length))))
      else
        var pitch :- CoerceInt(e, "pitch");
        if pitch.None? then Ok(None) else Ok(Some((offset, Note(pitch.value, length))))
  }

  function PlaceStep(partName: string): Event -> Result<Option<(real, NotationEvent)>>
  {
    e => Placement(e, partName)
  }

  /** The events the notes of one part insert, in order. */
  function PartPlacements(notes: seq<Event>, partName: string): Result<seq<(real, NotationEvent)>>
  {
    var slots :- MapAll(PlaceStep(partName), notes);
    Ok(Somes(slots))
  }

  /** One iteration of `merge_parts`'s loop: a part with its id, display name, one instrument and its events. */
  function BuildPart(entry: (string, seq<Event>)): Result<PartRecord>
  {
    var placed :- PartPlacements(entry.1, entry.0);
    Ok(PartRecord(entry.0, PartName(entry.0), [InstrumentFor(entry.0)], placed))
  }

  /** The tempo mark, the key and the time signature `"n/4"`, all at offset 0. */
  function GlobalMarks(tempo: real, key: string, timeSignature: nat): seq<(real, Mark)>
  {
    [(0.0, MetronomeMark(tempo)), (0.0, KeyMark(key)), (0.0, TimeSignatureMark(NatToString(timeSignature) + "/4"))]
  }

  /** `merge_parts(parts, tempo, key, time_signature)` */
  function Merge(parts: Dict<seq<Event>>, tempo: real, key: string, timeSignature: int): Result<ScoreRecord>
  {
    if tempo <= 0.0 then Err(ValueError("Tempo must be positive"))
    else if timeSignature <= 0 then Err(ValueError("Time signature must be positive"))
    else
      var records :- MapAll(BuildPart, parts);
      Ok(ScoreRecord(GlobalMarks(tempo, key, timeSignature), records))
  }

  /** A music21 `Part` under construction. */
  class Part {
    var id: string
    var partName: string
    var appended: seq<Instrument>
    var inserted: seq<(real, NotationEvent)>

    constructor ()
      ensures id == "" && partName == "" && appended == [] && inserted == []
    {
      id, partName, appended, inserted := "", "", [], [];
    }

    function Record(): PartRecord
      reads this
    {
      PartRecord(id, partName, appended, inserted)
    }

    method Append(i: Instrument)
      modifies this
      ensures appended == old(appended) + [i]
      ensures id == old(id) && partName == old(partName) && inserted == old(inserted)
    {
      appended := appended + [i];
    }

    method Insert(offset: real, e: NotationEvent)
      modifies this
      ensures inserted == old(inserted) + [(offset, e)]
      ensures id == old(id) && partName == old(partName) && appended == old(appended)
    {
      inserted := inserted + [(offset, e)];
    }
  }

  /** A music21 `Score` under construction. */
  class Score {
    var inserted: seq<(real, Mark)>
    var parts: seq<PartRecord>

    constructor ()
      ensures inserted == [] && parts == []
    {
      inserted, parts := [], [];
    }

    function Record(): ScoreRecord
      reads this
    {
      ScoreRecord(inserted, parts)
    }

    method Insert(offset: real, m: Mark)
      modifies this
      ensures inserted == old(inserted) + [(offset, m)] && parts == old(parts)
    {
      inserted := inserted + [(offset, m)];
    }

    method Append(p: PartRecord)
      modifies this
      ensures parts == old(parts) + [p] && inserted == old(inserted)
    {
      parts := parts + [p];
    }
  }

  /** `_insert_note`: insert at most one event into `part`; a malformed value raises. */
  method InsertNote(part: Part, noteDict: Event, partName: string) returns (r: Result<()>)
    modifies part
    ensures r.Ok? <==> Placement(noteDict, partName).Ok?
    ensures r.Err? ==> r.error == Placement(noteDict, partName).error && part.inserted == old(part.inserted)
    ensures r.Ok? ==> part.inserted == old(part.inserted) + Kept(Placement(noteDict, partName).value)
    ensures part.id == old(part.id) && part.partName == old(part.partName) && part.appended == old(part.appended)
  {
    var tick := CoerceFloat(noteDict, "tick");
    if tick.Err? {
      return Err(tick.error);
    }
    var durationTicks := CoerceFloat(noteDict, "duration_ticks");
    if durationTicks.Err? {
      return Err(durationTicks.error);
    }
    var tickValue: real, durationValue: real;
    if tick.value.None? || durationTicks.value.None? {
      var start := CoerceFloat(noteDict, "start");
      if start.Err? {
        return Err(start.error);
      }
      var end := CoerceFloat(noteDict, "end");
      if end.Err? {
        return Err(end.error);
      }
      if start.value.None? || end.value.None? {
        return Ok(());
      }
      tickValue := start.value.value * TICKS_PER_BEAT;
      durationValue := Max((end.value.value - start.value.value) * TICKS_PER_BEAT, 1.0);
    } else {
      tickValue, durationValue := tick.value.value, durationTicks.value.value;
    }
    var offsetQuarter := tickValue / TICKS_PER_BEAT;
    var durationQuarter := durationValue / TICKS_PER_BEAT;
    var event: NotationEvent;
    if partName == "drums" {
      event := Unpitched(durationQuarter);
    } else {
      var pitch := CoerceInt(noteDict, "pitch");
      if pitch.Err? {
        return Err(pitch.error);
      }
      if pitch.value.None? {
        return Ok(());
      }
      event := Note(pitch.value.value, durationQuarter);
    }
    part.Insert(offsetQuarter, event);
    r := Ok(());
  }

  /** The inner loop of `merge_parts`: insert every note of the part, in order. */
  method FillPart(part: Part, notes: seq<Event>, partName: string) returns (r: Result<()>)
    modifies part
    ensures r.Ok? <==> PartPlacements(notes, partName).Ok?
    ensures r.Err? ==> r.error == PartPlacements(notes, partName).error
    ensures r.Ok? ==> part.inserted == old(part.inserted) + PartPlacements(notes, partName).value
    ensures part.id == old(part.id) && part.partName == old(part.partName) && part.appended == old(part.appended)
  {
    ghost var f := PlaceStep(partName);
    ghost var slots: seq<Option<(real, NotationEvent)>> := [];
    var i := 0;
    while i < |notes|
      invariant 0 <= i <= |notes|
      invariant MapAll(f, notes[..i]) == Ok(slots)
      invariant part.inserted == old(part.inserted) + Somes(slots)
      invariant part.id == old(part.id) && part.partName == old(part.partName) && part.appended == old(part.appended)
    {
      ghost var placed := Placement(notes[i], partName);
      assert f(notes[i]) == placed;
      var step := InsertNote(part, notes[i], partName);
      MapAllStep(f, notes, i);
      if step.Err? {
        MapAllStop(f, notes, i + 1);
        return Err(step.error);
      }
      SomesAppend(slots, placed.value);
      slots := slots + [placed.value];
      i := i + 1;
    }
    MapAllDone(f, notes);
    r := Ok(());
  }

  /** The body of `merge_parts`'s loop for one entry: a new part with id, display name, instrument and events. */
  method NewPart(partName: string, notes: seq<Event>) returns (r: Result<Part>)
    ensures r.Ok? <==> BuildPart((partName, notes)).Ok?
    ensures r.Err? ==> r.error == BuildPart((partName, notes)).error
    ensures r.Ok? ==> fresh(r.value) && r.value.Record() == BuildPart((partName, notes)).value
  {
    var part := new Part();
    part.id := partName;
    part.partName := PartName(partName);
    part.Append(InstrumentFor(partName));
    var filled := FillPart(part, notes, partName);
    if filled.Err? {
      return Err(filled.error);
    }
    r := Ok(part);
  }

  /** `merge_parts`: validate, insert the three global marks, then build and append one part per entry, in order. */
  method MergeParts(parts: Dict<seq<Event>>, tempo: real, key: string, timeSignature: int) returns (r: Result<Score>)
    ensures r.Ok? <==> Merge(parts, tempo, key, timeSignature).Ok?
    ensures r.Err? ==> r.error == Merge(parts, tempo, key, timeSignature).error
    ensures r.Ok? ==> fresh(r.value) && r.value.Record() == Merge(parts, tempo, key, timeSignature).value
  {
    if tempo <= 0.0 {
      return Err(ValueError("Tempo must be positive"));
    }
    if timeSignature <= 0 {
      return Err(ValueError("Time signature must be positive"));
    }
    var score := new Score();
    score.Insert(0.0, MetronomeMark(tempo));
    score.Insert(0.0, KeyMark(key));
    score.Insert(0.0, TimeSignatureMark(NatToString(timeSignature) + "/4"));
    var i := 0;
    while i < |parts|
      invariant 0 <= i <= |parts|
      invariant score.inserted == GlobalMarks(tempo, key, timeSignature)
      invariant MapAll(BuildPart, parts[..i]) == Ok(score.parts)
    {
      var part := NewPart(parts[i].0, parts[i].1);
      MapAllStep(BuildPart, parts, i);
      if part.Err? {
        MapAllStop(BuildPart, parts, i + 1);
        return Err(part.error);
      }
      score.Append(part.value.Record());
      i := i + 1;
    }
    MapAllDone(BuildPart, parts);
    r := Ok(score);
  }
}
