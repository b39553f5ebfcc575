/** Snapping note times onto the rhythmic grid (assembler/quantizer.py). */
module Quantizer {
  import opened Outcome
  import opened PyObject

  const TICKS_PER_BEAT: real := 480.0

  /** The ticks in one bar of four beats. */
  const TICKS_PER_BAR: int := 1920

  datatype QuantizeSettings = QuantizeSettings(tempo: real, level: int, swing: bool) {
    predicate Valid() { tempo > 0.0 && level > 0 }

    /** Ticks in one grid step: `level` steps fill a bar of four beats. */
    function GridSize(): (g: real)
      requires level != 0
      ensures level > 0 ==> g > 0.0
    {
      TICKS_PER_BEAT * 4.0 / level as real
    }

    /** Ticks per second: a beat lasts `60 / tempo` seconds and holds 480 ticks. */
    function TicksPerSecond(): (tps: real)
      ensures tps == 8.0 * tempo
    {
      TICKS_PER_BEAT * (tempo / 60.0)
    }
  }

  /** Settings `quantize_notes` accepts: it rejects a tempo or level that is not positive. */
  type ValidSettings = s: QuantizeSettings | s.Valid() witness QuantizeSettings(1.0, 1, false)

  /** Python's `round(x)` on a float (half of `int(round(x))`). */
  function RoundHalfEven(x: real): int
  {
    var up := (x + 0.5).Floor;
    if up as real == x + 0.5 && up % 2 != 0 then up - 1 else up
  }

  /** The index of the grid point nearest to `ticks`. */
  function GridIndex(ticks: real, grid: real): int
    requires grid > 0.0
  {
    RoundHalfEven(ticks / grid)
  }

  /** `_snap_ticks`: the nearest grid point; with swing, a point of odd index moves half a step later. */
  function SnapTicks(ticks: real, grid: real, swing: bool): real
  {
    if grid <= 0.0 then ticks
    else
      var index := GridIndex(ticks, grid);
      var snapped := index as real * grid;
      if swing && index % 2 == 1 then snapped + grid * 0.5 else snapped
  }

  /** Snapped start and end in ticks, after a span that collapsed has been widened to one grid step. */
  function SnappedSpan(startTicks: real, endTicks: real, grid: real, swing: bool): (real, real)
  {
    var snappedStart := SnapTicks(startTicks, grid, swing);
    var snappedEnd := SnapTicks(endTicks, grid, swing);
    if snappedEnd <= snappedStart then (snappedStart, snappedStart + grid) else (snappedStart, snappedEnd)
  }

  /** The four values `quantize_notes` writes into a note's copy. */
  datatype Timing = Timing(tick: int, durationTicks: int, start: real, end: real)

  /** Ticks are the rounded snapped positions; seconds are recomputed from the ticks. */
  function SpanTiming(snappedStart: real, snappedEnd: real, tps: real): Timing
    requires tps != 0.0
  {
    var tick := RoundHalfEven(snappedStart);
    var duration := RoundHalfEven(snappedEnd - snappedStart);
    Timing(tick, duration, tick as real / tps, (tick + duration) as real / tps)
  }

  /** The timing of a note of `startSec` to `endSec` seconds, on a grid of `grid` ticks at `tps` ticks a second. */
  function NoteTiming(startSec: real, endSec: real, grid: real, tps: real, swing: bool): Timing
    requires tps != 0.0
  {
    var span := SnappedSpan(startSec * tps, endSec * tps, grid, swing);
    SpanTiming(span.0, span.1, tps)
  }

  /** The four fields `quantize_notes` writes into a copy of each note. */
  const OVERWRITTEN: set<string> := {"tick", "duration_ticks", "start", "end"}

  /** `note` with the four timing fields overwritten by `t`. */
  function WithTiming(note: Event, t: Timing): (q: Event)
    ensures q.Keys == note.Keys + OVERWRITTEN
    ensures forall k :: k in note && k !in OVERWRITTEN ==> q[k] == note[k]
    ensures q["tick"] == PyNum(t.tick as real) && q["duration_ticks"] == PyNum(t.durationTicks as real)
    ensures q["start"] == PyNum(t.start) && q["end"] == PyNum(t.end)
  {
    note["tick" := PyNum(t.tick as real)]["duration_ticks" := PyNum(t.durationTicks as real)]
        ["start" := PyNum(t.start)]["end" := PyNum(t.end)]
  }

  /** One iteration of `quantize_notes`'s loop: check the fields, convert both times, build the copy. */
  function QuantizeNote(note: Event, s: ValidSettings): (r: Result<Event>)
    ensures r.Ok? <==>
      "start" in note && "end" in note && Float(note["start"]).Ok? && Float(note["end"]).Ok?
    ensures "start" !in note || "end" !in note ==> r == Err(ValueError("Note missing start/end times"))
    ensures "start" in note && "end" in note && Float(note["start"]).Err? ==> r == Err(Float(note["start"]).error)
    ensures "start" in note && "end" in note && Float(note["start"]).Ok? && Float(note["end"]).Err? ==>
      r == Err(Float(note["end"]).error)
    ensures r.Ok? ==> r.value == WithTiming(note,
      NoteTiming(Float(note["start"]).value, Float(note["end"]).value, s.GridSize(), s.TicksPerSecond(), s.swing))
  {
    if "start" !in note || "end" !in note then Err(ValueError("Note missing start/end times"))
    else
      var startSec :- Float(note["start"]);
      var endSec :- Float(note["end"]);
      Ok(WithTiming(note, NoteTiming(startSec, endSec, s.GridSize(), s.TicksPerSecond(), s.swing)))
  }

  /** The loop body of `quantize_notes` as a function of the note, for fixed settings. */
  function NoteStep(s: ValidSettings): Event -> Result<Event>
  {
    note => QuantizeNote(note, s)
  }

  /** `quantize_notes(notes, tempo, level, swing)`: validate the settings, then quantize every note in order. */
  function Quantize(notes: seq<Event>, tempo: real, level: int, swing: bool): (r: Result<seq<Event>>)
    ensures tempo <= 0.0 ==> r == Err(ValueError("Tempo must be positive"))
    ensures tempo > 0.0 && level <= 0 ==> r == Err(ValueError("Level must be positive"))
    ensures tempo > 0.0 && level > 0 ==> r == MapAll(NoteStep(QuantizeSettings(tempo, level, swing)), notes)
  {
    if tempo <= 0.0 then Err(ValueError("Tempo must be positive"))
    else if level <= 0 then Err(ValueError("Level must be positive"))
    else MapAll(NoteStep(QuantizeSettings(tempo, level, swing)), notes)
  }

  /** `quantize_notes` as written: validate, then copy each note and overwrite its four timing fields. */
  method QuantizeNotes(notes: seq<Event>, tempo: real, level: int, swing: bool) returns (r: Result<seq<Event>>)
    ensures r == Quantize(notes, tempo, level, swing)
  {
    if tempo <= 0.0 {
      return Err(ValueError("Tempo must be positive"));
    }
    if level <= 0 {
      return Err(ValueError("Level must be positive"));
    }
    var settings: ValidSettings := QuantizeSettings(tempo, level, swing);
    ghost var f := NoteStep(settings);
    var gridSize := settings.GridSize();
    var ticksPerSecond := settings.TicksPerSecond();
    var quantized: seq<Event> := [];
    var i := 0;
    while i < |notes|
      invariant 0 <= i <= |notes|
      invariant MapAll(f, notes[..i]) == Ok(quantized)
    {
      var noteCopy := QuantizeOne(notes[i], settings, gridSize, ticksPerSecond);
      MapAllStep(f, notes, i);
      if noteCopy.Err? {
        MapAllStop(f, notes, i + 1);
        return Err(noteCopy.error);
      }
      quantized := quantized + [noteCopy.value];
      i := i + 1;
    }
    MapAllDone(f, notes);
    r := Ok(quantized);
  }

  /** The body of `quantize_notes`'s loop for one note. */
  method QuantizeOne(note: Event, settings: ValidSettings, gridSize: real, ticksPerSecond: real)
    returns (r: Result<Event>)
    requires gridSize == settings.GridSize() && ticksPerSecond == settings.TicksPerSecond()
    ensures r == QuantizeNote(note, settings)
  {
    if "start" !in note || "end" !in note {
      return Err(ValueError("Note missing start/end times"));
    }
    var startSec := Float(note["start"]);
    if startSec.Err? {
      return Err(startSec.error);
    }
    var endSec := Float(note["end"]);
    if endSec.Err? {
      return Err(endSec.error);
    }
    var noteCopy := RetimeNote(note, startSec.value, endSec.value, gridSize, ticksPerSecond, settings.swing);
    return Ok(noteCopy);
  }

  /** The arithmetic of one loop iteration: seconds to ticks, snapping, rounding, and the rewritten copy. */
  method RetimeNote(note: Event, startSec: real, endSec: real, gridSize: real, ticksPerSecond: real, swing: bool)
    returns (noteCopy: Event)
    requires ticksPerSecond != 0.0
    ensures noteCopy == WithTiming(note, NoteTiming(startSec, endSec, gridSize, ticksPerSecond, swing))
  {
    var startTicks := startSec * ticksPerSecond;
    var endTicks := endSec * ticksPerSecond;
    var snappedStart := SnapTicks(startTicks, gridSize, swing);
    var snappedEnd := SnapTicks(endTicks, gridSize, swing);
    if snappedEnd <= snappedStart {
      snappedEnd := snappedStart + gridSize;
    }
    var durationTicks := RoundHalfEven(snappedEnd - snappedStart);
    noteCopy := note;
    noteCopy := noteCopy["tick" := PyNum(RoundHalfEven(snappedStart) as real)];
    noteCopy := noteCopy["duration_ticks" := PyNum(durationTicks as real)];
    noteCopy := noteCopy["start" := PyNum(noteCopy["tick"].r / ticksPerSecond)];
    noteCopy := noteCopy["end" := PyNum((noteCopy["tick"].r + durationTicks as real) / ticksPerSecond)];
  }
}
