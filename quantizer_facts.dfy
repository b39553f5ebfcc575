/** What `quantize_notes` guarantees about the notes it returns, and where those guarantees stop. */
module QuantizerFacts {
  import opened Outcome
  import opened PyObject
  import opened Quantizer

  /** `round` returns the integer nearest to `x`, and on a tie the even one. */
  lemma RoundHalfEvenNearest(x: real)
    ensures x - 0.5 <= RoundHalfEven(x) as real <= x + 0.5
    ensures (RoundHalfEven(x) as real == x - 0.5 || RoundHalfEven(x) as real == x + 0.5) ==> RoundHalfEven(x) % 2 == 0
  {
  }

  /** A whole number rounds to itself. */
  lemma RoundOfWhole(n: int)
    ensures RoundHalfEven(n as real) == n
  {
  }

  lemma MulHalfBound(x: real, g: real)
    requires g > 0.0 && -0.5 <= x <= 0.5
    ensures -0.5 * g <= x * g <= 0.5 * g
  {
    assert (0.5 - x) * g >= 0.0;
    assert (x + 0.5) * g >= 0.0;
  }

  /** A multiplier within half of `q` scales to within half a step of `q * grid`. */
  lemma ScaleHalfBound(k: int, q: real, grid: real, ticks: real)
    requires grid > 0.0 && q * grid == ticks && q - 0.5 <= k as real <= q + 0.5
    ensures ticks - grid / 2.0 <= k as real * grid <= ticks + grid / 2.0
  {
    var x := k as real - q;
    MulHalfBound(x, grid);
    var d := k as real * grid - ticks;
    assert d == x * grid by {
      calc {
        x * grid;
        (k as real - q) * grid;
        k as real * grid - q * grid;
        k as real * grid - ticks;
      }
    }
    assert -0.5 * grid <= d <= 0.5 * grid;
  }

  /** Without swing a position snaps to the grid point of its nearest index, at most half a step away. */
  lemma SnapNearest(ticks: real, grid: real)
    requires grid > 0.0
    ensures SnapTicks(ticks, grid, false) == GridIndex(ticks, grid) as real * grid
    ensures ticks - grid / 2.0 <= SnapTicks(ticks, grid, false) <= ticks + grid / 2.0
  {
    var q := ticks / grid;
    RoundHalfEvenNearest(q);
    ScaleHalfBound(GridIndex(ticks, grid), q, grid, ticks);
  }

  /** Swing moves exactly the points of odd index, by half a grid step; a grid that is not positive leaves ticks alone. */
  lemma SnapSwing(ticks: real, grid: real)
    ensures grid <= 0.0 ==> SnapTicks(ticks, grid, true) == ticks && SnapTicks(ticks, grid, false) == ticks
    ensures grid > 0.0 ==>
      SnapTicks(ticks, grid, true) == SnapTicks(ticks, grid, false) + (if GridIndex(ticks, grid) % 2 == 1 then grid / 2.0 else 0.0)
  {
  }

  /** The snapped end always lies after the snapped start; a collapsed span becomes one grid step long. */
  lemma SpanWidened(startTicks: real, endTicks: real, grid: real, swing: bool)
    requires grid > 0.0
    ensures var span := SnappedSpan(startTicks, endTicks, grid, swing);
      && span.0 < span.1
      && span.0 == SnapTicks(startTicks, grid, swing)
      && (SnapTicks(endTicks, grid, swing) > span.0 ==> span.1 == SnapTicks(endTicks, grid, swing))
      && (SnapTicks(endTicks, grid, swing) <= span.0 ==> span.1 == span.0 + grid)
  {
  }

  /** The rewritten seconds convert back to exactly the stored ticks. */
  lemma TimingSeconds(snappedStart: real, snappedEnd: real, tps: real)
    requires tps != 0.0
    ensures var t := SpanTiming(snappedStart, snappedEnd, tps);
      t.start * tps == t.tick as real && t.end * tps == (t.tick + t.durationTicks) as real
  {
    var t := SpanTiming(snappedStart, snappedEnd, tps);
    assert (t.tick as real / tps) * tps == t.tick as real;
    assert ((t.tick + t.durationTicks) as real / tps) * tps == (t.tick + t.durationTicks) as real;
  }

  /** Without swing the tick lies within half a grid step, plus the rounding, of the start in ticks. */
  lemma TickNearStart(startSec: real, endSec: real, grid: real, tps: real)
    requires grid > 0.0 && tps != 0.0
    ensures var tick := NoteTiming(startSec, endSec, grid, tps, false).tick as real;
      startSec * tps - grid / 2.0 - 0.5 <= tick <= startSec * tps + grid / 2.0 + 0.5
  {
    var snapped := SnapTicks(startSec * tps, grid, false);
    SnapNearest(startSec * tps, grid);
    RoundHalfEvenNearest(snapped);
  }

  /** The grid point `SnapTicks` picks, counted in half grid steps. */
  function HalfSteps(ticks: real, grid: real, swing: bool): int
    requires grid > 0.0
  {
    var index := GridIndex(ticks, grid);
    2 * index + if swing && index % 2 == 1 then 1 else 0
  }

  /** Every snapped position is a whole number of half steps; without swing, an even number. */
  lemma SnapOnHalfSteps(ticks: real, grid: real, swing: bool)
    requires grid > 0.0
    ensures SnapTicks(ticks, grid, swing) == HalfSteps(ticks, grid, swing) as real * (grid / 2.0)
    ensures !swing ==> HalfSteps(ticks, grid, swing) % 2 == 0
  {
    var index := GridIndex(ticks, grid);
    assert index as real * grid == (2 * index) as real * (grid / 2.0);
    assert index as real * grid + grid * 0.5 == (2 * index + 1) as real * (grid / 2.0);
  }

  /** Distinct multiples of a positive step are a step apart, and two steps apart when both are even. */
  lemma LatticeGap(x: real, y: real, m: int, n: int, h: real)
    requires h > 0.0 && x == m as real * h && y == n as real * h && x < y
    ensures y - x >= h
    ensures m % 2 == 0 && n % 2 == 0 ==> y - x >= 2.0 * h
  {
    assert y - x == (n - m) as real * h;
    assert (n - m - 1) as real * h >= 0.0;
    if m % 2 == 0 && n % 2 == 0 {
      assert (n - m - 2) as real * h >= 0.0;
    }
  }

  /** Two snapped positions that differ are at least half a step apart, and a whole step without swing. */
  lemma SnapSeparation(a: real, b: real, grid: real, swing: bool)
    requires grid > 0.0
    requires SnapTicks(a, grid, swing) < SnapTicks(b, grid, swing)
    ensures SnapTicks(b, grid, swing) - SnapTicks(a, grid, swing) >= if swing then grid / 2.0 else grid
  {
    SnapOnHalfSteps(a, grid, swing);
    SnapOnHalfSteps(b, grid, swing);
    LatticeGap(SnapTicks(a, grid, swing), SnapTicks(b, grid, swing), HalfSteps(a, grid, swing), HalfSteps(b, grid, swing), grid / 2.0);
  }

  /** The snapped span is at least half a step long, and a whole step without swing. */
  lemma SpanLength(startTicks: real, endTicks: real, grid: real, swing: bool)
    requires grid > 0.0
    ensures var span := SnappedSpan(startTicks, endTicks, grid, swing);
      span.1 - span.0 >= if swing then grid / 2.0 else grid
  {
    if SnapTicks(startTicks, grid, swing) < SnapTicks(endTicks, grid, swing) {
      SnapSeparation(startTicks, endTicks, grid, swing);
    }
  }

  /** Every quantized note lasts at least one tick once a step is longer than one tick with swing, or half a tick without. */
  lemma DurationPositive(startSec: real, endSec: real, grid: real, tps: real, swing: bool)
    requires tps != 0.0
    requires if swing then grid > 1.0 else grid > 0.5
    ensures NoteTiming(startSec, endSec, grid, tps, swing).durationTicks >= 1
  {
    var span := SnappedSpan(startSec * tps, endSec * tps, grid, swing);
    SpanLength(startSec * tps, endSec * tps, grid, swing);
    RoundHalfEvenNearest(span.1 - span.0);
  }

  /** When the bar divides evenly into `level` steps, a step is a whole number of ticks. */
  lemma WholeGrid(s: ValidSettings)
    requires TICKS_PER_BAR % s.level == 0
    ensures s.GridSize() == (TICKS_PER_BAR / s.level) as real
  {
    var g := TICKS_PER_BAR / s.level;
    assert g * s.level == TICKS_PER_BAR;
    assert (g as real) * (s.level as real) == 1920.0;
  }

  /** On a grid of whole ticks, without swing, every position snaps to a whole multiple of the step. */
  lemma SnapWhole(ticks: real, g: int)
    requires g > 0
    ensures SnapTicks(ticks, g as real, false) == (GridIndex(ticks, g as real) * g) as real
  {
  }

  /** A grid point is its own snap. */
  lemma SnapGridPoint(k: int, g: int)
    requires g > 0
    ensures SnapTicks((k * g) as real, g as real, false) == (k * g) as real
  {
    assert (k * g) as real / g as real == k as real;
    RoundOfWhole(k);
  }

  /** Widening a span between grid points lands on the next grid point. */
  lemma WidenOnGrid(a: int, b: int, g: int)
    requires g > 0
    ensures var start, end := (a * g) as real, (b * g) as real;
      (if end <= start then (start, start + g as real) else (start, end))
        == ((a * g) as real, ((if b <= a then a + 1 else b) * g) as real)
  {
    if b <= a {
      assert b * g <= a * g;
      assert (a + 1) * g == a * g + g;
    } else {
      assert b * g > a * g;
    }
  }

  /** Without swing, on a grid of `g` whole ticks, the span runs from grid point `a` to a later grid point `c`. */
  lemma SpanOnGrid(startTicks: real, endTicks: real, g: int) returns (a: int, c: int)
    requires g > 0
    ensures SnappedSpan(startTicks, endTicks, g as real, false) == ((a * g) as real, (c * g) as real)
    ensures a < c
  {
    a := GridIndex(startTicks, g as real);
    var b := GridIndex(endTicks, g as real);
    SnapWhole(startTicks, g);
    SnapWhole(endTicks, g);
    WidenOnGrid(a, b, g);
    c := if b <= a then a + 1 else b;
  }

  /** The only multiple of `g` in `[0, g)` is zero. */
  lemma SmallMultiple(d: int, g: int, r: int)
    requires g > 0 && d * g == r && 0 <= r < g
    ensures d == 0
  {
  }

  /** A multiple of `g` leaves no remainder. */
  lemma MultipleMod(k: int, g: int)
    requires g > 0
    ensures (k * g) % g == 0
  {
    var q, r := (k * g) / g, (k * g) % g;
    assert k * g == q * g + r && 0 <= r < g;
    assert (k - q) * g == r;
    SmallMultiple(k - q, g, r);
  }

  /** Rounding leaves a span between whole ticks unchanged. */
  lemma WholeSpanTiming(x: int, y: int, tps: real)
    requires tps != 0.0
    ensures SpanTiming(x as real, y as real, tps) == Timing(x, y - x, x as real / tps, y as real / tps)
  {
    RoundOfWhole(x);
    assert y as real - x as real == (y - x) as real;
    RoundOfWhole(y - x);
  }

  /** Without swing, on a grid of `g` whole ticks, the tick and the duration are multiples of `g`, and the duration is at least `g`. */
  lemma TimingOnGrid(startSec: real, endSec: real, g: int, tps: real)
    requires g > 0 && tps != 0.0
    ensures var t := NoteTiming(startSec, endSec, g as real, tps, false);
      && t.tick % g == 0 && t.durationTicks % g == 0 && t.durationTicks >= g
  {
    var a, c := SpanOnGrid(startSec * tps, endSec * tps, g);
    WholeSpanTiming(a * g, c * g, tps);
    assert c * g - a * g == (c - a) * g;
    MultipleMod(a, g);
    MultipleMod(c - a, g);
    assert (c - a) * g >= g;
  }

  /** A span between two increasing grid points snaps to itself. */
  lemma SpanOfGridPoints(a: int, c: int, g: int)
    requires g > 0 && a < c
    ensures SnappedSpan((a * g) as real, (c * g) as real, g as real, false) == ((a * g) as real, (c * g) as real)
  {
    SnapGridPoint(a, g);
    SnapGridPoint(c, g);
    WidenOnGrid(a, c, g);
  }

  /** Dividing by the tick rate and multiplying back is exact. */
  lemma DivMul(x: real, tps: real)
    requires tps != 0.0
    ensures (x / tps) * tps == x
  {
  }

  /** The timing depends on the seconds only through the positions in ticks. */
  lemma TimingFromTicks(startSec: real, endSec: real, x: real, y: real, grid: real, tps: real, swing: bool)
    requires tps != 0.0 && startSec * tps == x && endSec * tps == y
    ensures var span := SnappedSpan(x, y, grid, swing);
      NoteTiming(startSec, endSec, grid, tps, swing) == SpanTiming(span.0, span.1, tps)
  {
  }

  /** Seconds that convert to a span the grid leaves alone quantize to exactly that span. */
  lemma RequantizeFixedSpan(x: real, y: real, grid: real, tps: real)
    requires tps != 0.0 && SnappedSpan(x, y, grid, false) == (x, y)
    ensures NoteTiming(x / tps, y / tps, grid, tps, false) == SpanTiming(x, y, tps)
  {
    DivMul(x, tps);
    DivMul(y, tps);
    TimingFromTicks(x / tps, y / tps, x, y, grid, tps, false);
  }

  /** Without swing, on a grid of whole ticks, quantizing an already quantized timing changes nothing. */
  lemma TimingIdempotent(startSec: real, endSec: real, g: int, tps: real)
    requires g > 0 && tps != 0.0
    ensures var t := NoteTiming(startSec, endSec, g as real, tps, false);
      NoteTiming(t.start, t.end, g as real, tps, false) == t
  {
    var a, c := SpanOnGrid(startSec * tps, endSec * tps, g);
    WholeSpanTiming(a * g, c * g, tps);
    SpanOfGridPoints(a, c, g);
    RequantizeFixedSpan((a * g) as real, (c * g) as real, g as real, tps);
  }

  /** Writing a timing over a note that already carries one keeps only the later timing. */
  lemma WithTimingTwice(note: Event, t: Timing, u: Timing)
    ensures WithTiming(WithTiming(note, t), u) == WithTiming(note, u)
  {
  }

  /** Quantizing a quantized note reads back the seconds it wrote. */
  lemma RequantizeReadsSeconds(note: Event, t: Timing, s: ValidSettings)
    ensures QuantizeNote(WithTiming(note, t), s)
      == Ok(WithTiming(note, NoteTiming(t.start, t.end, s.GridSize(), s.TicksPerSecond(), s.swing)))
  {
    var q := WithTiming(note, t);
    assert Float(q["start"]) == Ok(t.start) && Float(q["end"]) == Ok(t.end);
    WithTimingTwice(note, t, NoteTiming(t.start, t.end, s.GridSize(), s.TicksPerSecond(), s.swing));
  }

  /** Without swing, and with a level that divides the bar evenly, quantizing a quantized note returns it unchanged. */
  lemma QuantizeIdempotent(note: Event, s: ValidSettings)
    requires !s.swing && TICKS_PER_BAR % s.level == 0
    requires QuantizeNote(note, s).Ok?
    ensures QuantizeNote(QuantizeNote(note, s).value, s) == QuantizeNote(note, s)
  {
    var startSec, endSec := Float(note["start"]).value, Float(note["end"]).value;
    var t := NoteTiming(startSec, endSec, s.GridSize(), s.TicksPerSecond(), false);
    WholeGrid(s);
    TimingIdempotent(startSec, endSec, TICKS_PER_BAR / s.level, s.TicksPerSecond());
    RequantizeReadsSeconds(note, t, s);
  }

  /** `quantize_notes` succeeds exactly when every note does, and returns one quantized copy per note, in order. */
  lemma QuantizeAll(notes: seq<Event>, tempo: real, level: int, swing: bool)
    requires tempo > 0.0 && level > 0
    ensures var s: ValidSettings := QuantizeSettings(tempo, level, swing);
      && (Quantize(notes, tempo, level, swing).Ok? <==> forall i :: 0 <= i < |notes| ==> QuantizeNote(notes[i], s).Ok?)
      && (Quantize(notes, tempo, level, swing).Ok? ==>
            && |Quantize(notes, tempo, level, swing).value| == |notes|
            && forall i :: 0 <= i < |notes| ==> Quantize(notes, tempo, level, swing).value[i] == QuantizeNote(notes[i], s).value)
  {
    var s: ValidSettings := QuantizeSettings(tempo, level, swing);
    MapAllOk(NoteStep(s), notes);
  }

  /** The first note that fails decides the error `quantize_notes` raises; a note without start or end raises the missing-times error. */
  lemma QuantizeFailsAt(notes: seq<Event>, tempo: real, level: int, swing: bool, i: int)
    requires tempo > 0.0 && level > 0 && 0 <= i < |notes|
    requires var s: ValidSettings := QuantizeSettings(tempo, level, swing);
      && QuantizeNote(notes[i], s).Err?
      && forall j :: 0 <= j < i ==> QuantizeNote(notes[j], s).Ok?
    ensures Quantize(notes, tempo, level, swing) == Err(QuantizeNote(notes[i], QuantizeSettings(tempo, level, swing)).error)
    ensures "start" !in notes[i] || "end" !in notes[i] ==>
      Quantize(notes, tempo, level, swing) == Err(ValueError("Note missing start/end times"))
  {
    var s: ValidSettings := QuantizeSettings(tempo, level, swing);
    assert FirstFailure(NoteStep(s), notes, i);
    MapAllFailsAt(NoteStep(s), notes, i);
  }

  /** At 120 bpm a sixteenth-note step is 120 ticks and a second holds 960 ticks. */
  lemma SixteenthsAt120()
    ensures QuantizeSettings(120.0, 16, false).GridSize() == 120.0
    ensures QuantizeSettings(120.0, 16, false).TicksPerSecond() == 960.0
  {
  }

  /** The worked example: a note from 0.13 s to 0.36 s at 120 bpm lands on tick 120 and lasts 240 ticks. */
  lemma WorkedExample()
    ensures NoteTiming(0.13, 0.36, 120.0, 960.0, false) == Timing(120, 240, 0.125, 0.375)
  {
    assert GridIndex(0.13 * 960.0, 120.0) == 1;
    assert GridIndex(0.36 * 960.0, 120.0) == 3;
  }

  const EXAMPLE_NOTE: Event := map["start" := PyNum(0.13), "end" := PyNum(0.36), "pitch" := PyNum(60.0), "velocity" := PyNum(100.0)]

  /** Writing the example's timing keeps pitch and velocity and replaces both times. */
  lemma ExampleCopy()
    ensures WithTiming(EXAMPLE_NOTE, Timing(120, 240, 0.125, 0.375)) == map[
      "start" := PyNum(0.125), "end" := PyNum(0.375), "pitch" := PyNum(60.0), "velocity" := PyNum(100.0),
      "tick" := PyNum(120.0), "duration_ticks" := PyNum(240.0)]
  {
    var q := WithTiming(EXAMPLE_NOTE, Timing(120, 240, 0.125, 0.375));
    assert q.Keys == {"start", "end", "pitch", "velocity", "tick", "duration_ticks"};
  }

  /** The same example as a note: pitch and velocity are copied, the four timing fields rewritten. */
  lemma WorkedExampleNote()
    ensures QuantizeNote(EXAMPLE_NOTE, QuantizeSettings(120.0, 16, false)) == Ok(map[
      "start" := PyNum(0.125), "end" := PyNum(0.375), "pitch" := PyNum(60.0), "velocity" := PyNum(100.0),
      "tick" := PyNum(120.0), "duration_ticks" := PyNum(240.0)])
  {
    var s: ValidSettings := QuantizeSettings(120.0, 16, false);
    SixteenthsAt120();
    WorkedExample();
    assert Float(EXAMPLE_NOTE["start"]) == Ok(0.13) && Float(EXAMPLE_NOTE["end"]) == Ok(0.36);
    ExampleCopy();
  }

  /** With swing, quantizing twice can move a note: the swung tick 180 lies halfway between grid points and rounds to 240. */
  lemma SwingNotIdempotent()
    ensures NoteTiming(0.125, 0.25, 120.0, 960.0, true) == Timing(180, 60, 0.1875, 0.25)
    ensures NoteTiming(0.1875, 0.25, 120.0, 960.0, true) == Timing(240, 120, 0.25, 0.375)
  {
    assert GridIndex(0.125 * 960.0, 120.0) == 1;
    assert GridIndex(0.25 * 960.0, 120.0) == 2;
    assert GridIndex(0.1875 * 960.0, 120.0) == 2;
  }

  /** At level 7680 a step is a quarter tick, and a note of no length keeps a duration of zero ticks. */
  lemma ZeroDurationAtFineGrid()
    ensures QuantizeSettings(120.0, 7680, false).GridSize() == 0.25
    ensures NoteTiming(0.0, 0.0, 0.25, 960.0, false).durationTicks == 0
  {
    assert GridIndex(0.0, 0.25) == 0;
  }
}
