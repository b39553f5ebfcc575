/**
 * Chord events from per-frame chord labels (transcriber/chord_recognizer.py): the segmentation of
 * `recognize_chords` and the chord templates. The chroma features, the template scoring and the `argmax`
 * that picks each frame's chord are inputs: the labels and the frame times arrive already computed.
 */
module ChordRecognizer {
  import opened Outcome
  import opened Assoc
  import opened PyObject

  const PITCH_CLASS_NAMES: seq<string> := ["C", "C#", "D", "D#", "E", "F", "F#", "G", "G#", "A", "A#", "B"]

  /** One chord event: a stretch of frames with the same best chord. */
  datatype ChordSegment = ChordSegment(start: real, end: real, chord: string)
  {
    /** The dictionary appended to `events`. */
    function AsEvent(): (e: Event)
      ensures e.Keys == {"start", "end", "chord"}
      ensures e["start"] == PyNum(start) && e["end"] == PyNum(end) && e["chord"] == PyStr(chord)
    {
      map["start" := PyNum(start), "end" := PyNum(end), "chord" := PyStr(chord)]
    }
  }

  /** A run of `count` equal labels. */
  datatype Run = Run(chord: string, count: nat)

  /** One more chord either lengthens the last run or starts a new one. */
  function Extend(runs: seq<Run>, chord: string): seq<Run>
  {
    if runs != [] && runs[|runs| - 1].chord == chord then runs[..|runs| - 1] + [Run(chord, runs[|runs| - 1].count + 1)]
    else runs + [Run(chord, 1)]
  }

  /** The run-length encoding of the labels, built from left to right. */
  function Runs(labels: seq<string>): seq<Run>
  {
    if labels == [] then [] else Extend(Runs(labels[..|labels| - 1]), labels[|labels| - 1])
  }

  /** The number of frames the runs cover. */
  function Covered(runs: seq<Run>): nat
  {
    if runs == [] then 0 else Covered(runs[..|runs| - 1]) + runs[|runs| - 1].count
  }

  /** `[chord] * n` */
  function Repeat(chord: string, n: nat): (r: seq<string>)
    ensures |r| == n && forall i :: 0 <= i < n ==> r[i] == chord
  {
    seq(n, _ => chord)
  }

  /** The labels the runs stand for. */
  function Expand(runs: seq<Run>): seq<string>
  {
    if runs == [] then [] else Expand(runs[..|runs| - 1]) + Repeat(runs[|runs| - 1].chord, runs[|runs| - 1].count)
  }

  /** Every run holds at least one frame. */
  predicate Positive(runs: seq<Run>)
  {
    forall k :: 0 <= k < |runs| ==> runs[k].count >= 1
  }

  /** Neighbouring runs have different labels: every run is maximal. */
  predicate Alternating(runs: seq<Run>)
  {
    forall k :: 0 < k < |runs| ==> runs[k - 1].chord != runs[k].chord
  }

  lemma RunsStep(labels: seq<string>, chord: string)
    ensures Runs(labels + [chord]) == Extend(Runs(labels), chord)
  {
    assert (labels + [chord])[..|labels|] == labels;
  }

  /** The labels up to frame `i + 1`, from those up to frame `i`. */
  lemma RunsNext(labels: seq<string>, i: int)
    requires 0 <= i < |labels|
    ensures Runs(labels[..i + 1]) == Extend(Runs(labels[..i]), labels[i])
  {
    assert labels[..i + 1] == labels[..i] + [labels[i]];
    RunsStep(labels[..i], labels[i]);
  }

  lemma CoveredAppend(runs: seq<Run>, r: Run)
    ensures Covered(runs + [r]) == Covered(runs) + r.count
  {
    assert (runs + [r])[..|runs|] == runs;
  }

  lemma ExpandAppend(runs: seq<Run>, r: Run)
    ensures Expand(runs + [r]) == Expand(runs) + Repeat(r.chord, r.count)
  {
    assert (runs + [r])[..|runs|] == runs;
  }

  /** Extending keeps the runs before the last one; it adds a run exactly when the chord changes. */
  lemma ExtendPrefix(runs: seq<Run>, chord: string)
    ensures runs != [] && runs[|runs| - 1].chord == chord ==>
      |Extend(runs, chord)| == |runs| && Extend(runs, chord)[..|runs| - 1] == runs[..|runs| - 1]
    ensures !(runs != [] && runs[|runs| - 1].chord == chord) ==>
      |Extend(runs, chord)| == |runs| + 1 && Extend(runs, chord)[..|runs|] == runs
    ensures Extend(runs, chord) != [] && Extend(runs, chord)[|Extend(runs, chord)| - 1].chord == chord
  {
    var e := Extend(runs, chord);
    if runs != [] && runs[|runs| - 1].chord == chord {
      assert e[..|runs| - 1] == runs[..|runs| - 1];
    } else {
      assert e[..|runs|] == runs;
    }
  }

  /** Extending keeps the runs nonempty and maximal. */
  lemma ExtendShape(runs: seq<Run>, chord: string)
    requires Positive(runs) && Alternating(runs)
    ensures Positive(Extend(runs, chord)) && Alternating(Extend(runs, chord))
  {
    var e := Extend(runs, chord);
    ExtendPrefix(runs, chord);
    if runs != [] && runs[|runs| - 1].chord == chord {
      forall k | 0 <= k < |runs| - 1 ensures e[k] == runs[k] {
        assert e[k] == e[..|runs| - 1][k];
      }
    } else {
      forall k | 0 <= k < |runs| ensures e[k] == runs[k] {
        assert e[k] == e[..|runs|][k];
      }
    }
  }

  /** Extending covers one more frame. */
  lemma ExtendCover(runs: seq<Run>, chord: string)
    ensures Covered(Extend(runs, chord)) == Covered(runs) + 1
  {
    if runs != [] && runs[|runs| - 1].chord == chord {
      var front, last := runs[..|runs| - 1], runs[|runs| - 1];
      assert runs == front + [last];
      CoveredAppend(front, last);
      CoveredAppend(front, Run(chord, last.count + 1));
    } else {
      CoveredAppend(runs, Run(chord, 1));
    }
  }

  /** Extending stands for one more label. */
  lemma ExtendExpand(runs: seq<Run>, chord: string)
    ensures Expand(Extend(runs, chord)) == Expand(runs) + [chord]
  {
    if runs != [] && runs[|runs| - 1].chord == chord {
      var front, last := runs[..|runs| - 1], runs[|runs| - 1];
      assert runs == front + [last];
      ExpandAppend(front, last);
      ExpandAppend(front, Run(chord, last.count + 1));
      assert Repeat(chord, last.count + 1) == Repeat(chord, last.count) + [chord];
    } else {
      ExpandAppend(runs, Run(chord, 1));
      assert Repeat(chord, 1) == [chord];
    }
  }

  /** Runs are nonempty and maximal, and the last one carries the last label. */
  lemma {:induction false} RunsShape(labels: seq<string>)
    ensures Positive(Runs(labels)) && Alternating(Runs(labels))
    ensures labels == [] <==> Runs(labels) == []
    ensures labels != [] ==> Runs(labels)[|Runs(labels)| - 1].chord == labels[|labels| - 1]
  {
    if labels != [] {
      var init, chord := labels[..|labels| - 1], labels[|labels| - 1];
      RunsShape(init);
      ExtendShape(Runs(init), chord);
      ExtendPrefix(Runs(init), chord);
    }
  }

  /** The runs cover every frame once. */
  lemma {:induction false} RunsCover(labels: seq<string>)
    ensures Covered(Runs(labels)) == |labels|
  {
    if labels != [] {
      var init, chord := labels[..|labels| - 1], labels[|labels| - 1];
      RunsCover(init);
      ExtendCover(Runs(init), chord);
    }
  }

  /** Expanding the runs gives the labels back. */
  lemma {:induction false} RunsExpand(labels: seq<string>)
    ensures Expand(Runs(labels)) == labels
  {
    if labels != [] {
      var init, chord := labels[..|labels| - 1], labels[|labels| - 1];
      assert labels == init + [chord];
      RunsExpand(init);
      ExtendExpand(Runs(init), chord);
    }
  }

  /** The encoding is faithful: the three facts above together. */
  lemma RunsFacts(labels: seq<string>)
    ensures Positive(Runs(labels)) && Alternating(Runs(labels))
    ensures Covered(Runs(labels)) == |labels|
    ensures Expand(Runs(labels)) == labels
    ensures labels == [] <==> Runs(labels) == []
    ensures labels != [] ==> Runs(labels)[|Runs(labels)| - 1].chord == labels[|labels| - 1]
  {
    RunsShape(labels);
    RunsCover(labels);
    RunsExpand(labels);
  }

  /** A shorter prefix of nonempty runs covers fewer frames. */
  lemma {:induction false} CoveredPrefix(runs: seq<Run>, j: int)
    requires Positive(runs) && 0 <= j <= |runs|
    ensures Covered(runs[..j]) + |runs| - j <= Covered(runs)
  {
    if j < |runs| {
      var init := runs[..|runs| - 1];
      assert init[..j] == runs[..j];
      CoveredPrefix(init, j);
    } else {
      assert runs[..j] == runs;
    }
  }

  /** Where run `k` starts and where it ends, as frame indexes. */
  lemma CoveredBounds(runs: seq<Run>, k: int)
    requires Positive(runs) && 0 <= k < |runs|
    ensures Covered(runs[..k + 1]) == Covered(runs[..k]) + runs[k].count
    ensures Covered(runs[..k]) < Covered(runs)
    ensures k + 1 < |runs| ==> Covered(runs[..k + 1]) < Covered(runs)
  {
    assert runs[..k + 1] == runs[..k] + [runs[k]];
    CoveredAppend(runs[..k], runs[k]);
    CoveredPrefix(runs, k + 1);
  }

  /** The event of run `k`: from its first frame to the next run's first frame, or to the last frame time. */
  function SegmentAt(runs: seq<Run>, frameTimes: seq<real>, k: int): ChordSegment
    requires Positive(runs) && Covered(runs) <= |frameTimes| && 0 <= k < |runs|
  {
    CoveredBounds(runs, k);
    var start := frameTimes[Covered(runs[..k])];
    var end := if k + 1 < |runs| then frameTimes[Covered(runs[..k + 1])] else frameTimes[|frameTimes| - 1];
    ChordSegment(start, end, runs[k].chord)
  }

  /** One event per maximal run of equal labels. */
  function Segments(labels: seq<string>, frameTimes: seq<real>): (events: seq<ChordSegment>)
    requires |labels| <= |frameTimes|
  {
    var runs := Runs(labels);
    RunsShape(labels);
    RunsCover(labels);
    seq(|runs|, k requires 0 <= k < |runs| => SegmentAt(runs, frameTimes, k))
  }

  /** Run lists that agree up to `n` runs give the same closed events below `n`. */
  lemma SegmentsAgree(a: seq<Run>, b: seq<Run>, frameTimes: seq<real>, n: int)
    requires Positive(a) && Covered(a) <= |frameTimes| && Positive(b) && Covered(b) <= |frameTimes|
    requires 0 <= n <= |a| && n <= |b| && a[..n] == b[..n]
    ensures forall k :: 0 <= k && k + 1 <= n && k + 1 < |a| && k + 1 < |b| ==>
      SegmentAt(a, frameTimes, k) == SegmentAt(b, frameTimes, k)
  {
    forall k | 0 <= k && k + 1 <= n && k + 1 < |a| && k + 1 < |b|
      ensures SegmentAt(a, frameTimes, k) == SegmentAt(b, frameTimes, k)
    {
      assert a[..k] == a[..n][..k] && b[..k] == b[..n][..k];
      assert a[..k + 1] == a[..n][..k + 1] && b[..k + 1] == b[..n][..k + 1];
      assert a[k] == a[..n][k] && b[k] == b[..n][k];
    }
  }

  /** A chord change at the next frame closes the current event at that frame's time and opens a run. */
  lemma ChangeStep(runs: seq<Run>, frameTimes: seq<real>, events: seq<ChordSegment>, chord: string)
    requires Positive(runs) && Covered(runs) < |frameTimes|
    requires |events| + 1 == |runs| && runs[|events|].chord != chord
    requires forall k :: 0 <= k < |events| ==> events[k] == SegmentAt(runs, frameTimes, k)
    ensures var next := Extend(runs, chord);
      var closed := events + [ChordSegment(frameTimes[Covered(runs[..|events|])], frameTimes[Covered(runs)], runs[|events|].chord)];
      && Positive(next) && Covered(next) == Covered(runs) + 1
      && |closed| + 1 == |next| && next[|closed|].chord == chord && Covered(next[..|closed|]) == Covered(runs)
      && forall k :: 0 <= k < |closed| ==> closed[k] == SegmentAt(next, frameTimes, k)
  {
    CoveredBounds(runs, |events|);
    var next := Extend(runs, chord);
    assert next == runs + [Run(chord, 1)];
    CoveredAppend(runs, Run(chord, 1));
    assert next[..|runs|] == runs;
    assert next[..|events|] == runs[..|events|];
    SegmentsAgree(runs, next, frameTimes, |runs|);
  }

  /** The same chord at the next frame lengthens the current run; the closed events stay as they are. */
  lemma SameStep(runs: seq<Run>, frameTimes: seq<real>, events: seq<ChordSegment>, chord: string)
    requires Positive(runs) && Covered(runs) < |frameTimes|
    requires |events| + 1 == |runs| && runs[|events|].chord == chord
    requires forall k :: 0 <= k < |events| ==> events[k] == SegmentAt(runs, frameTimes, k)
    ensures var next := Extend(runs, chord);
      && Positive(next) && Covered(next) == Covered(runs) + 1
      && |events| + 1 == |next| && next[|events|].chord == chord && Covered(next[..|events|]) == Covered(runs[..|events|])
      && forall k :: 0 <= k < |events| ==> events[k] == SegmentAt(next, frameTimes, k)
  {
    var next := Extend(runs, chord);
    ExtendCover(runs, chord);
    assert next[..|events|] == runs[..|events|];
    SegmentsAgree(runs, next, frameTimes, |events|);
  }

  /**
   * The segmentation loop of `recognize_chords` as written: follow the current chord and where it started,
   * and close an event each time the chord changes, then close the last one at the last frame time.
   */
  method SegmentChords(labels: seq<string>, frameTimes: seq<real>) returns (events: seq<ChordSegment>)
    requires 1 <= |labels| <= |frameTimes|
    ensures events == Segments(labels, frameTimes)
  {
    events := [];
    var currentLabel := labels[0];
    var startTime := frameTimes[0];
    ghost var startIdx := 0;
    assert labels[..0] == [];
    RunsNext(labels, 0);
    ghost var runs := Runs(labels[..1]);
    for frameIdx := 1 to |labels|
      invariant runs == Runs(labels[..frameIdx])
      invariant Positive(runs) && Covered(runs) == frameIdx
      invariant |events| + 1 == |runs|
      invariant currentLabel == runs[|events|].chord
      invariant startIdx == Covered(runs[..|events|]) && startIdx < |frameTimes|
      invariant startTime == frameTimes[startIdx]
      invariant forall k :: 0 <= k < |events| ==> events[k] == SegmentAt(runs, frameTimes, k)
    {
      RunsNext(labels, frameIdx);
      if labels[frameIdx] != currentLabel {
        ChangeStep(runs, frameTimes, events, labels[frameIdx]);
        events := events + [ChordSegment(startTime, frameTimes[frameIdx], currentLabel)];
        currentLabel := labels[frameIdx];
        startTime := frameTimes[frameIdx];
        startIdx := frameIdx;
      } else {
        SameStep(runs, frameTimes, events, labels[frameIdx]);
      }
      runs := Extend(runs, labels[frameIdx]);
    }
    assert labels[..|labels|] == labels;
    assert SegmentAt(runs, frameTimes, |events|) == ChordSegment(startTime, frameTimes[|frameTimes| - 1], currentLabel);
    events := events + [ChordSegment(startTime, frameTimes[|frameTimes| - 1], currentLabel)];
  }

  /** Pitch class `p` belongs to the chord on `rootIdx` with these intervals. */
  predicate Sounds(rootIdx: int, intervals: seq<int>, p: int)
  {
    exists i :: 0 <= i < |intervals| && (rootIdx + intervals[i]) % 12 == p
  }

  /** A chord template before its division by the norm: one on every pitch class of the chord, zero elsewhere. */
  function TemplateVector(rootIdx: int, intervals: seq<int>): seq<real>
  {
    seq(12, p => if Sounds(rootIdx, intervals, p) then 1.0 else 0.0)
  }

  /** One interval more sounds one pitch class more. */
  lemma SoundsNext(rootIdx: int, intervals: seq<int>, k: int, p: int)
    requires 0 <= k < |intervals|
    ensures Sounds(rootIdx, intervals[..k + 1], p) <==> Sounds(rootIdx, intervals[..k], p) || (rootIdx + intervals[k]) % 12 == p
  {
    if Sounds(rootIdx, intervals[..k + 1], p) {
      var i :| 0 <= i < k + 1 && (rootIdx + intervals[..k + 1][i]) % 12 == p;
      if i < k {
        assert intervals[..k][i] == intervals[..k + 1][i];
      }
    }
    if Sounds(rootIdx, intervals[..k], p) {
      var i :| 0 <= i < k && (rootIdx + intervals[..k][i]) % 12 == p;
      assert intervals[..k + 1][i] == intervals[..k][i];
    }
    if (rootIdx + intervals[k]) % 12 == p {
      assert intervals[..k + 1][k] == intervals[k];
    }
  }

  /**
   * `_template(root_idx, intervals)` without the final division by the norm: a vector of twelve zeros with
   * a one written at `(root_idx + interval) % 12` for every interval.
   */
  method Template(rootIdx: int, intervals: seq<int>) returns (vector: array<real>)
    ensures fresh(vector) && vector[..] == TemplateVector(rootIdx, intervals)
  {
    vector := new real[12](_ => 0.0);
    for k := 0 to |intervals|
      invariant vector.Length == 12
      invariant forall p :: 0 <= p < 12 ==> vector[p] == if Sounds(rootIdx, intervals[..k], p) then 1.0 else 0.0
    {
      forall p | 0 <= p < 12 {
        SoundsNext(rootIdx, intervals, k, p);
      }
      vector[(rootIdx + intervals[k]) % 12] := 1.0;
    }
    assert intervals[..|intervals|] == intervals;
  }

  const CHORD_SUFFIXES: seq<string> := ["maj", "min", "7"]
  const CHORD_INTERVALS: seq<seq<int>> := [[0, 4, 7], [0, 3, 7], [0, 4, 7, 10]]

  /** The number of templates: three chord qualities on each of the twelve roots. */
  const TEMPLATE_COUNT: int := 36

  /** A template index: a position in the template dictionary. */
  type TemplateIndex = j: int | 0 <= j < TEMPLATE_COUNT

  /** The label of template `j`: root `j / 3`, quality `j % 3`. */
  function TemplateLabel(j: TemplateIndex): string
  {
    PITCH_CLASS_NAMES[j / 3] + CHORD_SUFFIXES[j % 3]
  }

  /** The dictionary `_build_templates` returns, in insertion order. */
  function TemplateTable(): Dict<seq<real>>
  {
    seq(TEMPLATE_COUNT, j requires 0 <= j < TEMPLATE_COUNT => (TemplateLabel(j), TemplateVector(j / 3, CHORD_INTERVALS[j % 3])))
  }

  /** Root names are one letter, or a letter and a sharp; no two roots share a name. */
  lemma RootNames()
    ensures forall r :: 0 <= r < 12 ==> 1 <= |PITCH_CLASS_NAMES[r]| <= 2
    ensures forall r :: 0 <= r < 12 && |PITCH_CLASS_NAMES[r]| == 2 ==> PITCH_CLASS_NAMES[r][1] == '#'
    ensures forall r, r' :: 0 <= r < r' < 12 ==> PITCH_CLASS_NAMES[r] != PITCH_CLASS_NAMES[r']
  {
  }

  /** Different templates have different labels. */
  lemma TemplateLabelInjective(j: TemplateIndex, j': TemplateIndex)
    requires TemplateLabel(j) == TemplateLabel(j')
    ensures j == j'
  {
    RootNames();
    var name, name', suffix, suffix' := PITCH_CLASS_NAMES[j / 3], PITCH_CLASS_NAMES[j' / 3], CHORD_SUFFIXES[j % 3], CHORD_SUFFIXES[j' % 3];
    var l := name + suffix;
    assert l == name' + suffix';
    assert |name| == |name'| by {
      assert l[1] == (if |name| == 2 then name[1] else suffix[0]);
      assert l[1] == (if |name'| == 2 then name'[1] else suffix'[0]);
    }
    assert name == l[..|name|] == name';
    assert suffix == l[|name|..] == suffix';
  }

  /** The template labels are distinct, so building the dictionary only ever appends. */
  lemma TemplateKeysDistinct()
    ensures DistinctKeys(TemplateTable())
  {
    var t := TemplateTable();
    forall i, j | 0 <= i < j < |t| ensures t[i].0 != t[j].0 {
      if t[i].0 == t[j].0 {
        TemplateLabelInjective(i, j);
      }
    }
  }

  /** The dictionary after `rootIdx + 1` roots: the one after `rootIdx` roots and three new entries. */
  lemma TemplateTableStep(rootIdx: int, templates: Dict<seq<real>>, maj: seq<real>, min: seq<real>, seventh: seq<real>)
    requires 0 <= rootIdx < 12 && templates == TemplateTable()[..3 * rootIdx]
    requires maj == TemplateVector(rootIdx, [0, 4, 7]) && min == TemplateVector(rootIdx, [0, 3, 7])
    requires seventh == TemplateVector(rootIdx, [0, 4, 7, 10])
    ensures var name := PITCH_CLASS_NAMES[rootIdx];
      var t1 := Put(templates, name + "maj", maj);
      var t2 := Put(t1, name + "min", min);
      Put(t2, name + "7", seventh) == TemplateTable()[..3 * rootIdx + 3]
  {
    var t := TemplateTable();
    TemplateKeysDistinct();
    var a := 3 * rootIdx;
    assert a / 3 == rootIdx && a % 3 == 0;
    assert (a + 1) / 3 == rootIdx && (a + 1) % 3 == 1;
    assert (a + 2) / 3 == rootIdx && (a + 2) % 3 == 2;
    assert t[a] == (PITCH_CLASS_NAMES[rootIdx] + "maj", maj);
    assert t[a + 1] == (PITCH_CLASS_NAMES[rootIdx] + "min", min);
    assert t[a + 2] == (PITCH_CLASS_NAMES[rootIdx] + "7", seventh);
    assert t[a].1 == maj && t[a + 1].1 == min && t[a + 2].1 == seventh;
    PutPrefix(t, a);
    PutPrefix(t, a + 1);
    PutPrefix(t, a + 2);
  }

  /** `_build_templates`: for every root in order, a major, a minor and a dominant-seventh template. */
  method BuildTemplates() returns (templates: Dict<seq<real>>)
    ensures templates == TemplateTable()
  {
    templates := [];
    for rootIdx := 0 to 12
      invariant templates == TemplateTable()[..3 * rootIdx]
    {
      var rootName := PITCH_CLASS_NAMES[rootIdx];
      var maj := Template(rootIdx, [0, 4, 7]);
      var min := Template(rootIdx, [0, 3, 7]);
      var seventh := Template(rootIdx, [0, 4, 7, 10]);
      TemplateTableStep(rootIdx, templates, maj[..], min[..], seventh[..]);
      templates := Put(templates, rootName + "maj", maj[..]);
      templates := Put(templates, rootName + "min", min[..]);
      templates := Put(templates, rootName + "7", seventh[..]);
    }
    assert TemplateTable()[..36] == TemplateTable();
  }

  /** `[labels[idx] for idx in best_indices]`, with `labels` the keys of the template dictionary. */
  function FrameLabels(bestIndices: seq<TemplateIndex>): (labels: seq<string>)
    ensures |labels| == |bestIndices|
    ensures forall i :: 0 <= i < |bestIndices| ==> labels[i] == TemplateLabel(bestIndices[i])
  {
    var keys := Keys(TemplateTable());
    seq(|bestIndices|, i requires 0 <= i < |bestIndices| => keys[bestIndices[i]])
  }

  /** `frames_to_time(np.arange(n + 1), ...)`: the conversion applied to every frame index and one past the last. */
  function FrameTimes(numFrames: nat, frameTime: int -> real): (times: seq<real>)
    ensures |times| == numFrames + 1
    ensures forall k :: 0 <= k <= numFrames ==> times[k] == frameTime(k)
  {
    seq(numFrames + 1, k => frameTime(k))
  }

  /**
   * `recognize_chords(audio_path)` with the existence of the file, the best template of every chroma frame
   * (or the error raised on the way to it) and the frame-to-time conversion given. No frames give no events;
   * any error that is not a `TranscriptionError` is replaced by one.
   */
  function RecognizeChords(audioPath: string, audioExists: bool, bestIndices: Result<seq<TemplateIndex>>,
                           frameTime: int -> real): (r: Result<seq<Event>>)
    ensures r.Err? ==> r.error.TranscriptionError?
    ensures r.Ok? ==> forall k :: 0 <= k < |r.value| ==> r.value[k].Keys == {"start", "end", "chord"}
  {
    if !audioExists then Err(TranscriptionError("Input audio not found: " + audioPath))
    else
      Wrapped(
        var indices :- bestIndices;
        if indices == [] then Ok([])
        else
          var events := Segments(FrameLabels(indices), FrameTimes(|indices|, frameTime));
          Ok(seq(|events|, k requires 0 <= k < |events| => events[k].AsEvent())),
        "Chord recognition failed")
  }
}
