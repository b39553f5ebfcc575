/** What `recognize_chords` guarantees about its events, and what the chord templates hold. */
module ChordFacts {
  import opened Outcome
  import opened Assoc
  import opened PyObject
  import opened ChordRecognizer

  /** The number of frames whose label differs from the label of the frame before. */
  function Changes(labels: seq<string>): nat
  {
    if |labels| <= 1 then 0
    else Changes(labels[..|labels| - 1]) + (if labels[|labels| - 2] != labels[|labels| - 1] then 1 else 0)
  }

  /** There is one run for the first frame and one more for every change of label. */
  lemma {:induction false} RunsCount(labels: seq<string>)
    requires labels != []
    ensures |Runs(labels)| == 1 + Changes(labels)
  {
    var init, chord := labels[..|labels| - 1], labels[|labels| - 1];
    ExtendPrefix(Runs(init), chord);
    if init != [] {
      RunsCount(init);
      RunsShape(init);
      assert init[|init| - 1] == labels[|labels| - 2];
    }
  }

  /** The first frame of run `k`. */
  function RunStart(labels: seq<string>, k: int): nat
    requires 0 <= k <= |Runs(labels)|
  {
    Covered(Runs(labels)[..k])
  }

  /** Expanded runs stand for as many labels as they cover. */
  lemma {:induction false} ExpandLength(runs: seq<Run>)
    ensures |Expand(runs)| == Covered(runs)
  {
    if runs != [] {
      ExpandLength(runs[..|runs| - 1]);
    }
  }

  /** Every frame of run `k` carries the run's chord. */
  lemma {:induction false} ExpandAt(runs: seq<Run>, k: int)
    requires Positive(runs) && 0 <= k < |runs|
    ensures Covered(runs[..k + 1]) <= |Expand(runs)|
    ensures forall i :: Covered(runs[..k]) <= i < Covered(runs[..k + 1]) ==> Expand(runs)[i] == runs[k].chord
  {
    var n := |runs|;
    var init, last := runs[..n - 1], runs[n - 1];
    ExpandLength(init);
    ExpandLength(runs);
    CoveredBounds(runs, k);
    if k == n - 1 {
      assert runs[..k] == init && runs[..k + 1] == runs;
    } else {
      assert init[..k] == runs[..k] && init[..k + 1] == runs[..k + 1] && init[k] == runs[k];
      ExpandAt(init, k);
      CoveredPrefix(init, k + 1);
      forall i | Covered(runs[..k]) <= i < Covered(runs[..k + 1]) ensures Expand(runs)[i] == runs[k].chord {
        assert Expand(runs)[i] == Expand(init)[i];
      }
    }
  }

  /**
   * Event `k` covers the frames `RunStart(k)` up to `RunStart(k + 1)`: it starts at the time of its first
   * frame, ends at the time of the next event's first frame (the last event at the last time), every one of
   * its frames has its chord, and the frame before it has another.
   */
  lemma SegmentsMeaning(labels: seq<string>, frameTimes: seq<real>, k: int)
    requires |labels| <= |frameTimes| && 0 <= k < |Runs(labels)|
    ensures |Segments(labels, frameTimes)| == |Runs(labels)|
    ensures RunStart(labels, k) < RunStart(labels, k + 1) <= |labels|
    ensures k + 1 < |Runs(labels)| ==> RunStart(labels, k + 1) < |labels|
    ensures 0 < k ==> 0 < RunStart(labels, k)
    ensures Segments(labels, frameTimes)[k].start == frameTimes[RunStart(labels, k)]
    ensures Segments(labels, frameTimes)[k].end ==
      if k + 1 < |Runs(labels)| then frameTimes[RunStart(labels, k + 1)] else frameTimes[|frameTimes| - 1]
    ensures forall i :: RunStart(labels, k) <= i < RunStart(labels, k + 1) ==> labels[i] == Segments(labels, frameTimes)[k].chord
    ensures 0 < k ==> labels[RunStart(labels, k) - 1] != labels[RunStart(labels, k)]
  {
    var runs := Runs(labels);
    RunsShape(labels);
    RunsCover(labels);
    RunsExpand(labels);
    CoveredBounds(runs, k);
    CoveredPrefix(runs, k + 1);
    ExpandAt(runs, k);
    if k + 1 < |runs| {
      CoveredBounds(runs, k + 1);
    }
    if 0 < k {
      CoveredBounds(runs, k - 1);
      ExpandAt(runs, k - 1);
      assert labels[RunStart(labels, k) - 1] == runs[k - 1].chord;
      assert labels[RunStart(labels, k)] == runs[k].chord;
    }
  }

  /** Event `k` ends where event `k + 1` starts, and the two have different chords. */
  lemma SegmentsLink(labels: seq<string>, frameTimes: seq<real>, k: int)
    requires |labels| <= |frameTimes| && 0 <= k && k + 1 < |Segments(labels, frameTimes)|
    ensures Segments(labels, frameTimes)[k].end == Segments(labels, frameTimes)[k + 1].start
    ensures Segments(labels, frameTimes)[k].chord != Segments(labels, frameTimes)[k + 1].chord
  {
    RunsShape(labels);
    RunsCover(labels);
    assert Runs(labels)[k].chord != Runs(labels)[k + 1].chord;
  }

  /**
   * The events tile the frame times: the first starts at the first time, the last ends at the last time,
   * each ends where the next starts, and neighbouring events have different chords.
   */
  lemma SegmentsChain(labels: seq<string>, frameTimes: seq<real>)
    requires |labels| <= |frameTimes|
    ensures |Segments(labels, frameTimes)| == if labels == [] then 0 else 1 + Changes(labels)
    ensures labels != [] ==> Segments(labels, frameTimes)[0].start == frameTimes[0]
    ensures labels != [] ==>
      Segments(labels, frameTimes)[|Segments(labels, frameTimes)| - 1].end == frameTimes[|frameTimes| - 1]
    ensures forall k :: 0 <= k < |Segments(labels, frameTimes)| - 1 ==>
      && Segments(labels, frameTimes)[k].end == Segments(labels, frameTimes)[k + 1].start
      && Segments(labels, frameTimes)[k].chord != Segments(labels, frameTimes)[k + 1].chord
  {
    var s := Segments(labels, frameTimes);
    RunsShape(labels);
    if labels != [] {
      RunsCount(labels);
      SegmentsMeaning(labels, frameTimes, 0);
      SegmentsMeaning(labels, frameTimes, |s| - 1);
      assert Runs(labels)[..0] == [];
    }
    forall k | 0 <= k < |s| - 1 ensures s[k].end == s[k + 1].start && s[k].chord != s[k + 1].chord {
      SegmentsLink(labels, frameTimes, k);
    }
  }

  /**
   * The round trip for the events themselves: event `k` carries the chord of run `k`, so expanding the
   * events' chords by their runs' frame counts gives back the per-frame labels. `ChordRecognizer.RunsFacts`
   * states the round trip for the runs alone; this lemma ties the emitted events to it.
   */
  lemma SegmentsRoundTrip(labels: seq<string>, frameTimes: seq<real>)
    requires |labels| <= |frameTimes|
    ensures |Segments(labels, frameTimes)| == |Runs(labels)|
    ensures forall k :: 0 <= k < |Runs(labels)| ==> Segments(labels, frameTimes)[k].chord == Runs(labels)[k].chord
    ensures Expand(Runs(labels)) == labels
    ensures Covered(Runs(labels)) == |labels|
  {
    RunsExpand(labels);
    RunsCover(labels);
  }

  /**
   * What `recognize_chords` returns: a missing file raises; no frames give no events; an error on the way
   * to the best templates is reported as a `TranscriptionError`; otherwise one event per run of equal
   * best templates, each named by a template label.
   */
  lemma RecognizeOutcomes(audioPath: string, audioExists: bool, bestIndices: Result<seq<TemplateIndex>>,
                          frameTime: int -> real)
    ensures !audioExists ==>
      RecognizeChords(audioPath, audioExists, bestIndices, frameTime) == Err(TranscriptionError("Input audio not found: " + audioPath))
    ensures audioExists && bestIndices == Ok([]) ==> RecognizeChords(audioPath, audioExists, bestIndices, frameTime) == Ok([])
    ensures audioExists && bestIndices.Err? && !bestIndices.error.TranscriptionError? ==>
      RecognizeChords(audioPath, audioExists, bestIndices, frameTime) == Err(TranscriptionError("Chord recognition failed"))
    ensures audioExists && bestIndices.Ok? && bestIndices.value != [] ==>
      && RecognizeChords(audioPath, audioExists, bestIndices, frameTime).Ok?
      && |RecognizeChords(audioPath, audioExists, bestIndices, frameTime).value| == 1 + Changes(FrameLabels(bestIndices.value))
      && forall k :: 0 <= k < |RecognizeChords(audioPath, audioExists, bestIndices, frameTime).value| ==>
           exists j: TemplateIndex :: RecognizeChords(audioPath, audioExists, bestIndices, frameTime).value[k]["chord"] == PyStr(TemplateLabel(j))
  {
    if audioExists && bestIndices.Ok? && bestIndices.value != [] {
      var indices := bestIndices.value;
      var labels, times := FrameLabels(indices), FrameTimes(|indices|, frameTime);
      var events := Segments(labels, times);
      SegmentsChain(labels, times);
      var r := RecognizeChords(audioPath, audioExists, bestIndices, frameTime).value;
      forall k | 0 <= k < |r| ensures exists j: TemplateIndex :: r[k]["chord"] == PyStr(TemplateLabel(j)) {
        SegmentsMeaning(labels, times, k);
        var i := RunStart(labels, k);
        assert labels[i] == events[k].chord;
        assert r[k]["chord"] == PyStr(TemplateLabel(indices[i]));
      }
    }
  }

  /** Transposing a template: the template on `rootIdx` is the one on C rotated up by `rootIdx` pitch classes. */
  lemma TemplateRotation(rootIdx: int, intervals: seq<int>, p: int)
    requires 0 <= p < 12
    ensures TemplateVector(rootIdx, intervals)[(p + rootIdx) % 12] == TemplateVector(0, intervals)[p]
  {
    forall i | 0 <= i < |intervals| ensures (rootIdx + intervals[i]) % 12 == (p + rootIdx) % 12 <==> (0 + intervals[i]) % 12 == p {
      ModShift(intervals[i], p, rootIdx);
    }
    assert Sounds(rootIdx, intervals, (p + rootIdx) % 12) <==> Sounds(0, intervals, p);
  }

  /** Adding the same amount to two integers keeps them congruent, or not, modulo 12. */
  lemma ModShift(x: int, p: int, c: int)
    requires 0 <= p < 12
    ensures (c + x) % 12 == (p + c) % 12 <==> x % 12 == p
  {
    var q := x / 12;
    assert x == 12 * q + x % 12;
    assert (c + x) % 12 == (c + x % 12) % 12 by {
      assert c + x == (c + x % 12) + 12 * q;
    }
  }

  /** The template the chord test's first two frames match: C major sounds C, E and G. */
  lemma ExampleMajor()
    ensures TemplateTable()[0] == ("Cmaj", [1.0, 0.0, 0.0, 0.0, 1.0, 0.0, 0.0, 1.0, 0.0, 0.0, 0.0, 0.0])
  {
    var maj := [0, 4, 7];
    assert CHORD_INTERVALS[0] == maj;
    var expected: seq<real> := [1.0, 0.0, 0.0, 0.0, 1.0, 0.0, 0.0, 1.0, 0.0, 0.0, 0.0, 0.0];
    var v := TemplateVector(0, maj);
    forall p | 0 <= p < 12 ensures v[p] == expected[p] {
      assert Sounds(0, maj, p) <==> p == 0 || p == 4 || p == 7 by {
        assert maj[0] == 0 && maj[1] == 4 && maj[2] == 7;
      }
    }
    assert v == expected;
    assert TemplateLabel(0) == "Cmaj";
    assert TemplateTable()[0] == (TemplateLabel(0), v);
  }

  /** The template the chord test's last frame matches: A minor sounds A, C and E. */
  lemma ExampleMinor()
    ensures TemplateTable()[28] == ("Amin", [1.0, 0.0, 0.0, 0.0, 1.0, 0.0, 0.0, 0.0, 0.0, 1.0, 0.0, 0.0])
  {
    var min := [0, 3, 7];
    assert CHORD_INTERVALS[1] == min;
    var expected: seq<real> := [1.0, 0.0, 0.0, 0.0, 1.0, 0.0, 0.0, 0.0, 0.0, 1.0, 0.0, 0.0];
    var v := TemplateVector(9, min);
    forall p | 0 <= p < 12 ensures v[p] == expected[p] {
      assert Sounds(9, min, p) <==> p == 9 || p == 0 || p == 4 by {
        assert min[0] == 0 && min[1] == 3 && min[2] == 7;
      }
    }
    assert v == expected;
    assert TemplateLabel(28) == "Amin";
    assert TemplateTable()[28] == (TemplateLabel(28), v);
  }

  /** The best templates of the chord test's three frames. */
  lemma ExampleLabels()
    ensures FrameLabels([0, 0, 28]) == ["Cmaj", "Cmaj", "Amin"]
  {
    assert TemplateLabel(0) == "Cmaj" && TemplateLabel(28) == "Amin";
  }

  /** Two frames of C major then one of A minor, at times 0, 1 and 2 and ending at 3. */
  lemma ExampleSegments()
    ensures Segments(["Cmaj", "Cmaj", "Amin"], [0.0, 1.0, 2.0, 3.0]) ==
      [ChordSegment(0.0, 2.0, "Cmaj"), ChordSegment(2.0, 3.0, "Amin")]
  {
    var labels: seq<string> := ["Cmaj", "Cmaj", "Amin"];
    assert labels[..0] == [] && labels[..1] == ["Cmaj"] && labels[..2] == ["Cmaj", "Cmaj"];
    assert Runs(labels[..1]) == [Run("Cmaj", 1)];
    assert Runs(labels[..2]) == [Run("Cmaj", 2)];
    var runs := Runs(labels);
    assert runs == [Run("Cmaj", 2), Run("Amin", 1)];
    assert runs[..0] == [] && runs[..1] == [Run("Cmaj", 2)];
    assert Covered(runs[..1]) == 2;
  }

  /**
   * The chord test of `recognize_chords`: frames whose best templates are C major, C major and A minor,
   * with frame times 0, 1, 2 and 3, give an event for C major from 0 to 2 and one for A minor from 2 to 3.
   */
  lemma WorkedExample()
    ensures RecognizeChords("harmony.wav", true, Ok([0, 0, 28]), (k: int) => k as real) ==
      Ok([ChordSegment(0.0, 2.0, "Cmaj").AsEvent(), ChordSegment(2.0, 3.0, "Amin").AsEvent()])
  {
    var indices: seq<TemplateIndex> := [0, 0, 28];
    ExampleLabels();
    ExampleSegments();
    var times := FrameTimes(3, (k: int) => k as real);
    assert times == [0.0, 1.0, 2.0, 3.0];
    var events := Segments(FrameLabels(indices), times);
    assert events == [ChordSegment(0.0, 2.0, "Cmaj"), ChordSegment(2.0, 3.0, "Amin")];
    var r := seq(|events|, k requires 0 <= k < |events| => events[k].AsEvent());
    assert r == [events[0].AsEvent(), events[1].AsEvent()];
    assert RecognizeChords("harmony.wav", true, Ok(indices), (k: int) => k as real) == Ok(r);
  }
}
