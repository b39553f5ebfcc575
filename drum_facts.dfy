/** What the drum transcriber guarantees, and what its events do to the assembly stage. */
module DrumFacts {
  import opened Outcome
  import opened Assoc
  import opened PyObject
  import opened DrumTranscriber
  import opened Assembler
  import opened AssemblerFacts

  /**
   * The class list: `[36]` for no classes, the first classes of the base list, then closed hi-hats; a list
   * for fewer classes is a prefix of the list for more.
   */
  lemma GmNoteClassesShape(n: int, m: int)
    ensures n <= 0 ==> GmNoteClasses(n) == [36]
    ensures 1 <= n <= |GM_BASE| ==> GmNoteClasses(n) == GM_BASE[..n]
    ensures n > |GM_BASE| ==>
      && GmNoteClasses(n)[..|GM_BASE|] == GM_BASE
      && forall i :: |GM_BASE| <= i < n ==> GmNoteClasses(n)[i] == GM_EXTRA
    ensures 1 <= n <= m ==> GmNoteClasses(n) == GmNoteClasses(m)[..n]
  {
    if 1 <= n <= m {
      var a, b := GmNoteClasses(n), GmNoteClasses(m);
      forall i | 0 <= i < n ensures a[i] == b[i] {
        if i < |GM_BASE| {
          assert a[i] == GM_BASE[i] && b[i] == GM_BASE[i];
        }
      }
      assert a == b[..n];
    }
  }

  /** A brighter hit never maps to an earlier class. */
  lemma CentroidMonotone(c1: real, c2: real, count: nat)
    requires c1 <= c2
    ensures CentroidPosition(c1, count) <= CentroidPosition(c2, count)
  {
    var n1, n2 := Clamp(c1 / 5000.0, 0.999), Clamp(c2 / 5000.0, 0.999);
    assert n1 <= n2;
    var x, y := n1 * count as real, n2 * count as real;
    assert 0.0 <= x <= y by {
      assert (n2 - n1) * count as real >= 0.0;
    }
    assert Trunc(x) as real <= x && y < Trunc(y) as real + 1.0;
  }

  /** A louder envelope at the onset never gives a softer hit. */
  lemma VelocityMonotone(onsetEnv: seq<real>, f: nat, g: nat, maxEnv: real)
    requires |onsetEnv| > 0 && onsetEnv[ClampFrame(f, |onsetEnv|)] <= onsetEnv[ClampFrame(g, |onsetEnv|)]
    ensures VelocityFromEnv(onsetEnv, f, maxEnv) <= VelocityFromEnv(onsetEnv, g, maxEnv)
  {
    if maxEnv > 0.0 {
      var a, b := onsetEnv[ClampFrame(f, |onsetEnv|)], onsetEnv[ClampFrame(g, |onsetEnv|)];
      assert a / maxEnv <= b / maxEnv;
      var na, nb := Clamp(a / maxEnv, 1.0), Clamp(b / maxEnv, 1.0);
      assert na <= nb;
      assert 1.0 + na * 126.0 <= 1.0 + nb * 126.0;
    }
  }

  /**
   * The loop raises exactly when there is an onset to place and no centroid column to read; otherwise it
   * gives one event per onset, in order, each with a start, a velocity and a pitch, and never an end. The
   * pitch is the entry of `_gm_note_classes(num_classes)` that the centroid at the onset's (clamped) frame
   * selects, and so one of the base GM drum notes.
   */
  lemma DrumEventsShape(o: Onsets, numClasses: int)
    ensures DrumEvents(o, numClasses).Err? <==> o.Count() > 0 && |o.centroid| == 0
    ensures DrumEvents(o, numClasses).Ok? ==>
      && |DrumEvents(o, numClasses).value| == o.Count()
      && forall i :: 0 <= i < o.Count() ==>
           && DrumEvents(o, numClasses).value[i].Keys == {"start", "pitch", "velocity"}
           && "end" !in DrumEvents(o, numClasses).value[i]
           && DrumEvents(o, numClasses).value[i]["start"] == PyNum(o.times[i])
           && DrumEvents(o, numClasses).value[i]["pitch"] ==
                PyNum(MapCentroidToGm(o.centroid[ClampFrame(o.onsetFrames[i], |o.centroid|)], GmNoteClasses(numClasses)) as real)
           && DrumEvents(o, numClasses).value[i]["pitch"].r as int in GmNoteClasses(numClasses)
           && (exists k :: 0 <= k < |GM_BASE| && DrumEvents(o, numClasses).value[i]["pitch"] == PyNum(GM_BASE[k] as real))
           && DrumEvents(o, numClasses).value[i]["velocity"].PyNum?
           && 1.0 <= DrumEvents(o, numClasses).value[i]["velocity"].r <= 127.0
  {
    if DrumEvents(o, numClasses).Ok? {
      var events := DrumEvents(o, numClasses).value;
      var gmNotes, maxEnv := GmNoteClasses(numClasses), MaxEnv(o.onsetEnv);
      forall i | 0 <= i < o.Count()
        ensures exists k :: 0 <= k < |GM_BASE| && events[i]["pitch"] == PyNum(GM_BASE[k] as real)
        ensures 1.0 <= events[i]["velocity"].r <= 127.0
      {
        var frame := o.onsetFrames[i];
        var pitch := MapCentroidToGm(o.centroid[ClampFrame(frame, |o.centroid|)], gmNotes);
        var k :| 0 <= k < |GM_BASE| && GM_BASE[k] == pitch;
        assert events[i]["pitch"] == PyNum(GM_BASE[k] as real);
        var v := VelocityFromEnv(o.onsetEnv, frame, maxEnv);
        assert v == DEFAULT_DRUM_VELOCITY || 1 <= v <= 127;
        assert events[i]["velocity"] == PyNum(v as real);
      }
    }
  }

  /**
   * What `transcribe_drums` returns: a missing file raises; no onsets give no events; an error that is not a
   * `TranscriptionError`, including the loop's own, is reported as one.
   */
  lemma TranscribeDrumsOutcomes(audioPath: string, audioExists: bool, analysis: Result<Onsets>, numClasses: int)
    ensures !audioExists ==>
      TranscribeDrums(audioPath, audioExists, analysis, numClasses) == Err(TranscriptionError("Input audio not found: " + audioPath))
    ensures audioExists && analysis.Ok? && analysis.value.onsetFrames == [] ==>
      TranscribeDrums(audioPath, audioExists, analysis, numClasses) == Ok([])
    ensures audioExists && analysis.Err? && !analysis.error.TranscriptionError? ==>
      TranscribeDrums(audioPath, audioExists, analysis, numClasses) == Err(TranscriptionError("Drum transcription failed"))
    ensures (audioExists && analysis.Ok? && analysis.value.onsetFrames != [] && |analysis.value.times| > 0 &&
             analysis.value.centroid == []) ==>
      TranscribeDrums(audioPath, audioExists, analysis, numClasses) == Err(TranscriptionError("Drum transcription failed"))
    ensures (TranscribeDrums(audioPath, audioExists, analysis, numClasses).Ok? && analysis.Ok? &&
             analysis.value.onsetFrames != []) ==>
      TranscribeDrums(audioPath, audioExists, analysis, numClasses) == DrumEvents(analysis.value, numClasses)
  {
    if audioExists && analysis.Ok? && analysis.value.onsetFrames != [] {
      DrumEventsShape(analysis.value, numClasses);
    }
  }

  /** The drum test's onset analysis: two onsets, at frames 0 and 1, with centroids 100 Hz and 3000 Hz. */
  const EXAMPLE_ONSETS: Onsets := Onsets([0.1, 0.8, 0.2], [0, 1], [0.0, 0.5], [100.0, 3000.0])

  /** The envelope peaks at 0.8. */
  lemma ExampleMax()
    ensures MaxEnv(EXAMPLE_ONSETS.onsetEnv) == 0.8
  {
    var env := EXAMPLE_ONSETS.onsetEnv;
    assert env[1..] == [0.8, 0.2] && env[1..][1..] == [0.2];
  }

  /** The drum test's two hits, one at a time. */
  lemma ExampleHits()
    ensures |EXAMPLE_ONSETS.centroid| >= 1 && EXAMPLE_ONSETS.Count() == 2
    ensures HitAt(EXAMPLE_ONSETS, [36, 38, 42], 0.8, 0) == DrumEvent(0.0, 36, 16)
    ensures HitAt(EXAMPLE_ONSETS, [36, 38, 42], 0.8, 1) == DrumEvent(0.5, 38, 127)
  {
    var o := EXAMPLE_ONSETS;
    assert CentroidPosition(100.0, 3) == 0;
    assert CentroidPosition(3000.0, 3) == 1;
    assert VelocityFromEnv(o.onsetEnv, 0, 0.8) == 16;
    assert VelocityFromEnv(o.onsetEnv, 1, 0.8) == 127;
  }

  /**
   * The drum test with three classes: the dull hit at 100 Hz is a bass drum (36) and the bright one at
   * 3000 Hz a snare (38); the quieter onset gets velocity 16 and the loudest 127.
   */
  lemma WorkedExample()
    ensures DrumEvents(EXAMPLE_ONSETS, 3) == Ok([DrumEvent(0.0, 36, 16), DrumEvent(0.5, 38, 127)])
    ensures TranscribeDrums("drums.wav", true, Ok(EXAMPLE_ONSETS), 3) == Ok([DrumEvent(0.0, 36, 16), DrumEvent(0.5, 38, 127)])
  {
    var o := EXAMPLE_ONSETS;
    ExampleMax();
    ExampleHits();
    var gmNotes := GmNoteClasses(3);
    assert gmNotes == [36, 38, 42];
    var events := seq(o.Count(), i requires 0 <= i < o.Count() => HitAt(o, gmNotes, MaxEnv(o.onsetEnv), i));
    assert events == [HitAt(o, gmNotes, 0.8, 0), HitAt(o, gmNotes, 0.8, 1)];
    assert DrumEvents(o, 3) == Ok(events);
  }

  /**
   * A drums part as `transcribe_drums` produces it, with at least one hit, makes `assemble` raise the
   * quantizer's missing-times error once the parts before it have quantized: drum events have no end.
   */
  lemma DrumsPartRaises(parts: Dict<seq<Event>>, tempo: real, key: string, timeSignature: int, outputDir: string,
                        formats: seq<string>, level: int, swing: bool, j: int, o: Onsets, numClasses: int)
    requires tempo > 0.0 && level > 0
    requires 0 <= j < |parts| && DrumEvents(o, numClasses) == Ok(parts[j].1) && parts[j].1 != []
    requires forall i :: 0 <= i < j ==> Quantizer.Quantize(parts[i].1, tempo, level, swing).Ok?
    ensures Assembly(parts, tempo, key, timeSignature, outputDir, formats, level, swing) ==
      Err(ValueError("Note missing start/end times"))
  {
    DrumEventsShape(o, numClasses);
    PartWithoutEndsRaises(parts, tempo, key, timeSignature, outputDir, formats, level, swing, j);
  }
}
