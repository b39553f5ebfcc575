/**
 * Drum hits from onsets (transcriber/drum_transcriber.py): the General MIDI classes, the mapping from a
 * spectral centroid to a class, the velocity from the onset envelope, and the loop that builds one event
 * per onset. Onset detection, the onset envelope, the frame times and the centroid are inputs.
 */
module DrumTranscriber {
  import opened Outcome
  import opened PyObject

  /** The General MIDI drum notes, from low to high spectral brightness. */
  const GM_BASE: seq<int> := [36, 38, 42, 46, 41, 45, 49, 51, 57]

  /** A closed hi-hat, the note used for every class beyond the base list. */
  const GM_EXTRA: int := 42

  /** `_gm_note_classes(num_classes)`: at least one class; the base list cut or padded with hi-hats. */
  function GmNoteClasses(numClasses: int): (notes: seq<int>)
    ensures |notes| == if numClasses <= 0 then 1 else numClasses
    ensures forall i :: 0 <= i < |notes| ==> notes[i] in GM_BASE
  {
    if numClasses <= 0 then [36]
    else if numClasses <= |GM_BASE| then GM_BASE[..numClasses]
    else GM_BASE + seq(numClasses - |GM_BASE|, _ => GM_EXTRA)
  }

  /** `min(max(x, 0.0), hi)` */
  function Clamp(x: real, hi: real): (y: real)
    requires hi >= 0.0
    ensures 0.0 <= y <= hi
    ensures 0.0 <= x <= hi ==> y == x
  {
    if x < 0.0 then 0.0 else if x > hi then hi else x
  }

  /** The class index a centroid selects among `count` classes: `int(min(max(c / 5000, 0), 0.999) * count)`. */
  function CentroidPosition(centroidHz: real, count: nat): (index: int)
    ensures count >= 1 ==> 0 <= index < count
  {
    var normalized := Clamp(centroidHz / 5000.0, 0.999);
    assert 0.0 <= normalized * count as real <= 0.999 * count as real;
    Trunc(normalized * count as real)
  }

  /**
   * `_map_centroid_to_gm(centroid_hz, gm_notes)`: a single class is returned outright, otherwise the class at
   * the centroid's position. Either way the note is the one at `CentroidPosition`.
   */
  function MapCentroidToGm(centroidHz: real, gmNotes: seq<int>): (note: int)
    requires |gmNotes| >= 1
    ensures note == gmNotes[CentroidPosition(centroidHz, |gmNotes|)]
    ensures note in gmNotes
  {
    if |gmNotes| == 1 then gmNotes[0]
    else gmNotes[CentroidPosition(centroidHz, |gmNotes|)]
  }

  /** `min(frame, n - 1)`: a frame index cut to the last of `n` columns (`-1` when there are none). */
  function ClampFrame(frame: nat, n: nat): (index: int)
    ensures n >= 1 ==> 0 <= index < n
    ensures n >= 1 && frame < n ==> index == frame
  {
    if frame < n - 1 then frame else n - 1
  }

  /** The velocity when the envelope gives no information. */
  const DEFAULT_DRUM_VELOCITY: int := 80

  /**
   * `_velocity_from_env(onset_env, frame, max_env)`: 80 for an empty envelope or a maximum that is not
   * positive, otherwise `int(1 + clamp(env / max, 0, 1) * 126)`, a MIDI velocity from 1 to 127.
   */
  function VelocityFromEnv(onsetEnv: seq<real>, frame: nat, maxEnv: real): (velocity: int)
    ensures |onsetEnv| == 0 || maxEnv <= 0.0 ==> velocity == DEFAULT_DRUM_VELOCITY
    ensures |onsetEnv| > 0 && maxEnv > 0.0 ==> 1 <= velocity <= 127
    ensures |onsetEnv| > 0 && maxEnv > 0.0 && onsetEnv[ClampFrame(frame, |onsetEnv|)] >= maxEnv ==> velocity == 127
  {
    if |onsetEnv| == 0 || maxEnv <= 0.0 then DEFAULT_DRUM_VELOCITY
    else
      var value := onsetEnv[ClampFrame(frame, |onsetEnv|)];
      assert value >= maxEnv ==> value / maxEnv >= 1.0 by {
        if value >= maxEnv {
          assert value / maxEnv * maxEnv == value;
        }
      }
      var normalized := Clamp(value / maxEnv, 1.0);
      Trunc(1.0 + normalized * 126.0)
  }

  /** `np.max` of a nonempty envelope. */
  function SeqMax(xs: seq<real>): (m: real)
    requires xs != []
    ensures m in xs && forall i :: 0 <= i < |xs| ==> xs[i] <= m
  {
    if |xs| == 1 then xs[0]
    else
      var m := SeqMax(xs[1..]);
      assert forall i :: 1 <= i < |xs| ==> xs[i] == xs[1..][i - 1];
      if xs[0] >= m then xs[0] else m
  }

  /** `float(np.max(onset_env)) if onset_env.size else 1.0` */
  function MaxEnv(onsetEnv: seq<real>): real
  {
    if onsetEnv == [] then 1.0 else SeqMax(onsetEnv)
  }

  /** What the onset analysis gives the loop: the envelope, the onset frames and times, and centroid row 0. */
  datatype Onsets = Onsets(onsetEnv: seq<real>, onsetFrames: seq<nat>, times: seq<real>, centroid: seq<real>)
  {
    /** `zip(onset_frames, times)` stops at the shorter of the two. */
    function Count(): nat
    {
      if |onsetFrames| <= |times| then |onsetFrames| else |times|
    }
  }

  /** The dictionary appended for one hit: a start, a pitch and a velocity, and no end. */
  function DrumEvent(start: real, pitch: int, velocity: int): (e: Event)
    ensures e.Keys == {"start", "pitch", "velocity"}
    ensures e["start"] == PyNum(start) && e["pitch"] == PyNum(pitch as real) && e["velocity"] == PyNum(velocity as real)
  {
    map["start" := PyNum(start), "pitch" := PyNum(pitch as real), "velocity" := PyNum(velocity as real)]
  }

  /** The event of onset `i`, with a nonempty centroid row. */
  function HitAt(o: Onsets, gmNotes: seq<int>, maxEnv: real, i: int): Event
    requires |gmNotes| >= 1 && |o.centroid| >= 1 && 0 <= i < o.Count()
  {
    var frame := o.onsetFrames[i];
    var centroidHz := o.centroid[ClampFrame(frame, |o.centroid|)];
    DrumEvent(o.times[i], MapCentroidToGm(centroidHz, gmNotes), VelocityFromEnv(o.onsetEnv, frame, maxEnv))
  }

  /**
   * The events of the loop of `transcribe_drums`: one per onset, in order; reading column `-1` of an empty
   * centroid row raises.
   */
  function DrumEvents(o: Onsets, numClasses: int): Result<seq<Event>>
  {
    var gmNotes := GmNoteClasses(numClasses);
    var maxEnv := MaxEnv(o.onsetEnv);
    if o.Count() > 0 && |o.centroid| == 0 then Err(IndexError("index -1 is out of bounds for axis 1 with size 0"))
    else Ok(seq(o.Count(), i requires 0 <= i < o.Count() => HitAt(o, gmNotes, maxEnv, i)))
  }

  /** The event loop of `transcribe_drums` as written. */
  method BuildDrumEvents(o: Onsets, numClasses: int) returns (r: Result<seq<Event>>)
    ensures r == DrumEvents(o, numClasses)
  {
    var maxEnv := MaxEnv(o.onsetEnv);
    var gmNotes := GmNoteClasses(numClasses);
    var events: seq<Event> := [];
    for i := 0 to o.Count()
      invariant |o.centroid| >= 1 || i == 0
      invariant |events| == i
      invariant forall k :: 0 <= k < i ==> events[k] == HitAt(o, gmNotes, maxEnv, k)
    {
      var frame := o.onsetFrames[i];
      var frameIdx := ClampFrame(frame, |o.centroid|);
      if frameIdx < 0 {
        return Err(IndexError("index -1 is out of bounds for axis 1 with size 0"));
      }
      var centroidHz := o.centroid[frameIdx];
      var pitch := MapCentroidToGm(centroidHz, gmNotes);
      var velocity := VelocityFromEnv(o.onsetEnv, frame, maxEnv);
      events := events + [DrumEvent(o.times[i], pitch, velocity)];
    }
    assert events == seq(o.Count(), i requires 0 <= i < o.Count() => HitAt(o, gmNotes, maxEnv, i));
    r := Ok(events);
  }

  /**
   * `transcribe_drums(audio_path, num_classes)` with the existence of the file and the onset analysis (or the
   * error raised on the way to it) given: no onsets give no events; any error that is not a
   * `TranscriptionError` is replaced by one.
   */
  function TranscribeDrums(audioPath: string, audioExists: bool, analysis: Result<Onsets>, numClasses: int)
    : (r: Result<seq<Event>>)
    ensures r.Err? ==> r.error.TranscriptionError?
  {
    if !audioExists then Err(TranscriptionError("Input audio not found: " + audioPath))
    else
      Wrapped(
        var o :- analysis;
        if |o.onsetFrames| == 0 then Ok([]) else DrumEvents(o, numClasses),
        "Drum transcription failed")
  }
}
