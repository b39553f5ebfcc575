/** What `merge_parts` guarantees about the score it builds. */
module MergerFacts {
  import opened Outcome
  import opened Strings
  import opened PyObject
  import opened Assoc
  import opened Merger

  /** The display name and the instrument come from the same six known parts, and agree on them. */
  lemma NameAndInstrument(partName: string)
    ensures partName in PART_NAME_MAP <==> InstrumentFor(partName) != GenericInstrument
    ensures partName in PART_NAME_MAP ==> PartName(partName) == InstrumentLabel(InstrumentFor(partName))
    ensures partName !in PART_NAME_MAP ==> PartName(partName) == Title(partName)
  {
  }

  /** Every field `_insert_note` may convert holds a value that converts. */
  predicate Convertible(e: Event)
  {
    && (forall k :: k in e && k in {"tick", "duration_ticks", "start", "end"} ==> Float(e[k]).Ok?)
    && ("pitch" in e ==> Int(e["pitch"]).Ok?)
  }

  /** The event carries the timing `_insert_note` needs: both ticks fields, or both seconds fields. */
  predicate Timed(e: Event)
  {
    ("tick" in e && "duration_ticks" in e) || ("start" in e && "end" in e)
  }

  /** An event with both tick fields is inserted at `tick / 480` quarters and lasts `duration_ticks / 480`. */
  lemma TickedPlacement(e: Event, partName: string)
    requires "tick" in e && "duration_ticks" in e && Float(e["tick"]).Ok? && Float(e["duration_ticks"]).Ok?
    ensures var offset, length := Float(e["tick"]).value / TICKS_PER_BEAT, Float(e["duration_ticks"]).value / TICKS_PER_BEAT;
      && (partName == "drums" ==> Placement(e, partName) == Ok(Some((offset, Unpitched(length)))))
      && (partName != "drums" && "pitch" !in e ==> Placement(e, partName) == Ok(None))
      && (partName != "drums" && "pitch" in e && Int(e["pitch"]).Ok? ==>
            Placement(e, partName) == Ok(Some((offset, Note(Int(e["pitch"]).value, length)))))
  {
    assert EventTicks(e) == Ok(Some((Float(e["tick"]).value, Float(e["duration_ticks"]).value)));
  }

  /**
   * Without both tick fields the event's `start` and `end` are read as beats, not seconds: the offset in quarters
   * is `start` itself and the length is `end - start`, at least 1/480.
   */
  lemma SecondsFallback(e: Event)
    requires "tick" !in e || "duration_ticks" !in e
    requires "tick" in e ==> Float(e["tick"]).Ok?
    requires "duration_ticks" in e ==> Float(e["duration_ticks"]).Ok?
    requires "start" in e && "end" in e && Float(e["start"]).Ok? && Float(e["end"]).Ok?
    ensures var start, end := Float(e["start"]).value, Float(e["end"]).value;
      && EventTicks(e) == Ok(Some((start * TICKS_PER_BEAT, Max((end - start) * TICKS_PER_BEAT, 1.0))))
      && Placement(e, "drums") == Ok(Some((start, Unpitched(Max(end - start, 1.0 / TICKS_PER_BEAT)))))
  {
    var start, end := Float(e["start"]).value, Float(e["end"]).value;
    assert EventTicks(e) == Ok(Some((start * TICKS_PER_BEAT, Max((end - start) * TICKS_PER_BEAT, 1.0))));
    assert Max((end - start) * TICKS_PER_BEAT, 1.0) / TICKS_PER_BEAT == Max(end - start, 1.0 / TICKS_PER_BEAT);
  }

  /** An event with neither complete pair of timing fields is skipped, in every part. */
  lemma UntimedSkipped(e: Event, partName: string)
    requires Convertible(e) && !Timed(e)
    ensures Placement(e, partName) == Ok(None)
  {
  }

  /** A value that does not convert raises, however the rest of the event looks. */
  lemma MalformedTickRaises(e: Event, partName: string)
    requires "tick" in e && Float(e["tick"]).Err?
    ensures Placement(e, partName) == Err(Float(e["tick"]).error)
  {
  }

  /** Skips never raise: an event whose fields convert is placed or skipped, never an error; in a drums part, pitch is never read. */
  lemma ConvertibleNeverRaises(e: Event, partName: string)
    requires Convertible(e) || (partName == "drums" && Convertible(e - {"pitch"}))
    ensures Placement(e, partName).Ok?
    ensures Placement(e, partName).value.Some? <==> Timed(e) && (partName == "drums" || "pitch" in e)
  {
    var c := e - {"pitch"};
    if partName == "drums" && !Convertible(e) {
      assert forall k :: k in {"tick", "duration_ticks", "start", "end"} && k in e ==> k in c && c[k] == e[k];
    }
  }

  /** A part whose events all convert never raises and inserts at most one event per note. */
  lemma {:induction false} PartNeverRaises(notes: seq<Event>, partName: string)
    requires forall i :: 0 <= i < |notes| ==> Convertible(notes[i])
    ensures PartPlacements(notes, partName).Ok?
    ensures |PartPlacements(notes, partName).value| <= |notes|
  {
    forall i | 0 <= i < |notes|
      ensures PlaceStep(partName)(notes[i]).Ok?
    {
      ConvertibleNeverRaises(notes[i], partName);
    }
    MapAllOk(PlaceStep(partName), notes);
    SomesLength(MapAll(PlaceStep(partName), notes).value);
  }

  /** In a drums part every timed event is inserted, unpitched, in input order. */
  lemma {:induction false} DrumsKeepTimed(notes: seq<Event>)
    requires forall i :: 0 <= i < |notes| ==> Convertible(notes[i]) && Timed(notes[i])
    ensures PartPlacements(notes, "drums").Ok?
    ensures |PartPlacements(notes, "drums").value| == |notes|
    ensures forall i :: 0 <= i < |notes| ==> Placement(notes[i], "drums").Ok? && Placement(notes[i], "drums").value.Some?
    ensures forall i :: 0 <= i < |notes| ==>
      PartPlacements(notes, "drums").value[i] == Placement(notes[i], "drums").value.value &&
      PartPlacements(notes, "drums").value[i].1.Unpitched?
  {
    var f := PlaceStep("drums");
    forall i | 0 <= i < |notes|
      ensures f(notes[i]).Ok? && f(notes[i]).value.Some? && f(notes[i]).value.value.1.Unpitched?
    {
      ConvertibleNeverRaises(notes[i], "drums");
    }
    MapAllOk(f, notes);
    SomesLength(MapAll(f, notes).value);
  }

  /** Outside the drums part an event without `pitch` is never inserted: a part of chord events stays empty. */
  lemma {:induction false} PitchlessPartEmpty(notes: seq<Event>, partName: string)
    requires partName != "drums"
    requires forall i :: 0 <= i < |notes| ==> Convertible(notes[i]) && "pitch" !in notes[i]
    ensures PartPlacements(notes, partName) == Ok([])
  {
    var f := PlaceStep(partName);
    forall i | 0 <= i < |notes|
      ensures f(notes[i]).Ok? && f(notes[i]).value.None?
    {
      ConvertibleNeverRaises(notes[i], partName);
    }
    MapAllOk(f, notes);
    SomesLength(MapAll(f, notes).value);
  }

  /**
   * `merge_parts` rejects a bad tempo, then a bad meter; otherwise the score holds the three marks and one part per
   * entry, in order, each with its name as id, its display name, exactly one instrument and its own events.
   */
  lemma MergeShape(parts: Dict<seq<Event>>, tempo: real, key: string, timeSignature: int)
    ensures tempo <= 0.0 ==> Merge(parts, tempo, key, timeSignature) == Err(ValueError("Tempo must be positive"))
    ensures tempo > 0.0 && timeSignature <= 0 ==>
      Merge(parts, tempo, key, timeSignature) == Err(ValueError("Time signature must be positive"))
    ensures tempo > 0.0 && timeSignature > 0 ==>
      (Merge(parts, tempo, key, timeSignature).Ok? <==> forall i :: 0 <= i < |parts| ==> PartPlacements(parts[i].1, parts[i].0).Ok?)
    ensures Merge(parts, tempo, key, timeSignature).Ok? ==>
      var score := Merge(parts, tempo, key, timeSignature).value;
      && timeSignature > 0
      && score.inserted == [(0.0, MetronomeMark(tempo)), (0.0, KeyMark(key)),
                            (0.0, TimeSignatureMark(NatToString(timeSignature) + "/4"))]
      && |score.parts| == |parts|
      && forall i :: 0 <= i < |parts| ==>
           score.parts[i] == PartRecord(parts[i].0, PartName(parts[i].0), [InstrumentFor(parts[i].0)],
                                        PartPlacements(parts[i].1, parts[i].0).value)
  {
    MapAllOk(BuildPart, parts);
  }

  /** The first entry whose events raise decides the error, and no score is returned. */
  lemma MergeFailsAt(parts: Dict<seq<Event>>, tempo: real, key: string, timeSignature: int, i: int)
    requires tempo > 0.0 && timeSignature > 0
    requires FirstFailure(BuildPart, parts, i)
    ensures Merge(parts, tempo, key, timeSignature) == Err(PartPlacements(parts[i].1, parts[i].0).error)
  {
    MapAllFailsAt(BuildPart, parts, i);
  }

  const LEAD_NOTE: Event := map["tick" := PyNum(0.0), "duration_ticks" := PyNum(120.0), "pitch" := PyNum(60.0)]
  const DRUM_HIT: Event := map["tick" := PyNum(0.0), "duration_ticks" := PyNum(120.0)]

  const LEAD_PART: PartRecord := PartRecord("lead_vocal", "Soprano", [Soprano], [(0.0, Note(60, 0.25))])
  const DRUMS_PART: PartRecord := PartRecord("drums", "Percussion", [Percussion], [(0.0, Unpitched(0.25))])

  /** The two parts of the worked example, built one entry at a time. */
  lemma ExampleParts()
    ensures MapAll(BuildPart, [("lead_vocal", [LEAD_NOTE]), ("drums", [DRUM_HIT])]) == Ok([LEAD_PART, DRUMS_PART])
  {
    TickedPlacement(LEAD_NOTE, "lead_vocal");
    TickedPlacement(DRUM_HIT, "drums");
    assert Placement(LEAD_NOTE, "lead_vocal") == Ok(Some((0.0, Note(60, 0.25))));
    assert Placement(DRUM_HIT, "drums") == Ok(Some((0.0, Unpitched(0.25))));
    MapAllSingle(PlaceStep("lead_vocal"), LEAD_NOTE);
    MapAllSingle(PlaceStep("drums"), DRUM_HIT);
    assert Somes([Some((0.0, Note(60, 0.25)))]) == [(0.0, Note(60, 0.25))];
    assert Somes([Some((0.0, Unpitched(0.25)))]) == [(0.0, Unpitched(0.25))];
    assert BuildPart(("lead_vocal", [LEAD_NOTE])) == Ok(LEAD_PART);
    assert BuildPart(("drums", [DRUM_HIT])) == Ok(DRUMS_PART);
    var parts := [("lead_vocal", [LEAD_NOTE]), ("drums", [DRUM_HIT])];
    MapAllSingle(BuildPart, parts[0]);
    MapAllAppend(BuildPart, [parts[0]], parts[1]);
    assert [parts[0]] + [parts[1]] == parts;
    assert [LEAD_PART] + [DRUMS_PART] == [LEAD_PART, DRUMS_PART];
  }

  /** The worked example: a lead vocal note and a drum hit give two parts, `lead_vocal` then `drums`. */
  lemma WorkedExample()
    ensures Merge([("lead_vocal", [LEAD_NOTE]), ("drums", [DRUM_HIT])], 120.0, "C", 4) == Ok(ScoreRecord(
      [(0.0, MetronomeMark(120.0)), (0.0, KeyMark("C")), (0.0, TimeSignatureMark("4/4"))],
      [PartRecord("lead_vocal", "Soprano", [Soprano], [(0.0, Note(60, 0.25))]),
       PartRecord("drums", "Percussion", [Percussion], [(0.0, Unpitched(0.25))])]))
  {
    ExampleParts();
    assert NatToString(4) == "4";
    assert NatToString(4) + "/4" == "4/4";
  }
}
