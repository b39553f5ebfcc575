/** What `assemble` guarantees: counts, the parts it hands to the merger, and which error wins. */
module AssemblerFacts {
  import opened Outcome
  import opened Assoc
  import opened PyObject
  import opened Quantizer
  import opened QuantizerFacts
  import opened Merger
  import opened Exporter
  import opened Assembler

  /** Every part quantizes. */
  predicate AllQuantize(parts: Dict<seq<Event>>, tempo: real, level: int, swing: bool)
  {
    forall i :: 0 <= i < |parts| ==> Quantize(parts[i].1, tempo, level, swing).Ok?
  }

  /** The parts under their own names, each quantized with the same settings. */
  function QuantizedParts(parts: Dict<seq<Event>>, tempo: real, level: int, swing: bool): (q: Dict<seq<Event>>)
    requires AllQuantize(parts, tempo, level, swing)
    ensures |q| == |parts| && Keys(q) == Keys(parts)
    ensures forall i :: 0 <= i < |parts| ==> q[i] == (parts[i].0, Quantize(parts[i].1, tempo, level, swing).value)
  {
    seq(|parts|, i requires 0 <= i < |parts| => (parts[i].0, Quantize(parts[i].1, tempo, level, swing).value))
  }

  /** One part: its quantized notes under its own name, or the quantizer's error. */
  lemma QuantizePartAt(tempo: real, level: int, swing: bool, entry: (string, seq<Event>))
    ensures QuantizePart(tempo, level, swing)(entry) ==
      if Quantize(entry.1, tempo, level, swing).Err? then Err(Quantize(entry.1, tempo, level, swing).error)
      else Ok((entry.0, Quantize(entry.1, tempo, level, swing).value))
  {
  }

  /** The loop over the parts succeeds exactly when every part quantizes, and then keeps every part in order. */
  lemma QuantizeLoop(parts: Dict<seq<Event>>, tempo: real, level: int, swing: bool)
    ensures MapAll(QuantizePart(tempo, level, swing), parts).Ok? <==> AllQuantize(parts, tempo, level, swing)
    ensures AllQuantize(parts, tempo, level, swing) ==>
      MapAll(QuantizePart(tempo, level, swing), parts) == Ok(QuantizedParts(parts, tempo, level, swing))
  {
    var f := QuantizePart(tempo, level, swing);
    forall i | 0 <= i < |parts| ensures f(parts[i]).Ok? <==> Quantize(parts[i].1, tempo, level, swing).Ok? {
      QuantizePartAt(tempo, level, swing, parts[i]);
    }
    MapAllOk(f, parts);
    if AllQuantize(parts, tempo, level, swing) {
      var r, q := MapAll(f, parts).value, QuantizedParts(parts, tempo, level, swing);
      forall i | 0 <= i < |parts| ensures r[i] == q[i] {
        QuantizePartAt(tempo, level, swing, parts[i]);
      }
      assert r == q;
    }
  }

  /** Two part lists whose parts have the same sizes hold the same number of notes. */
  lemma {:induction false} NoteCountPointwise(a: Dict<seq<Event>>, b: Dict<seq<Event>>)
    requires |a| == |b| && forall i :: 0 <= i < |a| ==> |a[i].1| == |b[i].1|
    ensures NoteCount(a) == NoteCount(b)
  {
    if a != [] {
      NoteCountPointwise(a[..|a| - 1], b[..|b| - 1]);
    }
  }

  /** Quantizing keeps every part's length, so the total is the number of input notes. */
  lemma QuantizedNoteCount(parts: Dict<seq<Event>>, tempo: real, level: int, swing: bool)
    requires AllQuantize(parts, tempo, level, swing)
    ensures NoteCount(QuantizedParts(parts, tempo, level, swing)) == NoteCount(parts)
  {
    var q := QuantizedParts(parts, tempo, level, swing);
    forall i | 0 <= i < |parts| ensures |q[i].1| == |parts[i].1| {
      QuantizeAll(parts[i].1, tempo, level, swing);
    }
    NoteCountPointwise(q, parts);
  }

  /**
   * A successful `assemble`: one count per input part, the total of the input notes, the exporter's dictionary,
   * and a score merged from the quantized parts under their own names, in input order.
   */
  lemma AssemblyCounts(parts: Dict<seq<Event>>, tempo: real, key: string, timeSignature: int, outputDir: string,
                       formats: seq<string>, level: int, swing: bool)
    requires DistinctKeys(parts)
    ensures Assembly(parts, tempo, key, timeSignature, outputDir, formats, level, swing).Ok? <==>
      AssembledScore(parts, tempo, key, timeSignature, level, swing).Ok?
    ensures Assembly(parts, tempo, key, timeSignature, outputDir, formats, level, swing).Ok? ==>
      && AllQuantize(parts, tempo, level, swing)
      && Assembly(parts, tempo, key, timeSignature, outputDir, formats, level, swing).value ==
           AssemblyResult(ExportWritten(outputDir, formats), |parts|, NoteCount(parts))
      && AssembledScore(parts, tempo, key, timeSignature, level, swing) ==
           Merge(QuantizedParts(parts, tempo, level, swing), tempo, key, timeSignature)
  {
    QuantizeLoop(parts, tempo, level, swing);
    if AllQuantize(parts, tempo, level, swing) {
      var q := QuantizedParts(parts, tempo, level, swing);
      assert DistinctKeys(q) by {
        forall i, j | 0 <= i < j < |q| ensures q[i].0 != q[j].0 {
          assert q[i].0 == parts[i].0 && q[j].0 == parts[j].0;
        }
      }
      PutAllDistinct(q);
      QuantizedNoteCount(parts, tempo, level, swing);
    }
  }

  /** The first part that fails to quantize decides the error; nothing is merged and nothing is exported. */
  lemma QuantizeErrorFirst(parts: Dict<seq<Event>>, tempo: real, key: string, timeSignature: int, outputDir: string,
                           formats: seq<string>, level: int, swing: bool, j: int)
    requires 0 <= j < |parts| && Quantize(parts[j].1, tempo, level, swing).Err?
    requires forall i :: 0 <= i < j ==> Quantize(parts[i].1, tempo, level, swing).Ok?
    ensures Assembly(parts, tempo, key, timeSignature, outputDir, formats, level, swing) ==
      Err(Quantize(parts[j].1, tempo, level, swing).error)
    ensures AssembledScore(parts, tempo, key, timeSignature, level, swing) ==
      Err(Quantize(parts[j].1, tempo, level, swing).error)
  {
    var f := QuantizePart(tempo, level, swing);
    assert FirstFailure(f, parts, j);
    MapAllFailsAt(f, parts, j);
  }

  /**
   * A part none of whose notes has an `end`, as the drum transcriber produces, makes `assemble` raise the
   * quantizer's missing-times error once the parts before it have quantized.
   */
  lemma PartWithoutEndsRaises(parts: Dict<seq<Event>>, tempo: real, key: string, timeSignature: int, outputDir: string,
                              formats: seq<string>, level: int, swing: bool, j: int)
    requires tempo > 0.0 && level > 0
    requires 0 <= j < |parts| && parts[j].1 != [] && forall k :: 0 <= k < |parts[j].1| ==> "end" !in parts[j].1[k]
    requires forall i :: 0 <= i < j ==> Quantize(parts[i].1, tempo, level, swing).Ok?
    ensures Assembly(parts, tempo, key, timeSignature, outputDir, formats, level, swing) ==
      Err(ValueError("Note missing start/end times"))
    ensures AssembledScore(parts, tempo, key, timeSignature, level, swing).Err?
  {
    var s: ValidSettings := QuantizeSettings(tempo, level, swing);
    assert QuantizeNote(parts[j].1[0], s).Err?;
    QuantizeFailsAt(parts[j].1, tempo, level, swing, 0);
    QuantizeErrorFirst(parts, tempo, key, timeSignature, outputDir, formats, level, swing, j);
  }

  /** Any note without an `end`, in any part, makes `assemble` raise. */
  lemma MissingEndRaises(parts: Dict<seq<Event>>, tempo: real, key: string, timeSignature: int, outputDir: string,
                         formats: seq<string>, level: int, swing: bool, j: int, k: int)
    requires 0 <= j < |parts| && 0 <= k < |parts[j].1| && "end" !in parts[j].1[k]
    ensures Assembly(parts, tempo, key, timeSignature, outputDir, formats, level, swing).Err?
    ensures AssembledScore(parts, tempo, key, timeSignature, level, swing).Err?
  {
    QuantizeLoop(parts, tempo, level, swing);
    if tempo > 0.0 && level > 0 {
      QuantizeAll(parts[j].1, tempo, level, swing);
    }
  }

  /** A tempo that is not positive is always rejected, by the quantizer or, with no parts, by the merger. */
  lemma TempoRejected(parts: Dict<seq<Event>>, tempo: real, key: string, timeSignature: int, outputDir: string,
                      formats: seq<string>, level: int, swing: bool)
    requires tempo <= 0.0
    ensures Assembly(parts, tempo, key, timeSignature, outputDir, formats, level, swing) ==
      Err(ValueError("Tempo must be positive"))
  {
    if parts != [] {
      QuantizeErrorFirst(parts, tempo, key, timeSignature, outputDir, formats, level, swing, 0);
    }
  }

  /** The level is only checked by the quantizer: with no parts, a level that is not positive goes through. */
  lemma LevelUncheckedWithoutParts(tempo: real, key: string, timeSignature: int, outputDir: string,
                                   formats: seq<string>, level: int, swing: bool)
    requires tempo > 0.0 && timeSignature > 0
    ensures Assembly([], tempo, key, timeSignature, outputDir, formats, level, swing) ==
      Ok(AssemblyResult(ExportWritten(outputDir, formats), 0, 0))
  {
  }

  /** A time signature that is not positive is only rejected after every part has been quantized. */
  lemma TimeSignatureCheckedLate(parts: Dict<seq<Event>>, tempo: real, key: string, timeSignature: int,
                                 outputDir: string, formats: seq<string>, level: int, swing: bool)
    requires tempo > 0.0 && timeSignature <= 0
    ensures AllQuantize(parts, tempo, level, swing) ==>
      Assembly(parts, tempo, key, timeSignature, outputDir, formats, level, swing) ==
        Err(ValueError("Time signature must be positive"))
  {
    QuantizeLoop(parts, tempo, level, swing);
  }
}
