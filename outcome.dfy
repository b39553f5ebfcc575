/** Results and the error kinds raised by the modelled code. */
module Outcome {

  /** The Python exception classes the modelled code raises or wraps. */
  datatype Error =
    | ValueError(msg: string)
    | TypeError(msg: string)
    | IndexError(msg: string)
    | StopIteration
    | FileNotFoundError(msg: string)
    | TranscriptionError(msg: string)
    | ReadError(msg: string)   // what reading a file raises: an `OSError` such as `IsADirectoryError`, or `UnicodeDecodeError`
    | Exit(code: int)

  datatype Option<+T> = None | Some(value: T)

  /** A call that either returns a value or raises an `Error`. */
  datatype Result<+T> = Ok(value: T) | Err(error: Error) {
    predicate IsFailure() { Err? }

    function PropagateFailure<U>(): Result<U>
      requires Err?
    {
      Err(error)
    }

    function Extract(): T
      requires Ok?
    {
      value
    }
  }

  /** Element `i` is the first of `xs` on which `f` fails. */
  predicate FirstFailure<T, U>(f: T -> Result<U>, xs: seq<T>, i: int)
  {
    && 0 <= i < |xs|
    && f(xs[i]).Err?
    && forall j :: 0 <= j < i ==> f(xs[j]).Ok?
  }

  /**
   * A Python loop that applies `f` to each element in order and collects the results:
   * it stops at the first element that raises, and that error is the loop's.
   */
  function MapAll<T, U>(f: T -> Result<U>, xs: seq<T>): Result<seq<U>>
  {
    if xs == [] then Ok([])
    else
      var first := f(xs[0]);
      if first.Err? then Err(first.error)
      else
        var rest := MapAll(f, xs[1..]);
        if rest.Err? then Err(rest.error) else Ok([first.value] + rest.value)
  }

  /** The loop succeeds exactly when every element does, and then collects every result in order. */
  lemma {:induction false} MapAllOk<T, U>(f: T -> Result<U>, xs: seq<T>)
    ensures MapAll(f, xs).Ok? <==> forall i :: 0 <= i < |xs| ==> f(xs[i]).Ok?
    ensures MapAll(f, xs).Ok? ==> |MapAll(f, xs).value| == |xs|
    ensures MapAll(f, xs).Ok? ==> forall i :: 0 <= i < |xs| ==> MapAll(f, xs).value[i] == f(xs[i]).value
  {
    if xs != [] {
      MapAllOk(f, xs[1..]);
      assert forall i :: 1 <= i < |xs| ==> xs[i] == xs[1..][i - 1];
    }
  }

  /** A failing loop fails with the error of its first failing element. */
  lemma {:induction false} MapAllErr<T, U>(f: T -> Result<U>, xs: seq<T>)
    requires MapAll(f, xs).Err?
    ensures exists i :: FirstFailure(f, xs, i) && MapAll(f, xs).error == f(xs[i]).error
  {
    if f(xs[0]).Err? {
      assert FirstFailure(f, xs, 0);
    } else {
      MapAllErr(f, xs[1..]);
      var i :| FirstFailure(f, xs[1..], i) && MapAll(f, xs[1..]).error == f(xs[1..][i]).error;
      FirstFailureShift(f, xs, i);
    }
  }

  /** A first failure in the tail, after a head that succeeds, is the first failure of the whole sequence. */
  lemma FirstFailureShift<T, U>(f: T -> Result<U>, xs: seq<T>, i: int)
    requires |xs| > 0 && f(xs[0]).Ok? && FirstFailure(f, xs[1..], i)
    ensures FirstFailure(f, xs, i + 1) && xs[i + 1] == xs[1..][i]
  {
    forall j | 0 <= j < i + 1
      ensures f(xs[j]).Ok?
    {
      if j > 0 { assert xs[j] == xs[1..][j - 1]; }
    }
  }

  /** The error of the loop is exactly that of its first failing element. */
  lemma MapAllFailsAt<T, U>(f: T -> Result<U>, xs: seq<T>, i: int)
    requires FirstFailure(f, xs, i)
    ensures MapAll(f, xs) == Err(f(xs[i]).error)
  {
    MapAllOk(f, xs);
    MapAllErr(f, xs);
    var i' :| FirstFailure(f, xs, i') && MapAll(f, xs).error == f(xs[i']).error;
    assert i' == i;
  }

  /** Running the loop over one more element. */
  lemma {:induction false} MapAllAppend<T, U>(f: T -> Result<U>, xs: seq<T>, x: T)
    ensures MapAll(f, xs + [x]) ==
      if MapAll(f, xs).Err? then MapAll(f, xs)
      else if f(x).Err? then Err(f(x).error)
      else Ok(MapAll(f, xs).value + [f(x).value])
  {
    if xs == [] {
      assert xs + [x] == [x] && [x][0] == x && [x][1..] == [];
      assert MapAll(f, [x][1..]) == Ok([]);
      if f(x).Ok? {
        assert MapAll(f, [x]) == Ok([f(x).value] + []);
        assert [f(x).value] + [] == MapAll(f, xs).value + [f(x).value];
      }
    } else {
      assert (xs + [x])[0] == xs[0];
      assert (xs + [x])[1..] == xs[1..] + [x];
      MapAllAppend(f, xs[1..], x);
      if f(xs[0]).Ok? && MapAll(f, xs[1..]).Ok? && f(x).Ok? {
        assert [f(xs[0]).value] + (MapAll(f, xs[1..]).value + [f(x).value])
          == ([f(xs[0]).value] + MapAll(f, xs[1..]).value) + [f(x).value];
      }
    }
  }

  /** Once a prefix fails, the rest of the sequence is never looked at. */
  lemma {:induction false} MapAllPrefixErr<T, U>(f: T -> Result<U>, xs: seq<T>, ys: seq<T>)
    requires MapAll(f, xs).Err?
    ensures MapAll(f, xs + ys) == MapAll(f, xs)
  {
    assert (xs + ys)[0] == xs[0];
    if f(xs[0]).Ok? {
      assert (xs + ys)[1..] == xs[1..] + ys;
      MapAllPrefixErr(f, xs[1..], ys);
    }
  }

  /** One more iteration of the loop over `xs`, from the first `i` elements to the first `i + 1`. */
  lemma MapAllStep<T, U>(f: T -> Result<U>, xs: seq<T>, i: int)
    requires 0 <= i < |xs|
    ensures MapAll(f, xs[..i + 1]) ==
      if MapAll(f, xs[..i]).Err? then MapAll(f, xs[..i])
      else if f(xs[i]).Err? then Err(f(xs[i]).error)
      else Ok(MapAll(f, xs[..i]).value + [f(xs[i]).value])
  {
    assert xs[..i + 1] == xs[..i] + [xs[i]];
    MapAllAppend(f, xs[..i], xs[i]);
  }

  /** The loop over a single element. */
  lemma MapAllSingle<T, U>(f: T -> Result<U>, x: T)
    ensures MapAll(f, [x]) == if f(x).Err? then Err(f(x).error) else Ok([f(x).value])
  {
    assert [x][0] == x && [x][1..] == [];
    assert MapAll(f, [x][1..]) == Ok([]);
    if f(x).Ok? {
      assert [f(x).value] + [] == [f(x).value];
    }
  }

  /** A loop that has failed on a prefix has failed on the whole sequence. */
  lemma MapAllStop<T, U>(f: T -> Result<U>, xs: seq<T>, i: int)
    requires 0 <= i <= |xs| && MapAll(f, xs[..i]).Err?
    ensures MapAll(f, xs) == MapAll(f, xs[..i])
  {
    assert xs[..i] + xs[i..] == xs;
    MapAllPrefixErr(f, xs[..i], xs[i..]);
  }

  /** A loop that has run over every element has run over the whole sequence. */
  lemma MapAllDone<T, U>(f: T -> Result<U>, xs: seq<T>)
    ensures MapAll(f, xs[..|xs|]) == MapAll(f, xs)
  {
    assert xs[..|xs|] == xs;
  }

  /** The value of a slot, if it has one. */
  function Kept<T>(x: Option<T>): seq<T>
  {
    if x.Some? then [x.value] else []
  }

  /** The values of the `Some` entries, in order: what a loop that skips some elements keeps. */
  function Somes<T>(xs: seq<Option<T>>): seq<T>
  {
    if xs == [] then [] else Kept(xs[0]) + Somes(xs[1..])
  }

  /** One more slot adds its value, if it has one, at the end. */
  lemma {:induction false} SomesAppend<T>(xs: seq<Option<T>>, x: Option<T>)
    ensures Somes(xs + [x]) == Somes(xs) + Kept(x)
  {
    if xs == [] {
      assert xs + [x] == [x] && [x][1..] == [];
    } else {
      assert (xs + [x])[0] == xs[0] && (xs + [x])[1..] == xs[1..] + [x];
      SomesAppend(xs[1..], x);
    }
  }

  /** Skipping never adds elements; when nothing is skipped every value is kept in place. */
  lemma {:induction false} SomesLength<T>(xs: seq<Option<T>>)
    ensures |Somes(xs)| <= |xs|
    ensures (forall i :: 0 <= i < |xs| ==> xs[i].Some?) ==>
      |Somes(xs)| == |xs| && forall i :: 0 <= i < |xs| ==> Somes(xs)[i] == xs[i].value
    ensures (forall i :: 0 <= i < |xs| ==> xs[i].None?) ==> Somes(xs) == []
  {
    if xs != [] {
      var tail := xs[1..];
      SomesLength(tail);
      assert forall i :: 1 <= i < |xs| ==> xs[i] == tail[i - 1];
      assert Somes(xs) == Kept(xs[0]) + Somes(tail);
      if forall i :: 0 <= i < |xs| ==> xs[i].Some? {
        assert Kept(xs[0]) == [xs[0].value];
        assert forall i :: 1 <= i < |xs| ==> Somes(xs)[i] == Somes(tail)[i - 1];
      }
    }
  }

  /** The values of two runs of slots, one run after the other. */
  lemma {:induction false} SomesConcat<T>(xs: seq<Option<T>>, ys: seq<Option<T>>)
    ensures Somes(xs + ys) == Somes(xs) + Somes(ys)
  {
    if xs == [] {
      assert xs + ys == ys;
    } else {
      assert (xs + ys)[0] == xs[0] && (xs + ys)[1..] == xs[1..] + ys;
      SomesConcat(xs[1..], ys);
    }
  }

  /** Slots that all hold a value keep every value, in order. */
  lemma {:induction false} SomesAll<T>(xs: seq<Option<T>>, ys: seq<T>)
    requires |xs| == |ys| && forall i :: 0 <= i < |xs| ==> xs[i] == Some(ys[i])
    ensures Somes(xs) == ys
  {
    if xs != [] {
      assert forall i :: 0 <= i < |xs| - 1 ==> xs[1..][i] == xs[i + 1];
      SomesAll(xs[1..], ys[1..]);
      assert [ys[0]] + ys[1..] == ys;
    }
  }

  /** A value is kept exactly when some slot holds it. */
  lemma {:induction false} SomesMembers<T>(xs: seq<Option<T>>, x: T)
    ensures x in Somes(xs) <==> exists i :: 0 <= i < |xs| && xs[i] == Some(x)
  {
    if xs != [] {
      SomesMembers(xs[1..], x);
      assert forall i :: 1 <= i < |xs| ==> xs[i] == xs[1..][i - 1];
      if exists i :: 0 <= i < |xs| && xs[i] == Some(x) {
        var i :| 0 <= i < |xs| && xs[i] == Some(x);
        if i > 0 {
          assert xs[1..][i - 1] == Some(x);
        }
      }
    }
  }

  /**
   * A transcriber's `except TranscriptionError: raise` / `except Exception: raise TranscriptionError(message)`:
   * a `TranscriptionError` passes through, any other error is replaced by one with the given message.
   */
  function Wrapped<T>(r: Result<T>, message: string): (w: Result<T>)
    ensures r.Ok? ==> w == r
    ensures r.Err? && r.error.TranscriptionError? ==> w == r
    ensures r.Err? && !r.error.TranscriptionError? ==> w == Err(TranscriptionError(message))
  {
    if r.Err? && !r.error.TranscriptionError? then Err(TranscriptionError(message)) else r
  }
}
