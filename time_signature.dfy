/**
 * The 3-or-4 decision of analyzer/time_sig.py: bars of three or of four beats are scored by the mean onset
 * strength at the beats that would start them, and the stronger grouping wins. The onset envelope and the
 * beat frames are inputs.
 */
module TimeSignature {
  import opened Outcome

  /** `beats[::n]`: every `n`-th beat, starting with the first. */
  function Strided(beats: seq<nat>, n: nat): (r: seq<nat>)
    requires n >= 1
    ensures |r| <= |beats|
    ensures beats != [] ==> r != [] && r[0] == beats[0]
    decreases |beats|
  {
    if beats == [] then []
    else [beats[0]] + Strided(if n <= |beats| then beats[n..] else [], n)
  }

  /** Position `k` of the stride exists exactly when beat `k * n` does, and holds that beat. */
  lemma {:induction false} StridedAt(beats: seq<nat>, n: nat, k: nat)
    requires n >= 1
    ensures k < |Strided(beats, n)| <==> k * n < |beats|
    ensures k < |Strided(beats, n)| ==> Strided(beats, n)[k] == beats[k * n]
    decreases k
  {
    if k > 0 && beats != [] {
      StridedAt(if n <= |beats| then beats[n..] else [], n, k - 1);
      StridedShift(beats, n, k, (k - 1) * n);
    }
  }

  /** The step of `StridedAt`: what position `k - 1` of the rest's stride says about beat `j`, the whole's says about `j + n`. */
  lemma StridedShift(beats: seq<nat>, n: nat, k: nat, j: nat)
    requires n >= 1 && k > 0 && beats != [] && j + n == k * n
    requires var rest := if n <= |beats| then beats[n..] else [];
      && (k - 1 < |Strided(rest, n)| <==> j < |rest|)
      && (k - 1 < |Strided(rest, n)| ==> Strided(rest, n)[k - 1] == rest[j])
    ensures k < |Strided(beats, n)| <==> k * n < |beats|
    ensures k < |Strided(beats, n)| ==> Strided(beats, n)[k] == beats[k * n]
  {
    var rest := if n <= |beats| then beats[n..] else [];
    assert Strided(beats, n) == [beats[0]] + Strided(rest, n);
    if n <= |beats| && k < |Strided(beats, n)| {
      assert rest[j] == beats[j + n];
    }
  }

  /** The sum of a list of reals. */
  function Sum(xs: seq<real>): real
  {
    if xs == [] then 0.0 else Sum(xs[..|xs| - 1]) + xs[|xs| - 1]
  }

  /** `np.mean` of a nonempty list. */
  function Mean(xs: seq<real>): real
    requires xs != []
  {
    Sum(xs) / |xs| as real
  }

  /** Every index lies inside the envelope. */
  predicate InBounds(env: seq<real>, idx: seq<nat>)
  {
    forall k :: 0 <= k < |idx| ==> idx[k] < |env|
  }

  /** `onset_env[idx]`: the envelope at each index, or numpy's error for an index past its end. */
  function Gather(env: seq<real>, idx: seq<nat>): (r: Result<seq<real>>)
    ensures r.Ok? <==> InBounds(env, idx)
    ensures r.Ok? ==> |r.value| == |idx| && forall k :: 0 <= k < |idx| ==> r.value[k] == env[idx[k]]
    ensures r.Err? ==> r.error.IndexError?
  {
    if InBounds(env, idx) then Ok(seq(|idx|, k requires 0 <= k < |idx| => env[idx[k]]))
    else Err(IndexError("index is out of bounds for the onset envelope"))
  }

  /** `_score_bars(onset_env, beat_frames, beats_per_bar)` */
  function ScoreBars(env: seq<real>, beats: seq<nat>, beatsPerBar: nat): Result<real>
    requires beatsPerBar >= 1
  {
    if |beats| == 0 then Ok(0.0)
    else
      var barStarts := Strided(beats, beatsPerBar);
      if |barStarts| == 0 then Ok(0.0)
      else
        var strengths :- Gather(env, barStarts);
        Ok(Mean(strengths))
  }

  /** The decision of `detect_time_signature`, once the envelope and the beat frames are known. */
  function DetectTimeSignature(env: seq<real>, beats: seq<nat>): (r: Result<int>)
    ensures r.Ok? ==> r.value == 3 || r.value == 4
  {
    if |beats| < 4 then Ok(4)
    else
      var score3 :- ScoreBars(env, beats, 3);
      var score4 :- ScoreBars(env, beats, 4);
      Ok(if score3 > score4 then 3 else 4)
  }

  /**
   * A bar score is 0.0 without beats, and otherwise the mean strength at beats `0, n, 2n, …`, which exists
   * exactly when all those beats lie inside the envelope.
   */
  lemma ScoreBarsMeaning(env: seq<real>, beats: seq<nat>, n: nat)
    requires n >= 1
    ensures beats == [] ==> ScoreBars(env, beats, n) == Ok(0.0)
    ensures beats != [] ==>
      (ScoreBars(env, beats, n).Ok? <==> forall k: nat :: k * n < |beats| ==> beats[k * n] < |env|)
    ensures beats != [] && ScoreBars(env, beats, n).Ok? ==>
      var starts := Strided(beats, n);
      && (forall k: nat :: k < |starts| <==> k * n < |beats|)
      && (forall k: nat :: k < |starts| ==> starts[k] == beats[k * n])
      && ScoreBars(env, beats, n) == Ok(Mean(seq(|starts|, k requires 0 <= k < |starts| => env[starts[k]])))
  {
    if beats != [] {
      var starts := Strided(beats, n);
      forall k: nat ensures (k < |starts| <==> k * n < |beats|) && (k < |starts| ==> starts[k] == beats[k * n]) {
        StridedAt(beats, n, k);
      }
    }
  }

  /**
   * With at least four beats that the envelope covers, the answer is 3 exactly when bars of three score
   * strictly higher than bars of four; a tie gives 4.
   */
  lemma DecisionRule(env: seq<real>, beats: seq<nat>)
    requires |beats| >= 4 && ScoreBars(env, beats, 3).Ok? && ScoreBars(env, beats, 4).Ok?
    ensures DetectTimeSignature(env, beats).Ok?
    ensures DetectTimeSignature(env, beats).value == 3 <==>
      ScoreBars(env, beats, 3).value > ScoreBars(env, beats, 4).value
    ensures ScoreBars(env, beats, 3).value == ScoreBars(env, beats, 4).value ==> DetectTimeSignature(env, beats) == Ok(4)
  {
  }

  /** Fewer than four beats give common time, whatever the envelope; so does a run with no beats. */
  lemma FewBeats(env: seq<real>, beats: seq<nat>)
    requires |beats| < 4
    ensures DetectTimeSignature(env, beats) == Ok(4)
  {
  }

  /** The only way to raise is a bar start past the end of the envelope. */
  lemma DetectErrors(env: seq<real>, beats: seq<nat>)
    requires forall k :: 0 <= k < |beats| ==> beats[k] < |env|
    ensures DetectTimeSignature(env, beats).Ok?
  {
    if |beats| >= 4 {
      ScoreBarsMeaning(env, beats, 3);
      ScoreBarsMeaning(env, beats, 4);
    }
  }

  /** Twelve beats at frames 0 to 11. */
  const TWELVE_BEATS: seq<nat> := [0, 1, 2, 3, 4, 5, 6, 7, 8, 9, 10, 11]

  lemma TwelveBeatsStrided()
    ensures Strided(TWELVE_BEATS, 3) == [0, 3, 6, 9]
    ensures Strided(TWELVE_BEATS, 4) == [0, 4, 8]
  {
    var b := TWELVE_BEATS;
    assert b[3..] == [3, 4, 5, 6, 7, 8, 9, 10, 11];
    assert b[3..][3..] == [6, 7, 8, 9, 10, 11];
    assert b[3..][3..][3..] == [9, 10, 11];
    assert b[3..][3..][3..][3..] == [];
    assert Strided([9, 10, 11], 3) == [9];
    assert Strided([6, 7, 8, 9, 10, 11], 3) == [6, 9];
    assert Strided([3, 4, 5, 6, 7, 8, 9, 10, 11], 3) == [3, 6, 9];
    assert b[4..] == [4, 5, 6, 7, 8, 9, 10, 11];
    assert b[4..][4..] == [8, 9, 10, 11];
    assert b[4..][4..][4..] == [];
    assert Strided([8, 9, 10, 11], 4) == [8];
    assert Strided([4, 5, 6, 7, 8, 9, 10, 11], 4) == [4, 8];
  }

  /** A sum of four or of three terms, written out. */
  lemma SumOfFew(a: real, b: real, c: real, d: real)
    ensures Sum([a, b, c]) == a + b + c
    ensures Sum([a, b, c, d]) == a + b + c + d
  {
    assert [a, b, c, d][..3] == [a, b, c];
    assert [a, b, c][..2] == [a, b];
    assert [a, b][..1] == [a];
    assert [a][..0] == [];
    assert Sum([a]) == a;
    assert Sum([a, b]) == a + b;
    assert Sum([a, b, c]) == a + b + c;
  }

  /** The first envelope of the time-signature tests: strength 2 at frames 3, 6 and 9, and 1 at frames 0, 4 and 8. */
  const THREE_ENV: seq<real> := [1.0, 0.0, 0.0, 2.0, 1.0, 0.0, 2.0, 0.0, 1.0, 2.0, 0.0, 0.0]

  /** The second envelope: strength 2 at frames 4 and 8, and 1 at frames 0, 3, 6 and 9. */
  const FOUR_ENV: seq<real> := [1.0, 0.0, 0.0, 1.0, 2.0, 0.0, 1.0, 0.0, 2.0, 1.0, 0.0, 0.0]

  /** The bar scores of the first envelope: 7/4 for bars of three, 1 for bars of four. */
  lemma ThreeEnvScores()
    ensures ScoreBars(THREE_ENV, TWELVE_BEATS, 3) == Ok(7.0 / 4.0)
    ensures ScoreBars(THREE_ENV, TWELVE_BEATS, 4) == Ok(1.0)
  {
    var env := THREE_ENV;
    TwelveBeatsStrided();
    SumOfFew(1.0, 2.0, 2.0, 2.0);
    SumOfFew(1.0, 1.0, 1.0, 0.0);
    var g3, g4 := Gather(env, [0, 3, 6, 9]).value, Gather(env, [0, 4, 8]).value;
    assert g3[0] == 1.0 && g3[1] == 2.0 && g3[2] == 2.0 && g3[3] == 2.0;
    assert g3 == [1.0, 2.0, 2.0, 2.0];
    assert g4[0] == 1.0 && g4[1] == 1.0 && g4[2] == 1.0;
    assert g4 == [1.0, 1.0, 1.0];
  }

  /** The bar scores of the second envelope: 1 for bars of three, 5/3 for bars of four. */
  lemma FourEnvScores()
    ensures ScoreBars(FOUR_ENV, TWELVE_BEATS, 3) == Ok(1.0)
    ensures ScoreBars(FOUR_ENV, TWELVE_BEATS, 4) == Ok(5.0 / 3.0)
  {
    var env := FOUR_ENV;
    TwelveBeatsStrided();
    SumOfFew(1.0, 1.0, 1.0, 1.0);
    SumOfFew(1.0, 2.0, 2.0, 0.0);
    var g3, g4 := Gather(env, [0, 3, 6, 9]).value, Gather(env, [0, 4, 8]).value;
    assert g3[0] == 1.0 && g3[1] == 1.0 && g3[2] == 1.0 && g3[3] == 1.0;
    assert g3 == [1.0, 1.0, 1.0, 1.0];
    assert g4[0] == 1.0 && g4[1] == 2.0 && g4[2] == 2.0;
    assert g4 == [1.0, 2.0, 2.0];
  }

  /** Bars of three score higher on the first envelope, so the answer is 3. */
  lemma ThreeExample()
    ensures DetectTimeSignature(THREE_ENV, TWELVE_BEATS) == Ok(3)
  {
    ThreeEnvScores();
  }

  /** Bars of four score higher on the second envelope, so the answer is 4. */
  lemma FourExample()
    ensures DetectTimeSignature(FOUR_ENV, TWELVE_BEATS) == Ok(4)
  {
    FourEnvScores();
  }
}
