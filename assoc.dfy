/** Python dictionaries with string keys, kept in insertion order: a sequence of (key, value) entries. */
module Assoc {
  import opened Outcome

  type Dict<V> = seq<(string, V)>

  function Keys<V>(d: Dict<V>): (ks: seq<string>)
    ensures |ks| == |d|
    ensures forall i :: 0 <= i < |d| ==> ks[i] == d[i].0
  {
    seq(|d|, i requires 0 <= i < |d| => d[i].0)
  }

  predicate HasKey<V>(d: Dict<V>, k: string) {
    exists i :: 0 <= i < |d| && d[i].0 == k
  }

  /** No key occurs twice: what every Python dict satisfies. */
  predicate DistinctKeys<V>(d: Dict<V>) {
    forall i, j :: 0 <= i < j < |d| ==> d[i].0 != d[j].0
  }

  /** `d.get(k)` */
  function Get<V>(d: Dict<V>, k: string): (r: Option<V>)
    ensures r.Some? <==> HasKey(d, k)
    ensures r.Some? ==> exists i :: 0 <= i < |d| && d[i] == (k, r.value)
    ensures DistinctKeys(d) ==> forall i :: 0 <= i < |d| && d[i].0 == k ==> r == Some(d[i].1)
  {
    if d == [] then None
    else if d[0].0 == k then Some(d[0].1)
    else
      var r := Get(d[1..], k);
      assert HasKey(d, k) ==> HasKey(d[1..], k) by {
        if HasKey(d, k) {
          var i :| 0 <= i < |d| && d[i].0 == k;
          assert d[1..][i - 1].0 == k;
        }
      }
      assert r.Some? ==> exists i :: 0 <= i < |d| && d[i] == (k, r.value) by {
        if r.Some? {
          var i :| 0 <= i < |d| - 1 && d[1..][i] == (k, r.value);
          assert d[i + 1] == (k, r.value);
        }
      }
      assert DistinctKeys(d) ==> DistinctKeys(d[1..]) by {
        if DistinctKeys(d) {
          forall i, j | 0 <= i < j < |d| - 1 ensures d[1..][i].0 != d[1..][j].0 {
            assert d[1..][i] == d[i + 1] && d[1..][j] == d[j + 1];
          }
        }
      }
      r
  }

  /** `d[k] = v`: an existing key keeps its position and takes the new value; a new key is appended. */
  function Put<V>(d: Dict<V>, k: string, v: V): (r: Dict<V>)
    ensures HasKey(d, k) ==> |r| == |d|
    ensures !HasKey(d, k) ==> r == d + [(k, v)]
    ensures forall i :: 0 <= i < |d| ==> r[i] == if d[i].0 == k then (k, v) else d[i]
    ensures Keys(d) == Keys(r)[..|d|]
    ensures DistinctKeys(d) ==> DistinctKeys(r)
    ensures Get(r, k) == Some(v)
    ensures forall k' :: k' != k ==> Get(r, k') == Get(d, k')
  {
    if HasKey(d, k) then
      var r := seq(|d|, i requires 0 <= i < |d| => if d[i].0 == k then (k, v) else d[i]);
      assert HasKey(r, k) by {
        var i :| 0 <= i < |d| && d[i].0 == k;
        assert r[i].0 == k;
      }
      GetReplaced(d, r, k, v);
      forall k' | k' != k ensures Get(r, k') == Get(d, k') {
        GetUnreplaced(d, r, k, v, k');
      }
      r
    else
      var r := d + [(k, v)];
      assert r[|d|] == (k, v);
      forall k' ensures k' == k ==> Get(r, k') == Some(v) ensures k' != k ==> Get(r, k') == Get(d, k') {
        GetAppend(d, k, v, k');
      }
      r
  }

  /** Storing the value a key already holds changes nothing. */
  lemma PutSame<V>(d: Dict<V>, k: string, v: V)
    requires HasKey(d, k) && forall i :: 0 <= i < |d| && d[i].0 == k ==> d[i].1 == v
    ensures Put(d, k, v) == d
  {
    var r := Put(d, k, v);
    assert forall i :: 0 <= i < |d| ==> r[i] == d[i];
  }

  /** `r` is `d` with every entry for `k` replaced by `(k, v)`. */
  ghost predicate ReplacedAt<V>(d: Dict<V>, r: Dict<V>, k: string, v: V) {
    |r| == |d| && forall i :: 0 <= i < |d| ==> r[i] == if d[i].0 == k then (k, v) else d[i]
  }

  lemma ReplacedTail<V>(d: Dict<V>, r: Dict<V>, k: string, v: V)
    requires d != [] && ReplacedAt(d, r, k, v)
    ensures ReplacedAt(d[1..], r[1..], k, v)
    ensures r[0] == if d[0].0 == k then (k, v) else d[0]
  {
    forall i | 0 <= i < |d| - 1 ensures r[1..][i] == if d[1..][i].0 == k then (k, v) else d[1..][i] {
      assert r[1..][i] == r[i + 1] && d[1..][i] == d[i + 1];
    }
  }

  lemma GetReplaced<V>(d: Dict<V>, r: Dict<V>, k: string, v: V)
    requires ReplacedAt(d, r, k, v) && HasKey(d, k)
    ensures Get(r, k) == Some(v)
  {
    ReplacedTail(d, r, k, v);
    if d[0].0 != k {
      assert HasKey(d[1..], k) by {
        var i :| 0 <= i < |d| && d[i].0 == k;
        assert d[1..][i - 1].0 == k;
      }
      GetReplaced(d[1..], r[1..], k, v);
    }
  }

  lemma GetUnreplaced<V>(d: Dict<V>, r: Dict<V>, k: string, v: V, k': string)
    requires ReplacedAt(d, r, k, v) && k' != k
    ensures Get(r, k') == Get(d, k')
  {
    if d != [] {
      ReplacedTail(d, r, k, v);
      if d[0].0 != k' {
        GetUnreplaced(d[1..], r[1..], k, v, k');
      }
    }
  }

  lemma GetAppend<V>(d: Dict<V>, k: string, v: V, k': string)
    requires !HasKey(d, k)
    ensures k' == k ==> Get(d + [(k, v)], k') == Some(v)
    ensures k' != k ==> Get(d + [(k, v)], k') == Get(d, k')
  {
    if d != [] {
      assert (d + [(k, v)])[1..] == d[1..] + [(k, v)];
      forall i | 0 <= i < |d| - 1 ensures d[1..][i].0 != k {
        assert d[1..][i] == d[i + 1];
      }
      GetAppend(d[1..], k, v, k');
    }
  }

  /** `list(d.values())` */
  function Values<V>(d: Dict<V>): (vs: seq<V>)
    ensures |vs| == |d|
    ensures forall i :: 0 <= i < |d| ==> vs[i] == d[i].1
  {
    seq(|d|, i requires 0 <= i < |d| => d[i].1)
  }

  /** Assigning each entry in turn into an empty dict, as a loop of `d[k] = v` does. */
  function PutAll<V>(entries: Dict<V>): Dict<V>
  {
    if entries == [] then []
    else Put(PutAll(entries[..|entries| - 1]), entries[|entries| - 1].0, entries[|entries| - 1].1)
  }

  /** One more assignment. */
  lemma PutAllAppend<V>(entries: Dict<V>, k: string, v: V)
    ensures PutAll(entries + [(k, v)]) == Put(PutAll(entries), k, v)
  {
    assert (entries + [(k, v)])[..|entries|] == entries;
  }

  /** The assignments up to entry `i`, then entry `i` itself. */
  lemma PutAllStep<V>(entries: Dict<V>, i: int)
    requires 0 <= i < |entries|
    ensures PutAll(entries[..i + 1]) == Put(PutAll(entries[..i]), entries[i].0, entries[i].1)
  {
    assert entries[..i + 1][..i] == entries[..i];
  }

  /** All the prefix assignments are all the assignments. */
  lemma PutAllWhole<V>(entries: Dict<V>)
    ensures PutAll(entries[..|entries|]) == PutAll(entries)
  {
    assert entries[..|entries|] == entries;
  }

  /** Entries with distinct keys come out as they went in: each assignment appends a new key. */
  lemma PutAllDistinct<V>(entries: Dict<V>)
    requires DistinctKeys(entries)
    ensures PutAll(entries) == entries
  {
    PutAllPrefix(entries, |entries|);
    PutAllWhole(entries);
    assert entries[..|entries|] == entries;
  }

  /** The assignments of the first `n` entries of a dictionary with distinct keys give those entries. */
  lemma {:induction false} PutAllPrefix<V>(entries: Dict<V>, n: nat)
    requires DistinctKeys(entries) && n <= |entries|
    ensures PutAll(entries[..n]) == entries[..n]
  {
    if n > 0 {
      PutAllPrefix(entries, n - 1);
      PutAllPrefixStep(entries, n - 1);
    } else {
      assert entries[..0] == [];
    }
  }

  /** The step of `PutAllPrefix`: assigning entry `m` after the first `m` appends it. */
  lemma PutAllPrefixStep<V>(entries: Dict<V>, m: nat)
    requires DistinctKeys(entries) && m < |entries| && PutAll(entries[..m]) == entries[..m]
    ensures PutAll(entries[..m + 1]) == entries[..m + 1]
  {
    PutAllStep(entries, m);
    PutPrefix(entries, m);
  }

  /** Entry `n` of a dictionary with distinct keys is new to the entries before it, so `Put` appends it. */
  lemma PutPrefix<V>(d: Dict<V>, n: int)
    requires DistinctKeys(d) && 0 <= n < |d|
    ensures Put(d[..n], d[n].0, d[n].1) == d[..n + 1]
  {
    assert !HasKey(d[..n], d[n].0) by {
      forall i | 0 <= i < n ensures d[..n][i].0 != d[n].0 {
        assert d[..n][i] == d[i];
      }
    }
    assert d[..n] + [d[n]] == d[..n + 1];
  }

  /** The value the last entry for `k` carries, if any. */
  function LastFor<V>(entries: Dict<V>, k: string): (r: Option<V>)
    ensures r.Some? <==> HasKey(entries, k)
  {
    if entries == [] then None
    else
      var init := entries[..|entries| - 1];
      assert forall i :: 0 <= i < |init| ==> init[i] == entries[i];
      if entries[|entries| - 1].0 == k then Some(entries[|entries| - 1].1) else LastFor(init, k)
  }

  /** After a run of assignments, a key holds the value last assigned to it, and only assigned keys exist. */
  lemma {:induction false} GetPutAll<V>(entries: Dict<V>, k: string)
    ensures Get(PutAll(entries), k) == LastFor(entries, k)
  {
    if entries != [] {
      GetPutAll(entries[..|entries| - 1], k);
    }
  }

  /** Assignments never make more entries than there were assignments, and keys stay distinct. */
  lemma {:induction false} PutAllSize<V>(entries: Dict<V>)
    ensures |PutAll(entries)| <= |entries|
    ensures DistinctKeys(PutAll(entries))
  {
    if entries != [] {
      PutAllSize(entries[..|entries| - 1]);
    }
  }
}
