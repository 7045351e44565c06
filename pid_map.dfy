/**
 * The registry type of `Runtime`: a PHP array with integer keys and integer
 * values. PHP arrays are ordered by insertion, so the registry is a sequence of
 * (key, value) entries in insertion order in which no key occurs twice.
 */
module PidMaps {

  /** One entry of the registry: (ordinal, process id). */
  type Entry = (int, int)

  /** No key occurs twice: what makes a sequence of entries a PHP array. */
  predicate DistinctKeys(m: seq<Entry>) {
    forall i, j :: 0 <= i < j < |m| ==> m[i].0 != m[j].0
  }

  type PidMap = m: seq<Entry> | DistinctKeys(m) witness []

  /** The keys in iteration (insertion) order, as `array_keys` gives them. */
  function Keys(m: seq<Entry>): (ks: seq<int>)
    ensures |ks| == |m|
    ensures forall i :: 0 <= i < |m| ==> ks[i] == m[i].0
  {
    seq(|m|, i requires 0 <= i < |m| => m[i].0)
  }

  /** The values in iteration order: the pids that `foreach` visits. */
  function Values(m: seq<Entry>): (vs: seq<int>)
    ensures |vs| == |m|
    ensures forall i :: 0 <= i < |m| ==> vs[i] == m[i].1
  {
    seq(|m|, i requires 0 <= i < |m| => m[i].1)
  }

  /** The keys after appending one entry end with its key. */
  lemma KeysAppend(m: seq<Entry>, e: Entry)
    ensures Keys(m + [e]) == Keys(m) + [e.0]
  {
    var a, b := Keys(m + [e]), Keys(m) + [e.0];
    assert |a| == |b|;
    forall i | 0 <= i < |a| ensures a[i] == b[i] {
      if i < |m| {
        assert (m + [e])[i] == m[i];
      }
    }
  }

  /** The values of a prefix one entry longer end with that entry's value. */
  lemma ValuesStep(m: seq<Entry>, i: int)
    requires 0 <= i < |m|
    ensures Values(m[..i + 1]) == Values(m[..i]) + [m[i].1]
  {
    var a, b := Values(m[..i + 1]), Values(m[..i]) + [m[i].1];
    assert |a| == |b|;
    forall k | 0 <= k < |a| ensures a[k] == b[k] {
      if k < i {
        assert m[..i][k] == m[k];
      }
    }
  }

  /**
   * The assignment `$m[$k] = $v`: a key already present keeps its position and
   * gets the new value; a new key is appended as the last entry.
   */
  function Put(m: PidMap, k: int, v: int): (r: PidMap)
    ensures k !in Keys(m) ==> r == m + [(k, v)]
    ensures k in Keys(m) ==> |r| == |m| && Keys(r) == Keys(m)
    ensures forall i :: 0 <= i < |m| ==> r[i] == (if m[i].0 == k then (k, v) else m[i])
  {
    if k in Keys(m) then
      var r := seq(|m|, i requires 0 <= i < |m| => if m[i].0 == k then (k, v) else m[i]);
      assert forall i :: 0 <= i < |m| ==> r[i].0 == m[i].0;
      assert Keys(r) == Keys(m);
      r
    else
      AppendNewKey(m, k, v);
      m + [(k, v)]
  }

  /** Appending a key that is not yet present keeps the keys distinct. */
  lemma AppendNewKey(m: PidMap, k: int, v: int)
    requires k !in Keys(m)
    ensures DistinctKeys(m + [(k, v)])
    ensures forall i :: 0 <= i < |m| ==> m[i].0 != k
  {
    var ks := Keys(m);
    forall i | 0 <= i < |m| ensures m[i].0 != k {
      assert ks[i] == m[i].0;
    }
  }

  /** The keys are in strictly ascending order. */
  predicate Increasing(ks: seq<int>) {
    forall i, j :: 0 <= i < j < |ks| ==> ks[i] < ks[j]
  }

  /** Appending a key above all present ones keeps the keys ascending. */
  lemma IncreasingAppend(m: seq<Entry>, k: int, v: int)
    requires Increasing(Keys(m))
    requires forall i :: 0 <= i < |m| ==> m[i].0 < k
    ensures Increasing(Keys(m + [(k, v)]))
  {
    var mk := Keys(m);
    KeysAppend(m, (k, v));
    forall i | 0 <= i < |mk| ensures mk[i] < k {
      assert mk[i] == m[i].0;
    }
    IncreasingSnoc(mk, k);
  }

  lemma IncreasingSnoc(ks: seq<int>, x: int)
    requires Increasing(ks)
    requires forall i :: 0 <= i < |ks| ==> ks[i] < x
    ensures Increasing(ks + [x])
  {
    var ks' := ks + [x];
    forall i, j | 0 <= i < j < |ks'| ensures ks'[i] < ks'[j] {
      if j < |ks| {
        assert ks'[i] == ks[i] && ks'[j] == ks[j];
      } else {
        assert ks'[i] == ks[i];
      }
    }
  }
}
