/**
 * Python dictionaries keyed by strings, as an association list in insertion order.
 * Python iterates a dict in insertion order, `d[k] = v` overwrites an existing key in
 * place and appends a new one at the end, and `d.update(o)` does that for every item
 * of `o` in turn; the functions below follow those rules.
 */
module Dicts {
  import opened Common

  type Dict<V> = seq<(string, V)>

  /** The key set, `d.keys()`. */
  function Keys<V>(d: Dict<V>): set<string>
  {
    set i | 0 <= i < |d| :: d[i].0
  }

  /** What every Python dict satisfies: no key occurs twice. */
  predicate DistinctKeys<V>(d: Dict<V>)
  {
    forall i, j :: 0 <= i < j < |d| ==> d[i].0 != d[j].0
  }

  lemma KeysCons<V>(x: (string, V), d: Dict<V>)
    ensures Keys([x] + d) == {x.0} + Keys(d)
  {
    var e := [x] + d;
    assert e[0].0 == x.0;
    forall k | k in Keys(e) ensures k in {x.0} + Keys(d) {
      var i :| 0 <= i < |e| && e[i].0 == k;
      if i > 0 { assert d[i - 1].0 == k; }
    }
    forall k | k in Keys(d) ensures k in Keys(e) {
      var i :| 0 <= i < |d| && d[i].0 == k;
      assert e[i + 1].0 == k;
    }
  }

  lemma KeysSnoc<V>(d: Dict<V>, x: (string, V))
    ensures Keys(d + [x]) == Keys(d) + {x.0}
  {
    var e := d + [x];
    assert e[|d|].0 == x.0;
    forall k | k in Keys(e) ensures k in Keys(d) + {x.0} {
      var i :| 0 <= i < |e| && e[i].0 == k;
      if i < |d| { assert d[i].0 == k; }
    }
    forall k | k in Keys(d) ensures k in Keys(e) {
      var i :| 0 <= i < |d| && d[i].0 == k;
      assert e[i].0 == k;
    }
  }

  /** `d.get(k)`: the value stored under `k`, if any. */
  function Get<V>(d: Dict<V>, k: string): (r: Option<V>)
    ensures r.None? <==> k !in Keys(d)
    ensures r.Some? ==> exists i :: 0 <= i < |d| && d[i] == (k, r.value)
  {
    if d == [] then None
    else
      KeysCons(d[0], d[1..]);
      assert d == [d[0]] + d[1..];
      if d[0].0 == k then Some(d[0].1)
      else
        var r := Get(d[1..], k);
        assert r.Some? ==> exists i :: 0 <= i < |d| && d[i] == (k, r.value) by {
          if r.Some? {
            var i :| 0 <= i < |d[1..]| && d[1..][i] == (k, r.value);
            assert d[i + 1] == (k, r.value);
          }
        }
        r
  }

  /** `d[k]` for a key known to be present. */
  function Lookup<V>(d: Dict<V>, k: string): V
    requires k in Keys(d)
  {
    Get(d, k).value
  }

  /** Looking a key up in a dict extended at the end. */
  lemma {:induction false} GetSnoc<V>(d: Dict<V>, x: (string, V), k: string)
    ensures Get(d + [x], k) == if k in Keys(d) then Get(d, k) else if k == x.0 then Some(x.1) else None
  {
    if d == [] {
      assert d + [x] == [x];
    } else {
      assert (d + [x])[1..] == d[1..] + [x];
      KeysCons(d[0], d[1..]);
      assert d == [d[0]] + d[1..];
      GetSnoc(d[1..], x, k);
    }
  }

  /** `d[k] = v`: overwrite `k` where it stands, or append it. */
  function Put<V>(d: Dict<V>, k: string, v: V): (r: Dict<V>)
    ensures Keys(r) == Keys(d) + {k}
    ensures k in Keys(d) ==> |r| == |d| && forall i :: 0 <= i < |d| ==> r[i].0 == d[i].0
    ensures k !in Keys(d) ==> r == d + [(k, v)]
  {
    if d == [] then
      KeysSnoc(d, (k, v));
      [(k, v)]
    else
      KeysCons(d[0], d[1..]);
      assert d == [d[0]] + d[1..];
      if d[0].0 == k then
        KeysCons((k, v), d[1..]);
        [(k, v)] + d[1..]
      else
        var rest := Put(d[1..], k, v);
        KeysCons(d[0], rest);
        assert k !in Keys(d) ==> [d[0]] + rest == d + [(k, v)] by {
          if k !in Keys(d) {
            assert rest == d[1..] + [(k, v)];
          }
        }
        [d[0]] + rest
  }

  /** After `d[k] = v`, `k` maps to `v` and every other key is as before. */
  lemma {:induction false} PutGet<V>(d: Dict<V>, k: string, v: V, j: string)
    ensures Get(Put(d, k, v), j) == if j == k then Some(v) else Get(d, j)
  {
    if d != [] && d[0].0 != k {
      PutGet(d[1..], k, v, j);
    }
  }

  /** Assigning to a dict keeps its keys distinct. */
  lemma PutDistinct<V>(d: Dict<V>, k: string, v: V)
    ensures DistinctKeys(d) ==> DistinctKeys(Put(d, k, v))
  {
    var r := Put(d, k, v);
    if !DistinctKeys(d) {
    } else if k !in Keys(d) {
      assert r == d + [(k, v)];
      forall i, j | 0 <= i < j < |r| ensures r[i].0 != r[j].0 {
        if j == |d| {
          assert d[i].0 in Keys(d);
        }
      }
    } else {
      forall i, j | 0 <= i < j < |r| ensures r[i].0 != r[j].0 {
        assert r[i].0 == d[i].0 && r[j].0 == d[j].0;
      }
    }
  }

  /** `d.update(other)`: `d[k] = v` for each item of `other`, in order. */
  function Merge<V>(d: Dict<V>, other: Dict<V>): (r: Dict<V>)
    ensures Keys(r) == Keys(d) + Keys(other)
    ensures |r| >= |d| && forall i :: 0 <= i < |d| ==> r[i].0 == d[i].0
    ensures DistinctKeys(d) ==> DistinctKeys(r)
    decreases |other|
  {
    if other == [] then d
    else
      KeysCons(other[0], other[1..]);
      assert other == [other[0]] + other[1..];
      var next := Put(d, other[0].0, other[0].1);
      PutDistinct(d, other[0].0, other[0].1);
      Merge(next, other[1..])
  }

  /**
   * After `d.update(other)` every key of `other` maps to its value in `other`;
   * every other key keeps its value in `d` (or stays absent).
   */
  lemma {:induction false} MergeGet<V>(d: Dict<V>, other: Dict<V>, k: string)
    requires DistinctKeys(other)
    ensures Get(Merge(d, other), k) == if k in Keys(other) then Get(other, k) else Get(d, k)
    decreases |other|
  {
    if other != [] {
      var (k0, v0) := other[0];
      var rest := other[1..];
      KeysCons(other[0], rest);
      assert other == [other[0]] + rest;
      assert DistinctKeys(rest) by {
        forall i, j | 0 <= i < j < |rest| ensures rest[i].0 != rest[j].0 {
          assert rest[i] == other[i + 1] && rest[j] == other[j + 1];
        }
      }
      MergeGet(Put(d, k0, v0), rest, k);
      PutGet(d, k0, v0, k);
    }
  }

  /** The position of the first item `(k, v)` for which `bad(k, v)` holds, if any. */
  function FirstMatch<V>(d: Dict<V>, bad: (string, V) -> bool): (r: Option<nat>)
    ensures r.None? <==> forall i :: 0 <= i < |d| ==> !bad(d[i].0, d[i].1)
    ensures r.Some? ==> r.value < |d| && bad(d[r.value].0, d[r.value].1)
    ensures r.Some? ==> forall j :: 0 <= j < r.value ==> !bad(d[j].0, d[j].1)
  {
    if d == [] then None
    else if bad(d[0].0, d[0].1) then Some(0)
    else
      match FirstMatch(d[1..], bad)
      case None =>
        assert forall i :: 0 < i < |d| ==> d[i] == d[1..][i - 1];
        None
      case Some(i) =>
        assert forall j :: 0 < j <= i + 1 ==> d[j] == d[1..][j - 1];
        Some(i + 1)
  }
}
