/**
 * A JavaScript object used as a dictionary from string keys: lookups, updates that
 * keep an existing key in its place and append a new one, and `Object.keys` in
 * insertion order. The export map of the generator is built from two of these.
 */
module Dicts {
  import opened Js

  datatype Dict<V> = Dict(entries: seq<(string, V)>)

  predicate Has<V>(d: Dict<V>, k: string) {
    exists i :: 0 <= i < |d.entries| && d.entries[i].0 == k
  }

  /** The position of key `k` among the entries, if present. */
  function KeyIndex<V>(d: Dict<V>, k: string): (r: Option<nat>)
    ensures r.Some? ==> r.value < |d.entries| && d.entries[r.value].0 == k
    ensures r.Some? ==> forall i :: 0 <= i < r.value ==> d.entries[i].0 != k
    ensures r.None? ==> forall i :: 0 <= i < |d.entries| ==> d.entries[i].0 != k
    decreases |d.entries|
  {
    if d.entries == [] then None
    else if d.entries[0].0 == k then Some(0)
    else match KeyIndex(Dict(d.entries[1..]), k)
      case None => None
      case Some(i) => Some(i + 1)
  }

  /** Two dictionaries whose entries agree on where key `k` is give `k` the same position. */
  lemma {:induction false} KeyIndexOfSameKeys<V>(d: Dict<V>, e: Dict<V>, k: string)
    requires |d.entries| == |e.entries|
    requires forall i :: 0 <= i < |d.entries| ==> (d.entries[i].0 == k <==> e.entries[i].0 == k)
    ensures KeyIndex(d, k) == KeyIndex(e, k)
    decreases |d.entries|
  {
    if d.entries != [] {
      KeyIndexOfSameKeys(Dict(d.entries[1..]), Dict(e.entries[1..]), k);
    }
  }

  /** Appending an entry for `x.0` does not move any key already present. */
  lemma {:induction false} KeyIndexAppend<V>(d: Dict<V>, x: (string, V), k: string)
    ensures KeyIndex(Dict(d.entries + [x]), k) ==
      match KeyIndex(d, k)
      case Some(i) => Some(i)
      case None => if x.0 == k then Some(|d.entries|) else None
    decreases |d.entries|
  {
    if d.entries != [] {
      assert (d.entries + [x])[1..] == d.entries[1..] + [x];
      KeyIndexAppend(Dict(d.entries[1..]), x, k);
    }
  }

  /** `d[k]`, or None when the key is absent. */
  function Get<V>(d: Dict<V>, k: string): (r: Option<V>)
    ensures r.Some? <==> Has(d, k)
  {
    match KeyIndex(d, k)
    case Some(i) => Some(d.entries[i].1)
    case None => None
  }

  /** `d[k] = v`: an existing key keeps its place, a new one goes last. */
  function Put<V>(d: Dict<V>, k: string, v: V): Dict<V> {
    match KeyIndex(d, k)
    case Some(i) => Dict(d.entries[i := (k, v)])
    case None => Dict(d.entries + [(k, v)])
  }

  /**
   * After `d[k] = v`, `k` maps to `v`, every other key keeps its value, and the
   * keys are those of `d`, with `k` appended when it is new.
   */
  lemma PutSpec<V>(d: Dict<V>, k: string, v: V)
    ensures Get(Put(d, k, v), k) == Some(v)
    ensures forall k' :: k' != k ==> Get(Put(d, k, v), k') == Get(d, k')
    ensures Keys(Put(d, k, v)) == if Has(d, k) then Keys(d) else Keys(d) + [k]
  {
    match KeyIndex(d, k)
    case Some(i) =>
      ReplaceKeepsOthers(d, k, v, i);
    case None =>
      AppendKeepsOthers(d, k, v);
  }

  lemma ReplaceKeepsOthers<V>(d: Dict<V>, k: string, v: V, i: nat)
    requires KeyIndex(d, k) == Some(i)
    ensures Get(Dict(d.entries[i := (k, v)]), k) == Some(v)
    ensures forall k' :: k' != k ==> Get(Dict(d.entries[i := (k, v)]), k') == Get(d, k')
    ensures Keys(Dict(d.entries[i := (k, v)])) == Keys(d)
  {
    var t := Dict(d.entries[i := (k, v)]);
    KeyIndexOfSameKeys(t, d, k);
    forall k' | k' != k ensures Get(t, k') == Get(d, k') {
      KeyIndexOfSameKeys(t, d, k');
    }
  }

  lemma AppendKeepsOthers<V>(d: Dict<V>, k: string, v: V)
    requires KeyIndex(d, k).None?
    ensures Get(Dict(d.entries + [(k, v)]), k) == Some(v)
    ensures forall k' :: k' != k ==> Get(Dict(d.entries + [(k, v)]), k') == Get(d, k')
    ensures Keys(Dict(d.entries + [(k, v)])) == Keys(d) + [k]
  {
    var t := Dict(d.entries + [(k, v)]);
    KeyIndexAppend(d, (k, v), k);
    forall k' | k' != k ensures Get(t, k') == Get(d, k') {
      KeyIndexAppend(d, (k, v), k');
      if KeyIndex(d, k').Some? {
        assert t.entries[KeyIndex(d, k').value] == d.entries[KeyIndex(d, k').value];
      }
    }
  }

  /** `Object.keys(d)`. */
  function Keys<V>(d: Dict<V>): (r: seq<string>)
    ensures |r| == |d.entries|
    ensures forall i :: 0 <= i < |r| ==> r[i] == d.entries[i].0
  {
    seq(|d.entries|, i requires 0 <= i < |d.entries| => d.entries[i].0)
  }

  /** No key occurs twice, as in every JavaScript object. */
  predicate DistinctKeys<V>(d: Dict<V>) {
    forall i, j :: 0 <= i < j < |d.entries| ==> d.entries[i].0 != d.entries[j].0
  }

  lemma {:induction false} PutKeepsKeysDistinct<V>(d: Dict<V>, k: string, v: V)
    requires DistinctKeys(d)
    ensures DistinctKeys(Put(d, k, v))
  {
    var r := Put(d, k, v);
    if Has(d, k) {
      assert Keys(r) == Keys(d);
      forall i, j | 0 <= i < j < |r.entries| ensures r.entries[i].0 != r.entries[j].0 {
        assert Keys(r)[i] == Keys(d)[i] && Keys(r)[j] == Keys(d)[j];
      }
    } else {
      assert Keys(r) == Keys(d) + [k];
      forall i, j | 0 <= i < j < |r.entries| ensures r.entries[i].0 != r.entries[j].0 {
        assert Keys(r)[i] == r.entries[i].0 && Keys(r)[j] == r.entries[j].0;
        if j == |d.entries| {
          assert r.entries[j].0 == k;
          assert r.entries[i].0 == d.entries[i].0;
        } else {
          assert r.entries[i].0 == d.entries[i].0 && r.entries[j].0 == d.entries[j].0;
        }
      }
    }
  }
}
