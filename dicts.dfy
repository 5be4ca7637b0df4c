/**
 * Insertion-ordered dictionaries with the semantics of Python's `dict`:
 * a lookup finds a key's value, and `d[k] = v` replaces the value in place
 * when `k` is present and appends the pair at the end otherwise.
 */
module Dicts {
  import opened Wrappers

  /** A dictionary with string keys, as the sequence of its items in insertion order. */
  type Dict<V> = seq<(string, V)>

  /** The keys of `d`, in order (Python's `list(d.keys())`). */
  function Keys<V>(d: Dict<V>): seq<string> {
    seq(|d|, i requires 0 <= i < |d| => d[i].0)
  }

  /** No key occurs twice: every Python dict has this shape. */
  predicate UniqueKeys<V>(d: Dict<V>) {
    forall i, j :: 0 <= i < j < |d| ==> d[i].0 != d[j].0
  }

  /** Python's `d.get(k)`. */
  function Get<V>(d: Dict<V>, k: string): (r: Option<V>)
    ensures r.None? <==> k !in Keys(d)
    ensures r.Some? ==> (k, r.value) in d
  {
    if d == [] then None
    else if d[0].0 == k then assert Keys(d)[0] == k; Some(d[0].1)
    else assert Keys(d) == [d[0].0] + Keys(d[1..]); Get(d[1..], k)
  }

  /** Python's `d[k] = v`: replace in place, or append a new item. */
  function Put<V>(d: Dict<V>, k: string, v: V): (r: Dict<V>)
    ensures Get(r, k) == Some(v)
  {
    if d == [] then [(k, v)]
    else if d[0].0 == k then [(k, v)] + d[1..]
    else
      var rest := Put(d[1..], k, v);
      assert ([d[0]] + rest)[1..] == rest;
      [d[0]] + rest
  }

  lemma KeysCons<V>(item: (string, V), d: Dict<V>)
    ensures Keys([item] + d) == [item.0] + Keys(d)
  {
  }

  lemma KeysSnoc<V>(d: Dict<V>, item: (string, V))
    ensures Keys(d + [item]) == Keys(d) + [item.0]
  {
  }

  /** Assignment keeps the key order: an existing key stays where it was, a new one comes last. */
  lemma {:induction false} PutKeys<V>(d: Dict<V>, k: string, v: V)
    ensures Keys(Put(d, k, v)) == if k in Keys(d) then Keys(d) else Keys(d) + [k]
  {
    if d == [] {
      assert Keys(Put(d, k, v)) == [k];
    } else {
      KeysCons(d[0], d[1..]);
      assert [d[0]] + d[1..] == d;
      if d[0].0 == k {
        KeysCons((k, v), d[1..]);
      } else {
        var rest := Put(d[1..], k, v);
        PutKeys(d[1..], k, v);
        KeysCons(d[0], rest);
        assert k in Keys(d) <==> k in Keys(d[1..]);
      }
    }
  }

  /** Assigning one key leaves the value of every other key as it was. */
  lemma {:induction false} PutKeepsOthers<V>(d: Dict<V>, k: string, v: V, k': string)
    requires k' != k
    ensures Get(Put(d, k, v), k') == Get(d, k')
  {
    if d != [] && d[0].0 != k {
      PutKeepsOthers(d[1..], k, v, k');
      assert Put(d, k, v)[1..] == Put(d[1..], k, v);
    }
  }

  /** The same, for every other key at once. */
  lemma PutKeepsOthersAll<V>(d: Dict<V>, k: string, v: V)
    ensures forall k' :: k' != k ==> Get(Put(d, k, v), k') == Get(d, k')
  {
    forall k' | k' != k ensures Get(Put(d, k, v), k') == Get(d, k') {
      PutKeepsOthers(d, k, v, k');
    }
  }

  /** Assignment keeps a dictionary free of duplicate keys. */
  lemma PutUnique<V>(d: Dict<V>, k: string, v: V)
    requires UniqueKeys(d)
    ensures UniqueKeys(Put(d, k, v))
  {
    var r := Put(d, k, v);
    PutKeys(d, k, v);
    forall i, j | 0 <= i < j < |r| ensures r[i].0 != r[j].0 {
      assert Keys(r)[i] == r[i].0 && Keys(r)[j] == r[j].0;
      if k !in Keys(d) && j == |d| {
        assert Keys(d)[i] == d[i].0;
      } else {
        assert Keys(d)[i] == d[i].0 && Keys(d)[j] == d[j].0;
      }
    }
  }

  /** Assigning a key that is not yet present appends one item at the end. */
  lemma {:induction false} PutAppends<V>(d: Dict<V>, k: string, v: V)
    requires k !in Keys(d)
    ensures Put(d, k, v) == d + [(k, v)]
  {
    if d != [] {
      KeysCons(d[0], d[1..]);
      assert [d[0]] + d[1..] == d;
      PutAppends(d[1..], k, v);
      assert [d[0]] + (d[1..] + [(k, v)]) == d + [(k, v)];
    }
  }
}
