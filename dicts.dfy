/**
 * Python's built-in dictionary with string keys, as the tracer uses it for
 * attributes: an insertion-ordered sequence of (key, value) entries with
 * distinct keys. `d[k] = v` replaces the value of an existing key in place
 * and appends a new key at the end, so keys keep the order of their first
 * insertion and each key holds the value of its last write.
 */
module Dicts {
  import opened Wrappers

  type Entries<V> = seq<(string, V)>

  /** The keys of `es`, in insertion order. */
  function Keys<V>(es: Entries<V>): (ks: seq<string>)
    ensures |ks| == |es|
    ensures forall i :: 0 <= i < |es| ==> ks[i] == es[i].0
  {
    if es == [] then [] else [es[0].0] + Keys(es[1..])
  }

  /** Every key occurs at most once: what every Python dict satisfies. */
  ghost predicate DistinctKeys<V>(es: Entries<V>) {
    forall i, j :: 0 <= i < j < |es| ==> es[i].0 != es[j].0
  }

  /** `d.get(k)`: the value stored under `k`, if any. */
  function Lookup<V>(es: Entries<V>, k: string): Option<V> {
    if es == [] then None
    else if es[0].0 == k then Some(es[0].1)
    else Lookup(es[1..], k)
  }

  /** `d[k] = v`. */
  function Put<V>(es: Entries<V>, k: string, v: V): (r: Entries<V>)
    ensures (k, v) in r
    ensures forall e :: e in r ==> e == (k, v) || e in es
  {
    if es == [] then [(k, v)]
    else if es[0].0 == k then [(k, v)] + es[1..]
    else [es[0]] + Put(es[1..], k, v)
  }

  /** The dictionary after the writes `ws`, applied from first to last. */
  function PutAll<V>(es: Entries<V>, ws: seq<(string, V)>): Entries<V>
    decreases |ws|
  {
    if ws == [] then es else PutAll(Put(es, ws[0].0, ws[0].1), ws[1..])
  }

  /** The keys of `ws` not in `known`, in the order of their first occurrence. */
  function NewKeys<V>(known: seq<string>, ws: seq<(string, V)>): seq<string>
    decreases |ws|
  {
    if ws == [] then []
    else if ws[0].0 in known then NewKeys(known, ws[1..])
    else [ws[0].0] + NewKeys(known + [ws[0].0], ws[1..])
  }

  /** The value of the last write to `k` in `ws`, if `ws` writes `k` at all. */
  function LastWrite<V>(ws: seq<(string, V)>, k: string): Option<V>
    decreases |ws|
  {
    if ws == [] then None
    else match LastWrite(ws[1..], k)
      case Some(v) => Some(v)
      case None => if ws[0].0 == k then Some(ws[0].1) else None
  }

  /** Writing `k` makes `k` hold `v` and leaves every other key's value alone. */
  lemma {:induction false} PutLookup<V>(es: Entries<V>, k: string, v: V, k': string)
    ensures Lookup(Put(es, k, v), k') == if k' == k then Some(v) else Lookup(es, k')
  {
    if es != [] && es[0].0 != k {
      PutLookup(es[1..], k, v, k');
      assert Put(es, k, v)[1..] == Put(es[1..], k, v);
    }
  }

  /** Writing an existing key keeps the key order; a new key goes last. */
  lemma {:induction false} PutKeys<V>(es: Entries<V>, k: string, v: V)
    ensures Keys(Put(es, k, v)) == if k in Keys(es) then Keys(es) else Keys(es) + [k]
  {
    if es != [] && es[0].0 != k {
      PutKeys(es[1..], k, v);
      assert Put(es, k, v)[1..] == Put(es[1..], k, v);
      assert Keys(es) == [es[0].0] + Keys(es[1..]);
    }
  }

  /** A write keeps the keys distinct. */
  lemma PutDistinct<V>(es: Entries<V>, k: string, v: V)
    requires DistinctKeys(es)
    ensures DistinctKeys(Put(es, k, v))
  {
    PutKeys(es, k, v);
    var r := Put(es, k, v);
    var ks := Keys(r);
    forall i, j | 0 <= i < j < |r| ensures r[i].0 != r[j].0 {
      assert ks[i] == r[i].0 && ks[j] == r[j].0;
      if k !in Keys(es) {
        assert Keys(es)[i] == es[i].0;
        if j < |es| { assert Keys(es)[j] == es[j].0; }
      } else {
        assert Keys(es)[i] == es[i].0 && Keys(es)[j] == es[j].0;
      }
    }
  }

  /** In a dictionary with distinct keys, looking up the key of an entry finds that entry's value. */
  lemma {:induction false} LookupAt<V>(es: Entries<V>, i: nat)
    requires DistinctKeys(es) && i < |es|
    ensures Lookup(es, es[i].0) == Some(es[i].1)
  {
    if i > 0 {
      assert es[0].0 != es[i].0;
      assert es[1..][i - 1] == es[i];
      LookupAt(es[1..], i - 1);
    }
  }

  /** Last write wins: after the writes `ws`, a key holds its last written value, or its old one. */
  lemma {:induction false} PutAllLookup<V>(es: Entries<V>, ws: seq<(string, V)>, k: string)
    ensures Lookup(PutAll(es, ws), k) == match LastWrite(ws, k)
      case Some(v) => Some(v)
      case None => Lookup(es, k)
    decreases |ws|
  {
    if ws != [] {
      PutLookup(es, ws[0].0, ws[0].1, k);
      PutAllLookup(Put(es, ws[0].0, ws[0].1), ws[1..], k);
    }
  }

  /** Keys keep the order of their first insertion: old keys first, then new keys as first written. */
  lemma {:induction false} PutAllKeys<V>(es: Entries<V>, ws: seq<(string, V)>)
    ensures Keys(PutAll(es, ws)) == Keys(es) + NewKeys(Keys(es), ws)
    decreases |ws|
  {
    if ws != [] {
      var es' := Put(es, ws[0].0, ws[0].1);
      PutKeys(es, ws[0].0, ws[0].1);
      PutAllKeys(es', ws[1..]);
    }
  }

  /** Writes of keys that are all new and all different append their pairs in order. */
  lemma {:induction false} PutAllNew<V>(es: Entries<V>, ws: seq<(string, V)>)
    requires DistinctKeys(es + ws)
    ensures PutAll(es, ws) == es + ws
    decreases |ws|
  {
    if ws != [] {
      var k := ws[0].0;
      forall i | 0 <= i < |es| ensures es[i].0 != k {
        assert (es + ws)[i] == es[i] && (es + ws)[|es|] == ws[0];
      }
      PutNew(es, k, ws[0].1);
      assert es + ws == (es + [ws[0]]) + ws[1..];
      PutAllNew(es + [ws[0]], ws[1..]);
    }
  }

  /** Writing a key that is not there appends it. */
  lemma {:induction false} PutNew<V>(es: Entries<V>, k: string, v: V)
    requires forall i :: 0 <= i < |es| ==> es[i].0 != k
    ensures Put(es, k, v) == es + [(k, v)]
  {
    if es != [] {
      PutNew(es[1..], k, v);
      assert es == [es[0]] + es[1..];
    }
  }

  /** The writes `ws` keep the keys distinct. */
  lemma {:induction false} PutAllDistinct<V>(es: Entries<V>, ws: seq<(string, V)>)
    requires DistinctKeys(es)
    ensures DistinctKeys(PutAll(es, ws))
    decreases |ws|
  {
    if ws != [] {
      PutDistinct(es, ws[0].0, ws[0].1);
      PutAllDistinct(Put(es, ws[0].0, ws[0].1), ws[1..]);
    }
  }

  /**
   * A Python `dict[str, V]` object. The tracer keeps the dictionary its
   * caller passes in and writes into it, so the object's identity matters:
   * every holder of the reference sees every write.
   */
  class PyDict<V> {
    var entries: Entries<V>

    ghost predicate Valid()
      reads this
    {
      DistinctKeys(entries)
    }

    /** `{}` */
    constructor Empty()
      ensures Valid() && entries == []
    {
      entries := [];
    }

    /** A dictionary display `{k1: v1, k2: v2, ...}`: the pairs written in order into an empty dict. */
    constructor FromPairs(pairs: seq<(string, V)>)
      ensures Valid() && entries == PutAll([], pairs)
    {
      PutAllDistinct([], pairs);
      entries := PutAll([], pairs);
    }

    /** `d[k] = v` */
    method Set(k: string, v: V)
      requires Valid()
      modifies this
      ensures Valid()
      ensures entries == Put(old(entries), k, v)
    {
      PutDistinct(entries, k, v);
      entries := Put(entries, k, v);
    }
  }
}
