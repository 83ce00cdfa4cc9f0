/**
 A JavaScript object as the script uses it: an ordered list of (key, value)
 entries. Reading a key returns its value, and assigning a key either replaces the
 value in place (the key keeps its position) or appends a new entry. This is the
 order `Object.entries` and `JSON.stringify` give for keys that are not array
 indices; JavaScript lists index-like keys ("0", "42") first, in ascending numeric
 order, which this model does not do.
 */
module Dict {
  import opened Opt

  type Entries<V> = seq<(string, V)>

  /** The keys in insertion order (what `Object.keys` returns). */
  function Keys<V>(es: Entries<V>): (ks: seq<string>)
    ensures |ks| == |es|
    ensures forall i :: 0 <= i < |es| ==> ks[i] == es[i].0
  {
    if es == [] then [] else [es[0].0] + Keys(es[1..])
  }

  /** No key occurs twice, as in every object JavaScript can build. */
  predicate DistinctKeys<V>(es: Entries<V>) {
    forall i, j :: 0 <= i < j < |es| ==> es[i].0 != es[j].0
  }

  /** `obj[k]`, with `None` for a key the object does not have. */
  function Lookup<V>(es: Entries<V>, k: string): Option<V> {
    if es == [] then None
    else if es[0].0 == k then Some(es[0].1)
    else Lookup(es[1..], k)
  }

  /** Reading finds a value exactly for the keys the object has, and the value
      read is stored under that key. */
  lemma {:induction false} LookupFinds<V>(es: Entries<V>, k: string)
    ensures Lookup(es, k).None? <==> k !in Keys(es)
    ensures Lookup(es, k).Some? ==> (k, Lookup(es, k).value) in es
  {
    if es != [] {
      assert Keys(es) == [es[0].0] + Keys(es[1..]);
      if es[0].0 != k {
        LookupFinds(es[1..], k);
      }
    }
  }

  /** `obj[k] = v`. */
  function Put<V>(es: Entries<V>, k: string, v: V): Entries<V>
  {
    if es == [] then [(k, v)]
    else if es[0].0 == k then [(k, v)] + es[1..]
    else [es[0]] + Put(es[1..], k, v)
  }
  /** Assigning to a key already present keeps the keys and their order; assigning
      to a new key appends the entry; no entry other than `(k, v)` appears. */
  lemma {:induction false} PutMeaning<V>(es: Entries<V>, k: string, v: V)
    ensures k in Keys(es) ==> Keys(Put(es, k, v)) == Keys(es)
    ensures k !in Keys(es) ==> Put(es, k, v) == es + [(k, v)]
    ensures forall e :: e in Put(es, k, v) ==> e in es || e == (k, v)
  {
    if es != [] && es[0].0 != k {
      assert Keys(es) == [es[0].0] + Keys(es[1..]);
      PutMeaning(es[1..], k, v);
      assert Keys(Put(es, k, v)) == [es[0].0] + Keys(Put(es[1..], k, v));
    }
  }


  /** After `obj[k] = v`, reading `k` gives `v` and every other key reads as before. */
  lemma {:induction false} PutLookup<V>(es: Entries<V>, k: string, v: V, k': string)
    ensures Lookup(Put(es, k, v), k') == if k' == k then Some(v) else Lookup(es, k')
  {
    if es != [] && es[0].0 != k {
      PutLookup(es[1..], k, v, k');
    }
  }

  /** The keys of an object with one more entry at the end. */
  lemma KeysSnoc<V>(es: Entries<V>, k: string, v: V)
    ensures Keys(es + [(k, v)]) == Keys(es) + [k]
  {
    assert |Keys(es + [(k, v)])| == |Keys(es) + [k]|;
    forall i | 0 <= i < |es| + 1 ensures Keys(es + [(k, v)])[i] == (Keys(es) + [k])[i] {
      if i < |es| {
        assert (es + [(k, v)])[i] == es[i];
      }
    }
  }

  /** Reading from an object with one more entry at the end. */
  lemma {:induction false} LookupSnoc<V>(es: Entries<V>, k: string, v: V, k': string)
    ensures Lookup(es + [(k, v)], k') ==
      if k' in Keys(es) then Lookup(es, k') else if k' == k then Some(v) else None
  {
    if es != [] {
      assert (es + [(k, v)])[1..] == es[1..] + [(k, v)];
      assert Keys(es) == [es[0].0] + Keys(es[1..]);
      LookupSnoc(es[1..], k, v, k');
    }
  }

  /** Assignment keeps the keys distinct. */
  lemma PutKeepsDistinct<V>(es: Entries<V>, k: string, v: V)
    requires DistinctKeys(es)
    ensures DistinctKeys(Put(es, k, v))
  {
    var r := Put(es, k, v);
    PutMeaning(es, k, v);
    if k in Keys(es) {
      assert Keys(r) == Keys(es);
      forall i, j | 0 <= i < j < |r| ensures r[i].0 != r[j].0 {
        assert Keys(r)[i] == Keys(es)[i] && Keys(r)[j] == Keys(es)[j];
      }
    } else {
      forall i | 0 <= i < |es| ensures es[i].0 != k {
        assert Keys(es)[i] == es[i].0;
      }
    }
  }
}
