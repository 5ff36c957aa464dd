/**
 This module models a JavaScript `Map` object (ECMA-262, section 24.1) as a
 list of entries in insertion order whose keys are pairwise distinct.
 `Map.prototype.set` on a present key replaces that entry's value where it
 stands and on a new key appends an entry; `Map.prototype.delete` removes the
 one entry with that key and leaves the others in their order; `keys` and
 `entries` enumerate in that order.
 */
module OrderedMap {
  import opened Options

  /** A `Map` object: its entries, oldest first. */
  datatype MapObject<K(==), V> = MapObject(entries: seq<(K, V)>)

  /** No key occurs in two entries. */
  predicate UniqueKeys<K(==), V>(entries: seq<(K, V)>) {
    forall i, j :: 0 <= i < j < |entries| ==> entries[i].0 != entries[j].0
  }

  /** A `Map` object: an ordered entry list with pairwise distinct keys. */
  type JsMap<K(==), V> = m: MapObject<K, V> | UniqueKeys(m.entries) witness MapObject([])

  /** `new Map()`. */
  function Empty<K(==), V>(): JsMap<K, V> {
    MapObject([])
  }

  /** `Array.from(m.keys())`: the keys in insertion order. */
  function Keys<K(==), V>(m: MapObject<K, V>): (ks: seq<K>)
    ensures |ks| == |m.entries|
    ensures forall i :: 0 <= i < |ks| ==> ks[i] == m.entries[i].0
  {
    seq(|m.entries|, i requires 0 <= i < |m.entries| => m.entries[i].0)
  }

  /** The position of the first entry whose key is `k`, if any. */
  function Find<K(==), V>(entries: seq<(K, V)>, k: K): (r: Option<nat>)
    ensures r.Some? ==> r.value < |entries| && entries[r.value].0 == k
    ensures r.Some? ==> forall j :: 0 <= j < r.value ==> entries[j].0 != k
    ensures r.None? ==> forall j :: 0 <= j < |entries| ==> entries[j].0 != k
    decreases |entries|
  {
    if |entries| == 0 then None
    else if entries[0].0 == k then Some(0)
    else match Find(entries[1..], k)
      case None => None
      case Some(i) => Some(i + 1)
  }

  /** `m.has(k)`. */
  predicate Has<K(==), V>(m: MapObject<K, V>, k: K) {
    Find(m.entries, k).Some?
  }

  /** `m.get(k)`, with `None` where JavaScript answers `undefined`. */
  function Lookup<K(==), V>(m: MapObject<K, V>, k: K): Option<V> {
    match Find(m.entries, k)
    case None => None
    case Some(i) => Some(m.entries[i].1)
  }

  /** `m.size`. */
  function Size<K(==), V>(m: MapObject<K, V>): nat {
    |m.entries|
  }

  /** A key is present exactly when it is one of the listed keys. */
  lemma HasIffListed<K(!new), V(!new)>(m: MapObject<K, V>, k: K)
    ensures Has(m, k) <==> k in Keys(m)
  {
    if k in Keys(m) {
      var j :| 0 <= j < |Keys(m)| && Keys(m)[j] == k;
      assert m.entries[j].0 == k;
    }
  }

  /** In a map each entry is what a lookup of its key finds. */
  lemma LookupAt<K(!new), V(!new)>(m: JsMap<K, V>, j: nat)
    requires j < |m.entries|
    ensures Has(m, m.entries[j].0)
    ensures Lookup(m, m.entries[j].0) == Some(m.entries[j].1)
  {
  }

  /** A key that no entry carries is absent. */
  lemma LookupMissing<K(!new), V(!new)>(m: MapObject<K, V>, k: K)
    requires forall j :: 0 <= j < |m.entries| ==> m.entries[j].0 != k
    ensures !Has(m, k) && Lookup(m, k) == None
  {
  }

  /** `m.set(k, v)`: afterwards `k` maps to `v` and every other key to what it
      mapped to before; a present key keeps its position and a new key comes
      last. */
  function Set<K(==,!new), V(!new)>(m: JsMap<K, V>, k: K, v: V): (r: JsMap<K, V>)
    ensures Lookup(r, k) == Some(v)
    ensures forall k' :: k' != k ==> Lookup(r, k') == Lookup(m, k')
    ensures Has(m, k) ==> Keys(r) == Keys(m)
    ensures !Has(m, k) ==> Keys(r) == Keys(m) + [k]
  {
    match Find(m.entries, k)
    case Some(i) =>
      var r := MapObject(m.entries[i := (k, v)]);
      assert Keys(r) == Keys(m);
      LookupAt(r, i);
      forall k' | k' != k
        ensures Lookup(r, k') == Lookup(m, k')
      {
        if j :| 0 <= j < |m.entries| && m.entries[j].0 == k' {
          LookupAt(m, j);
          LookupAt(r, j);
        } else {
          LookupMissing(m, k');
          LookupMissing(r, k');
        }
      }
      r
    case None =>
      var r := MapObject(m.entries + [(k, v)]);
      assert Keys(r) == Keys(m) + [k];
      LookupAt(r, |m.entries|);
      forall k' | k' != k
        ensures Lookup(r, k') == Lookup(m, k')
      {
        if j :| 0 <= j < |m.entries| && m.entries[j].0 == k' {
          LookupAt(m, j);
          LookupAt(r, j);
        } else {
          LookupMissing(m, k');
          LookupMissing(r, k');
        }
      }
      r
  }

  /** The entries whose keys are not in `ks`, in their original order: the
      reference reading of removal. */
  function FilterOut<K(==,!new), V(!new)>(entries: seq<(K, V)>, ks: set<K>): (r: seq<(K, V)>)
    decreases |entries|
  {
    if |entries| == 0 then []
    else
      var rest := FilterOut(entries[1..], ks);
      if entries[0].0 in ks then rest else [entries[0]] + rest
  }

  /** An entry survives the filter exactly when it was there and its key is
      not removed. */
  lemma {:induction false} FilterOutMembers<K(!new), V(!new)>(entries: seq<(K, V)>, ks: set<K>)
    ensures forall e :: e in FilterOut(entries, ks) <==> e in entries && e.0 !in ks
    decreases |entries|
  {
    if |entries| > 0 {
      FilterOutMembers(entries[1..], ks);
      assert entries == [entries[0]] + entries[1..];
    }
  }

  /** Filtering keeps keys pairwise distinct. */
  lemma {:induction false} FilterOutUnique<K(!new), V(!new)>(entries: seq<(K, V)>, ks: set<K>)
    requires UniqueKeys(entries)
    ensures UniqueKeys(FilterOut(entries, ks))
    decreases |entries|
  {
    if |entries| > 0 {
      FilterOutUnique(entries[1..], ks);
      FilterOutMembers(entries[1..], ks);
      var rest := FilterOut(entries[1..], ks);
      forall j | 0 <= j < |rest|
        ensures rest[j].0 != entries[0].0
      {
        assert rest[j] in entries[1..];
      }
    }
  }

  /** The map without the entries whose keys are in `ks`. */
  function Without<K(==,!new), V(!new)>(m: JsMap<K, V>, ks: set<K>): JsMap<K, V> {
    FilterOutUnique(m.entries, ks);
    MapObject(FilterOut(m.entries, ks))
  }

  lemma {:induction false} FilterOutAppend<K(!new), V(!new)>(a: seq<(K, V)>, b: seq<(K, V)>, ks: set<K>)
    ensures FilterOut(a + b, ks) == FilterOut(a, ks) + FilterOut(b, ks)
    decreases |a|
  {
    if |a| > 0 {
      assert (a + b)[1..] == a[1..] + b;
      FilterOutAppend(a[1..], b, ks);
    } else {
      assert a + b == b;
    }
  }

  lemma {:induction false} FilterOutKeeps<K(!new), V(!new)>(entries: seq<(K, V)>, ks: set<K>)
    requires forall j :: 0 <= j < |entries| ==> entries[j].0 !in ks
    ensures FilterOut(entries, ks) == entries
    decreases |entries|
  {
    if |entries| > 0 {
      FilterOutKeeps(entries[1..], ks);
    }
  }

  /** Removing `a` and then `b` is removing `a + b`. */
  lemma {:induction false} FilterOutTwice<K(!new), V(!new)>(entries: seq<(K, V)>, a: set<K>, b: set<K>)
    ensures FilterOut(FilterOut(entries, a), b) == FilterOut(entries, a + b)
    decreases |entries|
  {
    if |entries| > 0 {
      FilterOutTwice(entries[1..], a, b);
    }
  }

  /** Removing the one entry with key `k` is filtering `k` out. */
  lemma FilterOutOne<K(!new), V(!new)>(before: seq<(K, V)>, x: (K, V), after: seq<(K, V)>)
    requires forall j :: 0 <= j < |before| ==> before[j].0 !in {x.0}
    requires forall j :: 0 <= j < |after| ==> after[j].0 !in {x.0}
    ensures FilterOut(before + [x] + after, {x.0}) == before + after
  {
    var ks := {x.0};
    var mid := [x];
    FilterOutKeeps(before, ks);
    FilterOutKeeps(after, ks);
    assert mid[1..] == [];
    assert FilterOut(mid, ks) == [];
    FilterOutAppend(before, mid, ks);
    assert FilterOut(before + mid, ks) == before + [];
    FilterOutAppend(before + mid, after, ks);
    assert before + [] == before;
  }

  lemma RemoveAtIsFilter<K(!new), V(!new)>(e: seq<(K, V)>, i: nat)
    requires UniqueKeys(e) && i < |e|
    ensures FilterOut(e, {e[i].0}) == e[..i] + e[i + 1..]
  {
    var before, after := e[..i], e[i + 1..];
    forall j | 0 <= j < |before|
      ensures before[j].0 !in {e[i].0}
    {
      assert before[j] == e[j];
    }
    forall j | 0 <= j < |after|
      ensures after[j].0 !in {e[i].0}
    {
      assert after[j] == e[i + 1 + j];
    }
    FilterOutOne(before, e[i], after);
    assert e == before + [e[i]] + after;
  }

  /** After removing the keys `ks`, a key is found exactly when it was found
      before and is not one of `ks`, with the value it had. */
  lemma WithoutLookup<K(!new), V(!new)>(m: JsMap<K, V>, ks: set<K>, k: K)
    ensures Has(Without(m, ks), k) <==> Has(m, k) && k !in ks
    ensures Lookup(Without(m, ks), k) == if k in ks then None else Lookup(m, k)
  {
    var r := Without(m, ks);
    FilterOutMembers(m.entries, ks);
    if j :| 0 <= j < |m.entries| && m.entries[j].0 == k {
      LookupAt(m, j);
      if k in ks {
        forall j' | 0 <= j' < |r.entries|
          ensures r.entries[j'].0 != k
        {
          assert r.entries[j'] in r.entries;
        }
        LookupMissing(r, k);
      } else {
        assert m.entries[j] in r.entries;
        var j' :| 0 <= j' < |r.entries| && r.entries[j'] == m.entries[j];
        LookupAt(r, j');
      }
    } else {
      LookupMissing(m, k);
      forall j' | 0 <= j' < |r.entries|
        ensures r.entries[j'].0 != k
      {
        assert r.entries[j'] in r.entries;
      }
      LookupMissing(r, k);
    }
  }

  /** `m.delete(k)`: afterwards `k` is absent, every other key maps to what it
      mapped to before, the size drops by one exactly when `k` was present, and
      the result is the map with `k` filtered out, the survivors in order; an
      absent `k` leaves the map as it was. */
  function Delete<K(==,!new), V(!new)>(m: JsMap<K, V>, k: K): (r: JsMap<K, V>)
    ensures !Has(r, k)
    ensures forall k' :: k' != k ==> Lookup(r, k') == Lookup(m, k')
    ensures Size(r) == if Has(m, k) then Size(m) - 1 else Size(m)
    ensures r == Without(m, {k})
    ensures !Has(m, k) ==> r == m
  {
    match Find(m.entries, k)
    case None =>
      FilterOutKeeps(m.entries, {k});
      m
    case Some(i) =>
      RemoveAtIsFilter(m.entries, i);
      var r: JsMap<K, V> := MapObject(m.entries[..i] + m.entries[i + 1..]);
      WithoutLookup(m, {k}, k);
      forall k' | k' != k
        ensures Lookup(r, k') == Lookup(m, k')
      {
        WithoutLookup(m, {k}, k');
      }
      r
  }

  /** The abstract map a `Map` object denotes. */
  ghost function ToMap<K(!new), V(!new)>(m: JsMap<K, V>): map<K, V> {
    map k | k in Keys(m) && Has(m, k) :: Lookup(m, k).value
  }

  lemma ToMapDomain<K(!new), V(!new)>(m: JsMap<K, V>, k: K)
    ensures k in ToMap(m) <==> Has(m, k)
    ensures Has(m, k) ==> Lookup(m, k) == Some(ToMap(m)[k])
  {
    HasIffListed(m, k);
  }

  /** `set` is a map update of the denoted map. */
  lemma SetIsMapUpdate<K(!new), V(!new)>(m: JsMap<K, V>, k: K, v: V)
    ensures ToMap(Set(m, k, v)) == ToMap(m)[k := v]
  {
    var r := Set(m, k, v);
    forall k'
      ensures k' in ToMap(r) <==> k' in ToMap(m)[k := v]
      ensures k' in ToMap(r) ==> ToMap(r)[k'] == ToMap(m)[k := v][k']
    {
      ToMapDomain(r, k');
      ToMapDomain(m, k');
    }
  }

  /** `delete` removes the key from the denoted map. */
  lemma DeleteIsMapRemoval<K(!new), V(!new)>(m: JsMap<K, V>, k: K)
    ensures ToMap(Delete(m, k)) == ToMap(m) - {k}
  {
    var r := Delete(m, k);
    forall k'
      ensures k' in ToMap(r) <==> k' in ToMap(m) - {k}
      ensures k' in ToMap(r) ==> ToMap(r)[k'] == (ToMap(m) - {k})[k']
    {
      ToMapDomain(r, k');
      ToMapDomain(m, k');
    }
  }

  /** A sequence without repetitions has as many distinct elements as it is long. */
  lemma {:induction false} DistinctCount<K>(s: seq<K>)
    requires forall i, j :: 0 <= i < j < |s| ==> s[i] != s[j]
    ensures |set x | x in s| == |s|
    decreases |s|
  {
    if |s| > 0 {
      DistinctCount(s[1..]);
      assert (set x | x in s) == {s[0]} + (set x | x in s[1..]);
      assert s[0] !in (set x | x in s[1..]);
    }
  }

  /** `size` counts the keys of the denoted map: no key is counted twice. */
  lemma SizeIsKeyCount<K(!new), V(!new)>(m: JsMap<K, V>)
    ensures |ToMap(m)| == Size(m)
  {
    var ks := Keys(m);
    DistinctCount(ks);
    forall k
      ensures k in ToMap(m).Keys <==> k in (set x | x in ks)
    {
      ToMapDomain(m, k);
      HasIffListed(m, k);
    }
    assert ToMap(m).Keys == set x | x in ks;
  }
}
