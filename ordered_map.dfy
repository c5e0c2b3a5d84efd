/**
 * A JavaScript `Map` as the replace builder uses it: entries in insertion order, `set`
 * overwriting an existing key in place and appending a new one, `delete` removing the
 * entry and closing the gap.
 */
module OrderedMap {
  import opened Js

  /** The keys in insertion order: `Array.from(map.keys())`. */
  function Keys<K, V>(m: seq<(K, V)>): seq<K> {
    seq(|m|, i requires 0 <= i < |m| => m[i].0)
  }

  /** Proof helper: the length and the entries of `Keys(m)`, for proofs that quantify over them. */
  lemma KeysAt<K, V>(m: seq<(K, V)>)
    ensures |Keys(m)| == |m| && forall i :: 0 <= i < |m| ==> Keys(m)[i] == m[i].0
  {
  }

  /** The position of `key` in the map, if it is present. */
  function IndexOf<K(==), V>(m: seq<(K, V)>, key: K): (r: Option<nat>)
    ensures r.Some? ==> r.value < |m| && m[r.value].0 == key
    ensures r.None? <==> key !in Keys(m)
  {
    if m == [] then None
    else if m[0].0 == key then assert Keys(m)[0] == key; Some(0)
    else
      var r := IndexOf(m[1..], key);
      assert Keys(m) == [m[0].0] + Keys(m[1..]);
      if r.Some? then Some(r.value + 1) else None
  }

  /** `map.get(key)`. */
  function Lookup<K(==), V>(m: seq<(K, V)>, key: K): Option<V> {
    match IndexOf(m, key)
    case Some(i) => Some(m[i].1)
    case None => None
  }

  /** `map.set(key, value)`: overwrites in place when the key is present, appends otherwise. */
  function MapSet<K(==), V>(m: seq<(K, V)>, key: K, value: V): seq<(K, V)> {
    match IndexOf(m, key)
    case Some(i) => m[i := (key, value)]
    case None => m + [(key, value)]
  }

  /** `map.delete(key)`. */
  function MapDelete<K(==), V>(m: seq<(K, V)>, key: K): seq<(K, V)> {
    match IndexOf(m, key)
    case Some(i) => m[..i] + m[i + 1..]
    case None => m
  }

  /** With distinct keys, the first position of an entry's key is that entry's position. */
  lemma IndexOfDistinct<K, V>(m: seq<(K, V)>, i: nat)
    requires Distinct(Keys(m)) && i < |m|
    ensures IndexOf(m, m[i].0) == Some(i)
  {
    var ks := Keys(m);
    assert ks[i] == m[i].0;
    var j := IndexOf(m, m[i].0).value;
    DistinctAt(ks, j, i);
  }

  lemma DistinctAt<T>(s: seq<T>, a: nat, b: nat)
    requires Distinct(s) && a < |s| && b < |s| && s[a] == s[b]
    ensures a == b
  {
  }

  /** Map.set keeps the keys distinct and changes the entry for `key` only. */
  lemma MapSetLookup<K, V>(m: seq<(K, V)>, key: K, value: V, k: K)
    requires Distinct(Keys(m))
    ensures Distinct(Keys(MapSet(m, key, value)))
    ensures Keys(MapSet(m, key, value)) == if key in Keys(m) then Keys(m) else Keys(m) + [key]
    ensures Lookup(MapSet(m, key, value), k) == if k == key then Some(value) else Lookup(m, k)
  {
    var r := MapSet(m, key, value);
    KeysAt(m);
    KeysAt(r);
    if key in Keys(m) {
      assert Keys(r) == Keys(m);
    } else {
      assert Keys(r) == Keys(m) + [key];
    }
    if k in Keys(r) {
      var i :| 0 <= i < |r| && Keys(r)[i] == k;
      assert r[i].0 == k;
      IndexOfDistinct(r, i);
      if k != key {
        assert i < |m| && m[i] == r[i] && Keys(m)[i] == k;
        IndexOfDistinct(m, i);
      }
    } else {
      assert k != key && k !in Keys(m);
    }
  }

  /** Every entry after a set is the new entry or the entry that was at the same position. */
  lemma MapSetEntry<K, V>(m: seq<(K, V)>, key: K, value: V, j: nat)
    requires j < |MapSet(m, key, value)|
    ensures MapSet(m, key, value)[j] == (key, value) || (j < |m| && MapSet(m, key, value)[j] == m[j])
  {
  }

  /** A set adds at most one entry. */
  lemma MapSetSize<K, V>(m: seq<(K, V)>, key: K, value: V)
    ensures |MapSet(m, key, value)| == if key in Keys(m) then |m| else |m| + 1
  {
  }

  /** Removing position `i` keeps the keys distinct and drops exactly the key at `i`. */
  lemma RemoveAtKeys<K, V>(m: seq<(K, V)>, i: nat)
    requires Distinct(Keys(m)) && i < |m|
    ensures var r := m[..i] + m[i + 1..];
      && (forall j :: 0 <= j < |r| ==> r[j] == if j < i then m[j] else m[j + 1])
      && Distinct(Keys(r))
      && forall k :: k in Keys(r) <==> k in Keys(m) && k != m[i].0
  {
    var r := m[..i] + m[i + 1..];
    KeysAt(m);
    KeysAt(r);
    assert forall j :: 0 <= j < |r| ==> r[j] == if j < i then m[j] else m[j + 1];
    forall a, b | 0 <= a < b < |r| ensures Keys(r)[a] != Keys(r)[b] {
      var a', b' := if a < i then a else a + 1, if b < i then b else b + 1;
      assert Keys(m)[a'] != Keys(m)[b'];
    }
    forall k ensures k in Keys(r) <==> k in Keys(m) && k != m[i].0 {
      if k in Keys(r) {
        var j :| 0 <= j < |r| && Keys(r)[j] == k;
        var j' := if j < i then j else j + 1;
        assert r[j] == m[j'] && Keys(m)[j'] == k;
      }
      if k in Keys(m) && k != m[i].0 {
        var j :| 0 <= j < |m| && Keys(m)[j] == k;
        var j' := if j < i then j else j - 1;
        assert j != i && r[j'] == m[j] && Keys(r)[j'] == k;
      }
    }
  }

  /** Map.delete keeps the keys distinct, removes `key` and changes no other entry. */
  lemma MapDeleteLookup<K, V>(m: seq<(K, V)>, key: K, k: K)
    requires Distinct(Keys(m))
    ensures Distinct(Keys(MapDelete(m, key)))
    ensures Lookup(MapDelete(m, key), k) == if k == key then None else Lookup(m, k)
  {
    var r := MapDelete(m, key);
    match IndexOf(m, key)
    case None =>
    case Some(i) =>
      RemoveAtKeys(m, i);
      if k in Keys(r) {
        var j :| 0 <= j < |r| && Keys(r)[j] == k;
        IndexOfDistinct(r, j);
        IndexOfDistinct(m, if j < i then j else j + 1);
      }
  }

  /** Every entry left after a delete is an entry of the map it was deleted from. */
  lemma MapDeleteEntry<K, V>(m: seq<(K, V)>, key: K, j: nat)
    requires Distinct(Keys(m)) && j < |MapDelete(m, key)|
    ensures MapDelete(m, key)[j] in m
  {
    match IndexOf(m, key)
    case None =>
    case Some(i) =>
      RemoveAtKeys(m, i);
      assert MapDelete(m, key)[j] == m[if j < i then j else j + 1];
  }
}
