/** Python dictionaries as association lists: a sequence of key/value pairs
    with distinct keys, kept in insertion order (the order in which Python
    iterates a dict). */
module Dict {
  import opened Wrappers

  predicate UniqueKeys<K(==), V>(d: seq<(K, V)>) {
    forall i, j :: 0 <= i < j < |d| ==> d[i].0 != d[j].0
  }

  /** `list(d.keys())`. */
  function Keys<K, V>(d: seq<(K, V)>): (r: seq<K>)
    ensures |r| == |d|
    ensures forall k :: 0 <= k < |d| ==> r[k] == d[k].0
  {
    if d == [] then [] else [d[0].0] + Keys(d[1..])
  }

  /** `list(d.values())`. */
  function Values<K, V>(d: seq<(K, V)>): (r: seq<V>)
    ensures |r| == |d|
    ensures forall k :: 0 <= k < |d| ==> r[k] == d[k].1
  {
    if d == [] then [] else [d[0].1] + Values(d[1..])
  }

  /** `d.get(key)`: the value stored under `key`, if any. */
  function Lookup<K(==), V>(d: seq<(K, V)>, key: K): (r: Option<V>)
    ensures r.Some? <==> key in Keys(d)
  {
    if d == [] then None
    else if d[0].0 == key then Some(d[0].1)
    else
      assert Keys(d) == [d[0].0] + Keys(d[1..]);
      Lookup(d[1..], key)
  }

  /** With distinct keys, the value found is the one stored next to the key. */
  lemma {:induction false} LookupAt<K, V>(d: seq<(K, V)>, k: nat)
    requires UniqueKeys(d) && k < |d|
    ensures Lookup(d, d[k].0) == Some(d[k].1)
  {
    if k > 0 {
      assert d[0].0 != d[k].0;
      assert d[1..][k - 1] == d[k];
      LookupAt(d[1..], k - 1);
    }
  }

  /** `d[key] = value`: an existing key keeps its place, a new key goes last. */
  function Store<K(==), V>(d: seq<(K, V)>, key: K, value: V): (r: seq<(K, V)>)
    ensures Keys(r) == if key in Keys(d) then Keys(d) else Keys(d) + [key]
  {
    if d == [] then [(key, value)]
    else if d[0].0 == key then [(key, value)] + d[1..]
    else
      assert Keys(d) == [d[0].0] + Keys(d[1..]);
      [d[0]] + Store(d[1..], key, value)
  }

  /** After a store the key finds the new value and every other key what it
      found before. */
  lemma {:induction false} StoreLookup<K, V>(d: seq<(K, V)>, key: K, value: V, other: K)
    ensures Lookup(Store(d, key, value), other) == if other == key then Some(value) else Lookup(d, other)
  {
    if d != [] && d[0].0 != key {
      StoreLookup(d[1..], key, value, other);
      var r := Store(d, key, value);
      assert r[0] == d[0] && r[1..] == Store(d[1..], key, value);
    }
  }

  /** Storing keeps the keys distinct. */
  lemma {:induction false} StoreUnique<K, V>(d: seq<(K, V)>, key: K, value: V)
    requires UniqueKeys(d)
    ensures UniqueKeys(Store(d, key, value))
  {
    var r := Store(d, key, value);
    assert forall k :: 0 <= k < |r| ==> r[k].0 == Keys(r)[k];
    assert forall k :: 0 <= k < |d| ==> d[k].0 == Keys(d)[k];
  }

  /** The distinct elements of `s` in the order of their first occurrence. */
  function Distinct<T(==)>(s: seq<T>): (r: seq<T>)
    ensures |r| <= |s|
  {
    if s == [] then []
    else
      var d := Distinct(s[..|s| - 1]);
      if s[|s| - 1] in d then d else d + [s[|s| - 1]]
  }

  lemma {:induction false} DistinctProperties<T>(s: seq<T>)
    ensures forall i, j :: 0 <= i < j < |Distinct(s)| ==> Distinct(s)[i] != Distinct(s)[j]
    ensures forall x :: x in Distinct(s) <==> x in s
  {
    if s != [] {
      var init := s[..|s| - 1];
      DistinctProperties(init);
      assert s == init + [s[|s| - 1]];
      assert forall x :: x in s <==> x in init || x == s[|s| - 1];
    }
  }
}
