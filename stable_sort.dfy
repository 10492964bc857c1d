/** Python's `sorted(xs, key=...)` and `list.sort(key=...)` for a key with
    natural-number values: an ascending sort that keeps elements with equal keys
    in their input order (both are stable in Python). A descending sort with
    `reverse=True` is the ascending sort on a reversed key, which Python also
    keeps stable. */
module StableSort {

  ghost predicate SortedBy<T>(s: seq<T>, key: T -> nat) {
    forall i, j :: 0 <= i < j < |s| ==> key(s[i]) <= key(s[j])
  }

  /** The elements of `s` whose key is `k`, in the order of `s`. */
  function WithKey<T>(s: seq<T>, key: T -> nat, k: nat): (r: seq<T>)
    ensures |r| <= |s|
  {
    if s == [] then []
    else if key(s[0]) == k then [s[0]] + WithKey(s[1..], key, k)
    else WithKey(s[1..], key, k)
  }

  /** Inserts `x` before the first element whose key is not smaller, so that `x`
      precedes the elements of equal key that came after it in the input. */
  function Insert<T>(x: T, s: seq<T>, key: T -> nat): (r: seq<T>)
    ensures |r| == |s| + 1
  {
    if s == [] || key(x) <= key(s[0]) then [x] + s
    else [s[0]] + Insert(x, s[1..], key)
  }

  function SortBy<T>(s: seq<T>, key: T -> nat): (r: seq<T>)
    ensures |r| == |s|
  {
    if s == [] then [] else Insert(s[0], SortBy(s[1..], key), key)
  }

  // ---------------------------------------------------------------------
  // Insert
  // ---------------------------------------------------------------------

  /** Inserting an element whose key is at least `b` into a sequence whose keys
      are all at least `b` keeps every key at least `b`. */
  lemma {:induction false} InsertKeysAbove<T>(x: T, s: seq<T>, key: T -> nat, b: nat)
    requires b <= key(x)
    requires forall i :: 0 <= i < |s| ==> b <= key(s[i])
    ensures forall j :: 0 <= j < |Insert(x, s, key)| ==> b <= key(Insert(x, s, key)[j])
  {
    if s == [] || key(x) <= key(s[0]) {
    } else {
      InsertKeysAbove(x, s[1..], key, b);
    }
  }

  lemma {:induction false} InsertSorted<T>(x: T, s: seq<T>, key: T -> nat)
    requires SortedBy(s, key)
    ensures SortedBy(Insert(x, s, key), key)
  {
    if s == [] || key(x) <= key(s[0]) {
    } else {
      InsertSorted(x, s[1..], key);
      InsertKeysAbove(x, s[1..], key, key(s[0]));
      var t := Insert(x, s[1..], key);
      assert Insert(x, s, key) == [s[0]] + t;
    }
  }

  lemma {:induction false} InsertPermutes<T>(x: T, s: seq<T>, key: T -> nat)
    ensures multiset(Insert(x, s, key)) == multiset(s) + multiset{x}
  {
    if s == [] || key(x) <= key(s[0]) {
    } else {
      InsertPermutes(x, s[1..], key);
      assert Insert(x, s, key) == [s[0]] + Insert(x, s[1..], key);
      assert s == [s[0]] + s[1..];
    }
  }

  lemma {:induction false} InsertWithKey<T>(x: T, s: seq<T>, key: T -> nat, k: nat)
    requires SortedBy(s, key)
    ensures WithKey(Insert(x, s, key), key, k) ==
            if key(x) == k then [x] + WithKey(s, key, k) else WithKey(s, key, k)
  {
    if s == [] || key(x) <= key(s[0]) {
      assert Insert(x, s, key) == [x] + s;
      assert ([x] + s)[1..] == s;
    } else {
      InsertWithKey(x, s[1..], key, k);
      var t := Insert(x, s[1..], key);
      assert Insert(x, s, key) == [s[0]] + t;
      assert ([s[0]] + t)[1..] == t;
      // s[0] has a key smaller than key(x): it cannot have key k when x does
      if key(x) == k {
        assert key(s[0]) != k;
      }
    }
  }

  // ---------------------------------------------------------------------
  // SortBy: ordered, a permutation, and stable
  // ---------------------------------------------------------------------

  /** The result is ordered by key. */
  lemma {:induction false} SortBySorted<T>(s: seq<T>, key: T -> nat)
    ensures SortedBy(SortBy(s, key), key)
  {
    if s != [] {
      SortBySorted(s[1..], key);
      InsertSorted(s[0], SortBy(s[1..], key), key);
    }
  }

  /** The result is a permutation of the input. */
  lemma {:induction false} SortByPermutation<T>(s: seq<T>, key: T -> nat)
    ensures multiset(SortBy(s, key)) == multiset(s)
  {
    if s != [] {
      SortByPermutation(s[1..], key);
      InsertPermutes(s[0], SortBy(s[1..], key), key);
      assert s == [s[0]] + s[1..];
    }
  }

  /** Stability: for every key value, the elements with that key appear in the
      result in exactly the order they had in the input. */
  lemma {:induction false} SortByStable<T>(s: seq<T>, key: T -> nat, k: nat)
    ensures WithKey(SortBy(s, key), key, k) == WithKey(s, key, k)
  {
    if s != [] {
      SortByStable(s[1..], key, k);
      SortBySorted(s[1..], key);
      InsertWithKey(s[0], SortBy(s[1..], key), key, k);
    }
  }

  /** Sorting an input that is already in key order changes nothing. */
  lemma {:induction false} SortBySortedInput<T>(s: seq<T>, key: T -> nat)
    requires SortedBy(s, key)
    ensures SortBy(s, key) == s
  {
    if s != [] {
      assert SortedBy(s[1..], key);
      SortBySortedInput(s[1..], key);
    }
  }

  /** The result depends only on the keys of the elements being sorted: two key
      functions that agree on them give the same order. */
  lemma {:induction false} SortByAgree<T>(s: seq<T>, key1: T -> nat, key2: T -> nat)
    requires forall k :: 0 <= k < |s| ==> key1(s[k]) == key2(s[k])
    ensures SortBy(s, key1) == SortBy(s, key2)
  {
    if s != [] {
      SortByAgree(s[1..], key1, key2);
      SortByPermutation(s[1..], key1);
      InsertAgree(s[0], SortBy(s[1..], key1), key1, key2);
    }
  }

  lemma {:induction false} InsertAgree<T>(x: T, s: seq<T>, key1: T -> nat, key2: T -> nat)
    requires key1(x) == key2(x)
    requires forall y :: y in multiset(s) ==> key1(y) == key2(y)
    ensures Insert(x, s, key1) == Insert(x, s, key2)
  {
    if s != [] {
      assert s[0] in multiset(s);
      assert s == [s[0]] + s[1..];
      InsertAgree(x, s[1..], key1, key2);
    }
  }
}
