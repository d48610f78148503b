/**
 * `Array.prototype.sort` with a comparator `(a, b) => key(b) - key(a)`:
 * a stable sort into descending key order, written as insertion sort.
 */
module StableSort {
  import opened Seqs

  predicate SortedDesc<T>(s: seq<T>, key: T -> int) {
    forall i, j :: 0 <= i < j < |s| ==> key(s[i]) >= key(s[j])
  }

  /** The elements of `s` whose key is `k`, in their order in `s`. */
  function WithKey<T>(s: seq<T>, key: T -> int, k: int): seq<T> {
    if s == [] then [] else (if key(s[0]) == k then [s[0]] else []) + WithKey(s[1..], key, k)
  }

  predicate AllAtMost<T>(s: seq<T>, key: T -> int, b: int) {
    forall i :: 0 <= i < |s| ==> key(s[i]) <= b
  }

  /** Places `x` in front of the first element whose key is not greater than its own. */
  function Insert<T>(x: T, s: seq<T>, key: T -> int): (r: seq<T>)
    ensures |r| == |s| + 1
    ensures multiset(r) == multiset(s) + multiset{x}
  {
    if s == [] then [x]
    else if key(x) >= key(s[0]) then [x] + s
    else
      assert s == [s[0]] + s[1..];
      [s[0]] + Insert(x, s[1..], key)
  }

  lemma {:induction false} InsertAtMost<T>(x: T, s: seq<T>, key: T -> int, b: int)
    requires key(x) <= b && AllAtMost(s, key, b)
    ensures AllAtMost(Insert(x, s, key), key, b)
  {
    if s != [] && key(x) < key(s[0]) {
      InsertAtMost(x, s[1..], key, b);
    }
  }

  lemma {:induction false} InsertSorted<T>(x: T, s: seq<T>, key: T -> int)
    requires SortedDesc(s, key)
    ensures SortedDesc(Insert(x, s, key), key)
  {
    if s != [] && key(x) < key(s[0]) {
      var t := Insert(x, s[1..], key);
      assert SortedDesc(s[1..], key);
      InsertSorted(x, s[1..], key);
      assert AllAtMost(s[1..], key, key(s[0]));
      InsertAtMost(x, s[1..], key, key(s[0]));
      var r := [s[0]] + t;
      assert forall i | 0 < i < |r| :: r[i] == t[i - 1];
    }
  }

  function Sort<T>(s: seq<T>, key: T -> int): (r: seq<T>)
    ensures |r| == |s|
    ensures multiset(r) == multiset(s)
    ensures SortedDesc(r, key)
  {
    if s == [] then []
    else
      assert s == [s[0]] + s[1..];
      InsertSorted(s[0], Sort(s[1..], key), key);
      Insert(s[0], Sort(s[1..], key), key)
  }

  lemma WithKeyCons<T>(y: T, t: seq<T>, key: T -> int, k: int)
    ensures WithKey([y] + t, key, k) == (if key(y) == k then [y] else []) + WithKey(t, key, k)
  {
    var r := [y] + t;
    assert r[0] == y && r[1..] == t;
  }

  /** Inserting `x` puts it ahead of every element with its key that is already there. */
  lemma {:induction false} InsertWithKey<T>(x: T, s: seq<T>, key: T -> int, k: int)
    ensures WithKey(Insert(x, s, key), key, k) == (if key(x) == k then [x] else []) + WithKey(s, key, k)
  {
    if s == [] || key(x) >= key(s[0]) {
      assert Insert(x, s, key) == [x] + s;
      WithKeyCons(x, s, key, k);
    } else {
      var t := Insert(x, s[1..], key);
      assert Insert(x, s, key) == [s[0]] + t;
      assert s == [s[0]] + s[1..];
      InsertWithKey(x, s[1..], key, k);
      WithKeyCons(s[0], t, key, k);
      WithKeyCons(s[0], s[1..], key, k);
      if key(x) == k {
        // `s[0]` has a larger key, so it is not among those with key `k`
        calc {
          WithKey(Insert(x, s, key), key, k);
          WithKey(t, key, k);
          [x] + WithKey(s[1..], key, k);
          [x] + WithKey(s, key, k);
        }
      } else {
        calc {
          WithKey(Insert(x, s, key), key, k);
          (if key(s[0]) == k then [s[0]] else []) + WithKey(t, key, k);
          (if key(s[0]) == k then [s[0]] else []) + WithKey(s[1..], key, k);
          WithKey(s, key, k);
        }
      }
    }
  }

  /** Stability: for every key, the elements with that key keep their input order. */
  lemma {:induction false} SortStable<T>(s: seq<T>, key: T -> int, k: int)
    ensures WithKey(Sort(s, key), key, k) == WithKey(s, key, k)
  {
    if s != [] {
      SortStable(s[1..], key, k);
      InsertWithKey(s[0], Sort(s[1..], key), key, k);
    }
  }

  lemma {:induction false} InsertNoDuplicates<T>(x: T, s: seq<T>, key: T -> int)
    requires NoDuplicates(s) && x !in s
    ensures NoDuplicates(Insert(x, s, key))
  {
    if s == [] || key(x) >= key(s[0]) {
      assert Insert(x, s, key) == [x] + s;
      PrependFresh(x, s);
    } else {
      var t := Insert(x, s[1..], key);
      assert Insert(x, s, key) == [s[0]] + t;
      assert s == [s[0]] + s[1..];
      assert NoDuplicates(s[1..]);
      InsertNoDuplicates(x, s[1..], key);
      assert multiset(t) == multiset(s[1..]) + multiset{x};
      assert s[0] !in multiset(t);
      PrependFresh(s[0], t);
    }
  }

  /** Sorting a duplicate-free sequence yields a duplicate-free sequence with the same elements. */
  lemma {:induction false} SortNoDuplicates<T>(s: seq<T>, key: T -> int)
    requires NoDuplicates(s)
    ensures NoDuplicates(Sort(s, key))
    ensures forall x :: x in Sort(s, key) <==> x in s
  {
    if s != [] {
      assert s == [s[0]] + s[1..];
      SortNoDuplicates(s[1..], key);
      InsertNoDuplicates(s[0], Sort(s[1..], key), key);
    }
    assert forall x :: x in Sort(s, key) <==> x in multiset(Sort(s, key));
  }
}
