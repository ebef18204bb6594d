/** Stable sorting by a numeric key in decreasing order: JavaScript's
    `Array.prototype.sort` with a `b - a` comparator and Python's
    `sorted(..., reverse=True)` both keep equal keys in their input order. */
module Sorting {
  import opened Seqs

  /** Non-increasing keys from left to right. */
  predicate SortedDesc<T>(s: seq<T>, key: T -> int)
  {
    forall i, j :: 0 <= i < j < |s| ==> key(s[i]) >= key(s[j])
  }

  /** The elements whose key is `c`, in their order in `s`. */
  function WithKey<T>(s: seq<T>, key: T -> int, c: int): seq<T>
  {
    Filter(s, x => key(x) == c)
  }

  /** Puts `x` before the first element whose key is not larger than its own. */
  function InsertDesc<T>(x: T, s: seq<T>, key: T -> int): seq<T>
  {
    if s == [] || key(x) >= key(s[0]) then [x] + s else [s[0]] + InsertDesc(x, s[1..], key)
  }

  /** Insertion sort by decreasing key. */
  function SortDesc<T>(s: seq<T>, key: T -> int): seq<T>
  {
    if s == [] then [] else InsertDesc(s[0], SortDesc(s[1..], key), key)
  }

  lemma {:induction false} InsertMultiset<T>(x: T, s: seq<T>, key: T -> int)
    ensures multiset(InsertDesc(x, s, key)) == multiset(s) + multiset{x}
  {
    if s != [] && key(x) < key(s[0]) {
      InsertMultiset(x, s[1..], key);
      assert s == [s[0]] + s[1..];
    }
  }

  /** Among elements of one key, the inserted element comes first. */
  lemma {:induction false} InsertWithKey<T>(x: T, s: seq<T>, key: T -> int, c: int)
    ensures WithKey(InsertDesc(x, s, key), key, c) ==
              if key(x) == c then [x] + WithKey(s, key, c) else WithKey(s, key, c)
  {
    if s != [] && key(x) < key(s[0]) {
      InsertWithKey(x, s[1..], key, c);
    }
  }

  lemma {:induction false} InsertSorted<T>(x: T, s: seq<T>, key: T -> int)
    requires SortedDesc(s, key)
    ensures SortedDesc(InsertDesc(x, s, key), key)
    ensures InsertDesc(x, s, key) != [] && (InsertDesc(x, s, key)[0] == x || InsertDesc(x, s, key)[0] == s[0])
  {
    if s != [] && key(x) < key(s[0]) {
      InsertSorted(x, s[1..], key);
      var r := InsertDesc(x, s[1..], key);
      assert key(s[0]) >= key(r[0]) by {
        if r[0] != x {
          assert r[0] == s[1..][0] == s[1];
        }
      }
      var t := [s[0]] + r;
      assert InsertDesc(x, s, key) == t;
      forall i, j | 0 <= i < j < |t| ensures key(t[i]) >= key(t[j]) {
        assert t[j] == r[j - 1];
        if i == 0 {
          assert key(r[0]) >= key(r[j - 1]);
        } else {
          assert t[i] == r[i - 1];
        }
      }
    }
  }

  /** The sort orders by decreasing key, keeps exactly the same elements, and
      keeps the input order among elements of equal key (stability). */
  lemma {:induction false} SortSpec<T>(s: seq<T>, key: T -> int)
    ensures SortedDesc(SortDesc(s, key), key)
    ensures multiset(SortDesc(s, key)) == multiset(s)
    ensures forall c :: WithKey(SortDesc(s, key), key, c) == WithKey(s, key, c)
  {
    if s != [] {
      SortSpec(s[1..], key);
      InsertMultiset(s[0], SortDesc(s[1..], key), key);
      InsertSorted(s[0], SortDesc(s[1..], key), key);
      forall c ensures WithKey(SortDesc(s, key), key, c) == WithKey(s, key, c) {
        InsertWithKey(s[0], SortDesc(s[1..], key), key, c);
      }
      assert s == [s[0]] + s[1..];
    }
  }

  /** Sorting keeps the length. */
  lemma SortLength<T>(s: seq<T>, key: T -> int)
    ensures |SortDesc(s, key)| == |s|
  {
    SortSpec(s, key);
    assert |multiset(SortDesc(s, key))| == |multiset(s)|;
  }

  /** The first `n` elements of the sorted sequence hold, for every key, the
      first elements of that key in input order. */
  lemma TakeSortedStable<T>(s: seq<T>, key: T -> int, n: nat)
    ensures forall c :: WithKey(Take(SortDesc(s, key), n), key, c) <= WithKey(s, key, c)
  {
    var sorted := SortDesc(s, key);
    var r := Take(sorted, n);
    SortSpec(s, key);
    forall c ensures WithKey(r, key, c) <= WithKey(s, key, c) {
      FilterTake(sorted, |r|, x => key(x) == c);
    }
  }
}
