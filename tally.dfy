/** Frequency tables as the application builds them: a dictionary from key to
    count whose keys keep their insertion order (a JavaScript object with
    non-numeric keys, a Python `dict`/`defaultdict`), and the sort of its
    `(key, count)` pairs by decreasing count. */
module Tally {
  import opened Seqs
  import opened Sorting

  /** The keys of a table, in insertion order. */
  function KeysOf<K>(t: seq<(K, nat)>): (ks: seq<K>)
    ensures |ks| == |t|
    ensures forall i :: 0 <= i < |t| ==> ks[i] == t[i].0
  {
    if t == [] then [] else [t[0].0] + KeysOf(t[1..])
  }

  /** `table[k] || 0`. */
  function Lookup<K(==)>(t: seq<(K, nat)>, k: K): nat
  {
    if t == [] then 0 else if t[0].0 == k then t[0].1 else Lookup(t[1..], k)
  }

  /** `table[k] = (table[k] || 0) + 1`: increment in place, or append `(k, 1)`. */
  function Bump<K(==)>(t: seq<(K, nat)>, k: K): (r: seq<(K, nat)>)
  {
    if t == [] then [(k, 1)]
    else if t[0].0 == k then [(k, t[0].1 + 1)] + t[1..]
    else [t[0]] + Bump(t[1..], k)
  }

  /** Sum of the counts. */
  function Total<K>(t: seq<(K, nat)>): nat
  {
    if t == [] then 0 else t[0].1 + Total(t[1..])
  }

  /** The table built by bumping every element of `xs`, from left to right. */
  function CountAll<K(==)>(xs: seq<K>): seq<(K, nat)>
  {
    if xs == [] then [] else Bump(CountAll(xs[..|xs| - 1]), xs[|xs| - 1])
  }

  /** Counting one more element bumps its count. */
  lemma CountAllSnoc<K>(xs: seq<K>, x: K)
    ensures CountAll(xs + [x]) == Bump(CountAll(xs), x)
  {
    assert (xs + [x])[..|xs|] == xs;
  }

  /** Counting one more element of `xs` after `done`. */
  lemma CountAllStep<K>(done: seq<K>, xs: seq<K>, j: int)
    requires 0 <= j < |xs|
    ensures CountAll(done + xs[..j + 1]) == Bump(CountAll(done + xs[..j]), xs[j])
  {
    CountAllSnoc(done + xs[..j], xs[j]);
    assert done + xs[..j + 1] == (done + xs[..j]) + [xs[j]];
  }

  /** Counting the elements of `xs`, one increment each, into the table of
      what was counted before. */
  method BumpAll<K(==)>(counts: seq<(K, nat)>, ghost done: seq<K>, xs: seq<K>) returns (r: seq<(K, nat)>)
    requires counts == CountAll(done)
    ensures r == CountAll(done + xs)
  {
    r := counts;
    var j := 0;
    assert done + xs[..j] == done;
    while j < |xs|
      invariant 0 <= j <= |xs|
      invariant r == CountAll(done + xs[..j])
    {
      CountAllStep(done, xs, j);
      r := Bump(r, xs[j]);
      j := j + 1;
    }
    assert xs[..j] == xs;
  }

  lemma {:induction false} BumpSpec<K>(t: seq<(K, nat)>, k: K)
    requires NoDup(KeysOf(t))
    ensures forall j :: Lookup(Bump(t, k), j) == Lookup(t, j) + (if j == k then 1 else 0)
    ensures KeysOf(Bump(t, k)) == if k in KeysOf(t) then KeysOf(t) else KeysOf(t) + [k]
    ensures Total(Bump(t, k)) == Total(t) + 1
  {
    if t != [] {
      if t[0].0 == k {
        assert KeysOf(Bump(t, k)) == [k] + KeysOf(t[1..]);
        forall j ensures Lookup(Bump(t, k), j) == Lookup(t, j) + (if j == k then 1 else 0) {
          if j != k {
            assert Lookup(Bump(t, k), j) == Lookup(t[1..], j);
          }
        }
      } else {
        assert KeysOf(t) == [t[0].0] + KeysOf(t[1..]);
        assert NoDup(KeysOf(t[1..])) by {
          forall i, j | 0 <= i < j < |KeysOf(t[1..])| ensures KeysOf(t[1..])[i] != KeysOf(t[1..])[j] {
            assert KeysOf(t)[i + 1] == KeysOf(t[1..])[i];
            assert KeysOf(t)[j + 1] == KeysOf(t[1..])[j];
          }
        }
        BumpSpec(t[1..], k);
        assert KeysOf(Bump(t, k)) == [t[0].0] + KeysOf(Bump(t[1..], k));
        assert k in KeysOf(t) <==> k in KeysOf(t[1..]);
      }
    }
  }

  /** Counting a sequence: every key's count is its number of occurrences,
      the keys are the distinct elements in first-seen order, and the counts
      add up to the length of the sequence. */
  lemma {:induction false} CountAllSpec<K>(xs: seq<K>)
    ensures forall k :: Lookup(CountAll(xs), k) == Occurrences(xs, k)
    ensures KeysOf(CountAll(xs)) == Distinct(xs)
    ensures NoDup(KeysOf(CountAll(xs)))
    ensures Total(CountAll(xs)) == |xs|
  {
    DistinctSpec(xs);
    if xs != [] {
      var init := xs[..|xs| - 1];
      var x := xs[|xs| - 1];
      CountAllSpec(init);
      BumpSpec(CountAll(init), x);
      assert xs == init + [x];
      forall k ensures Lookup(CountAll(xs), k) == Occurrences(xs, k) {
        OccurrencesAppend(init, [x], k);
      }
    }
  }

  /** Every count in a table built by counting is positive. */
  lemma {:induction false} CountAllPositive<K>(xs: seq<K>)
    ensures forall i :: 0 <= i < |CountAll(xs)| ==> CountAll(xs)[i].1 >= 1
  {
    CountAllSpec(xs);
    var t := CountAll(xs);
    forall i | 0 <= i < |t| ensures t[i].1 >= 1 {
      DistinctSpec(xs);
      assert t[i].0 in KeysOf(t);
      LookupAt(t, i);
    }
  }

  /** In a table with distinct keys, the count stored at a position is the
      count looked up by its key. */
  lemma {:induction false} LookupAt<K>(t: seq<(K, nat)>, i: nat)
    requires NoDup(KeysOf(t)) && i < |t|
    ensures Lookup(t, t[i].0) == t[i].1
  {
    if i > 0 {
      assert KeysOf(t)[0] != KeysOf(t)[i];
      assert NoDup(KeysOf(t[1..])) by {
        forall a, b | 0 <= a < b < |t| - 1 ensures KeysOf(t[1..])[a] != KeysOf(t[1..])[b] {
          assert KeysOf(t)[a + 1] != KeysOf(t)[b + 1];
        }
      }
      LookupAt(t[1..], i - 1);
    }
  }

  /** The count of a pair, the key the table is sorted by. */
  function Count<K>(p: (K, nat)): int
  {
    p.1
  }

  /** `Object.entries(table).sort((a, b) => b[1] - a[1])`. */
  function SortByCountDesc<K>(t: seq<(K, nat)>): seq<(K, nat)>
  {
    SortDesc(t, Count)
  }

  lemma {:induction false} TotalAppend<K>(a: seq<(K, nat)>, b: seq<(K, nat)>)
    ensures Total(a + b) == Total(a) + Total(b)
  {
    if a != [] {
      assert (a + b)[1..] == a[1..] + b;
      TotalAppend(a[1..], b);
    } else {
      assert a + b == b;
    }
  }

  /** Removing the element at `j` removes one occurrence of it. */
  lemma RemoveAtMultiset<T>(b: seq<T>, j: int)
    requires 0 <= j < |b|
    ensures multiset(b[..j] + b[j + 1..]) == multiset(b) - multiset{b[j]}
  {
    assert b == b[..j] + [b[j]] + b[j + 1..];
    assert multiset(b) == multiset(b[..j]) + multiset{b[j]} + multiset(b[j + 1..]);
  }

  /** The total is the count at `j` plus the total of the other pairs. */
  lemma TotalRemoveAt<K>(b: seq<(K, nat)>, j: int)
    requires 0 <= j < |b|
    ensures Total(b) == b[j].1 + Total(b[..j] + b[j + 1..])
  {
    var p, y, q := b[..j], b[j], b[j + 1..];
    assert b == p + [y] + q;
    TotalAppend(p + [y], q);
    TotalAppend(p, [y]);
    TotalAppend(p, q);
    assert [y][1..] == b[..0];
    assert Total([y]) == y.1;
  }

  /** Reordering a table keeps its total. */
  lemma {:induction false} TotalPermutation<K>(a: seq<(K, nat)>, b: seq<(K, nat)>)
    requires multiset(a) == multiset(b)
    ensures Total(a) == Total(b)
    decreases |a|
  {
    if a == [] {
      assert |multiset(b)| == 0;
    } else {
      var x := a[0];
      assert x in multiset(b);
      var j :| 0 <= j < |b| && b[j] == x;
      var rest := b[..j] + b[j + 1..];
      RemoveAtMultiset(b, j);
      TotalRemoveAt(b, j);
      assert a == [x] + a[1..];
      assert multiset(a) == multiset{x} + multiset(a[1..]);
      TotalPermutation(a[1..], rest);
    }
  }

  /** A counted and sorted table: counts in non-increasing order, each pair
      holding an element and its number of occurrences, every element of the
      sequence present, and the counts adding up to its length. */
  lemma {:induction false} SortedCountsSpec<K>(xs: seq<K>)
    ensures SortedDesc(SortByCountDesc(CountAll(xs)), Count)
    ensures forall i :: 0 <= i < |SortByCountDesc(CountAll(xs))| ==>
              SortByCountDesc(CountAll(xs))[i].1 == Occurrences(xs, SortByCountDesc(CountAll(xs))[i].0)
    ensures forall x :: x in xs <==> x in KeysOf(SortByCountDesc(CountAll(xs)))
    ensures Total(SortByCountDesc(CountAll(xs))) == |xs|
  {
    var t := CountAll(xs);
    var d := SortByCountDesc(t);
    CountAllSpec(xs);
    DistinctSpec(xs);
    SortSpec(t, Count);
    TotalPermutation(d, t);
    PermutedPairs(d, t);
    PermutedKeys(d, t);
    forall i | 0 <= i < |d| ensures d[i].1 == Occurrences(xs, d[i].0) {
      var j :| 0 <= j < |t| && t[j] == d[i];
      LookupAt(t, j);
    }
  }

  /** Every pair of a reordered table is a pair of the original. */
  lemma PermutedPairs<K>(a: seq<(K, nat)>, b: seq<(K, nat)>)
    requires multiset(a) == multiset(b)
    ensures forall i :: 0 <= i < |a| ==> a[i] in b
  {
    forall i | 0 <= i < |a| ensures a[i] in b {
      assert a[i] in multiset(a);
    }
  }

  /** Reordering a table keeps its keys. */
  lemma PermutedKeys<K>(a: seq<(K, nat)>, b: seq<(K, nat)>)
    requires multiset(a) == multiset(b)
    ensures forall x :: x in KeysOf(a) <==> x in KeysOf(b)
  {
    forall x ensures x in KeysOf(a) ==> x in KeysOf(b) {
      if x in KeysOf(a) {
        var i :| 0 <= i < |a| && a[i].0 == x;
        assert a[i] in multiset(b);
        var j :| 0 <= j < |b| && b[j] == a[i];
        assert KeysOf(b)[j] == x;
      }
    }
    forall x ensures x in KeysOf(b) ==> x in KeysOf(a) {
      if x in KeysOf(b) {
        var j :| 0 <= j < |b| && b[j].0 == x;
        assert b[j] in multiset(a);
        var i :| 0 <= i < |a| && a[i] == b[j];
        assert KeysOf(a)[i] == x;
      }
    }
  }
}
