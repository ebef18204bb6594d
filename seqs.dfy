/** Sequence operations behind the application's `filter`, `includes`,
    `Array.from(new Set(...))` and `filter(...).length` idioms. */
module Seqs {

  /** `r` is `s` with some elements left out, the rest in their original order. */
  ghost predicate Subseq<T>(r: seq<T>, s: seq<T>)
    decreases |s|
  {
    if r == [] then true
    else if s == [] then false
    else if r[0] == s[0] then Subseq(r[1..], s[1..])
    else Subseq(r, s[1..])
  }

  /** `s.filter(p)`. */
  function Filter<T>(s: seq<T>, p: T -> bool): (r: seq<T>)
    ensures |r| <= |s|
    ensures forall i :: 0 <= i < |r| ==> r[i] in s && p(r[i])
    ensures forall i :: 0 <= i < |s| && p(s[i]) ==> s[i] in r
  {
    if s == [] then []
    else if p(s[0]) then [s[0]] + Filter(s[1..], p)
    else Filter(s[1..], p)
  }

  lemma {:induction false} FilterIsSubseq<T>(s: seq<T>, p: T -> bool)
    ensures Subseq(Filter(s, p), s)
  {
    if s != [] {
      FilterIsSubseq(s[1..], p);
      if !p(s[0]) {
        SubseqSkip(Filter(s[1..], p), s[0], s[1..]);
      }
    }
  }

  /** Every sequence is a subsequence of itself. */
  lemma {:induction false} SubseqReflexive<T>(s: seq<T>)
    ensures Subseq(s, s)
  {
    if s != [] {
      SubseqReflexive(s[1..]);
    }
  }

  /** Putting one more element in front of the longer sequence keeps the relation. */
  lemma {:induction false} SubseqSkip<T>(r: seq<T>, x: T, s: seq<T>)
    requires Subseq(r, s)
    ensures Subseq(r, [x] + s)
    decreases |s|, 1
  {
    if r != [] && r[0] == x {
      SubseqDropFirst(r, s);
      assert ([x] + s)[1..] == s;
    } else if r != [] {
      assert ([x] + s)[1..] == s;
    }
  }

  /** Leaving out the first element of the shorter sequence keeps the relation. */
  lemma {:induction false} SubseqDropFirst<T>(r: seq<T>, s: seq<T>)
    requires r != [] && Subseq(r, s)
    ensures Subseq(r[1..], s)
    decreases |s|, 0
  {
    if r[0] == s[0] {
      SubseqSkip(r[1..], s[0], s[1..]);
      assert [s[0]] + s[1..] == s;
    } else {
      SubseqDropFirst(r, s[1..]);
      SubseqSkip(r[1..], s[0], s[1..]);
      assert [s[0]] + s[1..] == s;
    }
  }

  lemma {:induction false} FilterAppend<T>(a: seq<T>, b: seq<T>, p: T -> bool)
    ensures Filter(a + b, p) == Filter(a, p) + Filter(b, p)
  {
    if a != [] {
      assert (a + b)[0] == a[0];
      assert (a + b)[1..] == a[1..] + b;
      FilterAppend(a[1..], b, p);
      if p(a[0]) {
        assert Filter(a + b, p) == [a[0]] + Filter(a[1..] + b, p);
        assert Filter(a, p) == [a[0]] + Filter(a[1..], p);
      } else {
        assert Filter(a + b, p) == Filter(a[1..] + b, p);
        assert Filter(a, p) == Filter(a[1..], p);
      }
    } else {
      assert a + b == b;
    }
  }

  /** Filtering a prefix gives a prefix of the filtered sequence. */
  lemma {:induction false} FilterTake<T>(s: seq<T>, n: nat, p: T -> bool)
    requires n <= |s|
    ensures Filter(s[..n], p) <= Filter(s, p)
  {
    assert s == s[..n] + s[n..];
    FilterAppend(s[..n], s[n..], p);
  }

  /** A stricter condition keeps a subsequence of what a weaker one keeps. */
  lemma {:induction false} FilterWeaker<T>(s: seq<T>, p: T -> bool, q: T -> bool)
    requires forall x :: p(x) ==> q(x)
    ensures Subseq(Filter(s, p), Filter(s, q))
  {
    if s != [] {
      FilterWeaker(s[1..], p, q);
      if !p(s[0]) && q(s[0]) {
        SubseqSkip(Filter(s[1..], p), s[0], Filter(s[1..], q));
      }
    }
  }

  /** Filtering twice is filtering once by both conditions: consecutive
      filters are conjunctive. */
  lemma {:induction false} FilterFilter<T>(s: seq<T>, p: T -> bool, q: T -> bool)
    ensures Filter(Filter(s, p), q) == Filter(s, x => p(x) && q(x))
  {
    if s != [] {
      FilterFilter(s[1..], p, q);
    }
  }

  lemma {:induction false} FilterKeepsAll<T>(s: seq<T>, p: T -> bool)
    requires forall i :: 0 <= i < |s| ==> p(s[i])
    ensures Filter(s, p) == s
  {
    if s != [] {
      FilterKeepsAll(s[1..], p);
    }
  }

  /** Two conditions that agree on every element filter alike. */
  lemma {:induction false} FilterCongruent<T>(s: seq<T>, p: T -> bool, q: T -> bool)
    requires forall i :: 0 <= i < |s| ==> p(s[i]) == q(s[i])
    ensures Filter(s, p) == Filter(s, q)
  {
    if s != [] {
      FilterCongruent(s[1..], p, q);
    }
  }

  /** Filtering only when `c` holds is filtering by `!c || p`. */
  lemma FilterWhen<T>(s: seq<T>, c: bool, p: T -> bool)
    ensures (if c then Filter(s, p) else s) == Filter(s, x => !c || p(x))
  {
    if c {
      FilterCongruent(s, p, x => !c || p(x));
    } else {
      FilterKeepsAll(s, x => !c || p(x));
    }
  }

  /** Filtering an already filtered sequence, only when `c` holds, is
      filtering once by both conditions. */
  lemma {:induction false} FilterThen<T>(s: seq<T>, q: T -> bool, c: bool, p: T -> bool, both: T -> bool)
    requires forall x :: both(x) == (q(x) && (!c || p(x)))
    ensures (if c then Filter(Filter(s, q), p) else Filter(s, q)) == Filter(s, both)
  {
    if s != [] {
      FilterThen(s[1..], q, c, p, both);
    }
  }

  /** Three filters applied one after the other, each only when its switch is
      on, keep exactly the elements that pass every switched-on filter. */
  lemma FilterStages<T>(s: seq<T>, c1: bool, p1: T -> bool, c2: bool, p2: T -> bool,
                        c3: bool, p3: T -> bool, all: T -> bool)
    requires forall x :: all(x) == ((!c1 || p1(x)) && (!c2 || p2(x)) && (!c3 || p3(x)))
    ensures (var a := if c1 then Filter(s, p1) else s;
             var b := if c2 then Filter(a, p2) else a;
             if c3 then Filter(b, p3) else b) == Filter(s, all)
  {
    var q1 := x => !c1 || p1(x);
    var q12 := x => q1(x) && (!c2 || p2(x));
    FilterWhen(s, c1, p1);
    FilterThen(s, q1, c2, p2, q12);
    FilterThen(s, q12, c3, p3, all);
  }

  /** Number of elements satisfying `p`: `s.filter(p).length`. */
  function CountWhere<T>(s: seq<T>, p: T -> bool): (n: nat)
    ensures n <= |s|
    ensures n == 0 <==> forall i :: 0 <= i < |s| ==> !p(s[i])
    ensures n == |s| <==> forall i :: 0 <= i < |s| ==> p(s[i])
  {
    if s == [] then 0
    else (if p(s[0]) then 1 else 0) + CountWhere(s[1..], p)
  }

  lemma {:induction false} CountIsFilterLength<T>(s: seq<T>, p: T -> bool)
    ensures CountWhere(s, p) == |Filter(s, p)|
  {
    if s != [] {
      CountIsFilterLength(s[1..], p);
    }
  }

  lemma {:induction false} CountAppend<T>(a: seq<T>, b: seq<T>, p: T -> bool)
    ensures CountWhere(a + b, p) == CountWhere(a, p) + CountWhere(b, p)
  {
    if a != [] {
      assert (a + b)[1..] == a[1..] + b;
      CountAppend(a[1..], b, p);
    } else {
      assert a + b == b;
    }
  }

  /** Number of times `x` occurs in `s`. */
  function Occurrences<T(==)>(s: seq<T>, x: T): (n: nat)
    ensures n <= |s|
    ensures n > 0 <==> x in s
  {
    if s == [] then 0
    else (if s[0] == x then 1 else 0) + Occurrences(s[1..], x)
  }

  lemma {:induction false} OccurrencesAppend<T>(a: seq<T>, b: seq<T>, x: T)
    ensures Occurrences(a + b, x) == Occurrences(a, x) + Occurrences(b, x)
  {
    if a != [] {
      assert (a + b)[1..] == a[1..] + b;
      OccurrencesAppend(a[1..], b, x);
    } else {
      assert a + b == b;
    }
  }

  /** `s.filter(y => y !== x)`. */
  function RemoveAll<T(==)>(s: seq<T>, x: T): (r: seq<T>)
    ensures x !in r
    ensures forall i :: 0 <= i < |r| ==> r[i] in s
    ensures forall i :: 0 <= i < |s| && s[i] != x ==> s[i] in r
  {
    Filter(s, y => y != x)
  }

  /** No element occurs twice. */
  predicate NoDup<T(==)>(s: seq<T>)
  {
    forall i, j :: 0 <= i < j < |s| ==> s[i] != s[j]
  }

  /** Appending an absent element keeps a sequence duplicate-free. */
  lemma NoDupSnoc<T>(s: seq<T>, x: T)
    requires NoDup(s) && x !in s
    ensures NoDup(s + [x])
  {
    var t := s + [x];
    forall i, j | 0 <= i < j < |t| ensures t[i] != t[j] {
      if j == |s| {
        assert t[i] == s[i];
      }
    }
  }

  /** A subsequence of a duplicate-free sequence is duplicate-free. */
  lemma {:induction false} SubseqNoDup<T>(r: seq<T>, s: seq<T>)
    requires Subseq(r, s) && NoDup(s)
    ensures NoDup(r)
    decreases |s|
  {
    if r != [] && s != [] {
      assert NoDup(s[1..]) by {
        forall i, j | 0 <= i < j < |s| - 1 ensures s[1..][i] != s[1..][j] {
          assert s[i + 1] != s[j + 1];
        }
      }
      if r[0] == s[0] {
        SubseqNoDup(r[1..], s[1..]);
        SubseqMembers(r[1..], s[1..]);
        assert s[0] !in s[1..] by {
          forall k | 0 <= k < |s| - 1 ensures s[1..][k] != s[0] {
            assert s[0] != s[k + 1];
          }
        }
        forall i, j | 0 <= i < j < |r| ensures r[i] != r[j] {
          if i == 0 {
            assert r[j] == r[1..][j - 1];
          } else {
            assert r[i] == r[1..][i - 1] && r[j] == r[1..][j - 1];
          }
        }
      } else {
        SubseqNoDup(r, s[1..]);
      }
    }
  }

  /** Every element of a subsequence is an element of the sequence. */
  lemma {:induction false} SubseqMembers<T>(r: seq<T>, s: seq<T>)
    requires Subseq(r, s)
    ensures forall x :: x in r ==> x in s
    decreases |s|
  {
    if r != [] && s != [] {
      if r[0] == s[0] {
        SubseqMembers(r[1..], s[1..]);
        assert forall x :: x in r ==> x == r[0] || x in r[1..];
      } else {
        SubseqMembers(r, s[1..]);
      }
    }
  }

  /** Removing an element just appended to a sequence without it gives the sequence back. */
  lemma {:induction false} RemoveAllAppendAbsent<T>(s: seq<T>, x: T)
    requires x !in s
    ensures RemoveAll(s + [x], x) == s
  {
    if s == [] {
      assert RemoveAll([x], x) == Filter([x][1..], y => y != x);
    } else {
      assert (s + [x])[1..] == s[1..] + [x];
      RemoveAllAppendAbsent(s[1..], x);
      assert s == [s[0]] + s[1..];
    }
  }

  /** Removing keeps the other elements in order, and a duplicate-free
      sequence stays duplicate-free. */
  lemma RemoveAllSpec<T>(s: seq<T>, x: T)
    ensures Subseq(RemoveAll(s, x), s)
    ensures NoDup(s) ==> NoDup(RemoveAll(s, x))
  {
    FilterIsSubseq(s, y => y != x);
    if NoDup(s) {
      SubseqNoDup(RemoveAll(s, x), s);
    }
  }


  /** Index of the first occurrence of `x` in `s`. */
  function FirstIndex<T(==)>(s: seq<T>, x: T): (k: nat)
    requires x in s
    ensures k < |s| && s[k] == x && x !in s[..k]
  {
    if s[0] == x then 0 else 1 + FirstIndex(s[1..], x)
  }

  /** `Array.from(new Set(s))`: the distinct elements, built by visiting `s`
      from left to right and keeping each element the first time it is seen. */
  function Distinct<T(==)>(s: seq<T>): (r: seq<T>)
    decreases |s|
  {
    if s == [] then []
    else
      var d := Distinct(s[..|s| - 1]);
      if s[|s| - 1] in d then d else d + [s[|s| - 1]]
  }

  /** Each distinct element of `s` appears exactly once, and in the order of
      its first occurrence in `s`. */
  lemma {:induction false} DistinctSpec<T>(s: seq<T>)
    ensures NoDup(Distinct(s))
    ensures forall x :: x in Distinct(s) <==> x in s
    ensures forall i, j :: 0 <= i < j < |Distinct(s)| ==>
              FirstIndex(s, Distinct(s)[i]) < FirstIndex(s, Distinct(s)[j])
    decreases |s|
  {
    if s != [] {
      var init := s[..|s| - 1];
      var x := s[|s| - 1];
      DistinctSpec(init);
      var d := Distinct(init);
      assert s == init + [x];
      forall y | y in init ensures FirstIndex(s, y) == FirstIndex(init, y) {
        FirstIndexPrefix(init, [x], y);
      }
      if x !in d {
        assert x !in init;
        FirstIndexPrefixAbsent(init, x);
      }
    }
  }

  lemma {:induction false} FirstIndexPrefix<T>(a: seq<T>, b: seq<T>, y: T)
    requires y in a
    ensures FirstIndex(a + b, y) == FirstIndex(a, y)
  {
    if a[0] != y {
      assert (a + b)[1..] == a[1..] + b;
      FirstIndexPrefix(a[1..], b, y);
    }
  }

  lemma {:induction false} FirstIndexPrefixAbsent<T>(a: seq<T>, x: T)
    requires x !in a
    ensures FirstIndex(a + [x], x) == |a|
  {
    if a != [] {
      assert (a + [x])[1..] == a[1..] + [x];
      FirstIndexPrefixAbsent(a[1..], x);
    }
  }

  /** `xs.map(f)`. */
  function Map<T, U>(xs: seq<T>, f: T -> U): (r: seq<U>)
    ensures |r| == |xs|
    ensures forall i :: 0 <= i < |xs| ==> r[i] == f(xs[i])
  {
    if xs == [] then [] else [f(xs[0])] + Map(xs[1..], f)
  }

  /** `xss.flat()`: concatenation of the inner sequences in order. */
  function Flatten<T>(xss: seq<seq<T>>): (r: seq<T>)
  {
    if xss == [] then [] else xss[0] + Flatten(xss[1..])
  }

  function TotalLength<T>(xss: seq<seq<T>>): nat
  {
    if xss == [] then 0 else |xss[0]| + TotalLength(xss[1..])
  }

  /** Flattening keeps every element of every inner sequence, and nothing else. */
  lemma {:induction false} FlattenSpec<T>(xss: seq<seq<T>>)
    ensures |Flatten(xss)| == TotalLength(xss)
    ensures forall x :: x in Flatten(xss) <==> exists k :: 0 <= k < |xss| && x in xss[k]
  {
    if xss != [] {
      FlattenSpec(xss[1..]);
      forall x ensures x in Flatten(xss) <==> exists k :: 0 <= k < |xss| && x in xss[k] {
        if x in Flatten(xss[1..]) {
          var k :| 0 <= k < |xss[1..]| && x in xss[1..][k];
          assert x in xss[k + 1];
        }
        if exists k :: 0 <= k < |xss| && x in xss[k] {
          var k :| 0 <= k < |xss| && x in xss[k];
          if k > 0 { assert x in xss[1..][k - 1]; }
        }
      }
    }
  }

  lemma {:induction false} FlattenAppend<T>(a: seq<seq<T>>, b: seq<seq<T>>)
    ensures Flatten(a + b) == Flatten(a) + Flatten(b)
  {
    if a != [] {
      assert (a + b)[1..] == a[1..] + b;
      FlattenAppend(a[1..], b);
    } else {
      assert a + b == b;
    }
  }

  function Sum(xs: seq<int>): int
  {
    if xs == [] then 0 else xs[0] + Sum(xs[1..])
  }

  lemma {:induction false} SumAppend(a: seq<int>, b: seq<int>)
    ensures Sum(a + b) == Sum(a) + Sum(b)
  {
    if a != [] {
      assert (a + b)[1..] == a[1..] + b;
      SumAppend(a[1..], b);
    } else {
      assert a + b == b;
    }
  }

  /** `.slice(0, n)`. */
  function Take<T>(s: seq<T>, n: nat): (r: seq<T>)
    ensures |r| <= n && |r| <= |s|
    ensures r == s[..|r|]
  {
    if |s| <= n then s else s[..n]
  }
}
