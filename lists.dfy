/** `Array.prototype.filter`, `find`, `slice` and `reverse` as the list views use them,
    with the facts every list filter of the dashboard shares. */
module Lists {
  import opened Js

  /** `xs.filter(p)`. */
  function Filter<T>(xs: seq<T>, p: T -> bool): (r: seq<T>)
    ensures |r| <= |xs|
    ensures forall x | x in r :: x in xs && p(x)
    ensures forall x | x in xs && p(x) :: x in r
  {
    if xs == [] then []
    else if p(xs[0]) then [xs[0]] + Filter(xs[1..], p)
    else Filter(xs[1..], p)
  }

  /** `ys` is `xs` with some elements removed and the rest in their original order. */
  predicate IsSubsequence<T(==)>(ys: seq<T>, xs: seq<T>)
    decreases |xs|
  {
    if ys == [] then true
    else if xs == [] then false
    else if ys[0] == xs[0] then IsSubsequence(ys[1..], xs[1..])
    else IsSubsequence(ys, xs[1..])
  }

  /** A filter keeps the order of its input. */
  lemma {:induction false} FilterIsSubsequence<T>(xs: seq<T>, p: T -> bool)
    ensures IsSubsequence(Filter(xs, p), xs)
    decreases |xs|
  {
    if xs != [] {
      FilterIsSubsequence(xs[1..], p);
      if !p(xs[0]) {
        SkipHead(Filter(xs[1..], p), xs);
      }
    }
  }

  /** A filter keeps every occurrence of an element it accepts and none of one
      it rejects; with `FilterIsSubsequence` this fixes the filtered list. */
  lemma {:induction false} FilterCounts<T>(xs: seq<T>, p: T -> bool)
    ensures forall x :: multiset(Filter(xs, p))[x] == if p(x) then multiset(xs)[x] else 0
    decreases |xs|
  {
    if xs != [] {
      FilterCounts(xs[1..], p);
      assert xs == [xs[0]] + xs[1..];
    }
  }

  /** Dropping the head of the longer sequence keeps a subsequence a subsequence. */
  lemma {:induction false} SkipHead<T>(ys: seq<T>, xs: seq<T>)
    requires xs != [] && IsSubsequence(ys, xs[1..])
    ensures IsSubsequence(ys, xs)
    decreases |ys| + |xs|
  {
    if ys != [] && ys[0] == xs[0] {
      SubsequenceTail(ys, xs[1..]);
    }
  }

  /** The tail of a subsequence is a subsequence. */
  lemma {:induction false} SubsequenceTail<T>(ys: seq<T>, xs: seq<T>)
    requires ys != [] && IsSubsequence(ys, xs)
    ensures IsSubsequence(ys[1..], xs)
    decreases |ys| + |xs|
  {
    if xs != [] {
      if ys[0] == xs[0] {
        if ys[1..] != [] {
          SkipHead(ys[1..], xs);
        }
      } else {
        SubsequenceTail(ys, xs[1..]);
        if ys[1..] != [] {
          SkipHead(ys[1..], xs);
        }
      }
    }
  }

  /** A filter whose condition holds everywhere keeps the whole list. */
  lemma {:induction false} FilterAll<T>(xs: seq<T>, p: T -> bool)
    requires forall x | x in xs :: p(x)
    ensures Filter(xs, p) == xs
    decreases |xs|
  {
    if xs != [] {
      assert xs[0] in xs;
      assert forall x | x in xs[1..] :: x in xs;
      FilterAll(xs[1..], p);
    }
  }

  /** Two filters in sequence are one filter on the conjunction. */
  lemma {:induction false} FilterFilter<T>(xs: seq<T>, p: T -> bool, q: T -> bool)
    ensures Filter(Filter(xs, p), q) == Filter(xs, x => p(x) && q(x))
    decreases |xs|
  {
    if xs != [] {
      FilterFilter(xs[1..], p, q);
    }
  }

  /** Filters with the same verdict on every element give the same list. */
  lemma {:induction false} FilterCongruent<T>(xs: seq<T>, p: T -> bool, q: T -> bool)
    requires forall x | x in xs :: p(x) == q(x)
    ensures Filter(xs, p) == Filter(xs, q)
    decreases |xs|
  {
    if xs != [] {
      assert xs[0] in xs;
      assert forall x | x in xs[1..] :: x in xs;
      FilterCongruent(xs[1..], p, q);
    }
  }

  /** Filtering a concatenation filters each part. */
  lemma {:induction false} FilterAppend<T>(xs: seq<T>, ys: seq<T>, p: T -> bool)
    ensures Filter(xs + ys, p) == Filter(xs, p) + Filter(ys, p)
    decreases |xs|
  {
    if xs == [] {
      assert xs + ys == ys;
    } else {
      assert (xs + ys)[0] == xs[0] && (xs + ys)[1..] == xs[1..] + ys;
      FilterAppend(xs[1..], ys, p);
    }
  }

  /** A filter that rejects some element is shorter than its input. */
  lemma {:induction false} FilterMissing<T>(xs: seq<T>, p: T -> bool, x: T)
    requires x in xs && !p(x)
    ensures |Filter(xs, p)| < |xs|
    decreases |xs|
  {
    if xs[0] != x {
      FilterMissing(xs[1..], p, x);
    }
  }

  /** `xs.filter(p).length`. */
  function Count<T>(xs: seq<T>, p: T -> bool): (n: nat)
    ensures n == |Filter(xs, p)|
    ensures n <= |xs|
  {
    if xs == [] then 0 else (if p(xs[0]) then 1 else 0) + Count(xs[1..], p)
  }

  /** `xs.find(p)`: the first element satisfying p. */
  function Find<T>(xs: seq<T>, p: T -> bool): (r: Option<T>)
    ensures r.Some? ==> r.value in xs && p(r.value)
    ensures r.None? ==> forall x | x in xs :: !p(x)
    ensures r.Some? ==> exists i | 0 <= i < |xs| :: xs[i] == r.value && forall j | 0 <= j < i :: !p(xs[j])
  {
    if xs == [] then None
    else if p(xs[0]) then Some(xs[0])
    else
      var r := Find(xs[1..], p);
      if r.Some? then
        ghost var i :| 0 <= i < |xs[1..]| && xs[1..][i] == r.value && forall j | 0 <= j < i :: !p(xs[1..][j]);
        assert xs[i + 1] == r.value && forall j | 0 <= j < i + 1 :: !p(xs[j]);
        r
      else r
  }

  /** The element `find` returns is the one at the first position satisfying p. */
  lemma FindFirst<T>(xs: seq<T>, p: T -> bool, k: nat)
    requires k < |xs| && p(xs[k]) && forall j | 0 <= j < k :: !p(xs[j])
    ensures Find(xs, p) == Some(xs[k])
  {
    var r := Find(xs, p);
    assert xs[k] in xs;
    var i :| 0 <= i < |xs| && xs[i] == r.value && forall j | 0 <= j < i :: !p(xs[j]);
  }

  /** `xs.slice(0, n)` for a non-negative n. */
  function Take<T>(xs: seq<T>, n: nat): (r: seq<T>)
    ensures |r| == if n < |xs| then n else |xs|
    ensures r <= xs
  {
    if n < |xs| then xs[..n] else xs
  }

  /** `xs.reverse()` on a copy. */
  function Reverse<T>(xs: seq<T>): (r: seq<T>)
    ensures |r| == |xs|
    ensures forall i | 0 <= i < |xs| :: r[i] == xs[|xs| - 1 - i]
  {
    if xs == [] then [] else Reverse(xs[1..]) + [xs[0]]
  }

  /** `xs.map(f)`. */
  function Map<T, U>(xs: seq<T>, f: T -> U): (r: seq<U>)
    ensures |r| == |xs|
    ensures forall i | 0 <= i < |xs| :: r[i] == f(xs[i])
  {
    if xs == [] then [] else [f(xs[0])] + Map(xs[1..], f)
  }

  /** Where the parts of a three-part concatenation land. */
  lemma Concat3<T>(a: seq<T>, b: seq<T>, c: seq<T>)
    ensures |a + b + c| == |a| + |b| + |c|
    ensures forall i | |a| <= i < |a| + |b| :: (a + b + c)[i] == b[i - |a|]
    ensures forall i | |a| + |b| <= i < |a + b + c| :: (a + b + c)[i] == c[i - |a| - |b|]
    ensures forall x | x in a + b + c :: x in a || x in b || x in c
  {
  }

  /** Counting by a condition and by its negation adds up to the length. */
  lemma {:induction false} CountComplement<T>(xs: seq<T>, p: T -> bool, q: T -> bool)
    requires forall x | x in xs :: q(x) == !p(x)
    ensures Count(xs, p) + Count(xs, q) == |xs|
    decreases |xs|
  {
    if xs != [] {
      assert xs[0] in xs;
      assert forall x | x in xs[1..] :: x in xs;
      CountComplement(xs[1..], p, q);
    }
  }

  // ---------------------------------------------------------------------
  // `Array.prototype.sort` with a numeric comparator `(a, b) => key(a) - key(b)`

  predicate SortedBy<T>(xs: seq<T>, key: T -> int)
  {
    forall i, j | 0 <= i < j < |xs| :: key(xs[i]) <= key(xs[j])
  }

  /** Inserts x in front of the first element whose key is not smaller. */
  function InsertBy<T(==)>(x: T, xs: seq<T>, key: T -> int): (r: seq<T>)
    requires SortedBy(xs, key)
    ensures |r| == |xs| + 1
    ensures forall y | y in r :: y == x || y in xs
    ensures SortedBy(r, key)
    ensures multiset(r) == multiset(xs) + multiset{x}
    decreases |xs|
  {
    if xs == [] || key(x) <= key(xs[0]) then
      ConsSorted(x, xs, key);
      [x] + xs
    else
      var rest := InsertBy(x, xs[1..], key);
      HeadBelow(xs, x, rest, key);
      ConsSorted(xs[0], rest, key);
      assert xs == [xs[0]] + xs[1..];
      [xs[0]] + rest
  }

  /** A key no larger than every key of a sorted list can go in front of it. */
  lemma ConsSorted<T>(a: T, xs: seq<T>, key: T -> int)
    requires SortedBy(xs, key)
    requires xs == [] || key(a) <= key(xs[0])
    ensures SortedBy([a] + xs, key)
  {
    var r := [a] + xs;
    forall i, j | 0 <= i < j < |r| ensures key(r[i]) <= key(r[j]) {
      if i == 0 {
        assert r[j] == xs[j - 1] && key(xs[0]) <= key(xs[j - 1]);
      } else {
        assert r[i] == xs[i - 1] && r[j] == xs[j - 1];
      }
    }
  }

  /** The head of a sorted list is no larger than anything inserted behind it. */
  lemma HeadBelow<T>(xs: seq<T>, x: T, rest: seq<T>, key: T -> int)
    requires SortedBy(xs, key) && xs != [] && key(xs[0]) < key(x)
    requires forall y | y in rest :: y == x || y in xs[1..]
    ensures rest == [] || key(xs[0]) <= key(rest[0])
  {
    if rest != [] {
      var y := rest[0];
      assert y in rest;
      if y != x {
        var k :| 0 <= k < |xs[1..]| && xs[1..][k] == y;
        assert xs[k + 1] == y;
      }
    }
  }

  /** `sort` with a numeric comparator, as insertion sort; `SortByStable`
      shows that elements with equal keys keep their relative order. */
  function SortBy<T(==)>(xs: seq<T>, key: T -> int): (r: seq<T>)
    ensures |r| == |xs|
    ensures SortedBy(r, key)
    ensures multiset(r) == multiset(xs)
    decreases |xs|
  {
    if xs == [] then []
    else
      assert xs == [xs[0]] + xs[1..];
      InsertBy(xs[0], SortBy(xs[1..], key), key)
  }

  /** The elements whose key is k. */
  function KeyIs<T>(key: T -> int, k: int): T -> bool
  {
    x => key(x) == k
  }

  /** The sort is stable: the elements with any one key come out in the
      order they went in. */
  lemma {:induction false} SortByStable<T>(xs: seq<T>, key: T -> int, k: int)
    ensures Filter(SortBy(xs, key), KeyIs(key, k)) == Filter(xs, KeyIs(key, k))
    decreases |xs|
  {
    if xs != [] {
      SortByStable(xs[1..], key, k);
      InsertKeepsKeyOrder(xs[0], SortBy(xs[1..], key), key, k);
    }
  }

  /** Inserting x puts it in front of every element with the same key. */
  lemma {:induction false} InsertKeepsKeyOrder<T>(x: T, xs: seq<T>, key: T -> int, k: int)
    requires SortedBy(xs, key)
    ensures Filter(InsertBy(x, xs, key), KeyIs(key, k))
         == (if key(x) == k then [x] else []) + Filter(xs, KeyIs(key, k))
    decreases |xs|
  {
    if xs == [] || key(x) <= key(xs[0]) {
      assert ([x] + xs)[1..] == xs;
    } else {
      var rest := InsertBy(x, xs[1..], key);
      InsertKeepsKeyOrder(x, xs[1..], key, k);
      assert ([xs[0]] + rest)[1..] == rest;
    }
  }

  /** The first n elements of the sorted list are the n smallest: every element
      left out has a key no smaller than any element kept. */
  lemma Smallest<T>(xs: seq<T>, key: T -> int, n: nat)
    ensures var r := Take(SortBy(xs, key), n);
      SortedBy(r, key) && multiset(r) <= multiset(xs)
      && |r| == (if n < |xs| then n else |xs|)
      && forall x, y | x in multiset(xs) - multiset(r) && y in r :: key(y) <= key(x)
  {
    var s := SortBy(xs, key);
    var r := Take(s, n);
    var rest := s[|r|..];
    assert s == r + rest;
    assert SortedBy(r, key) by {
      forall i, j | 0 <= i < j < |r| ensures key(r[i]) <= key(r[j]) {
        assert r[i] == s[i] && r[j] == s[j];
      }
    }
    assert multiset(xs) == multiset(r) + multiset(rest) by {
      assert multiset(s) == multiset(r + rest);
    }
    forall x, y | x in multiset(xs) - multiset(r) && y in r
      ensures key(y) <= key(x)
    {
      LeftOut(r, rest, x);
      KeptBelowLeft(s, key, r, rest, x, y);
    }
  }

  /** In a sorted list split in two, every element of the front part is no
      larger than any element of the back part. */
  lemma KeptBelowLeft<T>(s: seq<T>, key: T -> int, r: seq<T>, rest: seq<T>, x: T, y: T)
    requires SortedBy(s, key) && s == r + rest
    requires x in rest && y in r
    ensures key(y) <= key(x)
  {
    var j :| 0 <= j < |rest| && rest[j] == x;
    var i :| 0 <= i < |r| && r[i] == y;
    assert s[i] == y && s[|r| + j] == x;
  }

  lemma LeftOut<T>(r: seq<T>, rest: seq<T>, x: T)
    requires x in multiset(r + rest) - multiset(r)
    ensures x in rest
  {
    assert multiset(r + rest) == multiset(r) + multiset(rest);
    assert x in multiset(rest);
  }
}
