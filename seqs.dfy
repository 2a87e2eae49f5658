/** Sequence operations that the JavaScript array methods `filter`, `find`,
    `slice(0, n)`, `sort` (with a numeric comparator) and `new Set(...)`
    stand for, each with the properties the rest of the model relies on. */
module Seqs {
  import opened Wrappers

  // ---------------------------------------------------------------------
  // Subsequences, distinctness, first occurrence

  /** `a` is obtained from `b` by deleting elements, keeping the order. */
  predicate IsSubseq<T(==)>(a: seq<T>, b: seq<T>)
    decreases |b|
  {
    a == [] || (b != [] && if a[0] == b[0] then IsSubseq(a[1..], b[1..]) else IsSubseq(a, b[1..]))
  }

  /** Dropping the first element of a subsequence leaves a subsequence. */
  lemma {:induction false} IsSubseqTail<T>(a: seq<T>, b: seq<T>)
    requires a != [] && IsSubseq(a, b)
    ensures IsSubseq(a[1..], b)
    decreases |b|
  {
    if a[0] == b[0] {
      if |a| > 1 && a[1] == b[0] {
        IsSubseqTail(a[1..], b[1..]);
        assert a[1..][1..] == a[2..];
      }
    } else {
      IsSubseqTail(a, b[1..]);
      if |a| > 1 && a[1] == b[0] {
        IsSubseqTail(a[1..], b[1..]);
        assert a[1..][1..] == a[2..];
      }
    }
  }

  /** Being a subsequence is transitive. */
  lemma {:induction false} IsSubseqTrans<T>(a: seq<T>, b: seq<T>, c: seq<T>)
    requires IsSubseq(a, b) && IsSubseq(b, c)
    ensures IsSubseq(a, c)
    decreases |c|
  {
    if a != [] {
      if b[0] == c[0] {
        if a[0] == b[0] {
          IsSubseqTrans(a[1..], b[1..], c[1..]);
        } else {
          IsSubseqTrans(a, b[1..], c[1..]);
        }
      } else {
        IsSubseqTrans(a, b, c[1..]);
        if a[0] == c[0] {
          IsSubseqTail(a, c[1..]);
        }
      }
    }
  }

  /** No element occurs twice. */
  predicate Distinct<T(==)>(s: seq<T>) {
    forall i, j :: 0 <= i < j < |s| ==> s[i] != s[j]
  }

  /** The position of the first occurrence of `x` in `s`. */
  function IndexOf<T(==)>(s: seq<T>, x: T): (i: nat)
    requires x in s
    ensures i < |s| && s[i] == x
    ensures forall j :: 0 <= j < i ==> s[j] != x
  {
    if s[0] == x then 0 else 1 + IndexOf(s[1..], x)
  }

  lemma {:induction false} IndexOfAppend<T>(s: seq<T>, y: T, x: T)
    requires x in s
    ensures x in s + [y] && IndexOf(s + [y], x) == IndexOf(s, x)
  {
    if s[0] != x {
      assert (s + [y])[1..] == s[1..] + [y];
      IndexOfAppend(s[1..], y, x);
    }
  }

  // ---------------------------------------------------------------------
  // filter

  /** `s.filter(p)`: the elements of `s` that satisfy `p`, in order. */
  function Filter<T(==,!new)>(s: seq<T>, p: T -> bool): (r: seq<T>)
    ensures |r| <= |s|
    ensures forall x :: x in r <==> x in s && p(x)
  {
    if s == [] then []
    else if p(s[0]) then [s[0]] + Filter(s[1..], p)
    else Filter(s[1..], p)
  }

  /** The filter keeps the order of the elements it keeps. */
  lemma {:induction false} FilterIsSubseq<T(!new)>(s: seq<T>, p: T -> bool)
    ensures IsSubseq(Filter(s, p), s)
  {
    if s != [] {
      FilterIsSubseq(s[1..], p);
      if p(s[0]) {
        assert ([s[0]] + Filter(s[1..], p))[1..] == Filter(s[1..], p);
      }
    }
  }

  lemma FilterCons<T(!new)>(x: T, s: seq<T>, p: T -> bool)
    ensures Filter([x] + s, p) == (if p(x) then [x] else []) + Filter(s, p)
  {
    assert ([x] + s)[1..] == s;
  }

  /** Filtering distributes over concatenation. */
  lemma {:induction false} FilterAppend<T(!new)>(a: seq<T>, b: seq<T>, p: T -> bool)
    ensures Filter(a + b, p) == Filter(a, p) + Filter(b, p)
  {
    if a == [] {
      assert a + b == b;
    } else {
      assert (a + b)[0] == a[0];
      assert (a + b)[1..] == a[1..] + b;
      FilterAppend(a[1..], b, p);
    }
  }

  /** Two filters in a row keep what satisfies both predicates. */
  lemma {:induction false} FilterTwice<T(!new)>(s: seq<T>, p: T -> bool, q: T -> bool)
    ensures Filter(Filter(s, p), q) == Filter(s, x => p(x) && q(x))
  {
    if s != [] {
      assert s == [s[0]] + s[1..];
      FilterCons(s[0], s[1..], p);
      FilterCons(s[0], s[1..], x => p(x) && q(x));
      FilterTwice(s[1..], p, q);
      if p(s[0]) {
        FilterCons(s[0], Filter(s[1..], p), q);
      }
    }
  }

  /** A filter that every element passes changes nothing. */
  lemma {:induction false} FilterAll<T(!new)>(s: seq<T>, p: T -> bool)
    requires forall i :: 0 <= i < |s| ==> p(s[i])
    ensures Filter(s, p) == s
  {
    if s != [] {
      assert forall i :: 0 <= i < |s[1..]| ==> p(s[1..][i]) by {
        forall i | 0 <= i < |s[1..]| ensures p(s[1..][i]) { assert s[1..][i] == s[i + 1]; }
      }
      FilterAll(s[1..], p);
      assert s == [s[0]] + s[1..];
    }
  }

  /** Determines `Filter(s, p)` from the positions of the elements that pass:
      `idx` lists them in increasing order and `r` holds the elements there. */
  lemma FilterByIndex<T(!new)>(s: seq<T>, p: T -> bool, idx: seq<int>, r: seq<T>)
    requires |idx| == |r|
    requires forall m :: 0 <= m < |idx| ==> 0 <= idx[m] < |s| && s[idx[m]] == r[m] && p(r[m])
    requires forall m, n :: 0 <= m < n < |idx| ==> idx[m] < idx[n]
    requires forall i :: 0 <= i < |s| && p(s[i]) ==> i in idx
    ensures Filter(s, p) == r
  {
    FilterFrom(s, p, 0, idx, r);
  }

  /** When the elements that pass are exactly those in `s[lo..hi]`, the
      filter returns that slice. */
  lemma {:induction false} FilterSlice<T(!new)>(s: seq<T>, p: T -> bool, lo: int, hi: int)
    requires 0 <= lo <= hi <= |s|
    requires forall i :: 0 <= i < |s| ==> (p(s[i]) <==> lo <= i < hi)
    ensures Filter(s, p) == s[lo..hi]
  {
    if hi == 0 {
      FilterNone(s, p);
    } else {
      var t := s[1..];
      var lo', hi' := if lo == 0 then 0 else lo - 1, hi - 1;
      forall i | 0 <= i < |t| ensures p(t[i]) <==> lo' <= i < hi' {
        assert t[i] == s[i + 1];
      }
      FilterSlice(t, p, lo', hi');
      if lo == 0 {
        assert p(s[0]) && Filter(s, p) == [s[0]] + Filter(t, p);
        SliceCons(s, hi);
      } else {
        assert !p(s[0]) && Filter(s, p) == Filter(t, p);
        SliceDrop(s, lo, hi);
      }
    }
  }

  /** The two halves of a concatenation. */
  lemma AppendParts<T>(a: seq<T>, b: seq<T>)
    ensures |a + b| == |a| + |b| && (a + b)[..|a|] == a && (a + b)[|a|..] == b
  {
  }

  lemma SliceCons<T>(s: seq<T>, hi: int)
    requires 0 < hi <= |s|
    ensures s[0..hi] == [s[0]] + s[1..][0..hi - 1]
  {
  }

  lemma SliceDrop<T>(s: seq<T>, lo: int, hi: int)
    requires 0 < lo <= hi <= |s|
    ensures s[1..][lo - 1..hi - 1] == s[lo..hi]
  {
  }

  /** A filter that nothing passes returns the empty sequence. */
  lemma FilterNone<T(!new)>(s: seq<T>, p: T -> bool)
    requires forall i :: 0 <= i < |s| ==> !p(s[i])
    ensures Filter(s, p) == []
  {
    FilterByIndex(s, p, [], []);
  }

  /** The positions `idx`, all at or after `lo`, are those in `s[lo..]` where
      `p` holds, and `r` lists the elements there. */
  ghost predicate MatchesFrom<T>(s: seq<T>, p: T -> bool, lo: nat, idx: seq<int>, r: seq<T>) {
    && lo <= |s| && |idx| == |r|
    && (forall m :: 0 <= m < |idx| ==> lo <= idx[m] < |s| && s[idx[m]] == r[m] && p(r[m]))
    && (forall m, n :: 0 <= m < n < |idx| ==> idx[m] < idx[n])
    && (forall i :: lo <= i < |s| && p(s[i]) ==> i in idx)
  }

  lemma MatchesFromHit<T>(s: seq<T>, p: T -> bool, lo: nat, idx: seq<int>, r: seq<T>)
    requires MatchesFrom(s, p, lo, idx, r) && lo < |s| && p(s[lo])
    ensures |idx| > 0 && idx[0] == lo && r[0] == s[lo]
    ensures MatchesFrom(s, p, lo + 1, idx[1..], r[1..])
  {
    assert lo in idx;
    var m0 :| 0 <= m0 < |idx| && idx[m0] == lo;
    assert idx[0] <= idx[m0];
    var idx', r' := idx[1..], r[1..];
    forall m | 0 <= m < |idx'|
      ensures lo + 1 <= idx'[m] < |s| && s[idx'[m]] == r'[m] && p(r'[m])
    {
      assert idx[0] < idx[m + 1] && idx'[m] == idx[m + 1] && r'[m] == r[m + 1];
    }
    forall m, n | 0 <= m < n < |idx'| ensures idx'[m] < idx'[n] {
      assert idx'[m] == idx[m + 1] && idx'[n] == idx[n + 1];
    }
    forall i | lo + 1 <= i < |s| && p(s[i]) ensures i in idx' {
      var m :| 0 <= m < |idx| && idx[m] == i;
      assert m != 0 && idx'[m - 1] == i;
    }
  }

  lemma MatchesFromMiss<T>(s: seq<T>, p: T -> bool, lo: nat, idx: seq<int>, r: seq<T>)
    requires MatchesFrom(s, p, lo, idx, r) && lo < |s| && !p(s[lo])
    ensures MatchesFrom(s, p, lo + 1, idx, r)
  {
    forall m | 0 <= m < |idx| ensures lo + 1 <= idx[m] {
      assert idx[m] != lo;
    }
  }

  lemma {:induction false} FilterFrom<T(!new)>(s: seq<T>, p: T -> bool, lo: nat, idx: seq<int>, r: seq<T>)
    requires MatchesFrom(s, p, lo, idx, r)
    ensures Filter(s[lo..], p) == r
    decreases |s| - lo
  {
    if lo < |s| {
      assert s[lo..] == [s[lo]] + s[lo + 1..];
      FilterCons(s[lo], s[lo + 1..], p);
      if p(s[lo]) {
        MatchesFromHit(s, p, lo, idx, r);
        FilterFrom(s, p, lo + 1, idx[1..], r[1..]);
        assert r == [r[0]] + r[1..];
      } else {
        MatchesFromMiss(s, p, lo, idx, r);
        FilterFrom(s, p, lo + 1, idx, r);
      }
    }
  }

  // ---------------------------------------------------------------------
  // find

  /** `s.find(p)`: the first element that satisfies `p`, if any. */
  function Find<T>(s: seq<T>, p: T -> bool): (r: Option<T>)
    ensures r.None? <==> forall i :: 0 <= i < |s| ==> !p(s[i])
    ensures r.Some? ==> r.value in s && p(r.value)
  {
    if s == [] then None
    else if p(s[0]) then Some(s[0])
    else
      assert forall i :: 1 <= i < |s| ==> s[i] == s[1..][i - 1];
      Find(s[1..], p)
  }

  /** `Find` returns the element at the first position that satisfies `p`. */
  lemma {:induction false} FindAt<T>(s: seq<T>, p: T -> bool, k: int)
    requires 0 <= k < |s| && p(s[k])
    requires forall i :: 0 <= i < k ==> !p(s[i])
    ensures Find(s, p) == Some(s[k])
  {
    if k > 0 {
      assert !p(s[0]);
      assert s[1..][k - 1] == s[k];
      FindAt(s[1..], p, k - 1);
    }
  }

  // ---------------------------------------------------------------------
  // slice(0, end)

  /** The end index that `Array.prototype.slice(0, end)` uses on an array of
      length `len`: a negative `end` counts back from the end. */
  function SliceEnd(len: nat, end: int): (e: nat)
    ensures e <= len
  {
    if end < 0 then (if len + end < 0 then 0 else len + end)
    else if end < len then end
    else len
  }

  /** `s.slice(0, end)`. */
  function Take<T>(s: seq<T>, end: int): (r: seq<T>)
    ensures |r| == SliceEnd(|s|, end) && r == s[..|r|]
  {
    s[..SliceEnd(|s|, end)]
  }

  // ---------------------------------------------------------------------
  // Stable sort by an integer key

  /** Non-decreasing by `key`. */
  predicate SortedBy<T>(s: seq<T>, key: T -> int) {
    forall i, j :: 0 <= i < j < |s| ==> key(s[i]) <= key(s[j])
  }

  /** The elements of `s` whose key is `k`, in order. */
  function KeyClass<T(==,!new)>(s: seq<T>, key: T -> int, k: int): seq<T> {
    Filter(s, x => key(x) == k)
  }

  /** Inserts `x` before the first element whose key is not smaller. */
  function Insert<T>(x: T, s: seq<T>, key: T -> int): (r: seq<T>)
    ensures |r| == |s| + 1
    ensures multiset(r) == multiset(s) + multiset{x}
  {
    if s == [] || key(x) <= key(s[0]) then [x] + s
    else
      assert s == [s[0]] + s[1..];
      [s[0]] + Insert(x, s[1..], key)
  }

  /** `s.slice().sort((a, b) => key(a) - key(b))`: ECMAScript requires
      `Array.prototype.sort` to be stable, and a stable sort by a key has
      exactly one result, which this insertion sort computes. */
  function SortBy<T>(s: seq<T>, key: T -> int): (r: seq<T>)
    ensures |r| == |s|
    ensures multiset(r) == multiset(s)
  {
    if s == [] then []
    else
      assert s == [s[0]] + s[1..];
      Insert(s[0], SortBy(s[1..], key), key)
  }

  lemma {:induction false} InsertSorted<T>(x: T, s: seq<T>, key: T -> int)
    requires SortedBy(s, key)
    ensures SortedBy(Insert(x, s, key), key)
  {
    if s != [] && key(x) > key(s[0]) {
      InsertSorted(x, s[1..], key);
      var rest := Insert(x, s[1..], key);
      forall j | 0 <= j < |rest| ensures key(s[0]) <= key(rest[j]) {
        assert rest[j] in multiset(rest);
        if rest[j] != x {
          assert rest[j] in multiset(s[1..]);
          var m :| 0 <= m < |s[1..]| && s[1..][m] == rest[j];
          assert s[1..][m] == s[m + 1];
        }
      }
    }
  }

  lemma {:induction false} InsertKeyClass<T(!new)>(x: T, s: seq<T>, key: T -> int, k: int)
    ensures KeyClass(Insert(x, s, key), key, k) == (if key(x) == k then [x] else []) + KeyClass(s, key, k)
  {
    var p := (y: T) => key(y) == k;
    if s == [] || key(x) <= key(s[0]) {
      FilterCons(x, s, p);
    } else {
      assert s == [s[0]] + s[1..];
      FilterCons(s[0], Insert(x, s[1..], key), p);
      FilterCons(s[0], s[1..], p);
      InsertKeyClass(x, s[1..], key, k);
    }
  }

  /** The sort's result is ordered by key. */
  lemma {:induction false} SortBySorted<T>(s: seq<T>, key: T -> int)
    ensures SortedBy(SortBy(s, key), key)
  {
    if s != [] {
      SortBySorted(s[1..], key);
      InsertSorted(s[0], SortBy(s[1..], key), key);
    }
  }

  /** Stability: for every key, the elements with that key keep their order. */
  lemma {:induction false} SortByStable<T(!new)>(s: seq<T>, key: T -> int, k: int)
    ensures KeyClass(SortBy(s, key), key, k) == KeyClass(s, key, k)
  {
    if s != [] {
      SortByStable(s[1..], key, k);
      InsertKeyClass(s[0], SortBy(s[1..], key), key, k);
      assert s == [s[0]] + s[1..];
      FilterCons(s[0], s[1..], y => key(y) == k);
    }
  }

  lemma SortByStableAll<T(!new)>(s: seq<T>, key: T -> int)
    ensures forall k :: KeyClass(SortBy(s, key), key, k) == KeyClass(s, key, k)
  {
    forall k ensures KeyClass(SortBy(s, key), key, k) == KeyClass(s, key, k) {
      SortByStable(s, key, k);
    }
  }

  /** Taking a prefix of a sorted permutation of `s` keeps the smallest keys:
      an element of `s` that is left out has a key no smaller than any
      element taken. */
  lemma TakeSortedTop<T>(s: seq<T>, t: seq<T>, key: T -> int, n: int, x: T, y: T)
    requires SortedBy(t, key) && multiset(t) == multiset(s)
    requires x in Take(t, n) && y in s && y !in Take(t, n)
    ensures key(x) <= key(y)
  {
    var r := Take(t, n);
    var i :| 0 <= i < |r| && r[i] == x;
    assert y in multiset(t);
    var j :| 0 <= j < |t| && t[j] == y;
    assert t[i] == x;
  }

  /** `a` is a prefix of `b`. */
  predicate IsPrefix<T(==)>(a: seq<T>, b: seq<T>) {
    |a| <= |b| && b[..|a|] == a
  }

  /** `s.slice().sort((a, b) => key(a) - key(b)).slice(0, n)`: the first
      `n` elements in key order (all of them when `n` is at least `|s|`,
      fewer when `n` is negative, as `slice` then counts from the end). The
      elements taken have keys no larger than those left out, and the ones
      taken of each key are the first of that key in `s`. */
  function TopBy<T(==,!new)>(s: seq<T>, key: T -> int, n: int): (r: seq<T>)
    ensures |r| == SliceEnd(|s|, n)
    ensures SortedBy(r, key)
    ensures multiset(r) <= multiset(s)
    ensures |r| == |s| ==> multiset(r) == multiset(s)
    ensures forall x, y :: x in r && y in s && y !in r ==> key(x) <= key(y)
    ensures forall k :: IsPrefix(KeyClass(r, key, k), KeyClass(s, key, k))
  {
    var sorted := SortBy(s, key);
    SortBySorted(s, key);
    SortByStableAll(s, key);
    var r := Take(sorted, n);
    var rest := sorted[|r|..];
    assert sorted == r + rest;
    forall k ensures IsPrefix(KeyClass(r, key, k), KeyClass(s, key, k)) {
      FilterAppend(r, rest, x => key(x) == k);
    }
    forall x, y | x in r && y in s && y !in r ensures key(x) <= key(y) {
      TakeSortedTop(s, sorted, key, n, x, y);
    }
    r
  }

  /** A sequence that is already ordered is left as it is. */
  lemma {:induction false} SortBySortedInput<T>(s: seq<T>, key: T -> int)
    requires SortedBy(s, key)
    ensures SortBy(s, key) == s
  {
    if s != [] {
      assert SortedBy(s[1..], key) by {
        forall i, j | 0 <= i < j < |s[1..]| ensures key(s[1..][i]) <= key(s[1..][j]) {
          assert s[1..][i] == s[i + 1] && s[1..][j] == s[j + 1];
        }
      }
      SortBySortedInput(s[1..], key);
      assert s == [s[0]] + s[1..];
    }
  }

  /** On a sequence that is already ordered, the top `n` are its first `n`. */
  lemma TopBySortedInput<T(!new)>(s: seq<T>, key: T -> int, n: int)
    requires SortedBy(s, key)
    ensures TopBy(s, key, n) == Take(s, n)
  {
    SortBySortedInput(s, key);
  }

  // ---------------------------------------------------------------------
  // [...new Set(s)]

  /** The distinct elements of `s` in order of first occurrence, which is
      the iteration order of a JavaScript `Set` built from `s`. */
  function Dedup<T(==,!new)>(s: seq<T>): (r: seq<T>)
    ensures forall x :: x in r <==> x in s
    ensures Distinct(r)
    decreases |s|
  {
    if s == [] then []
    else
      var init := Dedup(s[..|s| - 1]);
      assert s == s[..|s| - 1] + [s[|s| - 1]];
      if s[|s| - 1] in init then init else init + [s[|s| - 1]]
  }

  /** Appending an element adds it to `Dedup` unless it was already there. */
  lemma DedupSnoc<T(!new)>(s: seq<T>, y: T)
    ensures Dedup(s + [y]) == if y in Dedup(s) then Dedup(s) else Dedup(s) + [y]
  {
    assert (s + [y])[..|s + [y]| - 1] == s;
  }

  /** Dedup lists the distinct elements in the order of their first occurrence. */
  lemma {:induction false} DedupFirstOccurrence<T(!new)>(s: seq<T>, i: int, j: int)
    requires 0 <= i < j < |Dedup(s)|
    ensures IndexOf(s, Dedup(s)[i]) < IndexOf(s, Dedup(s)[j])
    decreases |s|
  {
    var t := s[..|s| - 1];
    var y := s[|s| - 1];
    assert s == t + [y];
    var init := Dedup(t);
    if y in init {
      DedupFirstOccurrence(t, i, j);
      IndexOfAppend(t, y, init[i]);
      IndexOfAppend(t, y, init[j]);
    } else {
      IndexOfAppend(t, y, Dedup(s)[i]);
      if j < |init| {
        DedupFirstOccurrence(t, i, j);
        IndexOfAppend(t, y, init[j]);
      } else {
        assert Dedup(s)[j] == y && y !in t;
        assert IndexOf(s, y) == |t| by {
          forall m | 0 <= m < |t| ensures s[m] != y { assert s[m] == t[m]; }
        }
      }
    }
  }
}
