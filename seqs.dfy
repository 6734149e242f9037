/** Sequence utilities shared by the pages: filtering (JavaScript's
    `Array.prototype.filter`), counting, subsequences and a stable sort
    (JavaScript's `Array.prototype.sort`, which is stable). */
module Seqs {
  import opened Wrappers

  /** The elements of `s` that satisfy `p`, in their original order. */
  function Filter<T(!new)>(s: seq<T>, p: T -> bool): (r: seq<T>)
    ensures |r| <= |s|
    ensures forall x :: x in r ==> x in s && p(x)
  {
    if s == [] then []
    else (if p(s[0]) then [s[0]] else []) + Filter(s[1..], p)
  }

  /** Filtering keeps every element that satisfies `p` as often as it
      occurs, and no other. */
  lemma {:induction false} FilterCounts<T(!new)>(s: seq<T>, p: T -> bool)
    ensures forall x :: p(x) ==> multiset(Filter(s, p))[x] == multiset(s)[x]
    ensures forall x :: !p(x) ==> multiset(Filter(s, p))[x] == 0
  {
    if s != [] {
      FilterCounts(s[1..], p);
      assert s == [s[0]] + s[1..];
    }
  }

  /** `r` can be obtained from `s` by deleting elements. */
  ghost predicate SubseqOf<T>(r: seq<T>, s: seq<T>)
    decreases |s|
  {
    if r == [] then true
    else if s == [] then false
    else (r[0] == s[0] && SubseqOf(r[1..], s[1..])) || SubseqOf(r, s[1..])
  }

  lemma {:induction false} FilterIsSubseq<T(!new)>(s: seq<T>, p: T -> bool)
    ensures SubseqOf(Filter(s, p), s)
  {
    if s != [] {
      FilterIsSubseq(s[1..], p);
      var r := Filter(s, p);
      if p(s[0]) {
        assert r[0] == s[0] && r[1..] == Filter(s[1..], p);
      } else {
        assert r == Filter(s[1..], p);
      }
    }
  }

  /** Filtering with a weaker predicate keeps at least what a stronger one keeps,
      in the same order. */
  lemma {:induction false} FilterWeaker<T(!new)>(s: seq<T>, p: T -> bool, q: T -> bool)
    requires forall x :: p(x) ==> q(x)
    ensures SubseqOf(Filter(s, p), Filter(s, q))
    ensures |Filter(s, p)| <= |Filter(s, q)|
  {
    if s != [] {
      FilterWeaker(s[1..], p, q);
      var r, t := Filter(s, p), Filter(s, q);
      if p(s[0]) {
        assert r[0] == s[0] && r[1..] == Filter(s[1..], p);
        assert t[0] == s[0] && t[1..] == Filter(s[1..], q);
      } else if q(s[0]) {
        assert r == Filter(s[1..], p);
        assert t[0] == s[0] && t[1..] == Filter(s[1..], q);
        SubseqCons(s[0], r, Filter(s[1..], q));
      } else {
        assert r == Filter(s[1..], p) && t == Filter(s[1..], q);
      }
    }
  }

  /** Being a subsequence is transitive. */
  lemma {:induction false} SubseqTrans<T>(r: seq<T>, t: seq<T>, s: seq<T>)
    requires SubseqOf(r, t) && SubseqOf(t, s)
    ensures SubseqOf(r, s)
    decreases |s|
  {
    if r != [] {
      if t[0] == s[0] && SubseqOf(t[1..], s[1..]) {
        if r[0] == t[0] && SubseqOf(r[1..], t[1..]) {
          SubseqTrans(r[1..], t[1..], s[1..]);
        } else {
          SubseqTrans(r, t[1..], s[1..]);
        }
      } else {
        SubseqTrans(r, t, s[1..]);
      }
    }
  }

  lemma SubseqCons<T>(x: T, r: seq<T>, s: seq<T>)
    requires SubseqOf(r, s)
    ensures SubseqOf(r, [x] + s)
  {
    if r != [] {
      assert ([x] + s)[1..] == s;
    }
  }

  /** Filtering everything in is the identity. */
  lemma {:induction false} FilterAll<T(!new)>(s: seq<T>, p: T -> bool)
    requires forall x :: x in s ==> p(x)
    ensures Filter(s, p) == s
  {
    if s != [] {
      FilterAll(s[1..], p);
      assert s == [s[0]] + s[1..];
    }
  }

  /** Filtering with a predicate nothing satisfies leaves nothing. */
  lemma {:induction false} FilterNone<T(!new)>(s: seq<T>, p: T -> bool)
    requires forall x :: x in s ==> !p(x)
    ensures Filter(s, p) == []
  {
    if s != [] {
      FilterNone(s[1..], p);
    }
  }

  /** Filtering distributes over concatenation. */
  lemma {:induction false} FilterAppend<T(!new)>(s: seq<T>, t: seq<T>, p: T -> bool)
    ensures Filter(s + t, p) == Filter(s, p) + Filter(t, p)
  {
    if s == [] {
      assert s + t == t;
    } else {
      var head := if p(s[0]) then [s[0]] else [];
      assert (s + t)[0] == s[0] && (s + t)[1..] == s[1..] + t;
      assert Filter(s + t, p) == head + Filter(s[1..] + t, p);
      FilterAppend(s[1..], t, p);
      assert head + (Filter(s[1..], p) + Filter(t, p)) == (head + Filter(s[1..], p)) + Filter(t, p);
    }
  }

  /** Counts of two disjoint predicates add up to the count of their union. */
  lemma {:induction false} FilterDisjointCount<T(!new)>(s: seq<T>, p: T -> bool, q: T -> bool, pq: T -> bool)
    requires forall x :: !(p(x) && q(x))
    requires forall x :: pq(x) <==> p(x) || q(x)
    ensures |Filter(s, p)| + |Filter(s, q)| == |Filter(s, pq)|
  {
    if s != [] {
      FilterDisjointCount(s[1..], p, q, pq);
    }
  }

  /** Counts of complementary predicates add up to the length. */
  lemma FilterPartitionCount<T(!new)>(s: seq<T>, p: T -> bool, q: T -> bool)
    requires forall x :: p(x) <==> !q(x)
    ensures |Filter(s, p)| + |Filter(s, q)| == |s|
  {
    FilterDisjointCount(s, p, q, _ => true);
    FilterAll(s, _ => true);
  }

  /** When, position by position, `r` satisfies `p` only where `s` does,
      `r` has no more elements satisfying `p`. */
  lemma {:induction false} FilterMonotone<T(!new)>(s: seq<T>, r: seq<T>, p: T -> bool)
    requires |s| == |r|
    requires forall i :: 0 <= i < |s| && p(r[i]) ==> p(s[i])
    ensures |Filter(r, p)| <= |Filter(s, p)|
  {
    if s != [] {
      FilterMonotone(s[1..], r[1..], p);
    }
  }

  /** `i` is the first position whose element satisfies `p`. */
  ghost predicate FirstMatchAt<T>(s: seq<T>, p: T -> bool, i: int) {
    0 <= i < |s| && p(s[i]) && forall j :: 0 <= j < i ==> !p(s[j])
  }

  /** Putting an element between the slices before and after a position is
      updating that position. */
  lemma SpliceIsUpdate<T>(s: seq<T>, k: int, x: T)
    requires 0 <= k < |s|
    ensures s[..k] + [x] + s[k + 1..] == s[k := x]
  {
  }

  /** The first element satisfying `p` (JavaScript's `Array.prototype.find`). */
  function Find<T>(s: seq<T>, p: T -> bool): (r: Option<T>)
    ensures r.None? <==> forall i :: 0 <= i < |s| ==> !p(s[i])
    ensures r.Some? ==> exists i :: FirstMatchAt(s, p, i) && s[i] == r.value
  {
    if s == [] then None
    else if p(s[0]) then
      assert FirstMatchAt(s, p, 0);
      Some(s[0])
    else
      var r := Find(s[1..], p);
      assert r.Some? ==> exists i :: FirstMatchAt(s, p, i) && s[i] == r.value by {
        if r.Some? {
          var i :| FirstMatchAt(s[1..], p, i) && s[1..][i] == r.value;
          assert FirstMatchAt(s, p, i + 1);
        }
      }
      r
  }

  /** No element occurs twice. */
  ghost predicate Distinct<T>(s: seq<T>) {
    forall i, j :: 0 <= i < j < |s| ==> s[i] != s[j]
  }

  /** Number of occurrences of `x` in `s`. */
  function Occurrences<T(==)>(s: seq<T>, x: T): (n: nat)
    ensures n == multiset(s)[x]
  {
    if s == [] then 0
    else
      assert s == [s[0]] + s[1..];
      (if s[0] == x then 1 else 0) + Occurrences(s[1..], x)
  }

  /** Sum of a sequence of integers (JavaScript's `reduce((a, b) => a + b, 0)`). */
  function Sum(s: seq<int>): int {
    if s == [] then 0 else s[0] + Sum(s[1..])
  }

  /** Sum over a prefix extended by one element. */
  lemma {:induction false} SumSnoc(s: seq<int>, x: int)
    ensures Sum(s + [x]) == Sum(s) + x
  {
    if s != [] {
      assert (s + [x])[1..] == s[1..] + [x];
      SumSnoc(s[1..], x);
    }
  }

  // ----- Stable sorting -----

  ghost predicate Total<T(!new)>(le: (T, T) -> bool) {
    forall a, b :: le(a, b) || le(b, a)
  }

  ghost predicate Transitive<T(!new)>(le: (T, T) -> bool) {
    forall a, b, c :: le(a, b) && le(b, c) ==> le(a, c)
  }

  /** Every earlier element is `le` every later one. */
  ghost predicate SortedBy<T>(s: seq<T>, le: (T, T) -> bool) {
    forall i, j :: 0 <= i < j < |s| ==> le(s[i], s[j])
  }

  /** Inserts `x` before the first element it is `le`, so `x` precedes
      the elements it ties with. */
  function Insert<T>(x: T, s: seq<T>, le: (T, T) -> bool): (r: seq<T>)
    ensures multiset(r) == multiset(s) + multiset{x}
    ensures |r| == |s| + 1
  {
    if s == [] then [x]
    else if le(x, s[0]) then [x] + s
    else
      assert s == [s[0]] + s[1..];
      [s[0]] + Insert(x, s[1..], le)
  }

  /** The stable sort that JavaScript's `sort` performs with a consistent
      comparator: the result is a permutation of `s`, and of two elements
      that compare equal the earlier one stays first. */
  function SortBy<T>(s: seq<T>, le: (T, T) -> bool): (r: seq<T>)
    ensures multiset(r) == multiset(s)
    ensures |r| == |s|
  {
    if s == [] then []
    else
      assert s == [s[0]] + s[1..];
      Insert(s[0], SortBy(s[1..], le), le)
  }

  lemma {:induction false} InsertSorted<T(!new)>(x: T, s: seq<T>, le: (T, T) -> bool)
    requires Total(le) && Transitive(le)
    requires SortedBy(s, le)
    ensures SortedBy(Insert(x, s, le), le)
  {
    if s != [] && !le(x, s[0]) {
      InsertSorted(x, s[1..], le);
      var tail := Insert(x, s[1..], le);
      assert le(s[0], x);
      forall k | 0 <= k < |tail| ensures le(s[0], tail[k]) {
        assert tail[k] in multiset(tail);
        assert tail[k] == x || tail[k] in multiset(s[1..]);
        if tail[k] != x {
          var j :| 0 <= j < |s[1..]| && s[1..][j] == tail[k];
          assert s[1 + j] == tail[k];
        }
      }
    }
  }

  /** Under a total preorder the stable sort yields a sorted sequence. */
  lemma {:induction false} SortBySorted<T(!new)>(s: seq<T>, le: (T, T) -> bool)
    requires Total(le) && Transitive(le)
    ensures SortedBy(SortBy(s, le), le)
  {
    if s != [] {
      SortBySorted(s[1..], le);
      InsertSorted(s[0], SortBy(s[1..], le), le);
    }
  }

  /** At most the first `n` elements (JavaScript's `slice(0, n)`). */
  function Take<T>(s: seq<T>, n: nat): (r: seq<T>)
    ensures |r| == if n < |s| then n else |s|
    ensures r <= s
  {
    if n < |s| then s[..n] else s
  }

  /** All but the first `n` elements (JavaScript's `slice(n)`). */
  function Skip<T>(s: seq<T>, n: nat): (r: seq<T>)
    ensures Take(s, n) + r == s
  {
    if n < |s| then s[n..] else []
  }
}
