/** Generic operations on sequences that stand for the rows a query returns:
    counting, summing, filtering (Array.prototype.filter / a Prisma `where`),
    ordering (a Prisma `orderBy`) and truncation (a Prisma `take`). */
module Seqs {

  /** Number of elements that satisfy `p`. */
  function Count<T>(s: seq<T>, p: T -> bool): (n: nat)
    ensures n <= |s|
  {
    if s == [] then 0 else (if p(s[0]) then 1 else 0) + Count(s[1..], p)
  }

  /** Sum of `f` over the elements (a `reduce((sum, x) => sum + f(x), 0)`). */
  function Sum<T>(s: seq<T>, f: T -> int): int
  {
    if s == [] then 0 else f(s[0]) + Sum(s[1..], f)
  }

  /** `f` applied to each element, in order (an `Array.prototype.map`). */
  function Map<A, B>(s: seq<A>, f: A -> B): (r: seq<B>)
    ensures |r| == |s|
    ensures forall i :: 0 <= i < |s| ==> r[i] == f(s[i])
  {
    seq(|s|, i requires 0 <= i < |s| => f(s[i]))
  }

  /** The elements satisfying `p`, in their original order. */
  function Filter<T>(s: seq<T>, p: T -> bool): (r: seq<T>)
    ensures |r| == Count(s, p)
    ensures forall x :: x in r ==> x in s && p(x)
    ensures forall x :: x in s && p(x) ==> x in r
    ensures IsSubsequence(r, s)
  {
    if s == [] then []
    else
      var rest := Filter(s[1..], p);
      SubsequenceCons(rest, s);
      if p(s[0]) then [s[0]] + rest else rest
  }

  /** `r` can be obtained from `s` by deleting elements (order is kept). */
  ghost predicate IsSubsequence<T>(r: seq<T>, s: seq<T>)
  {
    if r == [] then true
    else if s == [] then false
    else if r[0] == s[0] then IsSubsequence(r[1..], s[1..])
    else IsSubsequence(r, s[1..])
  }

  lemma {:induction false} SubsequenceCons<T>(r: seq<T>, s: seq<T>)
    requires s != []
    requires IsSubsequence(r, s[1..])
    ensures IsSubsequence(r, s)
    ensures IsSubsequence([s[0]] + r, s)
    decreases |s|, 1
  {
    assert ([s[0]] + r)[1..] == r;
    if r != [] && r[0] == s[0] {
      SubsequenceTail(r, s[1..]);
    }
  }

  /** Dropping the first element of a subsequence leaves a subsequence. */
  lemma {:induction false} SubsequenceTail<T>(r: seq<T>, t: seq<T>)
    requires r != [] && IsSubsequence(r, t)
    ensures IsSubsequence(r[1..], t)
    decreases |t|, 2
  {
    if r[0] != t[0] {
      SubsequenceTail(r, t[1..]);
    }
    SubsequenceCons(r[1..], t);
  }

  lemma {:induction false} SubsequenceRefl<T>(s: seq<T>)
    ensures IsSubsequence(s, s)
  {
    if s != [] {
      SubsequenceRefl(s[1..]);
    }
  }

  /** Filtering with a predicate that holds everywhere keeps the sequence as it is. */
  lemma {:induction false} FilterAll<T>(s: seq<T>, p: T -> bool)
    requires forall x :: x in s ==> p(x)
    ensures Filter(s, p) == s
  {
    if s != [] {
      FilterAll(s[1..], p);
    }
  }

  lemma {:induction false} FilterAppend<T>(s: seq<T>, t: seq<T>, p: T -> bool)
    ensures Filter(s + t, p) == Filter(s, p) + Filter(t, p)
  {
    if s == [] {
      assert s + t == t;
    } else {
      assert (s + t)[1..] == s[1..] + t;
      FilterAppend(s[1..], t, p);
    }
  }

  lemma {:induction false} SumAppend<T>(s: seq<T>, t: seq<T>, f: T -> int)
    ensures Sum(s + t, f) == Sum(s, f) + Sum(t, f)
  {
    if s == [] {
      assert s + t == t;
    } else {
      assert (s + t)[1..] == s[1..] + t;
      SumAppend(s[1..], t, f);
    }
  }

  lemma {:induction false} CountAppend<T>(s: seq<T>, t: seq<T>, p: T -> bool)
    ensures Count(s + t, p) == Count(s, p) + Count(t, p)
  {
    if s == [] {
      assert s + t == t;
    } else {
      assert (s + t)[1..] == s[1..] + t;
      CountAppend(s[1..], t, p);
    }
  }

  /** Replacing one element changes a sum by exactly the difference of the two values. */
  lemma {:induction false} SumUpdate<T>(s: seq<T>, i: nat, x: T, f: T -> int)
    requires i < |s|
    ensures Sum(s[i := x], f) == Sum(s, f) - f(s[i]) + f(x)
  {
    if i > 0 {
      assert s[i := x][1..] == s[1..][i - 1 := x];
      SumUpdate(s[1..], i - 1, x, f);
    }
  }

  lemma {:induction false} CountUpdate<T>(s: seq<T>, i: nat, x: T, p: T -> bool)
    requires i < |s|
    ensures Count(s[i := x], p) == Count(s, p) - (if p(s[i]) then 1 else 0) + (if p(x) then 1 else 0)
  {
    if i > 0 {
      assert s[i := x][1..] == s[1..][i - 1 := x];
      CountUpdate(s[1..], i - 1, x, p);
    }
  }

  /** Summing only the elements that pass a filter is summing a guarded term over all of them. */
  lemma {:induction false} SumFilter<T>(s: seq<T>, p: T -> bool, f: T -> int, g: T -> int)
    requires forall x :: g(x) == (if p(x) then f(x) else 0)
    ensures Sum(Filter(s, p), f) == Sum(s, g)
  {
    if s != [] {
      SumFilter(s[1..], p, f, g);
    }
  }

  /** Two functions that agree on the elements have the same sum. */
  lemma {:induction false} SumCongruent<T>(s: seq<T>, f: T -> int, g: T -> int)
    requires forall x :: x in s ==> f(x) == g(x)
    ensures Sum(s, f) == Sum(s, g)
  {
    if s != [] {
      SumCongruent(s[1..], f, g);
    }
  }

  /** Two predicates that agree on the elements have the same count. */
  lemma {:induction false} CountCongruent<T>(s: seq<T>, p: T -> bool, q: T -> bool)
    requires forall x :: x in s ==> (p(x) <==> q(x))
    ensures Count(s, p) == Count(s, q)
  {
    if s != [] {
      CountCongruent(s[1..], p, q);
    }
  }

  /** Counting `p` over `s` and `q` over `t` agrees when they agree position by position. */
  lemma {:induction false} CountPointwise<S, T>(s: seq<S>, t: seq<T>, p: S -> bool, q: T -> bool)
    requires |s| == |t| && forall i :: 0 <= i < |s| ==> (p(s[i]) <==> q(t[i]))
    ensures Count(s, p) == Count(t, q)
  {
    if s != [] {
      assert forall i :: 0 <= i < |s| - 1 ==> s[1..][i] == s[i + 1] && t[1..][i] == t[i + 1];
      CountPointwise(s[1..], t[1..], p, q);
    }
  }

  /** Negating every term negates the sum. */
  lemma {:induction false} SumNegate<T>(s: seq<T>, f: T -> int, g: T -> int)
    requires forall x :: g(x) == -f(x)
    ensures Sum(s, g) == -Sum(s, f)
  {
    if s != [] {
      SumNegate(s[1..], f, g);
    }
  }

  /** A sum of two terms is the sum of the two sums. */
  lemma {:induction false} SumPlus<T>(s: seq<T>, f: T -> int, g: T -> int, h: T -> int)
    requires forall x :: h(x) == f(x) + g(x)
    ensures Sum(s, h) == Sum(s, f) + Sum(s, g)
  {
    if s != [] {
      SumPlus(s[1..], f, g, h);
    }
  }

  /** Two sequences whose terms agree position by position have the same sum. */
  lemma {:induction false} SumPointwise<S, T>(s: seq<S>, t: seq<T>, f: S -> int, g: T -> int)
    requires |s| == |t| && forall i :: 0 <= i < |s| ==> f(s[i]) == g(t[i])
    ensures Sum(s, f) == Sum(t, g)
  {
    if s != [] {
      assert forall i :: 0 <= i < |s| - 1 ==> s[1..][i] == s[i + 1] && t[1..][i] == t[i + 1];
      SumPointwise(s[1..], t[1..], f, g);
    }
  }

  /** The count of a predicate splits into the counts of two disjoint predicates covering it. */
  lemma {:induction false} CountSplit<T>(s: seq<T>, p: T -> bool, q: T -> bool, r: T -> bool)
    requires forall x :: x in s ==> (p(x) <==> q(x) || r(x)) && !(q(x) && r(x))
    ensures Count(s, p) == Count(s, q) + Count(s, r)
  {
    if s != [] {
      CountSplit(s[1..], p, q, r);
    }
  }

  /** No element at any position satisfies `p`: nothing is counted. */
  lemma CountNone<T>(s: seq<T>, p: T -> bool)
    requires forall i :: 0 <= i < |s| ==> !p(s[i])
    ensures Count(s, p) == 0
  {
    CountZero(s, p);
  }

  /** The count is zero exactly when no element satisfies `p`. */
  lemma {:induction false} CountZero<T>(s: seq<T>, p: T -> bool)
    ensures Count(s, p) == 0 <==> forall i :: 0 <= i < |s| ==> !p(s[i])
  {
    if s != [] {
      CountZero(s[1..], p);
      assert forall i :: 1 <= i < |s| ==> s[i] == s[1..][i - 1];
    }
  }

  /** A positive count has a witness. */
  lemma CountWitness<T>(s: seq<T>, p: T -> bool) returns (i: nat)
    requires Count(s, p) > 0
    ensures i < |s| && p(s[i])
  {
    CountZero(s, p);
    i :| 0 <= i < |s| && p(s[i]);
  }

  /** Every element satisfies `p`: every element is counted. */
  lemma {:induction false} CountEvery<T>(s: seq<T>, p: T -> bool)
    requires forall i :: 0 <= i < |s| ==> p(s[i])
    ensures Count(s, p) == |s|
  {
    if s != [] {
      CountEvery(s[1..], p);
    }
  }

  /** Counting within a filtered sequence counts the elements that pass both tests. */
  lemma {:induction false} CountFilter<T>(s: seq<T>, p: T -> bool, q: T -> bool, r: T -> bool)
    requires forall x :: r(x) == (p(x) && q(x))
    ensures Count(Filter(s, p), q) == Count(s, r)
  {
    if s != [] {
      CountFilter(s[1..], p, q, r);
    }
  }

  /** Every element satisfies `p` exactly when all of them are counted. */
  lemma {:induction false} CountAll<T>(s: seq<T>, p: T -> bool)
    ensures Count(s, p) == |s| <==> forall i :: 0 <= i < |s| ==> p(s[i])
  {
    if s != [] {
      CountAll(s[1..], p);
      assert forall i :: 1 <= i < |s| ==> s[i] == s[1..][i - 1];
    }
  }

  /** A sum whose every term counted by `p` is the constant `c`, and 0 otherwise. */
  lemma {:induction false} SumConstant<T>(s: seq<T>, p: T -> bool, f: T -> int, c: int)
    requires forall x :: x in s ==> f(x) == (if p(x) then c else 0)
    ensures Sum(s, f) == c * Count(s, p)
  {
    if s != [] {
      SumConstant(s[1..], p, f, c);
    }
  }

  // ---------------------------------------------------------------------------
  // Ordering

  /** `leq` is a total preorder on the values it will be asked about. */
  ghost predicate TotalPreorder<T(!new)>(leq: (T, T) -> bool)
  {
    && (forall a, b :: leq(a, b) || leq(b, a))
    && (forall a, b, c :: leq(a, b) && leq(b, c) ==> leq(a, c))
  }

  predicate SortedBy<T>(s: seq<T>, leq: (T, T) -> bool)
  {
    forall i, j :: 0 <= i < j < |s| ==> leq(s[i], s[j])
  }

  function InsertBy<T(!new)>(x: T, s: seq<T>, leq: (T, T) -> bool): (r: seq<T>)
    requires TotalPreorder(leq) && SortedBy(s, leq)
    ensures SortedBy(r, leq)
    ensures multiset(r) == multiset(s) + multiset{x}
    ensures |r| == |s| + 1
  {
    if s == [] then [x]
    else if leq(x, s[0]) then
      [x] + s
    else
      var rest := InsertBy(x, s[1..], leq);
      assert s == [s[0]] + s[1..];
      ConsSorted(s[0], x, s[1..], rest, leq);
      [s[0]] + rest
  }

  /** Putting the head back in front of the insertion into the tail keeps the order. */
  lemma ConsSorted<T(!new)>(h: T, x: T, tail: seq<T>, rest: seq<T>, leq: (T, T) -> bool)
    requires TotalPreorder(leq) && SortedBy([h] + tail, leq) && !leq(x, h)
    requires SortedBy(rest, leq) && multiset(rest) == multiset(tail) + multiset{x}
    ensures SortedBy([h] + rest, leq)
  {
    forall j | 0 <= j < |rest| ensures leq(h, rest[j]) {
      assert rest[j] in multiset(rest);
      assert leq(h, x) || leq(x, h);
      if rest[j] != x {
        assert rest[j] in tail;
        var m :| 0 <= m < |tail| && tail[m] == rest[j];
        var ht := [h] + tail;
        assert ht[0] == h && ht[m + 1] == tail[m];
        assert leq(ht[0], ht[m + 1]);
      } else {
        assert leq(h, x);
      }
    }
  }

  /** An insertion sort: the result is ordered by `leq` and is a permutation of `s`. */
  function SortBy<T(!new)>(s: seq<T>, leq: (T, T) -> bool): (r: seq<T>)
    requires TotalPreorder(leq)
    ensures SortedBy(r, leq)
    ensures multiset(r) == multiset(s)
    ensures |r| == |s|
  {
    if s == [] then []
    else
      assert s == [s[0]] + s[1..];
      InsertBy(s[0], SortBy(s[1..], leq), leq)
  }

  /** No element occurs twice. */
  ghost predicate Distinct<T>(s: seq<T>)
  {
    forall i, j :: 0 <= i < j < |s| ==> s[i] != s[j]
  }

  lemma {:induction false} DistinctOnce<T>(s: seq<T>)
    requires Distinct(s)
    ensures forall x :: multiset(s)[x] <= 1
  {
    if s != [] {
      var front := s[..|s| - 1];
      assert s == front + [s[|s| - 1]];
      DistinctOnce(front);
      assert s[|s| - 1] !in front;
    }
  }

  /** A permutation of a sequence without repetitions has none either. */
  lemma PermutationDistinct<T>(r: seq<T>, s: seq<T>)
    requires multiset(r) == multiset(s) && Distinct(s)
    ensures Distinct(r)
  {
    DistinctOnce(s);
    forall i, j | 0 <= i < j < |r| ensures r[i] != r[j] {
      var x := r[i];
      assert r == r[..j] + r[j..];
      assert x in r[..j];
      assert multiset(r)[x] == multiset(r[..j])[x] + multiset(r[j..])[x];
      assert multiset(r[j..])[x] == 0;
      assert r[j] in r[j..];
    }
  }

  /** A permutation has the same elements. */
  lemma SameMembers<T>(r: seq<T>, s: seq<T>)
    requires multiset(r) == multiset(s)
    ensures forall x :: x in r <==> x in s
  {
    forall x ensures x in r <==> x in s {
      assert x in r <==> x in multiset(r);
    }
  }

  /** The elements satisfying `keep`, ordered by `leq`: a Prisma `findMany`
      with a `where` and an `orderBy`. Rows that tie under `leq` come in some
      order. */
  function Select<T(!new)>(s: seq<T>, keep: T -> bool, leq: (T, T) -> bool): (r: seq<T>)
    requires TotalPreorder(leq)
    ensures SortedBy(r, leq)
    ensures multiset(r) == multiset(Filter(s, keep))
    ensures forall x :: x in r <==> x in s && keep(x)
  {
    var r := SortBy(Filter(s, keep), leq);
    SameMembers(r, Filter(s, keep));
    r
  }

  /** The first `n` elements satisfying `keep` in `leq` order: a Prisma
      `findMany` with a `where`, an `orderBy` and a `take`. Each listed element
      is a distinct stored one, and no element left out comes before a listed
      one. */
  function Top<T(!new)>(s: seq<T>, keep: T -> bool, leq: (T, T) -> bool, n: nat): (r: seq<T>)
    requires TotalPreorder(leq)
    ensures |r| == if Count(s, keep) < n then Count(s, keep) else n
    ensures SortedBy(r, leq)
    ensures forall x :: x in r ==> x in s && keep(x)
    ensures multiset(r) <= multiset(Filter(s, keep))
    ensures forall x, y :: x in s && keep(x) && x !in r && y in r ==> leq(y, x)
    ensures Count(s, keep) <= n ==> forall x :: x in s && keep(x) ==> x in r
  {
    var all := Select(s, keep, leq);
    assert |all| == |Filter(s, keep)| by {
      assert |multiset(all)| == |multiset(Filter(s, keep))|;
    }
    var r := Take(all, n);
    assert all == r + all[|r|..];
    forall x, y | x in s && keep(x) && x !in r && y in r ensures leq(y, x) {
      var rest := all[|r|..];
      assert all == r + rest;
      assert x in all;
      var j :| 0 <= j < |rest| && rest[j] == x;
      var i :| 0 <= i < |r| && r[i] == y;
      assert all[|r| + j] == x;
    }
    r
  }

  /** The first `n` elements (Prisma's `take: n`). */
  function Take<T>(s: seq<T>, n: nat): (r: seq<T>)
    ensures |r| == if n < |s| then n else |s|
    ensures r == s[..|r|]
  {
    if n < |s| then s[..n] else s
  }
}
