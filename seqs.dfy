/** Sequence operations shared by the list-processing code: JavaScript's
    `filter`, `slice(0, n)` and the stable comparator-driven `sort`. */
module Seqs {

  /** An optional value: JavaScript's `undefined` (or `null`) versus a value. */
  datatype Option<T> = None | Some(value: T)
  {
    function GetOr(default: T): T
    {
      if Some? then value else default
    }
  }

  /** `xs.filter(p)`: the elements satisfying `p`, in their original order. */
  function Filter<T(!new)>(s: seq<T>, p: T -> bool): (r: seq<T>)
    ensures |r| <= |s|
    ensures forall x :: x in r <==> x in s && p(x)
    ensures multiset(r) <= multiset(s)
    decreases |s|
  {
    if s == [] then []
    else
      assert s == [s[0]] + s[1..];
      (if p(s[0]) then [s[0]] else []) + Filter(s[1..], p)
  }

  /** `a` can be obtained from `b` by deleting elements: the order of `b` is kept. */
  predicate IsSubsequence<T(==)>(a: seq<T>, b: seq<T>)
    decreases |b|
  {
    a == [] || (b != [] && ((a[0] == b[0] && IsSubsequence(a[1..], b[1..])) || IsSubsequence(a, b[1..])))
  }

  lemma {:induction false} FilterIsSubsequence<T(!new)>(s: seq<T>, p: T -> bool)
    ensures IsSubsequence(Filter(s, p), s)
    decreases |s|
  {
    if s != [] {
      FilterIsSubsequence(s[1..], p);
      if p(s[0]) {
        assert Filter(s, p) == [s[0]] + Filter(s[1..], p);
        assert Filter(s, p)[1..] == Filter(s[1..], p);
      } else {
        assert Filter(s, p) == Filter(s[1..], p);
      }
    }
  }

  lemma {:induction false} SubsequenceTransitive<T>(a: seq<T>, b: seq<T>, c: seq<T>)
    requires IsSubsequence(a, b) && IsSubsequence(b, c)
    ensures IsSubsequence(a, c)
    decreases |c|
  {
    if a != [] {
      assert b != [] && c != [];
      if b[0] == c[0] && IsSubsequence(b[1..], c[1..]) {
        if a[0] == b[0] && IsSubsequence(a[1..], b[1..]) {
          SubsequenceTransitive(a[1..], b[1..], c[1..]);
        } else {
          SubsequenceTransitive(a, b[1..], c[1..]);
        }
      } else {
        SubsequenceTransitive(a, b, c[1..]);
      }
    }
  }

  lemma {:induction false} FilterConcat<T(!new)>(a: seq<T>, b: seq<T>, p: T -> bool)
    ensures Filter(a + b, p) == Filter(a, p) + Filter(b, p)
    decreases |a|
  {
    if a == [] {
      assert a + b == b;
    } else {
      assert (a + b)[1..] == a[1..] + b;
      FilterConcat(a[1..], b, p);
    }
  }

  lemma {:induction false} FilterKeepsAll<T(!new)>(s: seq<T>, p: T -> bool)
    requires forall x :: x in s ==> p(x)
    ensures Filter(s, p) == s
    decreases |s|
  {
    if s != [] {
      FilterKeepsAll(s[1..], p);
    }
  }

  /** Filtering with two predicates that never hold together splits the
      elements satisfying either of them. */
  lemma {:induction false} FilterDisjointCount<T(!new)>(s: seq<T>, p: T -> bool, q: T -> bool)
    requires forall x :: x in s ==> !(p(x) && q(x))
    ensures |Filter(s, p)| + |Filter(s, q)| == |Filter(s, x => p(x) || q(x))|
    decreases |s|
  {
    if s != [] {
      FilterDisjointCount(s[1..], p, q);
    }
  }

  /** `xs.slice(0, n)`. */
  function Take<T>(s: seq<T>, n: nat): (r: seq<T>)
    ensures |r| <= n && |r| <= |s|
    ensures r <= s
    ensures |s| <= n ==> r == s
  {
    if |s| <= n then s else s[..n]
  }

  /** A JavaScript sort comparator: a negative result puts the first
      argument first, a positive one the second, zero keeps input order. */
  type Comparator<!T> = (T, T) -> real

  /** Inserts `x` behind every element that does not compare greater than it,
      so that elements comparing equal keep their input order (a stable sort). */
  function Insert<T>(x: T, s: seq<T>, cmp: Comparator<T>): (r: seq<T>)
    ensures multiset(r) == multiset(s) + multiset{x}
    ensures |r| == |s| + 1
    decreases |s|
  {
    if s == [] then [x]
    else if cmp(s[0], x) > 0.0 then [x] + s
    else
      assert s == [s[0]] + s[1..];
      [s[0]] + Insert(x, s[1..], cmp)
  }

  /** `[...xs].sort(cmp)`: a stable insertion sort; the input is not changed. */
  function Sort<T>(s: seq<T>, cmp: Comparator<T>): (r: seq<T>)
    ensures multiset(r) == multiset(s)
    ensures |r| == |s|
    decreases |s|
  {
    if s == [] then []
    else
      assert s == s[..|s| - 1] + [s[|s| - 1]];
      Insert(s[|s| - 1], Sort(s[..|s| - 1], cmp), cmp)
  }

  /** An element no element compares above is inserted at the end. */
  lemma {:induction false} InsertAtEnd<T>(x: T, s: seq<T>, cmp: Comparator<T>)
    requires forall k :: 0 <= k < |s| ==> cmp(s[k], x) <= 0.0
    ensures Insert(x, s, cmp) == s + [x]
    decreases |s|
  {
    if s != [] {
      InsertAtEnd(x, s[1..], cmp);
      assert s == [s[0]] + s[1..];
    }
  }

  /** The sort is stable: a sequence already in order comes back as it is. */
  lemma {:induction false} SortKeepsOrder<T>(s: seq<T>, cmp: Comparator<T>)
    requires forall i, j :: 0 <= i < j < |s| ==> cmp(s[i], s[j]) <= 0.0
    ensures Sort(s, cmp) == s
    decreases |s|
  {
    if s != [] {
      var init, last := s[..|s| - 1], s[|s| - 1];
      LastSplit(s);
      assert forall k :: 0 <= k < |init| ==> init[k] == s[k];
      SortKeepsOrder(init, cmp);
      InsertAtEnd(last, init, cmp);
    }
  }

  lemma LastSplit<T>(s: seq<T>)
    requires s != []
    ensures s[..|s| - 1] + [s[|s| - 1]] == s
  {
  }

  /** Every element may come before every later one. */
  ghost predicate Sorted<T>(s: seq<T>, cmp: Comparator<T>)
  {
    forall i, j :: 0 <= i < j < |s| ==> cmp(s[i], s[j]) <= 0.0
  }

  /** On the elements of `s`, "cmp(a, b) <= 0" is a total preorder: the
      comparator is consistent, as `Array.prototype.sort` requires. */
  ghost predicate TotalPreorderOn<T>(cmp: Comparator<T>, s: seq<T>)
  {
    && (forall a, b :: a in s && b in s ==> cmp(a, b) <= 0.0 || cmp(b, a) <= 0.0)
    && (forall a, b, c :: a in s && b in s && c in s && cmp(a, b) <= 0.0 && cmp(b, c) <= 0.0 ==> cmp(a, c) <= 0.0)
  }

  /** Elements of a permutation are elements of the original. */
  lemma PermutationMembers<T>(a: seq<T>, b: seq<T>)
    requires multiset(a) == multiset(b)
    ensures forall x :: x in a <==> x in b
  {
    assert forall x :: x in a <==> x in multiset(a);
    assert forall x :: x in b <==> x in multiset(b);
  }

  lemma InsertMembers<T>(x: T, s: seq<T>, cmp: Comparator<T>)
    ensures forall y :: y in Insert(x, s, cmp) <==> y == x || y in s
  {
    PermutationMembers(Insert(x, s, cmp), s + [x]);
  }

  /** A sorted sequence stays sorted behind an element that may precede all of it. */
  lemma PrependSorted<T>(x: T, s: seq<T>, cmp: Comparator<T>)
    requires Sorted(s, cmp)
    requires forall j :: 0 <= j < |s| ==> cmp(x, s[j]) <= 0.0
    ensures Sorted([x] + s, cmp)
  {
    var r := [x] + s;
    forall i, j | 0 <= i < j < |r|
      ensures cmp(r[i], r[j]) <= 0.0
    {
      assert r[j] == s[j - 1];
      if i > 0 {
        assert r[i] == s[i - 1];
      }
    }
  }

  lemma SortedHeadFirst<T>(s: seq<T>, cmp: Comparator<T>)
    requires Sorted(s, cmp) && s != []
    ensures forall y :: y in s[1..] ==> cmp(s[0], y) <= 0.0
  {
    forall y | y in s[1..]
      ensures cmp(s[0], y) <= 0.0
    {
      var m :| 0 <= m < |s| - 1 && s[1..][m] == y;
      assert s[m + 1] == y;
    }
  }

  /** `x` goes in front: it may precede the first element and hence all of them. */
  lemma InsertInFront<T>(x: T, s: seq<T>, cmp: Comparator<T>, all: seq<T>)
    requires Sorted(s, cmp) && s != [] && cmp(s[0], x) > 0.0
    requires x in all && forall y :: y in s ==> y in all
    requires TotalPreorderOn(cmp, all)
    ensures Sorted([x] + s, cmp)
  {
    assert s[0] in s;
    assert cmp(x, s[0]) <= 0.0;
    forall j | 0 <= j < |s|
      ensures cmp(x, s[j]) <= 0.0
    {
      if j > 0 {
        assert s[j] in s;
        assert cmp(s[0], s[j]) <= 0.0;
      }
    }
    PrependSorted(x, s, cmp);
  }

  lemma SortedTail<T>(s: seq<T>, cmp: Comparator<T>)
    requires Sorted(s, cmp) && s != []
    ensures Sorted(s[1..], cmp)
  {
    forall i, j | 0 <= i < j < |s| - 1
      ensures cmp(s[1..][i], s[1..][j]) <= 0.0
    {
      assert s[1..][i] == s[i + 1] && s[1..][j] == s[j + 1];
    }
  }

  lemma {:induction false} InsertSorted<T>(x: T, s: seq<T>, cmp: Comparator<T>, all: seq<T>)
    requires Sorted(s, cmp)
    requires x in all && forall y :: y in s ==> y in all
    requires TotalPreorderOn(cmp, all)
    ensures Sorted(Insert(x, s, cmp), cmp)
    decreases |s|
  {
    if s == [] {
    } else if cmp(s[0], x) > 0.0 {
      InsertInFront(x, s, cmp, all);
    } else {
      var rest := Insert(x, s[1..], cmp);
      SortedTail(s, cmp);
      assert forall y :: y in s[1..] ==> y in s;
      InsertSorted(x, s[1..], cmp, all);
      InsertMembers(x, s[1..], cmp);
      SortedHeadFirst(s, cmp);
      forall k | 0 <= k < |rest|
        ensures cmp(s[0], rest[k]) <= 0.0
      {
        var y := rest[k];
        assert y in multiset(rest);
        if y != x {
          assert y in s[1..];
        }
      }
      PrependSorted(s[0], rest, cmp);
    }
  }

  /** Under a comparator consistent on `all`, sorting elements of `all` yields an ordered sequence. */
  lemma {:induction false} SortSorted<T>(s: seq<T>, cmp: Comparator<T>, all: seq<T>)
    requires forall y :: y in s ==> y in all
    requires TotalPreorderOn(cmp, all)
    ensures Sorted(Sort(s, cmp), cmp)
    decreases |s|
  {
    if s != [] {
      var init := s[..|s| - 1];
      assert s == init + [s[|s| - 1]];
      assert forall y :: y in init ==> y in s;
      SortSorted(init, cmp, all);
      var sorted := Sort(init, cmp);
      forall y | y in sorted
        ensures y in all
      {
        assert y in multiset(sorted);
        assert y in init;
        assert y in s;
      }
      assert s[|s| - 1] in s;
      InsertSorted(s[|s| - 1], sorted, cmp, all);
    }
  }

  /** Where the last element of `ps` sits in its permutation `qs`; the
      rest of each are permutations of each other. */
  lemma RemoveLast<T>(ps: seq<T>, qs: seq<T>) returns (i: nat)
    requires ps != [] && multiset(ps) == multiset(qs)
    ensures i < |qs| && qs[i] == ps[|ps| - 1]
    ensures multiset(ps[..|ps| - 1]) == multiset(qs[..i] + qs[i + 1..])
  {
    var last := ps[|ps| - 1];
    assert ps == ps[..|ps| - 1] + [last];
    assert last in multiset(qs);
    i :| 0 <= i < |qs| && qs[i] == last;
    assert qs == qs[..i] + [last] + qs[i + 1..];
    assert multiset(ps[..|ps| - 1]) == multiset(ps) - multiset{last};
    assert multiset(qs[..i] + qs[i + 1..]) == multiset(qs) - multiset{last};
  }

  /** `xs.splice(i, 1)`: the element at `i` taken out. */
  lemma SplitAround<T>(s: seq<T>, i: nat)
    requires i < |s|
    ensures s[..i] + [s[i]] + s[i + 1..] == s
  {
  }

  function RemoveAt<T>(s: seq<T>, i: nat): (r: seq<T>)
    requires i < |s|
    ensures |r| == |s| - 1
    ensures multiset(r) == multiset(s) - multiset{s[i]}
    ensures forall k :: 0 <= k < i ==> r[k] == s[k]
    ensures forall k :: i <= k < |r| ==> r[k] == s[k + 1]
  {
    RemovedMultiset(s, i);
    s[..i] + s[i + 1..]
  }

  lemma RemovedMultiset<T>(s: seq<T>, i: nat)
    requires i < |s|
    ensures multiset(s[..i] + s[i + 1..]) == multiset(s) - multiset{s[i]}
  {
    SplitAround(s, i);
  }

  /** `xs.splice(i, 0, x)`: `x` inserted before position `i`, or at the end
      when `i` is past it. */
  function InsertAt<T>(s: seq<T>, i: nat, x: T): (r: seq<T>)
    ensures |r| == |s| + 1
    ensures multiset(r) == multiset(s) + multiset{x}
    ensures r[if i <= |s| then i else |s|] == x
    ensures forall k :: 0 <= k < i && k < |s| ==> r[k] == s[k]
  {
    var k := if i <= |s| then i else |s|;
    assert s == s[..k] + s[k..];
    s[..k] + [x] + s[k..]
  }

  /** The sum of `f` over the elements, added up front to back. */
  function SumBy<T>(s: seq<T>, f: T -> real): real
    decreases |s|
  {
    if s == [] then 0.0 else SumBy(s[..|s| - 1], f) + f(s[|s| - 1])
  }

  lemma {:induction false} SumByConcat<T>(a: seq<T>, b: seq<T>, f: T -> real)
    ensures SumBy(a + b, f) == SumBy(a, f) + SumBy(b, f)
    decreases |b|
  {
    if b == [] {
      assert a + b == a;
    } else {
      assert (a + b)[..|a + b| - 1] == a + b[..|b| - 1];
      SumByConcat(a, b[..|b| - 1], f);
    }
  }

  /** A sum does not depend on the order of its terms. */
  lemma {:induction false} SumByPermutation<T>(s: seq<T>, t: seq<T>, f: T -> real)
    requires multiset(s) == multiset(t)
    ensures SumBy(s, f) == SumBy(t, f)
    decreases |s|
  {
    if s == [] {
      assert t == [];
    } else {
      var last := s[|s| - 1];
      var i := RemoveLast(s, t);
      var x, y := t[..i], t[i + 1..];
      SumByPermutation(s[..|s| - 1], x + y, f);
      assert t == x + [last] + y;
      SumByConcat(x + [last], y, f);
      SumByConcat(x, [last], f);
      SumByConcat(x, y, f);
      assert [last][..0] == [];
    }
  }

  /** Filtering by three predicates of which every element satisfies
      exactly one splits the elements between the three results. */
  lemma {:induction false} FilterSplit<T(!new)>(s: seq<T>, p: T -> bool, q: T -> bool, r: T -> bool)
    requires forall x :: x in s ==> (p(x) && !q(x) && !r(x)) || (!p(x) && q(x) && !r(x)) || (!p(x) && !q(x) && r(x))
    ensures multiset(Filter(s, p)) + multiset(Filter(s, q)) + multiset(Filter(s, r)) == multiset(s)
    decreases |s|
  {
    if s != [] {
      assert s == [s[0]] + s[1..];
      FilterSplit(s[1..], p, q, r);
    }
  }

  /** Filtering by two predicates of which every element satisfies
      exactly one splits the elements between the two results. */
  lemma {:induction false} FilterSplit2<T(!new)>(s: seq<T>, p: T -> bool, q: T -> bool)
    requires forall x :: x in s ==> p(x) != q(x)
    ensures multiset(Filter(s, p)) + multiset(Filter(s, q)) == multiset(s)
    decreases |s|
  {
    if s != [] {
      assert s == [s[0]] + s[1..];
      FilterSplit2(s[1..], p, q);
    }
  }

  /** Nothing passes a filter no element satisfies. */
  lemma {:induction false} FilterNone<T(!new)>(s: seq<T>, p: T -> bool)
    requires forall x :: x in s ==> !p(x)
    ensures Filter(s, p) == []
    decreases |s|
  {
    if s != [] {
      assert s[0] in s;
      FilterNone(s[1..], p);
    }
  }

  /** Filters by predicates that agree on the elements are equal. */
  lemma {:induction false} FilterSame<T(!new)>(s: seq<T>, p: T -> bool, q: T -> bool)
    requires forall x :: x in s ==> p(x) == q(x)
    ensures Filter(s, p) == Filter(s, q)
    decreases |s|
  {
    if s != [] {
      FilterSame(s[1..], p, q);
    }
  }
}
