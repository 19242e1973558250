/** The JavaScript array built-ins the pages call, on immutable sequences:
    `filter`, `find` and the stable `sort` with a comparator. */
module Sequences {
  import opened Wrappers

  /** `s.filter(keep)`: the elements that pass, in their original order. */
  function Filter<T(!new)>(s: seq<T>, keep: T -> bool): (r: seq<T>)
    ensures |r| <= |s|
    ensures forall x :: x in r <==> x in s && keep(x)
  {
    if s == [] then []
    else (if keep(s[0]) then [s[0]] else []) + Filter(s[1..], keep)
  }

  /** a is b with some elements dropped and none reordered or added. */
  predicate IsSubsequence<T(==)>(a: seq<T>, b: seq<T>)
    decreases |b|
  {
    if a == [] then true
    else if b == [] then false
    else if a[0] == b[0] then IsSubsequence(a[1..], b[1..])
    else IsSubsequence(a, b[1..])
  }

  /** Filtering only drops elements: the result is a subsequence. */
  lemma {:induction false} FilterIsSubsequence<T(!new)>(s: seq<T>, keep: T -> bool)
    ensures IsSubsequence(Filter(s, keep), s)
  {
    if s != [] {
      FilterIsSubsequence(s[1..], keep);
      var rest := Filter(s[1..], keep);
      if keep(s[0]) {
        assert Filter(s, keep) == [s[0]] + rest;
        assert ([s[0]] + rest)[1..] == rest;
      } else {
        assert Filter(s, keep) == rest;
        if rest != [] {
          assert rest[0] in rest;
        }
      }
    }
  }

  /** `filter` keeps every copy of a passing element and no copy of a
      failing one: the count of x in the result is its count in the input
      when x passes, and zero otherwise. */
  lemma {:induction false} FilterCount<T(!new)>(s: seq<T>, keep: T -> bool, x: T)
    ensures multiset(Filter(s, keep))[x] == if keep(x) then multiset(s)[x] else 0
  {
    if s != [] {
      FilterCount(s[1..], keep, x);
      assert s == [s[0]] + s[1..];
      assert multiset(s) == multiset([s[0]]) + multiset(s[1..]);
      var h := if keep(s[0]) then [s[0]] else [];
      assert Filter(s, keep) == h + Filter(s[1..], keep);
      assert multiset(Filter(s, keep)) == multiset(h) + multiset(Filter(s[1..], keep));
    }
  }

  /** When exactly the element at k fails, the filter is the list without
      that element. */
  lemma {:induction false} FilterDropsOne<T(!new)>(s: seq<T>, keep: T -> bool, k: nat)
    requires k < |s| && !keep(s[k])
    requires forall i :: 0 <= i < |s| && i != k ==> keep(s[i])
    ensures Filter(s, keep) == s[..k] + s[k + 1..]
  {
    var t := s[1..];
    assert [s[0]] + t == s;
    FilterCons(s[0], t, keep);
    if k == 0 {
      forall i | 0 <= i < |t| ensures keep(t[i]) { assert t[i] == s[i + 1]; }
      FilterKeepsAll(t, keep);
    } else {
      forall i | 0 <= i < |t| && i != k - 1 ensures keep(t[i]) { assert t[i] == s[i + 1]; }
      FilterDropsOne(t, keep, k - 1);
      DropAfterHead(s, k);
    }
  }

  /** Dropping index k - 1 of the tail and putting the head back drops
      index k of the whole list. */
  lemma DropAfterHead<T>(s: seq<T>, k: nat)
    requires 0 < k < |s|
    ensures [s[0]] + (s[1..][..k - 1] + s[1..][k..]) == s[..k] + s[k + 1..]
  {
    assert [s[0]] + s[1..][..k - 1] == s[..k];
    assert s[1..][k..] == s[k + 1..];
  }

  /** When every element passes, the filter is the identity. */
  lemma {:induction false} FilterKeepsAll<T(!new)>(s: seq<T>, keep: T -> bool)
    requires forall i :: 0 <= i < |s| ==> keep(s[i])
    ensures Filter(s, keep) == s
  {
    if s != [] {
      FilterKeepsAll(s[1..], keep);
      assert [s[0]] + s[1..] == s;
    }
  }

  /** When no element passes, the filter is empty. */
  lemma {:induction false} FilterKeepsNone<T(!new)>(s: seq<T>, keep: T -> bool)
    requires forall i :: 0 <= i < |s| ==> !keep(s[i])
    ensures Filter(s, keep) == []
  {
    if s != [] {
      FilterKeepsNone(s[1..], keep);
    }
  }

  /** `s.find(pred)`: the first element that passes, or `undefined`. */
  function Find<T>(s: seq<T>, pred: T -> bool): (r: Option<T>)
    ensures r.None? <==> forall i :: 0 <= i < |s| ==> !pred(s[i])
    ensures r.Some? ==> pred(r.value)
  {
    if s == [] then None
    else if pred(s[0]) then Some(s[0])
    else
      var r := Find(s[1..], pred);
      assert r.None? ==> forall i :: 0 <= i < |s| ==> !pred(s[i]) by {
        if r.None? {
          forall i | 0 < i < |s| ensures !pred(s[i]) { assert s[i] == s[1..][i - 1]; }
        }
      }
      r
  }

  /** `find` returns the element at the first index whose element passes. */
  lemma {:induction false} FindIsFirst<T>(s: seq<T>, pred: T -> bool, i: nat)
    requires i < |s| && pred(s[i])
    requires forall j :: 0 <= j < i ==> !pred(s[j])
    ensures Find(s, pred) == Some(s[i])
  {
    if i > 0 {
      forall j | 0 <= j < i - 1 ensures !pred(s[1..][j]) { assert s[1..][j] == s[j + 1]; }
      FindIsFirst(s[1..], pred, i - 1);
    }
  }

  /** The comparator orders the elements as a total preorder: any two are
      comparable, and "no later than" is transitive. */
  ghost predicate TotalPreorder<T(!new)>(cmp: (T, T) -> int)
  {
    && (forall a, b :: cmp(a, b) <= 0 || cmp(b, a) <= 0)
    && (forall a, b, c :: cmp(a, b) <= 0 && cmp(b, c) <= 0 ==> cmp(a, c) <= 0)
  }

  /** Every element sorts no later than every element after it. */
  ghost predicate Sorted<T>(s: seq<T>, cmp: (T, T) -> int)
  {
    forall i, j :: 0 <= i < j < |s| ==> cmp(s[i], s[j]) <= 0
  }

  /** Insert x, which came before everything in s, in front of the first
      element it sorts no later than. */
  function Insert<T>(x: T, s: seq<T>, cmp: (T, T) -> int): (r: seq<T>)
    ensures multiset(r) == multiset(s) + multiset{x}
  {
    if s == [] then [x]
    else if cmp(x, s[0]) <= 0 then [x] + s
    else
      assert s == [s[0]] + s[1..];
      [s[0]] + Insert(x, s[1..], cmp)
  }

  /** `[...s].sort(cmp)`: a stable sort of a copy (ECMAScript requires
      `Array.prototype.sort` to be stable), as an insertion sort. */
  function Sort<T>(s: seq<T>, cmp: (T, T) -> int): (r: seq<T>)
    ensures multiset(r) == multiset(s)
  {
    if s == [] then []
    else
      assert s == [s[0]] + s[1..];
      Insert(s[0], Sort(s[1..], cmp), cmp)
  }

  lemma {:induction false} InsertSorted<T(!new)>(x: T, s: seq<T>, cmp: (T, T) -> int)
    requires TotalPreorder(cmp) && Sorted(s, cmp)
    ensures Sorted(Insert(x, s, cmp), cmp)
  {
    if s != [] && cmp(x, s[0]) > 0 {
      InsertSorted(x, s[1..], cmp);
      var r := Insert(x, s, cmp);
      var tail := Insert(x, s[1..], cmp);
      assert r == [s[0]] + tail;
      forall j | 0 < j < |r|
        ensures cmp(r[0], r[j]) <= 0
      {
        assert r[j] in multiset(tail);
        assert r[j] == x || r[j] in s[1..];
      }
    }
  }

  /** The sort orders its output. */
  lemma {:induction false} SortSorted<T(!new)>(s: seq<T>, cmp: (T, T) -> int)
    requires TotalPreorder(cmp)
    ensures Sorted(Sort(s, cmp), cmp)
  {
    if s != [] {
      SortSorted(s[1..], cmp);
      InsertSorted(s[0], Sort(s[1..], cmp), cmp);
    }
  }

  /** Stability: an input that is already in order comes back unchanged. */
  lemma {:induction false} SortKeepsSortedInput<T>(s: seq<T>, cmp: (T, T) -> int)
    requires Sorted(s, cmp)
    ensures Sort(s, cmp) == s
  {
    if s != [] {
      assert Sorted(s[1..], cmp);
      SortKeepsSortedInput(s[1..], cmp);
      assert [s[0]] + s[1..] == s;
    }
  }

  /** The elements the comparator ranks equal to k. */
  function SameRank<T>(cmp: (T, T) -> int, k: T): T -> bool
  {
    (e: T) => cmp(e, k) <= 0 && cmp(k, e) <= 0
  }

  /** Filters by two tests that agree everywhere are equal. */
  lemma {:induction false} FilterSameTest<T(!new)>(s: seq<T>, p: T -> bool, q: T -> bool)
    requires forall x :: p(x) == q(x)
    ensures Filter(s, p) == Filter(s, q)
  {
    if s != [] {
      FilterSameTest(s[1..], p, q);
    }
  }

  /** The filter of a non-empty list: its head if it passes, then the
      filter of its tail. */
  lemma FilterCons<T(!new)>(x: T, s: seq<T>, keep: T -> bool)
    ensures Filter([x] + s, keep) == (if keep(x) then [x] else []) + Filter(s, keep)
  {
    assert ([x] + s)[0] == x;
    assert ([x] + s)[1..] == s;
  }

  /** Putting y in front of two lists whose filters differ only by a
      leading x keeps them differing only by x, when x and y do not both
      pass. */
  lemma FilterSwapFront<T(!new)>(x: T, y: T, r: seq<T>, s: seq<T>, keep: T -> bool)
    requires !(keep(x) && keep(y))
    requires Filter(r, keep) == (if keep(x) then [x] else []) + Filter(s, keep)
    ensures Filter([y] + r, keep) == (if keep(x) then [x] else []) + Filter([y] + s, keep)
  {
    FilterCons(y, r, keep);
    FilterCons(y, s, keep);
    SwapFronts(if keep(x) then [x] else [], if keep(y) then [y] else [], Filter(s, keep));
  }

  /** Two prefixes of which one is empty can be put in either order. */
  lemma SwapFronts<T>(a: seq<T>, b: seq<T>, f: seq<T>)
    requires a == [] || b == []
    ensures b + (a + f) == a + (b + f)
  {
    if a == [] {
      assert a + f == f;
      assert b + f == a + (b + f);
    } else {
      assert b + (a + f) == a + f;
      assert b + f == f;
    }
  }

  /** Inserting x into s puts x in front of the members of its own rank
      class already there and leaves every other rank class alone. */
  lemma {:induction false} FilterInsert<T(!new)>(x: T, s: seq<T>, cmp: (T, T) -> int, k: T)
    requires TotalPreorder(cmp)
    ensures Filter(Insert(x, s, cmp), SameRank(cmp, k)) ==
      (if SameRank(cmp, k)(x) then [x] else []) + Filter(s, SameRank(cmp, k))
  {
    var keep := SameRank(cmp, k);
    if s == [] || cmp(x, s[0]) <= 0 {
      assert Insert(x, s, cmp) == [x] + s;
      FilterCons(x, s, keep);
    } else {
      var rest := Insert(x, s[1..], cmp);
      FilterInsert(x, s[1..], cmp, k);
      SameRankCompare(cmp, k, x, s[0]);
      FilterSwapFront(x, s[0], rest, s[1..], keep);
      assert Insert(x, s, cmp) == [s[0]] + rest;
      assert [s[0]] + s[1..] == s;
    }
  }

  /** Two members of one rank class compare no later than each other. */
  lemma SameRankCompare<T(!new)>(cmp: (T, T) -> int, k: T, a: T, b: T)
    requires TotalPreorder(cmp)
    ensures SameRank(cmp, k)(a) && SameRank(cmp, k)(b) ==> cmp(a, b) <= 0
  {
  }

  /** Stability: the sort keeps every rank class in its input order, so
      elements the comparator ranks equal come out in the order they went in. */
  lemma {:induction false} SortStable<T(!new)>(s: seq<T>, cmp: (T, T) -> int, k: T)
    requires TotalPreorder(cmp)
    ensures Filter(Sort(s, cmp), SameRank(cmp, k)) == Filter(s, SameRank(cmp, k))
  {
    if s != [] {
      SortStable(s[1..], cmp, k);
      FilterInsert(s[0], Sort(s[1..], cmp), cmp, k);
      FilterCons(s[0], s[1..], SameRank(cmp, k));
      assert [s[0]] + s[1..] == s;
    }
  }
}
