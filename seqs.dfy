/**
 * The array operations the frontend's memoised views are built from:
 * `Array.prototype.filter`, `Array.from(new Set(...))` and the default `sort()`.
 */
module Seqs {
  import opened Text

  /** `a` is `b` with some elements left out and the rest kept in their original order. */
  predicate IsSubsequence<T(==,!new)>(a: seq<T>, b: seq<T>)
    decreases |b|
  {
    if a == [] then true
    else if b == [] then false
    else (a[0] == b[0] && IsSubsequence(a[1..], b[1..])) || IsSubsequence(a, b[1..])
  }

  /** No value occurs twice. */
  predicate NoDuplicates<T(==,!new)>(s: seq<T>)
  {
    forall i, j :: 0 <= i < j < |s| ==> s[i] != s[j]
  }

  /**
   * `s.filter(p)`: the elements satisfying `p`, each as often as in `s`,
   * in their original order.
   */
  function Filter<T(==,!new)>(s: seq<T>, p: T -> bool): (r: seq<T>)
    ensures IsSubsequence(r, s)
    ensures forall x :: multiset(r)[x] == if p(x) then multiset(s)[x] else 0
  {
    if s == [] then []
    else
      assert s == [s[0]] + s[1..];
      if p(s[0]) then [s[0]] + Filter(s[1..], p) else Filter(s[1..], p)
  }

  /** An element is kept exactly when it is in `s` and satisfies `p`. */
  lemma FilterMembership<T(!new)>(s: seq<T>, p: T -> bool)
    ensures forall x :: x in Filter(s, p) <==> x in s && p(x)
  {
    forall x
      ensures x in Filter(s, p) <==> x in s && p(x)
    {
      assert x in Filter(s, p) <==> multiset(Filter(s, p))[x] > 0;
      assert x in s <==> multiset(s)[x] > 0;
    }
  }

  /** A predicate that every element satisfies keeps the whole sequence, unchanged. */
  lemma {:induction false} FilterKeepsAll<T(!new)>(s: seq<T>, p: T -> bool)
    requires forall i :: 0 <= i < |s| ==> p(s[i])
    ensures Filter(s, p) == s
  {
    if s != [] {
      FilterKeepsAll(s[1..], p);
    }
  }

  /** `Array.from(new Set(s))`: every value of `s` exactly once. */
  function Dedup<T(==,!new)>(s: seq<T>): (r: seq<T>)
    ensures forall x :: x in r <==> x in s
    ensures NoDuplicates(r)
  {
    if s == [] then []
    else
      var init := Dedup(s[..|s| - 1]);
      assert s == s[..|s| - 1] + [s[|s| - 1]];
      if s[|s| - 1] in s[..|s| - 1] then init else init + [s[|s| - 1]]
  }

  /** Ordered by JavaScript's default string comparison. */
  predicate Ascending(s: seq<string>)
  {
    forall i, j :: 0 <= i < j < |s| ==> LexLe(s[i], s[j])
  }

  lemma LeastOfAscending(x: string, s: seq<string>)
    requires Ascending(s) && s != [] && LexLe(x, s[0])
    ensures forall z | z in s :: LexLe(x, z)
  {
    forall z | z in s
      ensures LexLe(x, z)
    {
      var j :| 0 <= j < |s| && s[j] == z;
      if j > 0 {
        LexLeTransitive(x, s[0], z);
      }
    }
  }

  lemma PrependAscending(y: string, t: seq<string>)
    requires Ascending(t)
    requires forall z | z in t :: LexLe(y, z)
    ensures Ascending([y] + t)
  {
    forall i, j | 0 <= i < j < |[y] + t|
      ensures LexLe(([y] + t)[i], ([y] + t)[j])
    {
      if i == 0 {
        assert ([y] + t)[j] == t[j - 1];
        assert t[j - 1] in t;
      }
    }
  }

  /** Insert `x` before the first element it does not sort after. */
  function Insert(x: string, s: seq<string>): (r: seq<string>)
    ensures multiset(r) == multiset(s) + multiset{x}
  {
    if s == [] then [x]
    else if LexLe(x, s[0]) then [x] + s
    else
      assert s == [s[0]] + s[1..];
      [s[0]] + Insert(x, s[1..])
  }

  lemma {:induction false} InsertAscending(x: string, s: seq<string>)
    requires Ascending(s)
    ensures Ascending(Insert(x, s))
  {
    if s != [] {
      if LexLe(x, s[0]) {
        LeastOfAscending(x, s);
        PrependAscending(x, s);
      } else {
        var rest := Insert(x, s[1..]);
        InsertAscending(x, s[1..]);
        LexLeTotal(x, s[0]);
        forall z | z in rest
          ensures LexLe(s[0], z)
        {
          assert z in multiset(rest);
          if z != x {
            assert z in multiset(s[1..]);
            var j :| 0 <= j < |s[1..]| && s[1..][j] == z;
            assert s[j + 1] == z;
          }
        }
        PrependAscending(s[0], rest);
      }
    }
  }

  lemma {:induction false} InsertNoDuplicates(x: string, s: seq<string>)
    requires NoDuplicates(s) && x !in s
    ensures NoDuplicates(Insert(x, s))
  {
    if s != [] && !LexLe(x, s[0]) {
      var rest := Insert(x, s[1..]);
      InsertNoDuplicates(x, s[1..]);
      assert s[0] !in multiset(rest);
      assert s[0] !in rest;
    }
  }

  /** `s.sort()` with the default comparison, as insertion sort. */
  function Sort(s: seq<string>): (r: seq<string>)
    ensures multiset(r) == multiset(s)
  {
    if s == [] then []
    else
      assert s == [s[0]] + s[1..];
      Insert(s[0], Sort(s[1..]))
  }

  /** The sorted sequence is ascending, and it has no duplicates when the input had none. */
  lemma {:induction false} SortOrders(s: seq<string>)
    ensures Ascending(Sort(s))
    ensures NoDuplicates(s) ==> NoDuplicates(Sort(s))
  {
    if s != [] {
      SortOrders(s[1..]);
      var rest := Sort(s[1..]);
      InsertAscending(s[0], rest);
      if NoDuplicates(s) {
        assert s[0] !in multiset(s[1..]);
        assert s[0] !in rest;
        InsertNoDuplicates(s[0], rest);
      }
    }
  }

  /** Sorting keeps exactly the values of the input. */
  lemma SortMembership(s: seq<string>, x: string)
    ensures x in Sort(s) <==> x in s
  {
    assert x in Sort(s) <==> x in multiset(Sort(s));
  }
}
