/** Row-sequence operations shared by the warehouse queries and by pandas:
    ORDER BY ... DESC, WHERE-style filtering, LIMIT and `DataFrame.head`. */
module Ordering {

  /** The elements of `s` come with non-increasing keys. */
  predicate SortedDesc<T>(s: seq<T>, key: T -> int)
  {
    forall i, j :: 0 <= i < j < |s| ==> key(s[i]) >= key(s[j])
  }

  /** Inserts `x` in front of the first element whose key is not larger, so
      that among equal keys the element inserted later comes first. */
  function Insert<T>(x: T, s: seq<T>, key: T -> int): (r: seq<T>)
    requires SortedDesc(s, key)
    ensures |r| == |s| + 1
    ensures r[0] == x || (s != [] && r[0] == s[0])
    ensures SortedDesc(r, key)
    ensures multiset(r) == multiset(s) + multiset{x}
  {
    if s == [] || key(x) >= key(s[0]) then [x] + s
    else
      var rest := Insert(x, s[1..], key);
      assert s == [s[0]] + s[1..];
      [s[0]] + rest
  }

  /** ORDER BY key DESC. The order among equal keys is fixed here (input
      order is kept); the warehouse leaves it unspecified. */
  function SortDesc<T>(s: seq<T>, key: T -> int): (r: seq<T>)
    ensures SortedDesc(r, key)
    ensures multiset(r) == multiset(s)
  {
    if s == [] then []
    else
      assert s == [s[0]] + s[1..];
      Insert(s[0], SortDesc(s[1..], key), key)
  }

  /** The elements of `s` that satisfy `p`, in their original order. */
  function Filter<T>(s: seq<T>, p: T -> bool): (r: seq<T>)
    ensures |r| <= |s|
    ensures forall i :: 0 <= i < |r| ==> p(r[i])
  {
    if s == [] then [] else (if p(s[0]) then [s[0]] else []) + Filter(s[1..], p)
  }

  /** The filter keeps exactly the elements that satisfy `p`. */
  lemma {:induction false} FilterMembers<T>(s: seq<T>, p: T -> bool, x: T)
    ensures x in Filter(s, p) <==> x in s && p(x)
  {
    if s != [] {
      FilterMembers(s[1..], p, x);
      assert s == [s[0]] + s[1..];
    }
  }

  /** SQL `LIMIT n`: at most the first `n` elements. */
  function Take<T>(s: seq<T>, n: nat): (r: seq<T>)
    ensures |r| <= n && |r| <= |s|
    ensures r == s[..|r|]
    ensures |r| == n || r == s
  {
    if n < |s| then s[..n] else s
  }

  /** pandas `head(n)`: the first `n` rows; for a negative `n`, every row
      except the last `-n`. */
  function Head<T>(s: seq<T>, n: int): (r: seq<T>)
    ensures |r| <= |s| && r == s[..|r|]
    ensures n >= 0 ==> |r| == (if n < |s| then n else |s|)
    ensures n < 0 ==> |r| == (if |s| + n > 0 then |s| + n else 0)
  {
    if n >= 0 then (if n < |s| then s[..n] else s)
    else if |s| + n > 0 then s[..|s| + n]
    else []
  }

  /** A prefix of a sorted sequence is sorted. */
  lemma SortedDescPrefix<T>(s: seq<T>, key: T -> int, m: nat)
    requires SortedDesc(s, key) && m <= |s|
    ensures SortedDesc(s[..m], key)
  {
  }

  /** Taking the first `n` matches of a filter is filtering a prefix of the
      input: there is a cut `k` such that the result holds exactly the matches
      among the first `k` elements, and either `n` matches were found or the
      whole input was read. */
  lemma {:induction false} TakeOfFilterIsFilterOfPrefix<T>(s: seq<T>, p: T -> bool, n: nat)
    ensures exists k :: 0 <= k <= |s| && Take(Filter(s, p), n) == Filter(s[..k], p)
                        && (|Take(Filter(s, p), n)| == n || k == |s|)
  {
    if n == 0 || s == [] {
      assert s[..0] == [];
      assert Take(Filter(s, p), n) == Filter(s[..0], p);
    } else {
      var n' := if p(s[0]) then n - 1 else n;
      TakeOfFilterIsFilterOfPrefix(s[1..], p, n');
      var k :| 0 <= k <= |s[1..]| && Take(Filter(s[1..], p), n') == Filter(s[1..][..k], p)
               && (|Take(Filter(s[1..], p), n')| == n' || k == |s[1..]|);
      var head := if p(s[0]) then [s[0]] else [];
      assert Filter(s, p) == head + Filter(s[1..], p);
      var u := s[..k + 1];
      assert u != [] && u[0] == s[0] && u[1..] == s[1..][..k];
      assert Filter(u, p) == head + Filter(u[1..], p);
      assert Take(Filter(s, p), n) == head + Take(Filter(s[1..], p), n');
    }
  }

  /** No element occurs twice. */
  predicate NoDuplicates<T(==)>(s: seq<T>)
  {
    forall i, j :: 0 <= i < j < |s| ==> s[i] != s[j]
  }

  /** In a sequence without duplicates every element occurs once. */
  lemma {:induction false} OccursOnce<T>(s: seq<T>, x: T)
    requires NoDuplicates(s)
    ensures multiset(s)[x] <= 1
  {
    if s != [] {
      assert s == [s[0]] + s[1..];
      OccursOnce(s[1..], x);
      if x == s[0] {
        assert x !in s[1..];
      }
    }
  }

  /** An element found at two positions occurs at least twice. */
  lemma OccursTwice<T>(s: seq<T>, i: nat, j: nat)
    requires i < j < |s| && s[i] == s[j]
    ensures multiset(s)[s[i]] >= 2
  {
    assert s == s[..i] + [s[i]] + s[i + 1..j] + [s[j]] + s[j + 1..];
  }

  /** Reordering keeps a sequence free of duplicates. */
  lemma PermutationKeepsNoDuplicates<T>(a: seq<T>, b: seq<T>)
    requires multiset(a) == multiset(b) && NoDuplicates(a)
    ensures NoDuplicates(b)
  {
    forall i, j | 0 <= i < j < |b| ensures b[i] != b[j] {
      if b[i] == b[j] {
        OccursTwice(b, i, j);
        OccursOnce(a, b[i]);
      }
    }
  }
}
