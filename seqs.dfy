/** Sequence operations the loaders rely on: list comprehensions with a condition,
    Python's `list.remove`, and the order facts proved about them. */
module Seqs {

  /** `a` is obtained from `b` by deleting elements: same order, nothing added. */
  predicate IsSubsequence<T(==)>(a: seq<T>, b: seq<T>)
    decreases |b|
  {
    if a == [] then true
    else if b == [] then false
    else (a[0] == b[0] && IsSubsequence(a[1..], b[1..])) || IsSubsequence(a, b[1..])
  }

  /** No value occurs twice. */
  predicate NoDuplicates<T(==)>(s: seq<T>)
  {
    forall i, j :: 0 <= i < j < |s| ==> s[i] != s[j]
  }

  /** The comprehension `[x for x in s if keep(x)]`: exactly the elements of `s` that
      satisfy `keep`, in their order in `s`. */
  function Filter<T(==,!new)>(keep: T -> bool, s: seq<T>): (r: seq<T>)
    ensures forall x :: x in r <==> x in s && keep(x)
    ensures IsSubsequence(r, s)
    decreases |s|
  {
    if s == [] then []
    else
      assert forall x :: x in s <==> x == s[0] || x in s[1..];
      if keep(s[0]) then [s[0]] + Filter(keep, s[1..]) else Filter(keep, s[1..])
  }

  /** Whether a value is none of `xs`: the condition `x not in xs`. */
  function NotIn<T(==)>(xs: seq<T>): T -> bool
  {
    (x: T) => x !in xs
  }

  /** One step of a filter: the first element is kept or dropped, then the rest follows. */
  lemma FilterCons<T(!new)>(keep: T -> bool, x: T, s: seq<T>)
    ensures Filter(keep, [x] + s) == if keep(x) then [x] + Filter(keep, s) else Filter(keep, s)
  {
    assert ([x] + s)[1..] == s;
  }

  /** The comprehension `[f(x) for x in s]`. */
  function Map<A, B>(f: A -> B, s: seq<A>): (r: seq<B>)
    ensures |r| == |s|
    ensures forall i :: 0 <= i < |s| ==> r[i] == f(s[i])
  {
    seq(|s|, i requires 0 <= i < |s| => f(s[i]))
  }

  /** Projecting the kept elements gives the projection of the whole list with some
      elements left out, in the same order. */
  lemma {:induction false} MapFilterSubsequence<A(!new), B>(f: A -> B, keep: A -> bool, s: seq<A>)
    ensures IsSubsequence(Map(f, Filter(keep, s)), Map(f, s))
    decreases |s|
  {
    if s != [] {
      MapFilterSubsequence(f, keep, s[1..]);
      assert Map(f, s)[1..] == Map(f, s[1..]);
      if keep(s[0]) {
        var kept := Filter(keep, s[1..]);
        assert Map(f, [s[0]] + kept)[1..] == Map(f, kept);
      }
    }
  }

  /** Python's `s.remove(x)`: drops the first element equal to `x` (the source only
      removes elements it has just found in the list, which the requires states). */
  function RemoveFirst<T(==)>(s: seq<T>, x: T): (r: seq<T>)
    requires x in s
    ensures multiset(r) == multiset(s) - multiset{x}
  {
    assert s == [s[0]] + s[1..];
    if s[0] == x then s[1..] else [s[0]] + RemoveFirst(s[1..], x)
  }

  /** Removing an element the filter rejects does not change what the filter keeps. */
  lemma {:induction false} FilterRemoveFirst<T(!new)>(keep: T -> bool, s: seq<T>, x: T)
    requires x in s && !keep(x)
    ensures Filter(keep, RemoveFirst(s, x)) == Filter(keep, s)
  {
    if s[0] != x {
      FilterRemoveFirst(keep, s[1..], x);
      assert ([s[0]] + RemoveFirst(s[1..], x))[1..] == RemoveFirst(s[1..], x);
    }
  }

  /** A filter that keeps every element is the identity. */
  lemma {:induction false} FilterKeepsAll<T(!new)>(keep: T -> bool, s: seq<T>)
    requires forall x :: x in s ==> keep(x)
    ensures Filter(keep, s) == s
  {
    if s != [] {
      FilterKeepsAll(keep, s[1..]);
      assert s == [s[0]] + s[1..];
    }
  }

  /** A filter that rejects every element keeps nothing. */
  lemma {:induction false} FilterRejectsAll<T(!new)>(keep: T -> bool, s: seq<T>)
    requires forall x :: x in s ==> !keep(x)
    ensures Filter(keep, s) == []
  {
    if s != [] {
      FilterRejectsAll(keep, s[1..]);
    }
  }

  /** A filter and its complement split the elements between them. */
  lemma {:induction false} FilterPartition<T(!new)>(keep: T -> bool, drop: T -> bool, s: seq<T>)
    requires forall x :: drop(x) <==> !keep(x)
    ensures multiset(s) == multiset(Filter(keep, s)) + multiset(Filter(drop, s))
  {
    if s != [] {
      FilterPartition(keep, drop, s[1..]);
      assert s == [s[0]] + s[1..];
    }
  }

  /** Filtering a list without duplicates gives a list without duplicates. */
  lemma {:induction false} FilterNoDuplicates<T(!new)>(keep: T -> bool, s: seq<T>)
    requires NoDuplicates(s)
    ensures NoDuplicates(Filter(keep, s))
  {
    if s != [] {
      FilterNoDuplicates(keep, s[1..]);
      var rest := Filter(keep, s[1..]);
      assert s[0] !in s[1..] by {
        forall j | 0 <= j < |s[1..]| ensures s[1..][j] != s[0] {
          assert s[1..][j] == s[j + 1];
        }
      }
      assert s[0] !in rest;
      if keep(s[0]) {
        var r := [s[0]] + rest;
        forall i, j | 0 <= i < j < |r| ensures r[i] != r[j] {
          if i == 0 {
            assert r[j] == rest[j - 1];
          } else {
            assert r[i] == rest[i - 1] && r[j] == rest[j - 1];
          }
        }
      }
    }
  }
}
