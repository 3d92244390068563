/** `Array.prototype.filter` and the order facts the engine relies on. */
module Sequences {

  /** The elements of `s` that satisfy `p`, in their original order. */
  function Filter<T(!new)>(s: seq<T>, p: T -> bool): (r: seq<T>)
    ensures |r| <= |s|
    ensures forall x :: x in r <==> x in s && p(x)
  {
    if s == [] then [] else (if p(s[0]) then [s[0]] else []) + Filter(s[1..], p)
  }

  /** `a` is `b` with some elements left out, the rest kept in order. */
  predicate IsSubsequence<T(==)>(a: seq<T>, b: seq<T>)
    decreases |b|
  {
    if a == [] then true
    else if b == [] then false
    else (a[0] == b[0] && IsSubsequence(a[1..], b[1..])) || IsSubsequence(a, b[1..])
  }

  /** Filtering distributes over concatenation: the relative order of the survivors is kept. */
  lemma {:induction false} FilterConcat<T(!new)>(a: seq<T>, b: seq<T>, p: T -> bool)
    ensures Filter(a + b, p) == Filter(a, p) + Filter(b, p)
  {
    if a != [] {
      assert (a + b)[1..] == a[1..] + b;
      FilterConcat(a[1..], b, p);
    } else {
      assert a + b == b;
    }
  }

  /** Filtering a prefix one element longer adds at most that element. */
  lemma FilterSnoc<T(!new)>(s: seq<T>, k: nat, p: T -> bool)
    requires k < |s|
    ensures Filter(s[..k + 1], p) == Filter(s[..k], p) + (if p(s[k]) then [s[k]] else [])
  {
    assert s[..k + 1] == s[..k] + [s[k]];
    FilterConcat(s[..k], [s[k]], p);
  }

  lemma {:induction false} FilterIsSubsequence<T(!new)>(s: seq<T>, p: T -> bool)
    ensures IsSubsequence(Filter(s, p), s)
  {
    if s != [] {
      FilterIsSubsequence(s[1..], p);
      var r := Filter(s, p);
      if p(s[0]) {
        assert r[0] == s[0] && r[1..] == Filter(s[1..], p);
      } else {
        assert r == Filter(s[1..], p);
        if r != [] {
          assert IsSubsequence(r, s[1..]);
        }
      }
    }
  }

  /** A filter that keeps everything changes nothing. */
  lemma {:induction false} FilterAll<T(!new)>(s: seq<T>, p: T -> bool)
    requires forall x :: x in s ==> p(x)
    ensures Filter(s, p) == s
  {
    if s != [] {
      FilterAll(s[1..], p);
    }
  }

  ghost predicate NoDuplicates<T>(s: seq<T>) {
    forall i, j :: 0 <= i < j < |s| ==> s[i] != s[j]
  }

  lemma {:induction false} FilterNoDuplicates<T(!new)>(s: seq<T>, p: T -> bool)
    requires NoDuplicates(s)
    ensures NoDuplicates(Filter(s, p))
  {
    if s != [] {
      FilterNoDuplicates(s[1..], p);
      var tail := Filter(s[1..], p);
      forall k | 0 <= k < |s[1..]|
        ensures s[1..][k] != s[0]
      {
        assert s[1..][k] == s[k + 1];
      }
      assert s[0] !in tail;
    }
  }

  /** Filters by predicates that agree on every element give the same result. */
  lemma {:induction false} FilterSameOn<T(!new)>(s: seq<T>, p: T -> bool, q: T -> bool)
    requires forall x :: x in s ==> p(x) == q(x)
    ensures Filter(s, p) == Filter(s, q)
  {
    if s != [] {
      FilterSameOn(s[1..], p, q);
    }
  }

  /** The concatenation of `g(a)` over `s`, in order. */
  function FlatMap<A, B>(s: seq<A>, g: A -> seq<B>): seq<B> {
    if s == [] then [] else FlatMap(s[..|s| - 1], g) + g(s[|s| - 1])
  }

  lemma FlatMapSnoc<A, B>(s: seq<A>, k: nat, g: A -> seq<B>)
    requires k < |s|
    ensures FlatMap(s[..k + 1], g) == FlatMap(s[..k], g) + g(s[k])
  {
    assert s[..k + 1][..k] == s[..k];
  }

  lemma {:induction false} FlatMapMembership<A, B>(s: seq<A>, g: A -> seq<B>, x: B)
    ensures x in FlatMap(s, g) <==> exists a :: a in s && x in g(a)
  {
    if s != [] {
      var init := s[..|s| - 1];
      FlatMapMembership(init, g, x);
      assert s == init + [s[|s| - 1]];
      if exists a :: a in s && x in g(a) {
        var a :| a in s && x in g(a);
        if a != s[|s| - 1] {
          assert a in init;
        }
      }
    }
  }

  /** One step of a loop that appends `g(s[k])` for each `k` in turn. */
  lemma FlatMapStep<A, B>(acc: seq<B>, prev: seq<B>, next: seq<B>, s: seq<A>, k: nat, g: A -> seq<B>)
    requires k < |s|
    requires prev == acc + FlatMap(s[..k], g)
    requires next == prev + g(s[k])
    ensures next == acc + FlatMap(s[..k + 1], g)
  {
    FlatMapSnoc(s, k, g);
  }
}
