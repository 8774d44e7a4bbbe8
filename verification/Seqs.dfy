/** Sequences used as duplicate-free lists: filtering, permutation and counting. */
module Seqs {
  ghost predicate NoDup<T>(s: seq<T>) {
    forall i, j :: 0 <= i < j < |s| ==> s[i] != s[j]
  }

  /** The elements of `s` that are in `keep`, in order. */
  function Only<T(==)>(s: seq<T>, keep: set<T>): (r: seq<T>)
    ensures forall x :: x in r ==> x in s && x in keep
    ensures forall x :: x in s && x in keep ==> x in r
    ensures NoDup(s) ==> NoDup(r)
    ensures |r| <= |s|
    ensures |r| == |s| <==> r == s
  {
    if s == [] then [] else
      var r, x := Only(s[..|s| - 1], keep), s[|s| - 1];
      assert s == s[..|s| - 1] + [x];
      if x in keep then r + [x] else r
  }

  /** The elements of `s` other than `gone`, in order. */
  function Without<T(==)>(s: seq<T>, gone: T): (r: seq<T>)
    ensures forall x :: x in r ==> x in s && x != gone
    ensures forall x :: x in s && x != gone ==> x in r
    ensures NoDup(s) ==> NoDup(r)
    ensures gone !in s ==> r == s
    ensures gone in s && NoDup(s) ==> |r| == |s| - 1
  {
    if s == [] then [] else
      var r, x := Without(s[..|s| - 1], gone), s[|s| - 1];
      assert s == s[..|s| - 1] + [x];
      assert NoDup(s) ==> x !in s[..|s| - 1];
      if x != gone then r + [x] else r
  }

  /** 0, 1, ..., n - 1 */
  function Iota(n: nat): (r: seq<nat>)
    ensures |r| == n && (forall i :: 0 <= i < n ==> r[i] == i)
    ensures NoDup(r)
    ensures forall x :: x in r ==> x < n
    ensures forall x: nat :: x < n ==> x in r
  {
    if n == 0 then [] else Iota(n - 1) + [n - 1]
  }

  lemma {:induction false} OnlyAll<T>(s: seq<T>, keep: set<T>)
    ensures Only(s, keep) == s <==> forall x :: x in s ==> x in keep
  {
    if s != [] {
      var front, x := s[..|s| - 1], s[|s| - 1];
      assert s == front + [x];
      OnlyAll(front, keep);
      if x !in keep { assert x in s; }
    }
  }

  lemma OnlySnoc<T>(s: seq<T>, x: T, keep: set<T>)
    ensures Only(s + [x], keep) == Only(s, keep) + (if x in keep then [x] else [])
  {
    assert (s + [x])[..|s|] == s;
  }

  lemma OnlyNext<T>(s: seq<T>, k: nat, keep: set<T>)
    requires k < |s|
    ensures Only(s[..k + 1], keep) == Only(s[..k], keep) + (if s[k] in keep then [s[k]] else [])
  {
    assert s[..k + 1][..k] == s[..k];
  }

  lemma {:induction false} OnlyConcat<T>(a: seq<T>, b: seq<T>, keep: set<T>)
    ensures Only(a + b, keep) == Only(a, keep) + Only(b, keep)
  {
    if b == [] {
      assert a + b == a;
    } else {
      hide Only;
      var front, x := b[..|b| - 1], b[|b| - 1];
      var last := if x in keep then [x] else [];
      assert b == front + [x] && a + b == (a + front) + [x];
      calc {
        Only(a + b, keep);
        { OnlySnoc(a + front, x, keep); }
        Only(a + front, keep) + last;
        { OnlyConcat(a, front, keep); }
        (Only(a, keep) + Only(front, keep)) + last;
        Only(a, keep) + (Only(front, keep) + last);
        { OnlySnoc(front, x, keep); }
        Only(a, keep) + Only(b, keep);
      }
    }
  }

  lemma WithoutNext<T>(s: seq<T>, k: nat, gone: T)
    requires k < |s|
    ensures Without(s[..k + 1], gone) == Without(s[..k], gone) + (if s[k] != gone then [s[k]] else [])
  {
    assert s[..k + 1][..k] == s[..k];
  }

  /** A duplicate-free list has as many elements as its set of elements. */
  lemma {:induction false} NoDupSize<T>(s: seq<T>, elements: set<T>)
    requires NoDup(s)
    requires forall x :: x in s <==> x in elements
    ensures |s| == |elements|
  {
    if s == [] {
      assert elements == {};
    } else {
      var front, x := s[..|s| - 1], s[|s| - 1];
      assert s == front + [x];
      assert x !in front;
      NoDupSize(front, elements - {x});
    }
  }

  lemma {:induction false} NoDupCount<T>(s: seq<T>, x: T)
    requires NoDup(s)
    ensures multiset(s)[x] == if x in s then 1 else 0
  {
    if s != [] {
      var front := s[..|s| - 1];
      assert s == front + [s[|s| - 1]];
      NoDupCount(front, x);
    }
  }

  lemma MultisetMiddle<T>(p: seq<T>, x: T, q: seq<T>)
    ensures multiset(p + [x] + q) == multiset(p + q) + multiset{x}
  {
    assert multiset(p + [x] + q) == multiset(p) + multiset{x} + multiset(q);
  }

  /** Cutting the last element of one list out of a permutation of it. */
  lemma CutMiddle<T>(front: seq<T>, x: T, b: seq<T>) returns (p: seq<T>, q: seq<T>)
    requires multiset(front + [x]) == multiset(b)
    ensures b == p + [x] + q && multiset(front) == multiset(p + q)
  {
    assert x in multiset(front + [x]);
    var j :| 0 <= j < |b| && b[j] == x;
    p, q := b[..j], b[j + 1..];
    assert b == p + [x] + q;
    MultisetMiddle(p, x, q);
    assert multiset(front) == multiset(front + [x]) - multiset{x};
  }

  /** Two duplicate-free lists with the same elements are permutations of each other. */
  lemma SameElements<T(!new)>(a: seq<T>, b: seq<T>)
    requires NoDup(a) && NoDup(b)
    requires forall x :: x in a <==> x in b
    ensures multiset(a) == multiset(b)
  {
    forall x | x in multiset(a) || x in multiset(b)
      ensures multiset(a)[x] == multiset(b)[x]
    {
      NoDupCount(a, x);
      NoDupCount(b, x);
    }
  }
}
