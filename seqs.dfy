/** Sequence helpers shared by the stores and the pages: the `filter`,
    `slice(0, n)` and "keeps list order" notions that the source uses on
    JavaScript arrays. */
module Seqs {

  /** `s.filter(p)`: the elements of `s` that satisfy `p`, in order. */
  function Filter<T(==,!new)>(p: T -> bool, s: seq<T>): (r: seq<T>)
    ensures |r| <= |s|
    ensures forall x :: x in r <==> x in s && p(x)
  {
    if s == [] then []
    else if p(s[0]) then [s[0]] + Filter(p, s[1..])
    else Filter(p, s[1..])
  }

  /** `s.slice(0, n)` for a non-negative `n`. */
  function Take<T>(s: seq<T>, n: nat): (r: seq<T>)
    ensures |r| == if n < |s| then n else |s|
    ensures forall k :: 0 <= k < |r| ==> r[k] == s[k]
  {
    if n < |s| then s[..n] else s
  }

  /** `a` is `b` with some elements left out, the rest kept in order. */
  predicate IsSubseq<T(==)>(a: seq<T>, b: seq<T>)
    decreases |b|
  {
    if a == [] then true
    else if b == [] then false
    else if a[0] == b[0] then IsSubseq(a[1..], b[1..])
    else IsSubseq(a, b[1..])
  }

  /** No two elements of `s` share a key. */
  predicate UniqueBy<T, K(==)>(key: T -> K, s: seq<T>)
  {
    forall i, j :: 0 <= i < j < |s| ==> key(s[i]) != key(s[j])
  }

  lemma {:induction false} FilterIsSubseq<T(!new)>(p: T -> bool, s: seq<T>)
    ensures IsSubseq(Filter(p, s), s)
  {
    if s != [] {
      FilterIsSubseq(p, s[1..]);
      var r := Filter(p, s);
      if !p(s[0]) && r != [] {
        // the first kept element satisfies p, so it cannot be s[0]
        assert r[0] in r;
      }
    }
  }

  /** `Take(Filter(p, s), n)` keeps the order of `s` (the shape of every
      `filter(...).slice(0, n)` in the pages). */
  lemma {:induction false} TakeFilterIsSubseq<T(!new)>(p: T -> bool, s: seq<T>, n: nat)
    ensures IsSubseq(Take(Filter(p, s), n), s)
  {
    if s != [] && n != 0 {
      var r := Take(Filter(p, s), n);
      if p(s[0]) {
        assert Filter(p, s) == [s[0]] + Filter(p, s[1..]);
        assert r[1..] == Take(Filter(p, s[1..]), n - 1);
        TakeFilterIsSubseq(p, s[1..], n - 1);
      } else {
        assert r == Take(Filter(p, s[1..]), n);
        TakeFilterIsSubseq(p, s[1..], n);
        if r != [] {
          assert r[0] in Filter(p, s);
        }
      }
    }
  }

  /** The filter keeps every copy of an element `p` accepts and no copy of
      one it rejects. */
  lemma {:induction false} FilterCount<T(!new)>(p: T -> bool, s: seq<T>, x: T)
    ensures multiset(Filter(p, s))[x] == if p(x) then multiset(s)[x] else 0
  {
    if s != [] {
      FilterCount(p, s[1..], x);
      assert s == [s[0]] + s[1..];
      if p(s[0]) {
        assert Filter(p, s) == [s[0]] + Filter(p, s[1..]);
      }
    }
  }

  /** Filtering with a predicate every element satisfies changes nothing. */
  lemma {:induction false} FilterAll<T(!new)>(p: T -> bool, s: seq<T>)
    requires forall x :: x in s ==> p(x)
    ensures Filter(p, s) == s
  {
    if s != [] {
      assert forall x :: x in s[1..] ==> x in s;
      FilterAll(p, s[1..]);
    }
  }

  /** Filtering keeps keys unique. */
  lemma {:induction false} FilterUnique<T(!new), K>(p: T -> bool, key: T -> K, s: seq<T>)
    requires UniqueBy(key, s)
    ensures UniqueBy(key, Filter(p, s))
  {
    if s != [] {
      var t := s[1..];
      assert UniqueBy(key, t) by {
        forall i, j | 0 <= i < j < |t| ensures key(t[i]) != key(t[j]) {
          assert t[i] == s[i + 1] && t[j] == s[j + 1];
        }
      }
      FilterUnique(p, key, t);
      if p(s[0]) {
        var r := Filter(p, s);
        assert r == [s[0]] + Filter(p, t);
        forall i, j | 0 <= i < j < |r| ensures key(r[i]) != key(r[j]) {
          if i == 0 {
            assert r[j] in Filter(p, t);
            var k :| 0 <= k < |t| && t[k] == r[j];
            assert s[k + 1] == r[j];
          } else {
            assert r[i] == Filter(p, t)[i - 1] && r[j] == Filter(p, t)[j - 1];
          }
        }
      }
    }
  }

  /** The filter depends only on which elements `p` keeps. */
  lemma {:induction false} FilterExt<T(!new)>(p: T -> bool, q: T -> bool, s: seq<T>)
    requires forall x :: x in s ==> (p(x) <==> q(x))
    ensures Filter(p, s) == Filter(q, s)
  {
    if s != [] {
      assert forall x :: x in s[1..] ==> x in s;
      FilterExt(p, q, s[1..]);
    }
  }
}
