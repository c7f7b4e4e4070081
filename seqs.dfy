/** Generic facts about sequences used by the loops of the worker model. */
module Seqs {

  /** `[f(x) for x in xs]`, built from the back so that it follows a loop that appends. */
  function Map<T, U>(f: T -> U, xs: seq<T>): (r: seq<U>)
    ensures |r| == |xs|
  {
    if xs == [] then [] else Map(f, xs[..|xs| - 1]) + [f(xs[|xs| - 1])]
  }

  /** Concatenation regroups freely; stated once so that long traces need not re-derive it. */
  lemma ConcatAssoc<T>(a: seq<T>, b: seq<T>, c: seq<T>)
    ensures (a + b) + c == a + (b + c)
  {
  }

  lemma MapNext<T, U>(f: T -> U, xs: seq<T>, k: nat)
    requires k < |xs|
    ensures Map(f, xs[..k + 1]) == Map(f, xs[..k]) + [f(xs[k])]
  {
    assert xs[..k + 1][..k] == xs[..k];
  }

  lemma {:induction false} MapAppend<T, U>(f: T -> U, a: seq<T>, b: seq<T>)
    ensures Map(f, a + b) == Map(f, a) + Map(f, b)
    decreases |b|
  {
    if b == [] {
      assert a + b == a;
    } else {
      var init := b[..|b| - 1];
      MapAppend(f, a, init);
      assert (a + b)[..|a + b| - 1] == a + init;
    }
  }

  /** Every element of the mapped sequence is the image of an element of the input. */
  lemma {:induction false} MapElements<T, U>(f: T -> U, xs: seq<T>)
    ensures forall k :: 0 <= k < |xs| ==> Map(f, xs)[k] == f(xs[k])
    decreases |xs|
  {
    if xs != [] {
      MapElements(f, xs[..|xs| - 1]);
    }
  }

  lemma TakeOneMore<T>(s: seq<T>, k: nat)
    requires k < |s|
    ensures s[..k + 1] == s[..k] + [s[k]]
  {
  }

  lemma TakeDrop<T>(s: seq<T>, k: nat)
    requires k <= |s|
    ensures s[..k] + s[k..] == s
    ensures k == |s| ==> s[..k] == s
  {
  }

  /** `[x for x in xs if f(x) == k]`, built from the back like Map. */
  function Where<T, K(==)>(f: T -> K, k: K, xs: seq<T>): (r: seq<T>)
    ensures |r| <= |xs|
  {
    if xs == [] then [] else Where(f, k, xs[..|xs| - 1]) + (if f(xs[|xs| - 1]) == k then [xs[|xs| - 1]] else [])
  }

  lemma WhereNext<T, K>(f: T -> K, k: K, xs: seq<T>, i: nat)
    requires i < |xs|
    ensures Where(f, k, xs[..i + 1]) == Where(f, k, xs[..i]) + (if f(xs[i]) == k then [xs[i]] else [])
  {
    assert xs[..i + 1][..i] == xs[..i];
  }

  /** Where keeps exactly the elements that f sends to k. */
  lemma {:induction false} WhereMembers<T, K>(f: T -> K, k: K, xs: seq<T>)
    ensures forall x :: x in Where(f, k, xs) <==> x in xs && f(x) == k
  {
    if xs != [] {
      var init := xs[..|xs| - 1];
      WhereMembers(f, k, init);
      assert xs == init + [xs[|xs| - 1]];
    }
  }

  /** When f takes one of four distinct values, the four Where's split xs between them. */
  lemma {:induction false} WhereFour<T, K>(f: T -> K, a: K, b: K, c: K, d: K, xs: seq<T>)
    requires a != b && a != c && a != d && b != c && b != d && c != d
    requires forall x :: x in xs ==> f(x) == a || f(x) == b || f(x) == c || f(x) == d
    ensures |Where(f, a, xs)| + |Where(f, b, xs)| + |Where(f, c, xs)| + |Where(f, d, xs)| == |xs|
    ensures multiset(Where(f, a, xs)) + multiset(Where(f, b, xs)) + multiset(Where(f, c, xs))
      + multiset(Where(f, d, xs)) == multiset(xs)
  {
    if xs != [] {
      var init := xs[..|xs| - 1];
      assert xs == init + [xs[|xs| - 1]];
      WhereFour(f, a, b, c, d, init);
    }
  }
}
