/**
 * Event traces. Every model in this project records the calls it makes into
 * code outside the core (GPIO, SMS gateway, cipher, logging, ...) as events
 * appended to a sequence; the functions here count, project and build such
 * sequences, and the lemmas say how they behave under concatenation.
 * Traces grow at the end, so every recursion here peels off the LAST element.
 */
module Traces {
  import opened Wrappers

  /** Number of elements of `s` that satisfy `p`. */
  function Count<T>(s: seq<T>, p: T -> bool): (n: nat)
    ensures n <= |s|
  {
    if s == [] then 0 else Count(s[..|s| - 1], p) + (if p(s[|s| - 1]) then 1 else 0)
  }

  /** The values `f` extracts from the elements of `s`, in order. */
  function Collect<T, U>(s: seq<T>, f: T -> Option<U>): (r: seq<U>)
    ensures |r| <= |s|
  {
    if s == [] then []
    else Collect(s[..|s| - 1], f) + (match f(s[|s| - 1]) case Some(u) => [u] case None => [])
  }

  /** `f` applied to every element of `s`, in order (one call per element). */
  function MapSeq<T, U>(s: seq<T>, f: T -> U): (r: seq<U>)
    ensures |r| == |s|
    ensures forall i :: 0 <= i < |s| ==> r[i] == f(s[i])
  {
    if s == [] then [] else MapSeq(s[..|s| - 1], f) + [f(s[|s| - 1])]
  }

  /** No two positions of `s` hold the same element. */
  predicate Distinct<T(==)>(s: seq<T>) {
    forall i, j :: 0 <= i < j < |s| ==> s[i] != s[j]
  }

  lemma {:induction false} CountAppend<T>(a: seq<T>, b: seq<T>, p: T -> bool)
    ensures Count(a + b, p) == Count(a, p) + Count(b, p)
  {
    if b != [] {
      assert (a + b)[..|a + b| - 1] == a + b[..|b| - 1];
      CountAppend(a, b[..|b| - 1], p);
    } else {
      assert a + b == a;
    }
  }

  /** A trace has no element satisfying `p` exactly when `p` counts zero in it. */
  lemma {:induction false} CountZero<T>(s: seq<T>, p: T -> bool)
    ensures Count(s, p) == 0 <==> forall i :: 0 <= i < |s| ==> !p(s[i])
  {
    if s != [] {
      CountZero(s[..|s| - 1], p);
      assert forall i :: 0 <= i < |s| - 1 ==> s[..|s| - 1][i] == s[i];
    }
  }

  lemma {:induction false} CollectAppend<T, U>(a: seq<T>, b: seq<T>, f: T -> Option<U>)
    ensures Collect(a + b, f) == Collect(a, f) + Collect(b, f)
  {
    if b != [] {
      assert (a + b)[..|a + b| - 1] == a + b[..|b| - 1];
      CollectAppend(a, b[..|b| - 1], f);
    } else {
      assert a + b == a;
    }
  }

  /** Mapping and then extracting with a left inverse gives the original sequence back. */
  lemma {:induction false} CollectMapSeq<T, U>(s: seq<T>, f: T -> U, g: U -> Option<T>)
    requires forall x :: g(f(x)) == Some(x)
    ensures Collect(MapSeq(s, f), g) == s
  {
    if s != [] {
      CollectMapSeq(s[..|s| - 1], f, g);
      var m := MapSeq(s, f);
      assert m[..|m| - 1] == MapSeq(s[..|s| - 1], f);
    }
  }

  /** Every element of `MapSeq(s, f)` satisfies `p` when every image does. */
  lemma {:induction false} CountMapSeqAll<T, U>(s: seq<T>, f: T -> U, p: U -> bool)
    requires forall x :: p(f(x))
    ensures Count(MapSeq(s, f), p) == |s|
  {
    if s != [] {
      CountMapSeqAll(s[..|s| - 1], f, p);
      var m := MapSeq(s, f);
      assert m[..|m| - 1] == MapSeq(s[..|s| - 1], f);
    }
  }

  /** An injective map over distinct elements produces each image exactly once. */
  lemma {:induction false} MapSeqOnce<T, U>(s: seq<T>, f: T -> U, i: nat)
    requires Distinct(s) && i < |s|
    requires forall x, y :: f(x) == f(y) ==> x == y
    ensures multiset(MapSeq(s, f))[f(s[i])] == 1
  {
    var n := |s| - 1;
    var front := s[..n];
    assert MapSeq(s, f) == MapSeq(front, f) + [f(s[n])];
    if i == n {
      MapSeqAbsent(front, f, s[n]);
    } else {
      assert Distinct(front);
      assert front[i] == s[i];
      MapSeqOnce(front, f, i);
      assert f(s[n]) != f(s[i]);
    }
  }

  /** The image of an element that is not in `s` does not occur in `MapSeq(s, f)`. */
  lemma {:induction false} MapSeqAbsent<T, U>(s: seq<T>, f: T -> U, x: T)
    requires x !in s
    requires forall a, b :: f(a) == f(b) ==> a == b
    ensures multiset(MapSeq(s, f))[f(x)] == 0
  {
    if s != [] {
      var front := s[..|s| - 1];
      assert MapSeq(s, f) == MapSeq(front, f) + [f(s[|s| - 1])];
      MapSeqAbsent(front, f, x);
    }
  }

  /** `a` is `b` with some elements left out, the rest kept in their order. */
  predicate IsSubsequence<T(==)>(a: seq<T>, b: seq<T>)
    decreases |b|
  {
    if a == [] then true
    else if b == [] then false
    else if a[|a| - 1] == b[|b| - 1] then IsSubsequence(a[..|a| - 1], b[..|b| - 1])
    else IsSubsequence(a, b[..|b| - 1])
  }
}
