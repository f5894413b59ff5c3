/** Left folds, and when the order of the elements does not matter. */
module Folding {

  function Fold<A, B>(f: (A, B) -> A, init: A, s: seq<B>): A {
    if s == [] then init else f(Fold(f, init, s[..|s| - 1]), s[|s| - 1])
  }

  /** Any two elements of s may be taken in either order. */
  ghost predicate Commutes<A(!new), B(!new)>(f: (A, B) -> A, s: seq<B>) {
    forall a, x, y | x in s && y in s :: f(f(a, x), y) == f(f(a, y), x)
  }

  lemma FoldAppend<A, B>(f: (A, B) -> A, init: A, s: seq<B>, x: B)
    ensures Fold(f, init, s + [x]) == f(Fold(f, init, s), x)
  {
    assert (s + [x])[..|s|] == s;
  }

  function Without<B>(s: seq<B>, i: nat): seq<B>
    requires i < |s|
  {
    s[..i] + s[i + 1..]
  }

  lemma WithoutContents<B>(s: seq<B>, i: nat)
    requires i < |s|
    ensures multiset(s) == multiset(Without(s, i)) + multiset{s[i]}
    ensures forall x | x in Without(s, i) :: x in s
  {
    assert s == s[..i] + [s[i]] + s[i + 1..];
  }

  /** Any element may be taken last. */
  lemma {:induction false} TakeLast<A(!new), B(!new)>(f: (A, B) -> A, init: A, s: seq<B>, i: nat)
    requires i < |s| && Commutes(f, s)
    ensures Fold(f, init, s) == f(Fold(f, init, Without(s, i)), s[i])
    decreases |s|
  {
    var n := |s| - 1;
    if i == n {
      assert Without(s, i) == s[..n];
    } else {
      var before := s[..n];
      assert forall x | x in before :: x in s;
      TakeLast(f, init, before, i);
      assert Without(s, i) == Without(before, i) + [s[n]];
      FoldAppend(f, init, Without(before, i), s[n]);
      assert s[i] in s && s[n] in s;
    }
  }

  lemma SameMembers<B>(s: seq<B>, t: seq<B>)
    requires multiset(s) == multiset(t)
    ensures |s| == |t| && forall x :: x in s <==> x in t
  {
    assert |s| == |multiset(s)| == |multiset(t)| == |t|;
    forall x ensures x in s <==> x in t {
      assert x in s <==> x in multiset(s);
    }
  }

  /** A fold whose steps commute gives the same result for every order of the elements. */
  lemma {:induction false} AnyOrder<A(!new), B(!new)>(f: (A, B) -> A, init: A, s: seq<B>, t: seq<B>)
    requires multiset(s) == multiset(t) && Commutes(f, s)
    ensures Fold(f, init, s) == Fold(f, init, t)
    decreases |s|
  {
    SameMembers(s, t);
    if s != [] {
      var n := |s| - 1;
      assert s[n] in t;
      var i :| 0 <= i < |t| && t[i] == s[n];
      assert forall a, x, y | x in t && y in t :: f(f(a, x), y) == f(f(a, y), x);
      TakeLast(f, init, t, i);
      LastContents(s);
      WithoutContents(t, i);
      assert multiset(s[..n]) == multiset(s) - multiset{s[n]} == multiset(Without(t, i));
      assert forall x | x in s[..n] :: x in s;
      AnyOrder(f, init, s[..n], Without(t, i));
    }
  }

  lemma LastContents<B>(s: seq<B>)
    requires s != []
    ensures multiset(s) == multiset(s[..|s| - 1]) + multiset{s[|s| - 1]}
  {
    assert s == s[..|s| - 1] + [s[|s| - 1]];
  }
}
