/** Small value helpers shared by the match engine: an optional value and the two
    ways the engine removes card ids from a list (every occurrence, or the first). */
module Util {

  datatype Option<+T> = None | Some(value: T)

  /** The list `s` with every element of `cs` dropped, order kept: what a JavaScript
      `filter(x => x !== c)` and a MongoDB `$pull` do to an array. */
  function Without<T(==,!new)>(s: seq<T>, cs: set<T>): (r: seq<T>)
    ensures |r| <= |s|
    ensures forall x :: x in r <==> x in s && x !in cs
  {
    if s == [] then []
    else if s[0] in cs then Without(s[1..], cs)
    else [s[0]] + Without(s[1..], cs)
  }

  /** Dropping `cs` keeps every other element as many times as it occurred. */
  lemma {:induction false} WithoutCuenta<T(!new)>(s: seq<T>, cs: set<T>, x: T)
    requires x !in cs
    ensures multiset(Without(s, cs))[x] == multiset(s)[x]
  {
    if s != [] {
      WithoutCuenta(s[1..], cs, x);
      assert s == [s[0]] + s[1..];
    }
  }

  lemma {:induction false} WithoutNada<T(!new)>(s: seq<T>)
    ensures Without(s, {}) == s
  {
    if s != [] {
      WithoutNada(s[1..]);
    }
  }

  /** Dropping `a` and then `b` is dropping their union at once. */
  lemma {:induction false} WithoutWithout<T(!new)>(s: seq<T>, a: set<T>, b: set<T>)
    ensures Without(Without(s, a), b) == Without(s, a + b)
  {
    if s != [] {
      WithoutWithout(s[1..], a, b);
      if s[0] !in a {
        assert Without(s, a) == [s[0]] + Without(s[1..], a);
        assert ([s[0]] + Without(s[1..], a))[1..] == Without(s[1..], a);
      }
    }
  }

  /** Index of the first element equal to `x`: JavaScript's `findIndex`, with
      `None` for its -1. */
  function FirstIndex<T(==)>(s: seq<T>, x: T): (r: Option<nat>)
    ensures r.None? <==> x !in s
    ensures r.Some? ==> r.value < |s| && s[r.value] == x && x !in s[..r.value]
  {
    if s == [] then None
    else if s[0] == x then Some(0)
    else match FirstIndex(s[1..], x)
      case None => None
      case Some(i) =>
        assert s[1..][..i] == s[1..i + 1];
        Some(i + 1)
  }

  /** `splice(findIndex(x), 1)` when the index is found; the list unchanged otherwise. */
  function RemoveFirst<T(==)>(s: seq<T>, x: T): (r: seq<T>)
    ensures x !in s ==> r == s
    ensures x in s ==> |r| == |s| - 1 && multiset(r) == multiset(s) - multiset{x}
  {
    match FirstIndex(s, x)
    case None => s
    case Some(i) =>
      assert s == s[..i] + [s[i]] + s[i + 1..];
      s[..i] + s[i + 1..]
  }
}
