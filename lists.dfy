/**
 * Ordered collections edited by identity: finding the first entry equal to a
 * value, and deleting it the way `splice(i, 1)` does.
 */
module Lists {
  import opened Wrappers

  /** The position of the first entry equal to `x`. */
  function IndexOf<T(==)>(s: seq<T>, x: T): (r: Option<nat>)
    ensures r.None? <==> x !in s
    ensures r.Some? ==> r.value < |s| && s[r.value] == x
    ensures r.Some? ==> forall j :: 0 <= j < r.value ==> s[j] != x
    decreases |s|
  {
    if s == [] then None
    else if s[0] == x then Some(0)
    else
      match IndexOf(s[1..], x)
      case None => None
      case Some(i) => Some(i + 1)
  }

  /** `s` with the entry at `i` taken out and the rest closed up, as `splice(i, 1)` leaves it. */
  function RemoveAt<T>(s: seq<T>, i: nat): (r: seq<T>)
    requires i < |s|
    ensures |r| == |s| - 1
    ensures forall j :: 0 <= j < i ==> r[j] == s[j]
    ensures forall j :: i <= j < |r| ==> r[j] == s[j + 1]
  {
    s[..i] + s[i + 1..]
  }

  /** `s` without its first entry equal to `x`, if it has one. */
  function RemoveFirst<T(==)>(s: seq<T>, x: T): (r: seq<T>)
    ensures x !in s ==> r == s
    ensures x in s ==> |r| == |s| - 1 && multiset(r) == multiset(s) - multiset{x}
    ensures x in s ==> r == RemoveAt(s, IndexOf(s, x).value)
  {
    match IndexOf(s, x)
    case None => s
    case Some(i) =>
      assert s == s[..i] + [x] + s[i + 1..];
      RemoveAt(s, i)
  }

  /** No value occurs twice. */
  predicate Distinct<T(==)>(s: seq<T>)
  {
    forall i, j :: 0 <= i < j < |s| ==> s[i] != s[j]
  }

  /** `s` with every entry equal to `x` filtered out, the rest in order. */
  function Without<T(==)>(s: seq<T>, x: T): (r: seq<T>)
    ensures forall i :: 0 <= i < |r| ==> r[i] in s && r[i] != x
    ensures forall i :: 0 <= i < |s| && s[i] != x ==> s[i] in r
    decreases |s|
  {
    if s == [] then []
    else (if s[0] == x then [] else [s[0]]) + Without(s[1..], x)
  }

  /** Filtering keeps the order: filtering a concatenation concatenates the filtered parts. */
  lemma {:induction false} WithoutAppend<T>(a: seq<T>, b: seq<T>, x: T)
    ensures Without(a + b, x) == Without(a, x) + Without(b, x)
    decreases |a|
  {
    if a == [] {
      assert a + b == b;
    } else {
      assert (a + b)[0] == a[0];
      assert (a + b)[1..] == a[1..] + b;
      WithoutAppend(a[1..], b, x);
    }
  }

  lemma {:induction false} WithoutAbsent<T>(s: seq<T>, x: T)
    requires x !in s
    ensures Without(s, x) == s
    decreases |s|
  {
    if s != [] {
      WithoutAbsent(s[1..], x);
    }
  }

  lemma {:induction false} WithoutKeepsDistinct<T>(s: seq<T>, x: T)
    requires Distinct(s)
    ensures Distinct(Without(s, x))
    decreases |s|
  {
    if s != [] {
      WithoutKeepsDistinct(s[1..], x);
      var rest := Without(s[1..], x);
      assert s[0] !in rest;
    }
  }

  /**
   * In a collection without duplicates, removing the first entry equal to `x`
   * removes every entry equal to `x` and keeps the others in their order.
   */
  lemma {:induction false} RemoveFirstOfDistinct<T>(s: seq<T>, x: T)
    requires Distinct(s)
    ensures RemoveFirst(s, x) == Without(s, x)
    ensures Distinct(RemoveFirst(s, x))
    decreases |s|
  {
    WithoutKeepsDistinct(s, x);
    if s == [] {
    } else if s[0] == x {
      assert x !in s[1..];
      WithoutAbsent(s[1..], x);
    } else if x in s {
      assert Distinct(s[1..]);
      RemoveFirstOfDistinct(s[1..], x);
      RemoveFirstPastHead(s, x);
    } else {
      WithoutAbsent(s, x);
    }
  }

  lemma RemoveFirstPastHead<T>(s: seq<T>, x: T)
    requires s != [] && s[0] != x
    ensures RemoveFirst(s, x) == [s[0]] + RemoveFirst(s[1..], x)
  {
    match IndexOf(s[1..], x)
    case None =>
    case Some(i) =>
      assert IndexOf(s, x) == Some(i + 1);
      assert s[1..][..i] == s[1..i + 1];
      assert s[1..][i + 1..] == s[i + 2..];
  }

  /**
   * Removing `x` and appending it again leaves exactly one `x`, at the end,
   * after the other entries in their old order.
   */
  lemma ReplaceByIdentity<T>(s: seq<T>, x: T)
    requires Distinct(s)
    ensures var r := RemoveFirst(s, x) + [x];
      && Distinct(r)
      && multiset(r)[x] == 1
      && r[|r| - 1] == x
      && r[..|r| - 1] == Without(s, x)
  {
    RemoveFirstOfDistinct(s, x);
    var r := RemoveFirst(s, x) + [x];
    assert x !in RemoveFirst(s, x);
    assert r[..|r| - 1] == RemoveFirst(s, x);
    assert multiset(r) == multiset(RemoveFirst(s, x)) + multiset{x};
  }
}
