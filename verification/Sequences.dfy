/**
 * Sequences without duplicates, and sequences that mirror the values of a map.
 */
module Sequences {

  ghost predicate NoDuplicates<K>(s: seq<K>) {
    forall i, j :: 0 <= i < j < |s| ==> s[i] != s[j]
  }

  /** Erase the first occurrence. */
  function Without<K(==)>(s: seq<K>, k: K): seq<K> {
    if s == [] then [] else if s[0] == k then s[1..] else [s[0]] + Without(s[1..], k)
  }

  lemma ConsNoDuplicates<K>(x: K, s: seq<K>)
    requires NoDuplicates(s) && x !in s
    ensures NoDuplicates([x] + s)
  {
  }

  lemma {:induction false} WithoutElements<K>(s: seq<K>, k: K)
    requires NoDuplicates(s)
    ensures NoDuplicates(Without(s, k))
    ensures forall x :: x in Without(s, k) ==> x in s && x != k
    ensures forall x :: x in s && x != k ==> x in Without(s, k)
    ensures |Without(s, k)| == if k in s then |s| - 1 else |s|
  {
    if s != [] {
      assert s == [s[0]] + s[1..] && s[0] !in s[1..];
      if s[0] != k {
        WithoutElements(s[1..], k);
        ConsNoDuplicates(s[0], Without(s[1..], k));
      }
    }
  }

  /** Erasing shifts everything behind the erased element and keeps the order. */
  lemma {:induction false} WithoutShift<K>(s: seq<K>, k: K) returns (cut: nat)
    ensures cut <= |s| && (cut < |s| ==> s[cut] == k)
    ensures |Without(s, k)| == if cut < |s| then |s| - 1 else |s|
    ensures forall i :: 0 <= i < |Without(s, k)| ==> Without(s, k)[i] == s[if i < cut then i else i + 1]
  {
    if s == [] || s[0] == k {
      cut := 0;
    } else {
      cut := WithoutShift(s[1..], k);
      cut := cut + 1;
    }
  }

  /** Erasing and taking a prefix commute. */
  lemma {:induction false} WithoutPrefix<K>(s: seq<K>, k: K, n: nat)
    requires n <= |s|
    ensures k in s[..n] ==> |Without(s, k)| >= n - 1 && Without(s, k)[..n - 1] == Without(s[..n], k)
    ensures k !in s[..n] ==> |Without(s, k)| >= n && Without(s, k)[..n] == s[..n]
  {
    if n > 0 && s[0] != k {
      WithoutPrefix(s[1..], k, n - 1);
      assert s[..n] == [s[0]] + s[1..][..n - 1];
      assert s[..n][1..] == s[1..][..n - 1];
    } else if n > 0 {
      assert s[..n][1..] == s[1..][..n - 1];
    }
  }

  lemma WithoutAbsent<K>(s: seq<K>, k: K)
    requires k !in s
    ensures Without(s, k) == s
  {
  }

  // ---------------------------------------------------------------------
  // A sequence holding exactly the values of a map
  // ---------------------------------------------------------------------

  /** Every element occurs once, and the map finds it by its key. */
  ghost predicate Mirrors<K, T>(s: seq<T>, m: map<K, T>, key: T -> K) {
    && NoDuplicates(s)
    && (forall x :: x in s ==> key(x) in m && m[key(x)] == x)
    && (forall k :: k in m ==> m[k] in s && key(m[k]) == k)
  }

  lemma MirrorsRemove<K, T>(s: seq<T>, m: map<K, T>, key: T -> K, k: K)
    requires Mirrors(s, m, key) && k in m
    ensures Mirrors(Without(s, m[k]), m - {k}, key)
  {
    WithoutElements(s, m[k]);
  }

  /** The same elements in any order, plus a new one. */
  lemma MirrorsAdd<K, T>(s: seq<T>, m: map<K, T>, key: T -> K, x: T, r: seq<T>)
    requires Mirrors(s, m, key) && key(x) !in m
    requires NoDuplicates(r) && (forall y :: y in r ==> y in s || y == x) && x in r && (forall y :: y in s ==> y in r)
    ensures Mirrors(r, m[key(x) := x], key)
  {
  }

  lemma MirrorsSize<K, T>(s: seq<T>, m: map<K, T>, key: T -> K)
    requires Mirrors(s, m, key)
    ensures |s| == |m|
  {
    if s == [] {
      assert m.Keys == {};
    } else {
      var k := key(s[0]);
      MirrorsRemove(s, m, key, k);
      assert Without(s, s[0]) == s[1..];
      MirrorsSize(s[1..], m - {k}, key);
      assert m.Keys == (m - {k}).Keys + {k};
    }
  }

  /** Exchange an element in place. */
  function Substitute<T(==)>(s: seq<T>, x: T, y: T): seq<T> {
    if s == [] then [] else if s[0] == x then [y] + s[1..] else [s[0]] + Substitute(s[1..], x, y)
  }

  lemma {:induction false} SubstituteElements<T>(s: seq<T>, x: T, y: T)
    requires NoDuplicates(s) && x in s && (y == x || y !in s)
    ensures NoDuplicates(Substitute(s, x, y)) && |Substitute(s, x, y)| == |s|
    ensures forall z :: z in Substitute(s, x, y) ==> z == y || (z in s && z != x)
    ensures forall z :: z in s && z != x ==> z in Substitute(s, x, y)
    ensures y in Substitute(s, x, y)
  {
    assert s == [s[0]] + s[1..] && s[0] !in s[1..];
    if s[0] == x {
      ConsNoDuplicates(y, s[1..]);
    } else {
      SubstituteElements(s[1..], x, y);
      ConsNoDuplicates(s[0], Substitute(s[1..], x, y));
    }
  }

  lemma MirrorsSubstitute<K, T>(s: seq<T>, m: map<K, T>, key: T -> K, k: K, y: T)
    requires Mirrors(s, m, key) && k in m && key(y) == k
    ensures Mirrors(Substitute(s, m[k], y), m[k := y], key)
  {
    SubstituteElements(s, m[k], y);
  }

  /** One element exchanged for another one with the same key, in any order. */
  lemma MirrorsExchange<K, T>(s: seq<T>, m: map<K, T>, key: T -> K, k: K, y: T, r: seq<T>)
    requires Mirrors(s, m, key) && k in m && key(y) == k
    requires NoDuplicates(r) && y in r
    requires forall z :: z in r ==> z == y || (z in s && z != m[k])
    requires forall z :: z in s && z != m[k] ==> z in r
    ensures Mirrors(r, m[k := y], key)
  {
  }

  /** Exchanging an element in place does not move any other element. */
  lemma {:induction false} SubstitutePositions<T>(s: seq<T>, x: T, y: T)
    ensures |Substitute(s, x, y)| == |s|
    ensures forall i :: 0 <= i < |s| ==> Substitute(s, x, y)[i] == s[i] || (s[i] == x && Substitute(s, x, y)[i] == y)
  {
    if s != [] && s[0] != x {
      SubstitutePositions(s[1..], x, y);
    }
  }

  lemma {:induction false} WithoutSubstitute<T>(s: seq<T>, x: T, y: T)
    requires x in s && (y == x || y !in s)
    ensures Without(Substitute(s, x, y), y) == Without(s, x)
  {
    if s[0] != x {
      assert x in s[1..];
      WithoutSubstitute(s[1..], x, y);
    }
  }
}
