/** The in-place sorts the components apply with `Array.prototype.sort` and
    a numeric comparator (`(a, b) => key(a) - key(b)` sorts by ascending key;
    `(a, b) => key(b) - key(a)` by descending key), written as an insertion
    sort by adjacent swaps, which is stable, as `Array.prototype.sort` is. */
module Sorting {

  /** The keys of `s` never decrease. */
  ghost predicate SortedBy<T>(s: seq<T>, key: T -> real)
  {
    forall i, j :: 0 <= i < j < |s| ==> key(s[i]) <= key(s[j])
  }

  /** The keys of `s` never increase. */
  ghost predicate SortedDescendingBy<T>(s: seq<T>, key: T -> real)
  {
    forall i, j :: 0 <= i < j < |s| ==> key(s[i]) >= key(s[j])
  }

  /** The elements of `s` whose key is `k`, in their order in `s`. A sort
      that keeps every band is stable: elements with equal keys keep their
      relative order. */
  ghost function Band<T>(s: seq<T>, key: T -> real, k: real): seq<T>
  {
    if |s| == 0 then [] else (if key(s[0]) == k then [s[0]] else []) + Band(s[1..], key, k)
  }

  /** A band holds elements of `s` with key `k`. */
  lemma {:induction false} BandWithin<T>(s: seq<T>, key: T -> real, k: real)
    ensures forall x :: x in Band(s, key, k) ==> x in s && key(x) == k
  {
    if |s| > 0 {
      BandWithin(s[1..], key, k);
    }
  }

  /** The band of a concatenation is the concatenation of the bands. */
  lemma {:induction false} BandAppend<T>(a: seq<T>, b: seq<T>, key: T -> real, k: real)
    ensures Band(a + b, key, k) == Band(a, key, k) + Band(b, key, k)
  {
    if |a| == 0 {
      assert a + b == b;
    } else {
      var head := if key(a[0]) == k then [a[0]] else [];
      assert (a + b)[0] == a[0] && (a + b)[1..] == a[1..] + b;
      BandAppend(a[1..], b, key, k);
      assert Band(a + b, key, k) == head + (Band(a[1..], key, k) + Band(b, key, k));
    }
  }

  /** Exchanging two neighbours with different keys keeps every band. */
  lemma SwapKeepsBands<T>(s: seq<T>, t: seq<T>, j: nat, key: T -> real)
    requires 0 < j < |s| && key(s[j - 1]) != key(s[j])
    requires t == s[j - 1 := s[j]][j := s[j - 1]]
    ensures forall k :: Band(t, key, k) == Band(s, key, k)
  {
    var x, y := s[j - 1], s[j];
    assert s == s[..j - 1] + [x, y] + s[j + 1..];
    assert t == s[..j - 1] + [y, x] + s[j + 1..];
    forall k ensures Band(t, key, k) == Band(s, key, k) {
      BandAppend(s[..j - 1] + [x, y], s[j + 1..], key, k);
      BandAppend(s[..j - 1], [x, y], key, k);
      BandAppend(s[..j - 1] + [y, x], s[j + 1..], key, k);
      BandAppend(s[..j - 1], [y, x], key, k);
      assert [x, y][1..] == [y] && [y, x][1..] == [x];
      assert [y][1..] == [] && [x][1..] == [];
    }
  }

  /** Bands by a negated key are the bands by the key. */
  lemma {:induction false} BandOfNegatedKey<T>(s: seq<T>, key: T -> real, neg: T -> real, k: real)
    requires forall x :: neg(x) == -key(x)
    ensures Band(s, neg, -k) == Band(s, key, k)
  {
    if |s| > 0 {
      BandOfNegatedKey(s[1..], key, neg, k);
    }
  }

  /** A band of a sequence whose elements are ordered by `before` is still
      ordered by `before`. */
  lemma {:induction false} BandKeepsOrder<T>(s: seq<T>, key: T -> real, k: real, before: (T, T) -> bool)
    requires forall i, j :: 0 <= i < j < |s| ==> before(s[i], s[j])
    ensures forall i, j :: 0 <= i < j < |Band(s, key, k)| ==> before(Band(s, key, k)[i], Band(s, key, k)[j])
  {
    if |s| > 0 {
      BandKeepsOrder(s[1..], key, k, before);
      var rest := Band(s[1..], key, k);
      BandWithin(s[1..], key, k);
      forall j | 0 <= j < |rest| ensures before(s[0], rest[j]) {
        assert rest[j] in rest;
        var m :| 0 <= m < |s[1..]| && s[1..][m] == rest[j];
        assert s[m + 1] == rest[j];
      }
    }
  }

  /** `t` holds the elements of `s`, each band in the same order. */
  ghost predicate Rearranged<T>(t: seq<T>, s: seq<T>, key: T -> real)
  {
    multiset(t) == multiset(s) && forall k :: Band(t, key, k) == Band(s, key, k)
  }

  /** Sorts `a` in place by ascending `key`, keeping its elements. */
  method SortBy<T>(a: array<T>, key: T -> real)
    modifies a
    ensures SortedBy(a[..], key)
    ensures Rearranged(a[..], old(a[..]), key)
  {
    if a.Length == 0 {
      return;
    }
    var i := 1;
    while i < a.Length
      invariant 1 <= i <= a.Length
      invariant SortedBy(a[..i], key)
      invariant Rearranged(a[..], old(a[..]), key)
    {
      Insert(a, i, key);
      i := i + 1;
    }
    assert a[..i] == a[..];
  }

  /** Moves `a[i]` left past every element with a larger key, so that
      `a[..i + 1]` is sorted when `a[..i]` was. */
  method Insert<T>(a: array<T>, i: nat, key: T -> real)
    requires i < a.Length
    requires SortedBy(a[..i], key)
    modifies a
    ensures SortedBy(a[..i + 1], key)
    ensures Rearranged(a[..], old(a[..]), key)
  {
    var j := i;
    while j > 0 && key(a[j - 1]) > key(a[j])
      invariant 0 <= j <= i
      invariant Rearranged(a[..], old(a[..]), key)
      invariant forall p, q :: 0 <= p < q <= i && p != j && q != j ==> key(a[p]) <= key(a[q])
      invariant forall q :: j < q <= i ==> key(a[j]) < key(a[q])
    {
      Swap(a, j, key, old(a[..]));
      j := j - 1;
    }
  }

  /** Exchanges `a[j - 1]` and `a[j]`, whose keys differ, so that `a` stays
      a rearrangement of `orig`. */
  method Swap<T>(a: array<T>, j: nat, key: T -> real, ghost orig: seq<T>)
    requires 0 < j < a.Length && key(a[j - 1]) != key(a[j])
    requires Rearranged(a[..], orig, key)
    modifies a
    ensures a[..] == old(a[..])[j - 1 := old(a[j])][j := old(a[j - 1])]
    ensures Rearranged(a[..], orig, key)
  {
    var x := a[j - 1];
    a[j - 1] := a[j];
    a[j] := x;
    SwapKeepsBands(old(a[..]), a[..], j, key);
    forall k ensures Band(a[..], key, k) == Band(orig, key, k) {
      assert Band(old(a[..]), key, k) == Band(orig, key, k);
    }
  }

  /** A sorted copy of `s`: the elements of `s` in ascending `key` order,
      elements with equal keys in their order in `s`. */
  method SortedCopy<T>(s: seq<T>, key: T -> real) returns (r: seq<T>)
    ensures SortedBy(r, key)
    ensures multiset(r) == multiset(s)
    ensures forall k :: Band(r, key, k) == Band(s, key, k)
  {
    if |s| == 0 {
      return [];
    }
    var a := new T[|s|](i requires 0 <= i < |s| => s[i]);
    assert a[..] == s;
    SortBy(a, key);
    r := a[..];
  }

  /** Sorting by the negated key sorts by descending key. */
  lemma NegatedKeyDescending<T>(s: seq<T>, key: T -> real)
    requires SortedBy(s, x => -key(x))
    ensures SortedDescendingBy(s, key)
  {
    forall i, j | 0 <= i < j < |s| ensures key(s[i]) >= key(s[j]) {
      assert (x => -key(x))(s[i]) <= (x => -key(x))(s[j]);
    }
  }
}
