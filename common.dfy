/** Shared value types and folds: optional values, results of store calls,
    keyed records, JavaScript's `x || d` defaulting, order-preserving filters,
    and the sums that the components compute with `reduce`. */
module Common {

  /** A value that may be absent. `None` stands for JavaScript's `undefined`
      and, on numeric fields, for `NaN` (both are falsy and compare false). */
  datatype Option<T> = None | Some(value: T)

  /** Outcome of a storage call: a value, or the message of the error it raised. */
  datatype Result<T> = Ok(value: T) | Err(message: string)

  /** A stored record together with the key the store assigned to it. */
  datatype Entry<T> = Entry(id: nat, value: T)

  /** JavaScript truthiness of a possibly missing number. */
  predicate Truthy(x: Option<int>) { x.Some? && x.value != 0 }

  predicate TruthyReal(x: Option<real>) { x.Some? && x.value != 0.0 }

  /** `x || d` for a possibly missing integer. */
  function IntOr(x: Option<int>, d: int): int { if Truthy(x) then x.value else d }

  /** `x || d` for a possibly missing real. */
  function RealOr(x: Option<real>, d: real): real { if TruthyReal(x) then x.value else d }

  function Max(a: int, b: int): int { if a >= b then a else b }

  function Min(a: int, b: int): int { if a <= b then a else b }

  /** `s.filter(p)`: the elements of `s` that satisfy `p`, in their order. */
  function Filter<T>(s: seq<T>, p: T -> bool): (r: seq<T>)
    ensures |r| <= |s|
    ensures forall i :: 0 <= i < |r| ==> r[i] in s && p(r[i])
    ensures forall i :: 0 <= i < |s| && p(s[i]) ==> s[i] in r
  {
    if |s| == 0 then [] else if p(s[0]) then [s[0]] + Filter(s[1..], p) else Filter(s[1..], p)
  }

  /** `r` is obtained from `s` by deleting elements: it keeps their relative order. */
  ghost predicate IsSubsequence<T>(r: seq<T>, s: seq<T>)
    decreases |s|
  {
    if |r| == 0 then true
    else if |s| == 0 then false
    else if r[0] == s[0] then IsSubsequence(r[1..], s[1..])
    else IsSubsequence(r, s[1..])
  }

  lemma {:induction false} FilterIsSubsequence<T>(s: seq<T>, p: T -> bool)
    ensures IsSubsequence(Filter(s, p), s)
  {
    if |s| > 0 {
      FilterIsSubsequence(s[1..], p);
      if p(s[0]) {
        assert Filter(s, p)[1..] == Filter(s[1..], p);
      } else {
        SubsequenceSkip(Filter(s, p), s);
      }
    }
  }

  lemma {:induction false} SubsequenceSkip<T>(r: seq<T>, s: seq<T>)
    requires |s| > 0 && IsSubsequence(r, s[1..])
    ensures IsSubsequence(r, s)
    decreases |s|, 0
  {
    if |r| > 0 && r[0] == s[0] {
      if |s| > 1 {
        SubsequenceDrop(r, s[1..]);
      } else {
        assert false;
      }
    }
  }

  lemma {:induction false} SubsequenceDrop<T>(r: seq<T>, s: seq<T>)
    requires |r| > 0 && IsSubsequence(r, s)
    ensures IsSubsequence(r[1..], s)
    decreases |s|, 1
  {
    assert |s| > 0;
    if r[0] == s[0] {
      if |r| > 1 {
        SubsequenceSkip(r[1..], s);
      }
    } else {
      SubsequenceDrop(r, s[1..]);
      SubsequenceSkip(r[1..], s);
    }
  }

  lemma {:induction false} FilterAppend<T>(a: seq<T>, b: seq<T>, p: T -> bool)
    ensures Filter(a + b, p) == Filter(a, p) + Filter(b, p)
  {
    if |a| > 0 {
      assert (a + b)[1..] == a[1..] + b;
      FilterAppend(a[1..], b, p);
    } else {
      assert a + b == b;
    }
  }

  /** Filtering a non-empty sequence: the filtered prefix, then its last
      element when that satisfies `p`. */
  lemma FilterSnoc<T>(s: seq<T>, p: T -> bool)
    requires |s| > 0
    ensures Filter(s, p) == Filter(s[..|s| - 1], p) + (if p(s[|s| - 1]) then [s[|s| - 1]] else [])
  {
    var n := |s| - 1;
    assert s == s[..n] + [s[n]];
    FilterAppend(s[..n], [s[n]], p);
    FilterOne(s[n], p);
  }

  lemma FilterOne<T>(x: T, p: T -> bool)
    ensures Filter([x], p) == if p(x) then [x] else []
  {
    assert [x][1..] == [];
  }

  /** An element that fails `p` leaves no trace in the filtered sequence. */
  lemma FilterSkip<T>(before: seq<T>, x: T, after: seq<T>, p: T -> bool)
    requires !p(x)
    ensures Filter(before + [x] + after, p) == Filter(before + after, p)
  {
    assert Filter([x], p) == Filter([x][1..], p);
    assert [x][1..] == [];
    FilterAppend(before, [x], p);
    assert Filter(before + [x], p) == Filter(before, p);
    FilterAppend(before + [x], after, p);
    FilterAppend(before, after, p);
  }

  /** Filtering with a predicate that every element satisfies changes nothing. */
  lemma {:induction false} FilterKeepsAll<T>(s: seq<T>, p: T -> bool)
    requires forall i :: 0 <= i < |s| ==> p(s[i])
    ensures Filter(s, p) == s
  {
    if |s| > 0 {
      FilterKeepsAll(s[1..], p);
    }
  }

  /** Two filters in a row are one filter by their conjunction. */
  lemma {:induction false} FilterTwice<T>(s: seq<T>, p: T -> bool, q: T -> bool, both: T -> bool)
    requires forall i :: 0 <= i < |s| ==> both(s[i]) == (p(s[i]) && q(s[i]))
    ensures Filter(Filter(s, p), q) == Filter(s, both)
  {
    if |s| > 0 {
      FilterTwice(s[1..], p, q, both);
    }
  }

  /** Filters by predicates that agree on every element are the same. */
  lemma {:induction false} FilterAgrees<T>(s: seq<T>, p: T -> bool, q: T -> bool)
    requires forall i :: 0 <= i < |s| ==> p(s[i]) == q(s[i])
    ensures Filter(s, p) == Filter(s, q)
  {
    if |s| > 0 {
      FilterAgrees(s[1..], p, q);
    }
  }

  /** `a / b` under the guard `b > 0`. */
  function Ratio(a: real, b: real): (r: real)
    ensures b > 0.0 ==> r * b == a
    ensures b <= 0.0 ==> r == 0.0
  {
    if b > 0.0 then a / b else 0.0
  }

  /** A quotient by a count: the dividend back when the count is positive, else 0. */
  lemma MeanOfCount(a: real, n: nat)
    ensures n == 0 ==> Ratio(a, n as real) == 0.0
    ensures n > 0 ==> Ratio(a, n as real) * (n as real) == a
  {
  }

  /** A quotient by a positive divisor keeps the bounds of its dividend. */
  lemma RatioWithin(a: real, b: real, lo: real, hi: real)
    requires b > 0.0 && b * lo <= a <= b * hi
    ensures lo <= Ratio(a, b) <= hi
  {
  }

  /** `s.reduce((sum, x) => sum + f(x), 0)` over reals. */
  function Sum<T>(s: seq<T>, f: T -> real): real
  {
    if |s| == 0 then 0.0 else f(s[0]) + Sum(s[1..], f)
  }

  /** `s.reduce((sum, x) => sum + f(x), 0)` over integers. */
  function SumInt<T>(s: seq<T>, f: T -> int): int
  {
    if |s| == 0 then 0 else f(s[0]) + SumInt(s[1..], f)
  }

  lemma {:induction false} SumAppend<T>(a: seq<T>, b: seq<T>, f: T -> real)
    ensures Sum(a + b, f) == Sum(a, f) + Sum(b, f)
  {
    if |a| > 0 {
      assert (a + b)[1..] == a[1..] + b;
      SumAppend(a[1..], b, f);
    } else {
      assert a + b == b;
    }
  }

  lemma {:induction false} SumIntAppend<T>(a: seq<T>, b: seq<T>, f: T -> int)
    ensures SumInt(a + b, f) == SumInt(a, f) + SumInt(b, f)
  {
    if |a| > 0 {
      assert (a + b)[1..] == a[1..] + b;
      SumIntAppend(a[1..], b, f);
    } else {
      assert a + b == b;
    }
  }

  /** The first element of `a` sits somewhere in any permutation `b` of
      `a`; the rest of `a` is a permutation of `b` without it. */
  lemma MatchFirst<T>(a: seq<T>, b: seq<T>) returns (j: nat)
    requires |a| > 0 && multiset(a) == multiset(b)
    ensures j < |b| && b[j] == a[0]
    ensures b == b[..j] + [b[j]] + b[j + 1..]
    ensures multiset(a[1..]) == multiset(b[..j] + b[j + 1..])
  {
    assert a[0] in multiset(b);
    j :| 0 <= j < |b| && b[j] == a[0];
    var rest := b[..j] + b[j + 1..];
    assert b == b[..j] + [b[j]] + b[j + 1..];
    assert a == [a[0]] + a[1..];
    assert multiset(b) == multiset(b[..j]) + multiset([b[j]]) + multiset(b[j + 1..]);
    assert multiset(a) == multiset([a[0]]) + multiset(a[1..]);
    assert multiset(rest) == multiset(b[..j]) + multiset(b[j + 1..]);
    assert multiset(a[1..]) == multiset(a) - multiset([a[0]]);
  }

  /** A sum does not depend on the order of its terms. */
  lemma {:induction false} SumPermutation<T>(a: seq<T>, b: seq<T>, f: T -> real)
    requires multiset(a) == multiset(b)
    ensures Sum(a, f) == Sum(b, f)
    decreases |a|
  {
    if |a| > 0 {
      var j := MatchFirst(a, b);
      assert a == [a[0]] + a[1..];
      SumPermutation(a[1..], b[..j] + b[j + 1..], f);
      SumAppend(b[..j] + [b[j]], b[j + 1..], f);
      SumAppend(b[..j], [b[j]], f);
      SumAppend(b[..j], b[j + 1..], f);
    } else {
      assert |b| == |multiset(b)| == 0;
    }
  }

  lemma {:induction false} SumIntPermutation<T>(a: seq<T>, b: seq<T>, f: T -> int)
    requires multiset(a) == multiset(b)
    ensures SumInt(a, f) == SumInt(b, f)
    decreases |a|
  {
    if |a| > 0 {
      var j := MatchFirst(a, b);
      assert a == [a[0]] + a[1..];
      SumIntPermutation(a[1..], b[..j] + b[j + 1..], f);
      SumIntAppend(b[..j] + [b[j]], b[j + 1..], f);
      SumIntAppend(b[..j], [b[j]], f);
      SumIntAppend(b[..j], b[j + 1..], f);
    } else {
      assert |b| == |multiset(b)| == 0;
    }
  }

  /** A term that is zero adds nothing to a sum. */
  lemma SumSnocZero<T>(s: seq<T>, x: T, f: T -> real)
    requires f(x) == 0.0
    ensures Sum(s + [x], f) == Sum(s, f)
  {
    SumAppend(s, [x], f);
    assert Sum([x], f) == f(x) + Sum([x][1..], f);
  }

  /** A sum of terms that are all zero is zero. */
  lemma {:induction false} SumOfZeros<T>(s: seq<T>, f: T -> real)
    requires forall i :: 0 <= i < |s| ==> f(s[i]) == 0.0
    ensures Sum(s, f) == 0.0
  {
    if |s| > 0 {
      SumOfZeros(s[1..], f);
    }
  }

  /** `s.find(p)`: the index of the first element satisfying `p`, if any. */
  function FindIndex<T>(s: seq<T>, p: T -> bool): (r: Option<nat>)
    ensures r.Some? ==> r.value < |s| && p(s[r.value]) && forall k :: 0 <= k < r.value ==> !p(s[k])
    ensures r.None? <==> forall k :: 0 <= k < |s| ==> !p(s[k])
  {
    if |s| == 0 then None
    else if p(s[0]) then Some(0)
    else match FindIndex(s[1..], p)
      case None => None
      case Some(k) => Some(k + 1)
  }
}
