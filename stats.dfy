/**
 * The two pandas reductions the engine relies on, defined from scratch:
 * `Series.quantile(p)` with its default linear interpolation, and `mean()`,
 * both skipping NaN.
 */
module Stats {
  import opened Wrappers

  /** The non-missing values of a column, in order (pandas' `skipna`). */
  function Present(xs: seq<Option<real>>): (vs: seq<real>)
    ensures |vs| <= |xs|
  {
    if xs == [] then []
    else if xs[0].Some? then [xs[0].value] + Present(xs[1..])
    else Present(xs[1..])
  }

  lemma {:induction false} PresentMultiplicity(xs: seq<Option<real>>, x: real)
    ensures multiset(Present(xs))[x] == multiset(xs)[Some(x)]
  {
    if xs != [] {
      PresentMultiplicity(xs[1..], x);
      assert xs == [xs[0]] + xs[1..];
    }
  }

  /** Every present value comes from the column, and every non-missing cell is present. */
  lemma PresentMembers(xs: seq<Option<real>>)
    ensures forall v :: v in Present(xs) <==> Some(v) in xs
  {
    forall v ensures v in Present(xs) <==> Some(v) in xs {
      PresentMultiplicity(xs, v);
      assert v in multiset(Present(xs)) <==> Some(v) in multiset(xs);
    }
  }

  /** Reordering a column does not change its present values, up to order. */
  lemma PresentOfPermutation(xs: seq<Option<real>>, ys: seq<Option<real>>)
    requires multiset(xs) == multiset(ys)
    ensures multiset(Present(xs)) == multiset(Present(ys))
  {
    forall x ensures multiset(Present(xs))[x] == multiset(Present(ys))[x] {
      PresentMultiplicity(xs, x);
      PresentMultiplicity(ys, x);
    }
  }

  ghost predicate Sorted(s: seq<real>)
  {
    forall i, j :: 0 <= i < j < |s| ==> s[i] <= s[j]
  }

  /** Prepending a lower bound of a sorted sequence keeps it sorted. */
  lemma SortedCons(h: real, t: seq<real>)
    requires Sorted(t)
    requires t != [] ==> h <= t[0]
    ensures Sorted([h] + t)
  {
    var r := [h] + t;
    forall i, j | 0 <= i < j < |r| ensures r[i] <= r[j] {
      if i == 0 {
        assert r[j] == t[j - 1] && t[0] <= t[j - 1];
      } else {
        assert r[i] == t[i - 1] && r[j] == t[j - 1];
      }
    }
  }

  function Insert(x: real, s: seq<real>): (r: seq<real>)
    requires Sorted(s)
    ensures |r| == |s| + 1
    ensures r[0] == if s == [] || x <= s[0] then x else s[0]
    ensures Sorted(r)
    ensures multiset(r) == multiset(s) + multiset{x}
  {
    if s == [] then [x]
    else if x <= s[0] then
      SortedCons(x, s);
      [x] + s
    else
      assert s == [s[0]] + s[1..];
      var tail := Insert(x, s[1..]);
      SortedCons(s[0], tail);
      [s[0]] + tail
  }

  /** Insertion sort: the ascending order in which pandas reads off order statistics. */
  function SortAscending(s: seq<real>): (r: seq<real>)
    ensures Sorted(r)
    ensures multiset(r) == multiset(s)
  {
    if s == [] then []
    else
      assert s == [s[0]] + s[1..];
      Insert(s[0], SortAscending(s[1..]))
  }

  /** The head of a sorted sequence is at most each of its elements. */
  lemma SortedHeadIsMinimum(a: seq<real>, y: real)
    requires Sorted(a) && y in a
    ensures a[0] <= y
  {
    var i :| 0 <= i < |a| && a[i] == y;
  }

  lemma MultisetCancel<A>(u: multiset<A>, v: multiset<A>, x: A)
    requires u + multiset{x} == v + multiset{x}
    ensures u == v
  {
    forall y ensures u[y] == v[y] {
      assert (u + multiset{x})[y] == (v + multiset{x})[y];
    }
  }

  /** Two sorted arrangements of the same values are the same sequence. */
  lemma {:induction false} SortedUnique(a: seq<real>, b: seq<real>)
    requires Sorted(a) && Sorted(b)
    requires multiset(a) == multiset(b)
    ensures a == b
  {
    if a != [] {
      assert |a| == |multiset(a)| == |b|;
      assert a[0] in multiset(b) && b[0] in multiset(a);
      SortedHeadIsMinimum(b, a[0]);
      SortedHeadIsMinimum(a, b[0]);
      var x := a[0];
      assert a == [x] + a[1..] && b == [x] + b[1..];
      assert multiset(a) == multiset(a[1..]) + multiset{x};
      assert multiset(b) == multiset(b[1..]) + multiset{x};
      MultisetCancel(multiset(a[1..]), multiset(b[1..]), x);
      SortedUnique(a[1..], b[1..]);
    }
  }

  lemma ScaleWithinUnit(p: real, m: real)
    requires 0.0 <= p <= 1.0 && 0.0 <= m
    ensures 0.0 <= p * m <= m
  {
    assert m - p * m == (1.0 - p) * m;
  }

  /** The interpolation position p * (n - 1) for n values. */
  function Position(n: nat, p: real): (pos: real)
    requires n > 0 && 0.0 <= p <= 1.0
    ensures 0.0 <= pos <= (n - 1) as real
  {
    ScaleWithinUnit(p, (n - 1) as real);
    p * (n - 1) as real
  }

  /** The index of the lower order statistic, floor(pos). */
  function LowerIndex(n: nat, p: real): (lo: nat)
    requires n > 0 && 0.0 <= p <= 1.0
    ensures lo < n
  {
    Position(n, p).Floor
  }

  /** The index of the upper order statistic, one past the lower one but within range. */
  function UpperIndex(n: nat, p: real): (hi: nat)
    requires n > 0 && 0.0 <= p <= 1.0
    ensures LowerIndex(n, p) <= hi < n
  {
    var lo := LowerIndex(n, p);
    if lo + 1 < n then lo + 1 else lo
  }

  /** The weight of the upper order statistic, pos - floor(pos). */
  function Fraction(n: nat, p: real): (f: real)
    requires n > 0 && 0.0 <= p <= 1.0
    ensures 0.0 <= f < 1.0
  {
    Position(n, p) - LowerIndex(n, p) as real
  }

  /**
   * Linear interpolation at position p * (n - 1) of a sorted sequence, between the
   * order statistics at floor(pos) and floor(pos) + 1 (numpy's "linear" method).
   */
  function Interpolate(v: seq<real>, p: real): real
    requires |v| > 0 && 0.0 <= p <= 1.0
  {
    var lo, hi := LowerIndex(|v|, p), UpperIndex(|v|, p);
    v[lo] + (v[hi] - v[lo]) * Fraction(|v|, p)
  }

  lemma InterpolateBounds(v: seq<real>, p: real)
    requires |v| > 0 && 0.0 <= p <= 1.0 && Sorted(v)
    ensures v[0] <= Interpolate(v, p) <= v[|v| - 1]
  {
    var lo, hi := LowerIndex(|v|, p), UpperIndex(|v|, p);
    var f := Fraction(|v|, p);
    var d := v[hi] - v[lo];
    assert v[0] <= v[lo] <= v[hi] <= v[|v| - 1];
    ScaleWithinUnit(f, d);
    assert Interpolate(v, p) == v[lo] + f * d;
  }

  lemma InterpolateConstant(v: seq<real>, p: real, c: real)
    requires |v| > 0 && 0.0 <= p <= 1.0
    requires forall k :: 0 <= k < |v| ==> v[k] == c
    ensures Interpolate(v, p) == c
  {
    var lo, hi := LowerIndex(|v|, p), UpperIndex(|v|, p);
    assert v[lo] == c && v[hi] == c;
  }

  /**
   * `Series.quantile(p)`: NaN when the column has no present value, otherwise the
   * linear interpolation over the sorted present values.
   */
  function Quantile(xs: seq<Option<real>>, p: real): Option<real>
    requires 0.0 <= p <= 1.0
  {
    var v := SortAscending(Present(xs));
    if |v| == 0 then None else Some(Interpolate(v, p))
  }

  /**
   * The quantile is defined exactly when some value is present, and then lies between
   * the smallest and the largest present value (each of which is a cell of the column).
   */
  lemma QuantileWithinRange(xs: seq<Option<real>>, p: real)
    requires 0.0 <= p <= 1.0
    ensures Quantile(xs, p).Some? <==> exists i :: 0 <= i < |xs| && xs[i].Some?
    ensures Quantile(xs, p).Some? ==>
      (exists i :: 0 <= i < |xs| && xs[i].Some? && xs[i].value <= Quantile(xs, p).value) &&
      (exists i :: 0 <= i < |xs| && xs[i].Some? && Quantile(xs, p).value <= xs[i].value)
  {
    var v := SortAscending(Present(xs));
    PresentMembers(xs);
    if exists i :: 0 <= i < |xs| && xs[i].Some? {
      var i :| 0 <= i < |xs| && xs[i].Some?;
      PresentMultiplicity(xs, xs[i].value);
      assert xs[i] in multiset(xs);
      assert xs[i].value in multiset(v);
    }
    if |v| > 0 {
      InterpolateBounds(v, p);
      assert v[0] in multiset(Present(xs)) && v[|v| - 1] in multiset(Present(xs));
      assert Some(v[0]) in xs && Some(v[|v| - 1]) in xs;
    }
  }

  /** A column whose present values all equal c has quantile c. */
  /** A present value at or below the quantile, which therefore exists. */
  lemma ValueAtMostQuantile(xs: seq<Option<real>>, p: real) returns (i: nat)
    requires 0.0 <= p <= 1.0
    requires exists k :: 0 <= k < |xs| && xs[k].Some?
    ensures i < |xs| && xs[i].Some? && Quantile(xs, p).Some? && xs[i].value <= Quantile(xs, p).value
  {
    QuantileWithinRange(xs, p);
    i :| 0 <= i < |xs| && xs[i].Some? && xs[i].value <= Quantile(xs, p).value;
  }

  lemma QuantileOfConstant(xs: seq<Option<real>>, p: real, c: real)
    requires 0.0 <= p <= 1.0
    requires exists i :: 0 <= i < |xs| && xs[i].Some?
    requires forall i :: 0 <= i < |xs| && xs[i].Some? ==> xs[i].value == c
    ensures Quantile(xs, p) == Some(c)
  {
    var v := SortAscending(Present(xs));
    PresentMembers(xs);
    var i :| 0 <= i < |xs| && xs[i].Some?;
    assert Some(xs[i].value) in xs;
    assert xs[i].value in multiset(v);
    forall k | 0 <= k < |v| ensures v[k] == c {
      assert v[k] in multiset(Present(xs));
      var j :| 0 <= j < |xs| && xs[j] == Some(v[k]);
    }
    InterpolateConstant(v, p, c);
  }

  /** A single value is its own quantile at every p. */
  lemma QuantileOfSingleton(x: Option<real>, p: real)
    requires 0.0 <= p <= 1.0
    ensures Quantile([x], p) == x
  {
    if x.Some? {
      assert [x][0].Some?;
      QuantileOfConstant([x], p, x.value);
    } else {
      assert [x][1..] == [];
    }
  }

  /** The quantile depends on the column's values only, not on their order. */
  lemma QuantileOfPermutation(xs: seq<Option<real>>, ys: seq<Option<real>>, p: real)
    requires 0.0 <= p <= 1.0
    requires multiset(xs) == multiset(ys)
    ensures Quantile(xs, p) == Quantile(ys, p)
  {
    PresentOfPermutation(xs, ys);
    SortedUnique(SortAscending(Present(xs)), SortAscending(Present(ys)));
  }

  function Sum(vs: seq<real>): real
  {
    if vs == [] then 0.0 else Sum(vs[..|vs| - 1]) + vs[|vs| - 1]
  }

  /** `mean()` with `skipna`: the unweighted arithmetic mean, NaN for no values. */
  function Mean(vs: seq<real>): (r: Option<real>)
    ensures r.Some? <==> |vs| > 0
  {
    if |vs| == 0 then None else Some(Sum(vs) / |vs| as real)
  }

  lemma {:induction false} SumBounds(vs: seq<real>, lo: real, hi: real)
    requires forall i :: 0 <= i < |vs| ==> lo <= vs[i] <= hi
    ensures |vs| as real * lo <= Sum(vs) <= |vs| as real * hi
  {
    if vs != [] {
      SumBounds(vs[..|vs| - 1], lo, hi);
      assert |vs| as real * lo == (|vs| - 1) as real * lo + lo;
      assert |vs| as real * hi == (|vs| - 1) as real * hi + hi;
    }
  }

  /** The mean of values lying in [lo, hi] lies in [lo, hi]. */
  lemma MeanBetween(vs: seq<real>, lo: real, hi: real)
    requires |vs| > 0
    requires forall i :: 0 <= i < |vs| ==> lo <= vs[i] <= hi
    ensures lo <= Mean(vs).value <= hi
  {
    SumBounds(vs, lo, hi);
    var n := |vs| as real;
    assert Mean(vs).value * n == Sum(vs);
  }

  /** Unweighted mean of two values: 2.0 and 4.0 give 3.0. */
  lemma MeanOfTwo(a: real, b: real)
    ensures Mean([a, b]) == Some((a + b) / 2.0)
    ensures Mean([2.0, 4.0]) == Some(3.0)
  {
    assert [a][..0] == [];
    assert Sum([a]) == a;
    assert [a, b][..1] == [a];
    assert Sum([a, b]) == a + b;
    assert [2.0, 4.0][..1] == [2.0] && [2.0][..0] == [];
  }

  /** A column derived cell by cell from a sequence of rows. */
  function MapSeq<A, B>(f: A -> B, a: seq<A>): (r: seq<B>)
    ensures |r| == |a|
    ensures forall i :: 0 <= i < |a| ==> r[i] == f(a[i])
  {
    if a == [] then [] else [f(a[0])] + MapSeq(f, a[1..])
  }

  lemma {:induction false} MapSeqAppend<A, B>(f: A -> B, a: seq<A>, b: seq<A>)
    ensures MapSeq(f, a + b) == MapSeq(f, a) + MapSeq(f, b)
  {
    if a != [] {
      assert (a + b)[1..] == a[1..] + b;
      MapSeqAppend(f, a[1..], b);
    }
  }

  lemma MapSeqRemoveMiddle<A, B>(f: A -> B, p: seq<A>, x: A, q: seq<A>)
    ensures multiset(MapSeq(f, p + [x] + q)) == multiset(MapSeq(f, p + q)) + multiset{f(x)}
  {
    var mp, mq := MapSeq(f, p), MapSeq(f, q);
    MapSeqAppend(f, p + [x], q);
    MapSeqAppend(f, p, [x]);
    MapSeqAppend(f, p, q);
    assert MapSeq(f, [x]) == [f(x)];
    calc {
      multiset(MapSeq(f, p + [x] + q));
      multiset(mp + [f(x)] + mq);
      multiset(mp) + multiset{f(x)} + multiset(mq);
      multiset(mp + mq) + multiset{f(x)};
    }
  }

  /** Taking the same value out of two arrangements of one multiset leaves arrangements of one multiset. */
  lemma RemoveMatching<A>(a: seq<A>, b: seq<A>, j: nat)
    requires a != [] && multiset(a) == multiset(b)
    requires j < |b| && b[j] == a[0]
    ensures multiset(b[..j] + b[j + 1..]) == multiset(a[1..])
  {
    var x := a[0];
    var p, q := b[..j], b[j + 1..];
    assert b == p + [x] + q;
    assert a == [x] + a[1..];
    assert multiset(b) == multiset(p + q) + multiset{x};
    assert multiset(a) == multiset(a[1..]) + multiset{x};
    MultisetCancel(multiset(p + q), multiset(a[1..]), x);
  }

  /** A position of a value that occurs in b. */
  lemma IndexOf<A>(b: seq<A>, x: A) returns (j: nat)
    requires x in multiset(b)
    ensures j < |b| && b[j] == x
  {
    assert x in b;
    j :| 0 <= j < |b| && b[j] == x;
  }

  /** One step of the permutation argument: the first row's value is matched in the middle. */
  lemma MapSeqMatchHead<A, B>(f: A -> B, a: seq<A>, p: seq<A>, q: seq<A>)
    requires a != []
    requires multiset(MapSeq(f, a[1..])) == multiset(MapSeq(f, p + q))
    ensures multiset(MapSeq(f, a)) == multiset(MapSeq(f, p + [a[0]] + q))
  {
    var rest := MapSeq(f, a[1..]);
    MapSeqRemoveMiddle(f, p, a[0], q);
    assert MapSeq(f, a) == [f(a[0])] + rest;
    assert multiset(MapSeq(f, a)) == multiset(rest) + multiset{f(a[0])};
  }

  /** Deriving a column commutes with reordering the rows, up to order. */
  lemma {:induction false} MapSeqOfPermutation<A, B>(f: A -> B, a: seq<A>, b: seq<A>)
    requires multiset(a) == multiset(b)
    ensures multiset(MapSeq(f, a)) == multiset(MapSeq(f, b))
    decreases |a|
  {
    if a == [] {
      assert |b| == |multiset(b)| == 0;
    } else {
      assert a[0] in multiset(a);
      var j := IndexOf(b, a[0]);
      var p, q := b[..j], b[j + 1..];
      assert b == p + [a[0]] + q;
      RemoveMatching(a, b, j);
      MapSeqOfPermutation(f, a[1..], p + q);
      MapSeqMatchHead(f, a, p, q);
    }
  }

  lemma SortPair(x: real, y: real)
    requires x <= y
    ensures SortAscending([y, x]) == [x, y]
  {
    assert [y, x][1..] == [x] && [x][1..] == [];
    assert SortAscending([x]) == [x];
  }

  lemma InterpolatePair(x: real, y: real, p: real)
    requires 0.0 <= p <= 1.0
    ensures Interpolate([x, y], p) == x + (y - x) * p
  {
    assert Position(2, p) == p;
    if p < 1.0 {
      assert LowerIndex(2, p) == 0;
    } else {
      assert LowerIndex(2, p) == 1 && UpperIndex(2, p) == 1 && Fraction(2, p) == 0.0;
    }
  }

  /** Two values: Q(p) moves from the smaller to the larger one in proportion to p. */
  lemma QuantileOfPair(x: real, y: real, p: real)
    requires x <= y && 0.0 <= p <= 1.0
    ensures Quantile([Some(y), Some(x)], p) == Some(x + (y - x) * p)
  {
    var xs := [Some(y), Some(x)];
    assert xs[1..] == [Some(x)] && xs[1..][1..] == [];
    assert Present(xs) == [y, x];
    SortPair(x, y);
    InterpolatePair(x, y, p);
  }
}
