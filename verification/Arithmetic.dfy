/** Multiplication and division facts that the solver does not find by itself, and the
    sizes of subsets. */
module Arithmetic {

  function Least(a: int, b: int): int { if a < b then a else b }

  function Most(a: int, b: int): int { if a < b then b else a }

  lemma MulGrows(a: int, b: int, d: int)
    requires a <= b && 0 <= d
    ensures a * d <= b * d
  {
  }

  lemma MulStep(a: int, d: int)
    ensures (a + 1) * d == a * d + d
  {
  }

  lemma MulApart(a: int, b: int, d: int)
    requires a < b && 0 <= d
    ensures a * d + d <= b * d
  {
    MulStep(a, d);
    MulGrows(a + 1, b, d);
  }

  lemma QuotientBounds(n: int, d: int)
    requires d > 0
    ensures (n / d) * d <= n < (n / d) * d + d
  {
  }

  lemma DivBounds(n: int, d: int, q: int)
    requires d > 0
    ensures n / d == q <==> q * d <= n < q * d + d
  {
    QuotientBounds(n, d);
    if q * d <= n < q * d + d {
      if n / d < q { MulApart(n / d, q, d); }
      if n / d > q { MulApart(q, n / d, d); }
    }
  }

  lemma DivModUnique(n: int, d: int, q: int, r: int)
    requires 0 <= r < d && n == q * d + r
    ensures n / d == q && n % d == r
  {
    DivBounds(n, d, q);
  }

  lemma DivGrows(a: int, b: int, d: int)
    requires d > 0 && a <= b
    ensures a / d <= b / d
  {
    QuotientBounds(a, d);
    QuotientBounds(b, d);
    if a / d > b / d { MulApart(b / d, a / d, d); }
  }

  lemma BelowQuotient(k: nat, n: nat, d: nat)
    requires d > 0
    ensures k < n / d <==> (k + 1) * d <= n
  {
    QuotientBounds(n, d);
    if k < n / d { MulGrows(k + 1, n / d, d); } else { MulGrows(n / d, k, d); MulStep(k, d); }
  }

  lemma DivExact(n: int, d: int)
    requires d > 0
    ensures (n * d) / d == n
  {
    DivBounds(n * d, d, n);
  }

  // ---- positions in a table ----

  lemma IndexUnique(a: nat, x: nat, b: nat, y: nat, width: nat)
    requires x < width && y < width
    ensures a * width + x == b * width + y <==> a == b && x == y
  {
    if a < b { MulApart(a, b, width); }
    if b < a { MulApart(b, a, width); }
  }

  lemma IndexBound(a: nat, x: nat, n: nat, width: nat)
    requires a < n && x < width
    ensures a * width + x < n * width
  {
    MulApart(a, n, width);
  }

  // ---- sums ----

  function Sum(xs: seq<int>): int {
    if xs == [] then 0 else Sum(xs[..|xs| - 1]) + xs[|xs| - 1]
  }

  lemma {:induction false} SumUpdate(xs: seq<int>, i: nat, v: int)
    requires i < |xs|
    ensures Sum(xs[i := v]) == Sum(xs) - xs[i] + v
  {
    var n := |xs| - 1;
    if i < n {
      assert xs[i := v][..n] == xs[..n][i := v];
      SumUpdate(xs[..n], i, v);
    } else {
      assert xs[i := v][..n] == xs[..n];
    }
  }

  lemma {:induction false} SumZero(xs: seq<int>)
    requires forall i :: 0 <= i < |xs| ==> xs[i] >= 0
    ensures Sum(xs) >= 0
    ensures Sum(xs) == 0 <==> forall i :: 0 <= i < |xs| ==> xs[i] == 0
  {
    if xs != [] { SumZero(xs[..|xs| - 1]); }
  }

  // ---- finite sets ----

  function Interval(from: nat, to: nat): (r: set<nat>)
    ensures forall k :: k in r <==> from <= k < to
    ensures from <= to ==> |r| == to - from
  {
    if from >= to then {} else Interval(from, to - 1) + {to - 1}
  }

  lemma SubsetSize<T>(a: set<T>, b: set<T>)
    requires a <= b
    ensures |a| <= |b|
    ensures a != b ==> |a| < |b|
  {
    if a != b {
      var x :| x in b && x !in a;
      SubsetSize(a, b - {x});
    }
  }
}
