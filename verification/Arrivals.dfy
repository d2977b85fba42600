/** How many arrivals each wave of the schedule makes on each counter. */
module Arrivals {
  import opened Arithmetic
  import opened Wrappers
  import opened Machine
  import opened Schedule

  function Hits(s: Shape, xs: seq<Inst>, bar: Bar): nat
    requires ShapeOk(s)
  {
    if xs == [] then 0 else
    Hits(s, xs[..|xs| - 1], bar) + (if Arrive(s, xs[|xs| - 1]) == Some(bar) then 1 else 0)
  }

  lemma {:induction false} HitsConcat(s: Shape, a: seq<Inst>, b: seq<Inst>, bar: Bar)
    requires ShapeOk(s)
    ensures Hits(s, a + b, bar) == Hits(s, a, bar) + Hits(s, b, bar)
  {
    if b == [] {
      assert a + b == a;
    } else {
      var n := |b| - 1;
      assert (a + b)[..|a + b| - 1] == a + b[..n];
      HitsConcat(s, a, b[..n], bar);
    }
  }

  /** A run of instructions in which exactly the indices [lo, hi) arrive on `bar`. */
  lemma {:induction false} HitsRange(s: Shape, xs: seq<Inst>, bar: Bar, lo: nat, hi: nat)
    requires ShapeOk(s) && lo <= hi <= |xs|
    requires forall i :: 0 <= i < |xs| ==> (Arrive(s, xs[i]) == Some(bar) <==> lo <= i < hi)
    ensures Hits(s, xs, bar) == hi - lo
  {
    if xs != [] {
      var n := |xs| - 1;
      if hi == |xs| && lo < hi {
        HitsRange(s, xs[..n], bar, lo, hi - 1);
      } else {
        HitsRange(s, xs[..n], bar, if lo > n then n else lo, if hi > n then n else hi);
      }
    }
  }

  lemma HitsNone(s: Shape, xs: seq<Inst>, bar: Bar)
    requires ShapeOk(s)
    requires forall i :: 0 <= i < |xs| ==> Arrive(s, xs[i]) != Some(bar)
    ensures Hits(s, xs, bar) == 0
  {
    HitsRange(s, xs, bar, 0, 0);
  }

  lemma HitsAll(s: Shape, xs: seq<Inst>, bar: Bar)
    requires ShapeOk(s)
    requires forall i :: 0 <= i < |xs| ==> Arrive(s, xs[i]) == Some(bar)
    ensures Hits(s, xs, bar) == |xs|
  {
    HitsRange(s, xs, bar, 0, |xs|);
  }

  // ---- grids ----

  lemma {:induction false} GridSize(rows: nat, cols: nat, f: (nat, nat) -> Inst)
    ensures |Grid(rows, cols, f)| == rows * cols
  {
    if rows > 0 {
      GridSize(rows - 1, cols, f);
      assert rows * cols == (rows - 1) * cols + cols;
    }
  }

  lemma {:induction false} GridNone(s: Shape, rows: nat, cols: nat, f: (nat, nat) -> Inst, bar: Bar)
    requires ShapeOk(s)
    requires forall i: nat, j: nat :: i < rows && j < cols ==> Arrive(s, f(i, j)) != Some(bar)
    ensures Hits(s, Grid(rows, cols, f), bar) == 0
  {
    if rows > 0 {
      GridNone(s, rows - 1, cols, f, bar);
      var last := seq(cols, (j: nat) => f(rows - 1, j));
      HitsConcat(s, Grid(rows - 1, cols, f), last, bar);
      HitsNone(s, last, bar);
    }
  }

  /** In every row of a grid exactly the columns [lo, lo + width) arrive on `bar`. */
  lemma {:induction false} GridColumns(s: Shape, rows: nat, cols: nat, f: (nat, nat) -> Inst, bar: Bar,
                                       lo: nat, width: nat)
    requires ShapeOk(s) && lo + width <= cols
    requires forall i: nat, j: nat :: i < rows && j < cols ==>
               (Arrive(s, f(i, j)) == Some(bar) <==> lo <= j < lo + width)
    ensures Hits(s, Grid(rows, cols, f), bar) == rows * width
  {
    hide Arrive;
    if rows > 0 {
      GridColumns(s, rows - 1, cols, f, bar, lo, width);
      GridRow(s, rows - 1, cols, f, bar, lo, width);
      MulStep(rows - 1, width);
    }
  }

  lemma GridRow(s: Shape, row: nat, cols: nat, f: (nat, nat) -> Inst, bar: Bar, lo: nat, width: nat)
    requires ShapeOk(s) && lo + width <= cols
    requires forall j: nat :: j < cols ==> (Arrive(s, f(row, j)) == Some(bar) <==> lo <= j < lo + width)
    ensures Hits(s, Grid(row + 1, cols, f), bar) == Hits(s, Grid(row, cols, f), bar) + width
  {
    var last := seq(cols, (j: nat) => f(row, j));
    HitsConcat(s, Grid(row, cols, f), last, bar);
    HitsRange(s, last, bar, lo, lo + width);
  }

  /** All elements of a grid arrive on `bar`. */
  lemma GridAll(s: Shape, rows: nat, cols: nat, f: (nat, nat) -> Inst, bar: Bar)
    requires ShapeOk(s)
    requires forall i: nat, j: nat :: i < rows && j < cols ==> Arrive(s, f(i, j)) == Some(bar)
    ensures Hits(s, Grid(rows, cols, f), bar) == rows * cols
  {
    GridColumns(s, rows, cols, f, bar, 0, cols);
  }

  // ---- division facts ----

  lemma MulLess(a: nat, b: nat, d: nat)
    requires d > 0 && a * d < b * d
    ensures a < b
  {
    if a >= b { MulGrows(b, a, d); }
  }

  /** tn * bn / hd picks a head: the tiles of heads [h0, h1) are exactly [h0, h1) * (hd / bn). */
  lemma TileHead(bn: nat, hd: nat, tn: nat, h: nat)
    requires bn > 0 && hd > 0 && hd % bn == 0
    ensures (tn * bn) / hd >= h <==> tn >= h * (hd / bn)
  {
    var k := hd / bn;
    assert hd == k * bn;
    assert h * hd == (h * k) * bn by { MulAssoc(h, k, bn); }
    if tn >= h * k {
      MulGrows(h * k, tn, bn);
      DivAtLeast(tn * bn, hd, h);
    } else {
      MulGrows(tn + 1, h * k, bn);
      assert (tn + 1) * bn == tn * bn + bn;
      if (tn * bn) / hd >= h { DivAtLeast(tn * bn, hd, h); }
    }
  }

  /** The tiles of head h are the hd / bn consecutive ones from h * (hd / bn). */
  lemma TileBand(bn: nat, hd: nat, tn: nat, h: nat)
    requires bn > 0 && hd > 0 && hd % bn == 0
    ensures (tn * bn) / hd == h <==> h * (hd / bn) <= tn < h * (hd / bn) + hd / bn
  {
    TileHead(bn, hd, tn, h);
    TileHead(bn, hd, tn, h + 1);
    assert (h + 1) * (hd / bn) == h * (hd / bn) + hd / bn;
  }

  lemma MulAssoc(a: nat, b: nat, c: nat)
    ensures a * (b * c) == (a * b) * c
  {
  }

  lemma DivAtLeast(n: nat, d: nat, q: nat)
    requires d > 0
    ensures n / d >= q <==> n >= q * d
  {
    assert n == (n / d) * d + n % d;
    if n / d >= q { MulGrows(q, n / d, d); }
    if n / d < q {
      MulGrows(n / d + 1, q, d);
      assert (n / d + 1) * d == (n / d) * d + d;
      assert n < q * d;
    }
  }
}
