/** The search for the longest cached prefix (prefill/torch_prefill.py): a binary search on
    the pages of the full-attention layers, then a shrinking check of the sliding tail. */
module PrefixSearch {
  import opened Arithmetic
  import opened Wrappers
  import opened PrefixKeys
  import opened KvModel
  import opened KvOps
  import opened RowLifeAdmit

  /** Block k of the keys can be attached when `requiredFrom` is the first block whose
      sliding pages are needed. */
  predicate CanTake(p: Pool, g: Geometry, keys: seq<Key>, k: nat, requiredFrom: nat)
    requires PoolShape(p) && GeometryOk(g) && k < |keys|
  {
    CanAttach(p, g, keys[k], k, requiredFrom) == Ok(true)
  }

  /** The full layers still have block k: sliding pages are optional. */
  predicate StemOk(p: Pool, g: Geometry, keys: seq<Key>, k: nat)
    requires PoolShape(p) && GeometryOk(g) && k < |keys|
  {
    CanTake(p, g, keys, k, k + 1)
  }

  /** The blocks the sliding window still needs behind a prefix of n blocks. */
  predicate TailOk(p: Pool, g: Geometry, keys: seq<Key>, n: nat)
    requires PoolShape(p) && GeometryOk(g) && n <= |keys|
  {
    forall k: nat :: RequiredFrom(g, n) <= k < n ==> CanTake(p, g, keys, k, RequiredFrom(g, n))
  }

  /** All n blocks pass the predicate that the batch attach applies to them. */
  ghost predicate Attachable(p: Pool, g: Geometry, keys: seq<Key>, n: nat)
    requires PoolShape(p) && GeometryOk(g) && n <= |keys|
  {
    forall k: nat :: k < n ==> CanTake(p, g, keys, k, RequiredFrom(g, n))
  }

  /** The assumption the search makes about the pool: full layers lose blocks from the end. */
  ghost predicate StemClosed(p: Pool, g: Geometry, keys: seq<Key>)
    requires PoolShape(p) && GeometryOk(g)
  {
    forall i: nat, k: nat :: i <= k < |keys| && StemOk(p, g, keys, k) ==> StemOk(p, g, keys, i)
  }

  /** Needing fewer sliding pages only helps. */
  lemma NeedLess(p: Pool, g: Geometry, keys: seq<Key>, k: nat, a: nat, b: nat)
    requires PoolShape(p) && GeometryOk(g) && k < |keys| <= g.pages && a <= b && CanTake(p, g, keys, k, a)
    ensures CanTake(p, g, keys, k, b)
  {
  }

  /** Below the window only the full layers count. */
  lemma BelowWindow(p: Pool, g: Geometry, keys: seq<Key>, k: nat, required: nat)
    requires PoolShape(p) && GeometryOk(g) && k < |keys| <= g.pages && k < required
    ensures CanTake(p, g, keys, k, required) <==> StemOk(p, g, keys, k)
  {
  }

  /** A prefix is attachable exactly when its tail is, and the full layers have the rest. */
  lemma AttachableIff(p: Pool, g: Geometry, keys: seq<Key>, n: nat)
    requires PoolShape(p) && GeometryOk(g) && n <= |keys| <= g.pages
    ensures Attachable(p, g, keys, n) <==>
      TailOk(p, g, keys, n) && forall k: nat :: k < n && k < RequiredFrom(g, n) ==> StemOk(p, g, keys, k)
  {
    hide CanTake;
    hide RequiredFrom;
    hide StemOk;
    var required := RequiredFrom(g, n);
    forall k: nat | k < n && k < required
      ensures CanTake(p, g, keys, k, required) <==> StemOk(p, g, keys, k)
    {
      BelowWindow(p, g, keys, k, required);
    }
  }

  /** With stems closed downwards, the boundary block and the tail decide. */
  lemma BoundaryDecides(p: Pool, g: Geometry, keys: seq<Key>, n: nat)
    requires PoolShape(p) && GeometryOk(g) && 0 < n <= |keys| <= g.pages && StemClosed(p, g, keys)
    ensures Attachable(p, g, keys, n) <==> StemOk(p, g, keys, n - 1) && TailOk(p, g, keys, n)
  {
    hide CanTake;
    hide RequiredFrom;
    AttachableIff(p, g, keys, n);
    var required := RequiredFrom(g, n);
    if Attachable(p, g, keys, n) {
      assert CanTake(p, g, keys, n - 1, required);
      if n - 1 < required { BelowWindow(p, g, keys, n - 1, required); } else { NeedLess(p, g, keys, n - 1, required, n); }
    }
  }

  /** _swa_tail_ok */
  method CheckTail(p: Pool, g: Geometry, keys: seq<Key>, n: nat) returns (ok: bool)
    requires PoolShape(p) && GeometryOk(g) && n <= |keys|
    ensures ok == TailOk(p, g, keys, n)
  {
    var required := RequiredFrom(g, n);
    var k: nat := n;
    while k > required
      invariant k <= n
      invariant forall i: nat :: k <= i < n && required <= i ==> CanTake(p, g, keys, i, required)
    {
      k := k - 1;
      if !CanTake(p, g, keys, k, required) { return false; }
    }
    ok := true;
  }

  /** The binary search: the longest stem whose boundary block is there, assuming stems are
      closed downwards; in any pool, a stem whose boundary block is there. */
  method LongestStem(p: Pool, g: Geometry, keys: seq<Key>) returns (stem: nat)
    requires PoolShape(p) && GeometryOk(g)
    ensures stem <= |keys| && (stem > 0 ==> StemOk(p, g, keys, stem - 1))
    ensures StemClosed(p, g, keys) ==> forall k: nat :: stem <= k < |keys| ==> !StemOk(p, g, keys, k)
  {
    hide StemOk;
    var lo, hi := 0, |keys|;
    while lo < hi
      invariant 0 <= lo <= hi <= |keys| && (lo > 0 ==> StemOk(p, g, keys, lo - 1))
      invariant StemClosed(p, g, keys) ==> forall k: nat :: hi <= k < |keys| ==> !StemOk(p, g, keys, k)
      decreases hi - lo
    {
      var mid := (lo + hi + 1) / 2;
      if CanTake(p, g, keys, mid - 1, mid) {
        StemIs(p, g, keys, mid - 1);
        lo := mid;
      } else {
        StemIs(p, g, keys, mid - 1);
        hi := mid - 1;
      }
    }
    stem := lo;
  }

  lemma StemIs(p: Pool, g: Geometry, keys: seq<Key>, k: nat)
    requires PoolShape(p) && GeometryOk(g) && k < |keys|
    ensures StemOk(p, g, keys, k) == CanTake(p, g, keys, k, k + 1)
  {
  }

  /** _longest_attachable_prefix_blocks. In any pool the answer has a sound boundary and
      tail; where full layers lose blocks from the end only, it is the greatest attachable
      length. */
  method LongestAttachable(p: Pool, g: Geometry, keys: seq<Key>) returns (n: nat)
    requires PoolShape(p) && GeometryOk(g) && |keys| <= g.pages
    ensures n <= |keys| && (n > 0 ==> StemOk(p, g, keys, n - 1) && TailOk(p, g, keys, n))
    ensures StemClosed(p, g, keys) ==>
      Attachable(p, g, keys, n) && forall m :: n < m <= |keys| ==> !Attachable(p, g, keys, m)
  {
    hide StemOk;
    hide TailOk;
    hide CanTake;
    hide Attachable;
    NothingAttaches(p, g, keys);
    if keys == [] { return 0; }
    var stem := LongestStem(p, g, keys);
    forall m | stem < m <= |keys| && StemClosed(p, g, keys) ensures !Attachable(p, g, keys, m) {
      BoundaryDecides(p, g, keys, m);
    }
    if stem < 1 { return 0; }
    n := stem;
    while n > 0
      invariant n <= stem
      invariant StemClosed(p, g, keys) ==> forall m :: n < m <= |keys| ==> !Attachable(p, g, keys, m)
    {
      StemIs(p, g, keys, n - 1);
      if StemClosed(p, g, keys) { BoundaryDecides(p, g, keys, n); }
      if n == stem || CanTake(p, g, keys, n - 1, n) {
        var ok := CheckTail(p, g, keys, n);
        if ok { return; }
      }
      n := n - 1;
    }
  }

  lemma NothingAttaches(p: Pool, g: Geometry, keys: seq<Key>)
    requires PoolShape(p) && GeometryOk(g)
    ensures Attachable(p, g, keys, 0)
  {
  }

  // ---- the batch attach that follows ----

  lemma NoRepeats(g: Geometry, prompt: seq<int>, r: nat, n: nat, j: nat)
    requires GeometryOk(g) && n * g.block <= |prompt| && j < n
    ensures !Repeats(PrefixItems(g, prompt, r, n), j)
  {
    hide KeyAt;
  }

  /** One row's share of a batch attach: the first n blocks of its prompt. */
  datatype Wish = Wish(prompt: seq<int>, keys: seq<Key>, row: nat, n: nat)

  ghost predicate WishOk(g: Geometry, w: Wish)
    requires GeometryOk(g)
  {
    && w.row < g.rows && w.n <= |w.keys| <= g.pages && w.n * g.block <= |w.prompt|
    && forall k: nat :: k < w.n ==> w.keys[k] == KeyAt(w.prompt, g.block, k, w.n)
  }

  /** Every row of a batch attaches once. */
  ghost predicate WishesOk(g: Geometry, ws: seq<Wish>)
    requires GeometryOk(g)
  {
    (forall i :: 0 <= i < |ws| ==> WishOk(g, ws[i])) && forall i, j :: 0 <= i < j < |ws| ==> ws[i].row != ws[j].row
  }

  /** The attachments that _attach_prefix_rows collects for all rows. */
  ghost function BatchItems(g: Geometry, ws: seq<Wish>): seq<Attachment>
    requires GeometryOk(g) && WishesOk(g, ws)
  {
    if ws == [] then [] else
    var last := ws[|ws| - 1];
    BatchItems(g, ws[..|ws| - 1]) + PrefixItems(g, last.prompt, last.row, last.n)
  }

  lemma WishAccepted(p: Pool, g: Geometry, w: Wish)
    requires PoolShape(p) && GeometryOk(g) && WishOk(g, w)
    ensures (forall a :: a in PrefixItems(g, w.prompt, w.row, w.n) ==> Accepted(p, g, a)) <==> Attachable(p, g, w.keys, w.n)
  {
    hide KeyAt;
    hide Fits;
    hide RequiredFrom;
    var items := PrefixItems(g, w.prompt, w.row, w.n);
    forall j: nat | j < w.n ensures Accepted(p, g, items[j]) <==> CanTake(p, g, w.keys, j, RequiredFrom(g, w.n)) {
      assert items[j] == Attachment(w.keys[j], w.row, j, RequiredFrom(g, w.n));
    }
    if Attachable(p, g, w.keys, w.n) {
      forall a | a in items ensures Accepted(p, g, a) { var j: nat :| j < w.n && items[j] == a; }
    }
    if forall a :: a in items ==> Accepted(p, g, a) {
      forall k: nat | k < w.n ensures CanTake(p, g, w.keys, k, RequiredFrom(g, w.n)) { assert items[k] in items; }
    }
  }

  lemma {:induction false} BatchAccepted(p: Pool, g: Geometry, ws: seq<Wish>)
    requires PoolShape(p) && GeometryOk(g) && WishesOk(g, ws)
    ensures (forall a :: a in BatchItems(g, ws) ==> Accepted(p, g, a))
      <==> forall i :: 0 <= i < |ws| ==> Attachable(p, g, ws[i].keys, ws[i].n)
  {
    hide WishOk;
    hide Accepted;
    hide Attachable;
    hide PrefixItems;
    if ws != [] {
      var n := |ws| - 1;
      BatchAccepted(p, g, ws[..n]);
      assert WishOk(g, ws[n]);
      WishAccepted(p, g, ws[n]);
    }
  }

  lemma {:induction false} BatchRows(g: Geometry, ws: seq<Wish>, row: nat)
    requires GeometryOk(g) && WishesOk(g, ws) && forall i :: 0 <= i < |ws| ==> ws[i].row != row
    ensures forall a :: a in BatchItems(g, ws) ==> a.row != row
  {
    hide KeyAt;
    if ws != [] { BatchRows(g, ws[..|ws| - 1], row); }
  }

  lemma {:induction false} BatchNoRepeats(g: Geometry, ws: seq<Wish>, j: nat)
    requires GeometryOk(g) && WishesOk(g, ws) && j < |BatchItems(g, ws)|
    ensures !Repeats(BatchItems(g, ws), j)
  {
    hide KeyAt;
    var n := |ws| - 1;
    var w := ws[n];
    var a, b := BatchItems(g, ws[..n]), PrefixItems(g, w.prompt, w.row, w.n);
    if j < |a| {
      BatchNoRepeats(g, ws[..n], j);
      assert (a + b)[..j] == a[..j];
    } else {
      BatchRows(g, ws[..n], w.row);
      NoRepeats(g, w.prompt, w.row, w.n, j - |a|);
      Behind(a, b, j - |a|, w.row);
    }
  }

  lemma Behind(a: seq<Attachment>, b: seq<Attachment>, j: nat, row: nat)
    requires j < |b| && !Repeats(b, j) && b[j].row == row && forall x :: x in a ==> x.row != row
    ensures !Repeats(a + b, |a| + j)
  {
  }

  /** The all-or-nothing attach for several rows at once goes through exactly when every
      block of every row passes the predicate the search tests. */
  lemma AttachGoesThroughIff(s: Sys, ws: seq<Wish>)
    requires SysShape(s) && s.status == Done && WishesOk(s.h.geo, ws) && BatchItems(s.h.geo, ws) != []
    ensures AttachBatch(s, BatchItems(s.h.geo, ws)).1
      <==> forall i :: 0 <= i < |ws| ==> Attachable(s.pool, s.h.geo, ws[i].keys, ws[i].n)
  {
    hide Attachable;
    hide Accepted;
    hide AttachItems;
    hide WishesOk;
    var items := BatchItems(s.h.geo, ws);
    BatchAccepted(s.pool, s.h.geo, ws);
    forall j: nat | j < |items| ensures !Repeats(items, j) { BatchNoRepeats(s.h.geo, ws, j); }
    var f := Lookup(s.pool, s.h.geo, items, 0);
    assert f.Hit? <==> forall a :: a in items ==> Accepted(s.pool, s.h.geo, a);
  }

  /** The attach that follows the search fails closed: it goes through exactly when no row's
      full layers have a hole below its window. */
  lemma AttachFailsOnlyOnHoles(s: Sys, ws: seq<Wish>)
    requires SysShape(s) && s.status == Done && WishesOk(s.h.geo, ws) && BatchItems(s.h.geo, ws) != []
    requires forall i :: 0 <= i < |ws| && ws[i].n > 0 ==>
      StemOk(s.pool, s.h.geo, ws[i].keys, ws[i].n - 1) && TailOk(s.pool, s.h.geo, ws[i].keys, ws[i].n)
    ensures AttachBatch(s, BatchItems(s.h.geo, ws)).1 <==> forall i :: 0 <= i < |ws| ==> NoHole(s.pool, s.h.geo, ws[i])
  {
    hide StemOk;
    hide TailOk;
    hide RequiredFrom;
    hide KeyAt;
    hide AttachBatch;
    hide BatchItems;
    AttachGoesThroughIff(s, ws);
    forall i | 0 <= i < |ws|
      ensures NoHole(s.pool, s.h.geo, ws[i]) <==> Attachable(s.pool, s.h.geo, ws[i].keys, ws[i].n)
    {
      if ws[i].n == 0 { NothingAttaches(s.pool, s.h.geo, ws[i].keys); }
      AttachableIff(s.pool, s.h.geo, ws[i].keys, ws[i].n);
    }
  }

  /** The full layers have every block that lies below the window. */
  ghost predicate NoHole(p: Pool, g: Geometry, w: Wish)
    requires PoolShape(p) && GeometryOk(g) && w.n <= |w.keys|
  {
    forall k: nat :: k < w.n && k < RequiredFrom(g, w.n) ==> StemOk(p, g, w.keys, k)
  }

  /** And at least one prompt token is always left to compute. */
  lemma SomeTokenLeft(prompt: seq<int>, block: nat, n: nat)
    requires block >= 1 && prompt != [] && n <= Cacheable(prompt, block)
    ensures n * block < |prompt|
  {
    MulGrows(n, Cacheable(prompt, block), block);
  }

}
