/** Giving a row's pages back. */
module KvFree {
  import opened Wrappers
  import opened PrefixKeys
  import opened KvModel
  import opened KvInvariant
  import opened KvOps
  import opened KvPages

  /** Layers n and up of row r hold no page. */
  ghost predicate GoneFrom(s: Sys, r: nat, n: nat)
    requires SysShape(s) && r < s.h.geo.rows
  {
    forall l: nat, k: nat :: n <= l < s.h.geo.layers && k < s.h.geo.pages ==> PageOf(s.h, l, r, k) == -1
  }

  ghost predicate OtherPagesSame(s: Sys, t: Sys, r: nat)
    requires SysShape(s) && SysShape(t) && SameFrame(s, t)
  {
    forall l: nat, r': nat, k: nat :: l < s.h.geo.layers && r' < s.h.geo.rows && k < s.h.geo.pages && r' != r ==>
      PageOf(t.h, l, r', k) == PageOf(s.h, l, r', k)
  }

  lemma DropLayerPages(s: Sys, others: multiset<int>, r: nat, l: nat)
    requires SysOk(s, others) && s.status == Done && r < s.h.geo.rows && l < s.h.geo.layers && GoneFrom(s, r, l + 1)
    ensures var m := DropBelow(s, l, r, s.h.geo.pages);
      Kept(s, m, others) && m.status == Done && GoneFrom(m, r, l) && OtherPagesSame(s, m, r)
  {
    hide PoolOk;
    hide SlotAt;
    hide DropBelow;
    DropBelowOk(s, others, l, r, s.h.geo.pages);
    DropPages(s, l, r, s.h.geo.pages);
  }

  lemma {:induction false} FreeLayersPages(s: Sys, others: multiset<int>, r: nat, n: nat)
    requires SysOk(s, others) && s.status == Done && r < s.h.geo.rows && n <= s.h.geo.layers && GoneFrom(s, r, n)
    requires forall l: nat :: n <= l < s.h.geo.layers ==> Evicted(s.h, l, r) == 0
    ensures var t := FreeLayers(s, r, n);
      && Kept(s, t, others) && t.status == Done && GoneFrom(t, r, 0) && OtherPagesSame(s, t, r)
      && (forall l: nat :: l < s.h.geo.layers ==> Evicted(t.h, l, r) == 0)
      && t.h.lens == s.h.lens && t.h.active == s.h.active
    decreases n
  {
    hide PoolOk;
    hide GoneFrom;
    hide OtherPagesSame;
    hide SlotAt;
    hide RowAt;
    if n > 0 {
      var m := DropBelow(s, n - 1, r, s.h.geo.pages);
      var t := SetEvicted(m, n - 1, r, 0);
      DropLayerPages(s, others, r, n - 1);
      ShapeFromOk(s, others);
      ShapeFromOk(m, others);
      DropPages(s, n - 1, r, s.h.geo.pages);
      MarkReset(s, m, r, n - 1);
      SameTableOk(m, t, others);
      SamePagesGone(m, t, r, n - 1);
      FreeLayersPages(t, others, r, n - 1);
      OtherPagesTrans(s, m, t, r);
      OtherPagesTrans(s, t, FreeLayers(t, r, n - 1), r);
    } else {
      SamePagesGone(s, s, r, 0);
    }
  }

  lemma OtherPagesTrans(s: Sys, m: Sys, t: Sys, r: nat)
    requires SysShape(s) && SysShape(m) && SysShape(t) && SameFrame(s, m) && SameFrame(m, t)
    requires OtherPagesSame(s, m, r) && OtherPagesSame(m, t, r)
    ensures OtherPagesSame(s, t, r)
  {
    hide SlotAt;
  }

  lemma ShapeFromOk(s: Sys, others: multiset<int>)
    requires SysOk(s, others)
    ensures SysShape(s)
  {
  }

  lemma MarkReset(s: Sys, m: Sys, r: nat, l: nat)
    requires SysShape(s) && SysShape(m) && s.h.geo == m.h.geo && m.h.evicted == s.h.evicted && m.status == Done
    requires r < s.h.geo.rows && l < s.h.geo.layers
    requires forall k: nat :: l + 1 <= k < s.h.geo.layers ==> Evicted(s.h, k, r) == 0
    ensures forall k: nat :: l <= k < s.h.geo.layers ==> Evicted(SetEvicted(m, l, r, 0).h, k, r) == 0
  {
    forall k: nat | l <= k < s.h.geo.layers ensures Evicted(SetEvicted(m, l, r, 0).h, k, r) == 0 {
      RowUnique(s.h.geo, l, r, k, r);
      assert k > l ==> Evicted(s.h, k, r) == 0;
    }
  }

  lemma SamePagesGone(m: Sys, t: Sys, r: nat, n: nat)
    requires SysShape(m) && SysShape(t) && SameFrame(m, t) && t.h.table == m.h.table && r < m.h.geo.rows
    ensures GoneFrom(m, r, n) ==> GoneFrom(t, r, n)
    ensures OtherPagesSame(m, t, r)
  {
    hide SlotAt;
    forall l: nat, r': nat, k: nat | l < m.h.geo.layers && r' < m.h.geo.rows && k < m.h.geo.pages
      ensures PageOf(t.h, l, r', k) == PageOf(m.h, l, r', k)
    {}
  }

  /** free_row leaves the row without pages or marks and every other row as it was. */
  lemma FreeRowPages(s: Sys, others: multiset<int>, r: nat)
    requires SysOk(s, others) && s.status == Done && r < s.h.geo.rows
    ensures var t := FreeRow(s, r);
      && Kept(s, t, others) && t.status == Done && GoneFrom(t, r, 0) && OtherPagesSame(s, t, r)
      && (forall l: nat :: l < s.h.geo.layers ==> Evicted(t.h, l, r) == 0)
      && t.h.lens == s.h.lens[r := 0] && t.h.active == s.h.active[r := 0]
  {
    hide PoolOk;
    hide OtherPagesSame;
    hide SlotAt;
    hide RowAt;
    FreeRowOk(s, others, r);
    FreeLayersPages(s, others, r, s.h.geo.layers);
    var m := FreeLayers(s, r, s.h.geo.layers);
    SamePagesGone(m, FreeRow(s, r), r, 0);
    OtherPagesTrans(s, m, FreeRow(s, r), r);
    SameEvicted(m, FreeRow(s, r));
  }

  lemma SameEvicted(m: Sys, t: Sys)
    requires SysShape(m) && SysShape(t) && m.h.geo == t.h.geo && m.h.evicted == t.h.evicted
    ensures forall l: nat, r: nat :: l < m.h.geo.layers && r < m.h.geo.rows ==> Evicted(t.h, l, r) == Evicted(m.h, l, r)
  {
  }

  // ---- the order in which a row's blocks become free ----

  /** Dropping pages only appends to the free queue. */
  lemma {:induction false} DropAppends(s: Sys, others: multiset<int>, l: nat, r: nat, blk: nat)
    requires SysOk(s, others) && s.status == Done && l < s.h.geo.layers && r < s.h.geo.rows && blk <= s.h.geo.pages
    ensures s.pool.free <= DropBelow(s, l, r, blk).pool.free
    decreases blk
  {
    hide PoolOk;
    if blk > 0 {
      var i := SlotAt(s.h.geo, l, r, blk - 1);
      DropSlotOk(s, others, i);
      assert s.pool.free <= DropSlot(s, i).pool.free;
      DropAppends(DropSlot(s, i), others, l, r, blk - 1);
    }
  }

  /** A page that only one slot names goes to the tail of the queue when it is dropped. */
  lemma DropQueues(s: Sys, others: multiset<int>, i: nat)
    requires SysOk(s, others) && s.status == Done && i < |s.h.table|
    requires s.h.table[i] >= 0 && s.pool.ref[s.h.table[i]] == 1
    ensures DropSlot(s, i).pool.free == s.pool.free + [s.h.table[i] as nat]
  {
    assert s.h.table[i] in multiset(s.h.table);
  }

  lemma DropKeepsCount(s: Sys, others: multiset<int>, i: nat, b: nat)
    requires SysOk(s, others) && s.status == Done && i < |s.h.table| && b < |s.pool.ref| && s.h.table[i] != b
    ensures DropSlot(s, i).pool.ref[b] == s.pool.ref[b]
  {
  }

  lemma {:induction false} DropReaches(s: Sys, others: multiset<int>, l: nat, r: nat, blk: nat, k: nat)
    returns (j: nat)
    requires SysOk(s, others) && s.status == Done && l < s.h.geo.layers && r < s.h.geo.rows
    requires k < blk <= s.h.geo.pages && PageOf(s.h, l, r, k) >= 0 && s.pool.ref[PageOf(s.h, l, r, k)] == 1
    ensures var t := DropBelow(s, l, r, blk);
      |s.pool.free| <= j < |t.pool.free| && t.pool.free[j] == PageOf(s.h, l, r, k)
    decreases blk
  {
    hide PoolOk;
    hide Kept;
    hide SlotAt;
    hide DropSlot;
    var i := SlotAt(s.h.geo, l, r, blk - 1);
    var m := DropSlot(s, i);
    var b := PageOf(s.h, l, r, k);
    DropSlotOk(s, others, i);
    KeptOk(s, m, others);
    DropAppends(m, others, l, r, blk - 1);
    if k == blk - 1 {
      DropQueues(s, others, i);
      j := |s.pool.free|;
    } else {
      DropSlotPages(s, l, r, blk - 1);
      SlotUnique(s.h.geo, l, r, k, l, r, blk - 1);
      OnlyOnce(s, others, SlotAt(s.h.geo, l, r, k), i);
      DropKeepsCount(s, others, i, b);
      DropGrows(s, others, i);
      j := DropReaches(m, others, l, r, blk - 1, k);
    }
  }

  lemma KeptOk(s: Sys, t: Sys, others: multiset<int>)
    requires Kept(s, t, others)
    ensures SysOk(t, others) && SysShape(t) && SameFrame(s, t)
  {
  }

  lemma DropGrows(s: Sys, others: multiset<int>, i: nat)
    requires SysOk(s, others) && i < |s.h.table|
    ensures |s.pool.free| <= |DropSlot(s, i).pool.free|
  {
  }

  /** Two slots cannot share a block whose count is one. */
  lemma OnlyOnce(s: Sys, others: multiset<int>, i: nat, j: nat)
    requires SysOk(s, others) && i < |s.h.table| && j < |s.h.table| && i != j
    requires s.h.table[i] >= 0 && s.pool.ref[s.h.table[i]] == 1
    ensures s.h.table[j] != s.h.table[i]
  {
    hide Indexed;
    if s.h.table[i] == s.h.table[j] { TwiceNamed(s.h.table, i, j); }
  }

  lemma TwiceNamed(table: seq<int>, i: nat, j: nat)
    requires i < |table| && j < |table| && i != j && table[i] == table[j]
    ensures multiset(table)[table[i]] >= 2
  {
    var a, b := if i < j then i else j, if i < j then j else i;
    assert table == table[..a + 1] + table[a + 1..];
    assert table[a] in table[..a + 1];
    assert table[a + 1..][b - a - 1] == table[b];
    assert table[b] in table[a + 1..];
  }

  /** A page of row r that no other slot names. */
  ghost predicate Own(s: Sys, l: nat, r: nat, k: nat)
    requires SysShape(s) && l < s.h.geo.layers && r < s.h.geo.rows && k < s.h.geo.pages
  {
    PageOf(s.h, l, r, k) >= 0 && s.pool.ref[PageOf(s.h, l, r, k)] == 1
  }

  lemma {:induction false} OrderBelow(s: Sys, others: multiset<int>, l: nat, r: nat, blk: nat, k: nat, k': nat)
    returns (a: nat, b: nat)
    requires SysOk(s, others) && s.status == Done && l < s.h.geo.layers && r < s.h.geo.rows
    requires k < k' < blk <= s.h.geo.pages
    requires PageOf(s.h, l, r, k) >= 0 && s.pool.ref[PageOf(s.h, l, r, k)] == 1
    requires PageOf(s.h, l, r, k') >= 0 && s.pool.ref[PageOf(s.h, l, r, k')] == 1
    ensures var free := DropBelow(s, l, r, blk).pool.free;
      a < b < |free| && free[a] == PageOf(s.h, l, r, k') && free[b] == PageOf(s.h, l, r, k)
    decreases blk
  {
    hide PoolOk;
    hide Kept;
    hide SlotAt;
    hide DropSlot;
    var i := SlotAt(s.h.geo, l, r, blk - 1);
    var m := DropSlot(s, i);
    DropSlotOk(s, others, i);
    KeptOk(s, m, others);
    DropSlotPages(s, l, r, blk - 1);
    SlotUnique(s.h.geo, l, r, k, l, r, blk - 1);
    OnlyOnce(s, others, SlotAt(s.h.geo, l, r, k), i);
    DropKeepsCount(s, others, i, PageOf(s.h, l, r, k));
    if k' == blk - 1 {
      DropQueues(s, others, i);
      DropAppends(m, others, l, r, blk - 1);
      a := |s.pool.free|;
      b := DropReaches(m, others, l, r, blk - 1, k);
    } else {
      SlotUnique(s.h.geo, l, r, k', l, r, blk - 1);
      OnlyOnce(s, others, SlotAt(s.h.geo, l, r, k'), i);
      DropKeepsCount(s, others, i, PageOf(s.h, l, r, k'));
      a, b := OrderBelow(m, others, l, r, blk - 1, k, k');
    }
  }

  /** Dropping another layer's pages leaves an unshared page alone. */
  lemma {:induction false} DropSpares(s: Sys, others: multiset<int>, r: nat, l': nat, blk: nat, l: nat, k: nat)
    requires SysOk(s, others) && s.status == Done && l < s.h.geo.layers && l' < s.h.geo.layers && l != l'
    requires r < s.h.geo.rows && k < s.h.geo.pages && blk <= s.h.geo.pages && Own(s, l, r, k)
    ensures var t := DropBelow(s, l', r, blk); Own(t, l, r, k) && PageOf(t.h, l, r, k) == PageOf(s.h, l, r, k)
    decreases blk
  {
    hide PoolOk;
    hide Kept;
    hide SlotAt;
    hide DropSlot;
    if blk > 0 {
      var i := SlotAt(s.h.geo, l', r, blk - 1);
      SlotUnique(s.h.geo, l, r, k, l', r, blk - 1);
      OnlyOnce(s, others, SlotAt(s.h.geo, l, r, k), i);
      DropSlotOk(s, others, i);
      KeptOk(s, DropSlot(s, i), others);
      DropKeepsCount(s, others, i, PageOf(s.h, l, r, k));
      DropSpares(DropSlot(s, i), others, r, l', blk - 1, l, k);
    }
  }

  /** One layer of free_row. */
  function FreeLayer(s: Sys, r: nat, l: nat): (t: Sys)
    requires SysShape(s) && r < s.h.geo.rows && l < s.h.geo.layers
    ensures SysShape(t) && SameFrame(s, t)
  {
    SetEvicted(DropBelow(s, l, r, s.h.geo.pages), l, r, 0)
  }

  lemma FreeLayerOk(s: Sys, others: multiset<int>, r: nat, l: nat)
    requires SysOk(s, others) && s.status == Done && r < s.h.geo.rows && l < s.h.geo.layers
    ensures var t := FreeLayer(s, r, l);
      && Kept(s, t, others) && t.status == Done
      && s.pool.free <= t.pool.free && t.pool.free == DropBelow(s, l, r, s.h.geo.pages).pool.free
  {
    hide PoolOk;
    hide DropBelow;
    DropBelowOk(s, others, l, r, s.h.geo.pages);
    DropAppends(s, others, l, r, s.h.geo.pages);
    SameTableOk(DropBelow(s, l, r, s.h.geo.pages), FreeLayer(s, r, l), others);
  }

  lemma {:induction false} FreeAppends(s: Sys, others: multiset<int>, r: nat, n: nat)
    requires SysOk(s, others) && s.status == Done && r < s.h.geo.rows && n <= s.h.geo.layers
    ensures s.pool.free <= FreeLayers(s, r, n).pool.free
    decreases n
  {
    hide SysOk;
    hide Kept;
    hide FreeLayer;
    hide FreeLayers;
    ShapeFromOk(s, others);
    if n == 0 {
      NoLayer(s, r);
    } else {
      FreeLayerOk(s, others, r, n - 1);
      KeptOk(s, FreeLayer(s, r, n - 1), others);
      OneLayer(s, r, n);
      FreeAppends(FreeLayer(s, r, n - 1), others, r, n - 1);
    }
  }

  lemma NoLayer(s: Sys, r: nat)
    requires SysShape(s) && r < s.h.geo.rows
    ensures FreeLayers(s, r, 0) == s
  {
  }

  lemma OneLayer(s: Sys, r: nat, n: nat)
    requires SysShape(s) && s.status == Done && r < s.h.geo.rows && 0 < n <= s.h.geo.layers
    ensures FreeLayers(s, r, n) == FreeLayers(FreeLayer(s, r, n - 1), r, n - 1)
  {
  }

  lemma {:induction false} OrderInLayers(s: Sys, others: multiset<int>, r: nat, n: nat, l: nat, k: nat, k': nat)
    returns (a: nat, b: nat)
    requires SysOk(s, others) && s.status == Done && r < s.h.geo.rows && l < n <= s.h.geo.layers
    requires k < k' < s.h.geo.pages && Own(s, l, r, k) && Own(s, l, r, k')
    ensures var free := FreeLayers(s, r, n).pool.free;
      a < b < |free| && free[a] == PageOf(s.h, l, r, k') && free[b] == PageOf(s.h, l, r, k)
    decreases n
  {
    hide PoolOk;
    hide Kept;
    hide SlotAt;
    hide FreeLayers;
    hide DropBelow;
    var m := FreeLayer(s, r, n - 1);
    FreeLayerOk(s, others, r, n - 1);
    KeptOk(s, m, others);
    OneLayer(s, r, n);
    if l == n - 1 {
      a, b := OrderBelow(s, others, l, r, s.h.geo.pages, k, k');
      FreeAppends(m, others, r, n - 1);
    } else {
      DropSpares(s, others, r, n - 1, s.h.geo.pages, l, k);
      DropSpares(s, others, r, n - 1, s.h.geo.pages, l, k');
      a, b := OrderInLayers(m, others, r, n - 1, l, k, k');
    }
  }

  /** Freed blocks are reused last where they matter most: in the queue that free_row leaves,
      of two pages of one layer that nobody else holds the later one comes first. */
  lemma LaterPagesFirst(s: Sys, others: multiset<int>, l: nat, r: nat, k: nat, k': nat)
    requires SysOk(s, others) && s.status == Done && l < s.h.geo.layers && r < s.h.geo.rows && k < k' < s.h.geo.pages
    requires Own(s, l, r, k) && Own(s, l, r, k')
    ensures var free := FreeRow(s, r).pool.free;
      exists i, j :: 0 <= i < j < |free| && free[i] == PageOf(s.h, l, r, k') && free[j] == PageOf(s.h, l, r, k)
  {
    hide PoolOk;
    hide FreeLayers;
    var i, j := OrderInLayers(s, others, r, s.h.geo.layers, l, k, k');
  }
}
