/** What each operation does to the page table, page by page. */
module KvPages {
  import opened Arithmetic
  import opened Wrappers
  import opened PrefixKeys
  import opened KvModel

  /** Page-table slots and eviction entries of different (layer, row, page) differ. */
  lemma SlotUnique(g: Geometry, l: nat, r: nat, k: nat, l': nat, r': nat, k': nat)
    requires l < g.layers && l' < g.layers && r < g.rows && r' < g.rows && k < g.pages && k' < g.pages
    ensures SlotAt(g, l, r, k) == SlotAt(g, l', r', k') <==> l == l' && r == r' && k == k'
  {
    if SlotAt(g, l, r, k) == SlotAt(g, l', r', k') {
      IndexUnique(RowAt(g, l, r), k, RowAt(g, l', r'), k', g.pages);
      IndexUnique(l, r, l', r', g.rows);
    }
  }

  lemma RowUnique(g: Geometry, l: nat, r: nat, l': nat, r': nat)
    requires l < g.layers && l' < g.layers && r < g.rows && r' < g.rows
    ensures RowAt(g, l, r) == RowAt(g, l', r') <==> l == l' && r == r'
  {
    if RowAt(g, l, r) == RowAt(g, l', r') { IndexUnique(l, r, l', r', g.rows); }
  }

  function PageOf(h: Handle, l: nat, r: nat, k: nat): int
    requires HandleShape(h) && l < h.geo.layers && r < h.geo.rows && k < h.geo.pages
  {
    h.table[SlotAt(h.geo, l, r, k)]
  }

  /** Everything but (l, d) is as before. */
  ghost predicate OtherSlotsSame(s: Sys, t: Sys, l: nat, d: nat)
    requires SysShape(s) && SysShape(t) && SameFrame(s, t)
  {
    && (forall l': nat, d': nat, k: nat ::
          l' < s.h.geo.layers && d' < s.h.geo.rows && k < s.h.geo.pages && (l' != l || d' != d) ==>
            PageOf(t.h, l', d', k) == PageOf(s.h, l', d', k))
    && t.h.lens == s.h.lens && t.h.active == s.h.active
  }

  /** Changing slot (l, r, k) changes only that page. */
  lemma PutPages(s: Sys, pool: Pool, l: nat, r: nat, k: nat, v: int)
    requires SysShape(s) && l < s.h.geo.layers && r < s.h.geo.rows && k < s.h.geo.pages
    requires PoolShape(pool) && |pool.ref| == |s.pool.ref| && -1 <= v < |pool.ref|
    ensures var t := Put(s, pool, SlotAt(s.h.geo, l, r, k), v);
      && PageOf(t.h, l, r, k) == v
      && (forall l': nat, r': nat, k': nat ::
            l' < s.h.geo.layers && r' < s.h.geo.rows && k' < s.h.geo.pages && (l' != l || r' != r || k' != k) ==>
              PageOf(t.h, l', r', k') == PageOf(s.h, l', r', k'))
  {
    forall l': nat, r': nat, k': nat |
      l' < s.h.geo.layers && r' < s.h.geo.rows && k' < s.h.geo.pages && (l' != l || r' != r || k' != k)
      ensures SlotAt(s.h.geo, l', r', k') != SlotAt(s.h.geo, l, r, k)
    {
      SlotUnique(s.h.geo, l, r, k, l', r', k');
    }
  }

  lemma DropSlotPages(s: Sys, l: nat, r: nat, k: nat)
    requires SysShape(s) && l < s.h.geo.layers && r < s.h.geo.rows && k < s.h.geo.pages
    requires DropSlot(s, SlotAt(s.h.geo, l, r, k)).status == Done
    ensures var t := DropSlot(s, SlotAt(s.h.geo, l, r, k));
      && PageOf(t.h, l, r, k) == -1 && OtherSlotsSame(s, t, l, r) && t.h.evicted == s.h.evicted
      && (forall k': nat :: k' < s.h.geo.pages && k' != k ==> PageOf(t.h, l, r, k') == PageOf(s.h, l, r, k'))
  {
    if s.h.table[SlotAt(s.h.geo, l, r, k)] >= 0 {
      PutPages(s, Release(s.pool, PageOf(s.h, l, r, k)).value, l, r, k, -1);
    }
  }

  lemma OtherSlotsTrans(s: Sys, m: Sys, t: Sys, l: nat, r: nat)
    requires SysShape(s) && SysShape(m) && SysShape(t) && SameFrame(s, m) && SameFrame(m, t)
    requires OtherSlotsSame(s, m, l, r) && OtherSlotsSame(m, t, l, r)
    ensures OtherSlotsSame(s, t, l, r)
  {
  }

  /** Ensuring maps every page of the range and leaves what is mapped alone. */
  lemma {:induction false} EnsurePages(s: Sys, l: nat, r: nat, blk: nat, hi: nat)
    requires SysShape(s) && l < s.h.geo.layers && r < s.h.geo.rows && hi <= s.h.geo.pages
    ensures var t := EnsureLoop(s, l, r, blk, hi);
      && OtherSlotsSame(s, t, l, r) && t.h.evicted == s.h.evicted
      && (forall k: nat :: k < s.h.geo.pages && (PageOf(s.h, l, r, k) != -1 || !(blk <= k < hi)) ==>
            PageOf(t.h, l, r, k) == PageOf(s.h, l, r, k))
      && (t.status == Done ==> forall k: nat :: blk <= k < hi ==> PageOf(t.h, l, r, k) != -1)
    decreases hi - blk
  {
    if blk < hi && s.status == Done {
      var i := SlotAt(s.h.geo, l, r, blk);
      if s.h.table[i] != -1 {
        EnsurePages(s, l, r, blk + 1, hi);
        assert PageOf(s.h, l, r, blk) != -1;
      } else if s.pool.free != [] {
        var got := Acquire(s.pool).value;
        var m := Put(s, got.0, i, got.1);
        PutPages(s, got.0, l, r, blk, got.1);
        EnsurePages(m, l, r, blk + 1, hi);
        OtherSlotsTrans(s, m, EnsureLoop(m, l, r, blk + 1, hi), l, r);
        assert PageOf(m.h, l, r, blk) != -1;
      }
    }
  }

  /** Evicting unmaps [blk, keep) and nothing else. */
  lemma {:induction false} EvictPages(s: Sys, l: nat, r: nat, blk: nat, keep: nat)
    requires SysShape(s) && l < s.h.geo.layers && r < s.h.geo.rows && keep <= s.h.geo.pages
    requires s.status == Done && EvictLoop(s, l, r, blk, keep).status == Done
    ensures var t := EvictLoop(s, l, r, blk, keep);
      && OtherSlotsSame(s, t, l, r) && t.h.evicted == s.h.evicted
      && (forall k: nat :: k < s.h.geo.pages ==>
            PageOf(t.h, l, r, k) == if blk <= k < keep then -1 else PageOf(s.h, l, r, k))
    decreases keep - blk
  {
    if blk < keep {
      var m := DropSlot(s, SlotAt(s.h.geo, l, r, blk));
      if m.status == Done {
        DropSlotPages(s, l, r, blk);
        EvictPages(m, l, r, blk + 1, keep);
        OtherSlotsTrans(s, m, EvictLoop(m, l, r, blk + 1, keep), l, r);
      }
    }
  }

  lemma {:induction false} DropPages(s: Sys, l: nat, r: nat, blk: nat)
    requires SysShape(s) && l < s.h.geo.layers && r < s.h.geo.rows && blk <= s.h.geo.pages
    requires s.status == Done && DropBelow(s, l, r, blk).status == Done
    ensures var t := DropBelow(s, l, r, blk);
      && OtherSlotsSame(s, t, l, r) && t.h.evicted == s.h.evicted
      && (forall k: nat :: k < s.h.geo.pages ==>
            PageOf(t.h, l, r, k) == if k < blk then -1 else PageOf(s.h, l, r, k))
    decreases blk
  {
    if blk > 0 {
      var m := DropSlot(s, SlotAt(s.h.geo, l, r, blk - 1));
      if m.status == Done {
        DropSlotPages(s, l, r, blk - 1);
        DropPages(m, l, r, blk - 1);
        OtherSlotsTrans(s, m, DropBelow(m, l, r, blk - 1), l, r);
      }
    }
  }
}
