/** Every handle operation keeps the invariant, throws included. */
module KvOps {
  import opened Arithmetic
  import opened Wrappers
  import opened PrefixKeys
  import opened KvModel
  import opened KvInvariant

  /** Changing what no block count depends on. */
  lemma SameTableOk(s: Sys, t: Sys, others: multiset<int>)
    requires SysOk(s, others) && t.pool == s.pool && HandleShape(t.h)
    requires t.h.geo == s.h.geo && t.h.table == s.h.table && (t.status == Underflow ==> s.status == Underflow)
    ensures Kept(s, t, others)
  {
    hide Counted;
    hide Indexed;
  }

  lemma {:induction false} EnsureLoopOk(s: Sys, others: multiset<int>, l: nat, r: nat, blk: nat, hi: nat)
    requires SysOk(s, others) && l < s.h.geo.layers && r < s.h.geo.rows && hi <= s.h.geo.pages
    ensures Kept(s, EnsureLoop(s, l, r, blk, hi), others)
    decreases hi - blk
  {
    hide PoolOk;
    if blk < hi && s.status == Done {
      var i := SlotAt(s.h.geo, l, r, blk);
      if s.h.table[i] != -1 {
        EnsureLoopOk(s, others, l, r, blk + 1, hi);
      } else if s.pool.free != [] {
        var got := Acquire(s.pool).value;
        FillSlotOk(s, others, i);
        EnsureLoopOk(Put(s, got.0, i, got.1), others, l, r, blk + 1, hi);
      }
    }
  }

  lemma EnsureRowOk(s: Sys, others: multiset<int>, l: nat, r: nat, lo: int, hi: int)
    requires SysOk(s, others) && l < s.h.geo.layers && r < s.h.geo.rows
    ensures Kept(s, EnsureRow(s, l, r, lo, hi), others)
  {
    hide PoolOk;
    if 0 <= lo < hi <= s.h.geo.pages { EnsureLoopOk(s, others, l, r, lo, hi); }
  }

  lemma {:induction false} EvictLoopOk(s: Sys, others: multiset<int>, l: nat, r: nat, blk: nat, keep: nat)
    requires SysOk(s, others) && l < s.h.geo.layers && r < s.h.geo.rows && keep <= s.h.geo.pages
    ensures Kept(s, EvictLoop(s, l, r, blk, keep), others)
    ensures s.status == Done ==> EvictLoop(s, l, r, blk, keep).status == Done
    decreases keep - blk
  {
    hide PoolOk;
    if blk < keep && s.status == Done {
      var i := SlotAt(s.h.geo, l, r, blk);
      DropSlotOk(s, others, i);
      EvictLoopOk(DropSlot(s, i), others, l, r, blk + 1, keep);
    }
  }

  lemma EvictBelowOk(s: Sys, others: multiset<int>, l: nat, r: nat, keepFrom: int)
    requires SysOk(s, others) && l < s.h.geo.layers && r < s.h.geo.rows
    ensures Kept(s, EvictBelow(s, l, r, keepFrom), others)
    ensures s.status == Done ==> EvictBelow(s, l, r, keepFrom).status == Done
  {
    hide PoolOk;
    if keepFrom > 0 && Sliding(s.h.geo, l) {
      var keep := Least(keepFrom, s.h.geo.pages);
      var from := Evicted(s.h, l, r);
      EvictLoopOk(s, others, l, r, from, keep);
      var t := EvictLoop(s, l, r, from, keep);
      SameTableOk(t, SetEvicted(t, l, r, Most(from, keep)), others);
    }
  }

  lemma {:induction false} PrepareLayersOk(s: Sys, others: multiset<int>, r: nat, n: nat, l: nat)
    requires SysOk(s, others) && r < s.h.geo.rows
    ensures Kept(s, PrepareLayers(s, r, n, l), others)
    decreases s.h.geo.layers - l
  {
    hide PoolOk;
    if l < s.h.geo.layers && s.status == Done {
      var lo, hi := PrepareFrom(s.h.geo, l, n), CeilPages(n, s.h.geo.block);
      EnsureRowOk(s, others, l, r, lo, hi);
      PrepareLayersOk(EnsureRow(s, l, r, lo, hi), others, r, n, l + 1);
    }
  }

  lemma SetLenOk(s: Sys, others: multiset<int>, r: nat, n: int)
    requires SysOk(s, others) && r < s.h.geo.rows
    ensures Kept(s, SetLen(s, r, n), others)
  {
    hide PoolOk;
    SameTableOk(s, SetLen(s, r, n), others);
  }

  lemma SetActiveOk(s: Sys, others: multiset<int>, r: nat, n: int)
    requires SysOk(s, others) && r < s.h.geo.rows
    ensures Kept(s, SetActive(s, r, n), others)
  {
    hide PoolOk;
    SameTableOk(s, SetActive(s, r, n), others);
  }

  lemma {:induction false} PrepareRowsOk(s: Sys, others: multiset<int>, lengths: seq<int>, mask: seq<int>, r: nat)
    requires SysOk(s, others) && |lengths| == |mask| == s.h.geo.rows
    requires forall i :: 0 <= i < |mask| && mask[i] != 0 ==> 0 <= lengths[i]
    ensures Kept(s, PrepareRows(s, lengths, mask, r), others)
    decreases s.h.geo.rows - r
  {
    hide PoolOk;
    if r < s.h.geo.rows && s.status == Done {
      if mask[r] == 0 {
        PrepareRowsOk(s, others, lengths, mask, r + 1);
      } else {
        SetLenOk(s, others, r, lengths[r]);
        PrepareLayersOk(SetLen(s, r, lengths[r]), others, r, lengths[r], 0);
        PrepareRowsOk(PrepareLayers(SetLen(s, r, lengths[r]), r, lengths[r], 0), others, lengths, mask, r + 1);
      }
    }
  }

  lemma {:induction false} EvictRowsOk(s: Sys, others: multiset<int>, l: nat, keep: nat, mask: seq<int>, r: nat)
    requires SysOk(s, others) && l < s.h.geo.layers && |mask| == s.h.geo.rows
    ensures Kept(s, EvictRows(s, l, keep, mask, r), others)
    decreases s.h.geo.rows - r
  {
    hide PoolOk;
    if r < s.h.geo.rows && s.status == Done {
      if mask[r] == 0 {
        EvictRowsOk(s, others, l, keep, mask, r + 1);
      } else {
        EvictBelowOk(s, others, l, r, keep);
        EvictRowsOk(EvictBelow(s, l, r, keep), others, l, keep, mask, r + 1);
      }
    }
  }

  lemma {:induction false} EnsureRowsOk(s: Sys, others: multiset<int>, l: nat, lo: nat, hi: nat, mask: seq<int>, r: nat)
    requires SysOk(s, others) && l < s.h.geo.layers && |mask| == s.h.geo.rows
    ensures Kept(s, EnsureRows(s, l, lo, hi, mask, r), others)
    decreases s.h.geo.rows - r
  {
    hide PoolOk;
    if r < s.h.geo.rows && s.status == Done {
      if mask[r] == 0 {
        EnsureRowsOk(s, others, l, lo, hi, mask, r + 1);
      } else {
        EnsureRowOk(s, others, l, r, lo, hi);
        EnsureRowsOk(EnsureRow(s, l, r, lo, hi), others, l, lo, hi, mask, r + 1);
      }
    }
  }

  lemma FailOk(s: Sys, others: multiset<int>, status: Status)
    requires SysOk(s, others) && status != Underflow
    ensures Kept(s, Fail(s, status), others)
  {
    hide PoolOk;
  }

  lemma PrepareMaskedOk(s: Sys, others: multiset<int>, lengths: seq<int>, mask: seq<int>)
    requires SysOk(s, others) && |lengths| == |mask| == s.h.geo.rows
    ensures Kept(s, PrepareMasked(s, lengths, mask), others)
  {
    hide PoolOk;
    FailOk(s, others, BadArgument);
    if forall i :: 0 <= i < |mask| && mask[i] != 0 ==> LengthOk(s.h.geo, lengths[i]) {
      PrepareRowsOk(s, others, lengths, mask, 0);
    }
  }

  lemma ChunkLayerOk(s: Sys, others: multiset<int>, l: nat, start: nat, end: nat, mask: seq<int>)
    requires SysOk(s, others) && l < s.h.geo.layers && |mask| == s.h.geo.rows
    ensures Kept(s, ChunkLayer(s, l, start, end, mask), others)
  {
    hide PoolOk;
    var g := s.h.geo;
    var kept := if g.window > 0 && start >= g.window then EvictRows(s, l, KeepFrom(g, start), mask, 0) else s;
    EvictRowsOk(s, others, l, KeepFrom(g, start), mask, 0);
    EnsureRowsOk(kept, others, l, start / g.block, CeilPages(end, g.block), mask, 0);
  }

  lemma StepChunkOk(s: Sys, others: multiset<int>, layer: int, start: int, end: int, mask: seq<int>)
    requires SysOk(s, others) && |mask| == s.h.geo.rows
    ensures Kept(s, StepChunk(s, layer, start, end, mask), others)
  {
    hide PoolOk;
    FailOk(s, others, BadArgument);
    if 0 <= layer < s.h.geo.layers && 0 <= start < end { ChunkLayerOk(s, others, layer, start, end, mask); }
  }

  // ---- decode ----

  lemma {:induction false} DecodeEvictOk(s: Sys, others: multiset<int>, r: nat, keep: int, l: nat)
    requires SysOk(s, others) && r < s.h.geo.rows
    ensures Kept(s, DecodeEvict(s, r, keep, l), others)
    decreases s.h.geo.layers - l
  {
    hide PoolOk;
    if l < s.h.geo.layers && s.status == Done {
      EvictBelowOk(s, others, l, r, keep);
      DecodeEvictOk(EvictBelow(s, l, r, keep), others, r, keep, l + 1);
    }
  }

  lemma {:induction false} DecodeEnsureOk(s: Sys, others: multiset<int>, r: nat, blk: nat, l: nat)
    requires SysOk(s, others) && r < s.h.geo.rows
    ensures Kept(s, DecodeEnsure(s, r, blk, l), others)
    decreases s.h.geo.layers - l
  {
    hide PoolOk;
    if l < s.h.geo.layers && s.status == Done {
      EnsureRowOk(s, others, l, r, blk, blk + 1);
      DecodeEnsureOk(EnsureRow(s, l, r, blk, blk + 1), others, r, blk, l + 1);
    }
  }

  lemma DecodeRowOk(s: Sys, others: multiset<int>, r: nat, pos: nat)
    requires SysOk(s, others) && r < s.h.geo.rows
    ensures Kept(s, DecodeRow(s, r, pos), others)
  {
    hide PoolOk;
    var g := s.h.geo;
    var kept := if g.window > 0 && pos >= g.window then DecodeEvict(s, r, (pos - g.window) / g.block, 0) else s;
    if g.window > 0 && pos >= g.window { DecodeEvictOk(s, others, r, (pos - g.window) / g.block, 0); }
    DecodeEnsureOk(kept, others, r, pos / g.block, 0);
  }

  lemma {:induction false} DecodeRowsOk(s: Sys, others: multiset<int>, positions: seq<int>, mask: seq<int>, r: nat)
    requires SysOk(s, others) && |positions| == |mask| == s.h.geo.rows
    requires forall i :: 0 <= i < |mask| && mask[i] != 0 ==> 0 <= positions[i]
    ensures Kept(s, DecodeRows(s, positions, mask, r), others)
    decreases s.h.geo.rows - r
  {
    hide PoolOk;
    if r < s.h.geo.rows && s.status == Done {
      if mask[r] == 0 {
        SetActiveOk(s, others, r, 0);
        DecodeRowsOk(SetActive(s, r, 0), others, positions, mask, r + 1);
      } else {
        SetActiveOk(s, others, r, 1);
        SetLenOk(SetActive(s, r, 1), others, r, positions[r]);
        var t := SetLen(SetActive(s, r, 1), r, positions[r]);
        DecodeRowOk(t, others, r, positions[r]);
        DecodeRowsOk(DecodeRow(t, r, positions[r]), others, positions, mask, r + 1);
      }
    }
  }

  lemma StepDecodeOk(s: Sys, others: multiset<int>, positions: seq<int>, mask: seq<int>)
    requires SysOk(s, others) && |positions| == |mask| == s.h.geo.rows
    ensures Kept(s, StepDecode(s, positions, mask), others)
  {
    hide PoolOk;
    FailOk(s, others, BadArgument);
    if forall i :: 0 <= i < |mask| && mask[i] != 0 ==> 0 <= positions[i] < MaxTokens(s.h.geo) {
      DecodeRowsOk(s, others, positions, mask, 0);
    }
  }

  // ---- the prefix cache ----

  lemma {:induction false} AttachLayersOk(s: Sys, others: multiset<int>, ids: seq<int>, r: nat, blk: nat, l: nat)
    requires SysOk(s, others) && |ids| == s.h.geo.layers && r < s.h.geo.rows && blk < s.h.geo.pages
    requires forall k :: 0 <= k < |ids| ==> -1 <= ids[k] < |s.pool.ref|
    ensures Kept(s, AttachLayers(s, ids, r, blk, l), others)
    ensures s.status == Done ==> AttachLayers(s, ids, r, blk, l).status == Done
    ensures AttachLayers(s, ids, r, blk, l).pool.hash == s.pool.hash
    ensures AttachLayers(s, ids, r, blk, l).pool.cache == s.pool.cache
    decreases |ids| - l
  {
    hide PoolOk;
    if l < |ids| && s.status == Done {
      var i := SlotAt(s.h.geo, l, r, blk);
      AttachSlotOk(s, others, i, ids[l]);
      AttachLayersOk(AttachSlot(s, i, ids[l]), others, ids, r, blk, l + 1);
    }
  }

  /** The second pass of an attach cannot fail, and touches no hash and no entry. */
  lemma {:induction false} AttachItemsOk(s: Sys, others: multiset<int>, items: seq<Attachment>,
                                         entries: seq<seq<int>>, i: nat)
    requires SysOk(s, others) && EntriesFit(s, items, entries)
    ensures Kept(s, AttachItems(s, items, entries, i), others)
    ensures s.status == Done ==> AttachItems(s, items, entries, i).status == Done
    ensures AttachItems(s, items, entries, i).pool.hash == s.pool.hash
    ensures AttachItems(s, items, entries, i).pool.cache == s.pool.cache
    decreases |items| - i
  {
    hide PoolOk;
    if i < |items| && s.status == Done {
      assert EntryFits(s, items[i], entries[i]);
      AttachLayersOk(s, others, entries[i], items[i].row, items[i].block, 0);
      AttachItemsOk(AttachLayers(s, entries[i], items[i].row, items[i].block, 0), others, items, entries, i + 1);
    }
  }

  lemma EntriesDoFit(s: Sys, items: seq<Attachment>)
    requires SysShape(s) && Lookup(s.pool, s.h.geo, items, 0).Hit?
    ensures forall j :: 0 <= j < |items| ==> items[j].key in s.pool.cache
    ensures EntriesFit(s, items, Entries(s.pool, items))
  {
    var entries := Entries(s.pool, items);
    forall j | 0 <= j < |items| ensures EntryFits(s, items[j], entries[j]) {
      assert Accepted(s.pool, s.h.geo, items[j]);
    }
  }

  lemma LookupNeverUnderflows(p: Pool, g: Geometry, items: seq<Attachment>, i: nat)
    requires PoolShape(p) && GeometryOk(g) && i <= |items|
    ensures Lookup(p, g, items, i).Refused? ==> Lookup(p, g, items, i).status != Underflow
    decreases |items| - i
  {
  }

  lemma AttachBatchOk(s: Sys, others: multiset<int>, items: seq<Attachment>)
    requires SysOk(s, others)
    ensures Kept(s, AttachBatch(s, items).0, others)
  {
    hide PoolOk;
    FailOk(s, others, BadArgument);
    if s.status == Done && items != [] {
      var f := Lookup(s.pool, s.h.geo, items, 0);
      LookupNeverUnderflows(s.pool, s.h.geo, items, 0);
      if f.Hit? {
        EntriesDoFit(s, items);
        AttachItemsOk(s, others, items, Entries(s.pool, items), 0);
      } else if f.Refused? {
        FailOk(s, others, f.status);
      }
    }
  }

  lemma {:induction false} MarkFacts(hash: seq<Option<Key>>, ids: seq<int>, key: Key, l: nat)
    requires forall k :: 0 <= k < |ids| ==> ids[k] < |hash|
    ensures forall b :: 0 <= b < |hash| ==>
      Mark(hash, ids, key, l)[b] == if exists k :: l <= k < |ids| && ids[k] == b then Some(key) else hash[b]
    decreases |ids| - l
  {
    if l < |ids| {
      var next := if ids[l] < 0 then hash else hash[ids[l] := Some(key)];
      MarkFacts(next, ids, key, l + 1);
      forall b | 0 <= b < |hash|
        ensures Mark(hash, ids, key, l)[b] == if exists k :: l <= k < |ids| && ids[k] == b then Some(key) else hash[b]
      {
        if ids[l] == b { assert exists k :: l <= k < |ids| && ids[k] == b; }
        else if k :| l <= k < |ids| && ids[k] == b { assert l + 1 <= k; }
      }
    }
  }

  /** Publishing adds an entry whose pages all take its key. */
  lemma PublishIndexed(p: Pool, q: Pool, key: Key, ids: seq<int>)
    requires PoolShape(p) && Indexed(p) && key !in p.cache && AnyPage(ids)
    requires forall k :: 0 <= k < |ids| ==> -1 <= ids[k] < |p.hash|
    requires !HashedOtherwise(p, ids, key)
    requires q == p.(cache := p.cache[key := ids], hash := Mark(p.hash, ids, key, 0))
    ensures PoolShape(q) && Indexed(q)
  {
    MarkFacts(p.hash, ids, key, 0);
    assert forall b :: 0 <= b < |p.hash| ==> p.hash[b] != Some(key);
    forall k | 0 <= k < |ids| && ids[k] >= 0 ensures p.hash[ids[k]] == None {}
    forall b: nat | b < |q.hash| && q.hash[b].Some?
      ensures q.hash[b].value in q.cache && (b as int) in q.cache[q.hash[b].value]
    {
      if k :| 0 <= k < |ids| && ids[k] == b { } else { assert q.hash[b] == p.hash[b]; }
    }
    forall h, i | h in q.cache && 0 <= i < |q.cache[h]| && q.cache[h][i] >= 0
      ensures q.hash[q.cache[h][i]] == Some(h)
    {
      var b := q.cache[h][i];
      if h != key {
        assert p.hash[b] == Some(h);
      }
    }
  }

  lemma PublishOk(s: Sys, others: multiset<int>, key: Key, row: int, blk: int)
    requires SysOk(s, others)
    ensures Kept(s, Publish(s, key, row, blk).0, others)
  {
    FailOk(s, others, BadArgument);
    FailOk(s, others, TwoHashes);
    if s.status == Done && InTable(s.h.geo, row, blk) && key !in s.pool.cache {
      var ids := Column(s.h, row, blk);
      if !HashedOtherwise(s.pool, ids, key) && AnyPage(ids) {
        PublishIndexed(s.pool, Publish(s, key, row, blk).0.pool, key, ids);
      }
    }
  }

  lemma ClearCacheOk(p: Pool, names: multiset<int>)
    requires PoolOk(p, names)
    ensures PoolOk(ClearCache(p), names)
  {
  }

  // ---- giving blocks back ----

  lemma {:induction false} DropBelowOk(s: Sys, others: multiset<int>, l: nat, r: nat, blk: nat)
    requires SysOk(s, others) && l < s.h.geo.layers && r < s.h.geo.rows && blk <= s.h.geo.pages
    ensures Kept(s, DropBelow(s, l, r, blk), others)
    ensures s.status == Done ==> DropBelow(s, l, r, blk).status == Done
    decreases blk
  {
    hide PoolOk;
    if blk > 0 && s.status == Done {
      var i := SlotAt(s.h.geo, l, r, blk - 1);
      DropSlotOk(s, others, i);
      DropBelowOk(DropSlot(s, i), others, l, r, blk - 1);
    }
  }

  lemma {:induction false} FreeLayersOk(s: Sys, others: multiset<int>, r: nat, l: nat)
    requires SysOk(s, others) && r < s.h.geo.rows && l <= s.h.geo.layers
    ensures Kept(s, FreeLayers(s, r, l), others)
    ensures s.status == Done ==> FreeLayers(s, r, l).status == Done
    decreases l
  {
    hide PoolOk;
    if l > 0 && s.status == Done {
      DropBelowOk(s, others, l - 1, r, s.h.geo.pages);
      var t := DropBelow(s, l - 1, r, s.h.geo.pages);
      SameTableOk(t, SetEvicted(t, l - 1, r, 0), others);
      FreeLayersOk(SetEvicted(t, l - 1, r, 0), others, r, l - 1);
    }
  }

  lemma FreeRowOk(s: Sys, others: multiset<int>, row: int)
    requires SysOk(s, others)
    ensures Kept(s, FreeRow(s, row), others)
    ensures s.status == Done && 0 <= row < s.h.geo.rows ==> FreeRow(s, row).status == Done
  {
    hide PoolOk;
    FailOk(s, others, BadArgument);
    if s.status == Done && 0 <= row < s.h.geo.rows {
      FreeLayersOk(s, others, row, s.h.geo.layers);
      var t := FreeLayers(s, row, s.h.geo.layers);
      SetLenOk(t, others, row, 0);
      SetActiveOk(SetLen(t, row, 0), others, row, 0);
    }
  }

  lemma {:induction false} ReleaseLayersOk(s: Sys, others: multiset<int>, r: nat, l: nat)
    requires SysOk(s, others) && r < s.h.geo.rows && l <= s.h.geo.layers
    ensures Kept(s, ReleaseLayers(s, r, l), others)
    ensures s.status == Done ==> ReleaseLayers(s, r, l).status == Done
    decreases l
  {
    hide PoolOk;
    if l > 0 && s.status == Done {
      DropBelowOk(s, others, l - 1, r, s.h.geo.pages);
      ReleaseLayersOk(DropBelow(s, l - 1, r, s.h.geo.pages), others, r, l - 1);
    }
  }

  lemma {:induction false} ReleaseRowsOk(s: Sys, others: multiset<int>, r: nat)
    requires SysOk(s, others)
    ensures Kept(s, ReleaseRows(s, r), others)
    ensures s.status == Done ==> ReleaseRows(s, r).status == Done
    decreases s.h.geo.rows - r
  {
    hide PoolOk;
    if r < s.h.geo.rows && s.status == Done {
      ReleaseLayersOk(s, others, r, s.h.geo.layers);
      ReleaseRowsOk(ReleaseLayers(s, r, s.h.geo.layers), others, r + 1);
    }
  }

  // ---- rebind ----

  lemma {:induction false} CarryPagesOk(s: Sys, others: multiset<int>, h: Handle, d: nat, r: nat, l: nat, blk: nat)
    requires CanCarry(s, h) && d < s.h.geo.rows && r < h.geo.rows && l < h.geo.layers && s.status == Done
    requires SysOk(s, others)
    requires forall k :: blk <= k < h.geo.pages ==> s.h.table[SlotAt(s.h.geo, l, d, k)] == -1
    ensures Kept(s, CarryPages(s, h, d, r, l, blk), others)
    ensures CarryPages(s, h, d, r, l, blk).status == Done
    decreases h.geo.pages - blk
  {
    hide PoolOk;
    if blk < h.geo.pages {
      var slot := h.table[SlotAt(h.geo, l, r, blk)];
      var i := SlotAt(s.h.geo, l, d, blk);
      var t := Put(s, if slot >= 0 then Retain(s.pool, slot) else s.pool, i, slot);
      if slot >= 0 {
        TakeSlotOk(s, others, i, slot);
      } else {
        assert t.h.table == s.h.table;
        SameTableOk(s, t, others);
      }
      CarryPagesOk(t, others, h, d, r, l, blk + 1);
    }
  }
}
