/** A KV handle as the original keeps it (kv/cache.cpp): flat host tables updated in place,
    over a block pool it shares with other handles. Each method does to the tables what
    the function of the same operation in KvModel does to their values. */
module PagedHandle {
  import opened Wrappers
  import opened PrefixKeys
  import opened KvModel
  import opened BlockPool
  import KvOps

  class KvHandle {
    const pool: KVBlockPool
    const geo: Geometry
    const pageTable: array<int>
    const cacheSeqlens: array<int>
    const rowActive: array<int>
    const evictUntil: array<int>

    ghost function Tables(): set<object> { {pageTable, cacheSeqlens, rowActive, evictUntil} }

    ghost function Frame(): set<object> { Tables() + pool.Frame() }

    ghost function Abs(): Handle
      reads pageTable, cacheSeqlens, rowActive, evictUntil
    {
      Handle(geo, pageTable[..], cacheSeqlens[..], rowActive[..], evictUntil[..])
    }

    /** The handle and the pool under it, with the outcome of an operation. */
    ghost function State(status: Status): Sys
      reads pageTable, cacheSeqlens, rowActive, evictUntil, pool, pool.refCnt, pool.blockHash
    {
      Sys(pool.Abs(), Abs(), status)
    }

    ghost predicate Valid()
      reads this, Frame()
    {
      && pool.Valid() && Tables() !! pool.Frame()
      && pageTable != cacheSeqlens && pageTable != rowActive && pageTable != evictUntil
      && cacheSeqlens != rowActive && cacheSeqlens != evictUntil && rowActive != evictUntil
      && SysShape(State(Done))
    }

    /** An empty handle over an existing pool. */
    constructor Blank(p: KVBlockPool, g: Geometry)
      requires p.Valid() && GeometryOk(g)
      ensures Valid() && pool == p && geo == g && Abs() == BlankHandle(g) && fresh(Tables())
    {
      hide Linked;
      pool, geo := p, g;
      pageTable := new int[Slots(g)](_ => -1);
      cacheSeqlens := new int[g.rows](_ => 0);
      rowActive := new int[g.rows](_ => 0);
      evictUntil := new int[g.layers * g.rows](_ => 0);
    }

    /** A handle with the tables the device holds; nothing is retained yet. */
    constructor Copy(p: KVBlockPool, h: Handle)
      requires p.Valid() && Opens(p.Abs(), h)
      ensures Valid() && pool == p && geo == h.geo && Abs() == h && fresh(Tables())
    {
      pool, geo := p, h.geo;
      pageTable := new int[|h.table|](i requires 0 <= i < |h.table| => h.table[i]);
      cacheSeqlens := new int[|h.lens|](i requires 0 <= i < |h.lens| => h.lens[i]);
      rowActive := new int[|h.active|](i requires 0 <= i < |h.active| => h.active[i]);
      evictUntil := new int[|h.evicted|](i requires 0 <= i < |h.evicted| => h.evicted[i]);
      new;
      assert Abs() == h;
    }

    /** Opening refuses a malformed table; otherwise every block it names gains a reference. */
    static method Open(p: KVBlockPool, h: Handle) returns (status: Status, handle: KvHandle?)
      requires p.Valid()
      modifies p.Frame()
      ensures p.Valid() && (status == Done <==> Opens(old(p.Abs()), h))
      ensures status != Done ==> handle == null && p.Abs() == old(p.Abs())
      ensures status == Done ==>
        && handle != null && fresh(handle.Tables()) && handle.pool == p && handle.Valid() && handle.Abs() == h
        && p.Abs() == RetainAll(old(p.Abs()), h.table, 0)
    {
      hide Linked;
      if !OpensIn(p.refCnt.Length, h) { return BadArgument, null; }
      var k := new KvHandle.Copy(p, h);
      for i := 0 to k.pageTable.Length
        invariant k.Valid() && k.Abs() == h && k.pool == p && fresh(k.Tables())
        invariant |p.Abs().ref| == old(|p.Abs().ref|)
        invariant RetainAll(p.Abs(), h.table, i) == RetainAll(old(p.Abs()), h.table, 0)
      {
        if k.pageTable[i] >= 0 { var ok := p.RetainBlock(k.pageTable[i]); }
      }
      return Done, k;
    }

    // ---- slots ----

    /** Maps a fresh block in slot i unless it is mapped already. */
    method FillSlot(i: nat) returns (status: Status)
      requires Valid() && i < pageTable.Length
      modifies Frame()
      ensures Valid()
      ensures var s := old(State(Done));
        State(status) ==
          if s.h.table[i] != -1 then s
          else match Acquire(s.pool)
            case None => Fail(s, OutOfBlocks)
            case Some(got) => Put(s, got.0, i, got.1)
    {
      if pageTable[i] != -1 { return Done; }
      var b := pool.AcquireBlock();
      if b == NONE { return OutOfBlocks; }
      pageTable[i] := b;
      status := Done;
    }

    /** Releases the block in slot i, if there is one. */
    method ReleaseSlot(i: nat) returns (status: Status)
      requires Valid() && i < pageTable.Length
      modifies Frame()
      ensures Valid() && State(status) == DropSlot(old(State(Done)), i)
    {
      status := Done;
      if pageTable[i] >= 0 {
        var ok := pool.ReleaseBlock(pageTable[i]);
        if !ok { return Underflow; }
        pageTable[i] := -1;
      }
    }

    // ---- one row of one layer ----

    /** kv_ensure_blocks_for_row */
    method EnsureBlocksForRow(l: nat, r: nat, lo: int, hi: int) returns (status: Status)
      requires Valid() && l < geo.layers && r < geo.rows
      modifies Frame()
      ensures Valid() && State(status) == EnsureRow(old(State(Done)), l, r, lo, hi)
    {
      hide Linked;
      hide Slots;
      status := Done;
      if hi <= lo { return; }
      if lo < 0 || hi > geo.pages { return BadArgument; }
      var blk := lo;
      while blk < hi && status == Done
        invariant Valid() && lo <= blk <= hi
        invariant EnsureLoop(State(status), l, r, blk, hi) == EnsureLoop(old(State(Done)), l, r, lo, hi)
        decreases hi - blk, status == Done
      {
        status := FillSlot(SlotAt(geo, l, r, blk));
        if status == Done { blk := blk + 1; }
      }
    }

    /** kv_evict_below */
    method EvictBelowPage(l: nat, r: nat, keepFrom: int) returns (status: Status)
      requires Valid() && l < geo.layers && r < geo.rows
      modifies Frame()
      ensures Valid() && State(status) == EvictBelow(old(State(Done)), l, r, keepFrom)
    {
      hide DropSlot;
      hide SlotAt;
      hide PoolShape;
      hide Sliding;
      hide Linked;
      hide Slots;
      status := Done;
      if keepFrom <= 0 || !Sliding(geo, l) { return; }
      var keep := if keepFrom < geo.pages then keepFrom else geo.pages;
      var from := evictUntil[RowAt(geo, l, r)];
      var blk := from;
      while blk < keep && status == Done
        invariant Valid() && from <= blk
        invariant EvictLoop(State(status), l, r, blk, keep) == EvictLoop(old(State(Done)), l, r, from, keep)
        decreases keep - blk
      {
        status := ReleaseSlot(SlotAt(geo, l, r, blk));
        blk := blk + 1;
      }
      if status == Done { evictUntil[RowAt(geo, l, r)] := if from < keep then keep else from; }
    }

    // ---- prefill ----

    method PrepareRow(r: nat, n: nat) returns (status: Status)
      requires Valid() && r < geo.rows
      modifies Frame()
      ensures Valid() && State(status) == PrepareLayers(old(State(Done)), r, n, 0)
    {
      hide Linked;
      hide Slots;
      hide EnsureRow;
      status := Done;
      var l := 0;
      while l < geo.layers && status == Done
        invariant Valid() && l <= geo.layers
        invariant PrepareLayers(State(status), r, n, l) == PrepareLayers(old(State(Done)), r, n, 0)
        decreases geo.layers - l
      {
        status := EnsureBlocksForRow(l, r, PrepareFrom(geo, l, n), CeilPages(n, geo.block));
        l := l + 1;
      }
    }

    /** prepare_prefill_masked: the whole batch is checked before anything changes. */
    method PreparePrefillMasked(lengths: seq<int>, mask: seq<int>) returns (status: Status)
      requires Valid() && |lengths| == |mask| == geo.rows
      modifies Frame()
      ensures Valid() && State(status) == PrepareMasked(old(State(Done)), lengths, mask)
    {
      hide Linked;
      hide Slots;
      hide PrepareLayers;
      for r := 0 to geo.rows
        invariant Valid() && State(Done) == old(State(Done))
        invariant forall i :: 0 <= i < r && mask[i] != 0 ==> LengthOk(geo, lengths[i])
      {
        if mask[r] != 0 && !LengthOk(geo, lengths[r]) { return BadArgument; }
      }
      status := Done;
      var r := 0;
      while r < geo.rows && status == Done
        invariant Valid() && r <= geo.rows
        invariant PrepareRows(State(status), lengths, mask, r) == PrepareRows(old(State(Done)), lengths, mask, 0)
        decreases geo.rows - r
      {
        if mask[r] != 0 {
          cacheSeqlens[r] := lengths[r];
          status := PrepareRow(r, lengths[r]);
        }
        r := r + 1;
      }
    }

    /** step_prefill_chunk_masked */
    method StepPrefillChunkMasked(layer: int, start: int, end: int, mask: seq<int>) returns (status: Status)
      requires Valid() && |mask| == geo.rows
      modifies Frame()
      ensures Valid() && State(status) == StepChunk(old(State(Done)), layer, start, end, mask)
    {
      hide Linked;
      hide Slots;
      hide EvictBelow;
      hide EnsureRow;
      status := Done;
      if !(0 <= layer < geo.layers) || !LengthOk(geo, start) || !LengthOk(geo, end) || end < start {
        return BadArgument;
      }
      if end == start { return; }
      if geo.window > 0 && start >= geo.window {
        status := EvictChunkRows(layer, KeepFrom(geo, start), mask);
      }
      if status == Done { status := EnsureChunkRows(layer, start / geo.block, CeilPages(end, geo.block), mask); }
    }

    method EvictChunkRows(l: nat, keep: nat, mask: seq<int>) returns (status: Status)
      requires Valid() && l < geo.layers && |mask| == geo.rows
      modifies Frame()
      ensures Valid() && State(status) == EvictRows(old(State(Done)), l, keep, mask, 0)
    {
      hide Linked;
      hide Slots;
      hide EvictBelow;
      status := Done;
      var r := 0;
      while r < geo.rows && status == Done
        invariant Valid() && r <= geo.rows
        invariant EvictRows(State(status), l, keep, mask, r) == EvictRows(old(State(Done)), l, keep, mask, 0)
        decreases geo.rows - r
      {
        if mask[r] != 0 { status := EvictBelowPage(l, r, keep); }
        r := r + 1;
      }
    }

    method EnsureChunkRows(l: nat, lo: nat, hi: nat, mask: seq<int>) returns (status: Status)
      requires Valid() && l < geo.layers && |mask| == geo.rows
      modifies Frame()
      ensures Valid() && State(status) == EnsureRows(old(State(Done)), l, lo, hi, mask, 0)
    {
      hide Linked;
      hide Slots;
      hide EnsureRow;
      status := Done;
      var r := 0;
      while r < geo.rows && status == Done
        invariant Valid() && r <= geo.rows
        invariant EnsureRows(State(status), l, lo, hi, mask, r) == EnsureRows(old(State(Done)), l, lo, hi, mask, 0)
        decreases geo.rows - r
      {
        if mask[r] != 0 { status := EnsureBlocksForRow(l, r, lo, hi); }
        r := r + 1;
      }
    }

    // ---- decode ----

    method DecodeOneRow(r: nat, pos: nat) returns (status: Status)
      requires Valid() && r < geo.rows
      modifies Frame()
      ensures Valid() && State(status) == DecodeRow(old(State(Done)), r, pos)
    {
      hide Linked;
      hide Slots;
      hide EvictBelow;
      hide EnsureRow;
      status := Done;
      if geo.window > 0 && pos >= geo.window {
        var keep := (pos - geo.window) / geo.block;
        var l := 0;
        while l < geo.layers && status == Done
          invariant Valid() && l <= geo.layers
          invariant DecodeEvict(State(status), r, keep, l) == DecodeEvict(old(State(Done)), r, keep, 0)
          decreases geo.layers - l
        {
          status := EvictBelowPage(l, r, keep);
          l := l + 1;
        }
      }
      ghost var kept := State(status);
      var l := 0;
      while l < geo.layers && status == Done
        invariant Valid() && l <= geo.layers
        invariant DecodeEnsure(State(status), r, pos / geo.block, l) == DecodeEnsure(kept, r, pos / geo.block, 0)
        decreases geo.layers - l
      {
        status := EnsureBlocksForRow(l, r, pos / geo.block, pos / geo.block + 1);
        l := l + 1;
      }
    }

    /** step_decode_positions */
    method StepDecodePositions(positions: seq<int>, mask: seq<int>) returns (status: Status)
      requires Valid() && |positions| == |mask| == geo.rows
      modifies Frame()
      ensures Valid() && State(status) == StepDecode(old(State(Done)), positions, mask)
    {
      hide Linked;
      hide Slots;
      hide DecodeRow;
      for r := 0 to geo.rows
        invariant Valid() && State(Done) == old(State(Done))
        invariant forall i :: 0 <= i < r && mask[i] != 0 ==> 0 <= positions[i] < MaxTokens(geo)
      {
        if mask[r] != 0 && !(0 <= positions[r] < MaxTokens(geo)) { return BadArgument; }
      }
      status := Done;
      var r := 0;
      while r < geo.rows && status == Done
        invariant Valid() && r <= geo.rows
        invariant DecodeRows(State(status), positions, mask, r) == DecodeRows(old(State(Done)), positions, mask, 0)
        decreases geo.rows - r
      {
        rowActive[r] := if mask[r] != 0 then 1 else 0;
        if mask[r] != 0 {
          cacheSeqlens[r] := positions[r];
          status := DecodeOneRow(r, positions[r]);
        }
        r := r + 1;
      }
    }

    // ---- giving blocks back ----

    method DropRowOfLayer(l: nat, r: nat) returns (status: Status)
      requires Valid() && l < geo.layers && r < geo.rows
      modifies Frame()
      ensures Valid() && State(status) == DropBelow(old(State(Done)), l, r, geo.pages)
    {
      hide DropSlot;
      hide SlotAt;
      hide PoolShape;
      hide Linked;
      hide Slots;
      status := Done;
      var blk: nat := geo.pages;
      while blk > 0 && status == Done
        invariant Valid() && blk <= geo.pages
        invariant DropBelow(State(status), l, r, blk) == DropBelow(old(State(Done)), l, r, geo.pages)
        decreases blk
      {
        status := ReleaseSlot(SlotAt(geo, l, r, blk - 1));
        blk := blk - 1;
      }
    }

    method FreeLayerOfRow(l: nat, r: nat) returns (status: Status)
      requires Valid() && l < geo.layers && r < geo.rows
      modifies Frame()
      ensures Valid() && State(status) == SetEvicted(DropBelow(old(State(Done)), l, r, geo.pages), l, r, 0)
    {
      hide Linked;
      hide Slots;
      hide DropBelow;
      hide PoolShape;
      status := DropRowOfLayer(l, r);
      if status == Done { evictUntil[RowAt(geo, l, r)] := 0; }
    }

    /** free_row */
    method FreeOneRow(row: int) returns (status: Status)
      requires Valid()
      modifies Frame()
      ensures Valid() && State(status) == FreeRow(old(State(Done)), row)
    {
      hide Linked;
      hide Slots;
      hide DropBelow;
      hide SetEvicted;
      hide PoolShape;
      if !(0 <= row < geo.rows) { return BadArgument; }
      status := Done;
      var l: nat := geo.layers;
      while l > 0 && status == Done
        invariant Valid() && l <= geo.layers
        invariant FreeLayers(State(status), row, l) == FreeLayers(old(State(Done)), row, geo.layers)
        decreases l
      {
        status := FreeLayerOfRow(l - 1, row);
        l := l - 1;
      }
      if status == Done { cacheSeqlens[row], rowActive[row] := 0, 0; }
    }

    method ReleaseRow(r: nat) returns (status: Status)
      requires Valid() && r < geo.rows
      modifies Frame()
      ensures Valid() && State(status) == ReleaseLayers(old(State(Done)), r, geo.layers)
    {
      hide Linked;
      hide Slots;
      hide DropBelow;
      status := Done;
      var l: nat := geo.layers;
      while l > 0 && status == Done
        invariant Valid() && l <= geo.layers
        invariant ReleaseLayers(State(status), r, l) == ReleaseLayers(old(State(Done)), r, geo.layers)
        decreases l
      {
        status := DropRowOfLayer(l - 1, r);
        l := l - 1;
      }
    }

    /** The destructor. */
    method ReleaseAllBlocks() returns (status: Status)
      requires Valid()
      modifies Frame()
      ensures Valid() && State(status) == Close(old(State(Done)))
    {
      hide Linked;
      hide Slots;
      hide ReleaseLayers;
      status := Done;
      var r := 0;
      while r < geo.rows && status == Done
        invariant Valid() && r <= geo.rows
        invariant ReleaseRows(State(status), r) == ReleaseRows(old(State(Done)), 0)
        decreases geo.rows - r
      {
        status := ReleaseRow(r);
        r := r + 1;
      }
    }

    // ---- the prefix cache ----

    /** prefix_entry_can_attach */
    method EntryCanAttach(ids: seq<int>, blk: int, requiredFrom: int) returns (ok: bool)
      requires Valid() && |ids| == geo.layers
      requires forall k :: 0 <= k < |ids| ==> -1 <= ids[k] < pool.refCnt.Length
      ensures ok == Fits(pool.Abs(), geo, ids, blk, requiredFrom)
    {
      hide Linked;
      hide Slots;
      for l := 0 to geo.layers
        invariant forall k :: 0 <= k < l ==>
          (ids[k] >= 0 && pool.Abs().hash[ids[k]].Some?) || (Sliding(geo, k) && blk < requiredFrom)
      {
        if ids[l] >= 0 && pool.blockHash[ids[l]].Some? { continue; }
        if !Sliding(geo, l) || blk >= requiredFrom { return false; }
      }
      ok := true;
    }

    /** The first pass of prefix_attach_batch. */
    method LookupAll(items: seq<Attachment>) returns (found: Found, entries: seq<seq<int>>)
      requires Valid()
      ensures found == Lookup(pool.Abs(), geo, items, 0)
      ensures found.Hit? ==> |entries| == |items| && forall j :: 0 <= j < |items| ==>
        items[j].key in pool.prefixCache && entries[j] == pool.prefixCache[items[j].key]
    {
      hide Linked;
      hide Slots;
      hide Fits;
      var destinations: set<(int, int)> := {};
      entries := [];
      for i := 0 to |items|
        invariant Lookup(pool.Abs(), geo, items, i) == Lookup(pool.Abs(), geo, items, 0)
        invariant forall d :: d in destinations <==> exists j :: 0 <= j < i && (items[j].row, items[j].block) == d
        invariant |entries| == i && forall j :: 0 <= j < i ==>
          items[j].key in pool.prefixCache && entries[j] == pool.prefixCache[items[j].key]
      {
        var a := items[i];
        if !InTable(geo, a.row, a.block) { return Refused(BadArgument), []; }
        assert Repeats(items, i) <==> (a.row, a.block) in destinations;
        if (a.row, a.block) in destinations { return Refused(BadArgument), []; }
        destinations := destinations + {(a.row, a.block)};
        if a.key !in pool.prefixCache { return Miss, []; }
        var ids := pool.prefixCache[a.key];
        if |ids| != geo.layers { return Refused(LayerMismatch), []; }
        var ok := EntryCanAttach(ids, a.block, ClampPages(geo, a.requiredFrom));
        if !ok { return Miss, []; }
        entries := entries + [ids];
      }
      found := Hit;
    }

    method AttachInto(i: nat, id: int) returns (status: Status)
      requires Valid() && i < pageTable.Length && -1 <= id < pool.refCnt.Length
      modifies Frame()
      ensures Valid() && State(status) == AttachSlot(old(State(Done)), i, id)
    {
      hide Linked;
      hide Slots;
      hide DropSlot;
      hide Retain;
      hide PoolShape;
      status := Done;
      if id < 0 || pageTable[i] == id { return; }
      status := ReleaseSlot(i);
      if status != Done { return; }
      var ok := pool.RetainBlock(id);
      pageTable[i] := id;
    }

    method AttachEntry(ids: seq<int>, r: nat, blk: nat) returns (status: Status)
      requires Valid() && |ids| == geo.layers && r < geo.rows && blk < geo.pages
      requires forall k :: 0 <= k < |ids| ==> -1 <= ids[k] < pool.refCnt.Length
      modifies Frame()
      ensures Valid() && State(status) == AttachLayers(old(State(Done)), ids, r, blk, 0)
    {
      hide Linked;
      hide Slots;
      hide AttachSlot;
      hide PoolShape;
      status := Done;
      var l := 0;
      while l < geo.layers && status == Done
        invariant Valid() && l <= geo.layers
        invariant AttachLayers(State(status), ids, r, blk, l) == AttachLayers(old(State(Done)), ids, r, blk, 0)
        decreases geo.layers - l
      {
        status := AttachInto(SlotAt(geo, l, r, blk), ids[l]);
        l := l + 1;
      }
    }

    /** prefix_attach_batch: either every item is attached or nothing changes. */
    method PrefixAttachBatch(items: seq<Attachment>) returns (status: Status, attached: bool)
      requires Valid()
      modifies Frame()
      ensures Valid() && (State(status), attached) == AttachBatch(old(State(Done)), items)
    {
      hide Linked;
      hide Slots;
      hide AttachLayers;
      hide Lookup;
      attached := false;
      if items == [] { return BadArgument, false; }
      var found, entries := LookupAll(items);
      if found.Refused? { return found.status, false; }
      if found.Miss? { return Done, false; }
      assert entries == Entries(pool.Abs(), items);
      KvOps.EntriesDoFit(State(Done), items);
      status, attached := Done, true;
      var i := 0;
      while i < |items| && status == Done
        invariant Valid() && i <= |items| && EntriesFit(State(status), items, entries)
        invariant AttachItems(State(status), items, entries, i) == AttachItems(old(State(Done)), items, entries, 0)
        decreases |items| - i
      {
        assert EntryFits(State(Done), items[i], entries[i]);
        status := AttachEntry(entries[i], items[i].row, items[i].block);
        i := i + 1;
      }
    }

    method MarkPages(ids: seq<int>, key: Key)
      requires pool.Valid() && forall k :: 0 <= k < |ids| ==> -1 <= ids[k] < pool.refCnt.Length
      modifies pool.blockHash
      ensures pool.Valid() && pool.Abs() == old(pool.Abs()).(hash := Mark(old(pool.blockHash[..]), ids, key, 0))
    {
      hide Linked;
      for l := 0 to |ids|
        invariant pool.Valid() && Mark(pool.blockHash[..], ids, key, l) == Mark(old(pool.blockHash[..]), ids, key, 0)
        invariant pool.Abs() == old(pool.Abs()).(hash := pool.blockHash[..])
      {
        if ids[l] >= 0 { pool.blockHash[ids[l]] := Some(key); }
      }
    }

    /** Collects the pages of one logical block; fails if one is hashed under another key. */
    method GatherPages(key: Key, r: nat, blk: nat) returns (clash: bool, ids: seq<int>)
      requires Valid() && r < geo.rows && blk < geo.pages
      ensures clash == HashedOtherwise(pool.Abs(), Column(Abs(), r, blk), key)
      ensures !clash ==> ids == Column(Abs(), r, blk)
    {
      hide Linked;
      hide Slots;
      hide PoolShape;
      ghost var column := Column(Abs(), r, blk);
      ids := [];
      for l := 0 to geo.layers
        invariant ids == column[..l]
        invariant forall k :: 0 <= k < l && column[k] >= 0 ==>
          pool.Abs().hash[column[k]].None? || pool.Abs().hash[column[k]] == Some(key)
      {
        var id := pageTable[SlotAt(geo, l, r, blk)];
        assert id == column[l];
        if id >= 0 && pool.blockHash[id].Some? && pool.blockHash[id] != Some(key) { return true, []; }
        ids := ids + [id];
      }
      assert ids == column;
      clash := false;
    }

    /** prefix_publish */
    method PrefixPublish(key: Key, row: int, blk: int) returns (status: Status, published: bool)
      requires Valid()
      modifies pool, pool.blockHash
      ensures Valid() && (State(status), published) == Publish(old(State(Done)), key, row, blk)
    {
      hide Linked;
      hide Slots;
      hide Mark;
      if !InTable(geo, row, blk) { return BadArgument, false; }
      if key in pool.prefixCache { return Done, false; }
      var clash, ids := GatherPages(key, row, blk);
      if clash { return TwoHashes, false; }
      if !AnyPage(ids) { return Done, false; }
      pool.prefixCache := pool.prefixCache[key := ids];
      MarkPages(ids, key);
      return Done, true;
    }

    // ---- rebind ----

    /** The source of a rebind shares this handle's pool, layers and pages. */
    ghost predicate Takes(src: KvHandle)
      reads this, src, Frame(), src.Frame()
    {
      && Valid() && src.Valid() && src.pool == pool && src.Tables() !! Tables()
      && geo == src.geo.(rows := geo.rows)
    }

    /** One slot: the new row names the block too. */
    method TakePage(src: KvHandle, i: nat, j: nat)
      requires Takes(src) && i < pageTable.Length && j < src.pageTable.Length
      modifies pageTable, pool, pool.refCnt, pool.prevFree, pool.nextFree, pool.inFreeQueue
      ensures Takes(src) && src.Abs() == old(src.Abs())
      ensures var slot := src.pageTable[j]; var s := old(State(Done));
        State(Done) == Put(s, if slot >= 0 then Retain(s.pool, slot) else s.pool, i, slot)
    {
      hide Linked;
      hide Slots;
      hide Retain;
      hide PoolShape;
      var slot := src.pageTable[j];
      if slot >= 0 { var ok := pool.RetainBlock(slot); }
      pageTable[i] := slot;
    }

    method TakePages(src: KvHandle, d: nat, r: nat, l: nat)
      requires Takes(src) && d < geo.rows && r < src.geo.rows && l < geo.layers
      modifies pageTable, pool, pool.refCnt, pool.prevFree, pool.nextFree, pool.inFreeQueue
      ensures Takes(src) && src.Abs() == old(src.Abs())
      ensures State(Done) == CarryPages(old(State(Done)), src.Abs(), d, r, l, 0)
    {
      hide Linked;
      hide Slots;
      hide Retain;
      hide PoolShape;
      hide Put;
      hide SlotAt;
      for blk := 0 to geo.pages
        invariant Takes(src) && src.Abs() == old(src.Abs())
        invariant CarryPages(State(Done), src.Abs(), d, r, l, blk) == CarryPages(old(State(Done)), src.Abs(), d, r, l, 0)
      {
        TakePage(src, SlotAt(geo, l, d, blk), SlotAt(src.geo, l, r, blk));
      }
    }

    method TakeLayer(src: KvHandle, d: nat, r: nat, l: nat)
      requires Takes(src) && d < geo.rows && r < src.geo.rows && l < geo.layers
      modifies pageTable, evictUntil, pool, pool.refCnt, pool.prevFree, pool.nextFree, pool.inFreeQueue
      ensures Takes(src) && src.Abs() == old(src.Abs())
      ensures State(Done) ==
        CarryPages(SetEvicted(old(State(Done)), l, d, Evicted(src.Abs(), l, r)), src.Abs(), d, r, l, 0)
    {
      hide Linked;
      hide Slots;
      hide CarryPages;
      hide PoolShape;
      evictUntil[RowAt(geo, l, d)] := src.evictUntil[RowAt(src.geo, l, r)];
      TakePages(src, d, r, l);
    }

    method TakeRow(src: KvHandle, d: nat, r: nat)
      requires Takes(src) && d < geo.rows && r < src.geo.rows
      modifies pageTable, evictUntil, cacheSeqlens, rowActive
      modifies pool, pool.refCnt, pool.prevFree, pool.nextFree, pool.inFreeQueue
      ensures Takes(src) && src.Abs() == old(src.Abs())
      ensures State(Done) == CarryLayers(SetActive(SetLen(old(State(Done)), d, src.Abs().lens[r]), d, src.Abs().active[r]),
        src.Abs(), d, r, 0)
    {
      hide Linked;
      hide Slots;
      hide CarryPages;
      hide PoolShape;
      hide Evicted;
      hide RowAt;
      hide SetEvicted;
      cacheSeqlens[d] := src.cacheSeqlens[r];
      rowActive[d] := src.rowActive[r];
      ghost var start := State(Done);
      for l := 0 to geo.layers
        invariant Takes(src) && src.Abs() == old(src.Abs())
        invariant CarryLayers(State(Done), src.Abs(), d, r, l) == CarryLayers(start, src.Abs(), d, r, 0)
      {
        TakeLayer(src, d, r, l);
      }
    }

    /** rebind: a fresh handle of |sources| rows over the same pool; this one stays as it is. */
    method RebindRows(sources: seq<int>) returns (status: Status, handle: KvHandle?)
      requires Valid()
      modifies pool, pool.refCnt, pool.prevFree, pool.nextFree, pool.inFreeQueue
      ensures Valid() && Abs() == old(Abs())
      ensures match Rebind(old(State(Done)), sources)
        case Err(e) => status == e && handle == null && pool.Abs() == old(pool.Abs())
        case Ok(t) => (
          && status == t.status && handle != null && handle.pool == pool && handle.Valid()
          && fresh(handle.Tables()) && handle.State(status) == t)
    {
      hide Linked;
      hide Slots;
      hide CarryLayers;
      hide PoolShape;
      if |sources| < 1 { return BadArgument, null; }
      var seen: set<int> := {};
      for d := 0 to |sources|
        invariant forall r :: r in seen <==> exists e :: 0 <= e < d && sources[e] == r && r >= 0
        invariant forall e :: 0 <= e < d ==> -1 <= sources[e] < geo.rows
        invariant forall e, f :: 0 <= e < f < d && sources[e] >= 0 ==> sources[e] != sources[f]
      {
        if sources[d] < -1 || sources[d] >= geo.rows { return BadArgument, null; }
        if sources[d] >= 0 {
          if sources[d] in seen { return BadArgument, null; }
          seen := seen + {sources[d]};
        }
      }
      handle := new KvHandle.Blank(pool, geo.(rows := |sources|));
      ghost var blank := handle.State(Done);
      var d := 0;
      while d < |sources|
        invariant d <= |sources| && handle.Takes(this) && Abs() == old(Abs()) && fresh(handle.Tables())
        invariant handle.geo.rows == |sources|
        invariant CarryRows(handle.State(Done), Abs(), sources, d) == CarryRows(blank, Abs(), sources, 0)
      {
        if sources[d] >= 0 { handle.TakeRow(this, d, sources[d]); }
        d := d + 1;
      }
      status := Done;
    }
  }
}
