/** The paged KV manager as values (kv/cache.cpp): a pool of counted blocks with a free
    queue and a prefix cache, and handles whose page tables name blocks. Every operation
    is a function from state to state that stops where the original throws. */
module KvModel {
  import opened Arithmetic
  import opened Wrappers
  import opened PrefixKeys

  /** The process-wide pool. `free` is the free queue, oldest first. A cache entry holds
      one block id per layer, -1 where the layer keeps no page. */
  datatype Pool = Pool(
    ref: seq<nat>,
    hash: seq<Option<Key>>,
    free: seq<nat>,
    cache: map<Key, seq<int>>,
    peak: int,
    evicted: nat)

  predicate PoolShape(p: Pool) {
    && |p.hash| == |p.ref|
    && (forall i :: 0 <= i < |p.free| ==> p.free[i] < |p.ref|)
    && (forall k :: k in p.cache ==> forall i :: 0 <= i < |p.cache[k]| ==> -1 <= p.cache[k][i] < |p.ref|)
  }

  function EmptyPool(n: nat): (p: Pool)
    ensures PoolShape(p)
  {
    Pool(seq(n, _ => 0), seq(n, _ => None), seq(n, (i: nat) => i), map[], 0, 0)
  }

  function ActiveCount(p: Pool): int { |p.ref| - |p.free| }

  function Raise(p: Pool): Pool {
    p.(peak := if p.peak < ActiveCount(p) then ActiveCount(p) else p.peak)
  }

  // ---- blocks ----

  function Blank(ids: seq<int>, b: int): (r: seq<int>)
    ensures |r| == |ids|
  {
    seq(|ids|, i requires 0 <= i < |ids| => if ids[i] == b then -1 else ids[i])
  }

  predicate AnyPage(ids: seq<int>) {
    exists i :: 0 <= i < |ids| && ids[i] >= 0
  }

  /** prefix_cache_remove_block_nolock */
  function Unhash(p: Pool, b: nat): (r: Pool)
    requires PoolShape(p) && b < |p.ref|
    ensures PoolShape(r) && r.ref == p.ref && r.free == p.free && r.peak == p.peak
  {
    match p.hash[b]
    case None => p
    case Some(h) =>
      var cache :=
        if h !in p.cache then p.cache
        else if AnyPage(Blank(p.cache[h], b)) then p.cache[h := Blank(p.cache[h], b)]
        else p.cache - {h};
      p.(cache := cache, hash := p.hash[b := None], evicted := p.evicted + 1)
  }

  /** kv_acquire_block_nolock: the oldest free block, stripped of its old prefix. */
  function Acquire(p: Pool): (r: Option<(Pool, nat)>)
    requires PoolShape(p)
    ensures r.Some? <==> p.free != []
    ensures r.Some? ==> PoolShape(r.value.0) && |r.value.0.ref| == |p.ref| && r.value.1 == p.free[0]
  {
    if p.free == [] then None else
    var b := p.free[0];
    var q := Unhash(p.(free := p.free[1..]), b);
    Some((Raise(q.(ref := q.ref[b := 1])), b))
  }

  function IndexIn(free: seq<nat>, b: nat): (i: nat)
    ensures i <= |free|
    ensures i < |free| ==> free[i] == b
    ensures b in free <==> i < |free|
  {
    if free == [] then 0 else if free[0] == b then 0 else 1 + IndexIn(free[1..], b)
  }

  /** The queue with b taken out, the rest in order. */
  function Without(free: seq<nat>, b: nat): (r: seq<nat>)
    ensures forall i :: 0 <= i < |r| ==> r[i] in free
  {
    var i := IndexIn(free, b);
    if i == |free| then free else free[..i] + free[i + 1..]
  }

  /** kv_retain_block_nolock */
  function Retain(p: Pool, b: nat): (r: Pool)
    requires PoolShape(p) && b < |p.ref|
    ensures PoolShape(r) && |r.ref| == |p.ref|
  {
    var free := if p.ref[b] == 0 then Without(p.free, b) else p.free;
    Raise(p.(ref := p.ref[b := p.ref[b] + 1], free := free))
  }

  /** kv_release_block_nolock; None when the count would go below zero. */
  function Release(p: Pool, b: nat): (r: Option<Pool>)
    requires PoolShape(p) && b < |p.ref|
    ensures r.Some? <==> p.ref[b] > 0
    ensures r.Some? ==> PoolShape(r.value) && |r.value.ref| == |p.ref|
  {
    if p.ref[b] == 0 then None else
    var q := p.(ref := p.ref[b := p.ref[b] - 1]);
    Some(if q.ref[b] == 0 && b !in q.free then q.(free := q.free + [b]) else q)
  }

  // ---- handles ----

  datatype Geometry = Geometry(
    layers: nat,
    rows: nat,       // BS
    pages: nat,      // max_pages_per_seq
    block: nat,      // page_block_size
    window: nat,     // sw_size
    pattern: nat)    // sw_pattern

  datatype Handle = Handle(
    geo: Geometry,
    table: seq<int>,    // page_table_host
    lens: seq<int>,     // cache_seqlens_host
    active: seq<int>,   // row_active_host
    evicted: seq<int>)  // sliding_evict_until

  predicate GeometryOk(g: Geometry) {
    g.layers > 0 && g.rows > 0 && g.pages > 0 && g.block > 0 && g.pattern > 0
  }

  function Slots(g: Geometry): nat { (g.layers * g.rows) * g.pages }

  /** The row of the eviction table, and of the page table, for (layer, row). */
  function RowAt(g: Geometry, l: nat, r: nat): (i: nat)
    requires l < g.layers && r < g.rows
    ensures i < g.layers * g.rows
  {
    IndexBound(l, r, g.layers, g.rows);
    l * g.rows + r
  }

  /** kv_pt */
  function SlotAt(g: Geometry, l: nat, r: nat, blk: nat): (i: nat)
    requires l < g.layers && r < g.rows && blk < g.pages
    ensures i < Slots(g)
  {
    IndexBound(RowAt(g, l, r), blk, g.layers * g.rows, g.pages);
    RowAt(g, l, r) * g.pages + blk
  }

  /** kv_layer_is_sliding */
  predicate Sliding(g: Geometry, l: nat)
    requires g.pattern > 0
  {
    l % g.pattern != 0
  }

  predicate HandleShape(h: Handle) {
    && GeometryOk(h.geo)
    && |h.table| == Slots(h.geo)
    && |h.lens| == |h.active| == h.geo.rows
    && |h.evicted| == h.geo.layers * h.geo.rows
    && (forall i :: 0 <= i < |h.evicted| ==> 0 <= h.evicted[i] <= h.geo.pages)
  }

  datatype Status = Done | OutOfBlocks | Underflow | BadArgument | TwoHashes | LayerMismatch

  datatype Sys = Sys(pool: Pool, h: Handle, status: Status)

  /** Every page table entry is -1 or a block of the pool. */
  predicate SysShape(s: Sys) {
    && PoolShape(s.pool) && HandleShape(s.h)
    && (forall i :: 0 <= i < |s.h.table| ==> -1 <= s.h.table[i] < |s.pool.ref|)
  }

  /** What no operation changes. */
  predicate SameFrame(s: Sys, t: Sys) {
    t.h.geo == s.h.geo && |t.pool.ref| == |s.pool.ref|
  }

  function Put(s: Sys, pool: Pool, i: nat, v: int): (t: Sys)
    requires SysShape(s) && i < |s.h.table| && PoolShape(pool) && |pool.ref| == |s.pool.ref| && -1 <= v < |pool.ref|
    ensures SysShape(t) && SameFrame(s, t)
  {
    s.(pool := pool, h := s.h.(table := s.h.table[i := v]))
  }

  function Fail(s: Sys, status: Status): Sys { s.(status := status) }

  // ---- opening a handle ----

  /** The initial device table holds a reference to every block it names. */
  function RetainAll(p: Pool, table: seq<int>, i: nat): (q: Pool)
    requires PoolShape(p) && forall k :: 0 <= k < |table| ==> -1 <= table[k] < |p.ref|
    ensures PoolShape(q) && |q.ref| == |p.ref|
    decreases |table| - i
  {
    if i >= |table| then p
    else RetainAll(if table[i] >= 0 then Retain(p, table[i]) else p, table, i + 1)
  }

  /** A well-formed table over a pool of n blocks. */
  predicate OpensIn(n: nat, h: Handle) {
    HandleShape(h) && forall k :: 0 <= k < |h.table| ==> -1 <= h.table[k] < n
  }

  predicate Opens(p: Pool, h: Handle) { OpensIn(|p.ref|, h) }

  // ---- one row of one layer ----

  function EnsureLoop(s: Sys, l: nat, r: nat, blk: nat, hi: nat): (t: Sys)
    requires SysShape(s) && l < s.h.geo.layers && r < s.h.geo.rows && hi <= s.h.geo.pages
    ensures SysShape(t) && SameFrame(s, t)
    decreases hi - blk
  {
    if blk >= hi || s.status != Done then s else
    var i := SlotAt(s.h.geo, l, r, blk);
    if s.h.table[i] != -1 then EnsureLoop(s, l, r, blk + 1, hi) else
    match Acquire(s.pool)
    case None => Fail(s, OutOfBlocks)
    case Some(got) => EnsureLoop(Put(s, got.0, i, got.1), l, r, blk + 1, hi)
  }

  /** kv_ensure_blocks_for_row */
  function EnsureRow(s: Sys, l: nat, r: nat, lo: int, hi: int): (t: Sys)
    requires SysShape(s) && l < s.h.geo.layers && r < s.h.geo.rows
    ensures SysShape(t) && SameFrame(s, t)
  {
    if hi <= lo || s.status != Done then s
    else if lo < 0 || hi > s.h.geo.pages then Fail(s, BadArgument)
    else EnsureLoop(s, l, r, lo, hi)
  }

  /** Releases the page in slot i, if there is one. */
  function DropSlot(s: Sys, i: nat): (t: Sys)
    requires SysShape(s) && i < |s.h.table|
    ensures SysShape(t) && SameFrame(s, t)
  {
    if s.status != Done || s.h.table[i] < 0 then s else
    match Release(s.pool, s.h.table[i])
    case None => Fail(s, Underflow)
    case Some(pool) => Put(s, pool, i, -1)
  }

  function EvictLoop(s: Sys, l: nat, r: nat, blk: nat, keep: nat): (t: Sys)
    requires SysShape(s) && l < s.h.geo.layers && r < s.h.geo.rows && keep <= s.h.geo.pages
    ensures SysShape(t) && SameFrame(s, t)
    decreases keep - blk
  {
    if blk >= keep || s.status != Done then s else
    EvictLoop(DropSlot(s, SlotAt(s.h.geo, l, r, blk)), l, r, blk + 1, keep)
  }

  function Evicted(h: Handle, l: nat, r: nat): (n: nat)
    requires HandleShape(h) && l < h.geo.layers && r < h.geo.rows
    ensures n <= h.geo.pages
  {
    h.evicted[RowAt(h.geo, l, r)]
  }

  function SetEvicted(s: Sys, l: nat, r: nat, n: nat): (t: Sys)
    requires SysShape(s) && l < s.h.geo.layers && r < s.h.geo.rows && n <= s.h.geo.pages
    ensures SysShape(t) && SameFrame(s, t)
  {
    if s.status != Done then s
    else s.(h := s.h.(evicted := s.h.evicted[RowAt(s.h.geo, l, r) := n]))
  }

  /** kv_evict_below: only sliding layers ever drop pages. */
  function EvictBelow(s: Sys, l: nat, r: nat, keepFrom: int): (t: Sys)
    requires SysShape(s) && l < s.h.geo.layers && r < s.h.geo.rows
    ensures SysShape(t) && SameFrame(s, t)
  {
    if keepFrom <= 0 || !Sliding(s.h.geo, l) then s else
    var keep := Least(keepFrom, s.h.geo.pages);
    var from := Evicted(s.h, l, r);
    SetEvicted(EvictLoop(s, l, r, from, keep), l, r, Most(from, keep))
  }

  // ---- prefill ----

  function CeilPages(tokens: nat, block: nat): nat requires block > 0 {
    if tokens == 0 then 0 else 1 + (tokens - 1) / block
  }

  function MaxTokens(g: Geometry): nat { g.pages * g.block }

  predicate LengthOk(g: Geometry, length: int) { 0 <= length <= MaxTokens(g) }

  /** First page that preparing `n` tokens maps in layer l. */
  function PrepareFrom(g: Geometry, l: nat, n: nat): nat
    requires GeometryOk(g)
  {
    if Sliding(g, l) && g.window > 0 && n > g.window then (n - g.window) / g.block else 0
  }

  function PrepareLayers(s: Sys, r: nat, n: nat, l: nat): (t: Sys)
    requires SysShape(s) && r < s.h.geo.rows
    ensures SysShape(t) && SameFrame(s, t)
    decreases s.h.geo.layers - l
  {
    if l >= s.h.geo.layers || s.status != Done then s else
    PrepareLayers(EnsureRow(s, l, r, PrepareFrom(s.h.geo, l, n), CeilPages(n, s.h.geo.block)), r, n, l + 1)
  }

  function SetLen(s: Sys, r: nat, n: int): (t: Sys)
    requires SysShape(s) && r < s.h.geo.rows
    ensures SysShape(t) && SameFrame(s, t)
  {
    s.(h := s.h.(lens := s.h.lens[r := n]))
  }

  function PrepareRows(s: Sys, lengths: seq<int>, mask: seq<int>, r: nat): (t: Sys)
    requires SysShape(s) && |lengths| == |mask| == s.h.geo.rows
    requires forall i :: 0 <= i < |mask| && mask[i] != 0 ==> 0 <= lengths[i]
    ensures SysShape(t) && SameFrame(s, t)
    decreases s.h.geo.rows - r
  {
    if r >= s.h.geo.rows || s.status != Done then s
    else if mask[r] == 0 then PrepareRows(s, lengths, mask, r + 1)
    else PrepareRows(PrepareLayers(SetLen(s, r, lengths[r]), r, lengths[r], 0), lengths, mask, r + 1)
  }

  /** prepare_prefill_masked */
  function PrepareMasked(s: Sys, lengths: seq<int>, mask: seq<int>): (t: Sys)
    requires SysShape(s) && |lengths| == |mask| == s.h.geo.rows
    ensures SysShape(t) && SameFrame(s, t)
  {
    if s.status != Done then s
    else if exists i :: 0 <= i < |mask| && mask[i] != 0 && !LengthOk(s.h.geo, lengths[i]) then Fail(s, BadArgument)
    else PrepareRows(s, lengths, mask, 0)
  }

  /** The tile size that FlashAttention's local mask rounds down to. */
  const TILE: nat := 128

  /** kv_prefill_swa_keep_from */
  function KeepFrom(g: Geometry, start: nat): nat
    requires GeometryOk(g)
  {
    if g.window == 0 || start < g.window then 0
    else (((start - (g.window - 1)) / TILE) * TILE) / g.block
  }

  function EvictRows(s: Sys, l: nat, keep: nat, mask: seq<int>, r: nat): (t: Sys)
    requires SysShape(s) && l < s.h.geo.layers && |mask| == s.h.geo.rows
    ensures SysShape(t) && SameFrame(s, t)
    decreases s.h.geo.rows - r
  {
    if r >= s.h.geo.rows || s.status != Done then s
    else if mask[r] == 0 then EvictRows(s, l, keep, mask, r + 1)
    else EvictRows(EvictBelow(s, l, r, keep), l, keep, mask, r + 1)
  }

  function EnsureRows(s: Sys, l: nat, lo: nat, hi: nat, mask: seq<int>, r: nat): (t: Sys)
    requires SysShape(s) && l < s.h.geo.layers && |mask| == s.h.geo.rows
    ensures SysShape(t) && SameFrame(s, t)
    decreases s.h.geo.rows - r
  {
    if r >= s.h.geo.rows || s.status != Done then s
    else if mask[r] == 0 then EnsureRows(s, l, lo, hi, mask, r + 1)
    else EnsureRows(EnsureRow(s, l, r, lo, hi), l, lo, hi, mask, r + 1)
  }

  /** One non-empty chunk of one layer: evict what no token of it attends, then map its pages. */
  function ChunkLayer(s: Sys, l: nat, start: nat, end: nat, mask: seq<int>): (t: Sys)
    requires SysShape(s) && l < s.h.geo.layers && |mask| == s.h.geo.rows
    ensures SysShape(t) && SameFrame(s, t)
  {
    var g := s.h.geo;
    var kept := if g.window > 0 && start >= g.window then EvictRows(s, l, KeepFrom(g, start), mask, 0) else s;
    EnsureRows(kept, l, start / g.block, CeilPages(end, g.block), mask, 0)
  }

  /** step_prefill_chunk_masked */
  function StepChunk(s: Sys, layer: int, start: int, end: int, mask: seq<int>): (t: Sys)
    requires SysShape(s) && |mask| == s.h.geo.rows
    ensures SysShape(t) && SameFrame(s, t)
  {
    if s.status != Done then s
    else if !(0 <= layer < s.h.geo.layers) || !LengthOk(s.h.geo, start) || !LengthOk(s.h.geo, end) || end < start then
      Fail(s, BadArgument)
    else if end == start then s
    else ChunkLayer(s, layer, start, end, mask)
  }

  // ---- decode ----

  function DecodeEvict(s: Sys, r: nat, keep: int, l: nat): (t: Sys)
    requires SysShape(s) && r < s.h.geo.rows
    ensures SysShape(t) && SameFrame(s, t)
    decreases s.h.geo.layers - l
  {
    if l >= s.h.geo.layers || s.status != Done then s
    else DecodeEvict(EvictBelow(s, l, r, keep), r, keep, l + 1)
  }

  function DecodeEnsure(s: Sys, r: nat, blk: nat, l: nat): (t: Sys)
    requires SysShape(s) && r < s.h.geo.rows
    ensures SysShape(t) && SameFrame(s, t)
    decreases s.h.geo.layers - l
  {
    if l >= s.h.geo.layers || s.status != Done then s
    else DecodeEnsure(EnsureRow(s, l, r, blk, blk + 1), r, blk, l + 1)
  }

  function SetActive(s: Sys, r: nat, flag: int): (t: Sys)
    requires SysShape(s) && r < s.h.geo.rows
    ensures SysShape(t) && SameFrame(s, t)
  {
    s.(h := s.h.(active := s.h.active[r := flag]))
  }

  function DecodeRow(s: Sys, r: nat, pos: nat): (t: Sys)
    requires SysShape(s) && r < s.h.geo.rows
    ensures SysShape(t) && SameFrame(s, t)
  {
    var g := s.h.geo;
    var kept := if g.window > 0 && pos >= g.window then DecodeEvict(s, r, (pos - g.window) / g.block, 0) else s;
    DecodeEnsure(kept, r, pos / g.block, 0)
  }

  function DecodeRows(s: Sys, positions: seq<int>, mask: seq<int>, r: nat): (t: Sys)
    requires SysShape(s) && |positions| == |mask| == s.h.geo.rows
    requires forall i :: 0 <= i < |mask| && mask[i] != 0 ==> 0 <= positions[i]
    ensures SysShape(t) && SameFrame(s, t)
    decreases s.h.geo.rows - r
  {
    if r >= s.h.geo.rows || s.status != Done then s
    else if mask[r] == 0 then DecodeRows(SetActive(s, r, 0), positions, mask, r + 1)
    else DecodeRows(DecodeRow(SetLen(SetActive(s, r, 1), r, positions[r]), r, positions[r]), positions, mask, r + 1)
  }

  /** kv_step_decode_positions */
  function StepDecode(s: Sys, positions: seq<int>, mask: seq<int>): (t: Sys)
    requires SysShape(s) && |positions| == |mask| == s.h.geo.rows
    ensures SysShape(t) && SameFrame(s, t)
  {
    if s.status != Done then s
    else if exists i :: 0 <= i < |mask| && mask[i] != 0 && !(0 <= positions[i] < MaxTokens(s.h.geo)) then
      Fail(s, BadArgument)
    else DecodeRows(s, positions, mask, 0)
  }

  // ---- the prefix cache ----

  /** prefix_entry_can_attach, for an entry of the right layer count. */
  predicate Fits(p: Pool, g: Geometry, ids: seq<int>, blk: int, requiredFrom: int)
    requires PoolShape(p) && GeometryOk(g) && |ids| == g.layers
    requires forall i :: 0 <= i < |ids| ==> ids[i] < |p.ref|
  {
    forall l :: 0 <= l < g.layers ==>
      (ids[l] >= 0 && p.hash[ids[l]].Some?) || (Sliding(g, l) && blk < requiredFrom)
  }

  function ClampPages(g: Geometry, requiredFrom: int): int { Most(0, Least(requiredFrom, g.pages)) }

  datatype Attachment = Attachment(key: Key, row: int, block: int, requiredFrom: int)

  datatype Found = Hit | Miss | Refused(status: Status)

  predicate InTable(g: Geometry, row: int, blk: int) { 0 <= row < g.rows && 0 <= blk < g.pages }

  predicate Repeats(items: seq<Attachment>, i: nat)
    requires i < |items|
  {
    exists j :: 0 <= j < i && items[j].row == items[i].row && items[j].block == items[i].block
  }

  /** An item that the first pass accepts. */
  predicate Accepted(p: Pool, g: Geometry, a: Attachment)
    requires PoolShape(p) && GeometryOk(g)
  {
    && InTable(g, a.row, a.block) && a.key in p.cache && |p.cache[a.key]| == g.layers
    && Fits(p, g, p.cache[a.key], a.block, ClampPages(g, a.requiredFrom))
  }

  /** The first pass of prefix_attach_batch: look up items i.., in order. */
  function Lookup(p: Pool, g: Geometry, items: seq<Attachment>, i: nat): (f: Found)
    requires PoolShape(p) && GeometryOk(g) && i <= |items|
    ensures f.Hit? <==> forall j :: i <= j < |items| ==> Accepted(p, g, items[j]) && !Repeats(items, j)
    ensures f.Refused? ==> f.status != Done
    decreases |items| - i
  {
    if i == |items| then Hit else
    var a := items[i];
    if !InTable(g, a.row, a.block) || Repeats(items, i) then Refused(BadArgument)
    else if a.key !in p.cache then Miss
    else if |p.cache[a.key]| != g.layers then Refused(LayerMismatch)
    else if !Fits(p, g, p.cache[a.key], a.block, ClampPages(g, a.requiredFrom)) then Miss
    else Lookup(p, g, items, i + 1)
  }

  /** One slot of the second pass. */
  function AttachSlot(s: Sys, i: nat, id: int): (t: Sys)
    requires SysShape(s) && i < |s.h.table| && -1 <= id < |s.pool.ref|
    ensures SysShape(t) && SameFrame(s, t)
  {
    if s.status != Done || id < 0 || s.h.table[i] == id then s else
    var dropped := DropSlot(s, i);
    if dropped.status != Done then dropped else Put(dropped, Retain(dropped.pool, id), i, id)
  }

  function AttachLayers(s: Sys, ids: seq<int>, r: nat, blk: nat, l: nat): (t: Sys)
    requires SysShape(s) && |ids| == s.h.geo.layers && r < s.h.geo.rows && blk < s.h.geo.pages
    requires forall k :: 0 <= k < |ids| ==> -1 <= ids[k] < |s.pool.ref|
    ensures SysShape(t) && SameFrame(s, t)
    decreases |ids| - l
  {
    if l >= |ids| || s.status != Done then s
    else AttachLayers(AttachSlot(s, SlotAt(s.h.geo, l, r, blk), ids[l]), ids, r, blk, l + 1)
  }

  /** The cached pages of each item, copied before anything is attached. */
  function Entries(p: Pool, items: seq<Attachment>): (entries: seq<seq<int>>)
    requires forall j :: 0 <= j < |items| ==> items[j].key in p.cache
    ensures |entries| == |items|
    ensures forall j :: 0 <= j < |items| ==> entries[j] == p.cache[items[j].key]
  {
    seq(|items|, j requires 0 <= j < |items| => p.cache[items[j].key])
  }

  predicate EntryFits(s: Sys, a: Attachment, ids: seq<int>) {
    && InTable(s.h.geo, a.row, a.block) && |ids| == s.h.geo.layers
    && (forall k :: 0 <= k < |ids| ==> -1 <= ids[k] < |s.pool.ref|)
  }

  predicate EntriesFit(s: Sys, items: seq<Attachment>, entries: seq<seq<int>>) {
    |entries| == |items| && forall j :: 0 <= j < |items| ==> EntryFits(s, items[j], entries[j])
  }

  function AttachItems(s: Sys, items: seq<Attachment>, entries: seq<seq<int>>, i: nat): (t: Sys)
    requires SysShape(s) && EntriesFit(s, items, entries)
    ensures SysShape(t) && SameFrame(s, t)
    decreases |items| - i
  {
    if i >= |items| || s.status != Done then s else
    assert EntryFits(s, items[i], entries[i]);
    AttachItems(AttachLayers(s, entries[i], items[i].row, items[i].block, 0), items, entries, i + 1)
  }

  /** prefix_attach_batch: all or nothing. */
  function AttachBatch(s: Sys, items: seq<Attachment>): (t: (Sys, bool))
    requires SysShape(s)
    ensures SysShape(t.0) && SameFrame(s, t.0)
  {
    if s.status != Done then (s, false)
    else if items == [] then (Fail(s, BadArgument), false)
    else match Lookup(s.pool, s.h.geo, items, 0)
      case Refused(status) => (Fail(s, status), false)
      case Miss => (s, false)
      case Hit => (AttachItems(s, items, Entries(s.pool, items), 0), true)
  }

  /** prefix_can_attach */
  function CanAttach(p: Pool, g: Geometry, key: Key, blk: int, requiredFrom: int): (r: Result<bool, Status>)
    requires PoolShape(p) && GeometryOk(g)
  {
    if !(0 <= blk < g.pages) then Err(BadArgument)
    else if key !in p.cache then Ok(false)
    else if |p.cache[key]| != g.layers then Err(LayerMismatch)
    else Ok(Fits(p, g, p.cache[key], blk, ClampPages(g, requiredFrom)))
  }

  /** The pages of one logical block of a row, one per layer. */
  function Column(h: Handle, r: nat, blk: nat): (ids: seq<int>)
    requires HandleShape(h) && r < h.geo.rows && blk < h.geo.pages
    ensures |ids| == h.geo.layers
    ensures forall l :: 0 <= l < |ids| ==> ids[l] == h.table[SlotAt(h.geo, l, r, blk)]
  {
    seq(h.geo.layers, (l: nat) requires l < h.geo.layers => h.table[SlotAt(h.geo, l, r, blk)])
  }

  function Mark(hash: seq<Option<Key>>, ids: seq<int>, key: Key, l: nat): (r: seq<Option<Key>>)
    requires forall k :: 0 <= k < |ids| ==> ids[k] < |hash|
    ensures |r| == |hash|
    decreases |ids| - l
  {
    if l >= |ids| then hash
    else if ids[l] < 0 then Mark(hash, ids, key, l + 1)
    else Mark(hash[ids[l] := Some(key)], ids, key, l + 1)
  }

  predicate HashedOtherwise(p: Pool, ids: seq<int>, key: Key)
    requires forall k :: 0 <= k < |ids| ==> ids[k] < |p.hash|
  {
    exists l :: 0 <= l < |ids| && ids[l] >= 0 && p.hash[ids[l]].Some? && p.hash[ids[l]] != Some(key)
  }

  /** prefix_publish */
  function Publish(s: Sys, key: Key, row: int, blk: int): (t: (Sys, bool))
    requires SysShape(s)
    ensures SysShape(t.0) && SameFrame(s, t.0)
  {
    if s.status != Done then (s, false)
    else if !InTable(s.h.geo, row, blk) then (Fail(s, BadArgument), false)
    else if key in s.pool.cache then (s, false)
    else
      var ids := Column(s.h, row, blk);
      if HashedOtherwise(s.pool, ids, key) then (Fail(s, TwoHashes), false)
      else if !AnyPage(ids) then (s, false)
      else (s.(pool := s.pool.(cache := s.pool.cache[key := ids], hash := Mark(s.pool.hash, ids, key, 0))), true)
  }

  /** prefix_cache_clear */
  function ClearCache(p: Pool): (q: Pool)
    requires PoolShape(p)
    ensures PoolShape(q) && |q.ref| == |p.ref|
  {
    p.(cache := map[], hash := seq(|p.hash|, _ => None))
  }

  // ---- giving blocks back ----

  /** Pages blk-1 down to 0 of one row of one layer: later blocks are freed first. */
  function DropBelow(s: Sys, l: nat, r: nat, blk: nat): (t: Sys)
    requires SysShape(s) && l < s.h.geo.layers && r < s.h.geo.rows && blk <= s.h.geo.pages
    ensures SysShape(t) && SameFrame(s, t)
    decreases blk
  {
    if blk == 0 || s.status != Done then s
    else DropBelow(DropSlot(s, SlotAt(s.h.geo, l, r, blk - 1)), l, r, blk - 1)
  }

  function FreeLayers(s: Sys, r: nat, l: nat): (t: Sys)
    requires SysShape(s) && r < s.h.geo.rows && l <= s.h.geo.layers
    ensures SysShape(t) && SameFrame(s, t)
    decreases l
  {
    if l == 0 || s.status != Done then s
    else FreeLayers(SetEvicted(DropBelow(s, l - 1, r, s.h.geo.pages), l - 1, r, 0), r, l - 1)
  }

  /** free_row */
  function FreeRow(s: Sys, row: int): (t: Sys)
    requires SysShape(s)
    ensures SysShape(t) && SameFrame(s, t)
  {
    if s.status != Done then s
    else if !(0 <= row < s.h.geo.rows) then Fail(s, BadArgument)
    else
      var t := FreeLayers(s, row, s.h.geo.layers);
      if t.status != Done then t else SetActive(SetLen(t, row, 0), row, 0)
  }

  function ReleaseLayers(s: Sys, r: nat, l: nat): (t: Sys)
    requires SysShape(s) && r < s.h.geo.rows && l <= s.h.geo.layers
    ensures SysShape(t) && SameFrame(s, t)
    decreases l
  {
    if l == 0 || s.status != Done then s
    else ReleaseLayers(DropBelow(s, l - 1, r, s.h.geo.pages), r, l - 1)
  }

  function ReleaseRows(s: Sys, r: nat): (t: Sys)
    requires SysShape(s)
    ensures SysShape(t) && SameFrame(s, t)
    decreases s.h.geo.rows - r
  {
    if r >= s.h.geo.rows || s.status != Done then s
    else ReleaseRows(ReleaseLayers(s, r, s.h.geo.layers), r + 1)
  }

  /** The destructor: kv_release_all_blocks_nolock. */
  function Close(s: Sys): (t: Sys)
    requires SysShape(s)
    ensures SysShape(t) && SameFrame(s, t)
  {
    ReleaseRows(s, 0)
  }

  // ---- rebind ----

  function BlankHandle(g: Geometry): (h: Handle)
    requires GeometryOk(g)
    ensures HandleShape(h) && h.geo == g
    ensures forall i :: 0 <= i < |h.table| ==> h.table[i] == -1
  {
    Handle(g, seq(Slots(g), _ => -1), seq(g.rows, _ => 0), seq(g.rows, _ => 0), seq(g.layers * g.rows, _ => 0))
  }

  /** Every page of `h` is a block of the pool that the new handle `s` works on. */
  predicate CanCarry(s: Sys, h: Handle) {
    && SysShape(s) && HandleShape(h)
    && h.geo.layers == s.h.geo.layers && h.geo.pages == s.h.geo.pages
    && (forall i :: 0 <= i < |h.table| ==> -1 <= h.table[i] < |s.pool.ref|)
  }

  function CarryPages(s: Sys, h: Handle, d: nat, r: nat, l: nat, blk: nat): (t: Sys)
    requires CanCarry(s, h) && d < s.h.geo.rows && r < h.geo.rows && l < h.geo.layers
    ensures CanCarry(t, h) && SameFrame(s, t)
    decreases h.geo.pages - blk
  {
    if blk >= h.geo.pages then s else
    var slot := h.table[SlotAt(h.geo, l, r, blk)];
    var pool := if slot >= 0 then Retain(s.pool, slot) else s.pool;
    CarryPages(Put(s, pool, SlotAt(s.h.geo, l, d, blk), slot), h, d, r, l, blk + 1)
  }

  function CarryLayers(s: Sys, h: Handle, d: nat, r: nat, l: nat): (t: Sys)
    requires CanCarry(s, h) && d < s.h.geo.rows && r < h.geo.rows && s.status == Done
    ensures CanCarry(t, h) && SameFrame(s, t)
    decreases h.geo.layers - l
  {
    if l >= h.geo.layers then s else
    var t := CarryPages(SetEvicted(s, l, d, Evicted(h, l, r)), h, d, r, l, 0);
    if t.status != Done then t else CarryLayers(t, h, d, r, l + 1)
  }

  predicate SourcesOk(h: Handle, sources: seq<int>) {
    && (forall d :: 0 <= d < |sources| ==> -1 <= sources[d] < h.geo.rows)
    && (forall d, e :: 0 <= d < e < |sources| && sources[d] >= 0 ==> sources[d] != sources[e])
  }

  function CarryRows(s: Sys, h: Handle, sources: seq<int>, d: nat): (t: Sys)
    requires CanCarry(s, h) && |sources| == s.h.geo.rows && SourcesOk(h, sources)
    requires |h.lens| == |h.active| == h.geo.rows
    ensures CanCarry(t, h) && SameFrame(s, t)
    decreases |sources| - d
  {
    if d >= |sources| || s.status != Done then s
    else if sources[d] < 0 then CarryRows(s, h, sources, d + 1)
    else
      var r := sources[d];
      CarryRows(CarryLayers(SetActive(SetLen(s, d, h.lens[r]), d, h.active[r]), h, d, r, 0), h, sources, d + 1)
  }

  /** rebind: a new handle of |sources| rows; row d takes over row sources[d], if any. */
  function Rebind(s: Sys, sources: seq<int>): (t: Result<Sys, Status>)
    requires SysShape(s)
    ensures t.Ok? ==> SysShape(t.value) && |t.value.pool.ref| == |s.pool.ref|
    ensures t.Ok? ==> t.value.h.geo == s.h.geo.(rows := |sources|)
  {
    if |sources| < 1 || !SourcesOk(s.h, sources) then Err(BadArgument)
    else Ok(CarryRows(Sys(s.pool, BlankHandle(s.h.geo.(rows := |sources|)), Done), s.h, sources, 0))
  }
}
