/** The pool over whole runs: any number of handles, any sequence of operations. */
module KvRuns {
  import opened Arithmetic
  import opened Wrappers
  import opened PrefixKeys
  import opened KvModel
  import opened KvInvariant
  import opened KvOps
  import opened KvPages
  import opened KvFree
  import opened KvRebind

  /** `last` is how the last operation ended. */
  datatype World = World(pool: Pool, handles: seq<Handle>, last: Status)

  datatype Call =
    | Open(h: Handle)                 // a handle as its device tables describe it
    | Prepare(i: nat, lengths: seq<int>, mask: seq<int>)
    | Chunk(i: nat, layer: int, start: int, end: int, mask: seq<int>)
    | Decode(i: nat, positions: seq<int>, mask: seq<int>)
    | Attach(i: nat, items: seq<Attachment>)
    | Share(i: nat, key: Key, row: int, block: int)
    | Free(i: nat, row: int)
    | Switch(i: nat, sources: seq<int>)
    | Close(i: nat)
    | Clear

  // ---- one call ----

  predicate WorldShape(w: World) {
    PoolShape(w.pool) && forall i :: 0 <= i < |w.handles| ==> Opens(w.pool, w.handles[i])
  }

  function View(w: World, i: nat): (s: Sys)
    requires WorldShape(w) && i < |w.handles|
    ensures SysShape(s)
  {
    Sys(w.pool, w.handles[i], Done)
  }

  /** The world after handle i and the pool have become those of `s`. */
  function Back(w: World, i: nat, s: Sys): (v: World)
    requires WorldShape(w) && i < |w.handles| && SysShape(s) && |s.pool.ref| == |w.pool.ref|
    ensures WorldShape(v)
  {
    World(s.pool, w.handles[i := s.h], s.status)
  }

  predicate RowsFit(w: World, i: nat, a: seq<int>, b: seq<int>) {
    i < |w.handles| && |a| == |b| == w.handles[i].geo.rows
  }

  function Apply(w: World, c: Call): (v: World)
    requires WorldShape(w)
    ensures WorldShape(v) && |v.pool.ref| == |w.pool.ref|
  {
    var bad := w.(last := BadArgument);
    match c
    case Open(h) =>
      if Opens(w.pool, h) then World(RetainAll(w.pool, h.table, 0), w.handles + [h], Done) else bad
    case Prepare(i, lengths, mask) =>
      if RowsFit(w, i, lengths, mask) then Back(w, i, PrepareMasked(View(w, i), lengths, mask)) else bad
    case Chunk(i, layer, start, end, mask) =>
      if RowsFit(w, i, mask, mask) then Back(w, i, StepChunk(View(w, i), layer, start, end, mask)) else bad
    case Decode(i, positions, mask) =>
      if RowsFit(w, i, positions, mask) then Back(w, i, StepDecode(View(w, i), positions, mask)) else bad
    case Attach(i, items) =>
      if i < |w.handles| then Back(w, i, AttachBatch(View(w, i), items).0) else bad
    case Share(i, key, row, block) =>
      if i < |w.handles| then Back(w, i, Publish(View(w, i), key, row, block).0) else bad
    case Free(i, row) =>
      if i < |w.handles| then Back(w, i, FreeRow(View(w, i), row)) else bad
    case Switch(i, sources) =>
      if i >= |w.handles| then bad else
      var got := Rebind(View(w, i), sources);
      if got.Err? then w.(last := if got.error == Underflow then BadArgument else got.error)
      else World(got.value.pool, w.handles + [got.value.h], got.value.status)
    case Close(i) =>
      if i >= |w.handles| then bad else
      var t := KvModel.Close(View(w, i));
      World(t.pool, w.handles[..i] + w.handles[i + 1..], t.status)
    case Clear => World(ClearCache(w.pool), w.handles, Done)
  }

  function Play(n: nat, calls: seq<Call>): (w: World)
    ensures WorldShape(w) && |w.pool.ref| == n
  {
    if calls == [] then World(EmptyPool(n), [], Done)
    else Apply(Play(n, calls[..|calls| - 1]), calls[|calls| - 1])
  }

  // ---- who names what ----

  ghost function Names(hs: seq<Handle>): multiset<int> {
    if hs == [] then multiset{} else Names(hs[..|hs| - 1]) + multiset(hs[|hs| - 1].table)
  }

  lemma {:induction false} NamesSplit(hs: seq<Handle>, i: nat)
    requires i < |hs|
    ensures Names(hs) == Names(hs[..i] + hs[i + 1..]) + multiset(hs[i].table)
  {
    var n := |hs| - 1;
    if i == n {
      assert hs[..i] + hs[i + 1..] == hs[..n];
    } else {
      NamesSplit(hs[..n], i);
      DropBeforeLast(hs, i);
      NamesAppend(hs[..n][..i] + hs[..n][i + 1..], hs[n]);
    }
  }

  lemma DropBeforeLast(hs: seq<Handle>, i: nat)
    requires i < |hs| - 1
    ensures var n := |hs| - 1; hs[..i] + hs[i + 1..] == hs[..n][..i] + hs[..n][i + 1..] + [hs[n]]
  {
  }

  lemma NamesAppend(hs: seq<Handle>, h: Handle)
    ensures Names(hs + [h]) == Names(hs) + multiset(h.table)
  {
    assert (hs + [h])[..|hs|] == hs;
  }

  ghost predicate WorldOk(w: World) {
    WorldShape(w) && PoolOk(w.pool, Names(w.handles)) && w.last != Underflow
  }

  /** What the handles other than i name. */
  ghost function Others(w: World, i: nat): multiset<int>
    requires i < |w.handles|
  {
    Names(w.handles[..i] + w.handles[i + 1..])
  }

  lemma ViewOk(w: World, i: nat)
    requires WorldOk(w) && i < |w.handles|
    ensures SysOk(View(w, i), Others(w, i))
  {
    hide PoolOk;
    NamesSplit(w.handles, i);
  }

  lemma BackOk(w: World, i: nat, s: Sys)
    requires WorldOk(w) && i < |w.handles| && Kept(View(w, i), s, Others(w, i))
    ensures WorldOk(Back(w, i, s))
  {
    hide PoolOk;
    var v := Back(w, i, s);
    NamesSplit(v.handles, i);
    assert v.handles[..i] + v.handles[i + 1..] == w.handles[..i] + w.handles[i + 1..];
  }

  lemma PoolHasShape(p: Pool, names: multiset<int>)
    requires PoolOk(p, names)
    ensures PoolShape(p)
  {
  }

  lemma {:induction false} RetainAllOk(p: Pool, names: multiset<int>, table: seq<int>, i: nat)
    requires PoolOk(p, names) && i <= |table| && forall k :: 0 <= k < |table| ==> -1 <= table[k] < |p.ref|
    ensures PoolOk(RetainAll(p, table, i), names + multiset(table[i..]))
    decreases |table| - i
  {
    hide PoolOk;
    PoolHasShape(p, names);
    if i < |table| {
      assert table[i..] == [table[i]] + table[i + 1..];
      if table[i] >= 0 {
        RetainOk(p, names, table[i]);
        RetainAllOk(Retain(p, table[i]), names + multiset{table[i]}, table, i + 1);
        assert names + multiset{table[i]} + multiset(table[i + 1..]) == names + multiset(table[i..]);
      } else {
        AbsentName(p, names);
        RetainAllOk(p, names + multiset{-1}, table, i + 1);
        assert names + multiset{-1} + multiset(table[i + 1..]) == names + multiset(table[i..]);
      }
    } else {
      assert table[i..] == [];
      assert names + multiset(table[i..]) == names;
    }
  }

  // ---- closing a handle ----

  lemma {:induction false} ReleaseLayersPages(s: Sys, others: multiset<int>, r: nat, n: nat)
    requires SysOk(s, others) && s.status == Done && r < s.h.geo.rows && n <= s.h.geo.layers && GoneFrom(s, r, n)
    ensures var t := ReleaseLayers(s, r, n);
      Kept(s, t, others) && t.status == Done && GoneFrom(t, r, 0) && OtherPagesSame(s, t, r)
    decreases n
  {
    hide PoolOk;
    hide GoneFrom;
    hide SysShape;
    if n > 0 {
      DropLayerPages(s, others, r, n - 1);
      ReleaseLayersPages(DropBelow(s, n - 1, r, s.h.geo.pages), others, r, n - 1);
    }
  }

  lemma GoneStays(s: Sys, t: Sys, r: nat, r': nat)
    requires SysShape(s) && SysShape(t) && SameFrame(s, t) && OtherPagesSame(s, t, r)
    requires r' < s.h.geo.rows && r' != r && GoneFrom(s, r', 0)
    ensures GoneFrom(t, r', 0)
  {
    hide SlotAt;
  }

  lemma {:induction false} ReleaseRowsPages(s: Sys, others: multiset<int>, r: nat)
    requires SysOk(s, others) && s.status == Done && r <= s.h.geo.rows
    requires forall r': nat :: r' < r ==> GoneFrom(s, r', 0)
    ensures var t := ReleaseRows(s, r);
      t.status == Done && forall r': nat :: r' < s.h.geo.rows ==> GoneFrom(t, r', 0)
    decreases s.h.geo.rows - r
  {
    hide PoolOk;
    hide OtherPagesSame;
    hide ReleaseLayers;
    if r < s.h.geo.rows {
      assert GoneFrom(s, r, s.h.geo.layers);
      ReleaseLayersPages(s, others, r, s.h.geo.layers);
      var t := ReleaseLayers(s, r, s.h.geo.layers);
      forall r': nat | r' < r ensures GoneFrom(t, r', 0) { GoneStays(s, t, r, r'); }
      ReleaseRowsPages(t, others, r + 1);
    }
  }

  lemma SlotOfIndex(g: Geometry, i: nat) returns (l: nat, r: nat, k: nat)
    requires GeometryOk(g) && i < Slots(g)
    ensures l < g.layers && r < g.rows && k < g.pages && SlotAt(g, l, r, k) == i
  {
    var row := i / g.pages;
    k := i % g.pages;
    assert i == row * g.pages + k;
    Below(row, k, g.layers * g.rows, g.pages);
    l, r := row / g.rows, row % g.rows;
    assert row == l * g.rows + r;
    Below(l, r, g.layers, g.rows);
  }

  lemma Below(a: nat, x: nat, n: nat, width: nat)
    requires a * width + x < n * width
    ensures a < n
  {
    if a >= n { MulGrows(n, a, width); }
  }

  /** Closing leaves no slot of the handle naming a block. */
  lemma CloseEmpties(s: Sys, others: multiset<int>)
    requires SysOk(s, others) && s.status == Done
    ensures var t := KvModel.Close(s);
      t.status == Done && SysOk(t, others) && PoolOk(t.pool, others)
  {
    hide Indexed;
    ReleaseRowsOk(s, others, 0);
    ReleaseRowsPages(s, others, 0);
    var t := KvModel.Close(s);
    forall i | 0 <= i < |t.h.table| ensures t.h.table[i] == -1 {
      var l, r, k := SlotOfIndex(t.h.geo, i);
      assert GoneFrom(t, r, 0);
      assert PageOf(t.h, l, r, k) == -1;
    }
    NoNames(t.h.table);
  }

  // ---- every call, every run ----

  lemma ApplyOk(w: World, c: Call)
    requires WorldOk(w)
    ensures WorldOk(Apply(w, c))
  {
    hide PoolOk;
    match c {
      case Open(h) =>
        if Opens(w.pool, h) { OpenOk(w, h); }
      case Prepare(i, lengths, mask) =>
        if RowsFit(w, i, lengths, mask) {
          ViewOk(w, i);
          PrepareMaskedOk(View(w, i), Others(w, i), lengths, mask);
          BackOk(w, i, PrepareMasked(View(w, i), lengths, mask));
        }
      case Chunk(i, layer, start, end, mask) =>
        if RowsFit(w, i, mask, mask) {
          ViewOk(w, i);
          StepChunkOk(View(w, i), Others(w, i), layer, start, end, mask);
          BackOk(w, i, StepChunk(View(w, i), layer, start, end, mask));
        }
      case Decode(i, positions, mask) =>
        if RowsFit(w, i, positions, mask) {
          ViewOk(w, i);
          StepDecodeOk(View(w, i), Others(w, i), positions, mask);
          BackOk(w, i, StepDecode(View(w, i), positions, mask));
        }
      case Attach(i, items) =>
        if i < |w.handles| {
          ViewOk(w, i);
          AttachBatchOk(View(w, i), Others(w, i), items);
          BackOk(w, i, AttachBatch(View(w, i), items).0);
        }
      case Share(i, key, row, block) =>
        if i < |w.handles| {
          ViewOk(w, i);
          PublishOk(View(w, i), Others(w, i), key, row, block);
          BackOk(w, i, Publish(View(w, i), key, row, block).0);
        }
      case Free(i, row) =>
        if i < |w.handles| {
          ViewOk(w, i);
          FreeRowOk(View(w, i), Others(w, i), row);
          BackOk(w, i, FreeRow(View(w, i), row));
        }
      case Switch(i, sources) => if i < |w.handles| { SwitchOk(w, i, sources); }
      case Close(i) => if i < |w.handles| { CloseOk(w, i); }
      case Clear => ClearCacheOk(w.pool, Names(w.handles));
    }
  }

  lemma OpenOk(w: World, h: Handle)
    requires WorldOk(w) && Opens(w.pool, h)
    ensures WorldOk(Apply(w, Open(h)))
  {
    hide PoolOk;
    RetainAllOk(w.pool, Names(w.handles), h.table, 0);
    assert h.table[0..] == h.table;
    NamesAppend(w.handles, h);
  }

  lemma RebindCounts(s: Sys, others: multiset<int>, sources: seq<int>)
    requires SysOk(s, others) && |sources| >= 1 && SourcesOk(s.h, sources)
    ensures Rebind(s, sources).Ok?
    ensures var t := Rebind(s, sources).value; t.status == Done && SysOk(t, others + multiset(s.h.table)) && |t.pool.ref| == |s.pool.ref|
  {
    hide RowCarried;
    RebindIsIdentity(s, others, sources);
  }

  lemma SwitchOk(w: World, i: nat, sources: seq<int>)
    requires WorldOk(w) && i < |w.handles|
    ensures WorldOk(Apply(w, Switch(i, sources)))
  {
    hide PoolOk;
    hide SourcesOk;
    ViewOk(w, i);
    if |sources| >= 1 && SourcesOk(w.handles[i], sources) {
      RebindCounts(View(w, i), Others(w, i), sources);
      var t := Rebind(View(w, i), sources).value;
      NamesSplit(w.handles, i);
      NamesAppend(w.handles, t.h);
    }
  }

  lemma CloseOk(w: World, i: nat)
    requires WorldOk(w) && i < |w.handles|
    ensures WorldOk(Apply(w, Close(i)))
  {
    hide PoolOk;
    ViewOk(w, i);
    CloseEmpties(View(w, i), Others(w, i));
  }

  /** Reference conservation and index agreement in every reachable state, also right
      after a call that threw; and no call ever releases a block nobody holds. */
  lemma {:induction false} EveryRunKeeps(n: nat, calls: seq<Call>)
    ensures WorldOk(Play(n, calls))
  {
    if calls == [] {
      EmptyOk(n);
    } else {
      EveryRunKeeps(n, calls[..|calls| - 1]);
      ApplyOk(Play(n, calls[..|calls| - 1]), calls[|calls| - 1]);
    }
  }

  /** Once every handle is closed, every block is free again, in a queue of its own length. */
  lemma AllBlocksReturn(n: nat, calls: seq<Call>)
    requires Play(n, calls).handles == []
    ensures var p := Play(n, calls).pool;
      && (forall b :: 0 <= b < n ==> p.ref[b] == 0 && b in p.free)
      && |p.free| == n && ActiveCount(p) == 0
  {
    EveryRunKeeps(n, calls);
    var p := Play(n, calls).pool;
    QueueLength(p.free, n);
  }

  lemma {:induction false} QueueLength(free: seq<nat>, n: nat)
    requires Distinct(free) && (forall i :: 0 <= i < |free| ==> free[i] < n)
    requires forall b :: 0 <= b < n ==> b in free
    ensures |free| == n
  {
    if n > 0 {
      assert (n - 1) in free;
      var i :| 0 <= i < |free| && free[i] == n - 1;
      var rest := free[..i] + free[i + 1..];
      forall b | 0 <= b < n - 1 ensures b in rest {
        assert b in free;
        var j :| 0 <= j < |free| && free[j] == b;
        assert rest[if j < i then j else j - 1] == b;
      }
      QueueLength(rest, n - 1);
    }
  }

  /** Attach never maps a recycled page: in every reachable state, whatever an entry names
      still carries the entry's key, so the stale-hash test of the attach predicate decides
      nothing, and an entry always has some page left. */
  lemma EntriesAreLive(n: nat, calls: seq<Call>, key: Key, g: Geometry, blk: int, requiredFrom: int)
    requires var p := Play(n, calls).pool; key in p.cache && GeometryOk(g) && |p.cache[key]| == g.layers
    ensures var p := Play(n, calls).pool;
      && AnyPage(p.cache[key])
      && (forall l :: 0 <= l < g.layers && p.cache[key][l] >= 0 ==> p.hash[p.cache[key][l]] == Some(key))
      && (Fits(p, g, p.cache[key], blk, requiredFrom) <==>
          forall l :: 0 <= l < g.layers ==> p.cache[key][l] >= 0 || (Sliding(g, l) && blk < requiredFrom))
  {
    EveryRunKeeps(n, calls);
  }
}
