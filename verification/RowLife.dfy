/** The life of the rows of one handle, with what each page holds.

    The device writes one key/value entry per (layer, token); the entry of token t depends
    on the whole token prefix up to t. `content` remembers which prefix each page offset
    was last written for. The invariant says that every mapped page of a row holds that
    row's own prefix as far as it has been computed, that nothing a later token attends has
    been unmapped, and that a page carrying a prefix key holds the tokens the key spells. */
module RowLife {
  import opened Arithmetic
  import opened Wrappers
  import opened PrefixKeys
  import opened KvModel
  import opened KvInvariant
  import opened KvOps
  import opened KvPages

  /** The entry that layer `layer` computes for the last token of `prefix`. */
  datatype Kv = Kv(layer: nat, prefix: seq<int>)

  datatype Spot = Spot(page: int, offset: nat)

  /** tokens: known so far. shared: leading pages that other rows may hold too.
      done: per layer, how many tokens have been written. */
  datatype Row = Idle | Live(tokens: seq<int>, shared: nat, done: seq<nat>)

  datatype Life = Life(sys: Sys, content: map<Spot, Kv>, rows: seq<Row>)

  function Geo(x: Life): Geometry { x.sys.h.geo }

  ghost predicate LifeShape(x: Life) {
    && SysShape(x.sys) && |x.rows| == Geo(x).rows
    && (forall r :: 0 <= r < |x.rows| && x.rows[r].Live? ==> |x.rows[r].done| == Geo(x).layers)
  }

  /** Oldest token that a query at position pos attends. */
  function Low(g: Geometry, l: nat, pos: nat): nat
    requires GeometryOk(g)
  {
    if Sliding(g, l) && g.window > 0 && pos >= g.window then pos - g.window + 1 else 0
  }

  function LowPage(g: Geometry, l: nat, pos: nat): nat
    requires GeometryOk(g)
  {
    Low(g, l, pos) / g.block
  }

  /** The page holds, from its first offset on, the entries of page k of `tokens` below `upto`. */
  ghost predicate PageHolds(content: map<Spot, Kv>, block: nat, id: int, l: nat, tokens: seq<int>, k: nat, upto: nat)
    requires upto <= |tokens|
  {
    forall o: nat :: o < block && k * block + o < upto ==>
      Spot(id, o) in content && content[Spot(id, o)] == Kv(l, tokens[..k * block + o + 1])
  }

  /** No other slot names the block in slot i. */
  ghost predicate Sole(table: seq<int>, i: nat)
    requires i < |table|
  {
    forall j :: 0 <= j < |table| && j != i ==> table[j] != table[i]
  }

  ghost predicate SlotOk(x: Life, l: nat, r: nat, k: nat)
    requires LifeShape(x) && l < Geo(x).layers && r < |x.rows| && k < Geo(x).pages
  {
    var id := PageOf(x.sys.h, l, r, k);
    match x.rows[r]
    case Idle => id == -1
    case Live(tokens, shared, done) =>
      id >= 0 ==>
        && (x.sys.pool.hash[id] == None ||
            (k < shared && (k + 1) * Geo(x).block <= |tokens| &&
             x.sys.pool.hash[id] == Some(KeyOf(tokens, Geo(x).block, k + 1))))
        && (k >= shared ==> Sole(x.sys.h.table, SlotAt(Geo(x), l, r, k)))
        && (done[l] <= |tokens| ==> PageHolds(x.content, Geo(x).block, id, l, tokens, k, done[l]))
  }

  /** Pages that the next token attends, or that are partly written, are mapped. */
  ghost predicate Covered(x: Life, l: nat, r: nat, k: nat)
    requires LifeShape(x) && l < Geo(x).layers && r < |x.rows| && k < Geo(x).pages
  {
    x.rows[r].Live? && LowPage(Geo(x), l, x.rows[r].done[l]) <= k && k * Geo(x).block < x.rows[r].done[l] ==>
      PageOf(x.sys.h, l, r, k) >= 0
  }

  ghost predicate SlotsOk(x: Life)
    requires LifeShape(x)
  {
    forall l: nat, r: nat, k: nat :: l < Geo(x).layers && r < |x.rows| && k < Geo(x).pages ==>
      SlotOk(x, l, r, k) && Covered(x, l, r, k)
  }

  /** A live row's progress: shared pages are written, and nothing beyond the known tokens. */
  ghost predicate ProgressOk(x: Life, r: nat)
    requires LifeShape(x) && r < |x.rows|
  {
    x.rows[r].Live? ==>
      && |x.rows[r].tokens| <= MaxTokens(Geo(x))
      && forall l: nat :: l < Geo(x).layers ==>
        x.rows[r].shared * Geo(x).block <= x.rows[r].done[l] <= |x.rows[r].tokens|
  }

  function Depth(key: Key): nat {
    match key
    case Seed => 0
    case Chain(parent, _) => Depth(parent) + 1
  }

  lemma {:induction false} DepthOfKey(tokens: seq<int>, block: nat, n: nat)
    requires n * block <= |tokens|
    ensures Depth(KeyOf(tokens, block, n)) == n
  {
    if n > 0 {
      MulStep(n - 1, block);
      DepthOfKey(tokens, block, n - 1);
    }
  }

  /** A cached page holds the last block of the tokens its key spells. */
  ghost predicate EntryOk(x: Life, key: Key)
    requires LifeShape(x) && key in x.sys.pool.cache
  {
    var ids := x.sys.pool.cache[key];
    && |ids| == Geo(x).layers && Depth(key) >= 1 && |Spelled(key)| == Depth(key) * Geo(x).block
    && forall l: nat :: l < |ids| && ids[l] >= 0 ==>
      PageHolds(x.content, Geo(x).block, ids[l], l, Spelled(key), Depth(key) - 1, |Spelled(key)|)
  }

  ghost predicate EntriesOk(x: Life)
    requires LifeShape(x)
  {
    forall key :: key in x.sys.pool.cache ==> EntryOk(x, key)
  }

  ghost predicate LifeInv(x: Life) {
    && LifeShape(x) && SysOk(x.sys, multiset{})
    && SlotsOk(x) && EntriesOk(x)
    && (forall r: nat :: r < |x.rows| ==> ProgressOk(x, r))
  }

  // ---- taking a fresh page ----

  /** Stripping a block of its hash only takes that block out of entries. */
  lemma UnhashEntries(p: Pool, b: nat)
    requires PoolShape(p) && b < |p.ref|
    ensures var q := Unhash(p, b);
      && (forall key :: key in q.cache ==> key in p.cache && |q.cache[key]| == |p.cache[key]|)
      && (forall key, l :: key in q.cache && 0 <= l < |q.cache[key]| && q.cache[key][l] >= 0 ==>
            q.cache[key][l] == p.cache[key][l])
  {
  }

  /** A block off the free queue is named by no slot. */
  lemma FreshBlock(s: Sys)
    requires SysOk(s, multiset{}) && s.pool.free != []
    ensures var got := Acquire(s.pool).value;
      && got.0.hash[got.1] == None
      && (forall j :: 0 <= j < |s.h.table| ==> s.h.table[j] != got.1)
      && (forall c :: 0 <= c < |s.pool.hash| && c != got.1 ==> got.0.hash[c] == s.pool.hash[c])
      && (forall key :: key in got.0.cache ==> key in s.pool.cache && |got.0.cache[key]| == |s.pool.cache[key]|)
      && (forall key, l :: key in got.0.cache && 0 <= l < |got.0.cache[key]| && got.0.cache[key][l] >= 0 ==>
            got.0.cache[key][l] == s.pool.cache[key][l])
  {
    hide Unhash;
    var names := multiset{} + multiset(s.h.table);
    AcquireOk(s.pool, names);
    var b := s.pool.free[0];
    var p := s.pool.(free := s.pool.free[1..]);
    UnhashIndexed(p, b);
    UnhashEntries(p, b);
    assert b in s.pool.free;
    forall j | 0 <= j < |s.h.table| ensures s.h.table[j] != b {
      assert s.h.table[j] in multiset(s.h.table);
    }
  }

  function Filled(x: Life, l: nat, r: nat, k: nat): Life
    requires LifeShape(x) && l < Geo(x).layers && r < |x.rows| && k < Geo(x).pages && x.sys.pool.free != []
  {
    var got := Acquire(x.sys.pool).value;
    x.(sys := Put(x.sys, got.0, SlotAt(Geo(x), l, r, k), got.1))
  }

  lemma FillOther(x: Life, l: nat, r: nat, k: nat, l': nat, r': nat, k': nat)
    requires LifeShape(x) && SysOk(x.sys, multiset{}) && x.sys.pool.free != []
    requires l < Geo(x).layers && r < |x.rows| && k < Geo(x).pages
    requires l' < Geo(x).layers && r' < |x.rows| && k' < Geo(x).pages && (l' != l || r' != r || k' != k)
    requires SlotOk(x, l', r', k') && Covered(x, l', r', k')
    ensures SlotOk(Filled(x, l, r, k), l', r', k') && Covered(Filled(x, l, r, k), l', r', k')
  {
    hide PoolOk;
    hide PageHolds;
    FreshBlock(x.sys);
    SlotUnique(Geo(x), l, r, k, l', r', k');
  }

  lemma FillKeeps(x: Life, l: nat, r: nat, k: nat)
    requires LifeInv(x) && l < Geo(x).layers && r < |x.rows| && k < Geo(x).pages
    requires x.sys.status == Done && x.sys.pool.free != [] && PageOf(x.sys.h, l, r, k) == -1
    requires x.rows[r].Live? && k >= x.rows[r].shared && x.rows[r].done[l] <= k * Geo(x).block
    ensures LifeInv(Filled(x, l, r, k))
  {
    hide PoolOk;
    hide PageHolds;
    hide Put;
    var y := Filled(x, l, r, k);
    FillSlotOk(x.sys, multiset{}, SlotAt(Geo(x), l, r, k));
    FillsOthers(x, l, r, k);
    FillsIt(x, l, r, k);
    FillEntries(x, l, r, k);
    forall r': nat | r' < |y.rows| ensures ProgressOk(y, r') { assert ProgressOk(x, r'); }
  }

  lemma FillsOthers(x: Life, l: nat, r: nat, k: nat)
    requires LifeInv(x) && l < Geo(x).layers && r < |x.rows| && k < Geo(x).pages && x.sys.pool.free != []
    ensures forall l': nat, r': nat, k': nat ::
      l' < Geo(x).layers && r' < |x.rows| && k' < Geo(x).pages && (l' != l || r' != r || k' != k) ==>
        SlotOk(Filled(x, l, r, k), l', r', k') && Covered(Filled(x, l, r, k), l', r', k')
  {
    hide PoolOk;
    hide SlotOk;
    hide Covered;
    forall l': nat, r': nat, k': nat |
      l' < Geo(x).layers && r' < |x.rows| && k' < Geo(x).pages && (l' != l || r' != r || k' != k)
      ensures SlotOk(Filled(x, l, r, k), l', r', k') && Covered(Filled(x, l, r, k), l', r', k')
    {
      assert SlotOk(x, l', r', k') && Covered(x, l', r', k');
      FillOther(x, l, r, k, l', r', k');
    }
  }

  lemma FillsIt(x: Life, l: nat, r: nat, k: nat)
    requires LifeInv(x) && l < Geo(x).layers && r < |x.rows| && k < Geo(x).pages && x.sys.pool.free != []
    requires x.rows[r].Live? && k >= x.rows[r].shared && x.rows[r].done[l] <= k * Geo(x).block
    ensures SlotOk(Filled(x, l, r, k), l, r, k) && Covered(Filled(x, l, r, k), l, r, k)
  {
    hide PoolOk;
    FreshBlock(x.sys);
  }

  lemma FillEntries(x: Life, l: nat, r: nat, k: nat)
    requires LifeInv(x) && l < Geo(x).layers && r < |x.rows| && k < Geo(x).pages && x.sys.pool.free != []
    ensures EntriesOk(Filled(x, l, r, k))
  {
    hide PoolOk;
    hide PageHolds;
    FreshBlock(x.sys);
    var y := Filled(x, l, r, k);
    forall key | key in y.sys.pool.cache ensures EntryOk(y, key) {
      assert EntryOk(x, key);
    }
  }

  // ---- giving a page back ----

  function Dropped(x: Life, l: nat, r: nat, k: nat): Life
    requires LifeShape(x) && l < Geo(x).layers && r < |x.rows| && k < Geo(x).pages
  {
    x.(sys := DropSlot(x.sys, SlotAt(Geo(x), l, r, k)))
  }

  lemma DropOther(x: Life, l: nat, r: nat, k: nat, l': nat, r': nat, k': nat)
    requires LifeShape(x) && SysOk(x.sys, multiset{}) && x.sys.status == Done
    requires l < Geo(x).layers && r < |x.rows| && k < Geo(x).pages
    requires l' < Geo(x).layers && r' < |x.rows| && k' < Geo(x).pages && (l' != l || r' != r || k' != k)
    requires SlotOk(x, l', r', k') && Covered(x, l', r', k')
    ensures SlotOk(Dropped(x, l, r, k), l', r', k') && Covered(Dropped(x, l, r, k), l', r', k')
  {
    hide PoolOk;
    hide PageHolds;
    hide DropSlot;
    DropSlotOk(x.sys, multiset{}, SlotAt(Geo(x), l, r, k));
    SlotUnique(Geo(x), l, r, k, l', r', k');
  }

  /** A page may go when no later token of its layer attends it. */
  lemma DropKeeps(x: Life, l: nat, r: nat, k: nat)
    requires LifeInv(x) && l < Geo(x).layers && r < |x.rows| && k < Geo(x).pages && x.sys.status == Done
    requires x.rows[r].Live? ==> k < LowPage(Geo(x), l, x.rows[r].done[l])
    ensures LifeInv(Dropped(x, l, r, k)) && Dropped(x, l, r, k).sys.status == Done
  {
    hide PoolOk;
    hide PageHolds;
    hide DropSlot;
    hide KeyOf;
    var y := Dropped(x, l, r, k);
    DropSlotOk(x.sys, multiset{}, SlotAt(Geo(x), l, r, k));
    forall l': nat, r': nat, k': nat | l' < Geo(x).layers && r' < |x.rows| && k' < Geo(x).pages
      ensures SlotOk(y, l', r', k') && Covered(y, l', r', k')
    {
      assert SlotOk(x, l', r', k') && Covered(x, l', r', k');
      if l' != l || r' != r || k' != k { DropOther(x, l, r, k, l', r', k'); }
    }
    forall key | key in y.sys.pool.cache ensures EntryOk(y, key) { assert EntryOk(x, key); }
    forall r': nat | r' < |y.rows| ensures ProgressOk(y, r') { assert ProgressOk(x, r'); }
  }
}
