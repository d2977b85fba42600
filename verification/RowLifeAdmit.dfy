/** Admission of a prompt into an idle row: its cached prefix is attached page by page. */
module RowLifeAdmit {
  import opened Arithmetic
  import opened Wrappers
  import opened PrefixKeys
  import opened KvModel
  import opened KvInvariant
  import opened KvOps
  import opened KvPages
  import opened RowLife
  import opened RowLifeSteps
  import opened RowLifeWrites
  import opened RowLifeCache

  /** First block whose sliding pages a prefix of n blocks must bring along. */
  function RequiredFrom(g: Geometry, n: nat): nat
    requires GeometryOk(g)
  {
    if n * g.block >= g.window then (n * g.block - g.window) / g.block else 0
  }

  /** Right: the blocks it leaves out are those that end a window or more before the prefix does. */
  lemma RequiredIff(g: Geometry, n: nat, k: nat)
    requires GeometryOk(g) && k < n
    ensures RequiredFrom(g, n) <= k <==> (k + 1) * g.block + g.window > n * g.block
  {
    assert (k + 1) * g.block >= 0;
    if n * g.block >= g.window { BelowQuotient(k, n * g.block - g.window, g.block); }
  }

  lemma BlockFits(k: nat, n: nat, block: nat, length: nat)
    requires k < n && n * block <= length
    ensures (k + 1) * block <= length
  {
    MulGrows(k + 1, n, block);
  }

  function KeyAt(tokens: seq<int>, block: nat, k: nat, n: nat): Key
    requires k < n && n * block <= |tokens|
  {
    BlockFits(k, n, block, |tokens|);
    KeyOf(tokens, block, k + 1)
  }

  /** The batch that attaches the first n blocks of a prompt to row r. */
  function PrefixItems(g: Geometry, prompt: seq<int>, r: nat, n: nat): (items: seq<Attachment>)
    requires GeometryOk(g) && n * g.block <= |prompt|
    ensures |items| == n
  {
    seq(n, k requires 0 <= k < n => Attachment(KeyAt(prompt, g.block, k, n), r, k, RequiredFrom(g, n)))
  }

  /** The first i blocks of row r are the cached pages of their keys; the rest is empty. */
  ghost predicate BlocksAre(x: Life, r: nat, entries: seq<seq<int>>, i: nat)
    requires LifeShape(x) && r < |x.rows| && i <= |entries| <= Geo(x).pages
    requires forall j :: 0 <= j < |entries| ==> |entries[j]| == Geo(x).layers
  {
    forall l: nat, k: nat :: l < Geo(x).layers && k < Geo(x).pages ==>
      PageOf(x.sys.h, l, r, k) == if k < i then entries[k][l] else -1
  }

  lemma {:induction false} AttachBlocks(x: Life, items: seq<Attachment>, entries: seq<seq<int>>, r: nat, i: nat)
    requires OthersOk(x, r) && r < |x.rows| && x.sys.status == Done && |items| == |entries| <= Geo(x).pages
    requires i <= |items| && EntriesFit(x.sys, items, entries)
    requires forall j :: 0 <= j < |items| ==> items[j].row == r && items[j].block == j && LiveIds(x, entries[j])
    requires BlocksAre(x, r, entries, i)
    ensures var y := x.(sys := AttachItems(x.sys, items, entries, i));
      && OthersOk(y, r) && y.sys.status == Done && y.sys.pool.hash == x.sys.pool.hash && y.sys.pool.cache == x.sys.pool.cache
      && BlocksAre(y, r, entries, |entries|)
    decreases |items| - i
  {
    hide OthersOk;
    hide AttachLayers;
    hide SlotAt;
    OthersShape(x, r);
    if i < |items| {
      assert EntryFits(x.sys, items[i], entries[i]);
      AttachColumn(x, entries[i], r, i, 0);
      var y := x.(sys := AttachLayers(x.sys, entries[i], r, i, 0));
      OthersShape(y, r);
      AttachBlocks(y, items, entries, r, i + 1);
    }
  }

  // ---- an attached row is right ----

  lemma SpelledIsPrefix(prompt: seq<int>, block: nat, k: nat, n: nat)
    requires k < n && n * block <= |prompt|
    ensures var key := KeyAt(prompt, block, k, n);
      && (k + 1) * block == k * block + block <= n * block && Depth(key) == k + 1
      && Spelled(key) == prompt[..k * block + block]
  {
    BlockFits(k, n, block, |prompt|);
    MulGrows(k + 1, n, block);
    MulStep(k, block);
    DepthOfKey(prompt, block, k + 1);
    KeySpells(prompt, block, k + 1);
  }

  /** A page of a key's entry holds what the prompt's own computation would have written. */
  lemma AttachedHolds(content: map<Spot, Kv>, block: nat, id: int, l: nat, spelled: seq<int>, prompt: seq<int>,
                      k: nat, upto: nat)
    requires k * block + block <= upto <= |prompt| && spelled == prompt[..k * block + block]
    requires PageHolds(content, block, id, l, spelled, k, |spelled|)
    ensures PageHolds(content, block, id, l, prompt, k, upto)
  {
    forall o: nat | o < block && k * block + o < upto
      ensures Spot(id, o) in content && content[Spot(id, o)] == Kv(l, prompt[..k * block + o + 1])
    {
      assert spelled[..k * block + o + 1] == prompt[..k * block + o + 1];
    }
  }

  lemma AttachedSlot(y: Life, r: nat, prompt: seq<int>, n: nat, l: nat, k: nat)
    requires LifeShape(y) && SysOk(y.sys, multiset{}) && EntriesOk(y) && r < |y.rows|
    requires n * Geo(y).block <= |prompt| && l < Geo(y).layers && k < n && k < Geo(y).pages
    requires y.rows[r] == Live(prompt, n, seq(Geo(y).layers, _ => n * Geo(y).block))
    requires var key := KeyAt(prompt, Geo(y).block, k, n);
      key in y.sys.pool.cache && |y.sys.pool.cache[key]| == Geo(y).layers && PageOf(y.sys.h, l, r, k) == y.sys.pool.cache[key][l]
    ensures SlotOk(y, l, r, k)
  {
    hide Counted;
    var b := Geo(y).block;
    var key := KeyAt(prompt, b, k, n);
    SpelledIsPrefix(prompt, b, k, n);
    assert EntryOk(y, key);
    var id := PageOf(y.sys.h, l, r, k);
    if id >= 0 {
      AttachedHolds(y.content, b, id, l, Spelled(key), prompt, k, n * b);
    }
  }

  /** The window of the next token reaches no further back than the attached pages. */
  lemma RequiredIsLow(g: Geometry, l: nat, n: nat)
    requires GeometryOk(g) && g.window > 0 && Sliding(g, l)
    ensures RequiredFrom(g, n) <= LowPage(g, l, n * g.block) && RequiredFrom(g, n) <= n
  {
    if n * g.block >= g.window {
      DivGrows(n * g.block - g.window, n * g.block - g.window + 1, g.block);
      DivGrows(n * g.block - g.window, n * g.block, g.block);
      DivExact(n, g.block);
    }
  }

  lemma AttachedCover(y: Life, r: nat, prompt: seq<int>, n: nat, l: nat, k: nat)
    requires LifeShape(y) && r < |y.rows| && n * Geo(y).block <= |prompt| && n <= Geo(y).pages
    requires Geo(y).window > 0 && l < Geo(y).layers && k < Geo(y).pages
    requires y.rows[r] == Live(prompt, n, seq(Geo(y).layers, _ => n * Geo(y).block))
    requires k < n ==>
      var key := KeyAt(prompt, Geo(y).block, k, n);
      && key in y.sys.pool.cache && |y.sys.pool.cache[key]| == Geo(y).layers
      && PageOf(y.sys.h, l, r, k) == y.sys.pool.cache[key][l]
      && Fits(y.sys.pool, Geo(y), y.sys.pool.cache[key], k, ClampPages(Geo(y), RequiredFrom(Geo(y), n)))
    ensures Covered(y, l, r, k)
  {
    if k >= n { MulGrows(n, k, Geo(y).block); }
    else if Sliding(Geo(y), l) { RequiredIsLow(Geo(y), l, n); }
  }

  // ---- admission ----

  /** Attaches n cached blocks of the prompt, if the cache still has them, and takes the row. */
  function Admitted(x: Life, r: nat, prompt: seq<int>, n: nat): Option<Life>
    requires LifeShape(x) && r < |x.rows| && n * Geo(x).block <= |prompt|
  {
    var row := Live(prompt, n, seq(Geo(x).layers, _ => n * Geo(x).block));
    if n == 0 then Some(x.(rows := x.rows[r := row])) else
    var got := AttachBatch(x.sys, PrefixItems(Geo(x), prompt, r, n));
    if got.1 && got.0.status == Done then Some(x.(sys := got.0, rows := x.rows[r := row])) else None
  }

  lemma EmptyRow(x: Life, r: nat)
    requires LifeInv(x) && r < |x.rows| && x.rows[r].Idle?
    ensures forall l: nat, k: nat :: l < Geo(x).layers && k < Geo(x).pages ==> PageOf(x.sys.h, l, r, k) == -1
  {
    hide SysOk;
    hide EntriesOk;
    forall l: nat, k: nat | l < Geo(x).layers && k < Geo(x).pages ensures PageOf(x.sys.h, l, r, k) == -1 {
      assert SlotOk(x, l, r, k);
    }
  }

  lemma PagesEnough(n: nat, pages: nat, block: nat)
    requires block > 0 && n * block <= pages * block
    ensures n <= pages
  {
    if n > pages { MulApart(pages, n, block); }
  }

  /** Whatever an entry names is still hashed. */
  lemma LiveEntry(x: Life, key: Key)
    requires LifeInv(x) && key in x.sys.pool.cache && |x.sys.pool.cache[key]| == Geo(x).layers
    ensures LiveIds(x, x.sys.pool.cache[key])
  {
    hide SlotsOk;
    hide EntriesOk;
    hide ProgressOk;
    hide Counted;
  }

  /** Block j of the prompt is cached with every page its place needs. */
  ghost predicate BlockCached(x: Life, prompt: seq<int>, j: nat, n: nat)
    requires LifeShape(x) && j < n && n * Geo(x).block <= |prompt|
  {
    var key := KeyAt(prompt, Geo(x).block, j, n);
    && key in x.sys.pool.cache && |x.sys.pool.cache[key]| == Geo(x).layers
    && Fits(x.sys.pool, Geo(x), x.sys.pool.cache[key], j, ClampPages(Geo(x), RequiredFrom(Geo(x), n)))
  }

  /** Row r maps block j to the cached pages of its key. */
  ghost predicate BlockPlaced(x: Life, r: nat, prompt: seq<int>, j: nat, n: nat)
    requires LifeShape(x) && r < |x.rows| && j < n && n * Geo(x).block <= |prompt| && n <= Geo(x).pages
  {
    && BlockCached(x, prompt, j, n)
    && forall l: nat :: l < Geo(x).layers ==>
      PageOf(x.sys.h, l, r, j) == x.sys.pool.cache[KeyAt(prompt, Geo(x).block, j, n)][l]
  }

  lemma ItemFacts(x: Life, r: nat, prompt: seq<int>, n: nat, items: seq<Attachment>)
    requires LifeInv(x) && r < |x.rows| && n * Geo(x).block <= |prompt| && items == PrefixItems(Geo(x), prompt, r, n)
    requires Lookup(x.sys.pool, Geo(x), items, 0).Hit?
    ensures forall j :: 0 <= j < n ==> items[j].key in x.sys.pool.cache
    ensures EntriesFit(x.sys, items, Entries(x.sys.pool, items))
    ensures forall j :: 0 <= j < n ==> LiveIds(x, Entries(x.sys.pool, items)[j])
    ensures forall j: nat :: j < n ==> BlockCached(x, prompt, j, n)
    ensures forall j: nat :: j < n ==> items[j].key == KeyAt(prompt, Geo(x).block, j, n)
  {
    hide SlotsOk;
    hide EntriesOk;
    hide ProgressOk;
    hide PoolOk;
    hide KeyAt;
    hide Fits;
    hide LiveIds;
    EntriesDoFit(x.sys, items);
    forall j: nat | j < n
      ensures BlockCached(x, prompt, j, n) && LiveIds(x, Entries(x.sys.pool, items)[j])
    {
      assert Accepted(x.sys.pool, Geo(x), items[j]);
      LiveEntry(x, items[j].key);
    }
  }

  /** A row that takes over a prompt with n attached blocks starts out right. */
  lemma RowStarts(x: Life, r: nat, prompt: seq<int>, n: nat)
    requires OthersOk(x, r) && r < |x.rows| && Geo(x).window > 0 && |prompt| <= MaxTokens(Geo(x))
    requires n * Geo(x).block <= |prompt| && n <= Geo(x).pages
    requires forall l: nat, k: nat :: l < Geo(x).layers && k < Geo(x).pages && k >= n ==> PageOf(x.sys.h, l, r, k) == -1
    requires forall k: nat :: k < n ==> BlockPlaced(x, r, prompt, k, n)
    ensures LifeInv(x.(rows := x.rows[r := Live(prompt, n, seq(Geo(x).layers, _ => n * Geo(x).block))]))
  {
    hide PoolOk;
    hide PageHolds;
    hide KeyAt;
    hide Fits;
    var y := x.(rows := x.rows[r := Live(prompt, n, seq(Geo(x).layers, _ => n * Geo(x).block))]);
    RowChangeOthers(x, y, r);
    forall l: nat, k: nat | l < Geo(y).layers && k < Geo(y).pages ensures SlotOk(y, l, r, k) && Covered(y, l, r, k) {
      if k < n {
        assert BlockPlaced(x, r, prompt, k, n);
        AttachedSlot(y, r, prompt, n, l, k);
      }
      AttachedCover(y, r, prompt, n, l, k);
    }
    InvFromOthers(y, r);
  }

  lemma AdmitKeeps(x: Life, r: nat, prompt: seq<int>, n: nat)
    requires LifeInv(x) && r < |x.rows| && x.rows[r].Idle? && x.sys.status == Done
    requires Geo(x).window > 0 && |prompt| <= MaxTokens(Geo(x)) && n * Geo(x).block <= |prompt|
    ensures Admitted(x, r, prompt, n).Some? ==> LifeInv(Admitted(x, r, prompt, n).value)
  {
    hide PoolOk;
    hide SlotsOk;
    hide EntriesOk;
    hide ProgressOk;
    hide KeyAt;
    hide Lookup;
    hide Fits;
    hide AttachItems;
    PagesEnough(n, Geo(x).pages, Geo(x).block);
    EmptyRow(x, r);
    OthersFromInv(x, r);
    if n == 0 {
      RowStarts(x, r, prompt, 0);
    } else {
      var items := PrefixItems(Geo(x), prompt, r, n);
      if Lookup(x.sys.pool, Geo(x), items, 0).Hit? {
        var entries := Entries(x.sys.pool, items);
        ItemFacts(x, r, prompt, n, items);
        assert BlocksAre(x, r, entries, 0);
        AttachBlocks(x, items, entries, r, 0);
        var y := x.(sys := AttachItems(x.sys, items, entries, 0));
        forall j: nat | j < n ensures BlockPlaced(y, r, prompt, j, n) {
          SameFits(x, y, prompt, j, n);
          assert items[j].key == KeyAt(prompt, Geo(x).block, j, n);
        }
        RowStarts(y, r, prompt, n);
      }
    }
  }

  lemma SameFits(x: Life, y: Life, prompt: seq<int>, j: nat, n: nat)
    requires LifeShape(x) && LifeShape(y) && Geo(x) == Geo(y) && j < n && n * Geo(x).block <= |prompt|
    requires x.sys.pool.hash == y.sys.pool.hash && x.sys.pool.cache == y.sys.pool.cache
    requires BlockCached(x, prompt, j, n)
    ensures BlockCached(y, prompt, j, n)
  {
  }
}
