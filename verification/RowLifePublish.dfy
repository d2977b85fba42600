/** Publishing a row's blocks, and clearing the cache. */
module RowLifePublish {
  import opened Arithmetic
  import opened Wrappers
  import opened PrefixKeys
  import opened KvModel
  import opened KvInvariant
  import opened KvOps
  import opened KvPages
  import opened RowLife
  import opened RowLifeSteps
  import opened RowLifeWrites
  import opened RowLifeAdmit

  /** Block k of row r can be published: it is a cacheable block and all layers wrote it. */
  ghost predicate Publishable(x: Life, r: nat, k: nat)
    requires LifeShape(x) && r < |x.rows|
  {
    && x.rows[r].Live? && k < Geo(x).pages && (k + 1) * Geo(x).block <= |x.rows[r].tokens|
    && forall l: nat :: l < Geo(x).layers ==> (k + 1) * Geo(x).block <= x.rows[r].done[l]
  }

  function BlockKey(x: Life, r: nat, k: nat): Key
    requires LifeShape(x) && r < |x.rows| && x.rows[r].Live? && (k + 1) * Geo(x).block <= |x.rows[r].tokens|
  {
    KeyOf(x.rows[r].tokens, Geo(x).block, k + 1)
  }

  /** The row publishes block k; from then on it counts as shared. */
  function Published(x: Life, r: nat, k: nat): Life
    requires LifeShape(x) && r < |x.rows| && x.rows[r].Live? && (k + 1) * Geo(x).block <= |x.rows[r].tokens|
  {
    var row := x.rows[r];
    x.(sys := Publish(x.sys, BlockKey(x, r, k), r, k).0,
       rows := x.rows[r := row.(shared := if row.shared <= k then k + 1 else row.shared)])
  }

  /** No page of the block carries another key, so the two-hashes error cannot happen. */
  lemma NeverTwoHashes(x: Life, r: nat, k: nat)
    requires LifeInv(x) && r < |x.rows| && Publishable(x, r, k)
    ensures !HashedOtherwise(x.sys.pool, Column(x.sys.h, r, k), BlockKey(x, r, k))
  {
    hide SysOk;
    hide EntriesOk;
    hide PageHolds;
    var ids := Column(x.sys.h, r, k);
    forall l: nat | l < |ids| && ids[l] >= 0
      ensures x.sys.pool.hash[ids[l]] == None || x.sys.pool.hash[ids[l]] == Some(BlockKey(x, r, k))
    {
      assert ids[l] == PageOf(x.sys.h, l, r, k);
      assert SlotOk(x, l, r, k);
    }
  }

  /** Two rows that map one page hold the same tokens in it, at the same place. */
  lemma SharedPageSameKey(x: Life, r: nat, k: nat, l: nat, r': nat, k': nat, l': nat)
    requires LifeInv(x) && r < |x.rows| && r' < |x.rows| && l < Geo(x).layers && l' < Geo(x).layers
    requires Publishable(x, r, k) && k' < Geo(x).pages
    requires x.rows[r'].Live? && k' < x.rows[r'].shared
    requires PageOf(x.sys.h, l, r, k) >= 0 && PageOf(x.sys.h, l', r', k') == PageOf(x.sys.h, l, r, k)
    ensures (k' + 1) * Geo(x).block <= |x.rows[r'].tokens| && BlockKey(x, r, k) == BlockKey(x, r', k') && k == k'
  {
    hide SysOk;
    hide EntriesOk;
    hide KeyOf;
    var b := Geo(x).block;
    var id, o := PageOf(x.sys.h, l, r, k), Geo(x).block - 1;
    assert SlotOk(x, l, r, k) && SlotOk(x, l', r', k') && ProgressOk(x, r') && ProgressOk(x, r);
    MulGrows(k' + 1, x.rows[r'].shared, b);
    MulStep(k, b);
    MulStep(k', b);
    var a, c := x.rows[r].tokens, x.rows[r'].tokens;
    assert PageHolds(x.content, b, id, l, a, k, x.rows[r].done[l]);
    assert PageHolds(x.content, b, id, l', c, k', x.rows[r'].done[l']);
    assert x.content[Spot(id, o)] == Kv(l, a[..k * b + o + 1]);
    assert x.content[Spot(id, o)] == Kv(l', c[..k' * b + o + 1]);
    assert |a[..k * b + o + 1]| == |c[..k' * b + o + 1]|;
    IndexUnique(k, o, k', o, b);
    SameKeyIffSamePrefix(a, c, b, k + 1, k' + 1);
  }

  // ---- what publishing changes ----

  ghost predicate IsNew(x: Life, r: nat, k: nat)
    requires LifeShape(x) && r < |x.rows| && x.rows[r].Live? && (k + 1) * Geo(x).block <= |x.rows[r].tokens|
    requires k < Geo(x).pages
  {
    BlockKey(x, r, k) !in x.sys.pool.cache && AnyPage(Column(x.sys.h, r, k))
  }

  lemma MarkedAre(hash: seq<Option<Key>>, ids: seq<int>, key: Key, b: nat)
    requires (forall k :: 0 <= k < |ids| ==> ids[k] < |hash|) && b < |hash|
    ensures Mark(hash, ids, key, 0)[b] == if (b as int) in ids then Some(key) else hash[b]
  {
    hide Mark;
    MarkFacts(hash, ids, key, 0);
  }

  lemma PublishEffect(x: Life, r: nat, k: nat)
    requires LifeInv(x) && r < |x.rows| && Publishable(x, r, k) && x.sys.status == Done
    ensures var y := Published(x, r, k);
      && y.sys.h == x.sys.h && y.sys.status == Done && y.content == x.content
      && (if IsNew(x, r, k) then
            && y.sys.pool.cache == x.sys.pool.cache[BlockKey(x, r, k) := Column(x.sys.h, r, k)]
            && y.sys.pool.hash == Mark(x.sys.pool.hash, Column(x.sys.h, r, k), BlockKey(x, r, k), 0)
          else y.sys.pool == x.sys.pool)
  {
    hide SysOk;
    hide EntriesOk;
    hide SlotsOk;
    hide ProgressOk;
    hide KeyOf;
    hide Mark;
    NeverTwoHashes(x, r, k);
  }

  lemma PublishSlot(x: Life, r: nat, k: nat, l': nat, r': nat, k': nat)
    requires LifeInv(x) && r < |x.rows| && Publishable(x, r, k) && x.sys.status == Done
    requires l' < Geo(x).layers && r' < |x.rows| && k' < Geo(x).pages && LifeShape(Published(x, r, k))
    ensures SlotOk(Published(x, r, k), l', r', k') && Covered(Published(x, r, k), l', r', k')
  {
    hide SysOk;
    hide EntriesOk;
    hide PageHolds;
    hide KeyOf;
    hide Publish;
    hide Mark;
    PublishEffect(x, r, k);
    var y := Published(x, r, k);
    assert SlotOk(x, l', r', k') && Covered(x, l', r', k');
    var id := PageOf(x.sys.h, l', r', k');
    var ids := Column(x.sys.h, r, k);
    if IsNew(x, r, k) && x.rows[r'].Live? && id >= 0 {
      MarkedAre(x.sys.pool.hash, ids, BlockKey(x, r, k), id);
      if id in ids {
        var l: nat :| l < |ids| && ids[l] == id;
        assert PageOf(x.sys.h, l, r, k) == id;
        if k' < x.rows[r'].shared {
          SharedPageSameKey(x, r, k, l, r', k', l');
        } else {
          SlotUnique(Geo(x), l, r, k, l', r', k');
          assert Sole(x.sys.h.table, SlotAt(Geo(x), l', r', k'));
        }
      }
    }
  }

  /** The new entry's pages hold exactly the tokens that its key spells. */
  lemma NewEntryOk(x: Life, r: nat, k: nat)
    requires LifeInv(x) && r < |x.rows| && Publishable(x, r, k) && x.sys.status == Done && IsNew(x, r, k)
    requires LifeShape(Published(x, r, k)) && BlockKey(x, r, k) in Published(x, r, k).sys.pool.cache
    ensures EntryOk(Published(x, r, k), BlockKey(x, r, k))
  {
    hide SysOk;
    hide EntriesOk;
    hide Publish;
    PublishEffect(x, r, k);
    var b, tokens, key := Geo(x).block, x.rows[r].tokens, BlockKey(x, r, k);
    var ids := Column(x.sys.h, r, k);
    DepthOfKey(tokens, b, k + 1);
    KeySpells(tokens, b, k + 1);
    MulStep(k, b);
    forall l: nat | l < |ids| && ids[l] >= 0
      ensures PageHolds(x.content, b, ids[l], l, Spelled(key), k, |Spelled(key)|)
    {
      assert SlotOk(x, l, r, k) && ProgressOk(x, r);
      HoldsPrefix(x.content, b, ids[l], l, tokens, k, x.rows[r].done[l]);
    }
  }

  lemma HoldsPrefix(content: map<Spot, Kv>, block: nat, id: int, l: nat, tokens: seq<int>, k: nat, upto: nat)
    requires k * block + block <= upto <= |tokens| && PageHolds(content, block, id, l, tokens, k, upto)
    ensures PageHolds(content, block, id, l, tokens[..k * block + block], k, k * block + block)
  {
    var cut := tokens[..k * block + block];
    forall o: nat | o < block && k * block + o < k * block + block
      ensures Spot(id, o) in content && content[Spot(id, o)] == Kv(l, cut[..k * block + o + 1])
    {
      assert cut[..k * block + o + 1] == tokens[..k * block + o + 1];
    }
  }

  lemma PublishKeeps(x: Life, r: nat, k: nat)
    requires LifeInv(x) && r < |x.rows| && Publishable(x, r, k) && x.sys.status == Done
    ensures LifeInv(Published(x, r, k)) && Published(x, r, k).sys.status == Done
  {
    hide PoolOk;
    hide SlotOk;
    hide Covered;
    hide PageHolds;
    hide Publish;
    hide KeyOf;
    var y := Published(x, r, k);
    PublishOk(x.sys, multiset{}, BlockKey(x, r, k), r, k);
    PublishEffect(x, r, k);
    forall l': nat, r': nat, k': nat | l' < Geo(x).layers && r' < |x.rows| && k' < Geo(x).pages
      ensures SlotOk(y, l', r', k') && Covered(y, l', r', k')
    {
      PublishSlot(x, r, k, l', r', k');
    }
    forall key | key in y.sys.pool.cache ensures EntryOk(y, key) {
      if IsNew(x, r, k) && key == BlockKey(x, r, k) { NewEntryOk(x, r, k); } else { assert EntryOk(x, key); }
    }
    forall r': nat | r' < |y.rows| ensures ProgressOk(y, r') { assert ProgressOk(x, r'); }
  }

  // ---- clearing ----

  lemma ClearKeeps(x: Life)
    requires LifeInv(x)
    ensures LifeInv(x.(sys := x.sys.(pool := ClearCache(x.sys.pool))))
  {
    hide Counted;
    hide PageHolds;
    var y := x.(sys := x.sys.(pool := ClearCache(x.sys.pool)));
    ClearCacheOk(x.sys.pool, multiset{} + multiset(x.sys.h.table));
    forall l: nat, r: nat, k: nat | l < Geo(x).layers && r < |x.rows| && k < Geo(x).pages
      ensures SlotOk(y, l, r, k) && Covered(y, l, r, k)
    {
      assert SlotOk(x, l, r, k) && Covered(x, l, r, k);
    }
    forall r: nat | r < |y.rows| ensures ProgressOk(y, r) { assert ProgressOk(x, r); }
  }
}
