/** Attaching, publishing and freeing: how pages come to be shared and stay right. */
module RowLifeCache {
  import opened Wrappers
  import opened PrefixKeys
  import opened KvModel
  import opened KvInvariant
  import opened KvOps
  import opened KvPages
  import opened KvFree
  import opened RowLife
  import opened RowLifeSteps
  import opened RowLifeWrites

  /** The invariant of every row but r, and of the cache. */
  ghost predicate OthersOk(x: Life, r: nat) {
    && LifeShape(x) && SysOk(x.sys, multiset{}) && EntriesOk(x)
    && (forall l: nat, r': nat, k: nat ::
          l < Geo(x).layers && r' < |x.rows| && k < Geo(x).pages && r' != r ==> SlotOk(x, l, r', k) && Covered(x, l, r', k))
    && (forall r': nat :: r' < |x.rows| && r' != r ==> ProgressOk(x, r'))
  }

  lemma OthersFromInv(x: Life, r: nat)
    requires LifeInv(x)
    ensures OthersOk(x, r)
  {
    hide SysOk;
    hide SlotOk;
    hide Covered;
    hide EntriesOk;
  }

  /** One row and all the others. */
  lemma InvFromOthers(x: Life, r: nat)
    requires r < |x.rows| && OthersOk(x, r) && ProgressOk(x, r)
    requires forall l: nat, k: nat :: l < Geo(x).layers && k < Geo(x).pages ==> SlotOk(x, l, r, k) && Covered(x, l, r, k)
    ensures LifeInv(x)
  {
    hide SysOk;
    hide SlotOk;
    hide Covered;
    hide EntriesOk;
    hide ProgressOk;
  }

  // ---- freeing ----

  lemma DropOthers(x: Life, l: nat, r: nat, k: nat)
    requires OthersOk(x, r) && r < |x.rows| && l < Geo(x).layers && k < Geo(x).pages && x.sys.status == Done
    ensures OthersOk(Dropped(x, l, r, k), r) && Dropped(x, l, r, k).sys.status == Done
  {
    hide PoolOk;
    hide SlotOk;
    hide Covered;
    hide PageHolds;
    hide DropSlot;
    var y := Dropped(x, l, r, k);
    DropSlotOk(x.sys, multiset{}, SlotAt(Geo(x), l, r, k));
    forall l': nat, r': nat, k': nat | l' < Geo(x).layers && r' < |x.rows| && k' < Geo(x).pages && r' != r
      ensures SlotOk(y, l', r', k') && Covered(y, l', r', k')
    {
      DropOther(x, l, r, k, l', r', k');
    }
    forall key | key in y.sys.pool.cache ensures EntryOk(y, key) { assert EntryOk(x, key); }
    forall r': nat | r' < |y.rows| && r' != r ensures ProgressOk(y, r') { assert ProgressOk(x, r'); }
  }

  lemma {:induction false} DropBelowOthers(x: Life, l: nat, r: nat, blk: nat)
    requires OthersOk(x, r) && r < |x.rows| && l < Geo(x).layers && blk <= Geo(x).pages && x.sys.status == Done
    ensures var y := x.(sys := DropBelow(x.sys, l, r, blk)); OthersOk(y, r) && y.sys.status == Done
    decreases blk
  {
    hide OthersOk;
    hide DropSlot;
    OthersShape(x, r);
    if blk > 0 {
      DropOthers(x, l, r, blk - 1);
      DropBelowOthers(Dropped(x, l, r, blk - 1), l, r, blk - 1);
    }
  }

  lemma OthersShape(x: Life, r: nat)
    requires OthersOk(x, r)
    ensures LifeShape(x)
  {
  }

  lemma MarksOthers(x: Life, h: Handle, r: nat)
    requires OthersOk(x, r) && HandleShape(h) && h.geo == Geo(x) && h.table == x.sys.h.table
    ensures OthersOk(x.(sys := x.sys.(h := h)), r)
  {
    hide PoolOk;
    hide PageHolds;
    var y := x.(sys := x.sys.(h := h));
    forall l: nat, r': nat, k: nat | l < Geo(x).layers && r' < |x.rows| && k < Geo(x).pages && r' != r
      ensures SlotOk(y, l, r', k) && Covered(y, l, r', k)
    {
      assert SlotOk(x, l, r', k) && Covered(x, l, r', k);
    }
    forall key | key in y.sys.pool.cache ensures EntryOk(y, key) { assert EntryOk(x, key); }
    forall r': nat | r' < |y.rows| && r' != r ensures ProgressOk(y, r') { assert ProgressOk(x, r'); }
  }

  lemma {:induction false} FreeLayersOthers(x: Life, r: nat, n: nat)
    requires OthersOk(x, r) && r < |x.rows| && n <= Geo(x).layers && x.sys.status == Done
    ensures var y := x.(sys := FreeLayers(x.sys, r, n)); OthersOk(y, r) && y.sys.status == Done
    decreases n
  {
    hide OthersOk;
    hide DropBelow;
    OthersShape(x, r);
    if n > 0 {
      DropBelowOthers(x, n - 1, r, Geo(x).pages);
      var y := x.(sys := DropBelow(x.sys, n - 1, r, Geo(x).pages));
      OthersShape(y, r);
      MarksOthers(y, SetEvicted(y.sys, n - 1, r, 0).h, r);
      FreeLayersOthers(y.(sys := SetEvicted(y.sys, n - 1, r, 0)), r, n - 1);
    }
  }

  /** free_row turns a row idle and leaves the others alone. */
  lemma FreeKeeps(x: Life, r: nat)
    requires LifeInv(x) && r < |x.rows| && x.sys.status == Done
    ensures LifeInv(Life(FreeRow(x.sys, r), x.content, x.rows[r := Idle])) && FreeRow(x.sys, r).status == Done
  {
    hide PoolOk;
    hide SlotOk;
    hide PageHolds;
    hide EntriesOk;
    OthersFromInv(x, r);
    FreeLayersOthers(x, r, Geo(x).layers);
    FreeRowPages(x.sys, multiset{}, r);
    var m := x.(sys := FreeLayers(x.sys, r, Geo(x).layers));
    var f := m.(sys := FreeRow(x.sys, r));
    MarksOthers(m, f.sys.h, r);
    var y := f.(rows := f.rows[r := Idle]);
    RowChangeOthers(f, y, r);
    forall l: nat, k: nat | l < Geo(y).layers && k < Geo(y).pages ensures SlotOk(y, l, r, k) && Covered(y, l, r, k) {
      IdleSlot(y, l, r, k);
    }
    InvFromOthers(y, r);
  }

  lemma IdleSlot(y: Life, l: nat, r: nat, k: nat)
    requires LifeShape(y) && r < |y.rows| && y.rows[r].Idle? && GoneFrom(y.sys, r, 0)
    requires l < Geo(y).layers && k < Geo(y).pages
    ensures SlotOk(y, l, r, k) && Covered(y, l, r, k)
  {
    assert PageOf(y.sys.h, l, r, k) == -1;
  }

  /** What a row is believed to be does not matter to the others. */
  lemma RowChangeOthers(x: Life, y: Life, r: nat)
    requires OthersOk(x, r) && r < |x.rows| && y.sys == x.sys && y.content == x.content && |y.rows| == |x.rows|
    requires y.rows == x.rows[r := y.rows[r]] && LifeShape(y)
    ensures OthersOk(y, r)
  {
    hide PoolOk;
    hide PageHolds;
    forall l: nat, r': nat, k: nat | l < Geo(x).layers && r' < |x.rows| && k < Geo(x).pages && r' != r
      ensures SlotOk(y, l, r', k) && Covered(y, l, r', k)
    {
      assert SlotOk(x, l, r', k) && Covered(x, l, r', k);
    }
    forall key | key in y.sys.pool.cache ensures EntryOk(y, key) { assert EntryOk(x, key); }
    forall r': nat | r' < |y.rows| && r' != r ensures ProgressOk(y, r') { assert ProgressOk(x, r'); }
  }

  // ---- attaching ----

  function Attached(x: Life, l: nat, r: nat, k: nat, id: int): Life
    requires LifeShape(x) && l < Geo(x).layers && r < |x.rows| && k < Geo(x).pages && -1 <= id < |x.sys.pool.ref|
  {
    x.(sys := AttachSlot(x.sys, SlotAt(Geo(x), l, r, k), id))
  }

  lemma AttachOther(x: Life, l: nat, r: nat, k: nat, id: nat, l': nat, r': nat, k': nat)
    requires OthersOk(x, r) && r < |x.rows| && x.sys.status == Done
    requires l < Geo(x).layers && k < Geo(x).pages && id < |x.sys.pool.ref| && x.sys.pool.hash[id].Some?
    requires l' < Geo(x).layers && r' < |x.rows| && k' < Geo(x).pages && r' != r
    requires PageOf(x.sys.h, l, r, k) == -1
    ensures SlotOk(Attached(x, l, r, k, id), l', r', k') && Covered(Attached(x, l, r, k, id), l', r', k')
  {
    hide PoolOk;
    hide PageHolds;
    hide EntriesOk;
    hide ProgressOk;
    SlotUnique(Geo(x), l, r, k, l', r', k');
    assert SlotOk(x, l', r', k') && Covered(x, l', r', k');
  }

  lemma AttachOthers(x: Life, l: nat, r: nat, k: nat, id: int)
    requires OthersOk(x, r) && r < |x.rows| && x.sys.status == Done
    requires l < Geo(x).layers && k < Geo(x).pages && -1 <= id < |x.sys.pool.ref|
    requires id >= 0 ==> x.sys.pool.hash[id].Some?
    requires PageOf(x.sys.h, l, r, k) == -1
    ensures var y := Attached(x, l, r, k, id);
      && OthersOk(y, r) && y.sys.status == Done && y.sys.pool.hash == x.sys.pool.hash && y.sys.pool.cache == x.sys.pool.cache
      && PageOf(y.sys.h, l, r, k) == id
      && (forall l': nat, r': nat, k': nat ::
            l' < Geo(x).layers && r' < |x.rows| && k' < Geo(x).pages && (l' != l || r' != r || k' != k) ==>
              PageOf(y.sys.h, l', r', k') == PageOf(x.sys.h, l', r', k'))
  {
    hide PoolOk;
    hide SlotOk;
    hide Covered;
    hide PageHolds;
    AttachSlotOk(x.sys, multiset{}, SlotAt(Geo(x), l, r, k), id);
    var y := Attached(x, l, r, k, id);
    if id >= 0 {
      PutPages(x.sys, Retain(x.sys.pool, id), l, r, k, id);
      forall l': nat, r': nat, k': nat | l' < Geo(x).layers && r' < |x.rows| && k' < Geo(x).pages && r' != r
        ensures SlotOk(y, l', r', k') && Covered(y, l', r', k')
      {
        AttachOther(x, l, r, k, id, l', r', k');
      }
      forall key | key in y.sys.pool.cache ensures EntryOk(y, key) { assert EntryOk(x, key); }
      forall r': nat | r' < |y.rows| && r' != r ensures ProgressOk(y, r') { assert ProgressOk(x, r'); }
    } else {
      assert y == x;
    }
  }

  /** Block blk of row r holds exactly the pages `ids`, layers below n attached so far. */
  ghost predicate ColumnIs(x: Life, r: nat, blk: nat, ids: seq<int>, n: nat)
    requires LifeShape(x) && r < |x.rows| && blk < Geo(x).pages && |ids| == Geo(x).layers
  {
    forall l: nat :: l < Geo(x).layers ==> PageOf(x.sys.h, l, r, blk) == if l < n then ids[l] else -1
  }

  ghost predicate OtherBlocksSame(x: Life, y: Life, r: nat, blk: nat)
    requires LifeShape(x) && LifeShape(y) && Geo(x) == Geo(y)
  {
    forall l: nat, r': nat, k: nat ::
      l < Geo(x).layers && r' < |x.rows| && k < Geo(x).pages && (r' != r || k != blk) ==>
        PageOf(y.sys.h, l, r', k) == PageOf(x.sys.h, l, r', k)
  }

  /** The entry's pages exist and are hashed. */
  predicate LiveIds(x: Life, ids: seq<int>) {
    && |ids| == Geo(x).layers && |x.sys.pool.hash| == |x.sys.pool.ref|
    && forall k :: 0 <= k < |ids| ==> -1 <= ids[k] < |x.sys.pool.ref| && (ids[k] >= 0 ==> x.sys.pool.hash[ids[k]].Some?)
  }

  lemma {:induction false} AttachColumn(x: Life, ids: seq<int>, r: nat, blk: nat, l: nat)
    requires OthersOk(x, r) && r < |x.rows| && x.sys.status == Done && blk < Geo(x).pages
    requires LiveIds(x, ids) && l <= |ids| && ColumnIs(x, r, blk, ids, l)
    ensures var y := x.(sys := AttachLayers(x.sys, ids, r, blk, l));
      && OthersOk(y, r) && y.sys.status == Done && y.sys.pool.hash == x.sys.pool.hash && y.sys.pool.cache == x.sys.pool.cache
      && ColumnIs(y, r, blk, ids, |ids|) && OtherBlocksSame(x, y, r, blk)
    decreases |ids| - l
  {
    hide OthersOk;
    hide AttachSlot;
    hide SlotAt;
    OthersShape(x, r);
    if l < |ids| {
      assert PageOf(x.sys.h, l, r, blk) == -1;
      AttachOthers(x, l, r, blk, ids[l]);
      var y := Attached(x, l, r, blk, ids[l]);
      OthersShape(y, r);
      AttachColumn(y, ids, r, blk, l + 1);
      OthersShape(y.(sys := AttachLayers(y.sys, ids, r, blk, l + 1)), r);
    }
  }
}
