/** A geometry switch in the life of the rows: rebind to a new handle, then release the old
    one. Every carried row goes on as before. */
module RowLifeSwitch {
  import opened Wrappers
  import opened PrefixKeys
  import opened KvModel
  import opened KvInvariant
  import opened KvOps
  import opened KvPages
  import opened KvRebind
  import opened KvRuns
  import opened RowLife
  import opened RowLifeSteps

  // ---- neither half touches hashes or entries ----

  predicate SameIndex(p: Pool, q: Pool) { q.hash == p.hash && q.cache == p.cache }

  lemma {:induction false} CarryPagesIndex(s: Sys, h: Handle, d: nat, r: nat, l: nat, blk: nat)
    requires CanCarry(s, h) && d < s.h.geo.rows && r < h.geo.rows && l < h.geo.layers
    ensures SameIndex(s.pool, CarryPages(s, h, d, r, l, blk).pool)
    decreases h.geo.pages - blk
  {
    hide SlotAt;
    if blk < h.geo.pages {
      var slot := h.table[SlotAt(h.geo, l, r, blk)];
      var pool := if slot >= 0 then Retain(s.pool, slot) else s.pool;
      CarryPagesIndex(Put(s, pool, SlotAt(s.h.geo, l, d, blk), slot), h, d, r, l, blk + 1);
    }
  }

  lemma {:induction false} CarryLayersIndex(s: Sys, h: Handle, d: nat, r: nat, l: nat)
    requires CanCarry(s, h) && d < s.h.geo.rows && r < h.geo.rows && s.status == Done
    ensures SameIndex(s.pool, CarryLayers(s, h, d, r, l).pool)
    decreases h.geo.layers - l
  {
    hide CarryPages;
    if l < h.geo.layers {
      var m := SetEvicted(s, l, d, Evicted(h, l, r));
      CarryPagesIndex(m, h, d, r, l, 0);
      var t := CarryPages(m, h, d, r, l, 0);
      if t.status == Done { CarryLayersIndex(t, h, d, r, l + 1); }
    }
  }

  lemma {:induction false} CarryRowsIndex(s: Sys, h: Handle, sources: seq<int>, d: nat)
    requires CanCarry(s, h) && |sources| == s.h.geo.rows && SourcesOk(h, sources)
    requires |h.lens| == |h.active| == h.geo.rows
    ensures SameIndex(s.pool, CarryRows(s, h, sources, d).pool)
    decreases |sources| - d
  {
    hide CarryLayers;
    if d < |sources| && s.status == Done {
      if sources[d] < 0 {
        CarryRowsIndex(s, h, sources, d + 1);
      } else {
        var r := sources[d];
        var m := SetActive(SetLen(s, d, h.lens[r]), d, h.active[r]);
        CarryLayersIndex(m, h, d, r, 0);
        CarryRowsIndex(CarryLayers(m, h, d, r, 0), h, sources, d + 1);
      }
    }
  }

  lemma {:induction false} DropIndex(s: Sys, l: nat, r: nat, blk: nat)
    requires SysShape(s) && l < s.h.geo.layers && r < s.h.geo.rows && blk <= s.h.geo.pages
    ensures SameIndex(s.pool, DropBelow(s, l, r, blk).pool)
    decreases blk
  {
    hide SlotAt;
    if blk > 0 && s.status == Done { DropIndex(DropSlot(s, SlotAt(s.h.geo, l, r, blk - 1)), l, r, blk - 1); }
  }

  lemma {:induction false} ReleaseLayersIndex(s: Sys, r: nat, n: nat)
    requires SysShape(s) && r < s.h.geo.rows && n <= s.h.geo.layers
    ensures SameIndex(s.pool, ReleaseLayers(s, r, n).pool)
    decreases n
  {
    hide DropBelow;
    if n > 0 && s.status == Done {
      DropIndex(s, n - 1, r, s.h.geo.pages);
      ReleaseLayersIndex(DropBelow(s, n - 1, r, s.h.geo.pages), r, n - 1);
    }
  }

  lemma {:induction false} CloseIndex(s: Sys, r: nat)
    requires SysShape(s)
    ensures SameIndex(s.pool, ReleaseRows(s, r).pool)
    decreases s.h.geo.rows - r
  {
    hide ReleaseLayers;
    if r < s.h.geo.rows && s.status == Done {
      ReleaseLayersIndex(s, r, s.h.geo.layers);
      CloseIndex(ReleaseLayers(s, r, s.h.geo.layers), r + 1);
    }
  }

  // ---- the switch ----

  predicate CanSwitch(x: Life, sources: seq<int>)
    requires LifeShape(x)
  {
    |sources| >= 1 && SourcesOk(x.sys.h, sources)
  }

  /** The pool and the new handle once the source has been released. */
  function SwitchSys(s: Sys, sources: seq<int>): (t: Sys)
    requires SysShape(s) && |sources| >= 1 && SourcesOk(s.h, sources)
    ensures SysShape(t) && t.h == Rebind(s, sources).value.h
  {
    var t := Rebind(s, sources).value;
    Sys(KvModel.Close(Sys(t.pool, s.h, Done)).pool, t.h, Done)
  }

  function Switched(x: Life, sources: seq<int>): Life
    requires LifeShape(x) && CanSwitch(x, sources)
  {
    Life(SwitchSys(x.sys, sources), x.content,
      seq(|sources|, d requires 0 <= d < |sources| => if sources[d] < 0 then Idle else x.rows[sources[d]]))
  }

  lemma SwitchSysOk(s: Sys, sources: seq<int>)
    requires SysOk(s, multiset{}) && |sources| >= 1 && SourcesOk(s.h, sources)
    ensures var t := SwitchSys(s, sources);
      && SysOk(t, multiset{}) && t.status == Done && SameIndex(s.pool, t.pool) && t.h.geo == s.h.geo.(rows := |sources|)
      && CanCarry(t, s.h) && forall d: nat :: d < |sources| ==> RowCarried(t, s.h, sources, d)
  {
    hide PoolOk;
    hide CarryRows;
    hide ReleaseRows;
    hide LayersCarried;
    hide RowBlank;
    RebindIsIdentity(s, multiset{}, sources);
    var t := Rebind(s, sources).value;
    var source := Sys(t.pool, s.h, Done);
    var names := multiset(t.h.table);
    assert multiset{} + multiset(s.h.table) + multiset(t.h.table) == names + multiset(s.h.table);
    CloseEmpties(source, names);
    assert multiset{} + names == names;
    CarryRowsIndex(Sys(s.pool, BlankHandle(s.h.geo.(rows := |sources|)), Done), s.h, sources, 0);
    CloseIndex(source, 0);
    var u := SwitchSys(s, sources);
    forall d: nat | d < |sources| ensures RowCarried(u, s.h, sources, d) {
      assert RowCarried(t, s.h, sources, d);
      SameHandle(t, u, s.h, sources, d);
    }
  }

  lemma SameHandle(t: Sys, u: Sys, h: Handle, sources: seq<int>, d: nat)
    requires CanCarry(t, h) && CanCarry(u, h) && u.h == t.h && |sources| == t.h.geo.rows && SourcesOk(h, sources)
    requires d < |sources| && |h.lens| == |h.active| == h.geo.rows && RowCarried(t, h, sources, d)
    ensures RowCarried(u, h, sources, d)
  {
  }

  /** Page k of row d is page k of the row it carries; a row that carries nothing has none. */
  lemma SwitchedPage(x: Life, sources: seq<int>, l: nat, d: nat, k: nat)
    requires LifeInv(x) && CanSwitch(x, sources) && l < Geo(x).layers && d < |sources| && k < Geo(x).pages
    ensures var y := Switched(x, sources);
      Geo(y) == Geo(x).(rows := |sources|) &&
      PageOf(y.sys.h, l, d, k) == if sources[d] < 0 then -1 else PageOf(x.sys.h, l, sources[d], k)
  {
    hide PoolOk;
    hide SwitchSys;
    hide SlotsOk;
    hide EntriesOk;
    hide ProgressOk;
    hide SlotAt;
    SwitchSysOk(x.sys, sources);
    var y := Switched(x, sources);
    assert RowCarried(y.sys, x.sys.h, sources, d);
    assert Evicted(y.sys.h, l, d) == if sources[d] < 0 then 0 else Evicted(x.sys.h, l, sources[d]);
  }

  /** Two rows share a page after a switch only if the rows they carry shared it before. */
  lemma NothingNewIsShared(x: Life, sources: seq<int>, l: nat, d: nat, k: nat, l': nat, d': nat, k': nat)
    requires LifeInv(x) && CanSwitch(x, sources) && l < Geo(x).layers && l' < Geo(x).layers
    requires d < |sources| && d' < |sources| && k < Geo(x).pages && k' < Geo(x).pages
    ensures var y := Switched(x, sources);
      Geo(y) == Geo(x).(rows := |sources|) &&
      var id := PageOf(y.sys.h, l, d, k);
      id >= 0 && id == PageOf(y.sys.h, l', d', k') ==>
        && sources[d] >= 0 && sources[d'] >= 0
        && id == PageOf(x.sys.h, l, sources[d], k) == PageOf(x.sys.h, l', sources[d'], k')
  {
    hide LifeInv;
    hide SwitchSys;
    hide SlotAt;
    SwitchedPage(x, sources, l, d, k);
    SwitchedPage(x, sources, l', d', k');
  }

  lemma StaysSole(x: Life, sources: seq<int>, l: nat, d: nat, k: nat)
    requires LifeInv(x) && CanSwitch(x, sources) && l < Geo(x).layers && d < |sources| && k < Geo(x).pages
    requires sources[d] >= 0 && Sole(x.sys.h.table, SlotAt(Geo(x), l, sources[d], k))
    requires PageOf(x.sys.h, l, sources[d], k) >= 0
    ensures var y := Switched(x, sources);
      Geo(y) == Geo(x).(rows := |sources|) && SysShape(y.sys) && Sole(y.sys.h.table, SlotAt(Geo(y), l, d, k))
  {
    hide LifeInv;
    hide SwitchSys;
    hide SlotAt;
    ShapeOf(x);
    SwitchedPage(x, sources, l, d, k);
    var y := Switched(x, sources);
    forall j | 0 <= j < |y.sys.h.table| && j != SlotAt(Geo(y), l, d, k)
      ensures y.sys.h.table[j] != y.sys.h.table[SlotAt(Geo(y), l, d, k)]
    {
      var l', d', k' := SlotOfIndex(Geo(y), j);
      SwitchedPage(x, sources, l', d', k');
      if sources[d'] >= 0 { SlotUnique(Geo(x), l, sources[d], k, l', sources[d'], k'); }
      if d' != d && sources[d'] >= 0 { assert sources[d'] != sources[d]; }
      assert PageOf(y.sys.h, l', d', k') != PageOf(y.sys.h, l, d, k);
    }
  }

  lemma SwitchedSlot(x: Life, sources: seq<int>, l: nat, d: nat, k: nat)
    requires LifeInv(x) && CanSwitch(x, sources) && l < Geo(x).layers && d < |sources| && k < Geo(x).pages
    requires SameIndex(x.sys.pool, SwitchSys(x.sys, sources).pool)
    requires |SwitchSys(x.sys, sources).pool.ref| == |x.sys.pool.ref|
    ensures var y := Switched(x, sources); LifeShape(y) && Geo(y) == Geo(x).(rows := |sources|) && SlotOk(y, l, d, k) && Covered(y, l, d, k)
  {
    hide SwitchSys;
    hide SlotAt;
    hide PoolOk;
    hide EntriesOk;
    hide PageHolds;
    hide Sole;
    SwitchedPage(x, sources, l, d, k);
    if sources[d] >= 0 {
      var r: nat := sources[d];
      assert SlotOk(x, l, r, k) && Covered(x, l, r, k);
      if PageOf(x.sys.h, l, r, k) >= 0 && x.rows[r].Live? && k >= x.rows[r].shared { StaysSole(x, sources, l, d, k); }
    }
  }

  /** A switch keeps everything the rows rely on. */
  lemma SwitchKeeps(x: Life, sources: seq<int>)
    requires LifeInv(x) && CanSwitch(x, sources)
    ensures var y := Switched(x, sources); LifeInv(y) && y.sys.status == Done && Geo(y) == Geo(x).(rows := |sources|)
  {
    hide SwitchSys;
    hide SlotAt;
    hide PoolOk;
    hide PageHolds;
    hide Sole;
    hide SlotOk;
    hide Covered;
    SwitchSysOk(x.sys, sources);
    var y := Switched(x, sources);
    forall l: nat, d: nat, k: nat | l < Geo(x).layers && d < |sources| && k < Geo(x).pages
      ensures LifeShape(y) && SlotOk(y, l, d, k) && Covered(y, l, d, k)
    {
      SwitchedSlot(x, sources, l, d, k);
    }
    forall d: nat | d < |sources| ensures ProgressOk(y, d) {
      if sources[d] >= 0 { assert ProgressOk(x, sources[d]); }
    }
    forall key | key in y.sys.pool.cache ensures EntryOk(y, key) { assert EntryOk(x, key); }
  }
}
