/** A geometry switch: the new handle's rows are the chosen rows of the source, page for
    page, and the invariant holds with both handles alive. */
module KvRebind {
  import opened Wrappers
  import opened PrefixKeys
  import opened KvModel
  import opened KvInvariant
  import opened KvOps
  import opened KvPages

  /** Layers below n of row d of the new handle are row r of the old one. */
  ghost predicate LayersCarried(t: Sys, h: Handle, d: nat, r: nat, n: nat)
    requires CanCarry(t, h) && d < t.h.geo.rows && r < h.geo.rows && n <= h.geo.layers
  {
    forall l: nat :: l < n ==>
      && Evicted(t.h, l, d) == Evicted(h, l, r)
      && forall k: nat :: k < h.geo.pages ==> PageOf(t.h, l, d, k) == PageOf(h, l, r, k)
  }

  ghost predicate RowBlank(t: Handle, d: nat)
    requires HandleShape(t) && d < t.geo.rows
  {
    forall l: nat :: l < t.geo.layers ==>
      Evicted(t, l, d) == 0 && forall k: nat :: k < t.geo.pages ==> PageOf(t, l, d, k) == -1
  }

  lemma {:induction false} CarryPagesFacts(s: Sys, h: Handle, d: nat, r: nat, l: nat, blk: nat)
    requires CanCarry(s, h) && d < s.h.geo.rows && r < h.geo.rows && l < h.geo.layers
    ensures var t := CarryPages(s, h, d, r, l, blk);
      && OtherSlotsSame(s, t, l, d) && t.h.evicted == s.h.evicted && t.status == s.status
      && (forall k: nat :: blk <= k < h.geo.pages ==> PageOf(t.h, l, d, k) == PageOf(h, l, r, k))
      && (forall k: nat :: k < blk && k < h.geo.pages ==> PageOf(t.h, l, d, k) == PageOf(s.h, l, d, k))
    decreases h.geo.pages - blk
  {
    if blk < h.geo.pages {
      var slot := h.table[SlotAt(h.geo, l, r, blk)];
      var i := SlotAt(s.h.geo, l, d, blk);
      var m := Put(s, if slot >= 0 then Retain(s.pool, slot) else s.pool, i, slot);
      CarryPagesFacts(m, h, d, r, l, blk + 1);
      forall l': nat, d': nat, k: nat |
        l' < s.h.geo.layers && d' < s.h.geo.rows && k < s.h.geo.pages && (l' != l || d' != d || k != blk)
        ensures PageOf(m.h, l', d', k) == PageOf(s.h, l', d', k)
      {
        SlotUnique(s.h.geo, l, d, blk, l', d', k);
      }
    }
  }

  ghost predicate OtherRowsSame(s: Sys, t: Sys, d: nat)
    requires SysShape(s) && SysShape(t) && SameFrame(s, t)
  {
    forall l: nat, d': nat :: l < s.h.geo.layers && d' < s.h.geo.rows && d' != d ==>
      && Evicted(t.h, l, d') == Evicted(s.h, l, d')
      && forall k: nat :: k < s.h.geo.pages ==> PageOf(t.h, l, d', k) == PageOf(s.h, l, d', k)
  }

  lemma SetEvictedFacts(s: Sys, l: nat, r: nat, n: nat)
    requires SysShape(s) && l < s.h.geo.layers && r < s.h.geo.rows && n <= s.h.geo.pages && s.status == Done
    ensures var t := SetEvicted(s, l, r, n);
      && Evicted(t.h, l, r) == n && t.h.table == s.h.table && t.h.lens == s.h.lens && t.h.active == s.h.active
      && (forall l': nat, r': nat :: l' < s.h.geo.layers && r' < s.h.geo.rows && (l' != l || r' != r) ==>
            Evicted(t.h, l', r') == Evicted(s.h, l', r'))
  {
    forall l': nat, r': nat | l' < s.h.geo.layers && r' < s.h.geo.rows && (l' != l || r' != r)
      ensures RowAt(s.h.geo, l', r') != RowAt(s.h.geo, l, r)
    {
      RowUnique(s.h.geo, l, r, l', r');
    }
  }

  /** Layers l and up of row d of the new handle are still empty. */
  ghost predicate BlankFrom(s: Sys, d: nat, l: nat)
    requires SysShape(s) && d < s.h.geo.rows
  {
    forall l': nat, k: nat :: l <= l' < s.h.geo.layers && k < s.h.geo.pages ==> PageOf(s.h, l', d, k) == -1
  }

  lemma CarryLayerOk(s: Sys, others: multiset<int>, h: Handle, d: nat, r: nat, l: nat)
    requires CanCarry(s, h) && d < s.h.geo.rows && r < h.geo.rows && l < h.geo.layers && s.status == Done
    requires SysOk(s, others) && BlankFrom(s, d, l)
    ensures var t := CarryPages(SetEvicted(s, l, d, Evicted(h, l, r)), h, d, r, l, 0);
      Kept(s, t, others) && t.status == Done
  {
    hide PoolOk;
    hide CarryPages;
    var m := SetEvicted(s, l, d, Evicted(h, l, r));
    SameTableOk(s, m, others);
    forall k: nat | k < h.geo.pages ensures m.h.table[SlotAt(m.h.geo, l, d, k)] == -1 {
      assert PageOf(s.h, l, d, k) == -1;
    }
    CarryPagesOk(m, others, h, d, r, l, 0);
  }

  lemma CarryLayer(s: Sys, h: Handle, d: nat, r: nat, l: nat)
    requires CanCarry(s, h) && d < s.h.geo.rows && r < h.geo.rows && l < h.geo.layers && s.status == Done
    requires BlankFrom(s, d, l) && LayersCarried(s, h, d, r, l)
    ensures var t := CarryPages(SetEvicted(s, l, d, Evicted(h, l, r)), h, d, r, l, 0);
      && BlankFrom(t, d, l + 1) && LayersCarried(t, h, d, r, l + 1)
      && OtherRowsSame(s, t, d) && t.h.lens == s.h.lens && t.h.active == s.h.active
  {
    hide CarryPages;
    hide SlotAt;
    hide RowAt;
    hide SetEvicted;
    var n := Evicted(h, l, r);
    var m := SetEvicted(s, l, d, n);
    SetEvictedFacts(s, l, d, n);
    CarryPagesFacts(m, h, d, r, l, 0);
    var t := CarryPages(m, h, d, r, l, 0);
    SamePages(s, m);
    forall l': nat, d': nat | l' < s.h.geo.layers && d' < s.h.geo.rows && (l' != l || d' != d)
      ensures Evicted(t.h, l', d') == Evicted(s.h, l', d')
      ensures forall k: nat :: k < s.h.geo.pages ==> PageOf(t.h, l', d', k) == PageOf(s.h, l', d', k)
    {
      SameMarks(m, t, l', d');
    }
    SameMarks(m, t, l, d);
  }

  lemma SamePages(s: Sys, t: Sys)
    requires SysShape(s) && SysShape(t) && s.h.geo == t.h.geo && s.h.table == t.h.table
    ensures forall l: nat, d: nat, k: nat :: l < s.h.geo.layers && d < s.h.geo.rows && k < s.h.geo.pages ==>
      PageOf(t.h, l, d, k) == PageOf(s.h, l, d, k)
  {
  }

  lemma SameMarks(s: Sys, t: Sys, l: nat, d: nat)
    requires SysShape(s) && SysShape(t) && s.h.geo == t.h.geo && s.h.evicted == t.h.evicted
    requires l < s.h.geo.layers && d < s.h.geo.rows
    ensures Evicted(t.h, l, d) == Evicted(s.h, l, d)
  {
  }

  lemma {:induction false} CarryLayersFacts(s: Sys, others: multiset<int>, h: Handle, d: nat, r: nat, l: nat)
    requires CanCarry(s, h) && d < s.h.geo.rows && r < h.geo.rows && l <= h.geo.layers && s.status == Done
    requires SysOk(s, others) && BlankFrom(s, d, l) && LayersCarried(s, h, d, r, l)
    ensures var t := CarryLayers(s, h, d, r, l);
      && Kept(s, t, others) && t.status == Done && LayersCarried(t, h, d, r, h.geo.layers)
      && OtherRowsSame(s, t, d) && t.h.lens == s.h.lens && t.h.active == s.h.active
    decreases h.geo.layers - l
  {
    hide PoolOk;
    hide CarryPages;
    hide LayersCarried;
    hide BlankFrom;
    if l < h.geo.layers {
      var t := CarryPages(SetEvicted(s, l, d, Evicted(h, l, r)), h, d, r, l, 0);
      CarryLayerOk(s, others, h, d, r, l);
      CarryLayer(s, h, d, r, l);
      CarryLayersFacts(t, others, h, d, r, l + 1);
    }
  }

  /** Row d of the new handle is what the switch asked for. */
  ghost predicate RowCarried(t: Sys, h: Handle, sources: seq<int>, d: nat)
    requires CanCarry(t, h) && |sources| == t.h.geo.rows && SourcesOk(h, sources) && d < |sources|
    requires |h.lens| == |h.active| == h.geo.rows
  {
    if sources[d] < 0 then RowBlank(t.h, d) && t.h.lens[d] == 0 && t.h.active[d] == 0
    else
      && LayersCarried(t, h, d, sources[d], h.geo.layers)
      && t.h.lens[d] == h.lens[sources[d]] && t.h.active[d] == h.active[sources[d]]
  }

  ghost predicate RowEmpty(s: Sys, d: nat)
    requires SysShape(s) && d < s.h.geo.rows
  {
    RowBlank(s.h, d) && s.h.lens[d] == 0 && s.h.active[d] == 0
  }

  lemma RowKept(s: Sys, t: Sys, h: Handle, sources: seq<int>, d: nat, e: nat)
    requires CanCarry(s, h) && CanCarry(t, h) && SameFrame(s, t)
    requires |sources| == s.h.geo.rows && SourcesOk(h, sources) && e < |sources| && d < |sources| && d != e
    requires OtherRowsSame(s, t, d) && t.h.lens[e] == s.h.lens[e] && t.h.active[e] == s.h.active[e]
    ensures RowCarried(s, h, sources, e) ==> RowCarried(t, h, sources, e)
    ensures RowEmpty(s, e) ==> RowEmpty(t, e)
  {
  }

  lemma CarryRow(s: Sys, others: multiset<int>, h: Handle, sources: seq<int>, d: nat)
    requires CanCarry(s, h) && |sources| == s.h.geo.rows && SourcesOk(h, sources) && SysOk(s, others)
    requires s.status == Done && d < |sources| && sources[d] >= 0 && RowEmpty(s, d)
    ensures var r := sources[d];
      var t := CarryLayers(SetActive(SetLen(s, d, h.lens[r]), d, h.active[r]), h, d, r, 0);
      && Kept(s, t, others) && t.status == Done && OtherRowsSame(s, t, d) && RowCarried(t, h, sources, d)
      && (forall e :: 0 <= e < |sources| && e != d ==> t.h.lens[e] == s.h.lens[e] && t.h.active[e] == s.h.active[e])
  {
    hide PoolOk;
    hide CarryLayers;
    var r := sources[d];
    var m := SetLen(s, d, h.lens[r]);
    var n := SetActive(m, d, h.active[r]);
    SetLenOk(s, others, d, h.lens[r]);
    SetActiveOk(m, others, d, h.active[r]);
    forall l: nat, k: nat | l < s.h.geo.layers && k < s.h.geo.pages ensures PageOf(n.h, l, d, k) == -1 {
      assert Evicted(s.h, l, d) == 0;
      assert PageOf(s.h, l, d, k) == -1;
    }
    CarryLayersFacts(n, others, h, d, r, 0);
  }

  lemma {:induction false} CarryRowsFacts(s: Sys, others: multiset<int>, h: Handle, sources: seq<int>, d: nat)
    requires CanCarry(s, h) && |sources| == s.h.geo.rows && SourcesOk(h, sources) && SysOk(s, others)
    requires s.status == Done && d <= |sources|
    requires forall e: nat :: d <= e < |sources| ==> RowEmpty(s, e)
    requires forall e: nat :: e < d ==> RowCarried(s, h, sources, e)
    ensures var t := CarryRows(s, h, sources, d);
      Kept(s, t, others) && t.status == Done && forall e: nat :: e < |sources| ==> RowCarried(t, h, sources, e)
    decreases |sources| - d
  {
    hide PoolOk;
    hide CarryLayers;
    hide OtherRowsSame;
    hide RowBlank;
    hide LayersCarried;
    if d < |sources| {
      if sources[d] < 0 {
        assert RowEmpty(s, d);
        CarryRowsFacts(s, others, h, sources, d + 1);
      } else {
        var r := sources[d];
        var t := CarryLayers(SetActive(SetLen(s, d, h.lens[r]), d, h.active[r]), h, d, r, 0);
        CarryRow(s, others, h, sources, d);
        forall e: nat | e < |sources| && e != d
          ensures RowCarried(s, h, sources, e) ==> RowCarried(t, h, sources, e)
          ensures RowEmpty(s, e) ==> RowEmpty(t, e)
        {
          RowKept(s, t, h, sources, d, e);
        }
        CarryRowsFacts(t, others, h, sources, d + 1);
      }
    }
  }

  /** A geometry switch is the identity on every row it carries over: same page in every
      slot, same eviction mark, length and flag; the other rows of the new handle are
      empty; and every count grows by exactly the slots that now name it too. */
  lemma RebindIsIdentity(s: Sys, others: multiset<int>, sources: seq<int>)
    requires SysOk(s, others) && |sources| >= 1 && SourcesOk(s.h, sources)
    ensures Rebind(s, sources).Ok?
    ensures var t := Rebind(s, sources).value;
      && t.status == Done && SysOk(t, others + multiset(s.h.table))
      && CanCarry(t, s.h) && forall d: nat :: d < |sources| ==> RowCarried(t, s.h, sources, d)
  {
    hide PoolOk;
    hide CarryRows;
    var blank := Sys(s.pool, BlankHandle(s.h.geo.(rows := |sources|)), Done);
    BlankOk(s, others, blank);
    forall e: nat | e < |sources| ensures RowEmpty(blank, e) {}
    CarryRowsFacts(blank, others + multiset(s.h.table), s.h, sources, 0);
  }

  lemma {:induction false} NoNames(table: seq<int>)
    requires forall i :: 0 <= i < |table| ==> table[i] == -1
    ensures forall b: int :: b >= 0 ==> multiset(table)[b] == 0
  {
    forall b: int | b >= 0 ensures multiset(table)[b] == 0 {
      assert b !in table;
    }
  }

  lemma BlankOk(s: Sys, others: multiset<int>, blank: Sys)
    requires SysOk(s, others) && HandleShape(blank.h) && blank.pool == s.pool
    requires forall i :: 0 <= i < |blank.h.table| ==> blank.h.table[i] == -1
    ensures SysOk(blank, others + multiset(s.h.table))
  {
    hide Indexed;
    NoNames(blank.h.table);
  }
}
