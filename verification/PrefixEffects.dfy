/** What attaching and publishing do to every page and every cached block (kv/cache.cpp). */
module PrefixEffects {
  import opened Arithmetic
  import opened Wrappers
  import opened PrefixKeys
  import opened KvModel
  import opened KvOps
  import opened KvPages
  import opened KvEffects

  // ---- attaching ----

  /** Marks, lengths, flags, cache and hashes are as before. */
  ghost predicate OnlyPages(s: Sys, t: Sys) {
    && SameShape(s, t) && t.h == s.h.(table := t.h.table)
    && t.pool.hash == s.pool.hash && t.pool.cache == s.pool.cache
  }

  lemma AttachSlotEffect(s: Sys, l: nat, r: nat, k: nat, id: int)
    requires SysShape(s) && l < s.h.geo.layers && r < s.h.geo.rows && k < s.h.geo.pages && -1 <= id < |s.pool.ref|
    requires s.status == Done && AttachSlot(s, SlotAt(s.h.geo, l, r, k), id).status == Done
    ensures var t := AttachSlot(s, SlotAt(s.h.geo, l, r, k), id);
      && OnlyPages(s, t) && PageOf(t.h, l, r, k) == (if id >= 0 then id else PageOf(s.h, l, r, k))
      && forall l': nat, r': nat, k': nat ::
           l' < s.h.geo.layers && r' < s.h.geo.rows && k' < s.h.geo.pages && (l' != l || r' != r || k' != k) ==>
             PageOf(t.h, l', r', k') == PageOf(s.h, l', r', k')
  {
    var i := SlotAt(s.h.geo, l, r, k);
    if id >= 0 && s.h.table[i] != id {
      DropSlotPages(s, l, r, k);
      var m := DropSlot(s, i);
      PutPages(m, Retain(m.pool, id), l, r, k, id);
    }
  }

  ghost predicate ColumnAttached(s: Sys, t: Sys, ids: seq<int>, r: nat, blk: nat, from: nat)
    requires SameShape(s, t) && |ids| == s.h.geo.layers
  {
    forall l: nat, r': nat, k: nat :: l < s.h.geo.layers && r' < s.h.geo.rows && k < s.h.geo.pages ==>
      PageOf(t.h, l, r', k) ==
      if r' == r && k == blk && l >= from && ids[l] >= 0 then ids[l] else PageOf(s.h, l, r', k)
  }

  lemma {:induction false} AttachLayersEffect(s: Sys, ids: seq<int>, r: nat, blk: nat, l: nat)
    requires SysShape(s) && |ids| == s.h.geo.layers && r < s.h.geo.rows && blk < s.h.geo.pages
    requires forall k :: 0 <= k < |ids| ==> -1 <= ids[k] < |s.pool.ref|
    requires s.status == Done && AttachLayers(s, ids, r, blk, l).status == Done
    ensures var t := AttachLayers(s, ids, r, blk, l); OnlyPages(s, t) && ColumnAttached(s, t, ids, r, blk, l)
    decreases |ids| - l
  {
    hide AttachSlot;
    hide SlotAt;
    if l < |ids| {
      var m := AttachSlot(s, SlotAt(s.h.geo, l, r, blk), ids[l]);
      assert m.status == Done;
      AttachSlotEffect(s, l, r, blk, ids[l]);
      AttachLayersEffect(m, ids, r, blk, l + 1);
    }
  }

  predicate For(a: Attachment, r: nat, k: nat) { a.row == r && a.block == k }

  /** Page k of row r in layer l: the cached page of the item that names it, if there is an
      item from `from` on and the layer keeps a page; as before otherwise. */
  ghost predicate PageAttached(s: Sys, t: Sys, items: seq<Attachment>, entries: seq<seq<int>>, from: nat, l: nat, r: nat, k: nat)
    requires SameShape(s, t) && EntriesFit(s, items, entries)
    requires l < s.h.geo.layers && r < s.h.geo.rows && k < s.h.geo.pages
  {
    && (forall j :: from <= j < |items| && For(items[j], r, k) && EntryFits(s, items[j], entries[j]) ==>
          PageOf(t.h, l, r, k) == if entries[j][l] >= 0 then entries[j][l] else PageOf(s.h, l, r, k))
    && ((forall j :: from <= j < |items| ==> !For(items[j], r, k)) ==> PageOf(t.h, l, r, k) == PageOf(s.h, l, r, k))
  }

  ghost predicate ItemsAttached(s: Sys, t: Sys, items: seq<Attachment>, entries: seq<seq<int>>, from: nat)
    requires SameShape(s, t) && EntriesFit(s, items, entries)
  {
    forall l: nat, r: nat, k: nat :: l < s.h.geo.layers && r < s.h.geo.rows && k < s.h.geo.pages ==>
      PageAttached(s, t, items, entries, from, l, r, k)
  }

  ghost predicate Distinct(items: seq<Attachment>) {
    forall i, j :: 0 <= i < j < |items| ==> items[i].row != items[j].row || items[i].block != items[j].block
  }

  lemma {:induction false} AttachItemsEffect(s: Sys, items: seq<Attachment>, entries: seq<seq<int>>, i: nat)
    requires SysShape(s) && EntriesFit(s, items, entries) && Distinct(items)
    requires s.status == Done && AttachItems(s, items, entries, i).status == Done
    ensures var t := AttachItems(s, items, entries, i); OnlyPages(s, t) && ItemsAttached(s, t, items, entries, i)
    decreases |items| - i
  {
    hide AttachLayers;
    hide SlotAt;
    hide PageOf;
    if i < |items| {
      assert EntryFits(s, items[i], entries[i]);
      var r, k := items[i].row, items[i].block;
      var m := AttachLayers(s, entries[i], r, k, 0);
      assert m.status == Done;
      AttachLayersEffect(s, entries[i], r, k, 0);
      FitsStill(s, m, items, entries);
      AttachItemsEffect(m, items, entries, i + 1);
      var t := AttachItems(m, items, entries, i + 1);
      forall l': nat, r': nat, k': nat | l' < s.h.geo.layers && r' < s.h.geo.rows && k' < s.h.geo.pages
        ensures PageAttached(s, t, items, entries, i, l', r', k')
      {
        OneItem(s, m, t, items, entries, i, l', r', k');
      }
    }
  }

  lemma FitsStill(s: Sys, m: Sys, items: seq<Attachment>, entries: seq<seq<int>>)
    requires SameShape(s, m) && EntriesFit(s, items, entries)
    ensures EntriesFit(m, items, entries)
  {
    forall j | 0 <= j < |items| ensures EntryFits(m, items[j], entries[j]) { assert EntryFits(s, items[j], entries[j]); }
  }

  lemma OneItem(s: Sys, m: Sys, t: Sys, items: seq<Attachment>, entries: seq<seq<int>>, i: nat, l: nat, r: nat, k: nat)
    requires SameShape(s, m) && SameShape(m, t) && EntriesFit(s, items, entries) && EntriesFit(m, items, entries)
    requires i < |items| && Distinct(items) && EntryFits(s, items[i], entries[i])
    requires l < s.h.geo.layers && r < s.h.geo.rows && k < s.h.geo.pages
    requires ColumnAttached(s, m, entries[i], items[i].row, items[i].block, 0)
    requires PageAttached(m, t, items, entries, i + 1, l, r, k)
    ensures PageAttached(s, t, items, entries, i, l, r, k)
  {
    hide SlotAt;
    hide PageOf;
    forall j | i <= j < |items| && For(items[j], r, k) && EntryFits(s, items[j], entries[j])
      ensures PageOf(t.h, l, r, k) == if entries[j][l] >= 0 then entries[j][l] else PageOf(s.h, l, r, k)
    {
      if j == i {
        forall j' | i + 1 <= j' < |items| ensures !For(items[j'], r, k) {}
      } else {
        assert EntryFits(m, items[j], entries[j]);
      }
    }
  }

  /** prefix_attach_batch, when it goes through: it attaches exactly if every item can be and
      none repeats, and then every page is the cached one or as it was; otherwise nothing
      changes. */
  lemma AttachEffect(s: Sys, items: seq<Attachment>)
    requires SysShape(s) && AttachBatch(s, items).0.status == Done
    ensures var (t, attached) := AttachBatch(s, items);
      && (attached <==> items != [] && forall j :: 0 <= j < |items| ==> Accepted(s.pool, s.h.geo, items[j]) && !Repeats(items, j))
      && (!attached ==> t == s)
      && (attached ==>
            && (forall j :: 0 <= j < |items| ==> items[j].key in s.pool.cache)
            && EntriesFit(s, items, Entries(s.pool, items)) && OnlyPages(s, t)
            && ItemsAttached(s, t, items, Entries(s.pool, items), 0))
  {
    hide AttachItems;
    hide OnlyPages;
    hide ItemsAttached;
    var (t, attached) := AttachBatch(s, items);
    if attached {
      hide Lookup;
      assert Distinct(items) by {
        forall i, j | 0 <= i < j < |items| && items[i].row == items[j].row && items[i].block == items[j].block ensures false {
          assert Repeats(items, j);
        }
      }
      assert t == AttachItems(s, items, Entries(s.pool, items), 0);
      AttachItemsEffect(s, items, Entries(s.pool, items), 0);
    }
  }

  // ---- publishing ----

  /** No page of the column is hashed with another key. */
  predicate Unclaimed(p: Pool, ids: seq<int>, key: Key)
    requires forall l :: 0 <= l < |ids| ==> ids[l] < |p.hash|
  {
    forall l :: 0 <= l < |ids| && ids[l] >= 0 ==> p.hash[ids[l]] == None || p.hash[ids[l]] == Some(key)
  }

  /** prefix_publish of a block in the table: it enters the cache exactly if the key is new
      and some layer keeps a page. Then its pages carry the key and nothing else changes. */
  lemma PublishEffect(s: Sys, key: Key, row: nat, blk: nat)
    requires SysShape(s) && s.status == Done && row < s.h.geo.rows && blk < s.h.geo.pages
    ensures var (t, published) := Publish(s, key, row, blk); var ids := Column(s.h, row, blk);
      && (published <==> key !in s.pool.cache && AnyPage(ids) && Unclaimed(s.pool, ids, key))
      && (t.status == (if key in s.pool.cache || Unclaimed(s.pool, ids, key) then Done else TwoHashes))
      && t.h == s.h && (!published ==> t.pool == s.pool)
      && (published ==>
            && t.pool == s.pool.(cache := s.pool.cache[key := ids], hash := t.pool.hash)
            && forall b: nat :: b < |s.pool.ref| ==>
                 t.pool.hash[b] == if (b as int) in ids then Some(key) else s.pool.hash[b])
  {
    hide Mark;
    var ids := Column(s.h, row, blk);
    MarkFacts(s.pool.hash, ids, key, 0);
  }

  /** What has been published can be attached, to any place of any row: for every layer it
      holds the page, or the layer slides and the place is one whose page it may do without. */
  lemma PublishedAttaches(s: Sys, key: Key, row: nat, blk: nat, a: Attachment)
    requires SysShape(s) && s.status == Done && row < s.h.geo.rows && blk < s.h.geo.pages
    requires Publish(s, key, row, blk).1 && a.key == key && InTable(s.h.geo, a.row, a.block)
    ensures var t := Publish(s, key, row, blk).0;
      Accepted(t.pool, t.h.geo, a) <==>
      forall l: nat :: l < s.h.geo.layers ==>
        PageOf(s.h, l, row, blk) >= 0 || (Sliding(s.h.geo, l) && a.block < ClampPages(s.h.geo, a.requiredFrom))
  {
    hide Publish;
    hide Sliding;
    PublishEffect(s, key, row, blk);
    var t := Publish(s, key, row, blk).0;
    var ids := Column(s.h, row, blk);
    forall l: nat | l < s.h.geo.layers
      ensures ids[l] == PageOf(s.h, l, row, blk) && (ids[l] >= 0 ==> t.pool.hash[ids[l]].Some?)
    {
      if ids[l] >= 0 { assert ids[l] in ids; }
    }
  }
}
