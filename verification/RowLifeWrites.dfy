/** What the device writes, and what it reads back when a token attends its window. */
module RowLifeWrites {
  import opened Arithmetic
  import opened Wrappers
  import opened PrefixKeys
  import opened KvModel
  import opened KvInvariant
  import opened KvOps
  import opened KvPages
  import opened RowLife
  import opened RowLifeSteps

  /** Token t of row r, layer l sits on a mapped page and is what the row computed for it. */
  ghost predicate Right(x: Life, l: nat, r: nat, t: nat)
    requires LifeShape(x) && l < Geo(x).layers && r < |x.rows| && x.rows[r].Live? && t < |x.rows[r].tokens|
  {
    && MappedAt(x, l, r, t)
    && var spot := Spot(PageOf(x.sys.h, l, r, t / Geo(x).block), t % Geo(x).block);
       spot in x.content && x.content[spot] == Kv(l, x.rows[r].tokens[..t + 1])
  }

  /** The page a token is written to carries no key and is named by no other slot. */
  ghost predicate Private(x: Life, l: nat, r: nat, t: nat)
    requires LifeShape(x) && l < Geo(x).layers && r < |x.rows| && MappedAt(x, l, r, t)
  {
    var k := t / Geo(x).block;
    x.sys.pool.hash[PageOf(x.sys.h, l, r, k)] == None && Sole(x.sys.h.table, SlotAt(Geo(x), l, r, k))
  }

  /** Layer l of row r writes its next token. */
  function Written(x: Life, l: nat, r: nat): Life
    requires LifeShape(x) && l < Geo(x).layers && r < |x.rows| && x.rows[r].Live?
    requires x.rows[r].done[l] < |x.rows[r].tokens| && MappedAt(x, l, r, x.rows[r].done[l])
  {
    var t, row := x.rows[r].done[l], x.rows[r];
    var spot := Spot(PageOf(x.sys.h, l, r, t / Geo(x).block), t % Geo(x).block);
    x.(content := x.content[spot := Kv(l, row.tokens[..t + 1])],
       rows := x.rows[r := row.(done := row.done[l := t + 1])])
  }

  /** Every write of a live row goes to a private page: never to a published one. */
  lemma WritesArePrivate(x: Life, l: nat, r: nat, t: nat)
    requires LifeInv(x) && l < Geo(x).layers && r < |x.rows| && x.rows[r].Live?
    requires t >= x.rows[r].done[l] && MappedAt(x, l, r, t)
    ensures t / Geo(x).block >= x.rows[r].shared && Private(x, l, r, t)
  {
    hide SysOk;
    hide EntriesOk;
    hide PageHolds;
    var row, b := x.rows[r], Geo(x).block;
    var k := t / b;
    assert ProgressOk(x, r);
    assert SlotOk(x, l, r, k);
    QuotientBounds(t, b);
    if k < row.shared {
      MulGrows(k + 1, row.shared, b);
      MulStep(k, b);
    }
  }

  lemma HoldsKept(content: map<Spot, Kv>, spot: Spot, kv: Kv, block: nat, id: int, l: nat, tokens: seq<int>, k: nat, upto: nat)
    requires upto <= |tokens| && PageHolds(content, block, id, l, tokens, k, upto) && spot.page != id
    ensures PageHolds(content[spot := kv], block, id, l, tokens, k, upto)
  {
  }

  /** One more token written elsewhere leaves what page k has to hold as it is. */
  lemma HoldsNext(content: map<Spot, Kv>, block: nat, id: int, l: nat, tokens: seq<int>, k: nat, t: nat)
    requires block > 0 && t < |tokens| && PageHolds(content, block, id, l, tokens, k, t) && k != t / block
    ensures PageHolds(content, block, id, l, tokens, k, t + 1)
  {
    forall o: nat | o < block && k * block + o < t + 1
      ensures Spot(id, o) in content && content[Spot(id, o)] == Kv(l, tokens[..k * block + o + 1])
    {
      NotIn(t, k, o, block);
    }
  }

  /** The token itself completes what its page has to hold. */
  lemma HoldsItself(content: map<Spot, Kv>, block: nat, id: int, l: nat, tokens: seq<int>, t: nat)
    requires block > 0 && t < |tokens| && PageHolds(content, block, id, l, tokens, t / block, t)
    ensures PageHolds(content[Spot(id, t % block) := Kv(l, tokens[..t + 1])], block, id, l, tokens, t / block, t + 1)
  {
    HoldsAt(content, block, id, l, tokens, t / block, t, t % block);
  }

  lemma HoldsAt(content: map<Spot, Kv>, block: nat, id: int, l: nat, tokens: seq<int>, k: nat, t: nat, o: nat)
    requires t == k * block + o && o < block && t < |tokens| && PageHolds(content, block, id, l, tokens, k, t)
    ensures PageHolds(content[Spot(id, o) := Kv(l, tokens[..t + 1])], block, id, l, tokens, k, t + 1)
  {
  }

  lemma NotIn(t: nat, k: nat, o: nat, block: nat)
    requires block > 0 && k != t / block && o < block
    ensures k * block + o != t
  {
    QuotientBounds(t, block);
    if k < t / block { MulApart(k, t / block, block); }
    if k > t / block { MulApart(t / block, k, block); }
  }

  /** A page other than the written one, or of another row or layer. */
  lemma WriteOther(x: Life, l: nat, r: nat, l': nat, r': nat, k': nat)
    requires LifeInv(x) && l < Geo(x).layers && r < |x.rows| && x.rows[r].Live?
    requires x.rows[r].done[l] < |x.rows[r].tokens| && MappedAt(x, l, r, x.rows[r].done[l])
    requires Private(x, l, r, x.rows[r].done[l])
    requires l' < Geo(x).layers && r' < |x.rows| && k' < Geo(x).pages
    requires l' != l || r' != r || k' != x.rows[r].done[l] / Geo(x).block
    ensures SlotOk(Written(x, l, r), l', r', k')
  {
    hide SysOk;
    hide EntriesOk;
    hide ProgressOk;
    hide PageHolds;
    hide KeyOf;
    hide SlotAt;
    var t, b, row := x.rows[r].done[l], Geo(x).block, x.rows[r];
    var id := PageOf(x.sys.h, l, r, t / b);
    var id' := PageOf(x.sys.h, l', r', k');
    SlotUnique(Geo(x), l, r, t / b, l', r', k');
    assert SlotOk(x, l', r', k');
    if id' >= 0 && x.rows[r'].Live? && x.rows[r'].done[l'] <= |x.rows[r'].tokens| {
      var tokens := x.rows[r'].tokens;
      HoldsKept(x.content, Spot(id, t % b), Kv(l, row.tokens[..t + 1]), b, id', l', tokens, k', x.rows[r'].done[l']);
      if l' == l && r' == r {
        HoldsNext(x.content[Spot(id, t % b) := Kv(l, row.tokens[..t + 1])], b, id', l, tokens, k', t);
      }
    }
  }

  lemma WriteIt(x: Life, l: nat, r: nat)
    requires LifeInv(x) && l < Geo(x).layers && r < |x.rows| && x.rows[r].Live?
    requires x.rows[r].done[l] < |x.rows[r].tokens| && MappedAt(x, l, r, x.rows[r].done[l])
    requires Private(x, l, r, x.rows[r].done[l])
    ensures SlotOk(Written(x, l, r), l, r, x.rows[r].done[l] / Geo(x).block)
  {
    hide SysOk;
    hide EntriesOk;
    hide ProgressOk;
    var t, b, tokens := x.rows[r].done[l], Geo(x).block, x.rows[r].tokens;
    var k := t / b;
    var y := Written(x, l, r);
    var id := PageOf(x.sys.h, l, r, k);
    assert SlotOk(x, l, r, k);
    HoldsItself(x.content, b, id, l, tokens, t);
  }

  lemma WriteEntries(x: Life, l: nat, r: nat)
    requires LifeInv(x) && l < Geo(x).layers && r < |x.rows| && x.rows[r].Live?
    requires x.rows[r].done[l] < |x.rows[r].tokens| && MappedAt(x, l, r, x.rows[r].done[l])
    requires Private(x, l, r, x.rows[r].done[l])
    ensures EntriesOk(Written(x, l, r))
  {
    hide ProgressOk;
    hide SlotsOk;
    hide Counted;
    var y := Written(x, l, r);
    forall key | key in y.sys.pool.cache ensures EntryOk(y, key) { assert EntryOk(x, key); }
  }

  lemma WriteCovers(x: Life, l: nat, r: nat)
    requires LifeInv(x) && l < Geo(x).layers && r < |x.rows| && x.rows[r].Live?
    requires x.rows[r].done[l] < |x.rows[r].tokens| && MappedAt(x, l, r, x.rows[r].done[l])
    ensures var y := Written(x, l, r);
      forall l': nat, r': nat, k': nat :: l' < Geo(x).layers && r' < |x.rows| && k' < Geo(x).pages ==>
        Covered(y, l', r', k')
    ensures forall r': nat :: r' < |x.rows| ==> ProgressOk(Written(x, l, r), r')
  {
    hide SysOk;
    hide EntriesOk;
    hide SlotOk;
    hide LowPage;
    var t, b := x.rows[r].done[l], Geo(x).block;
    var y := Written(x, l, r);
    LowPageMonotone(Geo(x), l, t, t + 1);
    forall l': nat, r': nat, k': nat | l' < Geo(x).layers && r' < |x.rows| && k' < Geo(x).pages
      ensures Covered(y, l', r', k')
    {
      assert Covered(x, l', r', k');
      if l' == l && r' == r && k' * b == t { DivExact(k', b); }
    }
    forall r': nat | r' < |x.rows| ensures ProgressOk(y, r') { assert ProgressOk(x, r'); }
  }

  lemma WriteKeeps(x: Life, l: nat, r: nat)
    requires LifeInv(x) && l < Geo(x).layers && r < |x.rows| && x.rows[r].Live?
    requires x.rows[r].done[l] < |x.rows[r].tokens| && MappedAt(x, l, r, x.rows[r].done[l])
    ensures LifeInv(Written(x, l, r))
  {
    hide SlotOk;
    hide Covered;
    hide EntryOk;
    hide ProgressOk;
    hide PoolOk;
    hide MappedAt;
    hide Private;
    WritesArePrivate(x, l, r, x.rows[r].done[l]);
    WriteEntries(x, l, r);
    WriteCovers(x, l, r);
    WriteIt(x, l, r);
    var y := Written(x, l, r);
    forall l': nat, r': nat, k': nat | l' < Geo(x).layers && r' < |x.rows| && k' < Geo(x).pages
      ensures SlotOk(y, l', r', k')
    {
      if l' != l || r' != r || k' != x.rows[r].done[l] / Geo(x).block { WriteOther(x, l, r, l', r', k'); }
    }
  }

  /** Layer l of row r writes tokens up to `end`. */
  function WrittenTo(x: Life, l: nat, r: nat, end: nat): (y: Life)
    requires LifeShape(x) && l < Geo(x).layers && r < |x.rows| && x.rows[r].Live?
    requires end <= |x.rows[r].tokens| && Mapped(x, l, r, x.rows[r].done[l], end)
    ensures LifeShape(y) && y.sys == x.sys && |y.rows| == |x.rows|
    ensures forall r' :: 0 <= r' < |x.rows| && r' != r ==> y.rows[r'] == x.rows[r']
    ensures y.rows[r].Live? && y.rows[r].tokens == x.rows[r].tokens && y.rows[r].shared == x.rows[r].shared
    ensures y.rows[r].done == x.rows[r].done[l := if x.rows[r].done[l] < end then end else x.rows[r].done[l]]
    decreases end - x.rows[r].done[l]
  {
    if x.rows[r].done[l] >= end then x else
    assert MappedAt(x, l, r, x.rows[r].done[l]);
    var y := Written(x, l, r);
    assert forall t: nat :: x.rows[r].done[l] < t < end ==> MappedAt(x, l, r, t) && MappedAt(y, l, r, t);
    WrittenTo(y, l, r, end)
  }

  lemma StillMapped(x: Life, l: nat, r: nat, end: nat)
    requires LifeShape(x) && l < Geo(x).layers && r < |x.rows| && x.rows[r].Live? && x.rows[r].done[l] < end
    requires x.rows[r].done[l] < |x.rows[r].tokens| && Mapped(x, l, r, x.rows[r].done[l], end)
    requires MappedAt(x, l, r, x.rows[r].done[l])
    ensures LifeShape(Written(x, l, r)) && Mapped(Written(x, l, r), l, r, x.rows[r].done[l] + 1, end)
  {
    hide SlotAt;
    var y := Written(x, l, r);
    forall t: nat | x.rows[r].done[l] < t < end ensures MappedAt(y, l, r, t) { assert MappedAt(x, l, r, t); }
  }

  lemma {:induction false} WriteToKeeps(x: Life, l: nat, r: nat, end: nat)
    requires LifeInv(x) && l < Geo(x).layers && r < |x.rows| && x.rows[r].Live?
    requires end <= |x.rows[r].tokens| && Mapped(x, l, r, x.rows[r].done[l], end)
    ensures LifeInv(WrittenTo(x, l, r, end))
    decreases end - x.rows[r].done[l]
  {
    hide LifeInv;
    ShapeOf(x);
    if x.rows[r].done[l] < end {
      assert MappedAt(x, l, r, x.rows[r].done[l]);
      StillMapped(x, l, r, end);
      WriteKeeps(x, l, r);
      WriteToKeeps(Written(x, l, r), l, r, end);
    }
  }

  // ---- reading ----

  lemma MappedIsRight(x: Life, l: nat, r: nat, t: nat)
    requires LifeInv(x) && l < Geo(x).layers && r < |x.rows| && x.rows[r].Live?
    requires t < x.rows[r].done[l] && MappedAt(x, l, r, t)
    ensures t < |x.rows[r].tokens| && Right(x, l, r, t)
  {
    hide SysOk;
    hide EntriesOk;
    var b := Geo(x).block;
    assert ProgressOk(x, r);
    assert SlotOk(x, l, r, t / b);
    QuotientBounds(t, b);
    assert t == (t / b) * b + t % b;
  }

  /** A written token that a query at `pos` attends is mapped, as long as the layer had
      written no further than pos when the pages were last dropped. */
  lemma WindowIsMapped(x: Life, l: nat, r: nat, pos: nat, u: nat)
    requires LifeInv(x) && l < Geo(x).layers && r < |x.rows| && x.rows[r].Live?
    requires x.rows[r].done[l] <= pos && Low(Geo(x), l, pos) <= u < x.rows[r].done[l]
    ensures MappedAt(x, l, r, u)
  {
    hide SysOk;
    hide EntriesOk;
    hide SlotOk;
    var g := Geo(x);
    assert ProgressOk(x, r);
    LowPageMonotone(g, l, x.rows[r].done[l], pos);
    DivGrows(Low(g, l, x.rows[r].done[l]), u, g.block);
    QuotientBounds(u, g.block);
    InContext(u, g.pages, g.block);
    assert Covered(x, l, r, u / g.block);
  }

  lemma InContext(t: nat, pages: nat, block: nat)
    requires block > 0 && t < pages * block
    ensures t / block < pages
  {
    QuotientBounds(t, block);
    if t / block >= pages { MulGrows(pages, t / block, block); }
  }

  /** Window coverage: after a layer has written tokens [start, end), every position that
      any of those tokens attends is on a mapped page and holds that row's own entry. */
  lemma ChunkAttends(x: Life, l: nat, r: nat, end: nat, pos: nat, u: nat)
    requires LifeInv(x) && l < Geo(x).layers && r < |x.rows| && x.rows[r].Live?
    requires x.rows[r].done[l] <= pos < end <= |x.rows[r].tokens| && Mapped(x, l, r, x.rows[r].done[l], end)
    requires Low(Geo(x), l, pos) <= u <= pos
    ensures Right(WrittenTo(x, l, r, end), l, r, u)
  {
    hide LifeInv;
    hide WrittenTo;
    ShapeOf(x);
    var y := WrittenTo(x, l, r, end);
    WriteToKeeps(x, l, r, end);
    if u < x.rows[r].done[l] { WindowIsMapped(x, l, r, pos, u); }
    assert MappedAt(x, l, r, u);
    MappedIsRight(y, l, r, u);
  }
}
