/** Whole runs of rows: admission, chunked prefill, publishing, batched decode, freeing. */
module RowLifeRuns {
  import opened Arithmetic
  import opened Wrappers
  import opened PrefixKeys
  import opened KvModel
  import opened KvInvariant
  import opened KvOps
  import opened KvPages
  import opened KvFree
  import opened RowLife
  import opened RowLifeSteps
  import opened RowLifeWrites
  import opened RowLifeCache
  import opened RowLifeAdmit
  import opened RowLifePublish

  // ---- batched decode ----

  /** A row whose every layer has written every known token. */
  ghost predicate CaughtUp(x: Life, r: nat)
    requires LifeShape(x) && r < |x.rows|
  {
    x.rows[r].Live? && |x.rows[r].tokens| < MaxTokens(Geo(x)) &&
    forall l: nat :: l < Geo(x).layers ==> x.rows[r].done[l] == |x.rows[r].tokens|
  }

  ghost predicate DecodeFits(x: Life, positions: seq<int>, mask: seq<int>)
    requires LifeShape(x)
  {
    && |positions| == |mask| == |x.rows|
    && forall r: nat :: r < |x.rows| && mask[r] != 0 ==>
      CaughtUp(x, r) && positions[r] == |x.rows[r].tokens|
  }

  lemma RowPagesTrans(s: Sys, m: Sys, t: Sys, l: nat, r: nat)
    requires SysShape(s) && SysShape(m) && SysShape(t) && SameFrame(s, m) && SameFrame(m, t)
    requires OtherSlotsSame(s, m, l, r) && OtherPagesSame(m, t, r)
    ensures OtherPagesSame(s, t, r)
  {
    hide SlotAt;
  }

  lemma NothingChanged(s: Sys, r: nat)
    requires SysShape(s)
    ensures OtherPagesSame(s, s, r)
  {
  }

  lemma SameTablePages(s: Sys, t: Sys, r: nat)
    requires SysShape(s) && SysShape(t) && SameFrame(s, t) && s.h.table == t.h.table
    ensures OtherPagesSame(s, t, r)
  {
    hide SlotAt;
    forall l: nat, r': nat, k: nat | l < s.h.geo.layers && r' < s.h.geo.rows && k < s.h.geo.pages
      ensures PageOf(t.h, l, r', k) == PageOf(s.h, l, r', k)
    {}
  }

  lemma EvictBelowPages(s: Sys, others: multiset<int>, l: nat, r: nat, keepFrom: int)
    requires SysOk(s, others) && s.status == Done && l < s.h.geo.layers && r < s.h.geo.rows
    ensures OtherPagesSame(s, EvictBelow(s, l, r, keepFrom), r)
  {
    hide PoolOk;
    hide OtherPagesSame;
    if keepFrom > 0 && Sliding(s.h.geo, l) {
      var keep, from := Least(keepFrom, s.h.geo.pages), Evicted(s.h, l, r);
      var m := EvictLoop(s, l, r, from, keep);
      EvictLoopOk(s, others, l, r, from, keep);
      EvictPages(s, l, r, from, keep);
      SameTablePages(m, EvictBelow(s, l, r, keepFrom), r);
      RowPagesTrans(s, m, EvictBelow(s, l, r, keepFrom), l, r);
    } else {
      NothingChanged(s, r);
    }
  }

  lemma {:induction false} DecodeEvictPages(s: Sys, others: multiset<int>, r: nat, keep: int, l: nat)
    requires SysOk(s, others) && s.status == Done && r < s.h.geo.rows
    ensures var t := DecodeEvict(s, r, keep, l); OtherPagesSame(s, t, r) && SysOk(t, others) && t.status == Done
    decreases s.h.geo.layers - l
  {
    hide PoolOk;
    hide OtherPagesSame;
    hide EvictBelow;
    if l < s.h.geo.layers {
      var m := EvictBelow(s, l, r, keep);
      EvictBelowOk(s, others, l, r, keep);
      EvictBelowPages(s, others, l, r, keep);
      DecodeEvictPages(m, others, r, keep, l + 1);
      OtherPagesTrans(s, m, DecodeEvict(m, r, keep, l + 1), r);
    } else {
      NothingChanged(s, r);
    }
  }

  lemma {:induction false} DecodeEnsurePages(s: Sys, r: nat, blk: nat, l: nat)
    requires SysShape(s) && r < s.h.geo.rows
    ensures OtherPagesSame(s, DecodeEnsure(s, r, blk, l), r)
    decreases s.h.geo.layers - l
  {
    hide OtherPagesSame;
    hide OtherSlotsSame;
    hide EnsureLoop;
    if l < s.h.geo.layers && s.status == Done && blk + 1 <= s.h.geo.pages {
      var m := EnsureRow(s, l, r, blk, blk + 1);
      EnsurePages(s, l, r, blk, blk + 1);
      DecodeEnsurePages(m, r, blk, l + 1);
      RowPagesTrans(s, m, DecodeEnsure(m, r, blk, l + 1), l, r);
    } else if l < s.h.geo.layers && s.status == Done {
      var m := EnsureRow(s, l, r, blk, blk + 1);
      assert DecodeEnsure(m, r, blk, l + 1) == m;
      SameTablePages(s, m, r);
    } else {
      NothingChanged(s, r);
    }
  }

  lemma DecodeRowPages(s: Sys, others: multiset<int>, r: nat, pos: nat)
    requires SysOk(s, others) && s.status == Done && r < s.h.geo.rows
    ensures OtherPagesSame(s, DecodeRow(s, r, pos), r)
  {
    hide PoolOk;
    hide OtherPagesSame;
    hide DecodeEvict;
    hide DecodeEnsure;
    var g := s.h.geo;
    if g.window > 0 && pos >= g.window {
      var keep := (pos - g.window) / g.block;
      var m := DecodeEvict(s, r, keep, 0);
      DecodeEvictPages(s, others, r, keep, 0);
      DecodeEnsurePages(m, r, pos / g.block, 0);
      OtherPagesTrans(s, m, DecodeRow(s, r, pos), r);
    } else {
      DecodeEnsurePages(s, r, pos / g.block, 0);
    }
  }

  lemma ReadyStays(x: Life, y: Life, r: nat, r': nat, pos: nat)
    requires LifeShape(x) && LifeShape(y) && SameFrame(x.sys, y.sys) && |x.rows| == |y.rows|
    requires r < |x.rows| && r' < |x.rows| && r' != r && OtherPagesSame(x.sys, y.sys, r)
    requires SlotReady(x, r', pos, Geo(x).layers)
    ensures SlotReady(y, r', pos, Geo(x).layers)
  {
    hide SlotAt;
    forall l: nat | l < Geo(x).layers ensures MappedAt(y, l, r', pos) { assert MappedAt(x, l, r', pos); }
  }

  /** The masked rows below n have a page for their next token in every layer. */
  ghost predicate RowsReady(x: Life, positions: seq<int>, mask: seq<int>, n: nat)
    requires LifeShape(x) && DecodeFits(x, positions, mask) && n <= |x.rows|
  {
    forall r: nat :: r < n && mask[r] != 0 ==> SlotReady(x, r, positions[r], Geo(x).layers)
  }

  lemma StepOneRow(x: Life, positions: seq<int>, mask: seq<int>, r: nat)
    requires LifeInv(x) && x.sys.status == Done && DecodeFits(x, positions, mask) && r < |x.rows| && mask[r] != 0
    requires RowsReady(x, positions, mask, r)
    ensures var y := x.(sys := DecodeRow(SetLen(SetActive(x.sys, r, 1), r, positions[r]), r, positions[r]));
      && LifeInv(y) && DecodeFits(y, positions, mask)
      && (y.sys.status == Done ==> RowsReady(y, positions, mask, r + 1))
  {
    hide LifeInv;
    hide DecodeRow;
    hide SlotReady;
    hide OtherPagesSame;
    ShapeOf(x);
    var a := SetLen(SetActive(x.sys, r, 1), r, positions[r]);
    var m := x.(sys := a);
    MarksKeep(x, a.h);
    SysFromInv(m);
    assert CaughtUp(x, r);
    DecodeRowKeeps(m, r);
    var y := x.(sys := DecodeRow(a, r, positions[r]));
    ShapeOf(y);
    DecodeRowPages(a, multiset{}, r, positions[r]);
    SameTablePages(x.sys, a, r);
    OtherPagesTrans(x.sys, a, y.sys, r);
    FitsStays(x, y, positions, mask);
    if y.sys.status == Done {
      forall r': nat | r' < r && mask[r'] != 0 ensures SlotReady(y, r', positions[r'], Geo(y).layers) {
        ReadyStays(x, y, r, r', positions[r']);
      }
    }
  }

  lemma FitsStays(x: Life, y: Life, positions: seq<int>, mask: seq<int>)
    requires LifeShape(x) && LifeShape(y) && y.rows == x.rows && Geo(y) == Geo(x) && DecodeFits(x, positions, mask)
    ensures DecodeFits(y, positions, mask)
  {
    forall r: nat | r < |y.rows| && mask[r] != 0 ensures CaughtUp(y, r) { assert CaughtUp(x, r); }
  }

  lemma SysFromInv(x: Life)
    requires LifeInv(x)
    ensures SysOk(x.sys, multiset{}) && LifeShape(x)
  {
  }

  lemma {:induction false} DecodeRowsKeeps(x: Life, positions: seq<int>, mask: seq<int>, r: nat)
    requires LifeInv(x) && x.sys.status == Done && DecodeFits(x, positions, mask) && r <= |x.rows|
    requires RowsReady(x, positions, mask, r)
    requires forall i :: 0 <= i < |mask| && mask[i] != 0 ==> 0 <= positions[i]
    ensures var y := x.(sys := DecodeRows(x.sys, positions, mask, r));
      && LifeInv(y) && DecodeFits(y, positions, mask)
      && (y.sys.status == Done ==> RowsReady(y, positions, mask, |x.rows|))
    decreases |x.rows| - r
  {
    hide LifeInv;
    hide DecodeRow;
    hide SlotReady;
    ShapeOf(x);
    if r < |x.rows| {
      if mask[r] == 0 {
        var a := SetActive(x.sys, r, 0);
        MarksKeep(x, a.h);
        ReadyRows(x, x.(sys := a), positions, mask, r);
        DecodeRowsKeeps(x.(sys := a), positions, mask, r + 1);
      } else {
        var y := x.(sys := DecodeRow(SetLen(SetActive(x.sys, r, 1), r, positions[r]), r, positions[r]));
        StepOneRow(x, positions, mask, r);
        if y.sys.status == Done { DecodeRowsKeeps(y, positions, mask, r + 1); }
      }
    }
  }

  lemma ReadyRows(x: Life, y: Life, positions: seq<int>, mask: seq<int>, r: nat)
    requires LifeShape(x) && LifeShape(y) && y.rows == x.rows && Geo(y) == Geo(x) && y.sys.h.table == x.sys.h.table
    requires r < |x.rows| && DecodeFits(x, positions, mask) && RowsReady(x, positions, mask, r) && mask[r] == 0
    ensures DecodeFits(y, positions, mask) && RowsReady(y, positions, mask, r + 1)
  {
    FitsStays(x, y, positions, mask);
    forall r': nat | r' < r + 1 && mask[r'] != 0 ensures SlotReady(y, r', positions[r'], Geo(y).layers) {
      assert SlotReady(x, r', positions[r'], Geo(x).layers);
      forall l: nat | l < Geo(y).layers ensures MappedAt(y, l, r', positions[r']) {
        assert MappedAt(x, l, r', positions[r']);
      }
    }
  }

  // ---- writing the decoded token ----

  /** The row learns the token it is about to write. */
  function Extended(x: Life, r: nat, token: int): Life
    requires r < |x.rows| && x.rows[r].Live?
  {
    x.(rows := x.rows[r := x.rows[r].(tokens := x.rows[r].tokens + [token])])
  }

  lemma HoldsLonger(content: map<Spot, Kv>, block: nat, id: int, l: nat, tokens: seq<int>, more: seq<int>, k: nat, upto: nat)
    requires upto <= |tokens| && PageHolds(content, block, id, l, tokens, k, upto)
    ensures PageHolds(content, block, id, l, tokens + more, k, upto)
  {
    forall o: nat | o < block && k * block + o < upto
      ensures Spot(id, o) in content && content[Spot(id, o)] == Kv(l, (tokens + more)[..k * block + o + 1])
    {
      assert (tokens + more)[..k * block + o + 1] == tokens[..k * block + o + 1];
    }
  }

  lemma ExtendKeeps(x: Life, r: nat, token: int)
    requires LifeInv(x) && r < |x.rows| && x.rows[r].Live? && |x.rows[r].tokens| < MaxTokens(Geo(x))
    ensures LifeInv(Extended(x, r, token))
  {
    hide PoolOk;
    hide PageHolds;
    hide KeyOf;
    var y := Extended(x, r, token);
    var tokens, b := x.rows[r].tokens, Geo(x).block;
    forall l: nat, r': nat, k: nat | l < Geo(x).layers && r' < |x.rows| && k < Geo(x).pages
      ensures SlotOk(y, l, r', k) && Covered(y, l, r', k)
    {
      assert SlotOk(x, l, r', k) && Covered(x, l, r', k) && ProgressOk(x, r');
      if r' == r && PageOf(x.sys.h, l, r, k) >= 0 {
        HoldsLonger(x.content, b, PageOf(x.sys.h, l, r, k), l, tokens, [token], k, x.rows[r].done[l]);
        if (k + 1) * b <= |tokens| { KeyStays(tokens, token, b, k + 1); }
      }
    }
    forall key | key in y.sys.pool.cache ensures EntryOk(y, key) { assert EntryOk(x, key); }
    forall r': nat | r' < |y.rows| ensures ProgressOk(y, r') { assert ProgressOk(x, r'); }
  }

  lemma KeyStays(tokens: seq<int>, token: int, block: nat, n: nat)
    requires n * block <= |tokens|
    ensures KeyOf(tokens + [token], block, n) == KeyOf(tokens, block, n)
  {
    KeyOfPrefix(tokens + [token], block, n, |tokens|);
    assert (tokens + [token])[..|tokens|] == tokens;
  }

  /** All layers of a row write the token they have just learnt. */
  function WrittenLayers(x: Life, r: nat, pos: nat, l: nat): (y: Life)
    requires LifeShape(x) && r < |x.rows| && x.rows[r].Live? && |x.rows[r].tokens| == pos + 1
    requires SlotReady(x, r, pos, Geo(x).layers)
    requires forall k: nat :: l <= k < Geo(x).layers ==> x.rows[r].done[k] == pos
    ensures LifeShape(y) && y.sys == x.sys && |y.rows| == |x.rows|
    ensures forall r' :: 0 <= r' < |x.rows| && r' != r ==> y.rows[r'] == x.rows[r']
    ensures y.rows[r].Live? && y.rows[r].tokens == x.rows[r].tokens && y.rows[r].shared == x.rows[r].shared
    ensures forall k: nat :: l <= k < Geo(x).layers ==> y.rows[r].done[k] == pos + 1
    ensures forall k: nat :: k < l && k < Geo(x).layers ==> y.rows[r].done[k] == x.rows[r].done[k]
    decreases Geo(x).layers - l
  {
    if l >= Geo(x).layers then x else
    assert MappedAt(x, l, r, pos);
    var y := Written(x, l, r);
    assert forall k: nat :: k < Geo(x).layers ==> MappedAt(x, k, r, pos) && MappedAt(y, k, r, pos);
    WrittenLayers(y, r, pos, l + 1)
  }

  lemma {:induction false} WriteLayersKeep(x: Life, r: nat, pos: nat, l: nat)
    requires LifeInv(x) && r < |x.rows| && x.rows[r].Live? && |x.rows[r].tokens| == pos + 1
    requires SlotReady(x, r, pos, Geo(x).layers)
    requires forall k: nat :: l <= k < Geo(x).layers ==> x.rows[r].done[k] == pos
    ensures LifeInv(WrittenLayers(x, r, pos, l))
    decreases Geo(x).layers - l
  {
    hide LifeInv;
    ShapeOf(x);
    if l < Geo(x).layers {
      assert MappedAt(x, l, r, pos);
      var y := Written(x, l, r);
      assert forall k: nat :: k < Geo(x).layers ==> MappedAt(x, k, r, pos) && MappedAt(y, k, r, pos);
      WriteKeeps(x, l, r);
      WriteLayersKeep(y, r, pos, l + 1);
    }
  }

  lemma ReadyExtended(x: Life, r: nat, token: int)
    requires LifeShape(x) && r < |x.rows| && x.rows[r].Live?
    requires SlotReady(x, r, |x.rows[r].tokens|, Geo(x).layers)
    ensures var m := Extended(x, r, token); LifeShape(m) && SlotReady(m, r, |x.rows[r].tokens|, Geo(x).layers)
  {
    hide SlotAt;
    var m := Extended(x, r, token);
    forall l: nat | l < Geo(x).layers ensures MappedAt(m, l, r, |x.rows[r].tokens|) {
      assert MappedAt(x, l, r, |x.rows[r].tokens|);
    }
  }

  /** One decoded token of one row, after the step has mapped its page. */
  function Advanced(x: Life, r: nat, token: int): (y: Life)
    requires LifeShape(x) && r < |x.rows| && CaughtUp(x, r)
    requires SlotReady(x, r, |x.rows[r].tokens|, Geo(x).layers)
    ensures LifeShape(y) && y.sys == x.sys && |y.rows| == |x.rows|
    ensures forall r' :: 0 <= r' < |x.rows| && r' != r ==> y.rows[r'] == x.rows[r']
    ensures y.rows[r].Live? && y.rows[r].tokens == x.rows[r].tokens + [token]
    ensures forall l: nat :: l < Geo(x).layers ==> y.rows[r].done[l] == |x.rows[r].tokens| + 1
  {
    ReadyExtended(x, r, token);
    WrittenLayers(Extended(x, r, token), r, |x.rows[r].tokens|, 0)
  }

  lemma AdvanceKeeps(x: Life, r: nat, token: int)
    requires LifeInv(x) && r < |x.rows| && CaughtUp(x, r)
    requires SlotReady(x, r, |x.rows[r].tokens|, Geo(x).layers)
    ensures LifeInv(Advanced(x, r, token))
  {
    hide LifeInv;
    hide WrittenLayers;
    ShapeOf(x);
    hide SlotReady;
    ReadyExtended(x, r, token);
    ExtendKeeps(x, r, token);
    WriteLayersKeep(Extended(x, r, token), r, |x.rows[r].tokens|, 0);
  }

  /** Window coverage of decode: once the step has mapped its pages, the token at `pos`
      finds every position it attends on a mapped page, holding that row's own entry; and
      it still does after any other row of the batch has written. */
  lemma DecodeAttends(x: Life, r: nat, token: int, l: nat, u: nat, y: Life)
    requires LifeInv(x) && r < |x.rows| && CaughtUp(x, r) && l < Geo(x).layers
    requires SlotReady(x, r, |x.rows[r].tokens|, Geo(x).layers)
    requires Low(Geo(x), l, |x.rows[r].tokens|) <= u <= |x.rows[r].tokens|
    requires LifeInv(y) && y.sys == x.sys && |y.rows| == |x.rows| && y.rows[r] == Advanced(x, r, token).rows[r]
    ensures Right(y, l, r, u)
  {
    hide LifeInv;
    hide Advanced;
    ShapeOf(x);
    ShapeOf(y);
    var pos := |x.rows[r].tokens|;
    if u < pos { WindowIsMapped(x, l, r, pos, u); } else { assert MappedAt(x, l, r, pos); }
    assert MappedAt(y, l, r, u);
    MappedIsRight(y, l, r, u);
  }
}
