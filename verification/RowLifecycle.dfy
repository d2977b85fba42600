/** Main results about rows, over every run of admissions, prefill chunks, publications,
    batched decode steps, frees and geometry switches, with the pool running dry at any
    point. */
module RowLifecycle {
  import opened Arithmetic
  import opened Wrappers
  import opened PrefixKeys
  import opened KvModel
  import opened KvInvariant
  import opened KvOps
  import opened KvPages
  import opened KvRuns
  import opened RowLife
  import opened RowLifeSteps
  import opened RowLifeWrites
  import opened RowLifeCache
  import opened RowLifeAdmit
  import opened RowLifePublish
  import opened RowLifeRuns
  import opened RowLifeSwitch

  datatype Action =
    | Admit(row: nat, prompt: seq<int>, blocks: nat)  // attach `blocks` cached blocks, then prefill
    | PrepareRow(row: nat)
    | PrefillChunk(layer: nat, row: nat, end: nat)
    | PublishBlock(row: nat, block: nat)
    | DecodeStep(mask: seq<int>, tokens: seq<int>)
    | FreeRow(row: nat)
    | SwitchRows(sources: seq<int>)   // row d of the new geometry is row sources[d], or empty
    | ClearCache

  /** The next operation starts afresh, whatever the last one ended with. */
  function Settled(x: Life): Life { x.(sys := x.sys.(status := Done)) }

  function Positions(x: Life): seq<int> {
    seq(|x.rows|, (r: nat) requires r < |x.rows| => if x.rows[r].Live? then |x.rows[r].tokens| else 0)
  }

  /** All masked rows from r on write their token. */
  ghost function AdvanceRows(x: Life, mask: seq<int>, tokens: seq<int>, r: nat): (y: Life)
    requires LifeShape(x) && |mask| == |tokens| == |x.rows|
    requires forall i: nat :: r <= i < |x.rows| && mask[i] != 0 ==>
      CaughtUp(x, i) && SlotReady(x, i, |x.rows[i].tokens|, Geo(x).layers)
    ensures LifeShape(y) && y.sys == x.sys && |y.rows| == |x.rows|
    ensures forall i: nat :: i < |x.rows| && (i < r || mask[i] == 0) ==> y.rows[i] == x.rows[i]
    decreases |x.rows| - r
  {
    if r >= |x.rows| then x
    else if mask[r] == 0 then AdvanceRows(x, mask, tokens, r + 1)
    else
      var m := Advanced(x, r, tokens[r]);
      StillReady(x, m, mask, r);
      AdvanceRows(m, mask, tokens, r + 1)
  }

  lemma StillReady(x: Life, m: Life, mask: seq<int>, r: nat)
    requires LifeShape(x) && LifeShape(m) && m.sys == x.sys && |m.rows| == |x.rows| == |mask| && r < |x.rows|
    requires forall i :: 0 <= i < |x.rows| && i != r ==> m.rows[i] == x.rows[i]
    requires forall i: nat :: r <= i < |x.rows| && mask[i] != 0 ==>
      CaughtUp(x, i) && SlotReady(x, i, |x.rows[i].tokens|, Geo(x).layers)
    ensures forall i: nat :: r + 1 <= i < |x.rows| && mask[i] != 0 ==>
      CaughtUp(m, i) && SlotReady(m, i, |m.rows[i].tokens|, Geo(m).layers)
  {
    forall i: nat | r + 1 <= i < |x.rows| && mask[i] != 0
      ensures CaughtUp(m, i) && SlotReady(m, i, |m.rows[i].tokens|, Geo(m).layers)
    {
      assert CaughtUp(x, i) && SlotReady(x, i, |x.rows[i].tokens|, Geo(x).layers);
      forall l: nat | l < Geo(m).layers ensures MappedAt(m, l, i, |m.rows[i].tokens|) {
        assert MappedAt(x, l, i, |x.rows[i].tokens|);
      }
    }
  }

  // ---- what each action needs ----

  ghost predicate CanPrepare(x: Life, r: nat)
    requires LifeShape(x)
  {
    r < |x.rows| && x.rows[r].Live? && forall l :: 0 <= l < Geo(x).layers ==> x.rows[r].done[l] < |x.rows[r].tokens|
  }

  ghost predicate CanChunk(x: Life, l: nat, r: nat, end: nat)
    requires LifeShape(x)
  {
    r < |x.rows| && l < Geo(x).layers && x.rows[r].Live? && x.rows[r].done[l] < end <= |x.rows[r].tokens|
  }

  ghost predicate CanAdmit(x: Life, r: nat, prompt: seq<int>, n: nat)
    requires LifeShape(x)
  {
    r < |x.rows| && x.rows[r].Idle? && |prompt| <= MaxTokens(Geo(x)) && n <= Cacheable(prompt, Geo(x).block)
  }

  ghost predicate CanDecode(x: Life, mask: seq<int>, tokens: seq<int>)
    requires LifeShape(x)
  {
    && |mask| == |tokens| == |x.rows|
    && forall r: nat :: r < |x.rows| && mask[r] != 0 ==> CaughtUp(x, r)
  }

  function ChunkStep(x: Life, l: nat, r: nat, end: nat): Life
    requires LifeShape(x) && r < |x.rows| && x.rows[r].Live? && l < Geo(x).layers
  {
    x.(sys := StepChunk(x.sys, l, x.rows[r].done[l], end, OneRow(Geo(x).rows, r, 1)))
  }

  function DecodeSys(x: Life, mask: seq<int>): Life
    requires LifeShape(x) && |mask| == |x.rows|
  {
    x.(sys := StepDecode(x.sys, Positions(x), mask))
  }

  // ---- one action ----

  ghost function Next(x: Life, a: Action): Life
    requires LifeInv(x) && x.sys.status == Done && Geo(x).window > 0
  {
    ShapeOf(x);
    match a
    case Admit(r, prompt, n) =>
      if !CanAdmit(x, r, prompt, n) then x else
      CacheableFits(prompt, Geo(x).block, n);
      var y := Admitted(x, r, prompt, n);
      if y.Some? then y.value else x
    case PrepareRow(r) =>
      if !CanPrepare(x, r) then x else
      var n := |x.rows[r].tokens|;
      Settled(x.(sys := PrepareMasked(x.sys, OneRow(Geo(x).rows, r, n), OneRow(Geo(x).rows, r, 1))))
    case PrefillChunk(l, r, end) =>
      if !CanChunk(x, l, r, end) then x else
      ChunkKeeps(x, l, r, end);
      var y := ChunkStep(x, l, r, end);
      if y.sys.status != Done then Settled(y) else WrittenTo(y, l, r, end)
    case PublishBlock(r, k) =>
      if r < |x.rows| && Publishable(x, r, k) then Published(x, r, k) else x
    case DecodeStep(mask, tokens) =>
      if !CanDecode(x, mask, tokens) then x else
      DecodeSysKeeps(x, mask, tokens);
      var y := DecodeSys(x, mask);
      if y.sys.status != Done then Settled(y) else AdvanceRows(y, mask, tokens, 0)
    case FreeRow(r) =>
      if r < |x.rows| then Life(KvModel.FreeRow(x.sys, r), x.content, x.rows[r := Idle]) else x
    case SwitchRows(sources) => if CanSwitch(x, sources) then Switched(x, sources) else x
    case ClearCache => x.(sys := x.sys.(pool := KvModel.ClearCache(x.sys.pool)))
  }

  lemma CacheableFits(prompt: seq<int>, block: nat, n: nat)
    requires block >= 1 && n <= Cacheable(prompt, block)
    ensures n * block <= |prompt|
    ensures n > 0 ==> n * block < |prompt|
  {
    MulGrows(n, Cacheable(prompt, block), block);
  }

  lemma DecodeSysKeeps(x: Life, mask: seq<int>, tokens: seq<int>)
    requires LifeInv(x) && x.sys.status == Done && CanDecode(x, mask, tokens)
    ensures var y := DecodeSys(x, mask);
      && LifeInv(y)
      && (y.sys.status == Done ==> forall r: nat :: r < |x.rows| && mask[r] != 0 ==>
            CaughtUp(y, r) && SlotReady(y, r, |y.rows[r].tokens|, Geo(y).layers))
  {
    hide LifeInv;
    hide SlotReady;
    hide DecodeRows;
    ShapeOf(x);
    var positions := Positions(x);
    forall r: nat | r < |x.rows| && mask[r] != 0 ensures CaughtUp(x, r) && positions[r] == |x.rows[r].tokens| {}
    assert DecodeFits(x, positions, mask);
    DecodeRowsKeeps(x, positions, mask, 0);
    var y := DecodeSys(x, mask);
    ShapeOf(y);
    if y.sys.status == Done {
      forall r: nat | r < |x.rows| && mask[r] != 0
        ensures CaughtUp(y, r) && SlotReady(y, r, |y.rows[r].tokens|, Geo(y).layers)
      {
        assert CaughtUp(x, r);
      }
    }
  }

  lemma {:induction false} AdvanceRowsKeeps(x: Life, mask: seq<int>, tokens: seq<int>, r: nat)
    requires LifeInv(x) && |mask| == |tokens| == |x.rows|
    requires forall i: nat :: r <= i < |x.rows| && mask[i] != 0 ==>
      CaughtUp(x, i) && SlotReady(x, i, |x.rows[i].tokens|, Geo(x).layers)
    ensures LifeInv(AdvanceRows(x, mask, tokens, r))
    decreases |x.rows| - r
  {
    hide LifeInv;
    hide Advanced;
    hide SlotReady;
    ShapeOf(x);
    if r < |x.rows| {
      if mask[r] == 0 {
        AdvanceRowsKeeps(x, mask, tokens, r + 1);
      } else {
        var m := Advanced(x, r, tokens[r]);
        AdvanceKeeps(x, r, tokens[r]);
        StillReady(x, m, mask, r);
        AdvanceRowsKeeps(m, mask, tokens, r + 1);
      }
    }
  }

  /** Every action keeps the invariant, whether it succeeds or the pool runs dry half way. */
  lemma NextKeeps(x: Life, a: Action)
    requires LifeInv(x) && x.sys.status == Done && Geo(x).window > 0
    ensures var y := Next(x, a);
      LifeInv(y) && y.sys.status == Done && Geo(y) == if a.SwitchRows? then Geo(x).(rows := |y.rows|) else Geo(x)
  {
    hide LifeInv;
    ShapeOf(x);
    match a {
      case Admit(r, prompt, n) =>
        if CanAdmit(x, r, prompt, n) {
          CacheableFits(prompt, Geo(x).block, n);
          AdmitKeeps(x, r, prompt, n);
        }
      case PrepareRow(r) =>
        if CanPrepare(x, r) {
          PrepareKeeps(x, r);
          var n := |x.rows[r].tokens|;
          var y := x.(sys := PrepareMasked(x.sys, OneRow(Geo(x).rows, r, n), OneRow(Geo(x).rows, r, 1)));
          FailKeeps(y, Done);
        }
      case PrefillChunk(l, r, end) =>
        if CanChunk(x, l, r, end) {
          ChunkKeeps(x, l, r, end);
          var y := ChunkStep(x, l, r, end);
          if y.sys.status != Done { FailKeeps(y, Done); } else { WriteToKeeps(y, l, r, end); }
        }
      case PublishBlock(r, k) =>
        if r < |x.rows| && Publishable(x, r, k) { PublishKeeps(x, r, k); }
      case DecodeStep(mask, tokens) =>
        if CanDecode(x, mask, tokens) {
          DecodeSysKeeps(x, mask, tokens);
          var y := DecodeSys(x, mask);
          if y.sys.status != Done { FailKeeps(y, Done); } else { AdvanceRowsKeeps(y, mask, tokens, 0); }
        }
      case FreeRow(r) =>
        if r < |x.rows| { FreeKeeps(x, r); }
      case SwitchRows(sources) =>
        if CanSwitch(x, sources) { SwitchKeeps(x, sources); }
      case ClearCache => ClearKeeps(x);
    }
  }

  // ---- runs ----

  /** A handle with clean rows over a pool of n blocks. */
  function Fresh(g: Geometry, n: nat): Life
    requires GeometryOk(g)
  {
    Life(Sys(EmptyPool(n), BlankHandle(g), Done), map[], seq(g.rows, _ => Idle))
  }

  lemma FreshInv(g: Geometry, n: nat)
    requires GeometryOk(g)
    ensures LifeInv(Fresh(g, n))
  {
    hide Indexed;
    var x := Fresh(g, n);
    EmptyOk(n);
    KvRebind.NoNames(x.sys.h.table);
    assert SysOk(x.sys, multiset{}) by { EmptyIndexed(n); }
  }

  lemma EmptyIndexed(n: nat)
    ensures Indexed(EmptyPool(n))
  {
  }

  ghost function Reached(g: Geometry, n: nat, actions: seq<Action>): (x: Life)
    requires GeometryOk(g) && g.window > 0
    ensures LifeInv(x) && x.sys.status == Done && Geo(x) == g.(rows := |x.rows|)
  {
    if actions == [] then FreshInv(g, n); Fresh(g, n)
    else
      var before := Reached(g, n, actions[..|actions| - 1]);
      NextKeeps(before, actions[|actions| - 1]);
      Next(before, actions[|actions| - 1])
  }

  /** Window coverage and content, prefill: in every reachable state, a chunk that gets its
      pages leaves every position that any of its tokens attends mapped, and holding the
      entry that this row's own token prefix gives it, attached pages included. */
  lemma PrefillSeesItsOwnTokens(g: Geometry, n: nat, actions: seq<Action>, l: nat, r: nat, end: nat, pos: nat, u: nat)
    requires GeometryOk(g) && g.window > 0 && CanChunk(Reached(g, n, actions), l, r, end)
    requires ChunkStep(Reached(g, n, actions), l, r, end).sys.status == Done
    requires Reached(g, n, actions).rows[r].done[l] <= pos < end && Low(g, l, pos) <= u <= pos
    ensures var y := Next(Reached(g, n, actions), PrefillChunk(l, r, end));
      LifeShape(y) && y.rows[r].Live? && u < |y.rows[r].tokens| && Right(y, l, r, u)
  {
    hide LifeInv;
    hide Right;
    var x := Reached(g, n, actions);
    ShapeOf(x);
    ChunkKeeps(x, l, r, end);
    ChunkAttends(ChunkStep(x, l, r, end), l, r, end, pos, u);
  }

  /** The same for decode: each row of the batch finds its whole window mapped and its own. */
  lemma DecodeSeesItsOwnTokens(g: Geometry, n: nat, actions: seq<Action>, mask: seq<int>, tokens: seq<int>,
                               r: nat, l: nat, u: nat)
    requires GeometryOk(g) && g.window > 0 && CanDecode(Reached(g, n, actions), mask, tokens)
    requires DecodeSys(Reached(g, n, actions), mask).sys.status == Done
    requires r < |mask| && mask[r] != 0 && l < g.layers
    requires var pos := |Reached(g, n, actions).rows[r].tokens|; Low(g, l, pos) <= u <= pos
    ensures var x := Reached(g, n, actions);
      var y := Next(x, DecodeStep(mask, tokens));
      && LifeShape(y) && y.rows[r].Live? && y.rows[r].tokens == x.rows[r].tokens + [tokens[r]]
      && Right(y, l, r, u)
  {
    hide LifeInv;
    hide Right;
    hide Advanced;
    hide SlotReady;
    var x := Reached(g, n, actions);
    ShapeOf(x);
    DecodeSysKeeps(x, mask, tokens);
    var m := DecodeSys(x, mask);
    ShapeOf(m);
    AdvanceRowsKeeps(m, mask, tokens, 0);
    RowAdvances(m, mask, tokens, 0, r);
    DecodeAttends(m, r, tokens[r], l, u, AdvanceRows(m, mask, tokens, 0));
  }

  lemma {:induction false} RowAdvances(x: Life, mask: seq<int>, tokens: seq<int>, i: nat, r: nat)
    requires LifeShape(x) && |mask| == |tokens| == |x.rows| && i <= r < |x.rows| && mask[r] != 0
    requires forall j: nat :: i <= j < |x.rows| && mask[j] != 0 ==>
      CaughtUp(x, j) && SlotReady(x, j, |x.rows[j].tokens|, Geo(x).layers)
    ensures AdvanceRows(x, mask, tokens, i).rows[r] == Advanced(x, r, tokens[r]).rows[r]
    decreases |x.rows| - i
  {
    hide SlotReady;
    if i == r {
      StillReady(x, Advanced(x, r, tokens[r]), mask, r);
    } else if mask[i] == 0 {
      RowAdvances(x, mask, tokens, i + 1, r);
    } else {
      var m := Advanced(x, i, tokens[i]);
      StillReady(x, m, mask, i);
      RowAdvances(m, mask, tokens, i + 1, r);
      SameRowAdvance(x, m, r, tokens[r]);
    }
  }

  /** How a row advances depends on that row alone. */
  lemma SameRowAdvance(x: Life, m: Life, r: nat, token: int)
    requires LifeShape(x) && LifeShape(m) && m.sys == x.sys && |m.rows| == |x.rows| && r < |x.rows|
    requires m.rows[r] == x.rows[r] && CaughtUp(x, r) && CaughtUp(m, r)
    requires SlotReady(x, r, |x.rows[r].tokens|, Geo(x).layers) && SlotReady(m, r, |m.rows[r].tokens|, Geo(m).layers)
    ensures Advanced(m, r, token).rows[r] == Advanced(x, r, token).rows[r]
  {
    var a, b := Advanced(x, r, token).rows[r], Advanced(m, r, token).rows[r];
    assert a.shared == b.shared by { AdvanceShared(x, r, token); AdvanceShared(m, r, token); }
    assert |a.done| == |b.done| == Geo(x).layers;
    assert forall l: nat :: l < |a.done| ==> a.done[l] == b.done[l];
  }

  lemma AdvanceShared(x: Life, r: nat, token: int)
    requires LifeShape(x) && r < |x.rows| && CaughtUp(x, r)
    requires SlotReady(x, r, |x.rows[r].tokens|, Geo(x).layers)
    ensures Advanced(x, r, token).rows[r].shared == x.rows[r].shared
  {
    ReadyExtended(x, r, token);
  }

  /** Published pages stay what they are: in every reachable state, whatever a cache entry
      names is hashed with the entry's key and holds, offset by offset, the entries of the
      token chain that the key spells. */
  lemma CachedPagesSpellTheirKey(g: Geometry, n: nat, actions: seq<Action>, key: Key, l: nat, o: nat)
    requires GeometryOk(g) && g.window > 0 && l < g.layers && o < g.block
    requires key in Reached(g, n, actions).sys.pool.cache
    ensures var x := Reached(g, n, actions); var ids := x.sys.pool.cache[key];
      |ids| == g.layers && (ids[l] >= 0 ==>
        var from := |Spelled(key)| - g.block;
        && from >= 0 && x.sys.pool.hash[ids[l]] == Some(key)
        && Spot(ids[l], o) in x.content && x.content[Spot(ids[l], o)] == Kv(l, Spelled(key)[..from + o + 1]))
  {
    hide LifeInv;
    EntryContent(Reached(g, n, actions), key, l, o);
  }

  lemma EntryContent(x: Life, key: Key, l: nat, o: nat)
    requires LifeInv(x) && key in x.sys.pool.cache && l < Geo(x).layers && o < Geo(x).block
    ensures var ids := x.sys.pool.cache[key];
      |ids| == Geo(x).layers && (ids[l] >= 0 ==>
        var from := |Spelled(key)| - Geo(x).block;
        && from >= 0 && ids[l] < |x.sys.pool.hash| && x.sys.pool.hash[ids[l]] == Some(key)
        && Spot(ids[l], o) in x.content && x.content[Spot(ids[l], o)] == Kv(l, Spelled(key)[..from + o + 1]))
  {
    hide SlotsOk;
    hide ProgressOk;
    hide Counted;
    assert EntryOk(x, key);
    MulStep(Depth(key) - 1, Geo(x).block);
  }

  /** No reachable publication meets a page that carries another key. */
  lemma TwoHashesUnreachable(g: Geometry, n: nat, actions: seq<Action>, r: nat, k: nat)
    requires GeometryOk(g) && g.window > 0 && r < |Reached(g, n, actions).rows| && Publishable(Reached(g, n, actions), r, k)
    ensures var x := Reached(g, n, actions);
      Publish(x.sys, BlockKey(x, r, k), r, k).0.status == Done
  {
    hide LifeInv;
    var x := Reached(g, n, actions);
    ShapeOf(x);
    PublishKeeps(x, r, k);
  }
}
