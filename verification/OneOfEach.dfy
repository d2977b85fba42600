/** The schedule runs every task once: no two of its nodes carry the same instruction, except
    for claimers and barriers. */
module OneOfEach {
  import opened Wrappers
  import opened Machine
  import opened Schedule
  import opened LayerArrivals
  import opened DecodePlan
  import opened DecodeSupply
  import opened DecodeShape
  import opened DecodeInsts
  import opened Producers

  ghost predicate Once(w: seq<Inst>) {
    forall i, j :: 0 <= i < j < |w| && Real(w[i]) ==> w[i] != w[j]
  }

  /** Every layer builds at most one wave of each kind, in the order of these numbers. */
  function Kind(x: Inst): nat {
    match x
    case QkvProj(_, _, _, _, _, _) => 0
    case RouterGemm(_, _, _, _, _, _) => 1
    case RouterTopk(_, _, _) => 2
    case RouteFinalize(_) => 3
    case MoeGather(_, _) => 4
    case FfnUpgate(_, _, _, _, _) => 5
    case AttnDecode(_, _, _, _, _, _, _) => 6
    case AttnCombine(_, _, _, _, _, _, _) => 7
    case MoeUpTask(_, _, _, _, _) => 8
    case MoeDownTask(_, _, _, _, _) => 9
    case MoeCombine(_, _) => 10
    case FfnDown(_, _, _, _, _, _) => 11
    case OProj(_, _, _, _, _, _) => 12
    case AddRmsNorm(_, _, _, _, _) => 13
    case _ => 14
  }

  function Rank(s: Shape, x: Inst): nat { LayerOf(s, x) * 16 + Kind(x) }

  /** Each task once, and all of them of ranks in [lo, hi). */
  ghost predicate Neat(s: Shape, w: seq<Inst>, lo: nat, hi: nat) {
    Once(w) && forall x :: x in w && Real(x) ==> lo <= Rank(s, x) < hi
  }

  ghost predicate NeatWaves(s: Shape, env: Env, waves: Waves, lo: nat, hi: nat)
    requires ShapeOk(s) && EnvOk(s, env)
  {
    Neat(s, Flat(s, env, waves), lo, hi)
  }

  lemma OnceConcat(a: seq<Inst>, b: seq<Inst>)
    requires Once(a) && Once(b) && forall x :: x in a && Real(x) ==> x !in b
    ensures Once(a + b)
  {
    forall i, j | 0 <= i < j < |a + b| && Real((a + b)[i]) ensures (a + b)[i] != (a + b)[j] {
      if i < |a| <= j { assert a[i] in a && b[j - |a|] in b; }
    }
  }

  lemma NeatConcat(s: Shape, a: seq<Inst>, b: seq<Inst>, lo: nat, mid: nat, hi: nat)
    requires Neat(s, a, lo, mid) && Neat(s, b, mid, hi) && lo <= mid <= hi
    ensures Neat(s, a + b, lo, hi)
  {
    hide Once;
    hide Rank;
    OnceConcat(a, b);
  }

  lemma {:induction false} FlatConcat(s: Shape, env: Env, a: Waves, b: Waves)
    requires ShapeOk(s) && EnvOk(s, env)
    ensures Flat(s, env, a + b) == Flat(s, env, a) + Flat(s, env, b)
  {
    hide Expanded;
    if b == [] {
      assert a + b == a;
    } else {
      var n := |b| - 1;
      FlatConcat(s, env, a, b[..n]);
      assert (a + b)[..|a + b| - 1] == a + b[..n];
    }
  }

  lemma NeatJoin(s: Shape, env: Env, a: Waves, b: Waves, lo: nat, mid: nat, hi: nat)
    requires ShapeOk(s) && EnvOk(s, env) && lo <= mid <= hi
    requires NeatWaves(s, env, a, lo, mid) && NeatWaves(s, env, b, mid, hi)
    ensures NeatWaves(s, env, a + b, lo, hi)
  {
    hide Neat;
    hide Flat;
    FlatConcat(s, env, a, b);
    NeatConcat(s, Flat(s, env, a), Flat(s, env, b), lo, mid, hi);
  }

  lemma NeatMore(s: Shape, env: Env, a: Waves, w: seq<Inst>, lo: nat, mid: nat, hi: nat)
    requires ShapeOk(s) && EnvOk(s, env) && lo <= mid <= hi
    requires NeatWaves(s, env, a, lo, mid) && Neat(s, Expanded(s, env, w), mid, hi)
    ensures NeatWaves(s, env, a + [w], lo, hi)
  {
    hide Neat;
    hide Expanded;
    assert (a + [w])[..|a|] == a;
    NeatConcat(s, Flat(s, env, a), Expanded(s, env, w), lo, mid, hi);
  }

  // ---- single waves ----

  /** A wave without claimers, all of one kind. */
  lemma NeatPlain(s: Shape, env: Env, w: seq<Inst>, k: nat)
    requires ShapeOk(s) && EnvOk(s, env) && PlainWave(w) && Once(w) && forall x :: x in w ==> Rank(s, x) == k
    ensures Neat(s, Expanded(s, env, w), k, k + 1)
  {
    hide Rank;
    hide Once;
    PlainDrainsNothing(w);
    assert Expanded(s, env, w) == w;
  }

  /** The claimers of a queue, and then its entries. */
  lemma NeatDrain(s: Shape, env: Env, w: seq<Inst>, q: QueueId, k: nat)
    requires ShapeOk(s) && EnvOk(s, env) && DrainedBy(w) == Some(q) && forall x :: x in w ==> !Real(x)
    requires var t := QueueTasks(s, env, q); Once(t) && forall x :: x in t ==> Rank(s, x) == k
    ensures Neat(s, Expanded(s, env, w), k, k + 1)
  {
    hide Rank;
    hide QueueTasks;
    hide DrainedBy;
    forall i | 0 <= i < |w| ensures !Real(w[i]) { assert w[i] in w; }
    OnceConcat(w, QueueTasks(s, env, q));
  }

  lemma {:induction false} GridOnce(rows: nat, cols: nat, f: (nat, nat) -> Inst)
    requires forall i: nat, j: nat, i': nat, j': nat ::
      i < rows && j < cols && i' < rows && j' < cols && f(i, j) == f(i', j') ==> i == i' && j == j'
    ensures Once(Grid(rows, cols, f))
  {
    if rows > 0 {
      var last := seq(cols, (j: nat) => f(rows - 1, j));
      GridOnce(rows - 1, cols, f);
      assert Once(last);
      forall x | x in Grid(rows - 1, cols, f) ensures x !in last {
        var i, j := GridElement(rows - 1, cols, f, x);
      }
      OnceConcat(Grid(rows - 1, cols, f), last);
    }
  }

  lemma NeatRows(s: Shape, env: Env, l: nat)
    requires ShapeOk(s) && EnvOk(s, env) && l < s.layers
    ensures Neat(s, Expanded(s, env, TopkWave(s, l)), l * 16 + 2, l * 16 + 3)
    ensures Neat(s, Expanded(s, env, [RouteFinalize(l)]), l * 16 + 3, l * 16 + 4)
    ensures Neat(s, Expanded(s, env, GatherWave(s, l)), l * 16 + 4, l * 16 + 5)
    ensures Neat(s, Expanded(s, env, UpgateWave(s, l)), l * 16 + 5, l * 16 + 6)
    ensures Neat(s, Expanded(s, env, seq(s.batch, (row: nat) => MoeCombine(l, row))), l * 16 + 10, l * 16 + 11)
    ensures Neat(s, Expanded(s, env, RmsNormWave(s, l)), l * 16 + 13, l * 16 + 14)
  {
    hide Neat;
    hide Expanded;
    hide DownWave;
    PlainWaves(s, l, DYNAMIC);
    NeatPlain(s, env, TopkWave(s, l), l * 16 + 2);
    NeatPlain(s, env, [RouteFinalize(l)], l * 16 + 3);
    NeatPlain(s, env, GatherWave(s, l), l * 16 + 4);
    NeatPlain(s, env, UpgateWave(s, l), l * 16 + 5);
    NeatPlain(s, env, seq(s.batch, (row: nat) => MoeCombine(l, row)), l * 16 + 10);
    NeatPlain(s, env, RmsNormWave(s, l), l * 16 + 13);
  }

  lemma NeatQkv(s: Shape, env: Env, l: nat)
    requires ShapeOk(s) && EnvOk(s, env) && l < s.layers
    ensures Neat(s, Expanded(s, env, QkvWave(s, l)), l * 16, l * 16 + 1)
  {
    hide KvOfQTile;
    hide HeadOfTile;
    hide QTiles;
    hide KvTiles;
    PlainWaves(s, l, DYNAMIC);
    NeatPlain(s, env, QkvWave(s, l), l * 16);
  }

  lemma NeatGrids(s: Shape, env: Env, l: nat, n: nat)
    requires ShapeOk(s) && EnvOk(s, env) && l < s.layers
    ensures Neat(s, Expanded(s, env, RouterWave(s, l)), l * 16 + 1, l * 16 + 2)
    ensures Neat(s, Expanded(s, env, CombineWave(s, l, n)), l * 16 + 7, l * 16 + 8)
    ensures Neat(s, Expanded(s, env, DownWave(s, l)), l * 16 + 11, l * 16 + 12)
    ensures Neat(s, Expanded(s, env, OprojWave(s, l)), l * 16 + 12, l * 16 + 13)
  {
    hide Neat;
    hide Expanded;
    hide Once;
    PlainWaves(s, l, n);
    GridOnce(s.routerSplits, s.routerTiles, RouterTile(s, l));
    GridOnce(s.batch, s.hkv, CombineTile(s, l, n));
    GridOnce(s.downSplits, s.dTiles, DownTile(s, l));
    GridOnce(s.oprojSplits, s.dTiles, OprojTile(s, l));
    GridRank(s, s.routerSplits, s.routerTiles, RouterTile(s, l), l * 16 + 1);
    GridRank(s, s.batch, s.hkv, CombineTile(s, l, n), l * 16 + 7);
    GridRank(s, s.downSplits, s.dTiles, DownTile(s, l), l * 16 + 11);
    GridRank(s, s.oprojSplits, s.dTiles, OprojTile(s, l), l * 16 + 12);
    NeatPlain(s, env, RouterWave(s, l), l * 16 + 1);
    NeatPlain(s, env, CombineWave(s, l, n), l * 16 + 7);
    NeatPlain(s, env, DownWave(s, l), l * 16 + 11);
    NeatPlain(s, env, OprojWave(s, l), l * 16 + 12);
  }

  lemma GridRank(s: Shape, rows: nat, cols: nat, f: (nat, nat) -> Inst, k: nat)
    requires forall i: nat, j: nat :: i < rows && j < cols ==> Rank(s, f(i, j)) == k
    ensures forall x :: x in Grid(rows, cols, f) ==> Rank(s, x) == k
  {
    hide Rank;
    forall x | x in Grid(rows, cols, f) ensures Rank(s, x) == k { var i, j := GridElement(rows, cols, f, x); }
  }

  // ---- attention tasks ----

  lemma {:induction false} RowTasksOnce(s: Shape, l: nat, row: nat, kvhs: nat, n: nat, window: nat)
    requires ShapeOk(s)
    ensures var w := AttnRowTasks(s, l, row, kvhs, n, window);
      Once(w) && forall x :: x in w ==> x.AttnDecode? && x.layer == l && x.row == row && x.kvh < kvhs
  {
    hide QkvWait;
    if kvhs > 0 {
      RowTasksOnce(s, l, row, kvhs - 1, n, window);
      assert Once(AttnHeadTasks(s, l, row, kvhs - 1, n, window));
      OnceConcat(AttnRowTasks(s, l, row, kvhs - 1, n, window), AttnHeadTasks(s, l, row, kvhs - 1, n, window));
    }
  }

  lemma {:induction false} StaticOnce(s: Shape, l: nat, rows: nat)
    requires ShapeOk(s) && l < s.layers
    ensures var w := StaticAttnWave(s, l, rows);
      Once(w) && forall x :: x in w ==> x.AttnDecode? && x.layer == l && x.row < rows
  {
    hide Once;
    if rows > 0 {
      StaticOnce(s, l, rows - 1);
      RowTasksOnce(s, l, rows - 1, s.hkv, s.splits[l], s.window[l]);
      OnceConcat(StaticAttnWave(s, l, rows - 1), AttnRowTasks(s, l, rows - 1, s.hkv, s.splits[l], s.window[l]));
    } else {
      OnceNone();
    }
  }

  lemma OnceNone()
    ensures Once([])
  {
  }

  lemma {:induction false} AttnQueueOnce(s: Shape, env: Env, l: nat, rows: nat)
    requires ShapeOk(s)
    ensures var w := AttnQueueTasks(s, env, l, rows);
      Once(w) && forall x :: x in w ==> x.AttnDecode? && x.layer == l && x.row < rows
  {
    hide Once;
    OnceNone();
    if rows > 0 {
      AttnQueueOnce(s, env, l, rows - 1);
      RowTasksOnce(s, l, rows - 1, s.hkv, RowSplits(env, rows - 1), 0);
      OnceConcat(AttnQueueTasks(s, env, l, rows - 1), AttnRowTasks(s, l, rows - 1, s.hkv, RowSplits(env, rows - 1), 0));
    }
  }

  // ---- expert tasks ----

  lemma {:induction false} UpExpertOnce(s: Shape, l: nat, e: nat, blocks: nat)
    requires ShapeOk(s)
    ensures var w := UpExpertTasks(s, l, e, blocks);
      Once(w) && forall x :: x in w ==> x.MoeUpTask? && x.layer == l && x.expert == e && x.up < blocks
  {
    hide DownBlockOf;
    if blocks > 0 {
      UpExpertOnce(s, l, e, blocks - 1);
      OnceConcat(UpExpertTasks(s, l, e, blocks - 1), UpBlockTasks(s, l, e, blocks - 1));
    }
  }

  lemma {:induction false} UpQueueOnce(s: Shape, env: Env, l: nat, experts: nat)
    requires ShapeOk(s) && EnvOk(s, env) && l < s.layers && experts <= s.moe.experts
    ensures var w := UpQueue(s, env, l, experts);
      Once(w) && forall x :: x in w ==> x.MoeUpTask? && x.layer == l && x.expert < experts
  {
    hide Once;
    hide CeilDiv;
    OnceNone();
    if experts > 0 {
      var blocks := CeilDiv(env.routed[l][experts - 1], s.moe.upBm);
      UpQueueOnce(s, env, l, experts - 1);
      UpExpertOnce(s, l, experts - 1, blocks);
      OnceConcat(UpQueue(s, env, l, experts - 1), UpExpertTasks(s, l, experts - 1, blocks));
    }
  }

  lemma {:induction false} DownExpertOnce(s: Shape, l: nat, e: nat, count: nat, blocks: nat)
    requires ShapeOk(s)
    ensures var w := DownExpertTasks(s, l, e, count, blocks);
      Once(w) && forall x :: x in w ==> x.MoeDownTask? && x.layer == l && x.expert == e && x.block < blocks
  {
    hide UpWaitTarget;
    if blocks > 0 {
      var last := seq(s.moe.downTasks, (t: nat) => MoeDownTask(l, e, blocks - 1, t, UpWaitTarget(s, count, blocks - 1)));
      DownExpertOnce(s, l, e, count, blocks - 1);
      OnceConcat(DownExpertTasks(s, l, e, count, blocks - 1), last);
    }
  }

  lemma {:induction false} DownQueueOnce(s: Shape, env: Env, l: nat, experts: nat)
    requires ShapeOk(s) && EnvOk(s, env) && l < s.layers && experts <= s.moe.experts
    ensures var w := DownQueue(s, env, l, experts);
      Once(w) && forall x :: x in w ==> x.MoeDownTask? && x.layer == l && x.expert < experts
  {
    hide Once;
    hide CeilDiv;
    OnceNone();
    if experts > 0 {
      var count := env.routed[l][experts - 1];
      var blocks := CeilDiv(count, s.moe.downBm);
      DownQueueOnce(s, env, l, experts - 1);
      DownExpertOnce(s, l, experts - 1, count, blocks);
      OnceConcat(DownQueue(s, env, l, experts - 1), DownExpertTasks(s, l, experts - 1, count, blocks));
    }
  }

  // ---- a layer ----

  lemma NeatHead(s: Shape, env: Env, l: nat)
    requires ShapeOk(s) && EnvOk(s, env) && l < s.layers
    ensures NeatWaves(s, env, HeadWaves(s, l), l * 16, l * 16 + 6)
  {
    hide Neat;
    hide Expanded;
    hide QkvWave;
    hide RouterWave;
    hide TopkWave;
    hide GatherWave;
    hide UpgateWave;
    NeatQkv(s, env, l);
    NeatRows(s, env, l);
    NeatGrids(s, env, l, DYNAMIC);
    NeatEmpty(s, env, l * 16);
    var q := [QkvWave(s, l)];
    assert q == [] + q;
    NeatMore(s, env, [], QkvWave(s, l), l * 16, l * 16, l * 16 + 1);
    if IsMoe(s, l) {
      NeatMore(s, env, q, RouterWave(s, l), l * 16, l * 16 + 1, l * 16 + 2);
      NeatMore(s, env, q + [RouterWave(s, l)], TopkWave(s, l), l * 16, l * 16 + 2, l * 16 + 3);
      NeatMore(s, env, q + [RouterWave(s, l)] + [TopkWave(s, l)], [RouteFinalize(l)], l * 16, l * 16 + 3, l * 16 + 4);
      NeatMore(s, env, q + [RouterWave(s, l)] + [TopkWave(s, l)] + [[RouteFinalize(l)]], GatherWave(s, l), l * 16, l * 16 + 4, l * 16 + 5);
      assert HeadWaves(s, l) == q + [RouterWave(s, l)] + [TopkWave(s, l)] + [[RouteFinalize(l)]] + [GatherWave(s, l)];
      NeatWiden(s, env, HeadWaves(s, l), l * 16, l * 16 + 5, l * 16, l * 16 + 6);
    } else {
      NeatWiden(s, env, q, l * 16, l * 16 + 1, l * 16, l * 16 + 5);
      NeatMore(s, env, q, UpgateWave(s, l), l * 16, l * 16 + 5, l * 16 + 6);
      assert HeadWaves(s, l) == q + [UpgateWave(s, l)];
    }
  }

  lemma NeatEmpty(s: Shape, env: Env, k: nat)
    requires ShapeOk(s) && EnvOk(s, env)
    ensures NeatWaves(s, env, [], k, k)
  {
  }

  lemma NeatWiden(s: Shape, env: Env, waves: Waves, lo: nat, hi: nat, lo': nat, hi': nat)
    requires ShapeOk(s) && EnvOk(s, env) && NeatWaves(s, env, waves, lo, hi) && lo' <= lo && hi <= hi'
    ensures NeatWaves(s, env, waves, lo', hi')
  {
    hide Flat;
    hide Once;
    hide Rank;
  }

  lemma NeatAttn(s: Shape, env: Env, l: nat)
    requires ShapeOk(s) && EnvOk(s, env) && l < s.layers
    ensures NeatWaves(s, env, AttnWaves(s, l), l * 16 + 6, l * 16 + 8)
  {
    hide Neat;
    hide Expanded;
    hide CombineWave;
    hide StaticAttnWave;
    hide AttnQueueTasks;
    NeatEmpty(s, env, l * 16 + 6);
    if s.drain[l] {
      NeatGrids(s, env, l, DYNAMIC);
      AttnQueueOnce(s, env, l, s.batch);
      var drains := seq(s.attnClaimers, _ => AttnDrain(l));
      NeatDrain(s, env, drains, QueueId(AttnQueue, l), l * 16 + 6);
      NeatMore(s, env, [], drains, l * 16 + 6, l * 16 + 6, l * 16 + 7);
      NeatMore(s, env, [] + [drains], CombineWave(s, l, DYNAMIC), l * 16 + 6, l * 16 + 7, l * 16 + 8);
      assert AttnWaves(s, l) == [] + [drains] + [CombineWave(s, l, DYNAMIC)];
    } else {
      NeatGrids(s, env, l, s.splits[l]);
      StaticOnce(s, l, s.batch);
      StaticPlain(s, l);
      var decodes := StaticAttnWave(s, l, s.batch);
      NeatPlain(s, env, decodes, l * 16 + 6);
      NeatMore(s, env, [], decodes, l * 16 + 6, l * 16 + 6, l * 16 + 7);
      if s.splits[l] > 1 {
        NeatMore(s, env, [] + [decodes], CombineWave(s, l, s.splits[l]), l * 16 + 6, l * 16 + 7, l * 16 + 8);
        assert AttnWaves(s, l) == [] + [decodes] + [CombineWave(s, l, s.splits[l])];
      } else {
        assert AttnWaves(s, l) == [] + [decodes];
        NeatWiden(s, env, AttnWaves(s, l), l * 16 + 6, l * 16 + 7, l * 16 + 6, l * 16 + 8);
      }
    }
  }

  lemma NeatMoe(s: Shape, env: Env, l: nat)
    requires ShapeOk(s) && EnvOk(s, env) && l < s.layers
    ensures NeatWaves(s, env, MoeWaves(s, l), l * 16 + 8, l * 16 + 11)
  {
    hide Neat;
    hide Expanded;
    hide UpQueue;
    hide DownQueue;
    var ups := seq(s.upClaimers, _ => MoeUpDrain(l));
    var downs := seq(s.downClaimers, _ => MoeDownDrain(l));
    var combine := seq(s.batch, (row: nat) => MoeCombine(l, row));
    UpQueueOnce(s, env, l, s.moe.experts);
    DownQueueOnce(s, env, l, s.moe.experts);
    NeatRows(s, env, l);
    NeatEmpty(s, env, l * 16 + 8);
    NeatDrain(s, env, ups, QueueId(MoeUpQueue, l), l * 16 + 8);
    NeatDrain(s, env, downs, QueueId(MoeDownQueue, l), l * 16 + 9);
    NeatMore(s, env, [], ups, l * 16 + 8, l * 16 + 8, l * 16 + 9);
    NeatMore(s, env, [] + [ups], downs, l * 16 + 8, l * 16 + 9, l * 16 + 10);
    if s.atomicCombine {
      assert MoeWaves(s, l) == [] + [ups] + [downs];
      NeatWiden(s, env, MoeWaves(s, l), l * 16 + 8, l * 16 + 10, l * 16 + 8, l * 16 + 11);
    } else {
      NeatMore(s, env, [] + [ups] + [downs], combine, l * 16 + 8, l * 16 + 10, l * 16 + 11);
      assert MoeWaves(s, l) == [] + [ups] + [downs] + [combine];
    }
  }

  lemma NeatTail(s: Shape, env: Env, l: nat)
    requires ShapeOk(s) && EnvOk(s, env) && l < s.layers
    ensures NeatWaves(s, env, TailWaves(s, l), l * 16 + 8, l * 16 + 14)
  {
    hide Neat;
    hide Expanded;
    hide MoeWaves;
    hide DownWave;
    hide OprojWave;
    hide RmsNormWave;
    NeatRows(s, env, l);
    NeatGrids(s, env, l, DYNAMIC);
    var feed := if IsMoe(s, l) then MoeWaves(s, l) else [DownWave(s, l)];
    if IsMoe(s, l) {
      NeatMoe(s, env, l);
      NeatWiden(s, env, feed, l * 16 + 8, l * 16 + 11, l * 16 + 8, l * 16 + 12);
    } else {
      NeatEmpty(s, env, l * 16 + 11);
      NeatMore(s, env, [], DownWave(s, l), l * 16 + 11, l * 16 + 11, l * 16 + 12);
      assert feed == [] + [DownWave(s, l)];
      NeatWiden(s, env, feed, l * 16 + 11, l * 16 + 12, l * 16 + 8, l * 16 + 12);
    }
    NeatMore(s, env, feed, OprojWave(s, l), l * 16 + 8, l * 16 + 12, l * 16 + 13);
    NeatMore(s, env, feed + [OprojWave(s, l)], RmsNormWave(s, l), l * 16 + 8, l * 16 + 13, l * 16 + 14);
    assert TailWaves(s, l) == feed + [OprojWave(s, l)] + [RmsNormWave(s, l)];
  }

  lemma NeatLayer(s: Shape, env: Env, l: nat)
    requires ShapeOk(s) && EnvOk(s, env) && l < s.layers
    ensures NeatWaves(s, env, LayerWaves(s, l), l * 16, l * 16 + 16)
  {
    hide NeatWaves;
    hide LayerWaves;
    hide HeadWaves;
    hide AttnWaves;
    hide TailWaves;
    LayerSplit(s, l);
    NeatHead(s, env, l);
    NeatAttn(s, env, l);
    NeatTail(s, env, l);
    NeatJoin(s, env, HeadWaves(s, l), AttnWaves(s, l), l * 16, l * 16 + 6, l * 16 + 8);
    NeatJoin(s, env, HeadWaves(s, l) + AttnWaves(s, l), TailWaves(s, l), l * 16, l * 16 + 8, l * 16 + 14);
    NeatWiden(s, env, LayerWaves(s, l), l * 16, l * 16 + 14, l * 16, l * 16 + 16);
  }

  // ---- the whole schedule ----

  lemma {:induction false} NeatLayers(s: Shape, env: Env, n: nat)
    requires ShapeOk(s) && EnvOk(s, env) && n <= s.layers
    ensures NeatWaves(s, env, LayersUpTo(s, n), 0, n * 16)
  {
    hide NeatWaves;
    hide LayerWaves;
    if n == 0 {
      NeatEmpty(s, env, 0);
    } else {
      NeatLayers(s, env, n - 1);
      NeatLayer(s, env, n - 1);
      NeatJoin(s, env, LayersUpTo(s, n - 1), LayerWaves(s, n - 1), 0, (n - 1) * 16, n * 16);
    }
  }

  lemma NeatSchedule(s: Shape, env: Env)
    requires ShapeOk(s) && EnvOk(s, env)
    ensures NeatWaves(s, env, AllWaves(s), 0, s.layers * 16 + 15)
  {
    hide NeatWaves;
    hide LayersUpTo;
    hide Expanded;
    PlainWaves(s, 0, DYNAMIC);
    NeatLayers(s, env, s.layers);
    NeatPlain(s, env, LmHeadWave(s), s.layers * 16 + 14);
    NeatWiden(s, env, LayersUpTo(s, s.layers), 0, s.layers * 16, 0, s.layers * 16 + 14);
    NeatMore(s, env, LayersUpTo(s, s.layers), LmHeadWave(s), 0, s.layers * 16 + 14, s.layers * 16 + 15);
  }

  lemma {:induction false} PlannedOnce(s: Shape, env: Env, waves: Waves, sms: nat, ablation: bool)
    requires ShapeOk(s) && EnvOk(s, env) && Once(Flat(s, env, waves))
    ensures Once(InstsOf(s, env, waves, sms, ablation))
    ensures forall x :: x in InstsOf(s, env, waves, sms, ablation) && Real(x) ==> x in Flat(s, env, waves)
  {
    hide Expanded;
    hide Once;
    if waves == [] {
      OnceNone();
    } else {
      var k := |waves| - 1;
      OnceParts(Flat(s, env, waves[..k]), Expanded(s, env, waves[k]));
      PlannedOnce(s, env, waves[..k], sms, ablation);
      OnceSyncs(k, sms, ablation);
      OnceConcat(InstsOf(s, env, waves[..k], sms, ablation), SyncInsts(k, sms, ablation));
      OnceConcat(InstsOf(s, env, waves[..k], sms, ablation) + SyncInsts(k, sms, ablation), Expanded(s, env, waves[k]));
    }
  }

  lemma OnceSyncs(k: nat, sms: nat, ablation: bool)
    ensures Once(SyncInsts(k, sms, ablation)) && forall x :: x in SyncInsts(k, sms, ablation) ==> !Real(x)
  {
  }

  lemma OnceParts(a: seq<Inst>, b: seq<Inst>)
    requires Once(a + b)
    ensures Once(a) && Once(b) && forall x :: x in a && Real(x) ==> x !in b
  {
    var w := a + b;
    forall i, j | 0 <= i < j < |a| && Real(a[i]) ensures a[i] != a[j] { assert w[i] != w[j]; }
    forall i, j | 0 <= i < j < |b| && Real(b[i]) ensures b[i] != b[j] { assert w[|a| + i] != w[|a| + j]; }
    forall i, j | 0 <= i < |a| && 0 <= j < |b| && Real(a[i]) ensures a[i] != b[j] { assert w[i] != w[|a| + j]; }
  }

  /** Every task of the schedule is at one node of the plan. */
  lemma EachTaskOnce(s: Shape, env: Env, sms: nat, ablation: bool)
    requires ShapeOk(s) && EnvOk(s, env)
    ensures Once(InstsOf(s, env, AllWaves(s), sms, ablation))
  {
    hide AllWaves;
    hide Flat;
    NeatSchedule(s, env);
    PlannedOnce(s, env, AllWaves(s), sms, ablation);
  }
}
