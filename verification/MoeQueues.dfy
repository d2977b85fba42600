/** The device-built mixture-of-experts queues: every down task waits for exactly
    the up tasks of its own row block. */
module MoeQueues {
  import opened Arithmetic
  import opened Wrappers
  import opened Machine
  import opened Schedule
  import opened Arrivals
  import opened WaveArrivals
  import opened LayerArrivals

  lemma DownBlockBound(s: Shape, count: nat, t: nat)
    requires ShapeOk(s) && count <= s.batch && t < CeilDiv(count, s.moe.upBm)
    ensures DownBlockOf(s, t) < BlocksPerExpert(s)
  {
    hide CeilDiv;
    CeilDivBounds(count, s.moe.upBm);
    CeilDivBounds(s.batch, s.moe.downBm);
    BlockBelow(t, CeilDiv(count, s.moe.upBm), s.moe.upBm, s.batch, CeilDiv(s.batch, s.moe.downBm), s.moe.downBm);
  }

  /** Every up block of an expert lies in a down block that has tasks of its own. */
  lemma DownBlockUsed(s: Shape, count: nat, t: nat)
    requires ShapeOk(s) && t < CeilDiv(count, s.moe.upBm)
    ensures DownBlockOf(s, t) < CeilDiv(count, s.moe.downBm)
  {
    hide CeilDiv;
    CeilDivBounds(count, s.moe.upBm);
    CeilDivBounds(count, s.moe.downBm);
    BlockBelow(t, CeilDiv(count, s.moe.upBm), s.moe.upBm, count, CeilDiv(count, s.moe.downBm), s.moe.downBm);
  }

  lemma BlockBelow(t: nat, total: nat, u: nat, batch: nat, blocks: nat, d: nat)
    requires t < total && total * u - u < batch && blocks * d >= batch && d > 0
    ensures (t * u) / d < blocks
  {
    MulApart(t, total, u);
    DivAtLeast(t * u, d, blocks);
  }

  /** Two blocks of one layer share a counter only if they are the same block. */
  lemma SameBlock(s: Shape, l: nat, e: nat, b: nat, e': nat, b': nat)
    requires ShapeOk(s) && b < BlocksPerExpert(s) && b' < BlocksPerExpert(s)
    ensures MoeBlockBar(s, l, e, b) == MoeBlockBar(s, l, e', b') <==> e == e' && b == b'
  {
    hide BlocksPerExpert;
    IndexUnique(e, b, e', b', BlocksPerExpert(s));
  }

  lemma {:induction false} OtherExpert(s: Shape, l: nat, e': nat, blocks: nat, count: nat, e: nat, b: nat)
    requires ShapeOk(s) && e != e' && count <= s.batch && blocks <= CeilDiv(count, s.moe.upBm)
    requires b < BlocksPerExpert(s)
    ensures Hits(s, UpExpertTasks(s, l, e', blocks), MoeBlockBar(s, l, e, b)) == 0
  {
    hide CeilDiv;
    hide BlocksPerExpert;
    hide MoeBlockBar;
    if blocks > 0 {
      OtherExpert(s, l, e', blocks - 1, count, e, b);
      UpExpertStep(s, l, e', blocks, MoeBlockBar(s, l, e, b));
      DownBlockBound(s, count, blocks - 1);
      SameBlock(s, l, e, b, e', DownBlockOf(s, blocks - 1));
    }
  }

  lemma {:induction false} UpQueueHits(s: Shape, env: Env, l: nat, experts: nat, e: nat, b: nat)
    requires ShapeOk(s) && EnvOk(s, env) && l < s.layers && experts <= s.moe.experts
    requires e < s.moe.experts && b < BlocksPerExpert(s)
    ensures Hits(s, UpQueue(s, env, l, experts), MoeBlockBar(s, l, e, b)) ==
      if e < experts then UpWaitTarget(s, env.routed[l][e], b) else 0
  {
    hide CeilDiv;
    hide BlocksPerExpert;
    hide MoeBlockBar;
    hide Hits;
    hide UpWaitTarget;
    hide UpExpertTasks;
    if experts == 0 {
      HitsNone(s, [], MoeBlockBar(s, l, e, b));
    } else {
      var last := experts - 1;
      var count := env.routed[l][last];
      var blocks := CeilDiv(count, s.moe.upBm);
      UpQueueHits(s, env, l, last, e, b);
      HitsConcat(s, UpQueue(s, env, l, last), UpExpertTasks(s, l, last, blocks), MoeBlockBar(s, l, e, b));
      if e == last {
        UpExpertHits(s, l, e, blocks, b, b * UpPerDown(s));
        UpBlocksForDown(s, count, b);
      } else {
        OtherExpert(s, l, last, blocks, count, e, b);
      }
    }
  }

  /** Every entry of a down queue, spelled out. */
  predicate DownEntry(s: Shape, env: Env, l: nat, x: Inst)
    requires ShapeOk(s) && EnvOk(s, env) && l < s.layers
  {
    && x.MoeDownTask? && x.layer == l && x.expert < s.moe.experts
    && x.block < CeilDiv(env.routed[l][x.expert], s.moe.downBm)
    && x.tile < s.moe.downTasks
    && x.waitTarget == UpWaitTarget(s, env.routed[l][x.expert], x.block)
  }

  lemma {:induction false} DownExpertEntries(s: Shape, env: Env, l: nat, e: nat, blocks: nat, x: Inst)
    requires ShapeOk(s) && EnvOk(s, env) && l < s.layers && e < s.moe.experts
    requires blocks <= CeilDiv(env.routed[l][e], s.moe.downBm)
    requires x in DownExpertTasks(s, l, e, env.routed[l][e], blocks)
    ensures DownEntry(s, env, l, x)
  {
    hide CeilDiv;
    hide UpWaitTarget;
    if blocks > 0 && x in DownExpertTasks(s, l, e, env.routed[l][e], blocks - 1) {
      DownExpertEntries(s, env, l, e, blocks - 1, x);
    }
  }

  lemma {:induction false} DownQueueEntries(s: Shape, env: Env, l: nat, experts: nat, x: Inst)
    requires ShapeOk(s) && EnvOk(s, env) && l < s.layers && experts <= s.moe.experts
    requires x in DownQueue(s, env, l, experts)
    ensures DownEntry(s, env, l, x)
  {
    hide CeilDiv;
    hide DownEntry;
    hide DownExpertTasks;
    if experts > 0 {
      if x in DownQueue(s, env, l, experts - 1) {
        DownQueueEntries(s, env, l, experts - 1, x);
      } else {
        DownExpertEntries(s, env, l, experts - 1, CeilDiv(env.routed[l][experts - 1], s.moe.downBm), x);
      }
    }
  }

  lemma DownBlockFits(s: Shape, env: Env, l: nat, x: Inst)
    requires ShapeOk(s) && EnvOk(s, env) && l < s.layers && DownEntry(s, env, l, x)
    ensures x.block < BlocksPerExpert(s)
  {
    hide CeilDiv;
    var count := env.routed[l][x.expert];
    CeilDivBounds(count, s.moe.downBm);
    CeilDivBounds(s.batch, s.moe.downBm);
    CeilMono(CeilDiv(count, s.moe.downBm), CeilDiv(s.batch, s.moe.downBm), s.moe.downBm, count, s.batch);
  }

  lemma CeilMono(a: nat, b: nat, d: nat, m: nat, n: nat)
    requires d > 0 && m <= n && (a > 0 ==> a * d - d < m) && b * d >= n
    ensures a <= b
  {
    if a > b { MulApart(b, a, d); }
  }

  /** A down task waits for exactly the up tasks that its layer puts on its block. */
  lemma DownTaskSupply(s: Shape, env: Env, l: nat, x: Inst)
    requires ShapeOk(s) && EnvOk(s, env) && l < s.layers
    requires x in DownQueue(s, env, l, s.moe.experts)
    ensures DownEntry(s, env, l, x) && x.block < BlocksPerExpert(s)
    ensures Hits(s, UpQueue(s, env, l, s.moe.experts), MoeBlockBar(s, l, x.expert, x.block)) == x.waitTarget
  {
    hide BlocksPerExpert;
    hide MoeBlockBar;
    hide UpWaitTarget;
    DownQueueEntries(s, env, l, s.moe.experts, x);
    DownBlockFits(s, env, l, x);
    UpQueueHits(s, env, l, s.moe.experts, x.expert, x.block);
  }
}
