/** Every wave of the decode schedule is supplied by the waves before it. */
module DecodeSupply {
  import opened Arithmetic
  import opened Wrappers
  import opened Machine
  import opened Schedule
  import opened Arrivals
  import opened WaveArrivals
  import opened LayerArrivals
  import opened MoeQueues
  import opened DecodePlan

  type Waves = seq<seq<Inst>>

  lemma {:induction false} OneOfMany(s: Shape, env: Env, waves: Waves, w: seq<Inst>, bar: Bar)
    requires ShapeOk(s) && EnvOk(s, env) && w in waves
    ensures WaveHits(s, env, w, bar) <= FlatHits(s, env, waves, bar)
  {
    hide WaveHits;
    if w in waves[..|waves| - 1] { OneOfMany(s, env, waves[..|waves| - 1], w, bar); }
  }

  ghost predicate WaveMet(s: Shape, env: Env, earlier: Waves, w: seq<Inst>)
    requires ShapeOk(s) && EnvOk(s, env)
  {
    forall i :: 0 <= i < |w| ==> InstMet(s, env, earlier, w[i])
  }

  /** Waves met when they follow `pre`. */
  ghost predicate MetFrom(s: Shape, env: Env, pre: Waves, waves: Waves)
    requires ShapeOk(s) && EnvOk(s, env)
  {
    forall k :: 0 <= k < |waves| ==> WaveMet(s, env, pre + waves[..k], waves[k])
  }

  lemma MetConcat(s: Shape, env: Env, pre: Waves, a: Waves, b: Waves)
    requires ShapeOk(s) && EnvOk(s, env)
    requires MetFrom(s, env, pre, a) && MetFrom(s, env, pre + a, b)
    ensures MetFrom(s, env, pre, a + b)
  {
    hide WaveMet;
    forall k | 0 <= k < |a + b| ensures WaveMet(s, env, pre + (a + b)[..k], (a + b)[k]) {
      if k < |a| {
        assert (a + b)[..k] == a[..k];
      } else {
        assert pre + (a + b)[..k] == (pre + a) + b[..k - |a|];
      }
    }
  }

  lemma MetOne(s: Shape, env: Env, pre: Waves, w: seq<Inst>)
    requires ShapeOk(s) && EnvOk(s, env) && WaveMet(s, env, pre, w)
    ensures MetFrom(s, env, pre, [w])
  {
    hide WaveMet;
    assert pre + [w][..0] == pre;
  }

  lemma MetSnoc(s: Shape, env: Env, pre: Waves, a: Waves, w: seq<Inst>)
    requires ShapeOk(s) && EnvOk(s, env)
    requires MetFrom(s, env, pre, a) && WaveMet(s, env, pre + a, w)
    ensures MetFrom(s, env, pre, a + [w])
  {
    hide WaveMet;
    MetOne(s, env, pre + a, w);
    MetConcat(s, env, pre, a, [w]);
  }

  // ---- one wait, one producer ----

  lemma OneWaitMet(s: Shape, env: Env, earlier: Waves, w: seq<Inst>, wait: Wait)
    requires ShapeOk(s) && EnvOk(s, env) && w in earlier
    requires wait.target <= WaveHits(s, env, w, wait.bar)
    ensures WaitsMet(s, env, earlier, [wait])
  {
    hide WaveHits;
    OneOfMany(s, env, earlier, w, wait.bar);
  }

  lemma WaitsMetConcat(s: Shape, env: Env, earlier: Waves, a: seq<Wait>, b: seq<Wait>)
    requires ShapeOk(s) && EnvOk(s, env) && WaitsMet(s, env, earlier, a) && WaitsMet(s, env, earlier, b)
    ensures WaitsMet(s, env, earlier, a + b)
  {
  }

  /** The layer's input is ready: the first layer waits for nothing. */
  predicate InputReady(s: Shape, env: Env, earlier: Waves, layer: nat)
    requires ShapeOk(s) && EnvOk(s, env)
  {
    InputTarget(s, layer) <= FlatHits(s, env, earlier, Bar(BLayer, layer))
  }

  lemma InputKept(s: Shape, env: Env, a: Waves, b: Waves, layer: nat)
    requires ShapeOk(s) && EnvOk(s, env) && InputReady(s, env, a, layer)
    ensures InputReady(s, env, a + b, layer)
  {
    FlatHitsConcat(s, env, a, b, Bar(BLayer, layer));
  }

  // ---- waves that read the layer input ----

  lemma QkvMet(s: Shape, env: Env, earlier: Waves, layer: nat)
    requires ShapeOk(s) && EnvOk(s, env) && InputReady(s, env, earlier, layer)
    ensures WaveMet(s, env, earlier, QkvWave(s, layer))
  {
    hide FlatHits;
    hide KvOfQTile;
    hide HeadOfTile;
    forall i | 0 <= i < |QkvWave(s, layer)| ensures InstMet(s, env, earlier, QkvWave(s, layer)[i]) {
      var x := QkvWave(s, layer)[i];
      assert Waits(s, env, x) == [Wait(Bar(BLayer, layer), InputTarget(s, layer))];
    }
  }

  lemma {:induction false} GridElement(rows: nat, cols: nat, f: (nat, nat) -> Inst, x: Inst) returns (i: nat, j: nat)
    requires x in Grid(rows, cols, f)
    ensures i < rows && j < cols && x == f(i, j)
  {
    if rows > 0 {
      if x in Grid(rows - 1, cols, f) {
        i, j := GridElement(rows - 1, cols, f, x);
      } else {
        i := rows - 1;
        var last := seq(cols, (c: nat) => f(rows - 1, c));
        assert x in last;
        j :| j < cols && last[j] == x;
      }
    }
  }

  lemma RouterMet(s: Shape, env: Env, earlier: Waves, layer: nat)
    requires ShapeOk(s) && EnvOk(s, env) && InputReady(s, env, earlier, layer)
    ensures WaveMet(s, env, earlier, RouterWave(s, layer))
  {
    hide FlatHits;
    var w := RouterWave(s, layer);
    forall k | 0 <= k < |w| ensures InstMet(s, env, earlier, w[k]) {
      assert w[k] in w;
      var i, j := GridElement(s.routerSplits, s.routerTiles, RouterTile(s, layer), w[k]);
      assert Waits(s, env, w[k]) == [Wait(Bar(BLayer, layer), InputTarget(s, layer))];
    }
  }

  lemma UpgateMet(s: Shape, env: Env, earlier: Waves, layer: nat)
    requires ShapeOk(s) && EnvOk(s, env) && InputReady(s, env, earlier, layer)
    ensures WaveMet(s, env, earlier, UpgateWave(s, layer))
  {
    hide FlatHits;
    forall i | 0 <= i < |UpgateWave(s, layer)| ensures InstMet(s, env, earlier, UpgateWave(s, layer)[i]) {
      assert Waits(s, env, UpgateWave(s, layer)[i]) == [Wait(Bar(BLayer, layer), InputTarget(s, layer))];
    }
  }

  // ---- routing ----

  lemma TopkMet(s: Shape, env: Env, earlier: Waves, layer: nat)
    requires ShapeOk(s) && EnvOk(s, env) && layer < s.layers && RouterWave(s, layer) in earlier
    ensures WaveMet(s, env, earlier, TopkWave(s, layer))
  {
    hide FlatHits;
    var wait := Wait(Bar(BRouter, layer), s.routerTiles * s.routerSplits);
    GridFirst(s.routerSplits, s.routerTiles, RouterTile(s, layer));
    MeetWith(s, env, earlier, RouterWave(s, layer), wait);
    RouterHits(s, layer, wait.bar);
    OneWaitMet(s, env, earlier, RouterWave(s, layer), wait);
    forall i | 0 <= i < |TopkWave(s, layer)| ensures InstMet(s, env, earlier, TopkWave(s, layer)[i]) {
      assert Waits(s, env, TopkWave(s, layer)[i]) == [wait];
    }
  }

  /** A wave that drains nothing: its hits are its own instructions' hits. */
  lemma MeetWith(s: Shape, env: Env, earlier: Waves, w: seq<Inst>, wait: Wait)
    requires ShapeOk(s) && EnvOk(s, env) && DrainedBy(w).None?
    ensures WaveHits(s, env, w, wait.bar) == Hits(s, w, wait.bar)
  {
  }

  lemma AfterTopk(s: Shape, env: Env, earlier: Waves, layer: nat)
    requires ShapeOk(s) && EnvOk(s, env) && layer < s.layers && TopkWave(s, layer) in earlier
    ensures WaveMet(s, env, earlier, [RouteFinalize(layer)])
    ensures WaveMet(s, env, earlier, GatherWave(s, layer))
  {
    hide FlatHits;
    var wait := Wait(Bar(BTopk, layer), s.batch);
    MoeHeadHits(s, layer, wait.bar);
    MeetWith(s, env, earlier, TopkWave(s, layer), wait);
    OneWaitMet(s, env, earlier, TopkWave(s, layer), wait);
    assert Waits(s, env, RouteFinalize(layer)) == [wait];
    forall i | 0 <= i < |GatherWave(s, layer)| ensures InstMet(s, env, earlier, GatherWave(s, layer)[i]) {
      assert Waits(s, env, GatherWave(s, layer)[i]) == [wait];
    }
  }

  lemma RouteSupplied(s: Shape, env: Env, earlier: Waves, layer: nat)
    requires ShapeOk(s) && EnvOk(s, env) && layer < s.layers && [RouteFinalize(layer)] in earlier
    ensures WaitsMet(s, env, earlier, [Wait(Bar(BRoute, layer), 1)])
  {
    var wait := Wait(Bar(BRoute, layer), 1);
    MoeHeadHits(s, layer, wait.bar);
    MeetWith(s, env, earlier, [RouteFinalize(layer)], wait);
    OneWaitMet(s, env, earlier, [RouteFinalize(layer)], wait);
  }

  lemma GatherSupplied(s: Shape, env: Env, earlier: Waves, layer: nat)
    requires ShapeOk(s) && EnvOk(s, env) && layer < s.layers && GatherWave(s, layer) in earlier
    ensures WaitsMet(s, env, earlier, [Wait(Bar(BGather, layer), s.batch)])
  {
    var wait := Wait(Bar(BGather, layer), s.batch);
    MoeHeadHits(s, layer, wait.bar);
    MeetWith(s, env, earlier, GatherWave(s, layer), wait);
    OneWaitMet(s, env, earlier, GatherWave(s, layer), wait);
  }

  // ---- attention ----

  lemma DecodeWaits(s: Shape, env: Env, earlier: Waves, layer: nat, kvh: nat)
    requires ShapeOk(s) && EnvOk(s, env) && QkvWave(s, layer) in earlier && kvh < s.hkv
    ensures WaitsMet(s, env, earlier, [Wait(Bar(BQkv, layer * s.hkv + kvh), QkvWait(s))])
  {
    hide QkvWave;
    hide QkvWait;
    var wait := Wait(Bar(BQkv, layer * s.hkv + kvh), QkvWait(s));
    QkvHits(s, layer, wait.bar);
    QkvDrainsNothing(s, layer);
    MeetWith(s, env, earlier, QkvWave(s, layer), wait);
    OneWaitMet(s, env, earlier, QkvWave(s, layer), wait);
  }

  /** A decode task as the builders write it. */
  predicate DecodeTask(s: Shape, layer: nat, x: Inst)
    requires ShapeOk(s)
  {
    x.AttnDecode? && x.layer == layer && x.row < s.batch && x.kvh < s.hkv && x.split < x.numSplits
    && x.waitTarget == QkvWait(s)
  }

  lemma {:induction false} RowTaskElement(s: Shape, layer: nat, row: nat, kvhs: nat, n: nat, w: nat, x: Inst)
    requires ShapeOk(s) && row < s.batch && kvhs <= s.hkv
    requires x in AttnRowTasks(s, layer, row, kvhs, n, w)
    ensures DecodeTask(s, layer, x) && x.row == row && x.numSplits == n && x.window == w
  {
    if kvhs > 0 && x in AttnRowTasks(s, layer, row, kvhs - 1, n, w) {
      RowTaskElement(s, layer, row, kvhs - 1, n, w, x);
    }
  }

  lemma {:induction false} StaticElement(s: Shape, layer: nat, rows: nat, x: Inst)
    requires ShapeOk(s) && layer < s.layers && rows <= s.batch && x in StaticAttnWave(s, layer, rows)
    ensures DecodeTask(s, layer, x) && x.numSplits == s.splits[layer] && x.window == s.window[layer]
  {
    if x in StaticAttnWave(s, layer, rows - 1) {
      StaticElement(s, layer, rows - 1, x);
    } else {
      RowTaskElement(s, layer, rows - 1, s.hkv, s.splits[layer], s.window[layer], x);
    }
  }

  lemma {:induction false} QueueElement(s: Shape, env: Env, layer: nat, rows: nat, x: Inst)
    requires ShapeOk(s) && EnvOk(s, env) && rows <= s.batch && x in AttnQueueTasks(s, env, layer, rows)
    ensures DecodeTask(s, layer, x) && x.numSplits == env.rowSplits[x.row] && x.window == 0
  {
    hide AttnRowTasks;
    hide QkvWait;
    if x in AttnQueueTasks(s, env, layer, rows - 1) {
      QueueElement(s, env, layer, rows - 1, x);
    } else {
      RowTaskElement(s, layer, rows - 1, s.hkv, RowSplits(env, rows - 1), 0, x);
    }
  }

  lemma DecodeMet(s: Shape, env: Env, earlier: Waves, layer: nat, x: Inst)
    requires ShapeOk(s) && EnvOk(s, env) && QkvWave(s, layer) in earlier && DecodeTask(s, layer, x)
    ensures WaitsMet(s, env, earlier, Waits(s, env, x)) && DrainQueue(x).None?
  {
    hide QkvWave;
    hide QkvWait;
    hide FlatHits;
    DecodeWaits(s, env, earlier, layer, x.kvh);
  }

  lemma StaticMet(s: Shape, env: Env, earlier: Waves, layer: nat)
    requires ShapeOk(s) && EnvOk(s, env) && layer < s.layers && QkvWave(s, layer) in earlier
    ensures WaveMet(s, env, earlier, StaticAttnWave(s, layer, s.batch))
  {
    hide QkvWave;
    hide WaitsMet;
    var w := StaticAttnWave(s, layer, s.batch);
    forall i | 0 <= i < |w| ensures InstMet(s, env, earlier, w[i]) {
      assert w[i] in w;
      StaticElement(s, layer, s.batch, w[i]);
      DecodeMet(s, env, earlier, layer, w[i]);
    }
  }

  lemma AttnDrainMet(s: Shape, env: Env, earlier: Waves, layer: nat, w: seq<Inst>)
    requires ShapeOk(s) && EnvOk(s, env) && layer < s.layers && QkvWave(s, layer) in earlier
    requires forall i :: 0 <= i < |w| ==> w[i] == AttnDrain(layer)
    ensures WaveMet(s, env, earlier, w)
  {
    hide QkvWave;
    hide WaitsMet;
    var q := QueueId(AttnQueue, layer);
    assert WaitsMet(s, env, earlier, []) by { EmptyMet(s, env, earlier); }
    forall t | t in QueueTasks(s, env, q) ensures WaitsMet(s, env, earlier, Waits(s, env, t)) {
      QueueElement(s, env, layer, s.batch, t);
      DecodeMet(s, env, earlier, layer, t);
    }
  }

  lemma EmptyMet(s: Shape, env: Env, earlier: Waves)
    requires ShapeOk(s) && EnvOk(s, env)
    ensures WaitsMet(s, env, earlier, [])
  {
  }

  /** The combine of (row, head) waits for as many arrivals as its splits make. */
  lemma CombineMet(s: Shape, env: Env, earlier: Waves, layer: nat, n: nat, producer: seq<Inst>)
    requires ShapeOk(s) && EnvOk(s, env) && producer in earlier
    requires forall row: nat, kvh: nat :: row < s.batch && kvh < s.hkv ==>
      (if n == DYNAMIC then env.rowSplits[row] else n)
        <= WaveHits(s, env, producer, CombineBar(s, layer, row, kvh))
    ensures WaveMet(s, env, earlier, CombineWave(s, layer, n))
  {
    hide WaveHits;
    hide FlatHits;
    var w := CombineWave(s, layer, n);
    forall k | 0 <= k < |w| ensures InstMet(s, env, earlier, w[k]) {
      assert w[k] in w;
      var row, kvh := GridElement(s.batch, s.hkv, CombineTile(s, layer, n), w[k]);
      var wait := Wait(CombineBar(s, layer, row, kvh), if n == DYNAMIC then env.rowSplits[row] else n);
      assert Waits(s, env, w[k]) == [wait];
      OneWaitMet(s, env, earlier, producer, wait);
    }
  }

  lemma StaticCombineMet(s: Shape, env: Env, earlier: Waves, layer: nat)
    requires ShapeOk(s) && EnvOk(s, env) && layer < s.layers && s.splits[layer] > 1
    requires StaticAttnWave(s, layer, s.batch) in earlier
    ensures WaveMet(s, env, earlier, CombineWave(s, layer, s.splits[layer]))
  {
    hide WaveMet;
    hide StaticAttnWave;
    var producer := StaticAttnWave(s, layer, s.batch);
    StaticDrainsNothing(s, layer, s.batch);
    forall row: nat, kvh: nat | row < s.batch && kvh < s.hkv
      ensures s.splits[layer] <= WaveHits(s, env, producer, CombineBar(s, layer, row, kvh))
    {
      StaticCombineHits(s, layer, s.batch, CombineBar(s, layer, row, kvh));
      MulApart(row, s.batch, s.hkv);
    }
    CombineMet(s, env, earlier, layer, s.splits[layer], producer);
  }

  lemma DynamicCombineMet(s: Shape, env: Env, earlier: Waves, layer: nat)
    requires ShapeOk(s) && EnvOk(s, env) && layer < s.layers
    requires seq(s.attnClaimers, _ => AttnDrain(layer)) in earlier
    ensures WaveMet(s, env, earlier, CombineWave(s, layer, DYNAMIC))
  {
    hide WaveMet;
    hide AttnQueueTasks;
    var producer := seq(s.attnClaimers, _ => AttnDrain(layer));
    forall row: nat, kvh: nat | row < s.batch && kvh < s.hkv
      ensures env.rowSplits[row] <= WaveHits(s, env, producer, CombineBar(s, layer, row, kvh))
    {
      QueueCombineHits(s, env, layer, s.batch, row, kvh);
    }
    CombineMet(s, env, earlier, layer, DYNAMIC, producer);
  }

  lemma AttnMet(s: Shape, env: Env, pre: Waves, layer: nat)
    requires ShapeOk(s) && EnvOk(s, env) && layer < s.layers && QkvWave(s, layer) in pre
    ensures MetFrom(s, env, pre, AttnWaves(s, layer))
  {
    hide WaveMet;
    hide QkvWave;
    hide CombineWave;
    hide StaticAttnWave;
    if s.drain[layer] {
      var drains := seq(s.attnClaimers, _ => AttnDrain(layer));
      AttnDrainMet(s, env, pre, layer, drains);
      MetOne(s, env, pre, drains);
      DynamicCombineMet(s, env, pre + [drains], layer);
      MetSnoc(s, env, pre, [drains], CombineWave(s, layer, DYNAMIC));
      assert AttnWaves(s, layer) == [drains] + [CombineWave(s, layer, DYNAMIC)];
    } else {
      var attn := StaticAttnWave(s, layer, s.batch);
      StaticMet(s, env, pre, layer);
      MetOne(s, env, pre, attn);
      if s.splits[layer] > 1 {
        StaticCombineMet(s, env, pre + [attn], layer);
        MetSnoc(s, env, pre, [attn], CombineWave(s, layer, s.splits[layer]));
        assert AttnWaves(s, layer) == [attn] + [CombineWave(s, layer, s.splits[layer])];
      }
    }
  }

  /** Once a layer's attention waves are in, every O_PROJ split has its heads. */
  lemma HeadsSupplied(s: Shape, env: Env, a: Waves, b: Waves, layer: nat, g: nat)
    requires ShapeOk(s) && EnvOk(s, env) && layer < s.layers && g < s.oprojSplits
    ensures s.batch * KvPerOprojPos(s)
      <= FlatHits(s, env, a + AttnWaves(s, layer) + b, HeadBar(s, layer, g))
  {
    hide AttnWaves;
    var bar := HeadBar(s, layer, g);
    AttnWavesHits(s, env, layer, bar);
    FlatHitsConcat(s, env, a, AttnWaves(s, layer), bar);
    FlatHitsConcat(s, env, a + AttnWaves(s, layer), b, bar);
  }

  lemma OprojMet(s: Shape, env: Env, a: Waves, b: Waves, layer: nat)
    requires ShapeOk(s) && EnvOk(s, env) && layer < s.layers
    ensures WaveMet(s, env, a + AttnWaves(s, layer) + b, OprojWave(s, layer))
  {
    hide AttnWaves;
    hide FlatHits;
    var w := OprojWave(s, layer);
    var earlier := a + AttnWaves(s, layer) + b;
    forall k | 0 <= k < |w| ensures InstMet(s, env, earlier, w[k]) {
      assert w[k] in w;
      var split, tn := GridElement(s.oprojSplits, s.dTiles, OprojTile(s, layer), w[k]);
      HeadsSupplied(s, env, a, b, layer, split);
      assert Waits(s, env, w[k]) == [Wait(HeadBar(s, layer, split), s.batch * KvPerOprojPos(s))];
    }
  }

  lemma DownMet(s: Shape, env: Env, earlier: Waves, layer: nat)
    requires ShapeOk(s) && EnvOk(s, env) && layer < s.layers && UpgateWave(s, layer) in earlier
    ensures WaveMet(s, env, earlier, DownWave(s, layer))
  {
    hide FlatHits;
    hide WaveHits;
    var w := DownWave(s, layer);
    forall k | 0 <= k < |w| ensures InstMet(s, env, earlier, w[k]) {
      assert w[k] in w;
      var split, tn := GridElement(s.downSplits, s.dTiles, DownTile(s, layer), w[k]);
      var wait := Wait(Bar(BSilu, layer * s.downSplits + split), SiluPerSplit(s));
      assert Waits(s, env, w[k]) == [wait];
      UpgateHits(s, layer, wait.bar);
      MeetWith(s, env, earlier, UpgateWave(s, layer), wait);
      OneWaitMet(s, env, earlier, UpgateWave(s, layer), wait);
    }
  }

  // ---- experts ----

  lemma UpDrainMet(s: Shape, env: Env, earlier: Waves, layer: nat, w: seq<Inst>)
    requires ShapeOk(s) && EnvOk(s, env) && layer < s.layers
    requires [RouteFinalize(layer)] in earlier && GatherWave(s, layer) in earlier
    requires forall i :: 0 <= i < |w| ==> w[i] == MoeUpDrain(layer)
    ensures WaveMet(s, env, earlier, w)
  {
    hide WaitsMet;
    hide GatherWave;
    hide UpQueue;
    RouteSupplied(s, env, earlier, layer);
    GatherSupplied(s, env, earlier, layer);
    UpQueueLayer(s, env, layer, s.moe.experts);
    forall t | t in UpQueue(s, env, layer, s.moe.experts)
      ensures WaitsMet(s, env, earlier, Waits(s, env, t))
    {
      assert Waits(s, env, t) == [Wait(Bar(BGather, layer), s.batch)];
    }
  }

  lemma {:induction false} UpExpertLayer(s: Shape, layer: nat, expert: nat, blocks: nat)
    requires s.moe.downBm > 0
    ensures forall x :: x in UpExpertTasks(s, layer, expert, blocks) ==>
      x.MoeUpTask? && x.layer == layer && x.expert == expert
  {
    if blocks > 0 { UpExpertLayer(s, layer, expert, blocks - 1); }
  }

  lemma {:induction false} UpQueueLayer(s: Shape, env: Env, layer: nat, experts: nat)
    requires s.moe.downBm > 0 && s.moe.upBm > 0
    requires layer < |env.routed| && experts <= |env.routed[layer]|
    ensures forall x :: x in UpQueue(s, env, layer, experts) ==>
      x.MoeUpTask? && x.layer == layer && x.expert < experts
  {
    if experts > 0 {
      UpQueueLayer(s, env, layer, experts - 1);
      UpExpertLayer(s, layer, experts - 1, CeilDiv(env.routed[layer][experts - 1], s.moe.upBm));
    }
  }

  lemma DownDrainMet(s: Shape, env: Env, earlier: Waves, layer: nat, w: seq<Inst>)
    requires ShapeOk(s) && EnvOk(s, env) && layer < s.layers
    requires [RouteFinalize(layer)] in earlier && seq(s.upClaimers, _ => MoeUpDrain(layer)) in earlier
    requires forall i :: 0 <= i < |w| ==> w[i] == MoeDownDrain(layer)
    ensures WaveMet(s, env, earlier, w)
  {
    hide WaitsMet;
    hide UpQueue;
    hide DownQueue;
    hide MoeBlockBar;
    RouteSupplied(s, env, earlier, layer);
    var ups := seq(s.upClaimers, _ => MoeUpDrain(layer));
    forall t | t in DownQueue(s, env, layer, s.moe.experts)
      ensures WaitsMet(s, env, earlier, Waits(s, env, t))
    {
      DownTaskSupply(s, env, layer, t);
      var wait := Wait(MoeBlockBar(s, layer, t.expert, t.block), t.waitTarget);
      ClaimerHits(s, env, layer, wait.bar);
      OneWaitMet(s, env, earlier, ups, wait);
      assert Waits(s, env, t) == [wait];
    }
  }

  lemma DownSupplied(s: Shape, env: Env, earlier: Waves, layer: nat, row: nat)
    requires ShapeOk(s) && EnvOk(s, env) && layer < s.layers
    requires [RouteFinalize(layer)] in earlier && seq(s.downClaimers, _ => MoeDownDrain(layer)) in earlier
    ensures WaitsMet(s, env, earlier, MoeDownWaits(s, env, layer, row))
  {
    hide WaitsMet;
    hide DownQueue;
    hide DownTaskCount;
    RouteSupplied(s, env, earlier, layer);
    var wait := Wait(Bar(BMoeDown, layer), DownTaskCount(s, env, layer));
    var downs := seq(s.downClaimers, _ => MoeDownDrain(layer));
    ClaimerHits(s, env, layer, wait.bar);
    QueueHits(s, env, layer, wait.bar);
    OneWaitMet(s, env, earlier, downs, wait);
    EmptyMet(s, env, earlier);
    WaitsMetConcat(s, env, earlier, [Wait(Bar(BRoute, layer), 1)],
      if Active(env, row) then [wait] else []);
  }

  lemma MoeCombineMet(s: Shape, env: Env, earlier: Waves, layer: nat)
    requires ShapeOk(s) && EnvOk(s, env) && layer < s.layers
    requires [RouteFinalize(layer)] in earlier && seq(s.downClaimers, _ => MoeDownDrain(layer)) in earlier
    ensures WaveMet(s, env, earlier, seq(s.batch, (row: nat) => MoeCombine(layer, row)))
  {
    hide WaitsMet;
    hide MoeDownWaits;
    forall row: nat | row < s.batch ensures InstMet(s, env, earlier, MoeCombine(layer, row)) {
      DownSupplied(s, env, earlier, layer, row);
    }
  }

  lemma MoeMet(s: Shape, env: Env, pre: Waves, layer: nat)
    requires ShapeOk(s) && EnvOk(s, env) && layer < s.layers
    requires [RouteFinalize(layer)] in pre && GatherWave(s, layer) in pre
    ensures MetFrom(s, env, pre, MoeWaves(s, layer))
  {
    hide WaveMet;
    hide GatherWave;
    var ups := seq(s.upClaimers, _ => MoeUpDrain(layer));
    var downs := seq(s.downClaimers, _ => MoeDownDrain(layer));
    UpDrainMet(s, env, pre, layer, ups);
    MetOne(s, env, pre, ups);
    DownDrainMet(s, env, pre + [ups], layer, downs);
    MetSnoc(s, env, pre, [ups], downs);
    if s.atomicCombine {
      assert MoeWaves(s, layer) == [ups] + [downs];
    } else {
      var combine := seq(s.batch, (row: nat) => MoeCombine(layer, row));
      MoeCombineMet(s, env, pre + ([ups] + [downs]), layer);
      MetSnoc(s, env, pre, [ups] + [downs], combine);
      assert MoeWaves(s, layer) == [ups] + [downs] + [combine];
    }
  }

  // ---- the layer join ----

  /** The feed-forward side of the join: every arrival it waits for has a producer. */
  lemma FfnSupplied(s: Shape, env: Env, earlier: Waves, layer: nat, row: nat)
    requires ShapeOk(s) && EnvOk(s, env) && layer < s.layers
    requires !IsMoe(s, layer) ==> DownWave(s, layer) in earlier
    requires IsMoe(s, layer) ==>
      [RouteFinalize(layer)] in earlier && seq(s.downClaimers, _ => MoeDownDrain(layer)) in earlier
    requires IsMoe(s, layer) && !s.atomicCombine ==>
      seq(s.batch, (r: nat) => MoeCombine(layer, r)) in earlier
    ensures var ffn := FfnTarget(s, layer);
      WaitsMet(s, env, earlier,
        if ffn < 0 then MoeDownWaits(s, env, layer, row)
        else if ffn > 0 then [Wait(Bar(BFfnDown, layer), ffn)] else [])
  {
    hide WaitsMet;
    hide MoeDownWaits;
    hide DownWave;
    EmptyMet(s, env, earlier);
    if !IsMoe(s, layer) {
      var wait := Wait(Bar(BFfnDown, layer), |DownWave(s, layer)|);
      DownHits(s, layer, wait.bar);
      DownDrainsNothing(s, layer);
      MeetWith(s, env, earlier, DownWave(s, layer), wait);
      OneWaitMet(s, env, earlier, DownWave(s, layer), wait);
    } else if s.atomicCombine {
      DownSupplied(s, env, earlier, layer, row);
    } else {
      var combine := seq(s.batch, (r: nat) => MoeCombine(layer, r));
      var wait := Wait(Bar(BFfnDown, layer), s.batch);
      UniformHits(s, combine, Some(wait.bar), wait.bar);
      MeetWith(s, env, earlier, combine, wait);
      OneWaitMet(s, env, earlier, combine, wait);
    }
  }

  lemma DownDrainsNothing(s: Shape, layer: nat)
    requires ShapeOk(s)
    ensures DrainedBy(DownWave(s, layer)) == None
  {
    GridFirst(s.downSplits, s.dTiles, DownTile(s, layer));
  }

  lemma OprojSupplied(s: Shape, env: Env, earlier: Waves, layer: nat)
    requires ShapeOk(s) && EnvOk(s, env) && OprojWave(s, layer) in earlier
    ensures WaitsMet(s, env, earlier, [Wait(Bar(BOproj, layer), OprojTiles(s))])
  {
    hide OprojTiles;
    var wait := Wait(Bar(BOproj, layer), OprojTiles(s));
    GridFirst(s.oprojSplits, s.dTiles, OprojTile(s, layer));
    OprojHits(s, layer, wait.bar);
    MeetWith(s, env, earlier, OprojWave(s, layer), wait);
    OneWaitMet(s, env, earlier, OprojWave(s, layer), wait);
  }

  lemma RmsNormMet(s: Shape, env: Env, earlier: Waves, layer: nat)
    requires ShapeOk(s) && EnvOk(s, env) && layer < s.layers && OprojWave(s, layer) in earlier
    requires !IsMoe(s, layer) ==> DownWave(s, layer) in earlier
    requires IsMoe(s, layer) ==>
      [RouteFinalize(layer)] in earlier && seq(s.downClaimers, _ => MoeDownDrain(layer)) in earlier
    requires IsMoe(s, layer) && !s.atomicCombine ==>
      seq(s.batch, (r: nat) => MoeCombine(layer, r)) in earlier
    ensures WaveMet(s, env, earlier, RmsNormWave(s, layer))
  {
    hide WaitsMet;
    hide MoeDownWaits;
    hide OprojWave;
    hide DownWave;
    hide FfnTarget;
    hide OprojTiles;
    OprojSupplied(s, env, earlier, layer);
    forall row: nat | row < s.batch
      ensures InstMet(s, env, earlier, RmsNormWave(s, layer)[row])
    {
      var ffn := FfnTarget(s, layer);
      FfnSupplied(s, env, earlier, layer, row);
      WaitsMetConcat(s, env, earlier,
        if ffn < 0 then MoeDownWaits(s, env, layer, row)
        else if ffn > 0 then [Wait(Bar(BFfnDown, layer), ffn)] else [],
        [Wait(Bar(BOproj, layer), OprojTiles(s))]);
    }
  }

  // ---- whole layers ----

  lemma HeadMet(s: Shape, env: Env, pre: Waves, layer: nat)
    requires ShapeOk(s) && EnvOk(s, env) && layer < s.layers && InputReady(s, env, pre, layer)
    ensures MetFrom(s, env, pre, HeadWaves(s, layer))
  {
    hide WaveMet;
    hide QkvWave;
    hide RouterWave;
    hide TopkWave;
    hide GatherWave;
    hide UpgateWave;
    hide InputReady;
    var q := QkvWave(s, layer);
    QkvMet(s, env, pre, layer);
    MetOne(s, env, pre, q);
    InputKept(s, env, pre, [q], layer);
    if IsMoe(s, layer) {
      var r, t, f, g := RouterWave(s, layer), TopkWave(s, layer), [RouteFinalize(layer)], GatherWave(s, layer);
      RouterMet(s, env, pre + [q], layer);
      MetSnoc(s, env, pre, [q], r);
      TopkMet(s, env, pre + ([q] + [r]), layer);
      MetSnoc(s, env, pre, [q] + [r], t);
      AfterTopk(s, env, pre + ([q] + [r] + [t]), layer);
      MetSnoc(s, env, pre, [q] + [r] + [t], f);
      AfterTopk(s, env, pre + ([q] + [r] + [t] + [f]), layer);
      MetSnoc(s, env, pre, [q] + [r] + [t] + [f], g);
      assert HeadWaves(s, layer) == [q] + [r] + [t] + [f] + [g];
    } else {
      UpgateMet(s, env, pre + [q], layer);
      MetSnoc(s, env, pre, [q], UpgateWave(s, layer));
      assert HeadWaves(s, layer) == [q] + [UpgateWave(s, layer)];
    }
  }

  lemma TailMet(s: Shape, env: Env, pre: Waves, layer: nat)
    requires ShapeOk(s) && EnvOk(s, env) && layer < s.layers
    ensures MetFrom(s, env, pre + HeadWaves(s, layer) + AttnWaves(s, layer), TailWaves(s, layer))
  {
    hide WaveMet;
    hide AttnWaves;
    hide OprojWave;
    hide RmsNormWave;
    hide DownWave;
    hide GatherWave;
    hide UpgateWave;
    hide QkvWave;
    hide RouterWave;
    hide TopkWave;
    var before := pre + HeadWaves(s, layer) + AttnWaves(s, layer);
    var front := if IsMoe(s, layer) then MoeWaves(s, layer) else [DownWave(s, layer)];
    if IsMoe(s, layer) {
      MoeMet(s, env, before, layer);
    } else {
      DownMet(s, env, before, layer);
      MetOne(s, env, before, DownWave(s, layer));
    }
    var o, r := OprojWave(s, layer), RmsNormWave(s, layer);
    OprojMet(s, env, pre + HeadWaves(s, layer), front, layer);
    MetSnoc(s, env, before, front, o);
    RmsNormMet(s, env, before + (front + [o]), layer);
    MetSnoc(s, env, before, front + [o], r);
    assert TailWaves(s, layer) == front + [o] + [r];
  }

  lemma LayerMet(s: Shape, env: Env, pre: Waves, layer: nat)
    requires ShapeOk(s) && EnvOk(s, env) && layer < s.layers && InputReady(s, env, pre, layer)
    ensures MetFrom(s, env, pre, LayerWaves(s, layer))
  {
    LayerSplit(s, layer);
    QkvFirst(s, layer);
    LayerMetFrom(s, env, pre, layer);
  }

  lemma QkvFirst(s: Shape, layer: nat)
    requires ShapeOk(s) && layer < s.layers
    ensures QkvWave(s, layer) in HeadWaves(s, layer)
  {
  }

  lemma LayerMetFrom(s: Shape, env: Env, pre: Waves, layer: nat)
    requires ShapeOk(s) && EnvOk(s, env) && layer < s.layers && InputReady(s, env, pre, layer)
    requires QkvWave(s, layer) in HeadWaves(s, layer)
    ensures MetFrom(s, env, pre, HeadWaves(s, layer) + AttnWaves(s, layer) + TailWaves(s, layer))
  {
    hide HeadWaves;
    hide AttnWaves;
    hide TailWaves;
    hide QkvWave;
    hide MetFrom;
    var h, a, t := HeadWaves(s, layer), AttnWaves(s, layer), TailWaves(s, layer);
    HeadMet(s, env, pre, layer);
    AttnMet(s, env, pre + h, layer);
    MetConcat(s, env, pre, h, a);
    TailMet(s, env, pre, layer);
    assert pre + h + a == pre + (h + a);
    MetConcat(s, env, pre, h + a, t);
  }

  /** The layer before has joined: the next layer's input is complete. */
  lemma NextInputReady(s: Shape, env: Env, n: nat)
    requires ShapeOk(s) && EnvOk(s, env) && n < s.layers
    ensures InputReady(s, env, LayersUpTo(s, n), n)
  {
    hide LayerWaves;
    if n > 0 {
      var bar := Bar(BLayer, n);
      LayerHits(s, env, n - 1, bar);
      FlatHitsConcat(s, env, LayersUpTo(s, n - 1), LayerWaves(s, n - 1), bar);
    }
  }

  lemma {:induction false} LayersMet(s: Shape, env: Env, n: nat)
    requires ShapeOk(s) && EnvOk(s, env) && n <= s.layers
    ensures MetFrom(s, env, [], LayersUpTo(s, n))
  {
    hide LayerWaves;
    hide WaveMet;
    if n > 0 {
      LayersMet(s, env, n - 1);
      NextInputReady(s, env, n - 1);
      LayerMet(s, env, LayersUpTo(s, n - 1), n - 1);
      assert [] + LayersUpTo(s, n - 1) == LayersUpTo(s, n - 1);
      MetConcat(s, env, [], LayersUpTo(s, n - 1), LayerWaves(s, n - 1));
    }
  }

  /** The LM head: two batches of arrivals on the last join counter. Only a model with
      at least two layers makes them. */
  lemma LmHeadMet(s: Shape, env: Env)
    requires ShapeOk(s) && EnvOk(s, env) && s.layers >= 2
    ensures WaveMet(s, env, LayersUpTo(s, s.layers), LmHeadWave(s))
  {
    hide LayersUpTo;
    hide FlatHits;
    var bar := Bar(BLayer, s.layers - 1);
    LayersHits(s, env, s.layers, bar);
    LastTwo(s, env, bar);
    var w := LmHeadWave(s);
    forall i | 0 <= i < |w| ensures InstMet(s, env, LayersUpTo(s, s.layers), w[i]) {
      assert Waits(s, env, w[i]) == [Wait(bar, 2 * s.batch)];
    }
  }

  lemma LastTwo(s: Shape, env: Env, bar: Bar)
    requires ShapeOk(s) && EnvOk(s, env) && s.layers >= 2 && bar == Bar(BLayer, s.layers - 1)
    ensures Below(s, env, s.layers, bar) >= 2 * s.batch
  {
    assert Below(s, env, s.layers, bar) ==
      Below(s, env, s.layers - 2, bar) + OfLayer(s, env, s.layers - 2, bar) + OfLayer(s, env, s.layers - 1, bar);
  }

  lemma AllMet(s: Shape, env: Env)
    requires ShapeOk(s) && EnvOk(s, env) && s.layers >= 2
    ensures WavesMet(s, env, AllWaves(s))
  {
    hide LayersUpTo;
    hide LmHeadWave;
    hide InstMet;
    LayersMet(s, env, s.layers);
    LmHeadMet(s, env);
    assert [] + LayersUpTo(s, s.layers) == LayersUpTo(s, s.layers);
    MetSnoc(s, env, [], LayersUpTo(s, s.layers), LmHeadWave(s));
    var waves := AllWaves(s);
    forall k, i | 0 <= k < |waves| && 0 <= i < |waves[k]|
      ensures InstMet(s, env, waves[..k], waves[k][i])
    {
      assert WaveMet(s, env, [] + waves[..k], waves[k]);
      assert [] + waves[..k] == waves[..k];
    }
  }
}
