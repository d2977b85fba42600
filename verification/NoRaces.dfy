/** Main result about ordering: the kernel has no data races, except where an attention split
    without anything to read overwrites a partial of an earlier layer. Any other two
    instructions that touch one cell in conflicting ways run in their intended order in every
    run, whatever the placement and the interleaving. */
module NoRaces {
  import opened Arithmetic
  import opened Wrappers
  import opened Machine
  import opened Schedule
  import opened Arrivals
  import opened WaveArrivals
  import opened LayerArrivals
  import opened MoeQueues
  import opened DecodePlan
  import opened DecodeSupply
  import opened DecodeInsts
  import opened DecodeProgress
  import opened HappensBefore
  import opened Producers
  import opened LayerEntry
  import opened AttnEntry
  import opened LayerComplete
  import opened LayerOrder
  import opened Buffers
  import opened OneOfEach

  // ---- which counter stands for which columns ----

  lemma DivDiv(a: nat, b: nat, c: nat)
    requires b > 0 && c > 0
    ensures (a / b) / c == a / (c * b)
  {
    var q := (a / b) / c;
    DivBounds(a / b, c, q);
    DivBounds(a, b, a / b);
    MulGrows(q * c, a / b, b);
    MulGrows(a / b + 1, q * c + c, b);
    assert (a / b + 1) * b == (a / b) * b + b;
    assert (q * c + c) * b == (q * c) * b + c * b;
    assert q * (c * b) == (q * c) * b;
    DivBounds(a, c * b, q);
  }

  /** Rounding a column down to its tile does not change the head it lies in. */
  lemma ColumnHead(col: nat, bn: nat, hd: nat)
    requires bn > 0 && hd > 0 && hd % bn == 0
    ensures ((col / bn) * bn) / hd == col / hd
  {
    var k := hd / bn;
    assert k * bn == hd;
    DivDiv(col, bn, k);
    TileBand(bn, hd, col / bn, col / hd);
    DivBounds(col / bn, k, col / hd);
  }

  lemma InSplitDiv(col: nat, split: nat, unit: nat, splits: nat)
    requires unit > 0 && splits > 0
    ensures InSplit(col, split, unit * splits, splits) <==> col / unit == split
  {
    assert split * (unit * splits) == (split * unit) * splits;
    DivBounds(col, unit, split);
    if split * unit <= col { MulGrows(split * unit, col, splits); } else { MulApart(col, split * unit, splits); }
    if col < split * unit + unit {
      MulApart(col, split * unit + unit, splits);
      DistributeOver(split * unit, unit, splits);
    } else {
      MulGrows(split * unit + unit, col, splits);
      DistributeOver(split * unit, unit, splits);
    }
  }

  lemma QkvColumn(s: Shape, env: Env, x: Inst, c: Cell, kvh: nat)
    requires ShapeOk(s) && EnvOk(s, env) && Built(s, env, x) && x.QkvProj? && Touches(s, env, x, c, Write)
    requires if c.QCol? then c.col / HeadCols(s) == kvh else c.col / s.hd == kvh
    ensures Arrive(s, x) == Some(Bar(BQkv, x.layer * s.hkv + kvh))
  {
    hide QTiles;
    hide KvTiles;
    ColumnHead(c.col, s.qkvBn, s.hd);
    if c.QCol? {
      DivDiv(c.col, s.hd, HeadsPerKvPos(s));
    }
  }

  lemma HeadColumn(s: Shape, col: nat, split: nat)
    requires ShapeOk(s) && InSplit(col, split, s.hq * s.hd, s.oprojSplits)
    ensures (col / HeadCols(s)) / KvPerOprojPos(s) == split
  {
    hide InSplit;
    var unit := KvPerOprojPos(s) * HeadCols(s);
    WidthOf(s);
    InSplitDiv(col, split, unit, s.oprojSplits);
    DivDiv(col, HeadCols(s), KvPerOprojPos(s));
  }

  lemma WidthOf(s: Shape)
    requires ShapeOk(s)
    ensures HeadCols(s) > 0 && KvPerOprojPos(s) * HeadCols(s) > 0
    ensures (KvPerOprojPos(s) * HeadCols(s)) * s.oprojSplits == s.hq * s.hd
  {
    var p, h, u := KvPerOprojPos(s), HeadsPerKvPos(s), s.oprojSplits;
    assert (p * (h * s.hd)) * u == (p * u) * (h * s.hd) by { Shuffle(p, h * s.hd, u); }
    assert s.hkv * (h * s.hd) == (s.hkv * h) * s.hd by { MulAssoc(s.hkv, h, s.hd); }
    MulGrows(1, h, s.hd);
    MulGrows(1, p, h * s.hd);
  }

  lemma Shuffle(a: nat, b: nat, c: nat)
    ensures (a * b) * c == (a * c) * b
  {
  }

  // ---- who clashes with whom inside one layer ----

  /** z comes before y in the same layer, and they clash on c. */
  ghost predicate InLayer(s: Shape, env: Env, z: Inst, y: Inst, c: Cell)
    requires ShapeOk(s) && EnvOk(s, env)
  {
    && Built(s, env, z) && Built(s, env, y)
    && LayerOf(s, z) == LayerOf(s, y) && Phase(z) < Phase(y)
    && Clash(s, env, z, y, c)
  }

  lemma OnJoined(s: Shape, env: Env, z: Inst, y: Inst, c: Cell)
    requires ShapeOk(s) && EnvOk(s, env) && InLayer(s, env, z, y, c)
    requires c.Resid? || c.RawSum? || c.AttnSum? || c.FfnSum?
    ensures y.AddRmsNorm? && !z.AddRmsNorm? && Real(z)
    ensures c.Resid? || c.RawSum? ==> Active(env, y.row)
    ensures c.AttnSum? ==> z.OProj?
    ensures c.FfnSum? ==> z.FfnDown? || z.MoeCombine? || (z.MoeDownTask? && Active(env, y.row))
  {
    hide InSplit;
    hide BlocksPerExpert;
    hide DownEntry;
    hide CeilDiv;
  }

  lemma OnHeads(s: Shape, env: Env, z: Inst, y: Inst, c: Cell)
    requires ShapeOk(s) && EnvOk(s, env) && InLayer(s, env, z, y, c)
    requires c.QCol? || c.KCol? || c.VCol? || c.Partial? || c.HeadCol?
    ensures c.QCol? || c.KCol? || c.VCol? ==>
      && z.QkvProj? && Touches(s, env, z, c, Write) && y.AttnDecode? && !Idle(env, y)
      && (if c.QCol? then c.col / HeadCols(s) == y.kvh else c.col / s.hd == y.kvh)
    ensures c.Partial? ==>
      z.AttnDecode? && z.numSplits > 1 && y.AttnCombine? && z.row == y.row && z.kvh == y.kvh
    ensures c.HeadCol? ==>
      && y.OProj? && InSplit(c.col, y.split, s.hq * s.hd, s.oprojSplits)
      && (z.AttnCombine? || (z.AttnDecode? && z.numSplits <= 1)) && c.col / HeadCols(s) == z.kvh
  {
    hide InSplit;
    hide Idle;
    hide HeadCols;
    hide QkvWait;
    hide KvOfQTile;
    hide HeadOfTile;
    hide QTiles;
    hide KvTiles;
  }

  lemma OnFeed(s: Shape, env: Env, z: Inst, y: Inst, c: Cell)
    requires ShapeOk(s) && EnvOk(s, env) && InLayer(s, env, z, y, c)
    requires c.Silu? || c.RouterLogit? || c.RouteRow? || c.TaskTable? || c.ExpertIn? || c.Hidden? || c.ExpertOut?
    ensures c.Silu? ==>
      y.FfnDown? && InSplit(c.tile, y.split, s.upTiles, s.downSplits) && z.FfnUpgate? && z.tileN == c.tile
    ensures c.RouterLogit? ==> y.RouterTopk? && z.RouterGemm?
    ensures c.RouteRow? ==> z.RouterTopk? && (y.RouteFinalize? || y.MoeGather? || y.MoeDownTask? || y.MoeCombine?)
    ensures c.TaskTable? ==> z.RouteFinalize? && (y.MoeUpTask? || y.MoeDownTask?)
    ensures c.ExpertIn? ==> z.MoeGather? && y.MoeUpTask?
    ensures c.Hidden? ==> z.MoeUpTask? && y.MoeDownTask? && z.expert == y.expert && z.block == y.block
    ensures c.ExpertOut? ==> z.MoeDownTask? && y.MoeCombine? && Active(env, y.row)
  {
    hide InSplit;
    hide BlocksPerExpert;
    hide CeilDiv;
  }

  lemma NotOnLogits(s: Shape, env: Env, z: Inst, y: Inst, c: Cell)
    requires ShapeOk(s) && EnvOk(s, env) && InLayer(s, env, z, y, c)
    ensures !c.LmLogit?
  {
    hide InSplit;
    hide BlocksPerExpert;
    hide CeilDiv;
  }

  // ---- each such pair is ordered in every run ----

  ghost predicate Pair(r: Run, y: nat, z: nat, c: Cell)
    requires RunOk(r)
  {
    && y < |Insts(r)| && z < |Insts(r)| && MayStart(r, y)
    && InLayer(r.s, r.env, Insts(r)[z], Insts(r)[y], c)
  }

  lemma JoinedOrdered(r: Run, y: nat, z: nat, c: Cell)
    requires RunOk(r) && RoutesSome(r.s, r.env) && Pair(r, y, z, c)
    requires c.Resid? || c.RawSum? || c.AttnSum? || c.FfnSum?
    ensures Done(r, z)
  {
    hide InstsOf;
    hide Decode;
    hide Exec;
    hide Done;
    hide MayStart;
    hide Projected;
    hide Clash;
    hide Touches;
    hide DownWave;
    hide Satisfied;
    OnJoined(r.s, r.env, Insts(r)[z], Insts(r)[y], c);
    var l := Insts(r)[y].layer;
    if Active(r.env, Insts(r)[y].row) {
      LayerJoined(r, l, y, z);
    } else if c.AttnSum? {
      ProjectionJoined(r, l, y);
      ProjectedDone(r, l, z);
    } else if Insts(r)[z].FfnDown? {
      DenseJoined(r, l, y, z);
    } else {
      CombinesJoined(r, l, y, z);
    }
  }

  lemma CombinesJoined(r: Run, l: nat, y: nat, z: nat)
    requires RunOk(r) && l < r.s.layers && y < |Insts(r)| && MayStart(r, y)
    requires Insts(r)[y].AddRmsNorm? && Insts(r)[y].layer == l
    requires z < |Insts(r)| && Insts(r)[z].MoeCombine? && Insts(r)[z].layer == l
    ensures Done(r, z)
  {
    hide InstsOf;
    hide Decode;
    hide Exec;
    hide Done;
    hide MayStart;
    hide Satisfied;
    hide DownWave;
    BuiltAt(r, y);
    BuiltAt(r, z);
    NormWaits(r.s, r.env, Insts(r)[y]);
    Waited(r, y, Wait(Bar(BFfnDown, l), r.s.batch));
    LayerProducersDone(r, Wait(Bar(BFfnDown, l), r.s.batch), l, z);
  }

  lemma QkvOrdered(r: Run, y: nat, z: nat, c: Cell)
    requires RunOk(r) && Pair(r, y, z, c) && (c.QCol? || c.KCol? || c.VCol?)
    ensures Done(r, z)
  {
    hide InstsOf;
    hide Decode;
    hide Exec;
    hide Done;
    hide MayStart;
    hide Satisfied;
    hide Clash;
    hide Touches;
    hide QkvWait;
    hide Idle;
    hide OfLayer;
    hide OwnedBy;
    OnHeads(r.s, r.env, Insts(r)[z], Insts(r)[y], c);
    var l, kvh := Insts(r)[y].layer, Insts(r)[y].kvh;
    QkvColumn(r.s, r.env, Insts(r)[z], c, kvh);
    var w := Wait(Bar(BQkv, l * r.s.hkv + kvh), QkvWait(r.s));
    assert Waits(r.s, r.env, Insts(r)[y]) == [w];
    Waited(r, y, w);
    var k := QkvSlot(r.s, r.env, Insts(r)[z]);
    LayerProducersDone(r, w, l, z);
  }

  lemma PartialOrdered(r: Run, y: nat, z: nat, c: Cell)
    requires RunOk(r) && Pair(r, y, z, c) && c.Partial?
    ensures Done(r, z)
  {
    hide InstsOf;
    hide Decode;
    hide Exec;
    hide Done;
    hide MayStart;
    hide Satisfied;
    hide Clash;
    hide Touches;
    hide Waits;
    hide QkvWait;
    hide OfLayer;
    hide OwnedBy;
    OnHeads(r.s, r.env, Insts(r)[z], Insts(r)[y], c);
    var x := Insts(r)[y];
    CombineWaits(r.s, r.env, x);
    var w := CombineWait(r.s, r.env, x.layer, x.row, x.kvh);
    Waited(r, y, w);
    CombineTotal(r.s, r.env, x.layer, x.row, x.kvh);
    LayerProducersDone(r, w, x.layer, z);
  }

  lemma HeadOrdered(r: Run, y: nat, z: nat, c: Cell)
    requires RunOk(r) && Pair(r, y, z, c) && c.HeadCol?
    ensures Done(r, z)
  {
    hide InstsOf;
    hide Decode;
    hide Exec;
    hide Done;
    hide MayStart;
    hide Satisfied;
    hide Clash;
    hide Touches;
    hide Waits;
    hide QkvWait;
    hide KvPerOproj;
    hide KvPerOprojPos;
    OnHeads(r.s, r.env, Insts(r)[z], Insts(r)[y], c);
    var x := Insts(r)[y];
    HeadColumn(r.s, c.col, x.split);
    OprojWaits(r.s, r.env, x);
    Waited(r, y, HeadWait(r.s, x.layer, x.split));
    LastSlot(r.s, r.env, Insts(r)[z]);
    HeadsDone(r, x.layer, x.split, z);
  }

  lemma LastSlot(s: Shape, env: Env, x: Inst)
    requires ShapeOk(s) && EnvOk(s, env) && Built(s, env, x)
    requires x.AttnCombine? || (x.AttnDecode? && x.numSplits <= 1)
    ensures Arrive(s, x) == Some(HeadBar(s, x.layer, x.kvh / KvPerOprojPos(s)))
  {
    hide QkvWait;
    hide KvPerOproj;
    hide KvPerOprojPos;
  }

  lemma SiluOrdered(r: Run, y: nat, z: nat, c: Cell)
    requires RunOk(r) && Pair(r, y, z, c) && c.Silu?
    ensures Done(r, z)
  {
    hide InstsOf;
    hide Decode;
    hide Exec;
    hide Done;
    hide MayStart;
    hide Satisfied;
    hide Clash;
    hide Touches;
    hide Waits;
    hide OfLayer;
    hide OwnedBy;
    OnFeed(r.s, r.env, Insts(r)[z], Insts(r)[y], c);
    var x := Insts(r)[y];
    var g := SiluFacts(r.s, r.env, Insts(r)[z]);
    SiluTile(r.s, Insts(r)[z], x.split);
    DownWaits(r.s, r.env, x);
    Waited(r, y, SiluWait(r.s, x.layer, x.split));
    LayerProducersDone(r, SiluWait(r.s, x.layer, x.split), x.layer, z);
  }

  lemma SiluTile(s: Shape, x: Inst, split: nat)
    requires ShapeOk(s) && x.FfnUpgate? && InSplit(x.tileN, split, s.upTiles, s.downSplits)
    ensures Arrive(s, x) == Some(SiluWait(s, x.layer, split).bar)
  {
    hide InSplit;
    InSplitDiv(x.tileN, split, SiluPerSplitPos(s), s.downSplits);
  }

  lemma RoutingOrdered(r: Run, y: nat, z: nat, c: Cell)
    requires RunOk(r) && Pair(r, y, z, c) && (c.RouterLogit? || c.RouteRow? || c.TaskTable?)
    ensures Done(r, z)
  {
    hide InstsOf;
    hide Decode;
    hide Exec;
    hide Done;
    hide MayStart;
    hide Satisfied;
    hide Clash;
    hide Touches;
    hide DownTaskCount;
    OnFeed(r.s, r.env, Insts(r)[z], Insts(r)[y], c);
    var x := Insts(r)[y];
    if x.RouterTopk? {
      var w := Wait(Bar(BRouter, x.layer), r.s.routerTiles * r.s.routerSplits);
      Waited(r, y, w);
      LayerProducersDone(r, w, x.layer, z);
    } else if x.RouteFinalize? || x.MoeGather? {
      var w := Wait(Bar(BTopk, x.layer), r.s.batch);
      Waited(r, y, w);
      LayerProducersDone(r, w, x.layer, z);
    } else {
      if x.MoeCombine? { Waited(r, y, Wait(Bar(BRoute, x.layer), 1)); } else { ExpertTaskGate(r, y); }
      RoutingDone(r, x.layer, z);
    }
  }

  lemma ExpertInOrdered(r: Run, y: nat, z: nat, c: Cell)
    requires RunOk(r) && Pair(r, y, z, c) && c.ExpertIn?
    ensures Done(r, z)
  {
    hide InstsOf;
    hide Decode;
    hide Exec;
    hide Done;
    hide MayStart;
    hide Satisfied;
    hide Clash;
    hide Touches;
    OnFeed(r.s, r.env, Insts(r)[z], Insts(r)[y], c);
    var w := Wait(Bar(BGather, Insts(r)[y].layer), r.s.batch);
    Waited(r, y, w);
    LayerProducersDone(r, w, Insts(r)[y].layer, z);
  }

  lemma HiddenOrdered(r: Run, y: nat, z: nat, c: Cell)
    requires RunOk(r) && Pair(r, y, z, c) && c.Hidden?
    ensures Done(r, z)
  {
    hide InstsOf;
    hide Decode;
    hide Exec;
    hide Done;
    hide MayStart;
    hide Satisfied;
    hide Clash;
    hide Touches;
    hide UpWaitTarget;
    hide FlatHits;
    hide MoeBlockBar;
    hide BlocksPerExpert;
    hide CeilDiv;
    OnFeed(r.s, r.env, Insts(r)[z], Insts(r)[y], c);
    var x := Insts(r)[y];
    var w := Wait(MoeBlockBar(r.s, x.layer, x.expert, x.block), x.waitTarget);
    Waited(r, y, w);
    TotalOnBlock(r.s, r.env, x.layer, x.expert, x.block);
    ProducersDone(r, w, z);
  }

  lemma ExpertOutOrdered(r: Run, y: nat, z: nat, c: Cell)
    requires RunOk(r) && Pair(r, y, z, c) && c.ExpertOut?
    ensures Done(r, z)
  {
    hide InstsOf;
    hide Decode;
    hide Exec;
    hide Done;
    hide MayStart;
    hide Satisfied;
    hide Clash;
    hide Touches;
    hide DownTaskCount;
    OnFeed(r.s, r.env, Insts(r)[z], Insts(r)[y], c);
    var x := Insts(r)[y];
    CombinedWaits(r.s, r.env, x.layer, x.row);
    Waited(r, y, Wait(Bar(BMoeDown, x.layer), DownTaskCount(r.s, r.env, x.layer)));
    DownTasksDone(r, x.layer, z);
  }

  // ---- partials that an empty split of a later layer overwrites ----

  /** The left radius of attention in layer l. */
  function WindowOf(s: Shape, l: nat): nat
    requires ShapeOk(s) && l < s.layers
  {
    if s.drain[l] then 0 else s.window[l]
  }

  /** Split p of the row has nothing to read in layer l. */
  predicate Blank(s: Shape, env: Env, l: nat, row: nat, p: nat)
    requires ShapeOk(s) && EnvOk(s, env) && l < s.layers && row < s.batch
  {
    EmptySplit(env, row, p, AttnSplits(s, env, l, row), WindowOf(s, l))
  }

  /** Layers k and l, in this order, both write split p of the row's partials, and in layer l
      that split waits for nothing. */
  predicate Overwrites(s: Shape, env: Env, row: nat, k: nat, l: nat, p: nat)
    requires ShapeOk(s) && EnvOk(s, env)
  {
    && k < l < s.layers && row < s.batch && env.active[row]
    && p < AttnSplits(s, env, k, row) && p < AttnSplits(s, env, l, row) && Blank(s, env, l, row, p)
  }

  /** No empty split of an active row shares its partial with an earlier layer. */
  ghost predicate SplitsSafe(s: Shape, env: Env)
    requires ShapeOk(s) && EnvOk(s, env)
  {
    forall row: nat, k: nat, l: nat, p: nat :: !Overwrites(s, env, row, k, l, p)
  }

  /** Such splits never overwrite more than zeros. */
  ghost predicate SplitsHarmless(s: Shape, env: Env)
    requires ShapeOk(s) && EnvOk(s, env)
  {
    forall row: nat, k: nat, l: nat, p: nat :: Overwrites(s, env, row, k, l, p) ==> Blank(s, env, k, row, p)
  }

  // ---- the theorem ----

  lemma TouchersAre(s: Shape, env: Env, x: Inst, c: Cell, m: Mode)
    requires ShapeOk(s) && Touches(s, env, x, c, m)
    ensures Orderly(env, x) || (Idle(env, x) && c == Partial(x.row, x.kvh, x.split))
    ensures Real(x)
  {
    hide InSplit;
    hide HeadCols;
    hide EmptySplit;
  }

  /** Who uses a split's partial. */
  lemma PartialUsers(s: Shape, env: Env, x: Inst, c: Cell, m: Mode)
    requires ShapeOk(s) && EnvOk(s, env) && Built(s, env, x) && Touches(s, env, x, c, m) && c.Partial?
    ensures x.AttnDecode? || x.AttnCombine?
    ensures c.row < s.batch && env.active[c.row] && c.split < AttnSplits(s, env, x.layer, c.row)
    ensures Idle(env, x) ==> Blank(s, env, x.layer, c.row, c.split)
  {
    hide EmptySplit;
    hide QkvWait;
  }

  /** When the later of two clashing instructions may start, the earlier one has finished,
      unless the later one is an empty split of a later layer. */
  lemma LaterWaits(r: Run, y: nat, z: nat, c: Cell)
    requires RunOk(r) && RoutesSome(r.s, r.env)
    requires y < |Insts(r)| && z < |Insts(r)| && MayStart(r, y)
    requires Clash(r.s, r.env, Insts(r)[z], Insts(r)[y], c) && Before(r.s, Insts(r)[z], Insts(r)[y])
    ensures Done(r, z) || (c.Partial? && Overwrites(r.s, r.env, c.row, LayerOf(r.s, Insts(r)[z]), LayerOf(r.s, Insts(r)[y]), c.split))
  {
    hide InstsOf;
    hide Decode;
    hide Exec;
    hide Done;
    hide MayStart;
    hide Satisfied;
    hide Touches;
    hide Built;
    hide Idle;
    hide Blank;
    var m: Mode, n: Mode :| Touches(r.s, r.env, Insts(r)[z], c, m) && Touches(r.s, r.env, Insts(r)[y], c, n);
    TouchersAre(r.s, r.env, Insts(r)[z], c, m);
    TouchersAre(r.s, r.env, Insts(r)[y], c, n);
    BuiltAt(r, y);
    BuiltAt(r, z);
    if LayerOf(r.s, Insts(r)[z]) == LayerOf(r.s, Insts(r)[y]) {
      InLayerOrdered(r, y, z, c);
    } else if Orderly(r.env, Insts(r)[y]) {
      LayersDoNotOverlap(r, y, z);
    } else {
      LayerBound(r, y);
      PartialUsers(r.s, r.env, Insts(r)[y], c, n);
      PartialUsers(r.s, r.env, Insts(r)[z], c, m);
    }
  }

  /** No instruction of the plan that touches anything is at two nodes. */
  lemma Apart(r: Run, y: nat, z: nat)
    requires RunOk(r) && y < |Insts(r)| && z < |Insts(r)| && y != z && Real(Insts(r)[y])
    ensures Insts(r)[y] != Insts(r)[z]
  {
    hide InstsOf;
    EachTaskOnce(r.s, r.env, r.sms, r.ablation);
    assert Once(Insts(r));
    if y < z { assert Insts(r)[y] != Insts(r)[z]; } else { assert Real(Insts(r)[z]) ==> Insts(r)[z] != Insts(r)[y]; }
  }

  /** Whatever the run, of any two nodes of the plan that touch one cell, not both reading nor
      both adding, one has finished once both may start; unless the cell is a partial that an
      empty split of the later layer overwrites. */
  lemma RaceIsOverwrite(r: Run, y: nat, z: nat, c: Cell)
    requires RunOk(r) && RoutesSome(r.s, r.env)
    requires y < |Insts(r)| && z < |Insts(r)| && y != z && MayStart(r, y) && MayStart(r, z)
    requires Clash(r.s, r.env, Insts(r)[y], Insts(r)[z], c) && !Done(r, y) && !Done(r, z)
    ensures c.Partial?
    ensures var k, l := LayerOf(r.s, Insts(r)[y]), LayerOf(r.s, Insts(r)[z]);
      Overwrites(r.s, r.env, c.row, k, l, c.split) || Overwrites(r.s, r.env, c.row, l, k, c.split)
  {
    hide InstsOf;
    hide Decode;
    hide Exec;
    hide Done;
    hide MayStart;
    hide Built;
    hide Before;
    hide Overwrites;
    var x, x' := Insts(r)[y], Insts(r)[z];
    Toucher(r.s, r.env, x, x', c);
    Apart(r, y, z);
    BuiltAt(r, y);
    BuiltAt(r, z);
    ClashesAreOrdered(r.s, r.env, x, x', c);
    if Before(r.s, x', x) { LaterWaits(r, y, z, c); } else { LaterWaits(r, z, y, c); }
  }

  /** No data races, when no empty split shares its partial with an earlier layer: in every
      state of every run, of any two nodes of the plan that touch one cell, not both reading
      nor both adding, one has finished once both may start. */
  lemma NoRace(r: Run, y: nat, z: nat, c: Cell)
    requires RunOk(r) && RoutesSome(r.s, r.env) && SplitsSafe(r.s, r.env)
    requires y < |Insts(r)| && z < |Insts(r)| && y != z && MayStart(r, y) && MayStart(r, z)
    requires Clash(r.s, r.env, Insts(r)[y], Insts(r)[z], c)
    ensures Done(r, y) || Done(r, z)
  {
    hide InstsOf;
    hide Decode;
    hide Exec;
    hide Done;
    hide MayStart;
    hide Clash;
    hide Overwrites;
    if !Done(r, y) && !Done(r, z) { RaceIsOverwrite(r, y, z, c); }
  }

  /** With the weaker condition, two nodes that are ever unordered on a cell both leave the
      zeros of an empty split there, or one of them reads those zeros. */
  lemma RacesAreBlank(r: Run, y: nat, z: nat, c: Cell)
    requires RunOk(r) && RoutesSome(r.s, r.env) && SplitsHarmless(r.s, r.env)
    requires y < |Insts(r)| && z < |Insts(r)| && y != z && MayStart(r, y) && MayStart(r, z)
    requires Clash(r.s, r.env, Insts(r)[y], Insts(r)[z], c) && !Done(r, y) && !Done(r, z)
    ensures c.Partial? && c.row < r.s.batch
    ensures forall x :: x == Insts(r)[y] || x == Insts(r)[z] ==>
      LayerOf(r.s, x) < r.s.layers && Blank(r.s, r.env, LayerOf(r.s, x), c.row, c.split)
  {
    hide InstsOf;
    hide Decode;
    hide Exec;
    hide Done;
    hide MayStart;
    hide Clash;
    hide Blank;
    RaceIsOverwrite(r, y, z, c);
  }

  lemma Toucher(s: Shape, env: Env, x: Inst, y: Inst, c: Cell)
    requires ShapeOk(s) && Clash(s, env, x, y, c)
    ensures Real(x) && Clash(s, env, y, x, c)
  {
    hide Touches;
    var m: Mode, n: Mode :| Touches(s, env, x, c, m) && Touches(s, env, y, c, n) && Conflict(m, n);
    TouchersAre(s, env, x, c, m);
  }

  lemma InLayerOrdered(r: Run, y: nat, z: nat, c: Cell)
    requires RunOk(r) && RoutesSome(r.s, r.env) && Pair(r, y, z, c)
    ensures Done(r, z)
  {
    hide InstsOf;
    hide Decode;
    hide Exec;
    hide Done;
    hide MayStart;
    hide Clash;
    hide Built;
    NotOnLogits(r.s, r.env, Insts(r)[z], Insts(r)[y], c);
    match c {
      case QCol(_, _) => QkvOrdered(r, y, z, c);
      case KCol(_, _) => QkvOrdered(r, y, z, c);
      case VCol(_, _) => QkvOrdered(r, y, z, c);
      case Partial(_, _, _) => PartialOrdered(r, y, z, c);
      case HeadCol(_, _) => HeadOrdered(r, y, z, c);
      case Silu(_) => SiluOrdered(r, y, z, c);
      case RouterLogit(_, _) => RoutingOrdered(r, y, z, c);
      case RouteRow(_, _) => RoutingOrdered(r, y, z, c);
      case TaskTable(_) => RoutingOrdered(r, y, z, c);
      case ExpertIn(_) => ExpertInOrdered(r, y, z, c);
      case Hidden(_, _, _) => HiddenOrdered(r, y, z, c);
      case ExpertOut(_, _, _) => ExpertOutOrdered(r, y, z, c);
      case _ => JoinedOrdered(r, y, z, c);
    }
  }
}
