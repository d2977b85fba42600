/** Attention, projection and join instructions also wait, through others, for the input
    of their layer. Only idle attention tasks do not: they write zeros without reading
    anything. */
module AttnEntry {
  import opened Arithmetic
  import opened Wrappers
  import opened Machine
  import opened Schedule
  import opened Arrivals
  import opened WaveArrivals
  import opened LayerArrivals
  import opened DecodePlan
  import opened DecodeSupply
  import opened DecodeInsts
  import opened DecodeProgress
  import opened HappensBefore
  import opened Producers
  import opened LayerEntry
  import opened SplitBlocks

  lemma DecodeEnters(r: Run, y: nat)
    requires RunOk(r) && y < |Insts(r)| && MayStart(r, y)
    requires Insts(r)[y].AttnDecode? && !Idle(r.env, Insts(r)[y])
    ensures Entered(r, Insts(r)[y].layer)
  {
    hide InstsOf;
    hide Decode;
    hide Exec;
    hide MayStart;
    hide Satisfied;
    hide QkvWait;
    hide Idle;
    BuiltAt(r, y);
    var x := Insts(r)[y];
    var w := Wait(Bar(BQkv, x.layer * r.s.hkv + x.kvh), x.waitTarget);
    assert Waits(r.s, r.env, x) == [w];
    Waited(r, y, w);
    QkvWaitPositive(r.s);
    var z := SomeProducer(r, w);
    BuiltAt(r, z);
    QkvLayer(r.s, r.env, Insts(r)[z], w.bar, x.layer);
    DoneReadersEnter(r, z);
  }

  lemma QkvWaitPositive(s: Shape)
    requires ShapeOk(s)
    ensures QkvWait(s) >= 1
  {
    assert TilesPerHead(s) * s.qkvBn == s.hd;
    assert TilesPerHead(s) >= 1;
    MulGrows(0, HeadsPerKv(s), TilesPerHead(s));
  }

  lemma SameCombine(s: Shape, l: nat, row: nat, kvh: nat, row': nat, kvh': nat)
    requires kvh < s.hkv && kvh' < s.hkv && CombineBar(s, l, row, kvh) == CombineBar(s, l, row', kvh')
    ensures row == row' && kvh == kvh'
  {
    IndexUnique(row, kvh, row', kvh', s.hkv);
  }

  /** The wait of a combine. */
  function CombineWait(s: Shape, env: Env, l: nat, row: nat, kvh: nat): Wait
    requires ShapeOk(s) && EnvOk(s, env) && l < s.layers && row < s.batch
  {
    Wait(CombineBar(s, l, row, kvh), AttnSplits(s, env, l, row))
  }

  lemma CombineWaits(s: Shape, env: Env, x: Inst)
    requires ShapeOk(s) && EnvOk(s, env) && Built(s, env, x) && x.AttnCombine?
    ensures Waits(s, env, x) == [CombineWait(s, env, x.layer, x.row, x.kvh)]
  {
  }

  lemma CombineProducer(s: Shape, env: Env, x: Inst, l: nat, row: nat, kvh: nat)
    requires ShapeOk(s) && EnvOk(s, env) && Built(s, env, x) && row < s.batch && kvh < s.hkv
    requires Arrive(s, x) == Some(CombineBar(s, l, row, kvh))
    ensures x.AttnDecode? && x.layer == l && x.row == row && x.kvh == kvh
  {
    hide QkvWait;
    RowSlot(s, row, kvh);
    CombineLayer(s, env, x, CombineBar(s, l, row, kvh), l);
    SameCombine(s, l, row, kvh, x.row, x.kvh);
  }

  /** All the arrivals on a combine counter are those of its own splits. */
  lemma CombineTotal(s: Shape, env: Env, l: nat, row: nat, kvh: nat)
    requires ShapeOk(s) && EnvOk(s, env) && l < s.layers && row < s.batch && kvh < s.hkv
    requires AttnSplits(s, env, l, row) > 1
    ensures OfLayer(s, env, l, CombineBar(s, l, row, kvh)) == AttnSplits(s, env, l, row)
    ensures OwnedBy(s, CombineBar(s, l, row, kvh), l)
  {
    hide AttnQueueTasks;
    RowSlot(s, row, kvh);
    if s.drain[l] { QueueCombineHits(s, env, l, s.batch, row, kvh); }
  }

  lemma CombineEnters(r: Run, y: nat)
    requires RunOk(r) && y < |Insts(r)| && MayStart(r, y)
    requires Insts(r)[y].AttnCombine? && Active(r.env, Insts(r)[y].row)
    ensures Entered(r, Insts(r)[y].layer)
  {
    hide InstsOf;
    hide Decode;
    hide Exec;
    hide MayStart;
    hide Satisfied;
    hide QkvWait;
    hide Idle;
    BuiltAt(r, y);
    var x := Insts(r)[y];
    CombineWaits(r.s, r.env, x);
    var w := CombineWait(r.s, r.env, x.layer, x.row, x.kvh);
    Waited(r, y, w);
    var z := DecodeHere(r, x.layer, x.row, x.kvh);
    CombineTotal(r.s, r.env, x.layer, x.row, x.kvh);
    LayerProducersDone(r, w, x.layer, z);
    DoneMayStart(r, z);
    FirstSplitReads(r.env, Insts(r)[z]);
    DecodeEnters(r, z);
  }

  // ---- each (row, head) has its tasks ----

  lemma {:induction false} RowTaskIn(s: Shape, l: nat, row: nat, kvhs: nat, n: nat, w: nat, kvh: nat, p: nat)
    requires ShapeOk(s) && kvh < kvhs && p < n
    ensures AttnDecode(l, row, kvh, p, n, w, QkvWait(s)) in AttnRowTasks(s, l, row, kvhs, n, w)
  {
    hide QkvWait;
    if kvh < kvhs - 1 {
      RowTaskIn(s, l, row, kvhs - 1, n, w, kvh, p);
    } else {
      assert AttnHeadTasks(s, l, row, kvh, n, w)[p] == AttnDecode(l, row, kvh, p, n, w, QkvWait(s));
    }
  }

  lemma {:induction false} StaticTaskIn(s: Shape, l: nat, rows: nat, row: nat, kvh: nat, p: nat)
    requires ShapeOk(s) && l < s.layers && row < rows && kvh < s.hkv && p < s.splits[l]
    ensures AttnDecode(l, row, kvh, p, s.splits[l], s.window[l], QkvWait(s)) in StaticAttnWave(s, l, rows)
  {
    hide QkvWait;
    if row < rows - 1 {
      StaticTaskIn(s, l, rows - 1, row, kvh, p);
    } else {
      RowTaskIn(s, l, row, s.hkv, s.splits[l], s.window[l], kvh, p);
    }
  }

  lemma {:induction false} QueueTaskIn(s: Shape, env: Env, l: nat, rows: nat, row: nat, kvh: nat, p: nat)
    requires ShapeOk(s) && EnvOk(s, env) && row < rows <= s.batch && kvh < s.hkv && p < env.rowSplits[row]
    ensures AttnDecode(l, row, kvh, p, env.rowSplits[row], 0, QkvWait(s)) in AttnQueueTasks(s, env, l, rows)
  {
    hide QkvWait;
    if row < rows - 1 {
      QueueTaskIn(s, env, l, rows - 1, row, kvh, p);
    } else {
      RowTaskIn(s, l, row, s.hkv, env.rowSplits[row], 0, kvh, p);
    }
  }

  lemma AttnWaveOfLayer(s: Shape, l: nat, w: seq<Inst>)
    requires ShapeOk(s) && l < s.layers && w in AttnWaves(s, l)
    ensures w in LayerWaves(s, l)
  {
    hide AttnWaves;
    hide HeadWaves;
    hide TailWaves;
    hide LayerWaves;
    LayerSplit(s, l);
    assert w in HeadWaves(s, l) + AttnWaves(s, l);
  }

  lemma DecodeHere(r: Run, l: nat, row: nat, kvh: nat) returns (z: nat)
    requires RunOk(r) && l < r.s.layers && row < r.s.batch && kvh < r.s.hkv
    ensures z < |Insts(r)|
    ensures var x := Insts(r)[z];
      && x.AttnDecode? && x.layer == l && x.row == row && x.kvh == kvh
      && x.split == 0 && x.numSplits == AttnSplits(r.s, r.env, l, row)
  {
    hide InstsOf;
    hide Decode;
    hide Exec;
    hide QkvWait;
    hide StaticAttnWave;
    hide AttnQueueTasks;
    hide CombineWave;
    hide LayerWaves;
    if r.s.drain[l] {
      var drains := seq(r.s.attnClaimers, _ => AttnDrain(l));
      QueueTaskIn(r.s, r.env, l, r.s.batch, row, kvh, 0);
      AttnWaveOfLayer(r.s, l, drains);
      z := Find(r, l, drains, AttnDecode(l, row, kvh, 0, r.env.rowSplits[row], 0, QkvWait(r.s)));
    } else {
      StaticTaskIn(r.s, l, r.s.batch, row, kvh, 0);
      AttnWaveOfLayer(r.s, l, StaticAttnWave(r.s, l, r.s.batch));
      z := Find(r, l, StaticAttnWave(r.s, l, r.s.batch),
        AttnDecode(l, row, kvh, 0, r.s.splits[l], r.s.window[l], QkvWait(r.s)));
    }
  }

  lemma {:induction false} GridHas(rows: nat, cols: nat, f: (nat, nat) -> Inst, i: nat, j: nat)
    requires i < rows && j < cols
    ensures f(i, j) in Grid(rows, cols, f)
  {
    if i < rows - 1 {
      GridHas(rows - 1, cols, f, i, j);
    } else {
      assert seq(cols, (c: nat) => f(rows - 1, c))[j] == f(i, j);
    }
  }

  lemma CombineHere(r: Run, l: nat, row: nat, kvh: nat) returns (z: nat)
    requires RunOk(r) && l < r.s.layers && row < r.s.batch && kvh < r.s.hkv
    requires AttnSplits(r.s, r.env, l, row) > 1
    ensures z < |Insts(r)|
    ensures var x := Insts(r)[z]; x.AttnCombine? && x.layer == l && x.row == row && x.kvh == kvh
  {
    hide InstsOf;
    hide Decode;
    hide Exec;
    hide CombineWave;
    hide LayerWaves;
    hide StaticAttnWave;
    var n := if r.s.drain[l] then DYNAMIC else r.s.splits[l];
    CombineIn(r.s, l, n, row, kvh);
    AttnWaveOfLayer(r.s, l, CombineWave(r.s, l, n));
    z := Find(r, l, CombineWave(r.s, l, n), CombineTile(r.s, l, n)(row, kvh));
  }

  lemma CombineIn(s: Shape, l: nat, n: nat, row: nat, kvh: nat)
    requires ShapeOk(s) && row < s.batch && kvh < s.hkv
    ensures CombineTile(s, l, n)(row, kvh) in CombineWave(s, l, n)
  {
    GridHas(s.batch, s.hkv, CombineTile(s, l, n), row, kvh);
  }

  // ---- the projection waits for all heads of its split ----

  /** The wait of O_PROJ split g. */
  function HeadWait(s: Shape, l: nat, g: nat): Wait
    requires ShapeOk(s)
  {
    Wait(HeadBar(s, l, g), s.batch * KvPerOprojPos(s))
  }

  lemma HeadTotal(s: Shape, env: Env, l: nat, g: nat)
    requires ShapeOk(s) && EnvOk(s, env) && l < s.layers && g < s.oprojSplits
    ensures OfLayer(s, env, l, HeadBar(s, l, g)) == HeadWait(s, l, g).target && OwnedBy(s, HeadBar(s, l, g), l)
  {
    hide KvPerOproj;
    hide KvPerOprojPos;
  }

  lemma HeadsDone(r: Run, l: nat, g: nat, z: nat)
    requires RunOk(r) && l < r.s.layers && g < r.s.oprojSplits && z < |Insts(r)|
    requires Satisfied(St(r), [HeadWait(r.s, l, g)])
    requires Arrive(r.s, Insts(r)[z]) == Some(HeadBar(r.s, l, g))
    ensures Done(r, z)
  {
    hide InstsOf;
    hide Decode;
    hide Exec;
    hide Arrive;
    hide Satisfied;
    hide OfLayer;
    hide OwnedBy;
    HeadTotal(r.s, r.env, l, g);
    LayerProducersDone(r, HeadWait(r.s, l, g), l, z);
  }

  predicate EndsHead(s: Shape, x: Inst, l: nat, row: nat, kvh: nat)
    requires ShapeOk(s)
  {
    && (x.AttnCombine? || (x.AttnDecode? && x.split == 0 && x.numSplits == 1)) && x.layer == l && x.row == row && x.kvh == kvh
    && Arrive(s, x) == Some(HeadBar(s, l, kvh / KvPerOprojPos(s)))
  }

  /** The last attention task of a (row, head): the combine, or the only split. */
  lemma LastOfHead(r: Run, l: nat, row: nat, kvh: nat) returns (z: nat)
    requires RunOk(r) && l < r.s.layers && row < r.s.batch && kvh < r.s.hkv
    ensures z < |Insts(r)|
    ensures EndsHead(r.s, Insts(r)[z], l, row, kvh)
  {
    hide InstsOf;
    hide KvPerOproj;
    hide KvPerOprojPos;
    hide Decode;
    hide Exec;
    hide QkvWait;
    if AttnSplits(r.s, r.env, l, row) > 1 {
      z := CombineHere(r, l, row, kvh);
      BuiltAt(r, z);
    } else {
      z := DecodeHere(r, l, row, kvh);
    }
  }

  lemma SplitHead(s: Shape, g: nat) returns (kvh: nat)
    requires ShapeOk(s) && g < s.oprojSplits
    ensures kvh < s.hkv && kvh / KvPerOprojPos(s) == g
  {
    kvh := g * KvPerOprojPos(s);
    HeadBandFits(s, g);
    DivExact(g, KvPerOprojPos(s));
  }

  lemma OprojWaits(s: Shape, env: Env, x: Inst)
    requires ShapeOk(s) && EnvOk(s, env) && Built(s, env, x) && x.OProj?
    ensures Waits(s, env, x) == [HeadWait(s, x.layer, x.split)]
  {
  }

  lemma OprojEnters(r: Run, y: nat)
    requires RunOk(r) && y < |Insts(r)| && MayStart(r, y) && Insts(r)[y].OProj?
    ensures Entered(r, Insts(r)[y].layer)
  {
    hide InstsOf;
    hide Decode;
    hide Exec;
    hide MayStart;
    hide Satisfied;
    hide Waits;
    BuiltAt(r, y);
    var x := Insts(r)[y];
    OprojWaits(r.s, r.env, x);
    Waited(r, y, HeadWait(r.s, x.layer, x.split));
    var row :| 0 <= row < r.s.batch && r.env.active[row];
    var kvh := SplitHead(r.s, x.split);
    var z := LastOfHead(r, x.layer, row, kvh);
    HeadsDone(r, x.layer, x.split, z);
    DoneMayStart(r, z);
    if Insts(r)[z].AttnCombine? {
      CombineEnters(r, z);
    } else {
      FirstSplitReads(r.env, Insts(r)[z]);
      DecodeEnters(r, z);
    }
  }

  lemma NormWaits(s: Shape, env: Env, x: Inst)
    requires ShapeOk(s) && EnvOk(s, env) && Built(s, env, x) && x.AddRmsNorm?
    ensures Wait(Bar(BOproj, x.layer), OprojTiles(s)) in Waits(s, env, x)
    ensures !IsMoe(s, x.layer) ==> Wait(Bar(BFfnDown, x.layer), |DownWave(s, x.layer)|) in Waits(s, env, x)
    ensures IsMoe(s, x.layer) && !s.atomicCombine ==> Wait(Bar(BFfnDown, x.layer), s.batch) in Waits(s, env, x)
    ensures IsMoe(s, x.layer) && s.atomicCombine ==> Wait(Bar(BRoute, x.layer), 1) in Waits(s, env, x)
    ensures IsMoe(s, x.layer) && s.atomicCombine && Active(env, x.row) ==>
      Wait(Bar(BMoeDown, x.layer), DownTaskCount(s, env, x.layer)) in Waits(s, env, x)
  {
    hide DownWave;
    hide OprojTiles;
    hide DownTaskCount;
    GridSize(s.downSplits, s.dTiles, DownTile(s, x.layer));
    MulGrows(1, s.downSplits, s.dTiles);
    DownWaveSize(s, x.layer);
    NormWaitList(s, env, x);
  }

  lemma DownWaveSize(s: Shape, l: nat)
    requires ShapeOk(s)
    ensures |DownWave(s, l)| == s.downSplits * s.dTiles
  {
    GridSize(s.downSplits, s.dTiles, DownTile(s, l));
  }

  lemma NormWaitList(s: Shape, env: Env, x: Inst)
    requires ShapeOk(s) && x.AddRmsNorm?
    ensures Waits(s, env, x) ==
      (if x.waitFfn < 0 then MoeDownWaits(s, env, x.layer, x.row)
       else if x.waitFfn > 0 then [Wait(Bar(BFfnDown, x.layer), x.waitFfn)] else []) +
      [Wait(Bar(BOproj, x.layer), x.waitOproj)]
    ensures Wait(Bar(BOproj, x.layer), x.waitOproj) in Waits(s, env, x)
    ensures x.waitFfn > 0 ==> Wait(Bar(BFfnDown, x.layer), x.waitFfn) in Waits(s, env, x)
    ensures x.waitFfn < 0 ==> forall w :: w in MoeDownWaits(s, env, x.layer, x.row) ==> w in Waits(s, env, x)
  {
    hide DownTaskCount;
  }

  lemma NormEnters(r: Run, y: nat)
    requires RunOk(r) && y < |Insts(r)| && MayStart(r, y) && Insts(r)[y].AddRmsNorm?
    ensures Entered(r, Insts(r)[y].layer)
  {
    hide InstsOf;
    hide Decode;
    hide Exec;
    hide MayStart;
    hide Satisfied;
    hide Waits;
    BuiltAt(r, y);
    var x := Insts(r)[y];
    NormWaits(r.s, r.env, x);
    var w := Wait(Bar(BOproj, x.layer), OprojTiles(r.s));
    Waited(r, y, w);
    MulGrows(1, r.s.dTiles, r.s.oprojSplits);
    var z := SomeProducer(r, w);
    BuiltAt(r, z);
    DoneMayStart(r, z);
    OprojEnters(r, z);
  }

  lemma FeedEnters(r: Run, y: nat)
    requires RunOk(r) && y < |Insts(r)| && MayStart(r, y)
    requires Insts(r)[y].FfnDown? || Insts(r)[y].MoeCombine?
    ensures Entered(r, Insts(r)[y].layer)
  {
    hide InstsOf;
    hide Decode;
    hide Exec;
    hide MayStart;
    hide Satisfied;
    hide DownTaskCount;
    BuiltAt(r, y);
    var x := Insts(r)[y];
    if x.MoeCombine? {
      Waited(r, y, Wait(Bar(BRoute, x.layer), 1));
      RouteEnters(r, x.layer);
    } else {
      var w := Wait(Bar(BSilu, x.layer * r.s.downSplits + x.split), SiluPerSplitPos(r.s));
      assert Waits(r.s, r.env, x) == [w];
      Waited(r, y, w);
      var z := SomeProducer(r, w);
      BuiltAt(r, z);
      SiluLayer(r.s, r.env, Insts(r)[z], w.bar, x.layer);
      DoneReadersEnter(r, z);
    }
  }

  /** Everything except barriers, drains, idle attention tasks and the combines of inactive
      rows, which read nothing and write zeros. */
  predicate Orderly(env: Env, x: Inst) {
    Real(x) && !Idle(env, x) && (x.AttnCombine? ==> Active(env, x.row))
  }

  /** An orderly instruction starts only once its layer's input counter is reached. */
  lemma Enters(r: Run, y: nat)
    requires RunOk(r) && y < |Insts(r)| && MayStart(r, y)
    requires Orderly(r.env, Insts(r)[y]) && !Insts(r)[y].LmHead?
    ensures Entered(r, Insts(r)[y].layer)
  {
    hide InstsOf;
    hide Decode;
    hide Exec;
    hide MayStart;
    hide Satisfied;
    match Insts(r)[y] {
      case QkvProj(_, _, _, _, _, _) => ReadersEnter(r, y);
      case RouterGemm(_, _, _, _, _, _) => ReadersEnter(r, y);
      case FfnUpgate(_, _, _, _, _) => ReadersEnter(r, y);
      case RouterTopk(_, _, _) => TopkEnters(r, y);
      case RouteFinalize(_) => RoutedEnters(r, y);
      case MoeGather(_, _) => RoutedEnters(r, y);
      case AttnDecode(_, _, _, _, _, _, _) => DecodeEnters(r, y);
      case AttnCombine(_, _, _, _, _, _, _) => CombineEnters(r, y);
      case OProj(_, _, _, _, _, _) => OprojEnters(r, y);
      case AddRmsNorm(_, _, _, _, _) => NormEnters(r, y);
      case FfnDown(_, _, _, _, _, _) => FeedEnters(r, y);
      case MoeCombine(_, _) => FeedEnters(r, y);
      case MoeUpTask(l, _, _, _, _) => ExpertTaskGate(r, y); RouteEnters(r, l);
      case MoeDownTask(l, _, _, _, _) => ExpertTaskGate(r, y); RouteEnters(r, l);
    }
  }
}
