/** Finding the instruction behind a counter: who produces it, and that its waits held. */
module Producers {
  import opened Arithmetic
  import opened Wrappers
  import opened Machine
  import opened Progress
  import opened History
  import opened Schedule
  import opened Arrivals
  import opened WaveArrivals
  import opened LayerArrivals
  import opened DecodePlan
  import opened DecodeSupply
  import opened DecodeShape
  import opened DecodeInsts
  import opened DecodeProgress
  import opened HappensBefore

  // ---- finding instructions ----

  /** Every MoE layer routes some row to some expert: an active row has top-k experts. */
  predicate RoutesSome(s: Shape, env: Env)
    requires ShapeOk(s) && EnvOk(s, env)
  {
    forall l :: 0 <= l < s.layers && IsMoe(s, l) ==>
      exists e :: 0 <= e < s.moe.experts && env.routed[l][e] > 0
  }

  /** A real task: it waits, runs and finishes once. Drains and barriers touch no data. */
  predicate Real(x: Inst) { DrainQueue(x).None? && !x.GridSync? }

  lemma {:induction false} WaveOfLayer(s: Shape, n: nat, l: nat, w: seq<Inst>)
    requires ShapeOk(s) && l < n <= s.layers && w in LayerWaves(s, l)
    ensures w in LayersUpTo(s, n)
  {
    hide LayerWaves;
    if l < n - 1 { WaveOfLayer(s, n - 1, l, w); }
  }

  lemma Find(r: Run, l: nat, w: seq<Inst>, x: Inst) returns (z: nat)
    requires RunOk(r) && l < r.s.layers && w in LayerWaves(r.s, l) && x in Expanded(r.s, r.env, w)
    ensures z < |Insts(r)| && Insts(r)[z] == x
  {
    hide LayerWaves;
    hide Expanded;
    hide InstsOf;
    WaveOfLayer(r.s, r.s.layers, l, w);
    InstPresent(r.s, r.env, AllWaves(r.s), r.sms, r.ablation, w, x);
    z :| z < |Insts(r)| && Insts(r)[z] == x;
  }

  /** A satisfied wait for at least one arrival has a finished producer. */
  lemma SomeProducer(r: Run, w: Wait) returns (z: nat)
    requires RunOk(r) && Satisfied(St(r), [w]) && w.target >= 1
    ensures z < |Insts(r)| && Done(r, z) && Arrive(r.s, Insts(r)[z]) == Some(w.bar)
  {
    hide Decode;
    hide InstsOf;
    hide Exec;
    hide Satisfied;
    hide AllWaves;
    hide Compile;
    Facts(r);
    OneWait(St(r), w);
    var arrived := Arrived(Prog(r), St(r).fired, w.bar);
    assert |arrived| > 0;
    var ev :| ev in arrived;
    EventInPlan(Prog(r), Plan(r), ev);
    z :| 0 <= z < |Plan(r)| && EventAt(Plan(r), z) == ev && Plan(r)[z].op == OpOf(Prog(r), ev);
    ArrivalOfCompile(r.s, r.env, Insts(r)[z]);
  }

  /** Each wait of an instruction that may start is satisfied. */
  lemma Waited(r: Run, y: nat, w: Wait)
    requires RunOk(r) && MayStart(r, y) && w in Waits(r.s, r.env, Insts(r)[y])
    ensures Satisfied(St(r), [w])
  {
    hide Decode;
    hide InstsOf;
    hide Exec;
    hide Waits;
    OneWait(St(r), w);
  }

  lemma DoneWaited(r: Run, y: nat, w: Wait)
    requires RunOk(r) && Done(r, y) && y < |Insts(r)| && Real(Insts(r)[y])
    requires w in Waits(r.s, r.env, Insts(r)[y])
    ensures Satisfied(St(r), [w])
  {
    hide InstsOf;
    hide Waits;
    hide RunOk;
    hide Satisfied;
    DoneMayStart(r, y);
    Waited(r, y, w);
  }

  lemma LayerOfBand(bar: Bar, l: nat, l': nat, k: nat, width: nat)
    requires l * width <= bar.idx < l * width + width && k < width && bar.idx == l' * width + k
    ensures l == l'
  {
    IndexUnique(l, bar.idx - l * width, l', k, width);
  }

  lemma QkvLayer(s: Shape, env: Env, x: Inst, bar: Bar, l: nat)
    requires ShapeOk(s) && EnvOk(s, env) && Built(s, env, x)
    requires Arrive(s, x) == Some(bar) && InBand(bar, BQkv, l, s.hkv)
    ensures x.QkvProj? && x.layer == l
  {
    hide KvOfQTile;
    hide HeadOfTile;
    hide QTiles;
    hide KvTiles;
    if x.gemm == 0 { QTileInRange(s, x.tileN); } else { KvTileInRange(s, x.tileN); }
    LayerOfBand(bar, l, x.layer, x.produceIdx - x.layer * s.hkv, s.hkv);
  }

  lemma HeadLayer(s: Shape, env: Env, x: Inst, bar: Bar, l: nat)
    requires ShapeOk(s) && EnvOk(s, env) && Built(s, env, x)
    requires Arrive(s, x) == Some(bar) && InBand(bar, BAttn, l, s.oprojSplits)
    ensures (x.AttnDecode? || x.AttnCombine?) && x.layer == l
  {
    hide QkvWait;
    hide AttnSplits;
    hide CeilDiv;
    hide UpWaitTarget;
    HeadInBand(s, x.kvh);
    LayerOfBand(bar, l, x.layer, x.kvh / KvPerOprojPos(s), s.oprojSplits);
  }

  lemma SiluLayer(s: Shape, env: Env, x: Inst, bar: Bar, l: nat)
    requires ShapeOk(s) && EnvOk(s, env) && Built(s, env, x)
    requires Arrive(s, x) == Some(bar) && InBand(bar, BSilu, l, s.downSplits)
    ensures x.FfnUpgate? && x.layer == l
  {
    SiluSlot(s, x.tileN);
    LayerOfBand(bar, l, x.layer, x.tileN / SiluPerSplit(s), s.downSplits);
  }

  lemma CombineLayer(s: Shape, env: Env, x: Inst, bar: Bar, l: nat)
    requires ShapeOk(s) && EnvOk(s, env) && Built(s, env, x)
    requires Arrive(s, x) == Some(bar) && InBand(bar, BCombine, l, s.batch * s.hkv)
    ensures x.AttnDecode? && x.layer == l
    ensures bar == CombineBar(s, l, x.row, x.kvh)
  {
    hide QkvWait;
    RowSlot(s, x.row, x.kvh);
    LayerOfBand(bar, l, x.layer, x.row * s.hkv + x.kvh, s.batch * s.hkv);
  }

  lemma SiluSlot(s: Shape, tn: nat)
    requires ShapeOk(s) && tn < s.upTiles
    ensures tn / SiluPerSplit(s) < s.downSplits
  {
    DivAtLeast(tn, SiluPerSplitPos(s), s.downSplits);
    assert SiluPerSplitPos(s) * s.downSplits == s.downSplits * SiluPerSplitPos(s);
  }

  lemma RowSlot(s: Shape, row: nat, kvh: nat)
    requires row < s.batch && kvh < s.hkv
    ensures row * s.hkv + kvh < s.batch * s.hkv
  {
    MulApart(row, s.batch, s.hkv);
  }
}
