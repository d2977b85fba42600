/** The decode schedule: instruction words, the kernel's wait and arrival rules, and
    the waves that the host builds layer by layer (decode/schedule.py). */
module Schedule {
  import opened Wrappers
  import opened Machine

  /** Everything the wave builder derives from the model and tiling configuration. */
  datatype Shape = Shape(
    batch: nat,            // rows of the decode batch
    layers: nat,
    denseLayers: nat,      // first_k_dense_replace
    hq: nat, hkv: nat, hd: nat,
    qkvBn: nat,            // output columns per QKV tile
    upTiles: nat, downSplits: nat,
    dTiles: nat, oprojSplits: nat,
    routerTiles: nat, routerSplits: nat,
    lmTiles: nat,
    atomicCombine: bool,   // moe_combine_atomic_tma
    drain: seq<bool>,      // per layer: ATTN_DRAIN instead of static ATTN_DECODE
    splits: seq<nat>,      // per layer: static attention split count
    window: seq<nat>,      // per layer: inclusive left radius, 0 for full attention
    attnClaimers: nat, upClaimers: nat, downClaimers: nat,
    moe: MoeTiles)

  datatype MoeTiles = MoeTiles(
    experts: nat,
    upBm: nat, downBm: nat,     // rows per up / down block
    upTasks: nat, downTasks: nat) // column tiles, so tasks per row block: neither is split

  /** What is only known when a step is launched. */
  datatype Env = Env(
    active: seq<bool>,       // row_active
    lens: seq<nat>,          // cache_seqlens: the position each row writes in this step
    rowSplits: seq<nat>,     // attn_num_splits, one per row
    routed: seq<seq<nat>>)   // expert_counts, per layer and expert

  predicate ShapeOk(s: Shape) {
    && s.batch > 0 && s.layers > 0
    && s.hkv > 0 && s.hq > 0 && s.hq % s.hkv == 0
    && s.qkvBn > 0 && s.hd > 0 && s.hd % s.qkvBn == 0
    && s.downSplits > 0 && s.upTiles % s.downSplits == 0 && s.upTiles > 0
    && s.dTiles > 0 && s.lmTiles > 0 && s.routerTiles > 0 && s.routerSplits > 0
    && s.oprojSplits > 0 && s.hkv % s.oprojSplits == 0
    && |s.drain| == |s.splits| == |s.window| == s.layers
    && (forall l :: 0 <= l < s.layers ==> s.splits[l] >= 1)
    && s.attnClaimers > 0 && s.upClaimers > 0 && s.downClaimers > 0
    && s.moe.upBm > 0 && s.moe.downBm > 0 && s.moe.downBm % s.moe.upBm == 0
    && s.moe.upTasks > 0 && s.moe.downTasks > 0
  }

  predicate EnvOk(s: Shape, env: Env) {
    && |env.active| == |env.lens| == |env.rowSplits| == s.batch
    && (exists row :: 0 <= row < s.batch && env.active[row])
    && (forall row :: 0 <= row < s.batch ==> env.rowSplits[row] >= 2)
    && |env.routed| == s.layers
    && (forall l :: 0 <= l < s.layers ==> |env.routed[l]| == s.moe.experts)
    && (forall l, e :: 0 <= l < s.layers && 0 <= e < s.moe.experts ==> env.routed[l][e] <= s.batch)
  }

  // ---- derived counts (_nmc_barrier_dims) ----

  function HeadsPerKv(s: Shape): nat requires s.hkv > 0 { s.hq / s.hkv }
  function TilesPerHead(s: Shape): nat requires s.qkvBn > 0 { s.hd / s.qkvBn }
  function QTiles(s: Shape): nat requires s.qkvBn > 0 { (s.hq * s.hd) / s.qkvBn }
  function KvTiles(s: Shape): nat requires s.qkvBn > 0 { (s.hkv * s.hd) / s.qkvBn }
  function QkvWait(s: Shape): nat requires s.hkv > 0 && s.qkvBn > 0 {
    HeadsPerKv(s) * TilesPerHead(s) + 2 * TilesPerHead(s)
  }
  function SiluPerSplit(s: Shape): nat requires s.downSplits > 0 { s.upTiles / s.downSplits }
  function KvPerOproj(s: Shape): nat requires s.oprojSplits > 0 {
    if s.hkv / s.oprojSplits > 1 then s.hkv / s.oprojSplits else 1
  }
  function OprojTiles(s: Shape): nat { s.dTiles * s.oprojSplits }

  function CeilDiv(n: nat, d: nat): nat requires d > 0 { (n + d - 1) / d }

  // ---- instructions ----

  datatype Inst =
    | QkvProj(layer: nat, tileN: nat, gemm: nat, waitIdx: int, waitTarget: nat, produceIdx: int)
    | RouterGemm(layer: nat, tileN: nat, split: nat, waitIdx: int, waitTarget: nat, produceIdx: int)
    | RouterTopk(layer: nat, row: nat, waitTarget: nat)
    | RouteFinalize(layer: nat)
    | MoeGather(layer: nat, row: nat)
    | FfnUpgate(layer: nat, tileN: nat, waitIdx: int, waitTarget: nat, produceIdx: int)
    | AttnDecode(layer: nat, row: nat, kvh: nat, split: nat, numSplits: nat, window: nat, waitTarget: nat)
    | AttnDrain(layer: nat)
    | AttnCombine(layer: nat, row: nat, kvh: nat, numSplits: nat, waitIdx: int, waitTarget: nat, produceIdx: int)
    | FfnDown(layer: nat, tileN: nat, split: nat, waitIdx: int, waitTarget: nat, produceIdx: int)
    | MoeUpDrain(layer: nat)
    | MoeDownDrain(layer: nat)
    | MoeCombine(layer: nat, row: nat)
    | OProj(layer: nat, tileN: nat, split: nat, waitIdx: int, waitTarget: nat, produceIdx: int)
    | AddRmsNorm(layer: nat, row: nat, waitFfn: int, waitOproj: nat, produceIdx: int)
    | LmHead(tileN: nat, waitIdx: int, waitTarget: nat)
    | GridSync
    // Never in a host list: entries of the device-built MoE queues.
    | MoeUpTask(layer: nat, expert: nat, block: nat, up: nat, tile: nat) // block: the down block of up block `up`
    | MoeDownTask(layer: nat, expert: nat, block: nat, tile: nat, waitTarget: nat)

  /** ATTN_DYNAMIC_SENTINEL: read the split count of the row at run time. */
  const DYNAMIC: nat := 0

  // ---- kernel rules (decode/megakernel.cuh) ----

  predicate Active(env: Env, row: nat) { row < |env.active| && env.active[row] }

  function RowSplits(env: Env, row: nat): nat {
    if row < |env.rowSplits| then env.rowSplits[row] else 0
  }

  // ---- what an attention split reads (attn_decode) ----

  const KV_BLOCK: nat := 64  // ATTN_BLOCK_KV

  /** Tokens of a row, with the one written in this step. */
  function Tokens(env: Env, row: nat): nat { if row < |env.lens| then env.lens[row] + 1 else 1 }

  /** First block of the window; the left radius is inclusive. */
  function FirstBlock(tokens: nat, window: nat): nat {
    if window > 0 && tokens > window + 1 then (tokens - (window + 1)) / KV_BLOCK else 0
  }

  /** Blocks one of n splits reads at most. */
  function BlocksPerSplit(tokens: nat, window: nat, n: nat): nat
    requires n > 0
  {
    var total := CeilDiv(tokens, KV_BLOCK) - FirstBlock(tokens, window);
    if total <= 0 then 0 else CeilDiv(total, n)
  }

  /** The split's first block lies at or beyond its end, so there is nothing for it to read. */
  predicate EmptySplit(env: Env, row: nat, split: nat, n: nat, window: nat) {
    n > 0 &&
    var tokens := Tokens(env, row);
    var blocks, size := CeilDiv(tokens, KV_BLOCK), BlocksPerSplit(tokens, window, n);
    var begin := FirstBlock(tokens, window) + split * size;
    (if begin + size < blocks then begin + size else blocks) <= begin
  }

  /** An attention task that reads nothing: of an inactive row, or an empty split. It writes
      zeros and arrives without waiting. */
  predicate Idle(env: Env, x: Inst) {
    x.AttnDecode? && (!Active(env, x.row) || EmptySplit(env, x.row, x.split, x.numSplits, x.window))
  }

  function BlocksPerExpert(s: Shape): nat requires s.moe.downBm > 0 {
    CeilDiv(s.batch, s.moe.downBm)
  }

  /** The counter that one (layer, expert, down row block) shares. */
  function MoeBlockBar(s: Shape, layer: nat, expert: nat, block: nat): Bar
    requires s.moe.downBm > 0
  {
    Bar(BMoeUp, layer * (s.moe.experts * BlocksPerExpert(s)) + expert * BlocksPerExpert(s) + block)
  }

  function DownTaskCount(s: Shape, env: Env, layer: nat): nat
    requires s.moe.downBm > 0
  {
    if layer < |env.routed| then |DownQueue(s, env, layer, |env.routed[layer]|)| else 0
  }

  function MoeDownWaits(s: Shape, env: Env, layer: nat, row: nat): seq<Wait>
    requires s.moe.downBm > 0
  {
    [Wait(Bar(BRoute, layer), 1)] +
    (if Active(env, row) then [Wait(Bar(BMoeDown, layer), DownTaskCount(s, env, layer))] else [])
  }

  /** The counters an instruction waits for before it touches data. */
  function Waits(s: Shape, env: Env, x: Inst): seq<Wait>
    requires ShapeOk(s)
  {
    match x
    case QkvProj(_, _, _, idx, t, _) => [Wait(Bar(BLayer, idx), t)]
    case RouterGemm(_, _, _, idx, t, _) => [Wait(Bar(BLayer, idx), t)]
    case RouterTopk(l, _, t) => [Wait(Bar(BRouter, l), t)]
    case RouteFinalize(l) => [Wait(Bar(BTopk, l), s.batch)]
    case MoeGather(l, _) => [Wait(Bar(BTopk, l), s.batch)]
    case FfnUpgate(_, _, idx, t, _) => [Wait(Bar(BLayer, idx), t)]
    case AttnDecode(l, _, kvh, _, _, _, t) =>
      if Idle(env, x) then [] else [Wait(Bar(BQkv, l * s.hkv + kvh), t)]
    case AttnDrain(_) => []
    case AttnCombine(_, row, _, n, idx, t, _) =>
      [Wait(Bar(BCombine, idx), if n == DYNAMIC then RowSplits(env, row) else t)]
    case FfnDown(_, _, _, idx, t, _) => [Wait(Bar(BSilu, idx), t)]
    case MoeUpDrain(l) => [Wait(Bar(BRoute, l), 1)]
    case MoeDownDrain(l) => [Wait(Bar(BRoute, l), 1)]
    case MoeCombine(l, row) => MoeDownWaits(s, env, l, row)
    case OProj(_, _, _, idx, t, _) => [Wait(Bar(BAttn, idx), t)]
    case AddRmsNorm(l, row, ffn, oproj, _) =>
      (if ffn < 0 then MoeDownWaits(s, env, l, row)
       else if ffn > 0 then [Wait(Bar(BFfnDown, l), ffn)] else []) +
      [Wait(Bar(BOproj, l), oproj)]
    case LmHead(_, idx, t) => [Wait(Bar(BLayer, idx), t)]
    case GridSync => []
    case MoeUpTask(l, _, _, _, _) => [Wait(Bar(BGather, l), s.batch)]
    case MoeDownTask(l, e, b, _, t) => [Wait(MoeBlockBar(s, l, e, b), t)]
  }

  /** The counter a finished instruction arrives on. */
  function Arrive(s: Shape, x: Inst): Option<Bar>
    requires ShapeOk(s)
  {
    match x
    case QkvProj(_, _, _, _, _, idx) => Some(Bar(BQkv, idx))
    case RouterGemm(_, _, _, _, _, idx) => Some(Bar(BRouter, idx))
    case RouterTopk(l, _, _) => Some(Bar(BTopk, l))
    case RouteFinalize(l) => Some(Bar(BRoute, l))
    case MoeGather(l, _) => Some(Bar(BGather, l))
    // The kernel overrides PRODUCE_BAR_IDX for this opcode.
    case FfnUpgate(l, tn, _, _, _) =>
      if SiluPerSplit(s) > 0 then Some(Bar(BSilu, l * s.downSplits + tn / SiluPerSplit(s))) else None
    case AttnDecode(l, row, kvh, _, n, _, _) =>
      if n > 1 then Some(Bar(BCombine, l * (s.batch * s.hkv) + row * s.hkv + kvh))
      else Some(Bar(BAttn, l * s.oprojSplits + kvh / KvPerOproj(s)))
    case AttnCombine(_, _, _, _, _, _, idx) => Some(Bar(BAttn, idx))
    case FfnDown(_, _, _, _, _, idx) => Some(Bar(BFfnDown, idx))
    case MoeCombine(l, _) => Some(Bar(BFfnDown, l))
    case OProj(_, _, _, _, _, idx) => Some(Bar(BOproj, idx))
    case AddRmsNorm(_, _, _, _, idx) => Some(Bar(BLayer, idx))
    case MoeUpTask(l, e, b, _, _) => Some(MoeBlockBar(s, l, e, b))
    case MoeDownTask(l, _, _, _, _) => Some(Bar(BMoeDown, l))
    case _ => None
  }

  function DrainQueue(x: Inst): Option<QueueId> {
    match x
    case AttnDrain(l) => Some(QueueId(AttnQueue, l))
    case MoeUpDrain(l) => Some(QueueId(MoeUpQueue, l))
    case MoeDownDrain(l) => Some(QueueId(MoeDownQueue, l))
    case _ => None
  }

  function Compile(s: Shape, env: Env, x: Inst): Op
    requires ShapeOk(s)
  {
    if x.GridSync? then Sync
    else if DrainQueue(x).Some? then Drain(DrainQueue(x).value, Waits(s, env, x))
    else Task(Waits(s, env, x), Arrive(s, x))
  }

  // ---- device-side queues ----

  /** Row, head, split order of build_attn_drain_queue, patched to `layer`. */
  function AttnHeadTasks(s: Shape, layer: nat, row: nat, kvh: nat, n: nat, window: nat): seq<Inst>
    requires ShapeOk(s)
  {
    seq(n, (split: nat) => AttnDecode(layer, row, kvh, split, n, window, QkvWait(s)))
  }

  function AttnRowTasks(s: Shape, layer: nat, row: nat, kvhs: nat, n: nat, window: nat): seq<Inst>
    requires ShapeOk(s)
  {
    if kvhs == 0 then [] else
    AttnRowTasks(s, layer, row, kvhs - 1, n, window) +
    AttnHeadTasks(s, layer, row, kvhs - 1, n, window)
  }

  function AttnQueueTasks(s: Shape, env: Env, layer: nat, rows: nat): seq<Inst>
    requires ShapeOk(s)
  {
    if rows == 0 then [] else
    AttnQueueTasks(s, env, layer, rows - 1) +
    AttnRowTasks(s, layer, rows - 1, s.hkv, RowSplits(env, rows - 1), 0)
  }

  /** The down block that up block t of an expert lies in. */
  function DownBlockOf(s: Shape, t: nat): nat requires s.moe.downBm > 0 {
    (t * s.moe.upBm) / s.moe.downBm
  }

  /** The up tasks of one block of routed rows. */
  function UpBlockTasks(s: Shape, layer: nat, expert: nat, up: nat): seq<Inst>
    requires s.moe.downBm > 0
  {
    seq(s.moe.upTasks, (t: nat) => MoeUpTask(layer, expert, DownBlockOf(s, up), up, t))
  }

  /** Up tasks of one expert: `upTasks` per block of upBm routed rows. */
  function UpExpertTasks(s: Shape, layer: nat, expert: nat, blocks: nat): seq<Inst>
    requires s.moe.downBm > 0
  {
    if blocks == 0 then [] else
    UpExpertTasks(s, layer, expert, blocks - 1) +
    UpBlockTasks(s, layer, expert, blocks - 1)
  }

  function UpQueue(s: Shape, env: Env, layer: nat, experts: nat): seq<Inst>
    requires s.moe.downBm > 0 && s.moe.upBm > 0
    requires layer < |env.routed| && experts <= |env.routed[layer]|
  {
    if experts == 0 then [] else
    UpQueue(s, env, layer, experts - 1) +
    UpExpertTasks(s, layer, experts - 1, CeilDiv(env.routed[layer][experts - 1], s.moe.upBm))
  }

  /** Up tasks that feed one down block holding `count - block * downBm` more rows. */
  function UpWaitTarget(s: Shape, count: nat, block: nat): nat
    requires s.moe.upBm > 0
  {
    var remaining := count - block * s.moe.downBm;
    var rows := if remaining < s.moe.downBm then remaining else s.moe.downBm;
    if rows <= 0 then 0 else CeilDiv(rows, s.moe.upBm) * s.moe.upTasks
  }

  function DownExpertTasks(s: Shape, layer: nat, expert: nat, count: nat, blocks: nat): seq<Inst>
    requires s.moe.upBm > 0
  {
    if blocks == 0 then [] else
    DownExpertTasks(s, layer, expert, count, blocks - 1) +
    seq(s.moe.downTasks, (t: nat) =>
      MoeDownTask(layer, expert, blocks - 1, t, UpWaitTarget(s, count, blocks - 1)))
  }

  function DownQueue(s: Shape, env: Env, layer: nat, experts: nat): seq<Inst>
    requires s.moe.downBm > 0
    requires layer < |env.routed| && experts <= |env.routed[layer]|
  {
    if experts == 0 then [] else
    DownQueue(s, env, layer, experts - 1) +
    (if s.moe.upBm == 0 then [] else
     DownExpertTasks(s, layer, experts - 1, env.routed[layer][experts - 1],
                     CeilDiv(env.routed[layer][experts - 1], s.moe.downBm)))
  }

  function QueueTasks(s: Shape, env: Env, q: QueueId): seq<Inst>
    requires ShapeOk(s) && EnvOk(s, env)
  {
    if q.layer >= s.layers then [] else
    match q.kind
    case AttnQueue => AttnQueueTasks(s, env, q.layer, s.batch)
    case MoeUpQueue => UpQueue(s, env, q.layer, s.moe.experts)
    case MoeDownQueue => DownQueue(s, env, q.layer, s.moe.experts)
  }

  // ---- waves (_build_nmc_decode_named_waves) ----

  function InputTarget(s: Shape, layer: nat): nat { if layer == 0 then 0 else s.batch }

  function QTile(s: Shape, layer: nat, tn: nat): Inst requires ShapeOk(s) {
    QkvProj(layer, tn, 0, layer, InputTarget(s, layer),
            layer * s.hkv + KvOfQTile(s, tn))
  }

  /** Tile tn starts in column tn * bn, which belongs to head (tn * bn) / hd. */
  function HeadOfTile(s: Shape, tn: nat): nat requires ShapeOk(s) { (tn * s.qkvBn) / s.hd }

  function KvOfQTile(s: Shape, tn: nat): nat requires ShapeOk(s) {
    HeadOfTile(s, tn) / HeadsPerKvPos(s)
  }

  function HeadsPerKvPos(s: Shape): (r: nat)
    requires ShapeOk(s)
    ensures r == HeadsPerKv(s) && r > 0 && r * s.hkv == s.hq
  {
    s.hq / s.hkv
  }

  function KvTile(s: Shape, layer: nat, gemm: nat, tn: nat): Inst requires ShapeOk(s) {
    QkvProj(layer, tn, gemm, layer, InputTarget(s, layer), layer * s.hkv + HeadOfTile(s, tn))
  }

  function QkvWave(s: Shape, layer: nat): seq<Inst> requires ShapeOk(s) {
    seq(QTiles(s), (tn: nat) => QTile(s, layer, tn)) +
    seq(KvTiles(s), (tn: nat) => KvTile(s, layer, 1, tn)) +
    seq(KvTiles(s), (tn: nat) => KvTile(s, layer, 2, tn))
  }

  /** [f(i, j) for i in range(rows) for j in range(cols)] */
  function Grid(rows: nat, cols: nat, f: (nat, nat) -> Inst): seq<Inst> {
    if rows == 0 then [] else Grid(rows - 1, cols, f) + seq(cols, (j: nat) => f(rows - 1, j))
  }

  function RouterTile(s: Shape, layer: nat): (nat, nat) -> Inst {
    (split: nat, tn: nat) => RouterGemm(layer, tn, split, layer, InputTarget(s, layer), layer)
  }

  function RouterWave(s: Shape, layer: nat): seq<Inst> {
    Grid(s.routerSplits, s.routerTiles, RouterTile(s, layer))
  }

  function TopkWave(s: Shape, layer: nat): seq<Inst> {
    seq(s.batch, (row: nat) => RouterTopk(layer, row, s.routerTiles * s.routerSplits))
  }

  function GatherWave(s: Shape, layer: nat): seq<Inst> {
    seq(s.batch, (row: nat) => MoeGather(layer, row))
  }

  function UpgateWave(s: Shape, layer: nat): seq<Inst> {
    seq(s.upTiles, (tn: nat) => FfnUpgate(layer, tn, layer, InputTarget(s, layer), layer * s.downSplits))
  }

  function StaticAttnWave(s: Shape, layer: nat, rows: nat): seq<Inst>
    requires ShapeOk(s) && layer < s.layers
  {
    if rows == 0 then [] else
    StaticAttnWave(s, layer, rows - 1) +
    AttnRowTasks(s, layer, rows - 1, s.hkv, s.splits[layer], s.window[layer])
  }

  function CombineTile(s: Shape, layer: nat, n: nat): (nat, nat) -> Inst requires ShapeOk(s) {
    (row: nat, kvh: nat) => AttnCombine(layer, row, kvh, n,
      layer * (s.batch * s.hkv) + row * s.hkv + kvh, n,
      layer * s.oprojSplits + kvh / KvPerOprojPos(s))
  }

  function KvPerOprojPos(s: Shape): (r: nat)
    requires ShapeOk(s)
    ensures r == KvPerOproj(s) && r > 0 && r * s.oprojSplits == s.hkv
  {
    KvPerOproj(s)
  }

  function CombineWave(s: Shape, layer: nat, n: nat): seq<Inst> requires ShapeOk(s) {
    Grid(s.batch, s.hkv, CombineTile(s, layer, n))
  }

  function AttnWaves(s: Shape, layer: nat): seq<seq<Inst>>
    requires ShapeOk(s) && layer < s.layers
  {
    if s.drain[layer] then
      [seq(s.attnClaimers, _ => AttnDrain(layer)), CombineWave(s, layer, DYNAMIC)]
    else
      [StaticAttnWave(s, layer, s.batch)] +
      (if s.splits[layer] > 1 then [CombineWave(s, layer, s.splits[layer])] else [])
  }

  function DownTile(s: Shape, layer: nat): (nat, nat) -> Inst requires ShapeOk(s) {
    (split: nat, tn: nat) => FfnDown(layer, tn, split, layer * s.downSplits + split, SiluPerSplit(s), layer)
  }

  function DownWave(s: Shape, layer: nat): seq<Inst> requires ShapeOk(s) {
    Grid(s.downSplits, s.dTiles, DownTile(s, layer))
  }

  function OprojTile(s: Shape, layer: nat): (nat, nat) -> Inst requires ShapeOk(s) {
    (split: nat, tn: nat) => OProj(layer, tn, split, layer * s.oprojSplits + split,
                         s.batch * KvPerOprojPos(s), layer)
  }

  function OprojWave(s: Shape, layer: nat): seq<Inst> requires ShapeOk(s) {
    Grid(s.oprojSplits, s.dTiles, OprojTile(s, layer))
  }

  predicate IsMoe(s: Shape, layer: nat) { layer >= s.denseLayers }

  function FfnTarget(s: Shape, layer: nat): int requires ShapeOk(s) {
    if !IsMoe(s, layer) then |DownWave(s, layer)|
    else if s.atomicCombine then -1
    else s.batch
  }

  function JoinIdx(s: Shape, layer: nat): nat {
    if layer + 1 < s.layers then layer + 1 else layer
  }

  function RmsNormWave(s: Shape, layer: nat): seq<Inst> requires ShapeOk(s) {
    seq(s.batch, (row: nat) =>
      AddRmsNorm(layer, row, FfnTarget(s, layer), OprojTiles(s), JoinIdx(s, layer)))
  }

  function MoeWaves(s: Shape, layer: nat): seq<seq<Inst>> {
    [seq(s.upClaimers, _ => MoeUpDrain(layer)), seq(s.downClaimers, _ => MoeDownDrain(layer))] +
    (if s.atomicCombine then [] else [seq(s.batch, (row: nat) => MoeCombine(layer, row))])
  }

  function LayerWaves(s: Shape, layer: nat): seq<seq<Inst>>
    requires ShapeOk(s) && layer < s.layers
  {
    if IsMoe(s, layer) then
      [QkvWave(s, layer), RouterWave(s, layer), TopkWave(s, layer), [RouteFinalize(layer)],
       GatherWave(s, layer)] + AttnWaves(s, layer) + MoeWaves(s, layer) +
      [OprojWave(s, layer), RmsNormWave(s, layer)]
    else
      [QkvWave(s, layer), UpgateWave(s, layer)] + AttnWaves(s, layer) +
      [DownWave(s, layer), OprojWave(s, layer), RmsNormWave(s, layer)]
  }

  function LayersUpTo(s: Shape, n: nat): seq<seq<Inst>>
    requires ShapeOk(s) && n <= s.layers
  {
    if n == 0 then [] else LayersUpTo(s, n - 1) + LayerWaves(s, n - 1)
  }

  /** The LM head waits on the last layer's join counter for two batches of arrivals:
      one from the layer before it and one from the last layer itself. */
  function LmHeadWave(s: Shape): seq<Inst> requires s.layers > 0 {
    seq(s.lmTiles, (tn: nat) => LmHead(tn, s.layers - 1, 2 * s.batch))
  }

  function AllWaves(s: Shape): seq<seq<Inst>> requires ShapeOk(s) {
    LayersUpTo(s, s.layers) + [LmHeadWave(s)]
  }
}
