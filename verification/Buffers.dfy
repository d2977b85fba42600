/** The buffers the decode kernel shares between its instructions, and who touches what.
    Most of them are reused by every layer. */
module Buffers {
  import opened Wrappers
  import opened Machine
  import opened Schedule
  import opened Arrivals
  import opened WaveArrivals
  import opened LayerArrivals
  import opened MoeQueues
  import opened DecodeSupply
  import opened DecodeInsts

  datatype Cell =
    | Resid(row: nat)                       // x_resid: the normed input of the current layer
    | RawSum(row: nat)                      // x_raw: the residual sum
    | AttnSum(row: nat, tile: nat)          // x_attn: projection output, summed over splits
    | FfnSum(row: nat, tile: nat)           // x_ffn: feed-forward output, summed over splits
    | QCol(layer: nat, col: nat)            // q_out, per layer
    | KCol(layer: nat, col: nat)            // K and V of the new token, per layer
    | VCol(layer: nat, col: nat)
    | Partial(row: nat, kvh: nat, split: nat) // o_partial and lse_partial
    | HeadCol(row: nat, col: nat)           // o_proj_in
    | Silu(tile: nat)                       // silu_out
    | RouterLogit(row: nat, tile: nat)      // router_logits
    | RouteRow(layer: nat, row: nat)        // route_row_for_token and routed_scores, per layer
    | TaskTable(layer: nat)                 // expert task words, per layer
    | ExpertIn(row: nat)                    // moe_x: the copies of one token's row
    | Hidden(expert: nat, up: nat, tile: nat) // moe_hidden, by up block
    | ExpertOut(expert: nat, block: nat, tile: nat) // moe_down_out
    | LmLogit(tile: nat)

  datatype Mode = Read | Write | Add

  /** Two accesses to one cell that must not overlap in time. Atomic adds may. */
  predicate Conflict(a: Mode, b: Mode) {
    !(a.Read? && b.Read?) && !(a.Add? && b.Add?)
  }

  /** Columns of one KV head's query heads. */
  function HeadCols(s: Shape): nat requires ShapeOk(s) { HeadsPerKvPos(s) * s.hd }

  /** Columns that one O_PROJ split reduces over. */
  predicate InSplit(col: nat, split: nat, width: nat, splits: nat) {
    split * width <= col * splits < split * width + width
  }

  /** A store adds when several splits sum into one cell, and overwrites otherwise. */
  function StoreMode(splits: nat): Mode { if splits > 1 then Add else Write }

  /** Attention of inactive rows only ever puts zeros into cells of their own, and the kernel
      lets it run at any time; that is not listed. An empty split of an active row writes its
      partial like any other. */
  predicate Touches(s: Shape, env: Env, x: Inst, c: Cell, m: Mode)
    requires ShapeOk(s)
  {
    match x
    case QkvProj(l, tn, g, _, _, _) =>
      || (m.Read? && c.Resid? && c.row < s.batch)
      || (m.Write? && (c.QCol? || c.KCol? || c.VCol?) && c.layer == l && c.col / s.qkvBn == tn
          && g == (if c.QCol? then 0 else if c.KCol? then 1 else 2))
    case RouterGemm(_, tn, _, _, _, _) =>
      || (m.Read? && c.Resid? && c.row < s.batch)
      || (m == StoreMode(s.routerSplits) && c.RouterLogit? && c.row < s.batch && c.tile == tn)
    case RouterTopk(l, row, _) =>
      || (!m.Add? && c.RouterLogit? && c.row == row)
      || (m.Write? && c == RouteRow(l, row))
    case RouteFinalize(l) =>
      || (m.Read? && c.RouteRow? && c.layer == l && c.row < s.batch)
      || (m.Write? && c == TaskTable(l))
    case MoeGather(l, row) =>
      Active(env, row) &&
      ((m.Read? && (c == Resid(row) || c == RouteRow(l, row))) || (m.Write? && c == ExpertIn(row)))
    case FfnUpgate(_, tn, _, _, _) =>
      (m.Read? && c.Resid? && c.row < s.batch) || (m.Write? && c == Silu(tn))
    case AttnDecode(l, row, kvh, split, n, _, _) =>
      Active(env, row) &&
      if Idle(env, x) then m.Write? && n > 1 && c == Partial(row, kvh, split) else
      ((m.Read? && c.QCol? && c.layer == l && c.col / HeadCols(s) == kvh) ||
       (m.Read? && (c.KCol? || c.VCol?) && c.layer == l && c.col / s.hd == kvh) ||
       (m.Write? && (if n > 1 then c == Partial(row, kvh, split)
                     else c.HeadCol? && c.row == row && c.col / HeadCols(s) == kvh)))
    case AttnCombine(_, row, kvh, n, _, _, _) =>
      Active(env, row) &&
      ((m.Read? && c.Partial? && c.row == row && c.kvh == kvh && c.split < (if n == DYNAMIC then RowSplits(env, row) else n)) ||
       (m.Write? && c.HeadCol? && c.row == row && c.col / HeadCols(s) == kvh))
    case OProj(_, tn, split, _, _, _) =>
      || (m.Read? && c.HeadCol? && c.row < s.batch && InSplit(c.col, split, s.hq * s.hd, s.oprojSplits))
      || (m == StoreMode(s.oprojSplits) && c.AttnSum? && c.row < s.batch && c.tile == tn)
    case FfnDown(_, tn, split, _, _, _) =>
      || (m.Read? && c.Silu? && InSplit(c.tile, split, s.upTiles, s.downSplits))
      || (m == StoreMode(s.downSplits) && c.FfnSum? && c.row < s.batch && c.tile == tn)
    case MoeUpTask(l, e, _, u, t) =>
      || (m.Read? && (c == TaskTable(l) || c.ExpertIn?))
      || (m.Write? && c == Hidden(e, u, t))
    case MoeDownTask(l, e, b, t, _) =>
      || (m.Read? && (c == TaskTable(l) || (c.RouteRow? && c.layer == l)))
      || (m.Read? && c.Hidden? && c.expert == e && DownBlockOf(s, c.up) == b)
      || (if s.atomicCombine then m.Add? && c.FfnSum? && Active(env, c.row) else m.Write? && c == ExpertOut(e, b, t))
    case MoeCombine(l, row) =>
      || (m.Read? && Active(env, row) && (c == RouteRow(l, row) || c.ExpertOut?))
      || (m.Write? && c.FfnSum? && c.row == row)
    case AddRmsNorm(_, row, _, _, _) =>
      || (!m.Add? && (c.AttnSum? || c.FfnSum?) && c.row == row)
      || (!m.Add? && c == RawSum(row) && Active(env, row))
      || (m.Write? && c == Resid(row) && Active(env, row))
    case LmHead(tn, _, _) =>
      (m.Read? && c.Resid? && c.row < s.batch) || (m.Write? && c == LmLogit(tn))
    case _ => false
  }

  /** Where in its layer an instruction stands. */
  function Phase(x: Inst): nat {
    match x
    case RouterTopk(_, _, _) => 1
    case AttnDecode(_, _, _, _, _, _, _) => 1
    case FfnDown(_, _, _, _, _, _) => 1
    case AttnCombine(_, _, _, _, _, _, _) => 2
    case RouteFinalize(_) => 2
    case MoeGather(_, _) => 2
    case OProj(_, _, _, _, _, _) => 3
    case MoeUpTask(_, _, _, _, _) => 3
    case MoeDownTask(_, _, _, _, _) => 4
    case MoeCombine(_, _) => 5
    case AddRmsNorm(_, _, _, _, _) => 6
    case _ => 0
  }

  /** The order that conflicting instructions are meant to run in. */
  predicate Before(s: Shape, x: Inst, y: Inst) {
    LayerOf(s, x) < LayerOf(s, y) || (LayerOf(s, x) == LayerOf(s, y) && Phase(x) < Phase(y))
  }

  ghost predicate Clash(s: Shape, env: Env, x: Inst, y: Inst, c: Cell)
    requires ShapeOk(s)
  {
    exists m: Mode, n: Mode :: Touches(s, env, x, c, m) && Touches(s, env, y, c, n) && Conflict(m, n)
  }

  // ---- instructions of one phase that clash are one instruction ----

  /** x and y clash and nothing orders them. */
  ghost predicate Unordered(s: Shape, env: Env, x: Inst, y: Inst, c: Cell)
    requires ShapeOk(s) && EnvOk(s, env)
  {
    && Built(s, env, x) && Built(s, env, y) && Clash(s, env, x, y, c)
    && LayerOf(s, x) == LayerOf(s, y) && Phase(x) == Phase(y)
  }

  lemma OneOnSums(s: Shape, env: Env, x: Inst, y: Inst, c: Cell)
    requires ShapeOk(s) && EnvOk(s, env) && Unordered(s, env, x, y, c)
    requires c.Resid? || c.RawSum? || c.AttnSum? || c.FfnSum?
    ensures x == y
  {
    hide BlocksPerExpert;
    hide CeilDiv;
    hide InSplit;
    hide QkvWait;
    hide DownWave;
    hide QTiles;
    hide KvTiles;
    hide KvOfQTile;
    hide HeadOfTile;
    hide DownEntry;
    hide DownBlockOf;
    hide HeadCols;
    hide HeadBar;
    hide CombineBar;
    hide KvPerOprojPos;
    hide FfnTarget;
    hide Idle;
  }

  lemma OneOnHeads(s: Shape, env: Env, x: Inst, y: Inst, c: Cell)
    requires ShapeOk(s) && EnvOk(s, env) && Unordered(s, env, x, y, c)
    requires c.QCol? || c.KCol? || c.VCol? || c.Partial? || c.HeadCol?
    ensures x == y
  {
    hide BlocksPerExpert;
    hide CeilDiv;
    hide InSplit;
    hide QkvWait;
    hide DownWave;
    hide QTiles;
    hide KvTiles;
    hide KvOfQTile;
    hide HeadOfTile;
    hide DownEntry;
    hide DownBlockOf;
    hide HeadCols;
    hide HeadBar;
    hide KvPerOprojPos;
    hide FfnTarget;
    hide Idle;
  }

  lemma OneOnFeed(s: Shape, env: Env, x: Inst, y: Inst, c: Cell)
    requires ShapeOk(s) && EnvOk(s, env) && Unordered(s, env, x, y, c)
    requires c.Silu? || c.RouterLogit? || c.RouteRow? || c.TaskTable? || c.ExpertIn? || c.LmLogit?
    ensures x == y
  {
    hide BlocksPerExpert;
    hide CeilDiv;
    hide InSplit;
    hide QkvWait;
    hide DownWave;
    hide QTiles;
    hide KvTiles;
    hide KvOfQTile;
    hide HeadOfTile;
    hide DownEntry;
    hide DownBlockOf;
    hide HeadCols;
    hide HeadBar;
    hide CombineBar;
    hide KvPerOprojPos;
    hide FfnTarget;
    hide Idle;
  }

  lemma OneOnExperts(s: Shape, env: Env, x: Inst, y: Inst, c: Cell)
    requires ShapeOk(s) && EnvOk(s, env) && Unordered(s, env, x, y, c) && (c.Hidden? || c.ExpertOut?)
    ensures x == y
  {
    hide BlocksPerExpert;
    hide CeilDiv;
    hide InSplit;
    hide QkvWait;
    hide DownWave;
    hide QTiles;
    hide KvTiles;
    hide KvOfQTile;
    hide HeadOfTile;
    hide DownBlockOf;
    hide HeadCols;
    hide HeadBar;
    hide CombineBar;
    hide KvPerOprojPos;
    hide FfnTarget;
    hide Idle;
    hide UpWaitTarget;
  }

  /** Any two different instructions that clash on a cell are ordered one way or the other. */
  lemma ClashesAreOrdered(s: Shape, env: Env, x: Inst, y: Inst, c: Cell)
    requires ShapeOk(s) && EnvOk(s, env) && Built(s, env, x) && Built(s, env, y)
    requires Clash(s, env, x, y, c) && x != y
    ensures Before(s, x, y) || Before(s, y, x)
  {
    hide Clash;
    hide Built;
    hide Phase;
    if LayerOf(s, x) == LayerOf(s, y) && Phase(x) == Phase(y) {
      match c {
        case Resid(_) => OneOnSums(s, env, x, y, c);
        case RawSum(_) => OneOnSums(s, env, x, y, c);
        case AttnSum(_, _) => OneOnSums(s, env, x, y, c);
        case FfnSum(_, _) => OneOnSums(s, env, x, y, c);
        case QCol(_, _) => OneOnHeads(s, env, x, y, c);
        case KCol(_, _) => OneOnHeads(s, env, x, y, c);
        case VCol(_, _) => OneOnHeads(s, env, x, y, c);
        case Partial(_, _, _) => OneOnHeads(s, env, x, y, c);
        case HeadCol(_, _) => OneOnHeads(s, env, x, y, c);
        case Hidden(_, _, _) => OneOnExperts(s, env, x, y, c);
        case ExpertOut(_, _, _) => OneOnExperts(s, env, x, y, c);
        case _ => OneOnFeed(s, env, x, y, c);
      }
    }
  }
}
