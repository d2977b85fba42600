/** Placement with producer affinity: consumers go to SMs that ran their producers, within
    exactly the quotas of plain round robin (decode/schedule.py). */
module Affinity {
  import opened Wrappers
  import opened Arithmetic
  import opened Machine
  import opened Schedule
  import opened DecodePlan
  import opened Placement

  // ---- where producers went ----

  datatype Seen = Seen(
    attn: map<(nat, nat, nat), seq<nat>>,
    router: map<nat, seq<nat>>,
    topk: map<nat, seq<nat>>,
    topkRow: map<(nat, nat), nat>)

  function At<K(==)>(m: map<K, seq<nat>>, k: K): seq<nat> { if k in m then m[k] else [] }

  function Remember(seen: Seen, x: Inst, sm: nat): Seen {
    match x
    case AttnDecode(layer, row, kvh, _, _, _, _) =>
      seen.(attn := seen.attn[(layer, row, kvh) := At(seen.attn, (layer, row, kvh)) + [sm]])
    case RouterGemm(layer, _, _, _, _, _) => seen.(router := seen.router[layer := At(seen.router, layer) + [sm]])
    case RouterTopk(layer, row, _) =>
      seen.(topk := seen.topk[layer := At(seen.topk, layer) + [sm]], topkRow := seen.topkRow[(layer, row) := sm])
    case _ => seen
  }

  // ---- preferences ----

  function Unique(sms: seq<nat>): seq<nat> {
    if sms == [] then [] else
    var n := |sms| - 1;
    if sms[n] in Unique(sms[..n]) then Unique(sms[..n]) else Unique(sms[..n]) + [sms[n]]
  }

  lemma {:induction false} UniqueFacts(sms: seq<nat>)
    ensures forall sm :: sm in Unique(sms) <==> sm in sms
    ensures forall i, j :: 0 <= i < j < |Unique(sms)| ==> Unique(sms)[i] != Unique(sms)[j]
  {
    if sms != [] {
      var n := |sms| - 1;
      UniqueFacts(sms[..n]);
      assert sms == sms[..n] + [sms[n]];
    }
  }

  /** unique_sms */
  method UniqueSms(sms: seq<nat>) returns (out: seq<nat>)
    ensures out == Unique(sms)
  {
    var seen: set<nat> := {};
    out := [];
    for i := 0 to |sms|
      invariant out == Unique(sms[..i]) && forall sm :: sm in seen <==> sm in out
    {
      assert sms[..i + 1][..i] == sms[..i];
      if sms[i] !in seen {
        seen := seen + {sms[i]};
        out := out + [sms[i]];
      }
    }
    assert sms[..|sms|] == sms;
  }

  /** How far each SM's list reaches, and where the cursor stands. */
  datatype Rank = Rank(depth: seq<nat>, cursor: nat, sms: nat)

  function Turn(rank: Rank, sm: nat): nat requires rank.sms > 0 { (sm - rank.cursor) % rank.sms }

  /** Deeper lists first, then the order of the cursor. */
  predicate Later(rank: Rank, a: nat, b: nat)
    requires rank.sms > 0
  {
    var x, y := if a < |rank.depth| then rank.depth[a] else 0, if b < |rank.depth| then rank.depth[b] else 0;
    x > y || (x == y && Turn(rank, a) <= Turn(rank, b))
  }

  function Insert(rank: Rank, xs: seq<nat>, sm: nat): seq<nat>
    requires rank.sms > 0
  {
    if xs == [] then [sm]
    else if Later(rank, xs[|xs| - 1], sm) then xs + [sm]
    else Insert(rank, xs[..|xs| - 1], sm) + [xs[|xs| - 1]]
  }

  function Sorted(rank: Rank, xs: seq<nat>): seq<nat>
    requires rank.sms > 0
  {
    if xs == [] then [] else Insert(rank, Sorted(rank, xs[..|xs| - 1]), xs[|xs| - 1])
  }

  /** likely_late_sms */
  function LikelyLate(rank: Rank, sms: seq<nat>): seq<nat>
    requires rank.sms > 0
  {
    Sorted(rank, Unique(sms))
  }

  predicate InOrder(rank: Rank, xs: seq<nat>)
    requires rank.sms > 0
  {
    forall i, j :: 0 <= i < j < |xs| ==> Later(rank, xs[i], xs[j])
  }

  lemma NotLater(rank: Rank, a: nat, b: nat)
    requires rank.sms > 0 && !Later(rank, a, b)
    ensures Later(rank, b, a)
  {
  }

  lemma LaterTrans(rank: Rank, a: nat, b: nat, c: nat)
    requires rank.sms > 0 && Later(rank, a, b) && Later(rank, b, c)
    ensures Later(rank, a, c)
  {
  }

  lemma {:induction false} InsertFacts(rank: Rank, xs: seq<nat>, sm: nat)
    requires rank.sms > 0 && InOrder(rank, xs)
    ensures InOrder(rank, Insert(rank, xs, sm)) && multiset(Insert(rank, xs, sm)) == multiset(xs) + multiset{sm}
  {
    hide Later;
    if xs != [] {
      var n := |xs| - 1;
      assert xs == xs[..n] + [xs[n]];
      if !Later(rank, xs[n], sm) {
        NotLater(rank, xs[n], sm);
        InsertFacts(rank, xs[..n], sm);
        var rest := Insert(rank, xs[..n], sm);
        forall i | 0 <= i < |rest| ensures Later(rank, rest[i], xs[n]) {
          assert rest[i] in multiset(rest);
          if rest[i] != sm { assert rest[i] in xs[..n]; }
        }
      } else {
        forall i | 0 <= i < n ensures Later(rank, xs[i], sm) { LaterTrans(rank, xs[i], xs[n], sm); }
      }
    }
  }

  lemma NothingToOrder(rank: Rank)
    requires rank.sms > 0
    ensures InOrder(rank, [])
  {
  }

  /** The sorted candidates are the unique producers, likely-late ones first. */
  lemma {:induction false} SortedFacts(rank: Rank, xs: seq<nat>)
    requires rank.sms > 0
    ensures InOrder(rank, Sorted(rank, xs)) && multiset(Sorted(rank, xs)) == multiset(xs)
  {
    hide Insert;
    hide InOrder;
    if xs == [] {
      NothingToOrder(rank);
    } else {
      SortedFacts(rank, xs[..|xs| - 1]);
      InsertFacts(rank, Sorted(rank, xs[..|xs| - 1]), xs[|xs| - 1]);
      assert xs == xs[..|xs| - 1] + [xs[|xs| - 1]];
    }
  }

  function Except(xs: seq<nat>, sm: nat): seq<nat> {
    if xs == [] then [] else
    Except(xs[..|xs| - 1], sm) + (if xs[|xs| - 1] == sm then [] else [xs[|xs| - 1]])
  }

  /** The SMs an instruction would like, best first; none when its producers are unknown. */
  function Preferred(seen: Seen, rank: Rank, x: Inst): seq<nat>
    requires rank.sms > 0
  {
    match x
    case AttnCombine(layer, row, kvh, numSplits, _, _, _) =>
      if numSplits == DYNAMIC then [] else LikelyLate(rank, At(seen.attn, (layer, row, kvh)))
    case RouterTopk(layer, row, _) =>
      var producers := Unique(At(seen.router, layer));
      if producers == [] then [] else
      var primary := producers[row % |producers|];
      [primary] + Except(LikelyLate(rank, producers), primary)
    case RouteFinalize(layer) => LikelyLate(rank, At(seen.topk, layer))
    case MoeGather(layer, row) =>
      if (layer, row) !in seen.topkRow then [] else
      var primary := seen.topkRow[(layer, row)];
      [primary] + Except(LikelyLate(rank, At(seen.topk, layer)), primary)
    case _ => []
  }

  // ---- choosing ----

  predicate Open(remaining: seq<nat>, sm: nat) { sm < |remaining| && remaining[sm] > 0 }

  /** An SM is taken among the preferred ones with quota left, if there are any, and among
      all with quota left otherwise; always one with the fewest rows of this wave, the best
      liked of these in the first case and the next at the cursor in the second. */
  ghost predicate GoodChoice(preferred: seq<nat>, counts: seq<nat>, remaining: seq<nat>, rank: Rank, sm: nat)
    requires |counts| == |remaining| == rank.sms && rank.sms > 0
  {
    && Open(remaining, sm)
    && if exists other :: other in preferred && Open(remaining, other) then
         && sm in preferred && (forall other :: other in preferred && Open(remaining, other) ==> counts[sm] <= counts[other])
         && FirstOfEqual(Unique(preferred), counts, remaining, sm)
       else
         forall other: nat :: Open(remaining, other) ==>
           counts[sm] < counts[other] || (counts[sm] == counts[other] && Turn(rank, sm) <= Turn(rank, other))
  }

  /** Every SM before it in the list has no quota or more rows. */
  ghost predicate FirstOfEqual(unique: seq<nat>, counts: seq<nat>, remaining: seq<nat>, sm: nat)
    requires |counts| == |remaining| && sm < |counts|
  {
    exists i :: 0 <= i < |unique| && unique[i] == sm &&
      forall j :: 0 <= j < i && Open(remaining, unique[j]) ==> counts[sm] < counts[unique[j]]
  }

  /** choose_sm */
  method ChooseSm(preferred: seq<nat>, counts: seq<nat>, remaining: seq<nat>, rank: Rank)
    returns (r: Result<nat, PlacementError>)
    requires |counts| == |remaining| == rank.sms && rank.sms > 0
    ensures r.Ok? <==> exists sm: nat :: Open(remaining, sm)
    ensures r.Ok? ==> GoodChoice(preferred, counts, remaining, rank, r.value)
  {
    var unique := UniqueSms(preferred);
    UniqueFacts(preferred);
    var best: Option<nat> := None;
    for i := 0 to |unique|
      invariant best.Some? <==> exists j :: 0 <= j < i && Open(remaining, unique[j])
      invariant best.Some? ==> best.value in unique[..i] && Open(remaining, best.value)
      invariant best.Some? ==> forall j :: 0 <= j < i && Open(remaining, unique[j]) ==> counts[best.value] <= counts[unique[j]]
      invariant best.Some? ==> FirstOfEqual(unique, counts, remaining, best.value)
    {
      var sm := unique[i];
      if sm < rank.sms && remaining[sm] > 0 && (best.None? || counts[sm] < counts[best.value]) { best := Some(sm); }
    }
    if best.Some? {
      assert best.value in unique;
      forall other | other in preferred && Open(remaining, other) ensures counts[best.value] <= counts[other] {
        assert other in unique;
      }
      return Ok(best.value);
    }
    forall other | other in preferred ensures !Open(remaining, other) {
      assert other in unique;
    }
    for sm := 0 to rank.sms
      invariant best.None? ==> forall other: nat :: other < sm ==> !Open(remaining, other)
      invariant best.Some? ==> best.value < sm && Open(remaining, best.value)
      invariant best.Some? ==> forall other: nat :: other < sm && Open(remaining, other) ==>
        counts[best.value] < counts[other] ||
        (counts[best.value] == counts[other] && Turn(rank, best.value) <= Turn(rank, other))
    {
      if remaining[sm] > 0 && (best.None? || counts[sm] < counts[best.value] ||
          (counts[sm] == counts[best.value] && Turn(rank, sm) < Turn(rank, best.value))) {
        best := Some(sm);
      }
    }
    if best.None? { return Err(Exhausted); }
    r := Ok(best.value);
  }

  // ---- producers ----

  /** Instructions already placed, with their SMs, in order. */
  type Trail = seq<(Inst, nat)>

  /** y hands its result to x, and the host can tell where y runs. */
  predicate Feeds(y: Inst, x: Inst) {
    match x
    case AttnCombine(layer, row, kvh, numSplits, _, _, _) =>
      numSplits != DYNAMIC && y.AttnDecode? && y.layer == layer && y.row == row && y.kvh == kvh
    case RouterTopk(layer, _, _) => y.RouterGemm? && y.layer == layer
    case RouteFinalize(layer) => y.RouterTopk? && y.layer == layer
    case MoeGather(layer, _) => y.RouterTopk? && y.layer == layer
    case _ => false
  }

  /** Some producer of x ran on SM sm. A gather looks for one only when the topk of its own
      row has been placed. */
  ghost predicate RanFor(done: Trail, x: Inst, sm: nat) {
    && (exists n :: 0 <= n < |done| && done[n].1 == sm && Feeds(done[n].0, x))
    && (x.MoeGather? ==> exists n :: 0 <= n < |done| && IsTopk(done[n].0, x.layer, x.row))
  }

  predicate IsTopk(y: Inst, layer: nat, row: nat) { y.RouterTopk? && y.layer == layer && y.row == row }

  function Recall(done: Trail): Seen {
    if done == [] then Seen(map[], map[], map[], map[]) else
    Remember(Recall(done[..|done| - 1]), done[|done| - 1].0, done[|done| - 1].1)
  }

  ghost predicate AttnOn(done: Trail, layer: nat, row: nat, kvh: nat, sm: nat) {
    exists n :: 0 <= n < |done| && done[n].1 == sm &&
      done[n].0.AttnDecode? && done[n].0.layer == layer && done[n].0.row == row && done[n].0.kvh == kvh
  }

  ghost predicate RouterOn(done: Trail, layer: nat, sm: nat) {
    exists n :: 0 <= n < |done| && done[n].1 == sm && done[n].0.RouterGemm? && done[n].0.layer == layer
  }

  ghost predicate TopkOn(done: Trail, layer: nat, sm: nat) {
    exists n :: 0 <= n < |done| && done[n].1 == sm && done[n].0.RouterTopk? && done[n].0.layer == layer
  }

  /** The records say exactly which SMs the producers ran on. */
  lemma {:induction false} RecallFacts(done: Trail, layer: nat, row: nat, kvh: nat, sm: nat)
    ensures sm in At(Recall(done).attn, (layer, row, kvh)) <==> AttnOn(done, layer, row, kvh, sm)
    ensures sm in At(Recall(done).router, layer) <==> RouterOn(done, layer, sm)
    ensures sm in At(Recall(done).topk, layer) <==> TopkOn(done, layer, sm)
  {
    if done != [] { RecallFacts(done[..|done| - 1], layer, row, kvh, sm); }
  }

  lemma {:induction false} RecallRow(done: Trail, layer: nat, row: nat)
    ensures (layer, row) in Recall(done).topkRow <==> exists n :: 0 <= n < |done| && IsTopk(done[n].0, layer, row)
    ensures (layer, row) in Recall(done).topkRow ==>
      Recall(done).topkRow[(layer, row)] in At(Recall(done).topk, layer)
  {
    if done != [] { RecallRow(done[..|done| - 1], layer, row); }
  }

  lemma {:induction false} ExceptFacts(xs: seq<nat>, sm: nat, other: nat)
    ensures other in Except(xs, sm) <==> other in xs && other != sm
  {
    if xs != [] {
      ExceptFacts(xs[..|xs| - 1], sm, other);
      assert xs == xs[..|xs| - 1] + [xs[|xs| - 1]];
    }
  }

  lemma LateFacts(rank: Rank, xs: seq<nat>, sm: nat)
    requires rank.sms > 0
    ensures sm in LikelyLate(rank, xs) <==> sm in xs
  {
    UniqueFacts(xs);
    SortedFacts(rank, Unique(xs));
    assert sm in LikelyLate(rank, xs) <==> sm in multiset(LikelyLate(rank, xs));
    assert sm in Unique(xs) <==> sm in multiset(Unique(xs));
  }

  lemma PrimaryFirst(rank: Rank, xs: seq<nat>, primary: nat, sm: nat)
    requires rank.sms > 0 && primary in xs
    ensures sm in [primary] + Except(LikelyLate(rank, xs), primary) <==> sm in xs
  {
    LateFacts(rank, xs, sm);
    ExceptFacts(LikelyLate(rank, xs), primary, sm);
  }

  /** What an instruction would like is exactly where its producers ran. */
  lemma PreferredRanFor(done: Trail, rank: Rank, x: Inst, sm: nat)
    requires rank.sms > 0
    ensures sm in Preferred(Recall(done), rank, x) <==> RanFor(done, x, sm)
  {
    hide LikelyLate;
    hide Recall;
    hide Except;
    var seen := Recall(done);
    match x
    case AttnCombine(layer, row, kvh, numSplits, _, _, _) =>
      RecallFacts(done, layer, row, kvh, sm);
      LateFacts(rank, At(seen.attn, (layer, row, kvh)), sm);
    case RouterTopk(layer, row, _) =>
      RecallFacts(done, layer, 0, 0, sm);
      UniqueFacts(At(seen.router, layer));
      var producers := Unique(At(seen.router, layer));
      if producers != [] { PrimaryFirst(rank, producers, producers[row % |producers|], sm); }
    case RouteFinalize(layer) =>
      RecallFacts(done, layer, 0, 0, sm);
      LateFacts(rank, At(seen.topk, layer), sm);
    case MoeGather(layer, row) =>
      RecallFacts(done, layer, 0, 0, sm);
      RecallRow(done, layer, row);
      if (layer, row) in seen.topkRow { PrimaryFirst(rank, At(seen.topk, layer), seen.topkRow[(layer, row)], sm); }
    case _ =>
  }

  // ---- where everything went ----

  function Zip(w: seq<Inst>, row: seq<nat>): Trail
    requires |w| == |row|
  {
    seq(|w|, i requires 0 <= i < |w| => (w[i], row[i]))
  }

  function Trace(waves: Waves, owners: Owners, sms: nat): Trail
    requires OwnersFit(waves, owners, sms)
  {
    if waves == [] then [] else
    var k := |waves| - 1;
    Trace(waves[..k], owners[..k], sms) + Zip(waves[k], owners[k])
  }

  /** The place of one instruction, after the waves `owners` and the part `row` of wave k:
      its SM has quota left, and is one that ran a producer if any such has quota left; and
      none of those it could have gone to has fewer instructions of the wave. */
  ghost predicate WellPlaced(waves: Waves, k: nat, owners: Owners, sms: nat, w: seq<Inst>, row: seq<nat>, x: Inst, sm: nat)
    requires k <= |waves| && OwnersFit(waves[..k], owners, sms) && |w| == |row| && sms > 0
  {
    var done := Trace(waves[..k], owners, sms) + Zip(w, row);
    && HasQuota(waves, k, owners, sms, w, row, sm)
    && if exists other :: RanFor(done, x, other) && HasQuota(waves, k, owners, sms, w, row, other) then
         RanFor(done, x, sm) && forall other :: RanFor(done, x, other) && HasQuota(waves, k, owners, sms, w, row, other) ==>
           |Picked(w, row, sm)| <= |Picked(w, row, other)|
       else
         forall other :: HasQuota(waves, k, owners, sms, w, row, other) ==> |Picked(w, row, sm)| <= |Picked(w, row, other)|
  }

  /** SM j has not yet got its share of plain round robin. */
  ghost predicate HasQuota(waves: Waves, k: nat, owners: Owners, sms: nat, w: seq<Inst>, row: seq<nat>, j: nat)
    requires k <= |waves| && OwnersFit(waves[..k], owners, sms) && |w| == |row| && sms > 0
  {
    j < sms && Load(waves[..k], owners, sms, j) + |Picked(w, row, j)| < Quota(Total(waves), sms, j)
  }

  lemma ChoiceIsWell(waves: Waves, k: nat, owners: Owners, sms: nat, w: seq<Inst>, row: seq<nat>, remaining: seq<nat>,
                     counts: seq<nat>, rank: Rank, x: Inst, sm: nat)
    requires k <= |waves| && OwnersFit(waves[..k], owners, sms) && |w| == |row|
    requires OnQuota(waves, k, owners, sms, w, row, remaining) && |counts| == sms == rank.sms
    requires forall j: nat :: j < sms ==> counts[j] == |Picked(w, row, j)|
    requires GoodChoice(Preferred(Recall(Trace(waves[..k], owners, sms) + Zip(w, row)), rank, x), counts, remaining, rank, sm)
    ensures WellPlaced(waves, k, owners, sms, w, row, x, sm)
  {
    hide Trace;
    hide Zip;
    hide Recall;
    hide Preferred;
    hide RanFor;
    hide Load;
    hide Picked;
    hide Quota;
    hide Total;
    hide OwnersFit;
    var done := Trace(waves[..k], owners, sms) + Zip(w, row);
    forall j: nat ensures j in Preferred(Recall(done), rank, x) <==> RanFor(done, x, j) { PreferredRanFor(done, rank, x, j); }
    forall j: nat ensures HasQuota(waves, k, owners, sms, w, row, j) <==> Open(remaining, j) {}
  }

  ghost predicate RowWell(waves: Waves, k: nat, owners: Owners, sms: nat, w: seq<Inst>, row: seq<nat>)
    requires k <= |waves| && OwnersFit(waves[..k], owners, sms) && |w| == |row| && sms > 0
  {
    forall i :: 0 <= i < |w| ==> WellPlaced(waves, k, owners, sms, w[..i], row[..i], w[i], row[i])
  }

  /** Every instruction is well placed. */
  ghost predicate AllWell(waves: Waves, n: nat, owners: Owners, sms: nat)
    requires n <= |waves| && OwnersFit(waves[..n], owners, sms) && sms > 0
  {
    forall k :: 0 <= k < n ==> WaveWell(waves, n, owners, sms, k)
  }

  ghost predicate WaveWell(waves: Waves, n: nat, owners: Owners, sms: nat, k: nat)
    requires n <= |waves| && OwnersFit(waves[..n], owners, sms) && sms > 0 && k < n
  {
    Earlier(waves, n, owners, sms, k);
    RowWell(waves, k, owners[..k], sms, waves[k], owners[k])
  }

  lemma Earlier(waves: Waves, n: nat, owners: Owners, sms: nat, k: nat)
    requires k < n <= |waves| && OwnersFit(waves[..n], owners, sms)
    ensures OwnersFit(waves[..k], owners[..k], sms) && |waves[k]| == |owners[k]|
  {
    assert waves[..n][k] == waves[k];
    forall a, i | 0 <= a < k && 0 <= i < |owners[..k][a]| ensures owners[..k][a][i] < sms { assert owners[..k][a] == owners[a]; }
  }

  lemma RowWellStep(waves: Waves, k: nat, owners: Owners, sms: nat, w: seq<Inst>, row: seq<nat>, x: Inst, sm: nat)
    requires k <= |waves| && OwnersFit(waves[..k], owners, sms) && |w| == |row| && sms > 0
    requires RowWell(waves, k, owners, sms, w, row) && WellPlaced(waves, k, owners, sms, w, row, x, sm)
    ensures RowWell(waves, k, owners, sms, w + [x], row + [sm])
  {
    hide WellPlaced;
    hide OwnersFit;
    var v, own := w + [x], row + [sm];
    forall i | 0 <= i < |v| ensures WellPlaced(waves, k, owners, sms, v[..i], own[..i], v[i], own[i]) {
      if i < |w| { assert v[..i] == w[..i] && own[..i] == row[..i]; } else { assert v[..i] == w && own[..i] == row; }
    }
  }

  lemma AllWellStep(waves: Waves, n: nat, owners: Owners, sms: nat, row: seq<nat>)
    requires n < |waves| && OwnersFit(waves[..n], owners, sms) && OwnersFit(waves[..n + 1], owners + [row], sms) && sms > 0
    requires |waves[n]| == |row| && AllWell(waves, n, owners, sms) && RowWell(waves, n, owners, sms, waves[n], row)
    ensures AllWell(waves, n + 1, owners + [row], sms)
  {
    hide RowWell;
    hide OwnersFit;
    OwnerCount(waves, n, owners, sms);
    var m, own := n + 1, owners + [row];
    forall k: nat | k < m ensures WaveWell(waves, m, own, sms, k) {
      Earlier(waves, m, own, sms, k);
      assert own[..k] == owners[..k];
      if k < n { assert WaveWell(waves, n, owners, sms, k); } else { assert own[..k] == owners; }
    }
  }

  lemma OwnerCount(waves: Waves, n: nat, owners: Owners, sms: nat)
    requires n <= |waves| && OwnersFit(waves[..n], owners, sms)
    ensures |owners| == n
  {
  }

  lemma TraceStep(waves: Waves, k: nat, owners: Owners, sms: nat, row: seq<nat>)
    requires k < |waves| && OwnersFit(waves[..k], owners, sms) && |row| == |waves[k]|
    requires OwnersFit(waves[..k + 1], owners + [row], sms)
    ensures Trace(waves[..k + 1], owners + [row], sms) == Trace(waves[..k], owners, sms) + Zip(waves[k], row)
  {
    assert waves[..k + 1][..k] == waves[..k] && (owners + [row])[..k] == owners;
  }

  lemma RowWellStart(waves: Waves, k: nat, owners: Owners, sms: nat)
    requires k <= |waves| && OwnersFit(waves[..k], owners, sms) && sms > 0
    ensures RowWell(waves, k, owners, sms, [], [])
  {
  }

  lemma NothingWell(waves: Waves, sms: nat)
    requires sms > 0
    ensures OwnersFit(waves[..0], [], sms) && AllWell(waves, 0, [], sms)
    ensures Recall(Trace(waves[..0], [], sms)) == Seen(map[], map[], map[], map[])
  {
  }

  lemma RecallStep(before: Trail, w: seq<Inst>, row: seq<nat>, x: Inst, sm: nat)
    requires |w| == |row|
    ensures Recall(before + Zip(w + [x], row + [sm])) == Remember(Recall(before + Zip(w, row)), x, sm)
  {
    hide Remember;
    var done := before + Zip(w + [x], row + [sm]);
    assert done[..|done| - 1] == before + Zip(w, row);
  }

  lemma NothingPicked(sms: nat, before: Trail)
    ensures forall j: nat :: |Picked([], [], j)| == 0
    ensures before + Zip([], []) == before
  {
  }

  // ---- quotas ----

  lemma {:induction false} QuotaSum(n: nat, sms: nat, k: nat)
    requires sms > 0 && k <= sms
    ensures Sum(seq(k, (j: nat) => Quota(n, sms, j))) == k * (n / sms) + if k < n % sms then k else n % sms
  {
    if k > 0 {
      QuotaSum(n, sms, k - 1);
      assert seq(k, (j: nat) => Quota(n, sms, j))[..k - 1] == seq(k - 1, (j: nat) => Quota(n, sms, j));
      MulStep(k - 1, n / sms);
    }
  }

  lemma AllQuotas(n: nat, sms: nat)
    requires sms > 0
    ensures Sum(seq(sms, (j: nat) => Quota(n, sms, j))) == n
  {
    QuotaSum(n, sms, sms);
  }

  lemma {:induction false} TotalPrefix(waves: Waves, k: nat)
    requires k <= |waves|
    ensures Total(waves[..k]) <= Total(waves)
    ensures k < |waves| ==> Total(waves[..k + 1]) == Total(waves[..k]) + |waves[k]| <= Total(waves)
    decreases |waves|
  {
    if k < |waves| {
      var n := |waves| - 1;
      assert waves[..k + 1][..k] == waves[..k];
      if k < n {
        TotalPrefix(waves[..n], k);
        assert waves[..n][..k] == waves[..k] && waves[..n][..k + 1] == waves[..k + 1];
      } else {
        assert waves[..k + 1] == waves;
      }
    } else {
      assert waves[..k] == waves;
    }
  }

  /** While a row is left to place, some SM has quota left. */
  lemma NeverExhausted(remaining: seq<nat>)
    requires Sum(remaining) > 0
    ensures exists sm: nat :: Open(remaining, sm)
  {
    SumZero(remaining);
    var i :| 0 <= i < |remaining| && remaining[i] != 0;
    assert Open(remaining, i);
  }

  /** What is placed on SM j plus what it may still take is its round-robin share. */
  ghost predicate OnQuota(waves: Waves, k: nat, owners: Owners, sms: nat, w: seq<Inst>, row: seq<nat>, remaining: seq<nat>)
    requires k <= |waves| && OwnersFit(waves[..k], owners, sms) && |w| == |row|
  {
    && |remaining| == sms && sms > 0
    && Sum(remaining) == Total(waves) - Total(waves[..k]) - |w|
    && forall j: nat :: j < sms ==>
         Load(waves[..k], owners, sms, j) + |Picked(w, row, j)| + remaining[j] == Quota(Total(waves), sms, j)
  }

  lemma QuotaTaken(waves: Waves, k: nat, owners: Owners, sms: nat, w: seq<Inst>, row: seq<nat>, remaining: seq<nat>, x: Inst, sm: nat)
    requires k <= |waves| && OwnersFit(waves[..k], owners, sms) && |w| == |row| && Open(remaining, sm)
    requires OnQuota(waves, k, owners, sms, w, row, remaining)
    ensures OnQuota(waves, k, owners, sms, w + [x], row + [sm], remaining[sm := remaining[sm] - 1])
  {
    hide Load;
    hide Quota;
    hide Picked;
    hide Total;
    hide OwnersFit;
    SumUpdate(remaining, sm, remaining[sm] - 1);
    forall j: nat | j < sms ensures |Picked(w + [x], row + [sm], j)| == |Picked(w, row, j)| + if sm == j then 1 else 0 {
      PickedSnoc(w, row, x, sm, j);
    }
  }

  lemma QuotaNextWave(waves: Waves, k: nat, owners: Owners, sms: nat, row: seq<nat>, remaining: seq<nat>)
    requires k < |waves| && OwnersFit(waves[..k], owners, sms) && |row| == |waves[k]|
    requires forall i :: 0 <= i < |row| ==> row[i] < sms
    requires OnQuota(waves, k, owners, sms, waves[k], row, remaining)
    ensures OwnersFit(waves[..k + 1], owners + [row], sms)
    ensures OnQuota(waves, k + 1, owners + [row], sms, [], [], remaining)
  {
    hide Quota;
    WaveSnoc(waves[..k], owners, sms, waves[k], row);
    assert waves[..k + 1] == waves[..k] + [waves[k]];
    TotalPrefix(waves, k);
  }

  lemma QuotaStart(waves: Waves, sms: nat)
    requires sms > 0
    ensures OwnersFit(waves[..0], [], sms)
    ensures OnQuota(waves, 0, [], sms, [], [], seq(sms, (j: nat) => Quota(Total(waves), sms, j)))
  {
    AllQuotas(Total(waves), sms);
  }

  /** At the end every quota is used up. */
  lemma QuotaDone(waves: Waves, owners: Owners, sms: nat, remaining: seq<nat>)
    requires OwnersFit(waves[..|waves|], owners, sms) && OnQuota(waves, |waves|, owners, sms, [], [], remaining)
    ensures OwnersFit(waves, owners, sms)
    ensures forall j: nat :: j < sms ==> remaining[j] == 0 && Load(waves, owners, sms, j) == Quota(Total(waves), sms, j)
  {
    hide Quota;
    assert waves[..|waves|] == waves;
    SumZero(remaining);
  }

  function Depths(perSm: seq<seq<Inst>>): seq<nat> {
    seq(|perSm|, j requires 0 <= j < |perSm| => |perSm[j]|)
  }

  lemma SomeoneIsOpen(waves: Waves, k: nat, owners: Owners, sms: nat, w: seq<Inst>, row: seq<nat>, remaining: seq<nat>)
    requires k < |waves| && OwnersFit(waves[..k], owners, sms) && |w| == |row| && |w| < |waves[k]|
    requires Total(waves[..k]) + |waves[k]| <= Total(waves)
    requires OnQuota(waves, k, owners, sms, w, row, remaining)
    ensures exists sm: nat :: Open(remaining, sm)
  {
    NeverExhausted(remaining);
  }

  /** _dependency_affinity_round_robin_waves: neither error is ever raised, every
      instruction is placed once in wave order, and every SM gets what plain round robin
      gives it. An instruction goes where a producer ran as long as some such SM has quota
      left, and to an SM with the fewest instructions of its wave among those it may go to. */
  method AffinityWaves(waves: Waves, sms: nat, ablation: bool)
    returns (r: Result<seq<seq<Inst>>, PlacementError>, ghost owners: Owners)
    ensures r.Ok? <==> sms > 0
    ensures r.Ok? ==> Lists(waves, owners, sms, ablation, r.value)
    ensures r.Ok? ==> forall j: nat :: j < sms ==> Load(waves, owners, sms, j) == Quota(Total(waves), sms, j)
    ensures r.Ok? ==> OwnersFit(waves[..|waves|], owners, sms) && AllWell(waves, |waves|, owners, sms)
  {
    hide ListFor;
    hide Load;
    hide Picked;
    hide Quota;
    hide Total;
    hide Midway;
    hide Lists;
    hide OnQuota;
    hide Preferred;
    hide Remember;
    hide OwnersFit;
    hide RowWell;
    hide AllWell;
    hide WellPlaced;
    hide GoodChoice;
    hide Recall;
    hide Trace;
    hide Zip;
    owners := [];
    if sms == 0 { return Err(NoSms), owners; }
    var total := Total(waves);
    var remaining: seq<nat> := seq(sms, (j: nat) => Quota(total, sms, j));
    var perSm: seq<seq<Inst>> := seq(sms, _ => []);
    var cursor: nat := 0;
    var seen := Seen(map[], map[], map[], map[]);
    NothingPlaced(waves, sms, ablation);
    QuotaStart(waves, sms);
    NothingWell(waves, sms);
    for wi := 0 to |waves|
      invariant |perSm| == sms && |remaining| == sms && OwnersFit(waves[..wi], owners, sms)
      invariant wi < |waves| ==> Midway(waves, wi, owners, sms, ablation, perSm, [], [])
      invariant wi == |waves| ==> Lists(waves[..wi], owners, sms, ablation, perSm)
      invariant OnQuota(waves, wi, owners, sms, [], [], remaining)
      invariant seen == Recall(Trace(waves[..wi], owners, sms)) && AllWell(waves, wi, owners, sms)
    {
      var w := waves[wi];
      var counts: seq<nat> := seq(sms, _ => 0);
      ghost var row: seq<nat> := [];
      assert w[..0] == [];
      TotalPrefix(waves, wi);
      ghost var before := Trace(waves[..wi], owners, sms);
      NothingPicked(sms, before);
      RowWellStart(waves, wi, owners, sms);
      for i := 0 to |w|
        invariant |perSm| == |remaining| == |counts| == sms && |row| == i
        invariant Midway(waves, wi, owners, sms, ablation, perSm, w[..i], row)
        invariant OnQuota(waves, wi, owners, sms, w[..i], row, remaining)
        invariant forall j: nat :: j < sms ==> counts[j] == |Picked(w[..i], row, j)|
        invariant seen == Recall(before + Zip(w[..i], row)) && RowWell(waves, wi, owners, sms, w[..i], row)
      {
        var rank := Rank(Depths(perSm), cursor, sms);
        SomeoneIsOpen(waves, wi, owners, sms, w[..i], row, remaining);
        var chosen := ChooseSm(Preferred(seen, rank, w[i]), counts, remaining, rank);
        if chosen.Err? { return Err(Exhausted), owners; }
        var sm := chosen.value;
        MidwayStep(waves, wi, owners, sms, ablation, perSm, w[..i], row, w[i], sm);
        QuotaTaken(waves, wi, owners, sms, w[..i], row, remaining, w[i], sm);
        ChoiceIsWell(waves, wi, owners, sms, w[..i], row, remaining, counts, rank, w[i], sm);
        RowWellStep(waves, wi, owners, sms, w[..i], row, w[i], sm);
        RecallStep(before, w[..i], row, w[i], sm);
        forall j: nat | j < sms
          ensures |Picked(w[..i] + [w[i]], row + [sm], j)| == |Picked(w[..i], row, j)| + if sm == j then 1 else 0
        {
          PickedSnoc(w[..i], row, w[i], sm, j);
        }
        assert w[..i + 1] == w[..i] + [w[i]];
        remaining := remaining[sm := remaining[sm] - 1];
        cursor := (sm + 1) % sms;
        perSm := perSm[sm := perSm[sm] + [w[i]]];
        counts := counts[sm := counts[sm] + 1];
        seen := Remember(seen, w[i], sm);
        row := row + [sm];
      }
      assert w[..|w|] == w;
      WaveDone(waves, wi, owners, sms, ablation, perSm, row);
      QuotaNextWave(waves, wi, owners, sms, row, remaining);
      TraceStep(waves, wi, owners, sms, row);
      AllWellStep(waves, wi, owners, sms, row);
      owners := owners + [row];
      ghost var listed := perSm;
      if ablation && wi + 1 < |waves| { perSm := AppendSyncs(perSm); }
      if wi + 1 < |waves| { NextWave(waves, wi + 1, owners, sms, ablation, listed, perSm); }
    }
    QuotaDone(waves, owners, sms, remaining);
    assert waves[..|waves|] == waves;
    if exists sm :: 0 <= sm < sms && remaining[sm] != 0 { return Err(QuotaLeft), owners; }
    r := Ok(perSm);
  }
}
