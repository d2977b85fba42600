/** The continuous-batching session (serving/session.py): one scheduler, one decode thread
    and any number of clients over a queue of requests and the rows of a decode batch.

    Each method is one step that its locks, or the pause of the decode thread, make atomic;
    cancels and submissions may come between any two of them. */
module Session {
  import opened Wrappers
  import opened Arithmetic
  import opened KvModel
  import opened Admission
  import opened SessionRequest
  import opened DecodeService

  datatype Slot = Free | Live(request: Request, startPos: nat, sampling: Sampling)

  /** The decode thread steps only while Running; Reaped: parked, finished rows removed. */
  datatype Phase = Running | Reaped

  datatype SubmitError = EmptyPrompt | BadToken | BadBudget | NoCapacity | TooLarge | Stopping

  /** How a prefill ended: with the first token, or with an exception. */
  datatype Outcome = Prefilled(token: int) | Crashed

  datatype Limits = Limits(
    geo: Geometry, chunk: nat,       // what prefill demand depends on
    maxContext: nat, maxNew: nat,    // max_context, session_max_new
    totalBlocks: nat, vocab: nat,
    sessionBatch: nat, eos: int)

  function Demand(c: Limits, tokens: nat): nat
    requires GeometryOk(c.geo)
  {
    Required(c.geo, c.chunk, tokens, c.geo.layers)
  }

  function Budget(c: Limits, ids: seq<int>, maxNew: int): int {
    Least(Least(maxNew, c.maxNew), c.maxContext - |ids|)
  }

  /** What submit lets in: a request whose whole life fits the context and the arena. */
  predicate Admissible(c: Limits, ids: seq<int>, maxNew: int)
    requires GeometryOk(c.geo)
  {
    && ids != [] && (forall i :: 0 <= i < |ids| ==> 0 <= ids[i] < c.vocab)
    && maxNew >= 1 && Budget(c, ids, maxNew) >= 1 && Demand(c, |ids| + Budget(c, ids, maxNew)) <= c.totalBlocks
  }

  lemma DemandMonotone(c: Limits, a: nat, b: nat)
    requires GeometryOk(c.geo) && a <= b
    ensures Demand(c, a) <= Demand(c, b)
  {
    DemandGrows(c.geo, c.chunk, a, b, c.geo.layers);
  }

  ghost predicate NoRepeats<T>(s: seq<T>) { forall i, j :: 0 <= i < j < |s| ==> s[i] != s[j] }

  ghost predicate Removed<T>(s: seq<T>, t: seq<T>, x: T) {
    && (forall y :: y in t ==> y in s && y != x)
    && (forall y :: y in s && y != x ==> y in t)
    && NoRepeats(t)
  }

  /** Taking one element out of a list without repetitions. */
  lemma DropAt<T>(s: seq<T>, i: nat)
    requires i < |s| && NoRepeats(s)
    ensures Removed(s, s[..i] + s[i + 1..], s[i])
  {
    var t := s[..i] + s[i + 1..];
    forall x | x in s && x != s[i] ensures x in t {
      var j :| 0 <= j < |s| && s[j] == x;
      assert t[if j < i then j else j - 1] == x;
    }
  }

  /** The live rows, in order (live_rows of _tick). */
  function LiveIn(slots: seq<Slot>): (live: seq<nat>)
    ensures forall d :: 0 <= d < |live| ==> live[d] < |slots| && slots[live[d]].Live?
    ensures forall d, e :: 0 <= d < e < |live| ==> live[d] < live[e]
  {
    if slots == [] then [] else
    var n := |slots| - 1;
    LiveIn(slots[..n]) + (if slots[n].Live? then [n] else [])
  }

  /** The rows `live` in front, the rest empty. */
  function Compact<T>(xs: seq<T>, live: seq<nat>, target: nat, none: T): (r: seq<T>)
    requires |live| <= target && forall d :: 0 <= d < |live| ==> live[d] < |xs|
    ensures |r| == target
    ensures forall d :: 0 <= d < target ==> r[d] == if d < |live| then xs[live[d]] else none
  {
    seq(target, d requires 0 <= d < target => if d < |live| then xs[live[d]] else none)
  }

  lemma {:induction false} FindLive(slots: seq<Slot>, i: nat) returns (d: nat)
    requires i < |slots| && slots[i].Live?
    ensures d < |LiveIn(slots)| && LiveIn(slots)[d] == i
  {
    var n := |slots| - 1;
    if i < n { d := FindLive(slots[..n], i); } else { d := |LiveIn(slots[..n])|; }
  }

  class Session {
    const limits: Limits
    var pending: seq<Request>
    var admitting: seq<Request>  // taken off the queue, prefill not yet installed
    var slots: seq<Slot>
    var rows: seq<Row>
    var generated: seq<seq<int>> // sampled ids of each row, by column
    var holdsPages: seq<bool>    // rows whose KV pages are not freed
    var stopping: bool
    var phase: Phase
    var nextId: nat
    ghost var all: set<Request>

    // ---- invariant ----

    /** A request that was accepted fits the context and the arena for its whole life. */
    ghost predicate Accepted(r: Request)
      reads r
    {
      && LimitsOk() && r.Valid() && r.origin != [] && 1 <= r.maxNew <= limits.maxNew
      && |r.origin| + r.maxNew <= limits.maxContext
      && Demand(limits, |r.origin| + r.maxNew) <= limits.totalBlocks
    }

    ghost predicate LimitsOk() { GeometryOk(limits.geo) }

    /** A request is where its place says, and nowhere else. */
    ghost predicate Placed(r: Request)
      reads this, r
    {
      match r.place
      case Waiting => r in pending && (r.done ==> stopping) && r.emitted < r.maxNew && r.emittedIds == []
      case Admitting => r in admitting && (r.done ==> stopping) && r.emitted < r.maxNew && r.emittedIds == []
      case InRow(i) =>
        && i < |slots| && slots[i].Live? && slots[i].request == r
        && (r.emitted < r.maxNew || r.limitReached) && (r.done ==> stopping)
      case Gone => r.done
    }

    /** Row i and its slot agree. What a row that still streams has emitted since it was
        admitted is what was sampled into its columns. */
    ghost predicate RowOk(i: nat)
      requires i < |slots| && |rows| == |slots| == |holdsPages| == |generated|
      reads this, if slots[i].Live? then {slots[i].request} else {}
    {
      match slots[i]
      case Free => !rows[i].active && !holdsPages[i]
      case Live(r, startPos, sampling) =>
        && holdsPages[i] && rows[i].startPos == startPos == |r.promptIds| && rows[i].sampling == sampling == r.sampling
        && rows[i].genCol < limits.maxNew && |generated[i]| == rows[i].genCol + 1
        && (!r.limitReached && !r.done ==> r.emittedIds == generated[i])
        && (phase == Reaped ==>
              && rows[i].active && rows[i].finish == 0 && r.emitted < r.maxNew
              && (!r.done ==> r.emittedIds == generated[i]))
    }

    ghost predicate QueuesOk()
      reads this, all
    {
      && (forall r :: r in pending ==> r in all && r.place == Waiting)
      && (forall r :: r in admitting ==> r in all && r.place == Admitting)
      && NoRepeats(pending) && NoRepeats(admitting)
      && (admitting != [] ==> phase == Reaped)
    }

    ghost predicate SlotsOk()
      reads this, all
    {
      && |rows| == |slots| == |holdsPages| == |generated|
      && (forall i :: 0 <= i < |slots| && slots[i].Live? ==> slots[i].request in all && slots[i].request.place == InRow(i))
      && (forall i: nat :: i < |slots| ==> RowOk(i))
    }

    ghost predicate Valid()
      reads this, all
    {
      && LimitsOk() && QueuesOk() && SlotsOk()
      && (forall r :: r in all ==> Accepted(r) && Placed(r))
    }

    /** Nothing sent is taken back, and nothing follows a terminator. */
    twostate predicate Grew()
      reads this, all
    {
      && old(all) <= all
      && forall r :: r in old(all) ==>
        && old(r.stream) <= r.stream && (old(r.done) ==> r.done && r.queue == old(r.queue))
        && (old(r.limitReached) ==> r.limitReached)
    }

    constructor (limits: Limits, batch: nat)
      requires GeometryOk(limits.geo)
      ensures Valid() && all == {} && pending == admitting == [] && phase == Running && !stopping && this.limits == limits
      ensures slots == seq(batch, _ => Free)
    {
      this.limits := limits;
      pending, admitting := [], [];
      slots, rows := seq(batch, _ => Free), seq(batch, _ => OFF);
      generated, holdsPages := seq(batch, _ => []), seq(batch, _ => false);
      stopping, phase, nextId := false, Running, 0;
      all := {};
    }

    lemma Known()
      requires Valid()
      ensures LimitsOk()
    {
    }

    ghost predicate InSomeRow(r: Request)
      reads this
    {
      exists i :: 0 <= i < |slots| && slots[i].Live? && slots[i].request == r
    }

    /** An unfinished request is waiting, being admitted, or in a row. */
    lemma IsPlaced(r: Request)
      requires Valid() && r in all
      ensures r.Valid()
      ensures r.done || r in pending || r in admitting || InSomeRow(r)
    {
      hide RowOk;
      assert Accepted(r) && Placed(r);
    }

    lemma Queued(r: Request)
      requires Valid() && r in pending
      ensures r in all && r.place == Waiting && NoRepeats(pending) && Placed(r) && Accepted(r) && r !in admitting
    {
      hide RowOk;
      hide Demand;
    }

    /** A step that touches one request, and at most one row, keeps the rest as it was. */
    twostate lemma OthersKept(new r: Request, row: int)
      requires old(Valid()) && phase == old(phase) && (old(stopping) ==> stopping)
      requires |slots| == |rows| == |generated| == |holdsPages| == old(|slots|)
      requires forall o :: o in old(all) && o != r ==> unchanged(o)
      requires forall o :: o in old(all) && o != r ==> (old(o in pending) ==> o in pending)
      requires forall o :: o in old(all) && o != r ==> (old(o in admitting) ==> o in admitting)
      requires forall j :: 0 <= j < |slots| && j != row ==>
        slots[j] == old(slots[j]) && rows[j] == old(rows[j]) && generated[j] == old(generated[j]) && holdsPages[j] == old(holdsPages[j])
      requires r in old(all) && old(r.place).InRow? ==> old(r.place).row == row
      requires 0 <= row < |slots| && old(slots[row].Live?) ==> old(slots[row].request) == r
      ensures forall o :: o in old(all) && o != r ==> Accepted(o) && Placed(o)
      ensures forall j: nat :: j < |slots| && j != row ==> RowOk(j) && (slots[j].Live? ==> slots[j].request != r)
    {
      hide Demand;
      forall o | o in old(all) && o != r ensures Accepted(o) && Placed(o) {
        assert old(Accepted(o) && Placed(o));
      }
      forall j: nat | j < |slots| && j != row ensures RowOk(j) && (slots[j].Live? ==> slots[j].request != r) {
        assert old(RowOk(j));
      }
    }

    /** The queues stay in order when they lose at most one request, which has moved on. */
    twostate lemma QueuesKept(r: Request)
      requires old(QueuesOk()) && all == old(all) && phase == old(phase) && admitting == old(admitting) && r in all
      requires forall o :: o in all && o != r ==> o.place == old(o.place)
      requires pending == old(pending) || Removed(old(pending), pending, r)
      requires r.place == old(r.place) || (r !in pending && r !in admitting)
      ensures QueuesOk()
    {
    }

    twostate lemma QueuesGain(r: Request)
      requires old(QueuesOk()) && all == old(all) && phase == old(phase) && admitting == old(admitting) && r in all
      requires forall o :: o in all && o != r ==> o.place == old(o.place)
      requires old(r !in pending) && r !in admitting && r.place == Waiting && pending == old(pending) + [r]
      ensures QueuesOk()
    {
    }

    // ---- clients ----

    /** submit */
    method Submit(ids: seq<int>, maxNew: int, sampling: Sampling) returns (r: Result<Request, SubmitError>)
      requires Valid()
      modifies this`pending, this`nextId, this`all
      ensures Valid()
      ensures r.Ok? <==> !stopping && Admissible(limits, ids, maxNew)
      ensures r.Ok? ==>
        && fresh(r.value) && all == old(all) + {r.value} && pending == old(pending) + [r.value]
        && r.value.origin == r.value.promptIds == ids && r.value.maxNew == Budget(limits, ids, maxNew)
        && !r.value.done && !r.value.limitReached && r.value.emitted == 0
      ensures r.Err? ==> all == old(all) && pending == old(pending)
    {
      hide Demand;
      if ids == [] { return Err(EmptyPrompt); }
      if exists i :: 0 <= i < |ids| && !(0 <= ids[i] < limits.vocab) { return Err(BadToken); }
      if maxNew < 1 { return Err(BadBudget); }
      var budget := Budget(limits, ids, maxNew);
      if budget < 1 { return Err(NoCapacity); }
      if Demand(limits, |ids| + budget) > limits.totalBlocks { return Err(TooLarge); }
      if stopping { return Err(Stopping); }
      var request := new Request(nextId, ids, budget, sampling);
      nextId := nextId + 1;
      pending := pending + [request];
      all := all + {request};
      OthersKept(request, -1);
      r := Ok(request);
    }

    /** cancel: a waiting request ends at once, any other one at the next reaping. */
    method Cancel(r: Request)
      requires Valid() && r in all
      modifies this`pending, r`queue, r`done, r`reason, r`limitReached, r`place
      ensures Valid() && Grew() && all == old(all)
      ensures old(r in pending) ==> r.done && r.reason == old(r.Because(Stop)) && r.limitReached == old(r.limitReached)
      ensures old(r in pending) ==>
        exists i :: 0 <= i < |old(pending)| && old(pending)[i] == r && pending == old(pending)[..i] + old(pending)[i + 1..]
      ensures old(r !in pending) ==>
        && r.limitReached && r.reason == Some(Stop) && r.done == old(r.done) && r.queue == old(r.queue)
        && r.place == old(r.place) && pending == old(pending)
    {
      if r in pending { CancelWaiting(r); } else { Flag(r); }
    }

    method CancelWaiting(r: Request)
      requires Valid() && r in pending
      modifies this`pending, r`queue, r`done, r`reason, r`place
      ensures Valid() && Grew() && all == old(all) && r.done && r.reason == old(r.Because(Stop))
      ensures exists i :: 0 <= i < |old(pending)| && old(pending)[i] == r && pending == old(pending)[..i] + old(pending)[i + 1..]
    {
      hide Demand;
      hide QueuesOk;
      hide RowOk;
      hide Placed;
      Queued(r);
      var i :| 0 <= i < |pending| && pending[i] == r;
      DropAt(pending, i);
      pending := pending[..i] + pending[i + 1..];
      r.End(Stop);
      EndedOk(r);
      QueuesKept(r);
      OthersKept(r, -1);
    }

    method Flag(r: Request)
      requires Valid() && r in all
      modifies r`reason, r`limitReached
      ensures Valid() && Grew() && r.limitReached && r.reason == Some(Stop)
    {
      hide Demand;
      hide QueuesOk;
      assert Placed(r) && Accepted(r);
      if r.place.InRow? { assert RowOk(r.place.row); }
      r.limitReached := true;
      r.reason := Some(Stop);
      QueuesKept(r);
      OthersKept(r, RowOf(r.place));
    }

    // ---- the decode thread ----

    static ghost function RowOf(p: Place): int { if p.InRow? then p.row else -1 }

    ghost function Requests(i: nat): set<Request>
      requires i < |slots|
      reads this
    {
      if slots[i].Live? then {slots[i].request} else {}
    }

    /** One row of one decode step, and its part of _on_tokens. A refused step only applies
        the length guard. */
    method StepRow(i: nat, token: int, eos: bool, ok: bool)
      requires Valid() && phase == Running && i < |slots|
      modifies this`rows, this`generated, Requests(i)
      ensures Valid() && Grew() && rows == old(rows)[i := Advanced(old(rows[i]), ok, eos, limits.maxNew)]
      ensures slots[i].Live? ==> Sent(i, token, ok)
    {
      hide Demand;
      hide QueuesOk;
      assert RowOk(i);
      if !rows[i].active { return; }
      if !Steps(rows[i], limits.maxNew) { StopRow(i); } else if ok { AdvanceRow(i, token, eos); }
    }

    /** What the step has sent to the client of row i. A limit is reached exactly by sending
        the last token of the budget. */
    twostate predicate Sent(i: nat, token: int, ok: bool)
      requires i < |slots| == old(|slots|) == old(|rows|) && slots == old(slots) && slots[i].Live?
      reads this, Requests(i)
    {
      var r := slots[i].request;
      && r.done == old(r.done) && r.stream == old(r.stream) + (if ok && old(Streams(i)) then [token] else [])
      && (r.limitReached <==> old(r.limitReached) || (ok && old(Streams(i)) && r.emitted == r.maxNew))
    }

    /** Row i gets a token this step and its client is still listening. */
    ghost predicate Streams(i: nat)
      requires i < |slots| && |rows| == |slots|
      reads this, Requests(i)
    {
      slots[i].Live? && !slots[i].request.limitReached && !slots[i].request.done && Steps(rows[i], limits.maxNew)
    }

    /** The length guard: no column is left. */
    method StopRow(i: nat)
      requires Valid() && phase == Running && i < |slots| && slots[i].Live? && rows[i].active && !Steps(rows[i], limits.maxNew)
      modifies this`rows
      ensures Valid() && Grew() && rows == old(rows)[i := Stepped(old(rows[i]), false, limits.maxNew)]
    {
      hide Demand;
      hide QueuesOk;
      assert RowOk(i);
      rows := rows[i := rows[i].(active := false, finish := 2)];
      QueuesKept(slots[i].request);
      OthersKept(slots[i].request, i);
    }

    method AdvanceRow(i: nat, token: int, eos: bool)
      requires Valid() && phase == Running && i < |slots| && slots[i].Live? && Steps(rows[i], limits.maxNew)
      modifies this`rows, this`generated, Requests(i)
      ensures Valid() && Grew() && rows == old(rows)[i := Stepped(old(rows[i]), eos, limits.maxNew)]
      ensures Sent(i, token, true)
    {
      hide Demand;
      hide QueuesOk;
      hide RowOk;
      hide Placed;
      hide Accepted;
      var r := slots[i].request;
      InSlot(i);
      CanDeliver(i);
      rows := rows[i := rows[i].(genCol := rows[i].genCol + 1, active := !eos, finish := if eos then 1 else rows[i].finish)];
      generated := generated[i := generated[i] + [token]];
      var sent := r.Deliver(token);
      AdvancedOk(r, i, token, eos);
      QueuesKept(r);
      OthersKept(r, i);
    }

    lemma CanDeliver(i: nat)
      requires Valid() && i < |slots| && slots[i].Live?
      ensures var r := slots[i].request; r.Valid() && (r.emitted < r.maxNew || r.limitReached)
    {
      hide Demand;
      InSlot(i);
    }

    twostate lemma AdvancedOk(new r: Request, i: nat, new token: int, new eos: bool)
      requires phase == Running && i < |slots| && |rows| == |slots| == |generated| == |holdsPages|
      requires old(|slots| == |rows| == |generated| == |holdsPages|) && slots == old(slots)
      requires slots[i].Live? && slots[i].request == r
      requires old(RowOk(i)) && old(Placed(r)) && old(Accepted(r)) && old(r.place) == InRow(i) && r.Valid()
      requires holdsPages == old(holdsPages) && phase == old(phase) && stopping == old(stopping)
      requires rows[i] == Stepped(old(rows[i]), eos, limits.maxNew) && Steps(old(rows[i]), limits.maxNew)
      requires generated[i] == old(generated[i]) + [token]
      requires r.promptIds == old(r.promptIds) && r.done == old(r.done) && r.place == old(r.place)
      requires (r.emitted < r.maxNew || r.limitReached) && (old(r.limitReached) ==> r.limitReached)
      requires !old(r.limitReached) && !r.done ==> r.emittedIds == old(r.emittedIds) + [token]
      ensures RowOk(i) && Placed(r) && Accepted(r)
    {
      hide Demand;
    }

    /** The KV manager will refuse the positions of the next step. */
    predicate Refusal()
      requires LimitsOk()
      reads this
    {
      exists i :: 0 <= i < |rows| && Outside(rows[i], limits.maxNew, MaxTokens(limits.geo))
    }

    /** One decode step of the whole batch; rows do not affect each other. A position outside
        the page table fails the step before anything is computed, and ends the service. */
    method DecodeStep(sampled: seq<int>, eos: seq<bool>) returns (ok: bool)
      requires Valid() && phase == Running && |sampled| == |eos| == |slots|
      modifies this`rows, this`generated, all
      ensures Valid() && Grew() && ok == old(!Refusal()) && (!ok ==> Refusal())
      ensures |rows| == |slots| && forall i :: 0 <= i < |slots| ==> rows[i] == Advanced(old(rows[i]), ok, eos[i], limits.maxNew)
      ensures forall i: nat :: i < |slots| && slots[i].Live? ==> Sent(i, sampled[i], ok)
    {
      hide Demand;
      hide QueuesOk;
      hide RowOk;
      hide Accepted;
      hide Placed;
      ok := !Refusal();
      StepRows(sampled, eos, ok);
      if !ok {
        ghost var i :| 0 <= i < |rows| && old(Outside(rows[i], limits.maxNew, MaxTokens(limits.geo)));
        assert rows[i] == old(rows[i]);
      }
    }

    lemma Widths()
      requires Valid()
      ensures |rows| == |slots| == |generated| == |holdsPages|
    {
    }

    twostate predicate Silent(r: Request)
      reads r
    {
      r.stream == old(r.stream) && r.done == old(r.done) && r.limitReached == old(r.limitReached)
    }

    method StepRows(sampled: seq<int>, eos: seq<bool>, ok: bool)
      requires Valid() && phase == Running && |sampled| == |eos| == |slots|
      modifies this`rows, this`generated, all
      ensures Valid() && Grew()
      ensures |rows| == |slots| && forall i :: 0 <= i < |slots| ==> rows[i] == Advanced(old(rows[i]), ok, eos[i], limits.maxNew)
      ensures forall i: nat :: i < |slots| && slots[i].Live? ==> Sent(i, sampled[i], ok)
    {
      hide Valid;
      hide Advanced;
      hide Steps;
      assert |rows| == |slots| by { Widths(); }
      forall i: nat | i < |slots| && slots[i].Live? ensures slots[i].request in all { RowsApart(i); }
      for i := 0 to |slots|
        invariant Valid() && Grew() && |rows| == |slots|
        invariant forall j: nat :: i <= j < |slots| ==> rows[j] == old(rows[j])
        invariant forall j: nat :: i <= j < |slots| && slots[j].Live? ==> Silent(slots[j].request)
        invariant forall j: nat :: j < i ==> rows[j] == Advanced(old(rows[j]), ok, eos[j], limits.maxNew)
        invariant forall j: nat :: j < i && slots[j].Live? ==> Sent(j, sampled[j], ok)
      {
        if slots[i].Live? { RowsApart(i); }
        StepRow(i, sampled[i], eos[i], ok);
      }
    }

    /** A row whose client still listens writes inside the context the request was accepted for. */
    lemma StreamsInside(i: nat)
      requires Valid() && i < |slots| && Streams(i)
      ensures rows[i].startPos + rows[i].genCol + 1 < limits.maxContext
    {
      hide Demand;
      InSlot(i);
      var r := slots[i].request;
      assert |r.origin + r.stream| == |r.promptIds + r.emittedIds|;
    }

    /** So a step is refused only for a row whose request has reached its limit, was
        cancelled, or has failed. */
    lemma OutsideIsSilent(i: nat)
      requires Valid() && i < |slots| && limits.maxContext <= MaxTokens(limits.geo)
      requires Outside(rows[i], limits.maxNew, MaxTokens(limits.geo))
      ensures slots[i].Live? && (slots[i].request.limitReached || slots[i].request.done)
    {
      hide Demand;
      assert RowOk(i);
      if slots[i].Live? && !slots[i].request.limitReached && !slots[i].request.done { StreamsInside(i); }
    }

    /** The first step after the rows were reaped is never refused. */
    lemma ResumesInside()
      requires Valid() && phase == Reaped && !stopping && limits.maxContext <= MaxTokens(limits.geo)
      ensures !Refusal()
    {
      hide Demand;
      hide QueuesOk;
      forall i | 0 <= i < |rows| ensures !Outside(rows[i], limits.maxNew, MaxTokens(limits.geo)) {
        assert RowOk(i);
        if slots[i].Live? {
          InSlot(i);
          var r := slots[i].request;
          assert |r.origin + r.stream| == |r.promptIds + r.emittedIds|;
        }
      }
    }

    // ---- the scheduler, with the decode thread parked ----

    /** set_slot. The service refuses a position outside the context; the session never
        asks for one. */
    method SetSlot(i: nat, startPos: nat, genCol: nat, sampling: Sampling)
      requires i < |rows| && genCol < limits.maxNew && startPos + genCol < limits.maxContext
      modifies this`rows
      ensures rows == old(rows)[i := Row(true, startPos, genCol, sampling, 0)]
    {
      rows := rows[i := Row(true, startPos, genCol, sampling, 0)];
    }

    /** Nothing more will come for the request in row i. */
    predicate Ended(i: nat)
      requires i < |slots| && |rows| == |slots|
      reads this, Requests(i)
    {
      slots[i].Live? && (!rows[i].active || rows[i].finish != 0 || slots[i].request.limitReached)
    }

    /** What a row that has ended on its own ended for. */
    function Why(i: nat): Reason
      requires i < |rows|
      reads this
    {
      if rows[i].finish == 1 then Stop else Length
    }

    /** Ends the request in row i and gives its pages back. */
    method ReapRow(i: nat)
      requires Valid() && i < |slots| && slots[i].Live?
      modifies this`rows, this`slots, this`holdsPages
      modifies Requests(i)`queue, Requests(i)`done, Requests(i)`reason, Requests(i)`place
      ensures Valid() && Grew() && slots == old(slots)[i := Free] && rows == old(rows)[i := OFF]
      ensures old(slots[i].request).done && old(slots[i].request).reason == old(slots[i].request.Because(Why(i)))
    {
      hide Demand;
      hide QueuesOk;
      hide RowOk;
      hide Placed;
      var r := slots[i].request;
      InSlot(i);
      var why := Why(i);
      rows := rows[i := OFF];
      holdsPages := holdsPages[i := false];
      slots := slots[i := Free];
      r.End(why);
      FreeRowOk(i);
      EndedOk(r);
      QueuesKept(r);
      OthersKept(r, i);
    }

    twostate lemma EndedOk(r: Request)
      requires old(Accepted(r)) && r.Valid() && r.done && r.place == Gone
      ensures Accepted(r) && Placed(r)
    {
    }

    lemma FreeRowOk(i: nat)
      requires i < |slots| && |rows| == |slots| == |holdsPages| == |generated|
      requires slots[i].Free? && !rows[i].active && !holdsPages[i]
      ensures RowOk(i)
    {
    }

    lemma InSlot(i: nat)
      requires Valid() && i < |slots| && slots[i].Live?
      ensures var r := slots[i].request;
        RowOk(i) && Placed(r) && Accepted(r) && r.Valid() && r in all && r.place == InRow(i) && r !in pending && r !in admitting
    {
      hide Demand;
    }

    lemma RowsApart(i: nat)
      requires Valid() && i < |slots| && slots[i].Live?
      ensures forall j :: 0 <= j < |slots| && j != i && slots[j].Live? ==> slots[j].request != slots[i].request
      ensures slots[i].request in all
    {
      hide Demand;
      hide RowOk;
    }

    /** The first half of _tick: every request that has ended leaves its row, every other row
        and its request stay as they are. Nobody is sent a token. */
    method Reap()
      requires Valid() && phase == Running
      modifies this`rows, this`slots, this`holdsPages, this`phase, all`queue, all`done, all`reason, all`place
      ensures Valid() && Grew() && phase == Reaped && |slots| == |rows| == old(|slots|) == old(|rows|)
      ensures forall i: nat :: i < |slots| ==> slots[i] == if old(Ended(i)) then Free else old(slots[i])
      ensures forall i: nat :: i < |slots| ==> rows[i] == if old(Ended(i)) then OFF else old(rows[i])
      ensures forall i: nat :: i < |slots| && slots[i].Live? ==> unchanged(slots[i].request)
      ensures forall i: nat :: i < |slots| && old(Ended(i)) ==>
        old(slots[i].request).done && old(slots[i].request).reason == old(slots[i].request.Because(Why(i)))
    {
      hide Valid;
      ReapEnded();
      Park();
    }

    method ReapEnded()
      requires Valid() && phase == Running
      modifies this`rows, this`slots, this`holdsPages, all`queue, all`done, all`reason, all`place
      ensures Valid() && Grew() && |slots| == |rows| == old(|slots|) == old(|rows|) && forall i: nat :: i < |slots| ==> !Ended(i)
      ensures forall i: nat :: i < |slots| ==> slots[i] == if old(Ended(i)) then Free else old(slots[i])
      ensures forall i: nat :: i < |slots| ==> rows[i] == if old(Ended(i)) then OFF else old(rows[i])
      ensures forall i: nat :: i < |slots| && slots[i].Live? ==> unchanged(slots[i].request)
      ensures forall i: nat :: i < |slots| && old(Ended(i)) ==>
        old(slots[i].request).done && old(slots[i].request).reason == old(slots[i].request.Because(Why(i)))
    {
      hide Valid;
      Widths();
      forall i: nat | i < |slots| && slots[i].Live?
        ensures slots[i].request in all
        ensures forall j: nat :: j < |slots| && j != i && slots[j].Live? ==> slots[j].request != slots[i].request
      {
        RowsApart(i);
      }
      for i := 0 to |slots|
        invariant Valid() && Grew() && |slots| == |rows| == old(|slots|)
        invariant forall j: nat :: j < |slots| ==> slots[j] == if j < i && old(Ended(j)) then Free else old(slots[j])
        invariant forall j: nat :: j < |slots| ==> rows[j] == if j < i && old(Ended(j)) then OFF else old(rows[j])
        invariant forall j: nat :: j < |slots| && slots[j].Live? ==> unchanged(slots[j].request)
        invariant forall j: nat :: j < i && old(Ended(j)) ==>
          old(slots[j].request).done && old(slots[j].request).reason == old(slots[j].request.Because(Why(j)))
      {
        if Ended(i) { ReapRow(i); }
      }
    }

    /** With the decode thread parked, what a live row has sampled is what it has emitted. */
    method Park()
      requires Valid() && phase == Running && forall i: nat :: i < |slots| ==> !Ended(i)
      modifies this`phase
      ensures Valid() && Grew() && phase == Reaped
    {
      hide Demand;
      forall j: nat | j < |slots| && slots[j].Live? ensures RowOk(j) && Placed(slots[j].request) && Accepted(slots[j].request) {
        InSlot(j);
      }
      assert forall r :: r in all ==> Placed(r) && Accepted(r);
      assert forall j: nat :: j < |slots| ==> RowOk(j);
      phase := Reaped;
      forall j: nat | j < |slots| ensures RowOk(j) { assert old(RowOk(j) && !Ended(j)); }
      forall r | r in all ensures Placed(r) && Accepted(r) { assert old(Placed(r) && Accepted(r)); }
    }

    /** _preempt_one: the row with the most tokens is suspended. Its client's stream is
        kept, and what it was sent becomes prompt. */
    method PreemptOne() returns (ghost victim: Request)
      requires Valid() && phase == Reaped && exists i :: 0 <= i < |slots| && slots[i].Live?
      modifies this`rows, this`slots, this`holdsPages, this`pending, all
      ensures Valid() && Grew() && phase == Reaped && all == old(all)
      ensures exists i: nat ::
        && i < |old(slots)| && old(Largest(i)) && victim == old(slots[i].request)
        && slots == old(slots)[i := Free] && rows == old(rows)[i := OFF]
      ensures pending == old(pending) + [victim] && victim.suspended && victim.emittedIds == []
      ensures victim.promptIds == old(victim.promptIds + victim.emittedIds) && victim.stream == old(victim.stream)
    {
      var v := LargestRow();
      InSlot(v);
      victim := slots[v].request;
      SuspendRow(v);
    }

    function Footprint(i: nat): nat
      requires i < |slots| && |rows| == |slots| && slots[i].Live?
      reads this
    {
      slots[i].startPos + rows[i].genCol
    }

    /** No live row holds more tokens; among equals the latest id counts. */
    predicate Largest(i: nat)
      requires i < |slots| && |rows| == |slots|
      reads this
    {
      slots[i].Live? && forall j: nat :: j < |slots| && slots[j].Live? ==> AtLeast(i, j)
    }

    predicate AtLeast(i: nat, j: nat)
      requires i < |slots| && j < |slots| && |rows| == |slots| && slots[i].Live? && slots[j].Live?
      reads this
    {
      Footprint(i) > Footprint(j) || (Footprint(i) == Footprint(j) && slots[i].request.id >= slots[j].request.id)
    }

    method LargestRow() returns (v: nat)
      requires |rows| == |slots| && exists i :: 0 <= i < |slots| && slots[i].Live?
      ensures v < |slots| && Largest(v)
    {
      var best: Option<nat> := None;
      for i := 0 to |slots|
        invariant best.None? ==> forall j :: 0 <= j < i ==> slots[j].Free?
        invariant best.Some? ==> best.value < i && slots[best.value].Live?
        invariant best.Some? ==> forall j: nat :: j < i && slots[j].Live? ==> AtLeast(best.value, j)
      {
        if slots[i].Live? && (best.None? || !AtLeast(best.value, i)) { best := Some(i); }
      }
      v := best.value;
    }

    method SuspendRow(i: nat)
      requires Valid() && i < |slots| && slots[i].Live? && phase == Reaped && slots[i].request.emitted < slots[i].request.maxNew
      modifies this`rows, this`slots, this`holdsPages, this`pending, Requests(i)
      ensures Valid() && Grew() && slots == old(slots)[i := Free] && pending == old(pending) + [old(slots[i].request)]
      ensures rows == old(rows)[i := OFF]
      ensures var r := old(slots[i].request);
        && r.suspended && r.emittedIds == [] && r.promptIds == old(r.promptIds + r.emittedIds) && r.stream == old(r.stream)
    {
      hide Demand;
      hide QueuesOk;
      hide RowOk;
      hide Accepted;
      hide Placed;
      var r := slots[i].request;
      InSlot(i);
      rows := rows[i := OFF];
      holdsPages := holdsPages[i := false];
      slots := slots[i := Free];
      r.Suspend();
      pending := pending + [r];
      r.place := Waiting;
      FreeRowOk(i);
      WaitsAgain(r);
      QueuesGain(r);
      OthersKept(r, i);
    }

    twostate lemma WaitsAgain(r: Request)
      requires old(Accepted(r)) && old(Placed(r)) && old(r.place).InRow? && r.Valid() && r.place == Waiting && r in pending
      requires r.emitted < r.maxNew && r.emittedIds == [] && r.done == old(r.done) && (old(stopping) ==> stopping)
      ensures Accepted(r) && Placed(r)
    {
    }

    /** Back to decoding. */
    method Unpark()
      requires Valid() && phase == Reaped && admitting == []
      modifies this`phase
      ensures Valid() && Grew() && phase == Running
    {
      assert forall j: nat :: j < |slots| ==> RowOk(j);
      assert forall r :: r in all ==> Placed(r) && Accepted(r);
      phase := Running;
      forall j: nat | j < |slots| ensures RowOk(j) { assert old(RowOk(j)); }
      forall r | r in all ensures Placed(r) && Accepted(r) { assert old(Placed(r) && Accepted(r)); }
    }

    /** _switch_geometry: the live rows move, in order, to the first rows of the new batch.
        Each keeps its request, positions, sampling state, service state and sampled ids;
        every other new row is empty. */
    method SwitchGeometry(target: nat)
      requires Valid() && phase == Reaped && |LiveIn(slots)| <= target
      modifies this`slots, this`rows, this`generated, this`holdsPages, all`place
      ensures Valid() && Grew() && |slots| == |rows| == |generated| == target
      ensures var live := LiveIn(old(slots));
        forall d: nat :: d < target ==>
          if d < |live| then
            slots[d] == old(slots)[live[d]] && rows[d] == old(rows)[live[d]] && generated[d] == old(generated)[live[d]]
          else slots[d].Free?
    {
      hide Valid;
      hide LiveIn;
      hide RowsMoved;
      var live := LiveIn(slots);
      LiveFacts();
      MoveRows(live, target);
      MovedApart(live);
      Renumber(live);
      Settle(live);
    }

    lemma LiveFacts()
      requires Valid() && phase == Reaped
      ensures |rows| == |slots| == |generated|
      ensures forall d: nat :: d < |LiveIn(slots)| ==> Restorable(LiveIn(slots)[d]) && Resident(LiveIn(slots)[d])
    {
      hide Demand;
      hide RowOk;
      hide Placed;
      hide Accepted;
      forall d: nat | d < |LiveIn(slots)| ensures Restorable(LiveIn(slots)[d]) && Resident(LiveIn(slots)[d]) {
        InSlot(LiveIn(slots)[d]);
        IsRestorable(LiveIn(slots)[d]);
      }
    }

    ghost predicate Resident(i: nat)
      requires i < |slots| && slots[i].Live?
      reads this, Requests(i)
    {
      slots[i].request in all && slots[i].request.place == InRow(i)
    }

    /** What the switch did to the rows. */
    twostate predicate RowsMoved(live: seq<nat>)
      requires forall d :: 0 <= d < |live| ==> live[d] < old(|slots|) == old(|rows|) == old(|generated|)
      reads this
    {
      && |live| <= |slots| && |slots| == |rows| == |generated| == |holdsPages|
      && (forall d: nat :: d < |live| ==> slots[d] == old(slots)[live[d]] && rows[d] == old(rows)[live[d]])
      && (forall d: nat :: d < |live| ==> generated[d] == old(generated)[live[d]] && holdsPages[d])
      && (forall d: nat :: |live| <= d < |slots| ==> slots[d].Free? && rows[d] == OFF && !holdsPages[d])
    }

    /** And to the requests, which only follow their rows. */
    twostate predicate PlacesMoved(live: seq<nat>)
      reads this, all
    {
      && |live| <= |slots| && all == old(all) && pending == old(pending) && admitting == old(admitting)
      && phase == old(phase) && stopping == old(stopping)
      && (forall d: nat :: d < |live| ==> slots[d].Live? && slots[d].request in all && slots[d].request.place == InRow(d))
      && (forall r :: r in all && !old(r.place).InRow? ==> r.place == old(r.place))
      && (forall r :: r in all ==> r.SameButPlace())
    }

    /** The rows themselves. */
    method MoveRows(live: seq<nat>, target: nat)
      requires |live| <= target && |rows| == |slots| == |generated|
      requires forall d :: 0 <= d < |live| ==> live[d] < |slots| && slots[live[d]].Live? && Restorable(live[d])
      modifies this`slots, this`rows, this`generated, this`holdsPages
      ensures RowsMoved(live) && |slots| == target
    {
      var restored := Restore(Compact(slots, live, target, Free), live);
      slots, generated := Compact(slots, live, target, Free), Compact(generated, live, target, []);
      holdsPages := seq(target, d => d < |live|);
      rows := restored;
    }

    lemma MovedApart(live: seq<nat>)
      requires |live| <= |slots| && forall d, e :: 0 <= d < e < |live| ==> live[d] < live[e]
      requires forall d: nat :: d < |live| ==> slots[d].Live? && slots[d].request.place == InRow(live[d])
      ensures forall d: nat, e: nat :: d < e < |live| ==> slots[d].request != slots[e].request
    {
      forall d: nat, e: nat | d < e < |live| ensures slots[d].request != slots[e].request {
        assert live[d] < live[e];
      }
    }

    /** The requests' places follow. */
    ghost method Renumber(live: seq<nat>)
      requires |live| <= |slots|
      requires forall d: nat :: d < |live| ==> slots[d].Live? && slots[d].request in all && slots[d].request.place == InRow(live[d])
      requires forall d: nat, e: nat :: d < e < |live| ==> slots[d].request != slots[e].request
      modifies all`place
      ensures PlacesMoved(live)
    {
      for d := 0 to |live|
        invariant forall e: nat :: e < d ==> slots[e].request.place == InRow(e)
        invariant forall e: nat :: d <= e < |live| ==> slots[e].request.place == InRow(live[e])
        invariant forall r :: r in all && !old(r.place).InRow? ==> r.place == old(r.place)
      {
        slots[d].request.place := InRow(d);
      }
    }

    twostate lemma Settle(live: seq<nat>)
      requires old(Valid()) && live == LiveIn(old(slots)) && RowsMoved(live) && PlacesMoved(live)
      ensures Valid() && Grew()
    {
      hide Demand;
      hide QueuesOk;
      hide Accepted;
      hide Placed;
      hide RowOk;
      hide LiveIn;
      forall r | r in old(all) ensures Placed(r) && Accepted(r) { MovedRequest(live, r); }
      SettleRows(live);
      MovedQueues(live);
      SettleStreams(live);
    }

    twostate lemma SettleRows(live: seq<nat>)
      requires old(Valid()) && live == LiveIn(old(slots)) && RowsMoved(live) && PlacesMoved(live)
      ensures |rows| == |slots| == |holdsPages| == |generated|
      ensures forall d: nat :: d < |slots| ==> RowOk(d)
      ensures forall i :: 0 <= i < |slots| && slots[i].Live? ==> slots[i].request in all && slots[i].request.place == InRow(i)
    {
      hide Demand;
      hide Placed;
      hide Accepted;
      hide QueuesOk;
      hide LiveIn;
      forall d: nat | d < |slots| ensures RowOk(d) {
        if d < |live| { assert old(RowOk(live[d])); }
      }
    }

    twostate lemma SettleStreams(live: seq<nat>)
      requires live == LiveIn(old(slots)) && PlacesMoved(live)
      ensures Grew()
    {
      hide LiveIn;
    }

    ghost predicate Restorable(i: nat)
      requires i < |slots| && |rows| == |slots| && slots[i].Live?
      reads this
    {
      rows[i] == Row(true, slots[i].startPos, rows[i].genCol, slots[i].sampling, 0)
    }

    lemma IsRestorable(i: nat)
      requires Valid() && phase == Reaped && i < |slots| && slots[i].Live?
      ensures Restorable(i)
    {
      hide Demand;
      assert RowOk(i);
    }

    /** set_geometry clears every row; set_slot then restores the live ones. */
    method Restore(target: seq<Slot>, live: seq<nat>) returns (restored: seq<Row>)
      requires |live| <= |target| && |rows| == |slots|
      requires forall d :: 0 <= d < |live| ==> live[d] < |slots| && slots[live[d]].Live? && target[d] == slots[live[d]]
      requires forall d :: 0 <= d < |live| ==> Restorable(live[d])
      ensures |restored| == |target|
      ensures forall d :: 0 <= d < |target| ==> restored[d] == if d < |live| then rows[live[d]] else OFF
    {
      restored := seq(|target|, _ => OFF);
      for d := 0 to |live|
        invariant |restored| == |target|
        invariant forall e :: 0 <= e < |target| ==> restored[e] == if e < d then rows[live[e]] else OFF
      {
        assert Restorable(live[d]);
        restored := restored[d := Row(true, target[d].startPos, rows[live[d]].genCol, target[d].sampling, 0)];
      }
    }

    twostate lemma MovedRequest(live: seq<nat>, new r: Request)
      requires old(Valid()) && live == LiveIn(old(slots)) && RowsMoved(live) && PlacesMoved(live) && r in old(all)
      ensures Placed(r) && Accepted(r)
    {
      hide Demand;
      hide RowOk;
      hide QueuesOk;
      hide LiveIn;
      hide SlotsOk;
      assert r.SameButPlace();
      assert old(Placed(r) && Accepted(r));
      if old(r.place).InRow? {
        var i := old(r.place).row;
        var d := FindLive(old(slots), i);
        assert slots[d] == old(slots)[i];
      }
    }

    twostate lemma MovedQueues(live: seq<nat>)
      requires old(Valid()) && live == LiveIn(old(slots)) && RowsMoved(live) && PlacesMoved(live)
      ensures QueuesOk()
    {
      hide Demand;
      hide Placed;
      hide Accepted;
      hide RowOk;
      forall r | r in pending ensures r.place == Waiting { assert old(r.place) == Waiting; }
      forall r | r in admitting ensures r.place == Admitting { assert old(r.place) == Admitting; }
    }

    // ---- admission ----

    /** _can_admit */
    predicate CanAdmit(r: Request, freeBlocks: nat)
      requires LimitsOk()
      reads this, r
    {
      !(r.suspended && exists i :: 0 <= i < |slots| && slots[i].Live?) && freeBlocks >= Demand(limits, |r.promptIds|)
    }

    /** With no live row and every block free, the head of the queue is admissible: the check
        at submission covers every prompt it can grow into. */
    lemma HeadIsAdmissible(r: Request, freeBlocks: nat)
      requires Valid() && r in pending && freeBlocks == limits.totalBlocks
      requires forall i :: 0 <= i < |slots| ==> slots[i].Free?
      ensures CanAdmit(r, freeBlocks)
    {
      hide Demand;
      hide RowOk;
      Queued(r);
      assert |r.origin + r.stream| == |r.promptIds + r.emittedIds|;
      DemandMonotone(limits, |r.promptIds|, |r.origin| + r.maxNew);
    }

    /** Takes the head of the queue for prefill. */
    method MoveHead()
      requires Valid() && phase == Reaped && pending != []
      modifies this`pending, this`admitting, {pending[0]}`place
      ensures Valid() && Grew() && pending == old(pending[1..]) && admitting == old(admitting) + [old(pending[0])]
    {
      hide Demand;
      hide RowOk;
      var r := pending[0];
      Queued(r);
      pending, admitting := pending[1..], admitting + [r];
      r.place := Admitting;
      OthersKept(r, -1);
    }

    /** The single-request branch of _tick's admission loop. */
    method TakeHead(freeBlocks: nat) returns (taken: bool)
      requires Valid() && phase == Reaped && pending != []
      modifies this`pending, this`admitting, {pending[0]}`place
      ensures Valid() && Grew() && taken == old(CanAdmit(pending[0], freeBlocks))
      ensures taken ==> pending == old(pending[1..]) && admitting == old(admitting) + [old(pending[0])]
      ensures !taken ==> pending == old(pending) && admitting == old(admitting)
    {
      taken := CanAdmit(pending[0], freeBlocks);
      if taken { MoveHead(); }
    }

    function BatchDemand(rs: seq<Request>): nat
      requires LimitsOk()
      reads set r | r in rs
    {
      if rs == [] then 0 else BatchDemand(rs[..|rs| - 1]) + Demand(limits, |rs[|rs| - 1].promptIds|)
    }

    function BatchTokens(rs: seq<Request>): nat
      reads set r | r in rs
    {
      if rs == [] then 0 else BatchTokens(rs[..|rs| - 1]) + |rs[|rs| - 1].promptIds|
    }

    /** _batch_prefill_eligible and _can_admit, for a prompt that must fit uncut. */
    predicate Packable(r: Request, freeBlocks: nat, longest: nat, budget: nat)
      requires LimitsOk()
      reads this, r
    {
      0 < |r.promptIds| <= longest && |r.promptIds| <= budget && CanAdmit(r, freeBlocks)
    }

    /** The first n waiting requests fit one packed prefill. */
    ghost predicate Packs(n: nat, freeBlocks: nat, longest: nat, budget: nat)
      requires LimitsOk() && n <= |pending|
      reads this, set r | r in pending
    {
      && BatchDemand(pending[..n]) <= freeBlocks && BatchTokens(pending[..n]) <= budget
      && forall i :: 0 <= i < n ==> Packable(pending[i], freeBlocks, longest, budget)
    }

    /** The selection of _take_prefill_batch: the longest prefix of the queue that packs. */
    method SelectBatch(freeBlocks: nat, capacity: nat, longest: nat, budget: nat) returns (n: nat)
      requires LimitsOk()
      ensures n <= |pending| && n <= capacity && Packs(n, freeBlocks, longest, budget)
      ensures n < |pending| && n < capacity ==> !Packs(n + 1, freeBlocks, longest, budget)
    {
      hide Demand;
      n := 0;
      var reserved, packed := 0, 0;
      while n < |pending| && n < capacity
        invariant n <= |pending| && n <= capacity && Packs(n, freeBlocks, longest, budget)
        invariant reserved == BatchDemand(pending[..n]) && packed == BatchTokens(pending[..n])
      {
        var r := pending[n];
        assert pending[..n + 1][..n] == pending[..n];
        if !Packable(r, freeBlocks, longest, budget) { return; }
        if reserved + Demand(limits, |r.promptIds|) > freeBlocks || packed + |r.promptIds| > budget { return; }
        reserved, packed := reserved + Demand(limits, |r.promptIds|), packed + |r.promptIds|;
        n := n + 1;
      }
    }

    /** Whatever packs, each shorter prefix packs. */
    lemma PacksBelow(n: nat, freeBlocks: nat, longest: nat, budget: nat)
      requires LimitsOk() && n < |pending| && Packs(n + 1, freeBlocks, longest, budget)
      ensures Packs(n, freeBlocks, longest, budget)
    {
      hide Demand;
      assert pending[..n + 1][..n] == pending[..n];
    }

    /** _take_prefill_batch: two or more requests together, or none, and none only if the
        first two do not pack. What they may hold together fits the free blocks, and no
        longer prefix of the queue would do. */
    method TakeBatch(freeBlocks: nat, capacity: nat, longest: nat, budget: nat) returns (n: nat)
      requires Valid() && phase == Reaped
      modifies this`pending, this`admitting, all`place
      ensures Valid() && Grew() && n <= old(|pending|) && n <= capacity && n != 1
      ensures pending == old(pending[n..]) && admitting == old(admitting) + old(pending[..n])
      ensures old(Packs(n, freeBlocks, longest, budget))
      ensures n == 0 ==> capacity < 2 || old(|pending| < 2 || !Packs(2, freeBlocks, longest, budget))
      ensures 2 <= n < capacity && n < old(|pending|) ==> old(!Packs(n + 1, freeBlocks, longest, budget))
    {
      hide Demand;
      hide QueuesOk;
      hide SlotsOk;
      hide RowOk;
      hide Accepted;
      hide Placed;
      if capacity < 2 { return 0; }
      n := SelectBatch(freeBlocks, capacity, longest, budget);
      if n < 2 {
        if n == 0 && 2 <= |pending| && Packs(2, freeBlocks, longest, budget) { PacksBelow(1, freeBlocks, longest, budget); }
        return 0;
      }
      for i := 0 to n
        invariant Valid() && Grew() && phase == Reaped && all == old(all)
        invariant pending == old(pending)[i..] && admitting == old(admitting) + old(pending)[..i]
      {
        Queued(pending[0]);
        MoveHead();
      }
    }

    lemma Taken(r: Request)
      requires Valid() && r in admitting
      ensures r in all && r.place == Admitting && Placed(r) && Accepted(r) && r !in pending && NoRepeats(admitting)
      ensures phase == Reaped
    {
      hide RowOk;
      hide Demand;
    }

    twostate lemma QueuesPop(r: Request)
      requires old(QueuesOk()) && all == old(all) && phase == old(phase) && pending == old(pending) && r in all
      requires old(admitting) != [] && r == old(admitting)[0] && admitting == old(admitting)[1..] && r !in pending
      requires forall o :: o in all && o != r ==> o.place == old(o.place)
      ensures QueuesOk()
    {
    }

    /** The prefill of the first request taken raised an exception: only that request fails. */
    method Crash(r: Request)
      requires Valid() && admitting != [] && r == admitting[0]
      modifies this`admitting, r`queue, r`done, r`failed, r`place
      ensures Valid() && Grew() && admitting == old(admitting)[1..] && r.done && r.failed == old(r.failed || !r.done)
    {
      hide Demand;
      hide QueuesOk;
      hide RowOk;
      Taken(r);
      admitting := admitting[1..];
      r.Abort();
      QueuesPop(r);
      OthersKept(r, -1);
    }

    /** The first token already ends the first request taken, or nobody listens any more. */
    method EndAtOnce(r: Request, token: int, why: Reason)
      requires Valid() && admitting != [] && r == admitting[0]
      modifies this`admitting, r`emitted, r`emittedIds, r`queue, r`stream, r`done, r`reason, r`place
      ensures Valid() && Grew() && admitting == old(admitting)[1..]
      ensures r.done && r.reason == old(r.Because(why))
      ensures r.stream == old(r.stream) + (if old(r.done) then [] else [token])
    {
      hide Demand;
      hide QueuesOk;
      hide RowOk;
      Taken(r);
      admitting := admitting[1..];
      r.EmitLast(token, why);
      QueuesPop(r);
      OthersKept(r, -1);
    }

    /** The first request taken starts to decode in row i. */
    method Begin(r: Request, i: nat, token: int)
      requires Valid() && admitting != [] && r == admitting[0] && i < |slots| && slots[i].Free?
      requires !r.done && r.emitted + 1 < r.maxNew
      modifies this`admitting, this`slots, this`rows, this`generated, this`holdsPages
      modifies r`emitted, r`emittedIds, r`queue, r`stream, r`suspended, r`place
      ensures Valid() && Grew() && admitting == old(admitting)[1..]
      ensures slots == old(slots)[i := Live(r, |r.promptIds|, r.sampling)] && r.stream == old(r.stream) + [token]
      ensures rows == old(rows)[i := Row(true, |r.promptIds|, 0, r.sampling, 0)]
    {
      hide Demand;
      hide QueuesOk;
      Taken(r);
      RoomToStart(r);
      admitting := admitting[1..];
      generated := generated[i := [token]];
      r.Start(token, i);
      slots := slots[i := Live(r, |r.promptIds|, r.sampling)];
      holdsPages := holdsPages[i := true];
      SetSlot(i, |r.promptIds|, 0, r.sampling);
      QueuesPop(r);
      OthersKept(r, i);
    }

    lemma RoomToStart(r: Request)
      requires Accepted(r) && r.emitted < r.maxNew && r.emittedIds == []
      ensures |r.promptIds| < limits.maxContext && 0 < limits.maxNew
    {
      hide Demand;
      assert |r.origin + r.stream| == |r.promptIds + r.emittedIds|;
    }

    /** Decoding goes on after the first token. Only the packed path looks at the limit flag. */
    predicate Continues(r: Request, token: int, packed: bool)
      reads r
    {
      !r.done && !(packed && r.limitReached) && r.emitted + 1 < r.maxNew && token != limits.eos
    }

    /** The row part of _admit and _admit_batch, for the first request taken: its prefill into
        the free row i ended with `outcome`. */
    method Install(r: Request, i: nat, outcome: Outcome, packed: bool)
      requires Valid() && admitting != [] && r == admitting[0] && i < |slots| && slots[i].Free?
      modifies this`admitting, this`slots, this`rows, this`generated, this`holdsPages, r
      ensures Valid() && Grew() && admitting == old(admitting)[1..] && |slots| == old(|slots|)
      ensures forall j :: 0 <= j < |slots| && j != i ==> slots[j] == old(slots[j]) && rows[j] == old(rows[j])
      ensures slots[i].Live? ==> slots[i].request == r && r.reason == old(r.reason)
      ensures outcome.Prefilled? ==> r.stream == old(r.stream) + (if old(r.done) then [] else [outcome.token]) && r.failed == old(r.failed)
      ensures outcome.Prefilled? && slots[i].Free? ==>
        r.reason == old(r.Because(if (packed && r.limitReached) || outcome.token == limits.eos then Stop else Length))
      ensures slots[i].Live? ==> rows[i] == Row(true, old(|r.promptIds|), 0, r.sampling, 0) && r.limitReached == old(r.limitReached)
      ensures slots[i].Free? <==> r.done
      ensures slots[i].Live? <==> outcome.Prefilled? && old(Continues(r, outcome.token, packed))
      ensures outcome.Crashed? ==> r.stream == old(r.stream) && r.failed == old(r.failed || !r.done) && r.reason == old(r.reason)
    {
      hide Demand;
      hide QueuesOk;
      hide RowOk;
      hide Accepted;
      hide Placed;
      if outcome.Crashed? { Crash(r); return; }
      if !Continues(r, outcome.token, packed) {
        EndAtOnce(r, outcome.token, if (packed && r.limitReached) || outcome.token == limits.eos then Stop else Length);
      } else {
        Begin(r, i, outcome.token);
      }
    }

    // ---- stopping ----

    method FailRow(i: nat)
      requires Valid() && stopping && i < |slots| && slots[i].Live?
      modifies slots[i].request`queue, slots[i].request`done, slots[i].request`failed, slots[i].request`place
      ensures Valid() && Grew() && slots[i].request.done && slots[i].request.failed == old(slots[i].request.failed || !slots[i].request.done)
    {
      hide Demand;
      hide QueuesOk;
      var r := slots[i].request;
      InSlot(i);
      r.Abort();
      QueuesKept(r);
      OthersKept(r, i);
    }

    method FailHead(r: Request)
      requires Valid() && stopping && pending != [] && r == pending[0]
      modifies this`pending, r`queue, r`done, r`failed, r`place
      ensures Valid() && Grew() && pending == old(pending)[1..] && r.done && r.failed == old(r.failed || !r.done)
    {
      hide Demand;
      hide QueuesOk;
      hide RowOk;
      Queued(r);
      DropAt(pending, 0);
      pending := pending[..0] + pending[1..];
      r.Abort();
      QueuesKept(r);
      OthersKept(r, -1);
    }

    /** Stopping by itself changes nothing else. */
    method Stopped()
      requires Valid()
      modifies this`stopping
      ensures Valid() && Grew() && stopping
    {
      hide Demand;
      forall j: nat | j < |slots| && slots[j].Live? ensures RowOk(j) { InSlot(j); }
      assert forall j: nat :: j < |slots| ==> RowOk(j);
      assert forall r :: r in all ==> Placed(r) && Accepted(r);
      stopping := true;
      forall j: nat | j < |slots| ensures RowOk(j) { assert old(RowOk(j)); }
      forall r | r in all ensures Placed(r) && Accepted(r) { assert old(Placed(r) && Accepted(r)); }
    }

    /** _fail_session, and the request part of close: what is in a row or in the queue gets
        its terminator. A request that a concurrent admission has taken off the queue is in
        neither place, so every request is ended if and only if none was being admitted. */
    method FailSession()
      requires Valid()
      modifies this`stopping, this`pending, all`queue, all`done, all`failed, all`place
      ensures Valid() && Grew() && stopping && pending == []
      ensures forall r :: r in all && !r.done ==> r in admitting
      ensures forall r :: r in admitting ==> unchanged(r)
      ensures forall r :: r in all && r.done && !old(r.done) ==> r.failed
      ensures old(!stopping) ==> ((forall r :: r in all ==> r.done) <==> admitting == [])
    {
      hide Demand;
      hide RowOk;
      hide Accepted;
      forall r | r in admitting ensures r in all && (!stopping ==> !r.done) { Taken(r); }
      Stopped();
      FailRows();
      FailQueue();
      forall r | r in all && !r.done ensures r in admitting { assert Placed(r); }
      if admitting != [] { assert admitting[0] in admitting; }
    }

    /** Only requests in rows or in the queue are failed. */
    twostate predicate FailedOnly()
      reads this, all
    {
      && old(all) <= all && (forall r :: r in admitting ==> r in old(all) && unchanged(r))
      && forall r :: r in old(all) ==> (old(r.failed) ==> r.failed) && (r.done && !old(r.done) ==> r.failed)
    }

    method FailRows()
      requires Valid() && stopping
      modifies all`queue, all`done, all`failed, all`place
      ensures Valid() && Grew() && FailedOnly()
      ensures forall j: nat :: j < |slots| && slots[j].Live? ==> slots[j].request.done
    {
      hide Demand;
      hide RowOk;
      hide Accepted;
      hide QueuesOk;
      forall r | r in admitting ensures r in all { Taken(r); }
      forall i: nat | i < |slots| && slots[i].Live? ensures slots[i].request in all { RowsApart(i); }
      for i := 0 to |slots|
        invariant Valid() && Grew() && FailedOnly()
        invariant forall j: nat :: j < i && slots[j].Live? ==> slots[j].request.done
      {
        if slots[i].Live? {
          InSlot(i);
          FailRow(i);
        }
      }
    }

    method FailQueue()
      requires Valid() && stopping && forall j: nat :: j < |slots| && slots[j].Live? ==> slots[j].request.done
      modifies this`pending, all`queue, all`done, all`failed, all`place
      ensures Valid() && Grew() && FailedOnly() && pending == []
      ensures forall j: nat :: j < |slots| && slots[j].Live? ==> slots[j].request.done
    {
      hide Demand;
      hide RowOk;
      hide Accepted;
      hide QueuesOk;
      hide Placed;
      forall r | r in admitting ensures r in all { Taken(r); }
      while pending != []
        invariant Valid() && Grew() && FailedOnly()
        invariant forall j: nat :: j < |slots| && slots[j].Live? ==> slots[j].request.done
        decreases |pending|
      {
        Queued(pending[0]);
        FailHead(pending[0]);
      }
    }
  }
}
