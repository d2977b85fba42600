/** Whole runs of a session, with clients, decode steps and scheduler steps in any order. */
module SessionRuns {
  import opened Wrappers
  import opened KvModel
  import opened Admission
  import opened SessionRequest
  import opened DecodeService
  import opened Session

  datatype Event =
    | Submit(ids: seq<int>, maxNew: int, sampling: Sampling)
    | Cancel(submitted: nat)                       // by order of acceptance
    | Decode(sampled: seq<int>, eos: seq<bool>)
    | Tick                                         // the test at the head of the scheduler loop
    | NoWork
    | Reap
    | Preempt
    | Switch(target: nat)
    | TakeHead(freeBlocks: nat)
    | TakeBatch(freeBlocks: nat, capacity: nat, longest: nat, budget: nat)
    | Install(row: nat, outcome: Outcome, packed: bool)
    | Unpark
    | Stop

  /** How far the scheduler is in its tick. */
  datatype Stage = Between | Begun | Parked | Filling

  datatype Threads = Threads(stage: Stage, decoding: bool)

  ghost predicate InStep(s: Session, t: Threads)
    reads s
  {
    && (s.phase == Reaped <==> t.stage == Parked || t.stage == Filling)
    && (s.admitting != [] ==> t.stage == Filling)
  }

  /** The requests that were accepted, in order. */
  ghost predicate Recorded(s: Session, known: seq<Request>)
    reads s
  {
    NoRepeats(known) && s.all == set r | r in known
  }

  /** The session stops, and the scheduler will not look at its rows again. */
  ghost predicate Past(s: Session, t: Threads)
    reads s
  {
    s.stopping && s.pending == [] && (t.stage == Between || t.stage == Filling)
  }

  ghost predicate Unended(s: Session, r: Request)
    reads s, r
  {
    !r.done && s.InSomeRow(r)
  }

  predicate Lets(c: Limits, stopping: bool, e: Event)
    requires GeometryOk(c.geo)
  {
    e.Submit? && !stopping && Admissible(c, e.ids, e.maxNew)
  }

  /** One event, if the guards of the session and of its threads allow it now. A decode step
      that the KV manager refuses ends the decode thread; the stop that follows is an event of
      its own. */
  method Step(s: Session, t: Threads, e: Event, known: seq<Request>) returns (u: Threads, more: seq<Request>)
    requires s.Valid() && InStep(s, t) && Recorded(s, known)
    modifies s, s.all
    ensures s.Valid() && s.Grew() && fresh(s.all - old(s.all)) && InStep(s, u) && Recorded(s, more) && known <= more
    ensures s.stopping <==> old(s.stopping) || e.Stop?
    ensures if s.LimitsOk() && Lets(s.limits, old(s.stopping), e)
      then |more| == |known| + 1 && Begins(s.limits, e, more[|known|])
      else more == known
    ensures !e.Stop? && old(Past(s, t)) ==>
      Past(s, u) && forall r :: r in old(s.all) && old(Unended(s, r)) ==> Unended(s, r)
  {
    hide Session.Valid;
    hide Session.Accepted;
    hide Session.Placed;
    u, more := t, known;
    assert s.LimitsOk() by { s.Known(); }
    match e {
      case Submit(ids, maxNew, sampling) =>
        var r := s.Submit(ids, maxNew, sampling);
        if r.Ok? { more := more + [r.value]; } else { RowsStay(s); }
      case Cancel(k) =>
        if k < |known| {
          s.Cancel(known[k]);
          if old(s.pending) == [] { RowsStay(s); }
        }
      case Decode(sampled, eos) =>
        if t.decoding && s.phase == Running && |sampled| == |eos| == |s.slots| {
          var ok := DecodeOnce(s, sampled, eos);
          u := t.(decoding := ok);
        }
      case Stop => s.FailSession();
      case _ => u := SchedulerStep(s, t, e);
    }
  }

  twostate lemma RowsStay(s: Session)
    requires s.slots == old(s.slots)
    requires forall i :: 0 <= i < |s.slots| && s.slots[i].Live? ==> s.slots[i].request.done == old(s.slots[i].request.done)
    ensures forall r :: r in old(s.all) && old(Unended(s, r)) ==> Unended(s, r)
  {
  }

  predicate OfScheduler(e: Event) { !e.Submit? && !e.Cancel? && !e.Decode? && !e.Stop? }

  ghost predicate Begins(c: Limits, e: Event, r: Request)
    requires e.Submit?
  {
    r.origin == e.ids && r.maxNew == Budget(c, e.ids, e.maxNew)
  }

  method DecodeOnce(s: Session, sampled: seq<int>, eos: seq<bool>) returns (ok: bool)
    requires s.Valid() && s.phase == Running && |sampled| == |eos| == |s.slots|
    modifies s`rows, s`generated, s.all
    ensures s.Valid() && s.Grew()
    ensures forall r :: r in s.all && old(Unended(s, r)) ==> Unended(s, r)
  {
    hide Session.Valid;
    s.Widths();
    ok := s.DecodeStep(sampled, eos);
    forall i | 0 <= i < |s.slots| && s.slots[i].Live? ensures s.slots[i].request.done == old(s.slots[i].request.done) {
      assert s.Sent(i, sampled[i], ok);
    }
    RowsStay(s);
  }

  method SchedulerStep(s: Session, t: Threads, e: Event) returns (u: Threads)
    requires s.Valid() && InStep(s, t) && OfScheduler(e)
    modifies s`pending, s`admitting, s`slots, s`rows, s`generated, s`holdsPages, s`phase, s.all
    ensures s.Valid() && s.Grew() && InStep(s, u)
    ensures old(Past(s, t)) ==> Past(s, u) && forall r :: r in s.all && old(Unended(s, r)) ==> Unended(s, r)
  {
    hide Session.Valid;
    hide Session.Accepted;
    hide Session.Placed;
    u := t;
    match e {
      case Tick => if t.stage == Between && !s.stopping { u := t.(stage := Begun); }
      case NoWork => if t.stage == Begun { u := t.(stage := Between); }
      case Reap => if t.stage == Begun { s.Reap(); u := t.(stage := Parked); }
      case Preempt =>
        if t.stage == Parked && exists i :: 0 <= i < |s.slots| && s.slots[i].Live? { ghost var v := s.PreemptOne(); }
      case Switch(target) => if t.stage == Parked && |LiveIn(s.slots)| <= target { s.SwitchGeometry(target); }
      case TakeHead(free) =>
        if s.phase == Reaped && s.pending != [] {
          s.Queued(s.pending[0]);
          var taken := s.TakeHead(free);
          u := t.(stage := Filling);
        }
      case TakeBatch(free, capacity, longest, budget) =>
        if s.phase == Reaped && s.pending != [] {
          var n := s.TakeBatch(free, capacity, longest, budget);
          u := t.(stage := Filling);
        }
      case Install(i, outcome, packed) =>
        if s.admitting != [] && i < |s.slots| && s.slots[i].Free? {
          s.Taken(s.admitting[0]);
          InstallHead(s, i, outcome, packed);
        }
      case Unpark => if s.phase == Reaped && s.admitting == [] {
          s.Unpark();
          u := t.(stage := Between);
          RowsStay(s);
        }
    }
  }

  method InstallHead(s: Session, i: nat, outcome: Outcome, packed: bool)
    requires s.Valid() && s.admitting != [] && i < |s.slots| && s.slots[i].Free?
    modifies s`admitting, s`slots, s`rows, s`generated, s`holdsPages, s.admitting[0]
    ensures s.Valid() && s.Grew() && s.phase == Reaped && s.admitting == old(s.admitting)[1..]
    ensures forall r :: r in s.all && old(Unended(s, r)) ==> Unended(s, r)
    ensures var r := old(s.admitting[0]);
      if outcome.Prefilled? && old(s.Continues(r, outcome.token, packed)) then Unended(s, r) else r.done
  {
    hide Session.Valid;
    hide Session.Accepted;
    hide Session.Placed;
    var r := s.admitting[0];
    s.Taken(r);
    forall j: nat | j < |s.slots| && s.slots[j].Live? ensures s.slots[j].request != r { s.InSlot(j); }
    s.Install(r, i, outcome, packed);
    forall q | q in s.all && old(Unended(s, q)) ensures Unended(s, q) {
      var j :| 0 <= j < old(|s.slots|) && old(s.slots[j].Live?) && old(s.slots[j].request) == q;
      assert s.slots[j].request == q;
    }
  }

  // ---- whole runs ----

  predicate Stops(events: seq<Event>) { exists i :: 0 <= i < |events| && events[i].Stop? }

  /** The submissions among the events that are accepted. */
  function Accepts(c: Limits, stopping: bool, events: seq<Event>): (rs: seq<Event>)
    requires GeometryOk(c.geo)
    ensures forall e :: e in rs ==> e.Submit?
  {
    if events == [] then [] else
    var n := |events| - 1;
    Accepts(c, stopping, events[..n]) + (if Lets(c, stopping || Stops(events[..n]), events[n]) then [events[n]] else [])
  }

  /** From every state, and so over every suffix of a run: nothing sent is taken back, each
      accepted submission makes one request with its own prompt and budget, and once the
      session stops outside the first half of a tick no request in a row ends any more, unless
      the session is stopped again. */
  method Continue(s: Session, t: Threads, events: seq<Event>, known: seq<Request>) returns (u: Threads, more: seq<Request>)
    requires s.Valid() && InStep(s, t) && Recorded(s, known)
    modifies s, s.all
    ensures s.Valid() && s.Grew() && fresh(s.all - old(s.all)) && InStep(s, u) && Recorded(s, more) && known <= more
    ensures s.stopping <==> old(s.stopping) || Stops(events)
    ensures s.LimitsOk() && var rs := Accepts(s.limits, old(s.stopping), events);
      |more| == |known| + |rs| && forall k :: 0 <= k < |rs| ==> Begins(s.limits, rs[k], more[|known| + k])
    ensures !Stops(events) && old(Past(s, t)) ==>
      Past(s, u) && forall r :: r in old(s.all) && old(Unended(s, r)) ==> Unended(s, r)
  {
    hide Session.Valid;
    s.Known();
    u, more := t, known;
    for n := 0 to |events|
      invariant s.Valid() && s.Grew() && fresh(s.all - old(s.all)) && InStep(s, u) && Recorded(s, more) && known <= more
      invariant s.stopping <==> old(s.stopping) || Stops(events[..n])
      invariant var rs := Accepts(s.limits, old(s.stopping), events[..n]);
        |more| == |known| + |rs| && forall k :: 0 <= k < |rs| ==> Begins(s.limits, rs[k], more[|known| + k])
      invariant !Stops(events[..n]) && old(Past(s, t)) ==>
        Past(s, u) && forall r :: r in old(s.all) && old(Unended(s, r)) ==> Unended(s, r)
    {
      assert events[..n + 1][..n] == events[..n];
      StopsSnoc(events, n);
      u, more := Step(s, u, events[n], more);
    }
    assert events[..|events|] == events;
  }

  lemma StopsSnoc(events: seq<Event>, n: nat)
    requires n < |events|
    ensures Stops(events[..n + 1]) <==> Stops(events[..n]) || events[n].Stop?
  {
    if i :| 0 <= i < n && events[i].Stop? { assert events[..n + 1][i].Stop? && events[..n][i].Stop?; }
    if events[n].Stop? { assert events[..n + 1][n].Stop?; }
  }

  /** The stream a client has been sent, and where its request now is. */
  ghost predicate Conserved(s: Session, r: Request)
    reads s, r
  {
    && r.origin + r.stream == r.promptIds + r.emittedIds
    && r.queue == Puts(r.stream) + (if r.done then [None] else [])
    && |r.stream| == r.emitted <= r.maxNew
    && (r.done || r in s.pending || r in s.admitting || s.InSomeRow(r))
  }

  /** Over every run, for exactly the submissions that were accepted: what a client was sent
      extends its prompt, never exceeds its budget and ends with at most one terminator; and
      no unfinished request is lost. */
  method Run(limits: Limits, batch: nat, events: seq<Event>) returns (s: Session, known: seq<Request>)
    requires GeometryOk(limits.geo)
    ensures s.Valid() && Recorded(s, known) && (s.stopping <==> Stops(events))
    ensures var rs := Accepts(limits, false, events);
      |known| == |rs| && forall k :: 0 <= k < |rs| ==> Begins(limits, rs[k], known[k]) && Conserved(s, known[k])
  {
    s := new Session(limits, batch);
    var u;
    u, known := Continue(s, Threads(Between, true), events, []);
    forall r | r in known ensures Conserved(s, r) { s.IsPlaced(r); }
  }

  // ---- stopping while a request is being admitted ----

  /** A request whose prefill ends after the session has stopped: over every continuation in
      which the session is not stopped again, it gets its terminator if and only if it would
      not have gone on to decode. */
  method AdmittedTooLate(s: Session, t: Threads, known: seq<Request>, i: nat, outcome: Outcome, packed: bool, events: seq<Event>)
      returns (u: Threads, more: seq<Request>)
    requires s.Valid() && InStep(s, t) && Recorded(s, known) && s.stopping && s.pending == []
    requires s.admitting != [] && !s.admitting[0].done && i < |s.slots| && s.slots[i].Free? && !Stops(events)
    modifies s, s.all
    ensures s.Valid() && s.stopping && InStep(s, u) && Recorded(s, more)
    ensures var r := old(s.admitting[0]);
      && (!r.done <==> outcome.Prefilled? && old(s.Continues(s.admitting[0], outcome.token, packed)))
      && (!r.done ==> s.InSomeRow(r))
  {
    hide Session.Valid;
    s.Known();
    ghost var r := s.admitting[0];
    s.Taken(s.admitting[0]);
    InstallHead(s, i, outcome, packed);
    u, more := Continue(s, t, events, known);
  }

  /** Such a run: its last request never ends, whatever comes after the stop. */
  method Orphan(limits: Limits, ids: seq<int>, token: int, events: seq<Event>) returns (s: Session, r: Request)
    requires GeometryOk(limits.geo) && Admissible(limits, ids, 2) && Budget(limits, ids, 2) == 2
    requires token != limits.eos && !Stops(events)
    ensures s.Valid() && s.stopping && s.InSomeRow(r) && !r.done
  {
    hide Demand;
    hide Session.Valid;
    s := new Session(limits, 1);
    s.Reap();
    var accepted := s.Submit(ids, 2, Sampling(0.0, 0));
    r := accepted.value;
    s.MoveHead();
    s.FailSession();
    var u, more := AdmittedTooLate(s, Threads(Filling, true), [r], 0, Prefilled(token), false, events);
  }

  // ---- a row that decodes past its context ----

  function Column(eos: seq<seq<bool>>, i: nat): seq<bool>
    requires forall k :: 0 <= k < |eos| ==> i < |eos[k]|
  {
    seq(|eos|, k requires 0 <= k < |eos| => eos[k][i])
  }

  /** How a row's request has fared in some decode steps. */
  twostate predicate Fared(s: Session, i: nat)
    requires i < |s.slots| && s.slots == old(s.slots) && s.slots[i].Live?
    reads s, s.slots[i].request
  {
    var r := s.slots[i].request;
    && r.done == old(r.done) && old(|r.stream|) <= |r.stream| <= r.maxNew
    && (r.limitReached && !old(r.limitReached) ==> |r.stream| == r.maxNew)
  }

  method StepFared(s: Session, sampled: seq<int>, eos: seq<bool>) returns (ok: bool)
    requires s.Valid() && s.phase == Running && |sampled| == |eos| == |s.slots|
    modifies s`rows, s`generated, s.all
    ensures s.Valid() && s.Grew() && ok == old(!s.Refusal()) && (!ok ==> s.Refusal())
    ensures |s.rows| == |s.slots| && forall i :: 0 <= i < |s.rows| ==> s.rows[i] == Advanced(old(s.rows[i]), ok, eos[i], s.limits.maxNew)
    ensures forall i: nat :: i < |s.slots| && s.slots[i].Live? ==> Fared(s, i)
  {
    hide Session.Valid;
    s.Widths();
    s.Known();
    ok := s.DecodeStep(sampled, eos);
    forall i: nat | i < |s.slots| && s.slots[i].Live? ensures Fared(s, i) {
      assert s.Sent(i, sampled[i], ok);
      s.RowsApart(i);
      s.IsPlaced(s.slots[i].request);
    }
  }

  /** Decode steps with no scheduler between them, up to the first refused one. Step n is
      refused exactly when some row, rolled on by the first n samples, is outside. */
  method DecodeRun(s: Session, sampled: seq<seq<int>>, eos: seq<seq<bool>>) returns (n: nat)
    requires s.Valid() && s.phase == Running && |sampled| == |eos|
    requires forall k :: 0 <= k < |eos| ==> |sampled[k]| == |eos[k]| == |s.slots|
    modifies s`rows, s`generated, s.all
    ensures s.Valid() && s.Grew() && n <= |eos| && |old(s.rows)| == |s.slots|
    ensures forall k: nat :: k < n ==> Within(s.limits, old(s.rows), eos[..k])
    ensures n < |eos| ==> s.Refusal() && !Within(s.limits, old(s.rows), eos[..n])
    ensures forall i: nat :: i < |s.slots| && s.slots[i].Live? ==> Fared(s, i)
  {
    hide Session.Valid;
    s.Widths();
    s.Known();
    forall i: nat | i < |s.slots| && s.slots[i].Live? ensures Fared(s, i) {
      s.RowsApart(i);
      s.IsPlaced(s.slots[i].request);
    }
    n := 0;
    while n < |eos|
      invariant s.Valid() && s.Grew() && n <= |eos| && |s.rows| == |s.slots| == |old(s.rows)|
      invariant forall k: nat :: k < n ==> Within(s.limits, old(s.rows), eos[..k])
      invariant RolledTo(s.limits, old(s.rows), eos[..n], s.rows)
      invariant forall i: nat :: i < |s.slots| && s.slots[i].Live? ==> Fared(s, i)
    {
      ghost var before := s.rows;
      var ok := StepFared(s, sampled[n], eos[n]);
      if !ok { return; }
      RollOn(s.limits, old(s.rows), eos, n, before, s.rows);
      n := n + 1;
    }
  }

  ghost predicate RolledTo(c: Limits, from: seq<Row>, eos: seq<seq<bool>>, rows: seq<Row>)
    requires forall k :: 0 <= k < |eos| ==> |eos[k]| == |from|
  {
    |rows| == |from| && forall i :: 0 <= i < |from| ==> rows[i] == Rolled(from[i], Column(eos, i), c.maxNew)
  }

  lemma RollOn(c: Limits, from: seq<Row>, eos: seq<seq<bool>>, n: nat, rows: seq<Row>, next: seq<Row>)
    requires n < |eos| && forall k :: 0 <= k < |eos| ==> |eos[k]| == |from|
    requires RolledTo(c, from, eos[..n], rows) && |next| == |rows|
    requires forall i :: 0 <= i < |rows| ==> next[i] == Advanced(rows[i], true, eos[n][i], c.maxNew)
    ensures RolledTo(c, from, eos[..n + 1], next)
  {
    forall i | 0 <= i < |from| ensures next[i] == Rolled(from[i], Column(eos[..n + 1], i), c.maxNew) {
      assert Column(eos[..n + 1], i) == Column(eos[..n], i) + [eos[n][i]];
    }
  }

  /** No row that these samples roll on writes outside the page table. */
  ghost predicate Within(c: Limits, rows: seq<Row>, eos: seq<seq<bool>>)
    requires forall k :: 0 <= k < |eos| ==> |eos[k]| == |rows|
  {
    forall i :: 0 <= i < |rows| ==> !Outside(Rolled(rows[i], Column(eos, i), c.maxNew), c.maxNew, MaxTokens(c.geo))
  }

  /** No samples at all make a decode step fail if and only if every row that steps has its
      prompt and the whole generated buffer inside the page table. */
  lemma WithinIff(c: Limits, rows: seq<Row>)
    ensures (forall eos: seq<seq<bool>> {:trigger Shaped(eos, |rows|)} :: Shaped(eos, |rows|) ==> Within(c, rows, eos))
      <==> forall i :: 0 <= i < |rows| && Steps(rows[i], c.maxNew) ==> rows[i].startPos + c.maxNew - 1 <= MaxTokens(c.geo)
  {
    forall eos: seq<seq<bool>>, i | Shaped(eos, |rows|) && 0 <= i < |rows| && (Steps(rows[i], c.maxNew) ==> rows[i].startPos + c.maxNew - 1 <= MaxTokens(c.geo))
      ensures !Outside(Rolled(rows[i], Column(eos, i), c.maxNew), c.maxNew, MaxTokens(c.geo))
    {
      OutsideIff(rows[i], c.maxNew, MaxTokens(c.geo));
    }
    if i :| 0 <= i < |rows| && Steps(rows[i], c.maxNew) && rows[i].startPos + c.maxNew - 1 > MaxTokens(c.geo) {
      OutsideIff(rows[i], c.maxNew, MaxTokens(c.geo));
      var es :| Outside(Rolled(rows[i], es, c.maxNew), c.maxNew, MaxTokens(c.geo));
      var eos := seq(|es|, k requires 0 <= k < |es| => seq(|rows|, _ => es[k]));
      assert Shaped(eos, |rows|) && Column(eos, i) == es;
    }
  }

  predicate Shaped(eos: seq<seq<bool>>, rows: nat) { forall k :: 0 <= k < |eos| ==> |eos[k]| == rows }

  /** A session whose only row has just been started. */
  method Started(limits: Limits, ids: seq<int>, maxNew: int, token: int) returns (s: Session, r: Request)
    requires GeometryOk(limits.geo) && Admissible(limits, ids, maxNew) && Budget(limits, ids, maxNew) >= 2
    requires token != limits.eos
    ensures fresh(s) && fresh(s.all) && s.Valid() && s.phase == Running && !s.stopping && s.limits == limits
    ensures |s.slots| == |s.rows| == 1 && s.slots[0].Live? && s.slots[0].request == r && r in s.all && r.origin == ids
    ensures !r.done && !r.limitReached && s.rows[0].active && s.rows[0].startPos == |ids| && s.rows[0].genCol == 0
  {
    hide Demand;
    hide Session.Valid;
    s := new Session(limits, 1);
    s.Reap();
    var accepted := s.Submit(ids, maxNew, Sampling(0.0, 0));
    r := accepted.value;
    s.MoveHead();
    s.Install(r, 0, Prefilled(token), false);
    s.Unpark();
    s.Widths();
    s.RowsApart(0);
  }

  /** With no EOS and no scheduler, a single row too long for the page table is refused, and
      its client has been sent everything by then. */
  method DecodeTooFar(s: Session, token: int)
    requires s.Valid() && s.phase == Running && !s.stopping && s.limits.maxContext <= MaxTokens(s.limits.geo)
    requires |s.slots| == |s.rows| == 1 && s.slots[0].Live? && !s.slots[0].request.limitReached && !s.slots[0].request.done
    requires Steps(s.rows[0], s.limits.maxNew) && s.rows[0].genCol == 0
    requires MaxTokens(s.limits.geo) < s.rows[0].startPos + s.limits.maxNew - 1
    modifies s`rows, s`generated, s.all
    ensures s.Valid() && s.Grew() && s.Refusal()
    ensures var r := s.slots[0].request; !r.done && |r.stream| == r.maxNew
  {
    hide Session.Valid;
    s.Known();
    var n := s.limits.maxNew - 1;
    var eos := seq(n, _ => [false]);
    LongEnough(s.limits, s.rows, n - 1, eos);
    var k := DecodeRun(s, seq(n, _ => [token]), eos);
    s.Widths();
    s.OutsideIsSilent(0);
    assert Fared(s, 0);
  }

  /** Such a run: a request that is sent its whole budget and is then reported as failed,
      because its row went on to decode before the scheduler looked. */
  method Overrun(limits: Limits, ids: seq<int>, maxNew: int, token: int) returns (s: Session, r: Request)
    requires GeometryOk(limits.geo) && Admissible(limits, ids, maxNew) && Budget(limits, ids, maxNew) >= 2
    requires token != limits.eos && limits.maxContext <= MaxTokens(limits.geo) < |ids| + limits.maxNew - 1
    ensures s.Valid() && s.stopping && r.origin == ids && |r.stream| == r.maxNew && r.failed
  {
    hide Demand;
    hide Session.Valid;
    s, r := Started(limits, ids, maxNew, token);
    DecodeTooFar(s, token);
    s.InSlot(0);
    s.FailSession();
    s.IsPlaced(r);
  }

  lemma LongEnough(c: Limits, rows: seq<Row>, n: nat, eos: seq<seq<bool>>)
    requires |rows| == 1 && Steps(rows[0], c.maxNew) && rows[0].genCol == 0 && MaxTokens(c.geo) < rows[0].startPos + c.maxNew - 1
    requires n == c.maxNew - 2 && n < |eos| && forall k :: 0 <= k < |eos| ==> eos[k] == [false]
    ensures !Within(c, rows, eos[..n])
  {
    RolledSteps(rows[0], Column(eos[..n], 0), c.maxNew);
  }
}
