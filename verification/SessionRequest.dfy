/** One client request of the serving session (serving/session.py): its token queue, and
    what a preemption folds back into its prompt. */
module SessionRequest {
  import opened Wrappers

  datatype Reason = Stop | Length

  datatype Sampling = Sampling(temperature: real, seed: int)

  /** Where the session keeps a request. Only the proof looks at it. */
  datatype Place = Waiting | Admitting | InRow(row: nat) | Gone

  function Puts(tokens: seq<int>): seq<Option<int>> {
    seq(|tokens|, i requires 0 <= i < |tokens| => Some(tokens[i]))
  }

  lemma PutsSnoc(tokens: seq<int>, token: int)
    ensures Puts(tokens + [token]) == Puts(tokens) + [Some(token)]
  {
  }

  /** NmcSessionRequest. `queue` is everything ever put into the token queue; None ends it. */
  class Request {
    const id: nat
    const maxNew: nat
    const sampling: Sampling
    ghost const origin: seq<int>  // the prompt as submitted
    ghost var stream: seq<int>    // what the client has been sent
    ghost var place: Place
    var promptIds: seq<int>
    var emittedIds: seq<int>
    var emitted: nat
    var queue: seq<Option<int>>
    var done: bool
    var failed: bool
    var reason: Option<Reason>
    var suspended: bool
    var limitReached: bool

    /** The queue is the stream and then exactly one terminator once the request is done;
        prompt and stream together are always what a prefill would have to compute. */
    ghost predicate Valid()
      reads this
    {
      && queue == Puts(stream) + (if done then [None] else [])
      && origin + stream == promptIds + emittedIds
      && |stream| == emitted <= maxNew
    }

    twostate predicate SameButPlace()
      reads this
    {
      && stream == old(stream) && promptIds == old(promptIds) && emittedIds == old(emittedIds) && emitted == old(emitted)
      && queue == old(queue) && done == old(done) && limitReached == old(limitReached) && suspended == old(suspended)
    }

    constructor (id: nat, ids: seq<int>, maxNew: nat, sampling: Sampling)
      ensures Valid() && origin == ids == promptIds && this.maxNew == maxNew && this.id == id
      ensures this.sampling == sampling && emitted == 0 && emittedIds == [] && place == Waiting
      ensures !done && !limitReached && !suspended && stream == []
    {
      this.id, this.maxNew, this.sampling := id, maxNew, sampling;
      origin, stream, place := ids, [], Waiting;
      promptIds, emittedIds, emitted, queue := ids, [], 0, [];
      done, failed, reason, suspended, limitReached := false, false, None, false, false;
    }

    /** emit: one token to the client, unless the stream has already ended. */
    method Emit(token: int) returns (sent: bool)
      requires Valid() && (done || emitted < maxNew)
      modifies this`emitted, this`emittedIds, this`queue, this`stream
      ensures Valid() && sent == !done
      ensures stream == (if sent then old(stream) + [token] else old(stream))
      ensures emittedIds == (if sent then old(emittedIds) + [token] else old(emittedIds))
      ensures !sent ==> queue == old(queue)
    {
      if done { return false; }
      PutsSnoc(stream, token);
      assert origin + (stream + [token]) == (origin + stream) + [token];
      assert promptIds + (emittedIds + [token]) == (promptIds + emittedIds) + [token];
      emitted := emitted + 1;
      emittedIds := emittedIds + [token];
      queue := queue + [Some(token)];
      stream := stream + [token];
      sent := true;
    }

    /** The reason a request ends with: the first one given counts. */
    function Because(why: Reason): Option<Reason>
      reads this
    {
      if done || reason.Some? then reason else Some(why)
    }

    /** finish */
    method Finish(why: Reason)
      requires Valid()
      modifies this`queue, this`done, this`reason
      ensures Valid() && done && reason == old(Because(why))
      ensures old(done) ==> queue == old(queue)
    {
      if done { return; }
      if reason.None? { reason := Some(why); }
      queue := queue + [None];
      done := true;
    }

    /** fail */
    method Fail()
      requires Valid()
      modifies this`queue, this`done, this`failed
      ensures Valid() && done
      ensures old(done) ==> queue == old(queue) && failed == old(failed)
      ensures !old(done) ==> failed
    {
      if done { return; }
      failed := true;
      queue := queue + [None];
      done := true;
    }

    /** The part of _on_tokens that concerns one request. */
    method Deliver(token: int) returns (sent: bool)
      requires Valid() && (emitted < maxNew || limitReached)
      modifies this`emitted, this`emittedIds, this`queue, this`stream, this`limitReached, this`reason
      ensures Valid() && (emitted < maxNew || limitReached) && sent == (!old(limitReached) && !done)
      ensures limitReached <==> old(limitReached) || (sent && emitted == maxNew)
      ensures reason == if limitReached && !old(limitReached) then Some(Length) else old(reason)
      ensures stream == (if sent then old(stream) + [token] else old(stream))
      ensures emittedIds == (if sent then old(emittedIds) + [token] else old(emittedIds))
      ensures !sent ==> queue == old(queue)
    {
      if limitReached { return false; }
      sent := Emit(token);
      if sent && emitted >= maxNew {
        limitReached := true;
        reason := Some(Length);
      }
    }

    /** The request ends and leaves the session. */
    method End(why: Reason)
      requires Valid()
      modifies this`queue, this`done, this`reason, this`place
      ensures Valid() && done && place == Gone && reason == old(Because(why))
      ensures old(done) ==> queue == old(queue)
    {
      Finish(why);
      place := Gone;
    }

    /** The request fails; one that holds a row stays there. */
    method Abort()
      requires Valid()
      modifies this`queue, this`done, this`failed, this`place
      ensures Valid() && done && failed == old(failed || !done) && place == if old(place).InRow? then old(place) else Gone
      ensures old(done) ==> queue == old(queue)
    {
      Fail();
      if !place.InRow? { place := Gone; }
    }

    /** The first token of a prefill goes out and nothing follows. */
    method EmitLast(token: int, why: Reason)
      requires Valid() && (done || emitted < maxNew)
      modifies this`emitted, this`emittedIds, this`queue, this`stream, this`done, this`reason, this`place
      ensures Valid() && done && place == Gone && reason == old(Because(why))
      ensures stream == (if old(done) then old(stream) else old(stream) + [token])
      ensures old(done) ==> queue == old(queue)
    {
      var sent := Emit(token);
      if sent { Finish(why); }
      place := Gone;
    }

    /** The first token of a prefill goes out and decoding follows in `row`. */
    method Start(token: int, ghost row: nat)
      requires Valid() && !done && emitted < maxNew
      modifies this`emitted, this`emittedIds, this`queue, this`stream, this`suspended, this`place
      ensures Valid() && place == InRow(row) && !suspended && emitted == old(emitted) + 1
      ensures stream == old(stream) + [token] && emittedIds == old(emittedIds) + [token]
    {
      var sent := Emit(token);
      suspended := false;
      place := InRow(row);
    }

    /** What _preempt_one does to its victim: the emitted suffix becomes prompt. */
    method Suspend()
      requires Valid()
      modifies this`promptIds, this`emittedIds, this`suspended
      ensures Valid() && promptIds == old(promptIds + emittedIds) && emittedIds == [] && suspended
    {
      promptIds := promptIds + emittedIds;
      emittedIds := [];
      suspended := true;
    }
  }
}
