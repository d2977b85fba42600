/** The session and its page tables together: an idle session never starves its queue. */
module IdleAdmission {
  import opened SessionRequest
  import opened Session
  import opened RowLife
  import PressureGate

  /** The rows of the page tables, next to the session that uses them: a row whose pages the
      session has given back is idle. */
  ghost predicate Backs(x: Life, s: Session)
    requires |s.holdsPages| == |s.slots|
    reads s
  {
    && |x.rows| == |s.slots| && |x.sys.pool.ref| == s.limits.totalBlocks
    && forall i: nat :: i < |s.slots| && !s.holdsPages[i] ==> x.rows[i].Idle?
  }

  /** With no live row, the head of the queue can be admitted with the blocks that are then
      free, however long it has grown and whatever the prefix cache holds. */
  lemma IdleHeadAdmitted(s: Session, r: Request, x: Life)
    requires s.Valid() && r in s.pending && LifeInv(x) && |s.holdsPages| == |s.slots| && Backs(x, s)
    requires forall i :: 0 <= i < |s.slots| ==> s.slots[i].Free?
    ensures s.LimitsOk() && s.CanAdmit(r, |x.sys.pool.free|)
  {
    hide LifeInv;
    forall i: nat | i < |x.rows| ensures x.rows[i].Idle? { assert s.RowOk(i); }
    PressureGate.IdleMeansAllFree(x);
    s.HeadIsAdmissible(r, |x.sys.pool.free|);
  }
}
