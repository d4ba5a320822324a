/** Every store transaction is one of the moves the invariant allows. */
module PublicationTransactions {
  import opened Options
  import opened Queue
  import opened Publication
  import opened PublicationInvariant

  lemma UnchangedTx(s: State, p: Pid)
    requires Inv(s)
    ensures Tx(s, s.db, p, None)
  {
  }

  /** Advancing h and binding the row of k to the new generation. */
  lemma AdvanceAndBindTx(s: State, db': Db, p: Pid, h: HeadKey, k: PullKey)
    requires Inv(s)
    requires db'.epochs == Advance(s.db, h, s.now).epochs
    requires k in db'.jobs && db'.jobs == s.db.jobs[k := db'.jobs[k]]
    requires s.db.nextId <= db'.nextId && db'.jobs[k].id < db'.nextId
    requires RowStep(s.db, db', p, k)
    requires References(db', k, h) && db'.jobs[k].sharedGen == db'.epochs[h].generation
    requires db'.jobs[k].reason != ScheduledRecheck
    ensures Tx(s, db', p, None)
  {
    assert RowOk(s, k) && EpochOk(s, h) && HeadOk(s, h);
    assert Advanced(s.db, db', h);
    assert Rebound(s.db, db', k);
  }

  lemma TriggerTx(s: State, r: Request, p: Pid)
    requires Inv(s) && r.head.Some? && r.reason != ScheduledRecheck
    ensures Tx(s, EnqueueSharedHeadTrigger(s.db, r, s.now), p, None)
  {
    assert RowOk(s, r.pull);
    AdvanceAndBindTx(s, EnqueueSharedHeadTrigger(s.db, r, s.now), p, HeadOf(r.pull, r.head.value), r.pull);
  }

  lemma EnqueueTx(s: State, r: Request, p: Pid)
    requires Inv(s) && r.reason != ScheduledRecheck
    ensures Tx(s, Enqueue(s.db, r, s.now), p, None)
  {
    assert RowOk(s, r.pull);
    if r.head.Some? { TriggerTx(s, r, p); }
  }

  /** Binding to the current generation, without advancing it. */
  lemma BindCurrentTx(s: State, db': Db, p: Pid, h: HeadKey, k: PullKey)
    requires Inv(s)
    requires db'.epochs == s.db.epochs || db'.epochs == Touch(s.db, h, s.now).epochs
    requires k in db'.jobs && db'.jobs == s.db.jobs[k := db'.jobs[k]]
    requires s.db.nextId <= db'.nextId && db'.jobs[k].id < db'.nextId
    requires RowStep(s.db, db', p, k)
    requires References(db', k, h) && db'.jobs[k].sharedGen == SharedGeneration(s.db, h)
    requires db'.jobs[k].reason == ScheduledRecheck ==>
               Inserted(s.db, db', k) && db'.jobs[k].attempts == 0 && db'.jobs[k].lease.None?
    ensures Tx(s, db', p, None)
  {
    assert RowOk(s, k) && EpochOk(s, h) && HeadOk(s, h);
    assert !Advanced(s.db, db', h);
  }

  lemma FanOutTx(s: State, r: Request, generation: nat, p: Pid)
    requires Inv(s) && r.head.Some? && r.reason != ScheduledRecheck
    ensures Tx(s, EnqueueForGeneration(s.db, r, generation, s.now), p, None)
  {
    assert RowOk(s, r.pull);
    if FanOut(s.db, r, generation) == Queued {
      BindCurrentTx(s, EnqueueForGeneration(s.db, r, generation, s.now), p, HeadOf(r.pull, r.head.value), r.pull);
    }
  }

  lemma ReconcileTx(s: State, r: Request, observedAt: Time, recheck: nat, p: Pid)
    requires Inv(s) && r.head.Some? && r.reason != ScheduledRecheck
    ensures Tx(s, EnqueueReconciliationIfDue(s.db, r, observedAt, recheck, s.now), p, None)
  {
    var db' := EnqueueReconciliationIfDue(s.db, r, observedAt, recheck, s.now);
    var h := HeadOf(r.pull, r.head.value);
    assert RowOk(s, r.pull);
    match ReconcileDecision(s.db, r, observedAt, recheck, s.now)
    case HeadReplaced => AdvanceAndBindTx(s, db', p, h, r.pull);
    case RecheckQueued => BindCurrentTx(s, db', p, h, r.pull);
    case ReconcileQueued => TriggerTx(s, r, p);
    case _ =>
  }

  lemma ClaimTx(s: State, pull: PullKey, p: Pid, until: Time)
    requires Inv(s) && CanClaim(s.db, pull, s.now)
    ensures Tx(s, ClaimJob(s.db, pull, p, until), p, None)
  {
    assert RowOk(s, pull);
  }

  lemma RenewTx(s: State, c: Claim, until: Time)
    requires Inv(s)
    ensures Tx(s, RenewClaim(s.db, c, until), c.owner, None)
  {
    assert RowOk(s, c.pull);
  }

  lemma BindTx(s: State, c: Claim, sha: string)
    requires Inv(s)
    ensures Tx(s, BindClaim(s.db, c, sha, s.now), c.owner, None)
  {
    assert RowOk(s, c.pull);
    if CanBind(s.db, c) {
      AdvanceAndBindTx(s, BindClaim(s.db, c, sha, s.now), c.owner, HeadOf(c.pull, sha), c.pull);
    }
  }

  lemma CompleteTx(s: State, c: Claim)
    requires Inv(s)
    ensures Tx(s, Complete(s.db, c, s.now), c.owner, None)
  {
    assert RowOk(s, c.pull);
  }

  lemma ReleaseTx(s: State, c: Claim, delay: nat, refund: bool, revoke: bool)
    requires Inv(s)
    requires HoldsClaim(s.db, c) ==> s.db.jobs[c.pull].reason == c.reason && s.db.jobs[c.pull].head == c.head
    requires refund || revoke
    ensures Tx(s, Release(s.db, c, s.now, delay, refund, revoke), c.owner, None)
  {
    assert RowOk(s, c.pull);
    if HoldsClaim(s.db, c) && revoke && c.reason == ScheduledRecheck && c.head.Some? {
      AdvanceAndBindTx(s, Release(s.db, c, s.now, delay, refund, revoke), c.owner,
                       HeadOf(c.pull, c.head.value), c.pull);
    }
  }

  lemma InvalidationTx(s: State, c: InvalClaim, until: Time, delay: nat, refund: bool)
    requires Inv(s)
    ensures Tx(s, RenewInvalidation(s.db, c, s.now, until), c.owner, None)
    ensures Tx(s, ReleaseInvalidation(s.db, c, s.now, delay, refund), c.owner, None)
    ensures IsCurrentInvalidation(s.db, c, s.now) ==>
              Tx(s, CompleteInvalidation(s.db, c, s.now), c.owner, Some(c.head))
  {
    assert EpochOk(s, c.head);
  }

  lemma ClaimInvalidationTx(s: State, h: HeadKey, p: Pid, until: Time)
    requires Inv(s) && CanClaimInvalidation(s.db, h, s.now)
    ensures Tx(s, ClaimInvalidation(s.db, h, p, until), p, None)
  {
    assert EpochOk(s, h);
  }

  lemma PruneTx(s: State, olderThan: Time, p: Pid)
    requires Inv(s)
    ensures Tx(s, PruneSharedHeadEpochs(s.db, olderThan), p, None)
  {
    var db' := PruneSharedHeadEpochs(s.db, olderThan);
    forall h ensures EpochStep(s.db, db', p, h, false) {
      forall pull | pull in db'.jobs ensures References(db', pull, h) == References(s.db, pull, h) { }
    }
  }

  lemma FenceTx(s: State, db': Db, p: Pid)
    requires Inv(s)
    requires db'.jobs == s.db.jobs && db'.epochs == s.db.epochs && db'.nextId == s.db.nextId
    ensures Tx(s, db', p, None)
  {
    forall k ensures SameRow(s.db, db', k) { }
  }
}
