/** What the publication protocol guarantees, over every run. */
module PublicationTheorems {
  import opened Options
  import opened Queue
  import opened Publication
  import opened PublicationRuns
  import opened PublicationInvariant
  import opened PublicationSafety

  lemma ReachableInv(s: State)
    requires Reachable(s)
    ensures Inv(s)
  {
    var steps :| Run(steps) == Some(s);
    RunKeeps(steps);
  }

  /**
   A success whose evidence predates an accepted trigger is always owed a durable
   reset, unless since that trigger a guarded invalidator saw no open pull request
   at the commit.
   */
  lemma StaleSuccessIsOwedAReset(s: State, h: HeadKey)
    requires Reachable(s)
    requires Shown(s, h).Done? && Shown(s, h).success && Shown(s, h).evidence < s.hist.trig(h)
    ensures || (h in s.db.epochs && s.db.epochs[h].invalidated < s.db.epochs[h].generation)
            || s.hist.trig(h) <= s.hist.waived(h)
  {
    ReachableInv(s);
    assert HeadOk(s, h);
  }

  /**
   A completing write carries evidence collected after its job was bound, and no
   trigger was accepted between that binding and the last publishable check
   (`seen` is the head's last trigger as of that check).  No authority fence covers
   the repository, and the installation's authority epoch is the one the job was
   queued under; module PublicationAuthority proves what that epoch dates.
   */
  lemma CompletingWriteIsFresh(s: State, p: Pid)
    requires Reachable(s)
    requires PendingWrite(s, p).Some? && PendingWrite(s, p).value.check.Done?
    ensures var e := ProcAt(s, p);
            && e.Eval?
            && e.seen <= e.bound <= e.evidence
            && PendingWrite(s, p).value == CheckWrite(EvalHead(e), Done(e.success, e.evidence, e.seen),
                                                      e.(pc := Wrote), e.(pc := Restoring(true)))
            && (e.seen < s.hist.trig(EvalHead(e)) ==> Pending(s.db, EvalHead(e)))
            && !Blocked(s.db, e.job.pull.inst, e.job.pull.repo)
            && AuthGeneration(s.db, e.job.pull.inst) == e.job.authGen
  {
    ReachableInv(s);
    assert ProcOk(s, p, ProcAt(s, p));
  }

  /** The two fenced checks that precede every completing write. */
  lemma ReadyMeansChecked(s: State, p: Pid)
    requires Reachable(s) && ProcAt(s, p).Eval? && ProcAt(s, p).pc == Unique
    requires LocalMove(s, p, Inspect).Some? && LocalMove(s, p, Inspect).value.pc == Current
    ensures var e := LocalMove(s, p, Inspect).value;
            && SharedGenerationIsPublishable(s.db, e.job, e.sha)
            && e.seen == s.hist.trig(EvalHead(e))
            && (ClaimLive(s, e.job) ==> e.seen <= e.bound)
            && !Pending(s.db, EvalHead(e))
  {
    ReachableInv(s);
    EvalFacts(s, p, ProcAt(s, p));
  }

  /** An exact-head reset never overwrites a result published for the head's present generation. */
  lemma NoWrongfulReset(s: State, p: Pid)
    requires Reachable(s)
    requires ProcAt(s, p).Inval? || ProcAt(s, p).Fast?
    requires PendingWrite(s, p).Some?
    ensures var h := PendingWrite(s, p).value.head;
            Shown(s, h).Done? ==> Shown(s, h).version < s.hist.trig(h)
  {
    ReachableInv(s);
    assert ProcOk(s, p, ProcAt(s, p));
  }

  /** A result for the present generation is only ever shown once that generation's reset is done. */
  lemma PresentResultIsReset(s: State, h: HeadKey)
    requires Reachable(s)
    requires Shown(s, h).Done? && Shown(s, h).version == s.hist.trig(h)
    ensures h in s.db.epochs ==> s.db.epochs[h].invalidated == s.db.epochs[h].generation
  {
    ReachableInv(s);
    assert HeadOk(s, h) && EpochOk(s, h);
  }

  /** At most one worker holds a claim on the row's present generation. */
  lemma OneLiveClaim(s: State, p: Pid, q: Pid)
    requires Reachable(s)
    requires ProcAt(s, p).Eval? && ProcAt(s, q).Eval? && ProcAt(s, p).job.pull == ProcAt(s, q).job.pull
    requires ClaimLive(s, ProcAt(s, p).job) && ClaimLive(s, ProcAt(s, q).job)
    ensures p == q
  {
    ReachableInv(s);
    assert ProcOk(s, p, ProcAt(s, p)) && ProcOk(s, q, ProcAt(s, q));
  }

  /** `complete` removes a row only if every trigger accepted for the pull request precedes the claim. */
  lemma CompleteIsLatest(s: State, p: Pid)
    requires Reachable(s) && ProcAt(s, p).Eval?
    requires var c := ProcAt(s, p).job; HasRow(s.db, c) && !HasRow(Complete(s.db, c, s.now), c)
    ensures s.hist.upserted(ProcAt(s, p).job.pull) <= ProcAt(s, p).claimedAt
  {
    ReachableInv(s);
    assert ProcOk(s, p, ProcAt(s, p));
  }

  /** A row still marked as a scheduled recheck: attempts are lost leases, plus one while leased. */
  lemma RecheckAttempts(s: State, pull: PullKey)
    requires Reachable(s) && pull in s.db.jobs && s.db.jobs[pull].reason == ScheduledRecheck
    ensures s.db.jobs[pull].attempts == s.hist.lost(pull) + if s.db.jobs[pull].lease.Some? then 1 else 0
  {
    ReachableInv(s);
    assert RowOk(s, pull);
  }

  /** A new claim keeps the published check exactly when the recheck has never lost a lease. */
  lemma KeepsPublishedExactlyBeforeALoss(s: State, p: Pid, pull: PullKey, until: Time)
    requires Reachable(s) && Apply(s, Store(p, BeginEval(pull, until))).Some?
    ensures var s' := Apply(s, Store(p, BeginEval(pull, until))).value;
            ProcAt(s', p).job.KeepsPublishedCheck() <==>
              s.db.jobs[pull].reason == ScheduledRecheck && s'.hist.lost(pull) == 0
  {
    var s' := Apply(s, Store(p, BeginEval(pull, until))).value;
    ReachableInv(s);
    assert RowOk(s, pull);
    StepKeeps(s, Store(p, BeginEval(pull, until)));
    assert RowOk(s', pull);
  }

  /**
   Failing a scheduled recheck, or deferring it past the limit, atomically
   advances the head's epoch (so its reset is owed) and ends the keep-published
   status; a short deferral changes neither.
   */
  lemma ReleasedRecheck(s: State, p: Pid, delay: nat, limit: Option<nat>)
    requires Reachable(s) && ProcAt(s, p).Eval?
    requires HoldsClaim(s.db, ProcAt(s, p).job) && ProcAt(s, p).job.reason == ScheduledRecheck
    ensures var c := ProcAt(s, p).job;
            c.head.Some? && EndsRecheck(s.db, Fail(s.db, c, s.now, delay), c, HeadOf(c.pull, c.head.value))
    ensures var c := ProcAt(s, p).job;
            var deferred := Defer(s.db, c, s.now, delay, limit);
            if PastRecheckLimit(c, s.now, delay, limit)
            then EndsRecheck(s.db, deferred, c, HeadOf(c.pull, c.head.value))
            else && deferred.epochs == s.db.epochs && deferred.jobs[c.pull].reason == ScheduledRecheck
                 && deferred.jobs[c.pull].attempts == s.hist.lost(c.pull)
  {
    ReachableInv(s);
    assert ProcOk(s, p, ProcAt(s, p)) && RowOk(s, ProcAt(s, p).job.pull);
    assert EpochOk(s, HeadOf(ProcAt(s, p).job.pull, ProcAt(s, p).job.head.value));
  }

  ghost predicate EndsRecheck(db: Db, db': Db, c: Claim, h: HeadKey) {
    && Pending(db', h) && SharedGeneration(db', h) == SharedGeneration(db, h) + 1
    && HasRow(db', c) && db'.jobs[c.pull].lease.None?
    && db'.jobs[c.pull].reason == PeriodicReconciliation
    && db'.jobs[c.pull].sharedGen == SharedGeneration(db', h)
  }

  // ---- The guarantees are not vacuous ------------------------------------------

  lemma TriggerIsReachable() returns (s: State)
    ensures Reachable(s) && ProcAt(s, 2).Eval? && ProcAt(s, 2).pc == Cleared && EvalHead(ProcAt(s, 2)) == H
    ensures ProcAt(s, 2).success && ProcAt(s, 2).evidence < s.hist.trig(H) && Pending(s.db, H)
  {
    var cleared := ClearedIsReachable();
    s := Extend(cleared, PUSH);
    assert Advanced(cleared.db, s.db, H);
    ReachableInv(s);
    assert EpochOk(s, H);
  }

  /** A trigger that commits while a success is being written leaves that success shown and its reset owed. */
  lemma StaleSuccessIsReachable() returns (s: State)
    ensures Reachable(s)
    ensures Shown(s, H).Done? && Shown(s, H).success && Shown(s, H).evidence < s.hist.trig(H) && Pending(s.db, H)
  {
    s := TriggerIsReachable();
    s := Extend(s, Write(2, true, true));
  }
}
