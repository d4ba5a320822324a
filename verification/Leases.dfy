/**
 Who may take over whose work.  Every statement is in terms of the stored lease and
 the clock: live work is never taken over, and expired work can always be claimed.
 */
module Leases {
  import opened Options
  import opened Queue
  import opened Publication
  import opened PublicationInvariant
  import opened PublicationSafety
  import opened PublicationTheorems
  import opened Authority
  import A = AuthorityFanOut

  // ---- What can be claimed --------------------------------------------------------

  /** An evaluation is claimed exactly when it is due, nobody's lease on it still runs, and no fence covers it. */
  lemma EvaluationClaimedExactly(s: State, p: Pid, pull: PullKey, until: Time)
    requires ProcAt(s, p).Idle?
    ensures Apply(s, Store(p, BeginEval(pull, until))).Some? <==>
              && pull in s.db.jobs && s.db.jobs[pull].availableAt <= s.now
              && (s.db.jobs[pull].lease.None? || s.db.jobs[pull].lease.value.until < s.now)
              && Fence(pull.inst, None) !in s.db.fences && Fence(pull.inst, Some(pull.repo)) !in s.db.fences
    ensures Apply(s, Store(p, BeginEval(pull, until))).Some? ==>
              var s' := Apply(s, Store(p, BeginEval(pull, until))).value;
              && s'.db.jobs == s.db.jobs[pull := s'.db.jobs[pull]] && s'.db.jobs[pull].lease == Some(Lease(p, until))
              && s'.db.epochs == s.db.epochs
              && ProcAt(s', p).Eval? && ProcAt(s', p).pc == Start && ProcAt(s', p).job.owner == p
              && ProcAt(s', p).claimedAt == s'.hist.serial && ProcAt(s', p).bound == s.hist.bound(pull)
  {
  }

  /** An exact-head reset is claimed exactly when it is owed, due, and nobody's lease on it still runs. */
  lemma ResetClaimedExactly(s: State, p: Pid, h: HeadKey, until: Time)
    requires ProcAt(s, p).Idle?
    ensures Apply(s, Store(p, BeginInval(h, until))).Some? <==>
              && h in s.db.epochs && s.db.epochs[h].invalidated < s.db.epochs[h].generation
              && s.db.epochs[h].availableAt <= s.now
              && (s.db.epochs[h].lease.None? || s.db.epochs[h].lease.value.until < s.now)
    ensures Apply(s, Store(p, BeginInval(h, until))).Some? ==>
              var s' := Apply(s, Store(p, BeginInval(h, until))).value;
              && s'.db.epochs == s.db.epochs[h := s'.db.epochs[h]] && s'.db.epochs[h].lease == Some(Lease(p, until))
              && s'.db.jobs == s.db.jobs
  {
  }

  /** An authority row is claimed exactly when nobody's lease on it still runs. */
  lemma AuthorityClaimedExactly(s: A.State, p: Pid, scope: Option<string>, until: Time)
    requires p !in s.workers
    ensures A.Apply(s, A.Step.Claim(p, scope, until)).Some? <==>
              scope in s.rows && (s.rows[scope].lease.None? || s.rows[scope].lease.value.until < s.now)
    ensures A.Apply(s, A.Step.Claim(p, scope, until)).Some? ==>
              var s' := A.Apply(s, A.Step.Claim(p, scope, until)).value;
              s'.rows == s.rows[scope := s'.rows[scope]] && s'.rows[scope].lease == Some(Lease(p, until))
  {
  }

  /** Work whose holder has stopped renewing is never stranded: once its lease has run out anybody can claim it. */
  lemma ExpiredWorkIsClaimable(s: State, d: nat, p: Pid, pull: PullKey, until: Time)
    requires ProcAt(s, p).Idle? && pull in s.db.jobs && s.db.jobs[pull].lease.Some?
    requires s.db.jobs[pull].lease.value.until < s.now + d && s.db.jobs[pull].availableAt <= s.now + d
    requires Fence(pull.inst, None) !in s.db.fences && Fence(pull.inst, Some(pull.repo)) !in s.db.fences
    ensures Apply(Apply(s, Tick(d)).value, Store(p, BeginEval(pull, until))).Some?
  {
    EvaluationClaimedExactly(s.(now := s.now + d), p, pull, until);
  }

  /** While its row is due and unfenced, a held claim is either still current or reclaimable, never both or neither. */
  lemma CurrentOrReclaimable(db: Db, c: Claim, now: Time)
    requires HoldsClaim(db, c) && db.jobs[c.pull].authGen == c.authGen == AuthGeneration(db, c.pull.inst)
    requires db.jobs[c.pull].availableAt <= now && !Blocked(db, c.pull.inst, c.pull.repo)
    ensures IsCurrentClaim(db, c, now) <==> !CanClaim(db, c.pull, now)
  {
  }

  // ---- Live work is left alone -------------------------------------------------------

  /** A change by somebody other than the lease holder: none at all, or new work that supersedes the row. */
  predicate LeftAlone(row: Job, jobs: map<PullKey, Job>, k: PullKey) {
    k in jobs && (jobs[k] == row || (jobs[k].id == row.id && jobs[k].generation > row.generation && jobs[k].lease.None?))
  }

  lemma UpsertLeavesRow(db: Db, d: Db, r: Request, sharedGen: nat, keepClass: bool, now: Time, k: PullKey)
    requires d.jobs == db.jobs && k in db.jobs
    ensures LeftAlone(db.jobs[k], Upsert(d, r, sharedGen, keepClass, now).jobs, k)
  {
  }

  lemma TriggerLeavesRow(db: Db, r: Request, now: Time, k: PullKey)
    requires r.head.Some? && k in db.jobs
    ensures LeftAlone(db.jobs[k], EnqueueSharedHeadTrigger(db, r, now).jobs, k)
  {
    var d := Advance(db, HeadOf(r.pull, r.head.value), now);
    UpsertLeavesRow(db, d, r, d.epochs[HeadOf(r.pull, r.head.value)].generation, true, now, k);
  }

  lemma EnqueueLeavesRow(db: Db, r: Request, now: Time, k: PullKey)
    requires k in db.jobs
    ensures LeftAlone(db.jobs[k], Enqueue(db, r, now).jobs, k)
  {
    if r.head.Some? { TriggerLeavesRow(db, r, now, k); } else { UpsertLeavesRow(db, db, r, 0, true, now, k); }
  }

  lemma ReconcileLeavesRow(db: Db, r: Request, observedAt: Time, recheck: nat, now: Time, k: PullKey)
    requires r.head.Some? && k in db.jobs
    ensures LeftAlone(db.jobs[k], EnqueueReconciliationIfDue(db, r, observedAt, recheck, now).jobs, k)
  {
    var h := HeadOf(r.pull, r.head.value);
    match ReconcileDecision(db, r, observedAt, recheck, now) {
      case HeadReplaced =>
        var d := Advance(db, h, now);
        UpsertLeavesRow(db, d, r, d.epochs[h].generation, db.jobs[r.pull].workClass != Interactive, now, k);
      case RecheckQueued =>
        UpsertLeavesRow(db, Touch(db, h, now), r.(reason := ScheduledRecheck), SharedGeneration(db, h), true, now, k);
      case ReconcileQueued => TriggerLeavesRow(db, r, now, k);
      case _ =>
    }
  }

  lemma ClientLeavesRow(s: State, t: ClientTx, k: PullKey)
    requires ClientEnabled(s, t) && k in s.db.jobs
    ensures LeftAlone(s.db.jobs[k], ClientApply(s, t).jobs, k)
  {
    match t
    case ClientEnqueue(r) => EnqueueLeavesRow(s.db, r, s.now, k);
    case ClientIfAbsent(r) => EnqueueLeavesRow(s.db, r, s.now, k);
    case ClientReconcile(r, observedAt, recheck) => ReconcileLeavesRow(s.db, r, observedAt, recheck, s.now, k);
    case _ =>
  }

  lemma EvaluationLeavesRow(s: State, e: Proc, m: StoreCall, k: PullKey)
    requires e.Eval? && EvalStore(s, e, m).Some? && k in s.db.jobs && s.db.jobs[k].lease.Some?
    requires s.db.jobs[k].lease.value.owner != e.job.owner
    ensures LeftAlone(s.db.jobs[k], EvalStore(s, e, m).value.0.jobs, k)
  {
    match m
    case SeeNewHead(sha) => TriggerLeavesRow(s.db, WorkerRequest(e.job.pull, sha, e.job.workClass), s.now, k);
    case _ =>
  }

  lemma ResetLeavesRow(s: State, i: Proc, m: StoreCall, k: PullKey)
    requires i.Inval? && InvalStore(s, i, m).Some? && k in s.db.jobs
    ensures LeftAlone(s.db.jobs[k], InvalStore(s, i, m).value.0.jobs, k)
  {
  }

  lemma WorkerLeavesRow(s: State, p: Pid, m: StoreCall, k: PullKey)
    requires StoreMove(s, p, m).Some? && k in s.db.jobs && s.db.jobs[k].lease.Some?
    requires s.db.jobs[k].lease.value.until >= s.now && s.db.jobs[k].lease.value.owner != p
    requires ProcAt(s, p).Eval? ==> ProcAt(s, p).job.owner == p
    ensures LeftAlone(s.db.jobs[k], StoreMove(s, p, m).value.0.jobs, k)
  {
    var proc := ProcAt(s, p);
    if proc.Eval? { EvaluationLeavesRow(s, proc, m, k); } else if proc.Inval? { ResetLeavesRow(s, proc, m, k); }
  }

  /**
   While a lease on an evaluation runs, only its holder's own transactions touch the
   row, apart from new work that supersedes it and leaves it unleased.
   */
  lemma LiveEvaluationIsLeftAlone(s: State, step: Step, k: PullKey)
    requires Reachable(s) && Apply(s, step).Some?
    requires k in s.db.jobs && s.db.jobs[k].lease.Some? && s.db.jobs[k].lease.value.until >= s.now
    requires !(step.Store? && step.p == s.db.jobs[k].lease.value.owner)
    ensures LeftAlone(s.db.jobs[k], Apply(s, step).value.db.jobs, k)
  {
    ReachableInv(s);
    match step
    case Client(tx) => ClientLeavesRow(s, tx, k);
    case Store(p, m) =>
      assert ProcAt(s, p).Eval? ==> ProcOk(s, p, ProcAt(s, p));
      WorkerLeavesRow(s, p, m, k);
    case _ =>
  }

  /** The same for an exact-head reset: nothing, a new timestamp, or a trigger that ends the lease and owes a newer reset. */
  predicate ResetLeftAlone(e: Epoch, epochs: map<HeadKey, Epoch>, h: HeadKey) {
    && h in epochs && epochs[h].invalidated == e.invalidated
    && if epochs[h].generation == e.generation then epochs[h] == e.(changedAt := epochs[h].changedAt)
       else epochs[h].generation == e.generation + 1 && epochs[h].lease.None?
  }

  lemma EnqueueLeavesReset(db: Db, r: Request, now: Time, h: HeadKey)
    requires h in db.epochs
    ensures ResetLeftAlone(db.epochs[h], Enqueue(db, r, now).epochs, h)
  {
  }

  lemma ReconcileLeavesReset(db: Db, r: Request, observedAt: Time, recheck: nat, now: Time, h: HeadKey)
    requires r.head.Some? && h in db.epochs
    ensures ResetLeftAlone(db.epochs[h], EnqueueReconciliationIfDue(db, r, observedAt, recheck, now).epochs, h)
  {
    var k := HeadOf(r.pull, r.head.value);
    var db' := EnqueueReconciliationIfDue(db, r, observedAt, recheck, now);
    match ReconcileDecision(db, r, observedAt, recheck, now) {
      case HeadReplaced => assert db'.epochs == Advance(db, k, now).epochs;
      case RecheckQueued => assert db'.epochs == Touch(db, k, now).epochs;
      case ReconcileQueued => EnqueueLeavesReset(db, r, now, h);
      case _ => assert db'.epochs == db.epochs;
    }
  }

  lemma ClientLeavesReset(s: State, t: ClientTx, h: HeadKey)
    requires ClientEnabled(s, t) && h in s.db.epochs && s.db.epochs[h].lease.Some?
    ensures ResetLeftAlone(s.db.epochs[h], ClientApply(s, t).epochs, h)
  {
    match t
    case ClientEnqueue(r) => EnqueueLeavesReset(s.db, r, s.now, h);
    case ClientIfAbsent(r) => EnqueueLeavesReset(s.db, r, s.now, h);
    case ClientReconcile(r, observedAt, recheck) => ReconcileLeavesReset(s.db, r, observedAt, recheck, s.now, h);
    case _ =>
  }

  lemma EvaluationLeavesEpoch(s: State, e: Proc, m: StoreCall, h: HeadKey)
    requires e.Eval? && EvalStore(s, e, m).Some? && h in s.db.epochs
    ensures ResetLeftAlone(s.db.epochs[h], EvalStore(s, e, m).value.0.epochs, h)
  {
  }

  lemma ResetLeavesEpoch(s: State, i: Proc, m: StoreCall, h: HeadKey)
    requires i.Inval? && InvalStore(s, i, m).Some? && h in s.db.epochs && s.db.epochs[h].lease.Some?
    requires s.db.epochs[h].lease.value.owner != i.claim.owner
    ensures ResetLeftAlone(s.db.epochs[h], InvalStore(s, i, m).value.0.epochs, h)
  {
  }

  lemma WorkerLeavesReset(s: State, p: Pid, m: StoreCall, h: HeadKey)
    requires StoreMove(s, p, m).Some? && h in s.db.epochs && s.db.epochs[h].lease.Some?
    requires s.db.epochs[h].lease.value.until >= s.now && s.db.epochs[h].lease.value.owner != p
    requires ProcAt(s, p).Inval? ==> ProcAt(s, p).claim.owner == p
    ensures ResetLeftAlone(s.db.epochs[h], StoreMove(s, p, m).value.0.epochs, h)
  {
    var proc := ProcAt(s, p);
    if proc.Eval? { EvaluationLeavesEpoch(s, proc, m, h); } else if proc.Inval? { ResetLeavesEpoch(s, proc, m, h); }
  }

  /** While a lease on a reset runs, only its holder completes, releases or extends it. */
  lemma LiveResetIsLeftAlone(s: State, step: Step, h: HeadKey)
    requires Reachable(s) && Apply(s, step).Some?
    requires h in s.db.epochs && s.db.epochs[h].lease.Some? && s.db.epochs[h].lease.value.until >= s.now
    requires !(step.Store? && step.p == s.db.epochs[h].lease.value.owner)
    ensures ResetLeftAlone(s.db.epochs[h], Apply(s, step).value.db.epochs, h)
  {
    ReachableInv(s);
    match step
    case Client(tx) => ClientLeavesReset(s, tx, h);
    case Store(p, m) =>
      assert ProcAt(s, p).Inval? ==> ProcOk(s, p, ProcAt(s, p));
      WorkerLeavesReset(s, p, m, h);
    case _ =>
  }

  /** Requests may join the row, but nobody has moved, taken or ended its pass. */
  predicate PassLeftAlone(row: Row, rows: map<Option<string>, Row>, scope: Option<string>) {
    && scope in rows
    && var row' := rows[scope];
    && row'.id == row.id && row'.generation == row.generation && row'.lease == row.lease
    && row'.targets == row.targets && row'.nextPage == row.nextPage && row'.lastNumber == row.lastNumber
    && row'.handled == row.handled && row'.attempts == row.attempts
  }

  lemma RequestLeavesPass(row: Row, target: Option<string>, reason: string, scope: Option<string>)
    requires row.lease.Some?
    ensures PassLeftAlone(row, map[scope := Coalesce(row, target, reason)], scope)
  {
  }

  lemma PageLeavesPass(s: A.State, w: A.Worker, repos: seq<string>, more: bool, scope: Option<string>)
    requires None in s.rows && w.scope == None && w.pc.Scanning?
    requires scope.Some? && scope in s.rows && s.rows[scope].lease.Some?
    ensures PassLeftAlone(s.rows[scope], A.PageState(s, w, repos, more).rows, scope)
  {
    if scope.value in repos { RequestLeavesPass(s.rows[scope], None, s.rows[None].reason, scope); }
  }

  lemma ReadLeavesPass(s: A.State, step: A.Step, scope: Option<string>)
    requires A.ApplyRead(s, step).Some? && scope in s.rows && s.rows[scope].lease.Some?
    requires step.p != s.rows[scope].lease.value.owner
    ensures PassLeftAlone(s.rows[scope], A.ApplyRead(s, step).value.rows, scope)
  {
    var w := s.workers[step.p];
    if step.InstallationPage? && A.MayAdvance(s, step.p, w) && scope.Some? {
      PageLeavesPass(s, w, step.repos, step.more, scope);
    }
  }

  /** While a lease on an authority row runs, nobody but its holder moves, takes or ends its pass. */
  lemma LiveAuthorityIsLeftAlone(s: A.State, step: A.Step, scope: Option<string>)
    requires A.Apply(s, step).Some?
    requires scope in s.rows && s.rows[scope].lease.Some? && s.rows[scope].lease.value.until >= s.now
    requires !step.Tick? && !step.Accept? ==> step.p != s.rows[scope].lease.value.owner
    ensures PassLeftAlone(s.rows[scope], A.Apply(s, step).value.rows, scope)
  {
    match step
    case Tick(_) =>
    case Accept(k, baseRef, reason) =>
      if k == scope { RequestLeavesPass(s.rows[scope], TargetRef(k, baseRef), reason, scope); }
    case Claim(_, _, _) =>
    case Renew(_, _) =>
    case ScanEnds(_) =>
    case Retire(_) =>
    case Raise(_) =>
    case Crash(_) =>
    case Complete(_) =>
    case Fail(_) =>
    case Defer(_) =>
    case _ => ReadLeavesPass(s, step, scope);
  }
}
