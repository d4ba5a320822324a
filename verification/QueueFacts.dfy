/** What every queue transaction leaves alone: authority rows and epochs, and the epochs stamped on rows. */
module QueueFacts {
  import opened Options
  import opened Queue

  // ---- Authority rows and epochs ---------------------------------------------------

  lemma EnqueueKeepsFences(db: Db, r: Request, now: Time)
    ensures Enqueue(db, r, now).fences == db.fences && Enqueue(db, r, now).authEpochs == db.authEpochs
  {
  }

  predicate SameAuthority(db: Db, db': Db) {
    db'.fences == db.fences && db'.authEpochs == db.authEpochs
  }

  lemma StepsKeepFences(db: Db, r: Request, h: HeadKey, sharedGen: nat, keepClass: bool, now: Time)
    ensures SameAuthority(db, Advance(db, h, now)) && SameAuthority(db, Touch(db, h, now))
    ensures SameAuthority(db, Upsert(db, r, sharedGen, keepClass, now)) && SameAuthority(db, Observed(db, r.pull, now))
  {
  }

  lemma ReplaceKeepsFences(db: Db, r: Request, h: HeadKey, keepClass: bool, now: Time)
    ensures var d := Advance(db, h, now);
            h in d.epochs && SameAuthority(db, Observed(Upsert(d, r, d.epochs[h].generation, keepClass, now), r.pull, now))
  {
    var d := Advance(db, h, now);
    StepsKeepFences(db, r, h, 0, true, now);
    StepsKeepFences(d, r, h, d.epochs[h].generation, keepClass, now);
    StepsKeepFences(Upsert(d, r, d.epochs[h].generation, keepClass, now), r, h, 0, true, now);
  }

  lemma ReconcileKeepsFences(db: Db, r: Request, observedAt: Time, recheck: nat, now: Time)
    requires r.head.Some?
    ensures SameAuthority(db, EnqueueReconciliationIfDue(db, r, observedAt, recheck, now))
  {
    var h := HeadOf(r.pull, r.head.value);
    match ReconcileDecision(db, r, observedAt, recheck, now) {
      case HeadReplaced => ReplaceKeepsFences(db, r, h, db.jobs[r.pull].workClass != Interactive, now);
      case RecheckQueued =>
        StepsKeepFences(db, r, h, 0, true, now);
        StepsKeepFences(Touch(db, h, now), r.(reason := ScheduledRecheck), h, SharedGeneration(db, h), true, now);
      case ReconcileQueued => EnqueueKeepsFences(db, r, now);
      case _ => StepsKeepFences(db, r, h, 0, true, now);
    }
  }

  lemma FanOutKeepsFences(db: Db, r: Request, generation: nat, now: Time)
    requires r.head.Some?
    ensures SameAuthority(db, EnqueueForGeneration(db, r, generation, now))
  {
    StepsKeepFences(db, r, HeadOf(r.pull, r.head.value), generation, true, now);
  }

  // ---- Stamps ------------------------------------------------------------------------

  /** Queueing stamps the present authority epoch; nothing else changes a row's stamp. */
  ghost predicate StampStep(db: Db, db': Db, k: PullKey) {
    k in db'.jobs ==>
      var r' := db'.jobs[k];
      if k in db.jobs && db.jobs[k].id == r'.id then
        && db.jobs[k].generation <= r'.generation
        && r'.authGen == if db.jobs[k].generation < r'.generation && r'.lease.None?
                         then AuthGeneration(db, k.inst) else db.jobs[k].authGen
      else db.nextId <= r'.id && r'.authGen == AuthGeneration(db, k.inst)
  }

  ghost predicate Stamps(db: Db, db': Db) {
    db'.authEpochs == db.authEpochs && forall k :: StampStep(db, db', k)
  }

  ghost predicate IdsBelow(db: Db) {
    forall k :: k in db.jobs ==> db.jobs[k].id < db.nextId
  }

  lemma SameStamps(db: Db)
    ensures Stamps(db, db)
  {
  }

  lemma UpsertStamps(db: Db, d: Db, r: Request, sharedGen: nat, keepClass: bool, now: Time)
    requires IdsBelow(db) && d.jobs == db.jobs && d.authEpochs == db.authEpochs && d.nextId == db.nextId
    ensures Stamps(db, Upsert(d, r, sharedGen, keepClass, now))
  {
  }

  lemma TriggerStamps(db: Db, r: Request, now: Time)
    requires IdsBelow(db) && r.head.Some?
    ensures Stamps(db, EnqueueSharedHeadTrigger(db, r, now))
  {
    var h := HeadOf(r.pull, r.head.value);
    var d := Advance(db, h, now);
    UpsertStamps(db, d, r, d.epochs[h].generation, true, now);
  }

  lemma EnqueueStamps(db: Db, r: Request, now: Time)
    requires IdsBelow(db)
    ensures Stamps(db, Enqueue(db, r, now))
  {
    if r.head.Some? { TriggerStamps(db, r, now); } else { UpsertStamps(db, db, r, 0, true, now); }
  }

  lemma FanOutStamps(db: Db, r: Request, generation: nat, now: Time)
    requires IdsBelow(db) && r.head.Some?
    ensures Stamps(db, EnqueueForGeneration(db, r, generation, now))
  {
    if FanOut(db, r, generation) == Queued { UpsertStamps(db, db, r, generation, true, now); } else { SameStamps(db); }
  }

  lemma ObservedStamps(db: Db, d: Db, pull: PullKey, now: Time)
    requires Stamps(db, d)
    ensures Stamps(db, Observed(d, pull, now))
  {
    assert Observed(d, pull, now).jobs == d.jobs;
    forall k ensures StampStep(db, Observed(d, pull, now), k) { assert StampStep(db, d, k); }
  }

  lemma ReconcileStamps(db: Db, r: Request, observedAt: Time, recheck: nat, now: Time)
    requires IdsBelow(db) && r.head.Some?
    ensures Stamps(db, EnqueueReconciliationIfDue(db, r, observedAt, recheck, now))
  {
    var h := HeadOf(r.pull, r.head.value);
    match ReconcileDecision(db, r, observedAt, recheck, now) {
      case HeadReplaced =>
        var d := Advance(db, h, now);
        var keepClass := db.jobs[r.pull].workClass != Interactive;
        UpsertStamps(db, d, r, d.epochs[h].generation, keepClass, now);
        ObservedStamps(db, Upsert(d, r, d.epochs[h].generation, keepClass, now), r.pull, now);
      case RecheckQueued =>
        UpsertStamps(db, Touch(db, h, now), r.(reason := ScheduledRecheck), SharedGeneration(db, h), true, now);
      case ReconcileQueued => TriggerStamps(db, r, now);
      case _ =>
        SameStamps(db);
        ObservedStamps(db, db, r.pull, now);
    }
  }

  lemma BindStamps(db: Db, c: Claim, sha: string, now: Time)
    ensures Stamps(db, BindClaim(db, c, sha, now))
  {
  }

  lemma ReleaseStamps(db: Db, c: Claim, now: Time, delay: nat, refund: bool, revoke: bool)
    ensures Stamps(db, Release(db, c, now, delay, refund, revoke))
  {
  }

  ghost predicate KeepsStamp(db: Db, db': Db, k: PullKey)
    requires k in db'.jobs
  {
    && k in db.jobs && db'.jobs[k].id == db.jobs[k].id && db'.jobs[k].generation == db.jobs[k].generation
    && db'.jobs[k].authGen == db.jobs[k].authGen
  }

  /** Transactions that keep every row's identity, generation and stamp, or remove rows. */
  lemma QuietStamps(db: Db, db': Db)
    requires db'.authEpochs == db.authEpochs
    requires forall k :: k in db'.jobs ==> KeepsStamp(db, db', k)
    ensures Stamps(db, db')
  {
  }

  lemma ClaimStamps(db: Db, pull: PullKey, owner: Owner, until: Time)
    requires pull in db.jobs
    ensures Stamps(db, ClaimJob(db, pull, owner, until))
  {
  }
}
