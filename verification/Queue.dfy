/** Optional values, used wherever the service stores a nullable column. */
module Options {
  datatype Option<+T> = None | Some(value: T)
}

/**
 The durable queue: evaluation rows, exact-head epochs, authority fences and
 reconciliation states, with every store transaction as one total function from
 the old database to the new one.  Clock readings are arguments.
 */
module Queue {
  import opened Options

  type Time = nat
  // The durable lease owner of one logical worker slot.
  type Owner = nat

  datatype HeadKey = HeadKey(inst: nat, repo: string, sha: string)
  datatype PullKey = PullKey(inst: nat, repo: string, number: nat)
  datatype Lease = Lease(owner: Owner, until: Time)
  datatype WorkClass = Interactive | Recovery
  datatype Reason = ScheduledRecheck | PeriodicReconciliation | OtherReason(text: string)

  datatype Job = Job(
    id: nat, generation: nat, head: Option<string>, sharedGen: nat, authGen: nat,
    reason: Reason, workClass: WorkClass, attempts: nat,
    requestedAt: Time, availableAt: Time, lease: Option<Lease>)

  datatype Epoch = Epoch(
    generation: nat, invalidated: nat, changedAt: Time, availableAt: Time,
    attempts: nat, lease: Option<Lease>)

  datatype Recon = Recon(head: string, completedAt: Time, confirmedAt: Option<Time>, observedAt: Time)

  // scope None is the installation-wide "*" row.
  datatype Fence = Fence(inst: nat, scope: Option<string>)

  datatype Db = Db(
    jobs: map<PullKey, Job>, epochs: map<HeadKey, Epoch>, recon: map<PullKey, Recon>,
    fences: set<Fence>, authEpochs: map<nat, nat>, nextId: nat)

  datatype Request = Request(pull: PullKey, head: Option<string>, reason: Reason, workClass: WorkClass)

  datatype Claim = Claim(
    pull: PullKey, id: nat, generation: nat, head: Option<string>, sharedGen: nat, authGen: nat,
    reason: Reason, workClass: WorkClass, attempts: nat, requestedAt: Time, owner: Owner)
  {
    predicate KeepsPublishedCheck() {
      reason == ScheduledRecheck && attempts <= 1
    }
  }

  datatype InvalClaim = InvalClaim(head: HeadKey, generation: nat, attempts: nat, owner: Owner)

  function HeadOf(pull: PullKey, sha: string): HeadKey {
    HeadKey(pull.inst, pull.repo, sha)
  }

  // ---- Reads -------------------------------------------------------------

  function SharedGeneration(db: Db, h: HeadKey): nat {
    if h in db.epochs then db.epochs[h].generation else 0
  }

  function AuthGeneration(db: Db, inst: nat): nat {
    if inst in db.authEpochs then db.authEpochs[inst] else 0
  }

  /** A durable exact-head reset is still owed. */
  predicate Pending(db: Db, h: HeadKey) {
    h in db.epochs && db.epochs[h].invalidated < db.epochs[h].generation
  }

  predicate Blocked(db: Db, inst: nat, repo: string) {
    Fence(inst, None) in db.fences || Fence(inst, Some(repo)) in db.fences
  }

  predicate HasRow(db: Db, c: Claim) {
    c.pull in db.jobs && db.jobs[c.pull].id == c.id
  }

  /** The (id, generation, owner) fence shared by complete, fail, defer, bind and renew. */
  predicate HoldsClaim(db: Db, c: Claim) {
    && HasRow(db, c)
    && var r := db.jobs[c.pull];
       r.generation == c.generation && r.lease.Some? && r.lease.value.owner == c.owner
  }

  predicate IsCurrentClaim(db: Db, c: Claim, now: Time) {
    && HoldsClaim(db, c)
    && var r := db.jobs[c.pull];
    && r.authGen == c.authGen
    && AuthGeneration(db, c.pull.inst) == c.authGen
    && r.lease.value.until >= now
  }

  predicate SharedGenerationIsCurrent(db: Db, c: Claim, sha: string) {
    c.head == Some(sha) && SharedGeneration(db, HeadOf(c.pull, sha)) == c.sharedGen
  }

  predicate SharedGenerationIsPublishable(db: Db, c: Claim, sha: string) {
    && c.head == Some(sha)
    && var h := HeadOf(c.pull, sha);
       if h !in db.epochs then c.sharedGen == 0
       else db.epochs[h].generation == c.sharedGen && db.epochs[h].invalidated == c.sharedGen
  }

  predicate InvalidationIsPending(db: Db, h: HeadKey, generation: nat) {
    h in db.epochs && db.epochs[h].generation == generation && db.epochs[h].invalidated < generation
  }

  predicate HasSupersedingJob(db: Db, c: Claim) {
    HasRow(db, c) && db.jobs[c.pull].generation > c.generation
  }

  predicate OwnsInvalidation(db: Db, c: InvalClaim) {
    && InvalidationIsPending(db, c.head, c.generation)
    && db.epochs[c.head].lease.Some?
    && db.epochs[c.head].lease.value.owner == c.owner
  }

  predicate IsCurrentInvalidation(db: Db, c: InvalClaim, now: Time) {
    OwnsInvalidation(db, c) && db.epochs[c.head].lease.value.until >= now
  }

  predicate References(db: Db, pull: PullKey, h: HeadKey) {
    pull in db.jobs && db.jobs[pull].head.Some? && HeadOf(pull, db.jobs[pull].head.value) == h
  }

  // ---- Enqueueing --------------------------------------------------------

  function AdvancedEpoch(db: Db, h: HeadKey, now: Time): Epoch {
    if h in db.epochs then
      db.epochs[h].(generation := db.epochs[h].generation + 1,
                    changedAt := now, availableAt := now, attempts := 0, lease := None)
    else
      Epoch(1, 0, now, now, 0, None)
  }

  function Advance(db: Db, h: HeadKey, now: Time): Db {
    db.(epochs := db.epochs[h := AdvancedEpoch(db, h, now)])
  }

  function NewRow(db: Db, r: Request, sharedGen: nat, now: Time): Job {
    Job(db.nextId, 1, r.head, sharedGen, AuthGeneration(db, r.pull.inst), r.reason, r.workClass, 0,
        now, now, None)
  }

  function Coalesced(db: Db, row: Job, r: Request, sharedGen: nat, keepClass: bool, now: Time): Job {
    Job(row.id, row.generation + 1, r.head, sharedGen, AuthGeneration(db, r.pull.inst), r.reason,
        if keepClass && row.workClass == Interactive then Interactive else r.workClass, 0,
        now, now, None)
  }

  function Upsert(db: Db, r: Request, sharedGen: nat, keepClass: bool, now: Time): Db {
    if r.pull in db.jobs then
      db.(jobs := db.jobs[r.pull := Coalesced(db, db.jobs[r.pull], r, sharedGen, keepClass, now)])
    else
      db.(jobs := db.jobs[r.pull := NewRow(db, r, sharedGen, now)], nextId := db.nextId + 1)
  }

  function EnqueueSharedHeadTrigger(db: Db, r: Request, now: Time): Db
    requires r.head.Some?
  {
    var h := HeadOf(r.pull, r.head.value);
    var d := Advance(db, h, now);
    Upsert(d, r, d.epochs[h].generation, true, now)
  }

  function Enqueue(db: Db, r: Request, now: Time): Db {
    if r.head.Some? then EnqueueSharedHeadTrigger(db, r, now) else Upsert(db, r, 0, true, now)
  }

  datatype FanOutOutcome = BadGeneration | GenerationChanged | OtherHeadKept | Queued

  function FanOut(db: Db, r: Request, generation: nat): FanOutOutcome
    requires r.head.Some?
  {
    var h := HeadOf(r.pull, r.head.value);
    if generation == 0 then BadGeneration
    else if h !in db.epochs || db.epochs[h].generation != generation then GenerationChanged
    else if r.pull in db.jobs && db.jobs[r.pull].head.Some? && db.jobs[r.pull].head != r.head then
      OtherHeadKept
    else Queued
  }

  /** enqueue_for_shared_head_generation: bind to a still-current generation, never advance it. */
  function EnqueueForGeneration(db: Db, r: Request, generation: nat, now: Time): Db
    requires r.head.Some?
  {
    if FanOut(db, r, generation) == Queued then Upsert(db, r, generation, true, now) else db
  }

  function EnqueueIfAbsent(db: Db, r: Request, now: Time): Db {
    if r.pull in db.jobs then db else Enqueue(db, r, now)
  }

  datatype ReconcileOutcome =
    | SameHeadQueued | NewerDirectWork | HeadReplaced | RecentlyConfirmed | RecheckQueued | ReconcileQueued

  function ConfirmedAt(db: Db, r: Request): Option<Time> {
    if r.pull in db.recon && r.head == Some(db.recon[r.pull].head)
       && db.recon[r.pull].confirmedAt == Some(db.recon[r.pull].completedAt)
    then Some(db.recon[r.pull].completedAt)
    else None
  }

  function ReconcileDecision(db: Db, r: Request, observedAt: Time, recheckSeconds: nat, now: Time): ReconcileOutcome {
    if r.pull in db.jobs then
      var existing := db.jobs[r.pull];
      if existing.head == r.head then SameHeadQueued
      else if existing.workClass == Interactive && existing.requestedAt > observedAt then NewerDirectWork
      else HeadReplaced
    else match ConfirmedAt(db, r)
      case Some(at) => if at + recheckSeconds > now then RecentlyConfirmed else RecheckQueued
      case None => ReconcileQueued
  }

  function Observed(db: Db, pull: PullKey, now: Time): Db {
    if pull in db.recon then db.(recon := db.recon[pull := db.recon[pull].(observedAt := now)]) else db
  }

  function Touch(db: Db, h: HeadKey, now: Time): Db {
    if h in db.epochs then db.(epochs := db.epochs[h := db.epochs[h].(changedAt := now)]) else db
  }

  function EnqueueReconciliationIfDue(db: Db, r: Request, observedAt: Time, recheckSeconds: nat, now: Time): Db
    requires r.head.Some?
  {
    var h := HeadOf(r.pull, r.head.value);
    match ReconcileDecision(db, r, observedAt, recheckSeconds, now)
    case SameHeadQueued => Observed(db, r.pull, now)
    case NewerDirectWork => Observed(db, r.pull, now)
    case RecentlyConfirmed => Observed(db, r.pull, now)
    case HeadReplaced =>
      var d := Advance(db, h, now);
      Observed(Upsert(d, r, d.epochs[h].generation, db.jobs[r.pull].workClass != Interactive, now), r.pull, now)
    case RecheckQueued =>
      Upsert(Touch(db, h, now), r.(reason := ScheduledRecheck), SharedGeneration(db, h), true, now)
    case ReconcileQueued =>
      EnqueueSharedHeadTrigger(db, r, now)
  }

  // ---- Evaluation claims -------------------------------------------------

  predicate LeaseFree(lease: Option<Lease>, now: Time) {
    lease.None? || lease.value.until < now
  }

  predicate CanClaim(db: Db, pull: PullKey, now: Time) {
    && pull in db.jobs
    && db.jobs[pull].availableAt <= now
    && LeaseFree(db.jobs[pull].lease, now)
    && !Blocked(db, pull.inst, pull.repo)
  }

  /** Reclaiming an expired lease bumps the generation and so fences the previous worker. */
  function ClaimedRow(row: Job, owner: Owner, until: Time): Job {
    row.(lease := Some(Lease(owner, until)), attempts := row.attempts + 1,
         generation := if row.lease.Some? then row.generation + 1 else row.generation)
  }

  function ClaimView(pull: PullKey, row: Job, owner: Owner): Claim {
    Claim(pull, row.id, row.generation, row.head, row.sharedGen, row.authGen, row.reason, row.workClass,
          row.attempts, row.requestedAt, owner)
  }

  function ClaimJob(db: Db, pull: PullKey, owner: Owner, until: Time): Db
    requires pull in db.jobs
  {
    db.(jobs := db.jobs[pull := ClaimedRow(db.jobs[pull], owner, until)])
  }

  function RenewClaim(db: Db, c: Claim, until: Time): Db {
    if HoldsClaim(db, c) then
      db.(jobs := db.jobs[c.pull := db.jobs[c.pull].(lease := Some(Lease(c.owner, until)))])
    else db
  }

  predicate CanBind(db: Db, c: Claim) {
    HoldsClaim(db, c) && db.jobs[c.pull].head == None
  }

  /** bind_claim_to_head for a hintless claim; a lost binding rolls the epoch advance back. */
  function BindClaim(db: Db, c: Claim, sha: string, now: Time): Db {
    if CanBind(db, c) then
      var h := HeadOf(c.pull, sha);
      var d := Advance(db, h, now);
      d.(jobs := d.jobs[c.pull := d.jobs[c.pull].(head := Some(sha), sharedGen := d.epochs[h].generation)])
    else db
  }

  function Complete(db: Db, c: Claim, now: Time): Db {
    if !HoldsClaim(db, c) then db
    else
      var row := db.jobs[c.pull];
      var d := db.(jobs := db.jobs - {c.pull});
      if row.head.Some? then
        d.(recon := d.recon[c.pull := Recon(row.head.value, now, Some(now), now)])
      else d
  }

  /** fail and defer: release the claim, optionally ending a scheduled recheck in the same transaction. */
  function Release(db: Db, c: Claim, now: Time, delay: nat, refund: bool, revoke: bool): Db {
    if !HoldsClaim(db, c) then db
    else
      var row := db.jobs[c.pull];
      var released := row.(
        attempts := if refund && row.attempts > 0 then row.attempts - 1 else row.attempts,
        availableAt := now + delay, lease := None);
      if revoke && c.reason == ScheduledRecheck && c.head.Some? then
        var h := HeadOf(c.pull, c.head.value);
        var d := Advance(db, h, now);
        d.(jobs := d.jobs[c.pull := released.(reason := PeriodicReconciliation,
                                              sharedGen := d.epochs[h].generation)])
      else
        db.(jobs := db.jobs[c.pull := released])
  }

  function Fail(db: Db, c: Claim, now: Time, delay: nat): Db {
    Release(db, c, now, delay, false, true)
  }

  function ClampedDelay(delay: nat): nat {
    if delay < 1 then 1 else if delay > 86400 then 86400 else delay
  }

  predicate PastRecheckLimit(c: Claim, now: Time, delay: nat, limit: Option<nat>) {
    limit.Some? && now + ClampedDelay(delay) > c.requestedAt + limit.value
  }

  function Defer(db: Db, c: Claim, now: Time, delay: nat, limit: Option<nat>): Db {
    Release(db, c, now, ClampedDelay(delay), true, PastRecheckLimit(c, now, delay, limit))
  }

  // ---- Exact-head invalidation -------------------------------------------

  predicate CanClaimInvalidation(db: Db, h: HeadKey, now: Time) {
    Pending(db, h) && db.epochs[h].availableAt <= now && LeaseFree(db.epochs[h].lease, now)
  }

  function ClaimInvalidation(db: Db, h: HeadKey, owner: Owner, until: Time): Db
    requires h in db.epochs
  {
    db.(epochs := db.epochs[h := db.epochs[h].(lease := Some(Lease(owner, until)),
                                               attempts := db.epochs[h].attempts + 1)])
  }

  function RenewInvalidation(db: Db, c: InvalClaim, now: Time, until: Time): Db {
    if IsCurrentInvalidation(db, c, now) then
      db.(epochs := db.epochs[c.head := db.epochs[c.head].(lease := Some(Lease(c.owner, until)))])
    else db
  }

  function CompleteInvalidation(db: Db, c: InvalClaim, now: Time): Db {
    if IsCurrentInvalidation(db, c, now) then
      db.(epochs := db.epochs[c.head := db.epochs[c.head].(invalidated := c.generation, lease := None)])
    else db
  }

  /** fail_shared_head_invalidation, and defer_shared_head_invalidation with refund. */
  function ReleaseInvalidation(db: Db, c: InvalClaim, now: Time, delay: nat, refund: bool): Db {
    if IsCurrentInvalidation(db, c, now) then
      var e := db.epochs[c.head];
      db.(epochs := db.epochs[c.head := e.(
            attempts := if refund && e.attempts > 0 then e.attempts - 1 else e.attempts,
            availableAt := now + delay, lease := None)])
    else db
  }

  predicate Prunable(db: Db, h: HeadKey, olderThan: Time) {
    && h in db.epochs
    && db.epochs[h].changedAt < olderThan
    && db.epochs[h].invalidated == db.epochs[h].generation
    && db.epochs[h].lease.None?
    && forall pull :: pull in db.jobs ==> !References(db, pull, h)
  }

  function PruneSharedHeadEpochs(db: Db, olderThan: Time): Db {
    db.(epochs := map h | h in db.epochs && !Prunable(db, h, olderThan) :: db.epochs[h])
  }

  // ---- Authority rows, as presence only ----------------------------------

  function AcceptAuthority(db: Db, inst: nat, scope: Option<string>): Db {
    db.(fences := db.fences + {Fence(inst, scope)},
        authEpochs := if scope.None? then db.authEpochs[inst := AuthGeneration(db, inst) + 1] else db.authEpochs)
  }

  function AddChildFences(db: Db, inst: nat, repos: set<string>): Db {
    if Fence(inst, None) in db.fences then
      db.(fences := db.fences + set r | r in repos :: Fence(inst, Some(r)))
    else db
  }

  function CompleteFence(db: Db, f: Fence): Db {
    db.(fences := db.fences - {f})
  }
}
