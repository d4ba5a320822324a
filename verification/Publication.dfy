/**
 The check-publication protocol as a state machine.  Every store transaction,
 every GitHub read or write and every guard acquisition of evaluate_job,
 invalidate_shared_head, invalidate_for_trigger and _finish_closed_pull_check is
 one atomic step, steps of different workers interleave freely, and a worker can
 raise or crash between any two steps.
 */
module Publication {
  import opened Options
  import opened Queue

  type Pid = Owner

  /** What GitHub shows for this App's check on one commit. */
  datatype Check =
    | Absent
    | Blocking
    | Cancelled
    | Done(success: bool, evidence: nat, version: nat)

  /**
   Bookkeeping that no code reads.  It is computed from the database before and
   after each transaction: `trig(h)` is the serial of the last transaction that
   advanced (or created) head h's epoch, that is, the last accepted trigger for h.
   */
  datatype Hist = Hist(
    serial: nat,
    trig: HeadKey -> nat,
    waived: HeadKey -> nat,     // trig(h) when a guarded invalidator last saw no open pull at h
    bound: PullKey -> nat,      // when the row took its present (head, shared generation)
    upserted: PullKey -> nat,   // when a trigger for the pull request was last accepted
    lost: PullKey -> nat)       // expired leases reclaimed since the row was inserted

  datatype EvalPc =
    | Start | Bound
    | RevokeGuarded | RevokeClaimOk | RevokeCurrent | RevokeStale | RevokeRebind(current: nat)
    | Revoked | Invalidated | Ready | Collecting | Evaluated
    | Shared | Guarded | ClaimOk | VersionOk | Unfenced | Unique | Current | Cleared
    | Wrote | WroteClaimOk | Restoring(raising: bool)
    | Tail | TailContended | TailGuarded | TailConfirmed
    | Closing | ClosingGuarded
    | Returning | Raising

  datatype InvalPc =
    | IStart | IGuarded | ILook | IAbsent | IPresent | IFound
    | IPulls(open: bool) | IDecide(open: bool) | IPast | IFan | IGone | IRaising

  datatype FastPc = FStart | FGuarded | FPending | FLooked | FReady

  datatype Proc =
    | Idle
    | Eval(job: Claim, pc: EvalPc, sha: string, success: bool,
           evidence: nat, seen: nat, bound: nat, claimedAt: nat)
    | Inval(claim: InvalClaim, ipc: InvalPc)
    | Fast(fastHead: HeadKey, token: nat, fpc: FastPc)
    | Revoker(revokeHead: HeadKey, held: bool)

  datatype State = State(
    now: Time, db: Db, reg: map<HeadKey, Check>, procs: map<Pid, Proc>, hist: Hist)

  // ---- History as an observer of transactions -----------------------------

  predicate Advanced(db: Db, db': Db, h: HeadKey) {
    h in db'.epochs && (h !in db.epochs || db.epochs[h].generation != db'.epochs[h].generation)
  }

  predicate Inserted(db: Db, db': Db, pull: PullKey) {
    pull in db'.jobs && (pull !in db.jobs || db.jobs[pull].id != db'.jobs[pull].id)
  }

  predicate Rebound(db: Db, db': Db, pull: PullKey) {
    Inserted(db, db', pull)
    || (pull in db'.jobs && (db.jobs[pull].head != db'.jobs[pull].head
                             || db.jobs[pull].sharedGen != db'.jobs[pull].sharedGen))
  }

  predicate Superseded(db: Db, db': Db, pull: PullKey) {
    && pull in db.jobs && pull in db'.jobs
    && db.jobs[pull].generation < db'.jobs[pull].generation
  }

  function Observe(hist: Hist, db: Db, db': Db): Hist {
    var n := hist.serial + 1;
    Hist(n,
         (h: HeadKey) => if Advanced(db, db', h) then n else hist.trig(h),
         hist.waived,
         (k: PullKey) => if Rebound(db, db', k) then n else hist.bound(k),
         (k: PullKey) => if Inserted(db, db', k) || (Superseded(db, db', k) && db'.jobs[k].lease.None?)
                         then n else hist.upserted(k),
         (k: PullKey) => if Inserted(db, db', k) then 0
                         else if Superseded(db, db', k) && db.jobs[k].lease.Some? && db'.jobs[k].lease.Some?
                         then hist.lost(k) + 1 else hist.lost(k))
  }

  // ---- State access --------------------------------------------------------

  function ProcAt(s: State, p: Pid): Proc {
    if p in s.procs then s.procs[p] else Idle
  }

  function Shown(s: State, h: HeadKey): Check {
    if h in s.reg then s.reg[h] else Absent
  }

  function SetProc(s: State, p: Pid, proc: Proc): State {
    s.(procs := s.procs[p := proc])
  }

  function Commit(s: State, db': Db): State {
    s.(db := db', hist := Observe(s.hist, s.db, db'))
  }

  function EvalHead(e: Proc): HeadKey
    requires e.Eval?
  {
    HeadOf(e.job.pull, e.sha)
  }

  // ---- Guards ----------------------------------------------------------------

  /** Writer guards are keyed by installation and commit, not by repository. */
  datatype GuardKey = GuardKey(inst: nat, sha: string)

  function KeyOf(h: HeadKey): GuardKey {
    GuardKey(h.inst, h.sha)
  }

  predicate EvalHoldsWriter(pc: EvalPc) {
    match pc
    case RevokeGuarded | RevokeClaimOk | RevokeCurrent | RevokeStale | RevokeRebind(_) => true
    case Guarded | ClaimOk | VersionOk | Unfenced | Unique | Current | Cleared => true
    case Wrote | WroteClaimOk | Restoring(_) | TailGuarded | TailConfirmed | ClosingGuarded => true
    case _ => false
  }

  predicate InvalHoldsWriter(pc: InvalPc) {
    match pc
    case IGuarded | ILook | IAbsent | IPresent | IFound | IPulls(_) | IDecide(_) => true
    case _ => false
  }

  function WriterGuard(proc: Proc): Option<GuardKey> {
    match proc
    case Idle => None
    case Eval(_, pc, _, _, _, _, _, _) => if EvalHoldsWriter(pc) then Some(KeyOf(EvalHead(proc))) else None
    case Inval(c, pc) => if InvalHoldsWriter(pc) then Some(KeyOf(c.head)) else None
    case Fast(h, _, pc) => if pc != FStart then Some(KeyOf(h)) else None
    case Revoker(h, held) => if held then Some(KeyOf(h)) else None
  }

  predicate EvidenceTaken(pc: EvalPc) {
    match pc
    case Collecting | Evaluated | Shared | Guarded | ClaimOk | VersionOk | Unfenced | Unique | Current | Cleared => true
    case _ => false
  }

  /** The shared side of the installation authority guard. */
  predicate HoldsShared(proc: Proc, inst: nat) {
    && proc.Eval? && proc.job.pull.inst == inst
    && match proc.pc
       case Shared | Guarded | ClaimOk | VersionOk | Unfenced | Unique | Current | Cleared => true
       case Wrote | WroteClaimOk | Restoring(_) | Tail | TailContended | TailGuarded | TailConfirmed => true
       case _ => false
  }

  /** p may continue as proc: whatever writer guard that needs is held by nobody else. */
  predicate GuardFree(s: State, p: Pid, proc: Proc) {
    WriterGuard(proc).Some? ==>
      forall q :: q in s.procs && q != p ==> WriterGuard(s.procs[q]) != WriterGuard(proc)
  }

  // ---- Moves of one worker ---------------------------------------------------

  datatype Move =
    | BeginFast(head: HeadKey, token: nat) | BeginRevoke(head: HeadKey)
    | GiveUp | SeeClosed(sha: string) | KeepHead(sha: string)
    | Acquire | Inspect | Conclude(success: bool) | SeeUnique(unique: bool) | EnterShared | LeaveClosed
    | Raise | Crash

  function EvalCheck(s: State, e: Proc): Option<Proc>
    requires e.Eval?
  {
    var current := IsCurrentClaim(s.db, e.job, s.now);
    var publishable := SharedGenerationIsPublishable(s.db, e.job, e.sha);
    var blocked := Blocked(s.db, e.job.pull.inst, e.job.pull.repo);
    match e.pc
    case RevokeGuarded => Some(e.(pc := if current then RevokeClaimOk else Returning))
    case RevokeClaimOk =>
      Some(e.(pc := if SharedGenerationIsCurrent(s.db, e.job, e.sha) then RevokeCurrent else RevokeStale))
    case RevokeStale => Some(e.(pc := RevokeRebind(SharedGeneration(s.db, EvalHead(e)))))
    case RevokeCurrent => if e.job.KeepsPublishedCheck() then Some(e.(pc := Revoked)) else None
    case Revoked => Some(e.(pc := if publishable then Invalidated else Raising))
    case Invalidated => Some(e.(pc := if blocked then Raising else Ready))
    case Ready => Some(e.(pc := Collecting, evidence := s.hist.serial))
    case Guarded => Some(e.(pc := if current then ClaimOk else Returning))
    case ClaimOk => Some(e.(pc := if publishable then VersionOk else Returning))
    case VersionOk => Some(e.(pc := if blocked then Raising else Unfenced))
    case Unique =>
      Some(if publishable then e.(pc := Current, seen := s.hist.trig(EvalHead(e))) else e.(pc := Returning))
    case Current => Some(e.(pc := if current then Cleared else Returning))
    case Wrote => Some(e.(pc := if current then WroteClaimOk else Restoring(false)))
    case WroteClaimOk => Some(e.(pc := if publishable then Tail else Restoring(false)))
    case Tail => Some(e.(pc := if HasSupersedingJob(s.db, e.job) || blocked then TailContended else Returning))
    case TailGuarded => Some(e.(pc := if HasSupersedingJob(s.db, e.job) || blocked then TailConfirmed else Returning))
    case _ => None
  }

  function EvalAcquire(pc: EvalPc): Option<EvalPc> {
    match pc
    case Bound => Some(RevokeGuarded)
    case Shared => Some(Guarded)
    case TailContended => Some(TailGuarded)
    case Closing => Some(ClosingGuarded)
    case _ => None
  }

  function EvalLocal(s: State, e: Proc, m: Move): Option<Proc>
    requires e.Eval?
  {
    match m
    case GiveUp => if e.pc == Start || e.pc == Bound then Some(e.(pc := Returning)) else None
    case SeeClosed(sha) =>
      if e.pc == Start then
        Some(e.(pc := Closing, sha := if e.job.head.Some? then e.job.head.value else sha))
      else if e.pc == Evaluated then Some(e.(pc := Closing))
      else None
    case KeepHead(sha) =>
      if e.pc == Start && e.job.head == Some(sha) then Some(e.(pc := Bound, sha := sha)) else None
    case Acquire => (match EvalAcquire(e.pc) case Some(pc') => Some(e.(pc := pc')) case None => None)
    case Inspect => EvalCheck(s, e)
    case Conclude(success) => if e.pc == Collecting then Some(e.(pc := Evaluated, success := success)) else None
    case SeeUnique(unique) => if e.pc == Unfenced then Some(e.(pc := Unique, success := e.success && unique)) else None
    case EnterShared => if e.pc == Evaluated then Some(e.(pc := Shared)) else None
    case LeaveClosed => if e.pc == ClosingGuarded then Some(e.(pc := Returning)) else None
    case Raise => Some(e.(pc := Raising))
    case Crash => Some(Idle)
    case _ => None
  }

  function InvalLocal(s: State, i: Proc, m: Move): Option<Proc>
    requires i.Inval?
  {
    var current := IsCurrentInvalidation(s.db, i.claim, s.now);
    match m
    case Acquire => if i.ipc == IStart then Some(i.(ipc := IGuarded)) else None
    case Inspect => (
      match i.ipc
      case IGuarded => Some(i.(ipc := if current then ILook else IGone))
      case ILook => Some(i.(ipc := if Shown(s, i.claim.head) == Absent then IAbsent else IPresent))
      case IAbsent => Some(i.(ipc := if current then IPast else IGone))
      case IPresent => Some(i.(ipc := if current then IFound else IGone))
      case IPulls(open) => Some(i.(ipc := if current then IDecide(open) else IGone))
      case IDecide(open) => if open then None else Some(i.(ipc := IPast))
      case IPast => Some(i.(ipc := if current then IFan else IGone))
      case _ => None)
    case Raise => Some(i.(ipc := IRaising))
    case Crash => Some(Idle)
    case _ => None
  }

  function FastLocal(s: State, f: Proc, m: Move): Option<Proc>
    requires f.Fast?
  {
    var pending := InvalidationIsPending(s.db, f.fastHead, f.token);
    match m
    case Acquire => if f.fpc == FStart then Some(f.(fpc := FGuarded)) else None
    case Inspect => (
      match f.fpc
      case FGuarded => Some(if pending then f.(fpc := FPending) else Idle)
      case FPending => Some(f.(fpc := FLooked))
      case FLooked => Some(if pending then f.(fpc := FReady) else Idle)
      case _ => None)
    case Crash => Some(Idle)
    case _ => None
  }

  /** Steps that change only the worker itself. */
  function LocalMove(s: State, p: Pid, m: Move): Option<Proc> {
    match ProcAt(s, p)
    case Idle => (
      match m
      case BeginFast(h, token) => Some(Fast(h, token, FStart))
      case BeginRevoke(h) => Some(Revoker(h, false))
      case _ => None)
    case Eval(_, _, _, _, _, _, _, _) => EvalLocal(s, ProcAt(s, p), m)
    case Inval(_, _) => InvalLocal(s, ProcAt(s, p), m)
    case Fast(_, _, _) => FastLocal(s, ProcAt(s, p), m)
    case Revoker(h, held) => (
      match m
      case Acquire => if held then None else Some(Revoker(h, true))
      case Crash => Some(Idle)
      case _ => None)
  }

  datatype StoreCall =
    | BeginEval(pull: PullKey, until: Time) | BeginInval(head: HeadKey, until: Time)
    | Renew(until: Time) | SeeNewHead(sha: string) | BindHead(sha: string) | Rebind
    | FanTo(number: nat) | Finish | FailWith(delay: nat) | DeferWith(delay: nat, limit: Option<nat>)

  function WorkerRequest(pull: PullKey, sha: string, workClass: WorkClass): Request {
    Request(pull, Some(sha), OtherReason("worker"), workClass)
  }

  /** A store transaction issued by an evaluation worker: the new database and the new worker state. */
  function EvalStore(s: State, e: Proc, m: StoreCall): Option<(Db, Proc)>
    requires e.Eval?
  {
    match m
    case Renew(until) => Some((RenewClaim(s.db, e.job, until), e))
    case SeeNewHead(sha) =>
      // The live head differs before binding, or anything observed changed during evaluation.
      if (e.pc == Start && e.job.head.Some? && e.job.head.value != sha) || e.pc == Evaluated then
        Some((EnqueueSharedHeadTrigger(s.db, WorkerRequest(e.job.pull, sha, e.job.workClass), s.now),
              e.(pc := Returning)))
      else None
    case BindHead(sha) =>
      if e.pc == Start && e.job.head.None? then
        var d := BindClaim(s.db, e.job, sha, s.now);
        Some((d, if CanBind(s.db, e.job)
                 then e.(pc := Bound, sha := sha, bound := s.hist.serial + 1,
                         job := e.job.(head := Some(sha), sharedGen := d.jobs[e.job.pull].sharedGen))
                 else e.(pc := Returning)))
      else None
    case Rebind =>
      if e.pc.RevokeRebind? then
        var r := WorkerRequest(e.job.pull, e.sha, e.job.workClass);
        var outcome := FanOut(s.db, r, e.pc.current);
        Some((EnqueueForGeneration(s.db, r, e.pc.current, s.now),
              e.(pc := if outcome == Queued || outcome == OtherHeadKept then Returning else Raising)))
      else None
    case Finish => if e.pc == Returning then Some((Complete(s.db, e.job, s.now), Idle)) else None
    case FailWith(delay) => if e.pc == Raising then Some((Fail(s.db, e.job, s.now, delay), Idle)) else None
    case DeferWith(delay, limit) =>
      if e.pc == Raising then Some((Defer(s.db, e.job, s.now, delay, limit), Idle)) else None
    case _ => None
  }

  function InvalStore(s: State, i: Proc, m: StoreCall): Option<(Db, Proc)>
    requires i.Inval?
  {
    match m
    case Renew(until) => Some((RenewInvalidation(s.db, i.claim, s.now, until), i))
    case FanTo(number) =>
      if i.ipc == IFan then
        var h := i.claim.head;
        var r := WorkerRequest(PullKey(h.inst, h.repo, number), h.sha, Recovery);
        var outcome := FanOut(s.db, r, i.claim.generation);
        Some((EnqueueForGeneration(s.db, r, i.claim.generation, s.now),
              i.(ipc := if outcome == Queued || outcome == OtherHeadKept then IPast else IGone)))
      else None
    case Finish => if i.ipc == IPast then Some((CompleteInvalidation(s.db, i.claim, s.now), Idle)) else None
    case FailWith(delay) =>
      if i.ipc == IRaising then Some((ReleaseInvalidation(s.db, i.claim, s.now, delay, false), Idle)) else None
    case DeferWith(delay, _) =>
      if i.ipc == IRaising then Some((ReleaseInvalidation(s.db, i.claim, s.now, delay, true), Idle)) else None
    case _ => None
  }

  function StoreMove(s: State, p: Pid, m: StoreCall): Option<(Db, Proc)> {
    match ProcAt(s, p)
    case Idle => (
      match m
      case BeginEval(pull, until) =>
        if CanClaim(s.db, pull, s.now) then
          var d := ClaimJob(s.db, pull, p, until);
          Some((d, Eval(ClaimView(pull, d.jobs[pull], p), Start, "", false, 0, 0,
                        s.hist.bound(pull), s.hist.serial + 1)))
        else None
      case BeginInval(h, until) =>
        if CanClaimInvalidation(s.db, h, s.now) then
          var d := ClaimInvalidation(s.db, h, p, until);
          Some((d, Inval(InvalClaim(h, d.epochs[h].generation, d.epochs[h].attempts, p), IStart)))
        else None
      case _ => None)
    case Eval(_, _, _, _, _, _, _, _) => EvalStore(s, ProcAt(s, p), m)
    case Inval(_, _) => InvalStore(s, ProcAt(s, p), m)
    case _ => None
  }

  datatype CheckWrite = CheckWrite(head: HeadKey, check: Check, acknowledged: Proc, uncertain: Proc)

  /** The one check write a worker is about to make, with its continuations. */
  function PendingWrite(s: State, p: Pid): Option<CheckWrite> {
    var proc := ProcAt(s, p);
    match proc
    case Eval(job, pc, _, success, evidence, seen, _, _) => (
      var h := EvalHead(proc);
      match pc
      case RevokeCurrent =>
        if job.KeepsPublishedCheck() then None
        else Some(CheckWrite(h, Blocking, proc.(pc := Revoked), proc.(pc := Raising)))
      case Cleared =>
        Some(CheckWrite(h, Done(success, evidence, seen), proc.(pc := Wrote), proc.(pc := Restoring(true))))
      case Restoring(raising) =>
        var after := proc.(pc := if raising then Raising else Returning);
        Some(CheckWrite(h, Blocking, after, after))
      case TailConfirmed =>
        // An authority change raises after the write; a plain supersession returns.
        Some(CheckWrite(h, Blocking,
          proc.(pc := if Blocked(s.db, job.pull.inst, job.pull.repo) then Raising else Returning),
          proc.(pc := Raising)))
      case ClosingGuarded =>
        if Shown(s, h) == Blocking
        then Some(CheckWrite(h, Cancelled, proc.(pc := Returning), proc.(pc := Raising)))
        else None
      case _ => None)
    case Inval(c, pc) =>
      if pc == IDecide(true)
      then Some(CheckWrite(c.head, Blocking, proc.(ipc := IPast), proc.(ipc := IRaising)))
      else None
    case Fast(h, _, pc) => if pc == FReady then Some(CheckWrite(h, Blocking, Idle, Idle)) else None
    case Revoker(h, held) => if held then Some(CheckWrite(h, Blocking, Idle, Idle)) else None
    case Idle => None
  }

  // ---- Transactions from outside the modelled workers -----------------------

  datatype ClientTx =
    | ClientEnqueue(r: Request) | ClientIfAbsent(r: Request)
    | ClientReconcile(r: Request, observedAt: Time, recheckSeconds: nat)
    | ClientPrune(olderThan: Time)
    | ClientAuthority(inst: nat, scope: Option<string>)
    | ClientChildren(inst: nat, repos: set<string>)
    | ClientFenceDone(fence: Fence)

  predicate ClientEnabled(s: State, t: ClientTx) {
    match t
    case ClientEnqueue(r) => r.reason != ScheduledRecheck
    case ClientIfAbsent(r) => r.reason != ScheduledRecheck
    case ClientReconcile(r, _, _) => r.reason != ScheduledRecheck && r.head.Some?
    // Acceptance holds the authority guard exclusively.
    case ClientAuthority(inst, _) => forall q :: q in s.procs ==> !HoldsShared(s.procs[q], inst)
    case _ => true
  }

  function ClientApply(s: State, t: ClientTx): Db
    requires ClientEnabled(s, t)
  {
    match t
    case ClientEnqueue(r) => Enqueue(s.db, r, s.now)
    case ClientIfAbsent(r) => EnqueueIfAbsent(s.db, r, s.now)
    case ClientReconcile(r, observedAt, recheck) =>
      EnqueueReconciliationIfDue(s.db, r, observedAt, recheck, s.now)
    case ClientPrune(olderThan) => PruneSharedHeadEpochs(s.db, olderThan)
    case ClientAuthority(inst, scope) => AcceptAuthority(s.db, inst, scope)
    case ClientChildren(inst, repos) => AddChildFences(s.db, inst, repos)
    case ClientFenceDone(f) => CompleteFence(s.db, f)
  }

  // ---- The machine -----------------------------------------------------------

  datatype Step =
    | Tick(d: nat)
    | Client(tx: ClientTx)
    | Local(p: Pid, move: Move)
    | Store(p: Pid, call: StoreCall)
    | Write(p: Pid, applied: bool, acknowledged: bool)
    | SeePulls(p: Pid, open: bool)

  function Waive(hist: Hist, h: HeadKey): Hist {
    Hist(hist.serial, hist.trig, (k: HeadKey) => if k == h then hist.trig(h) else hist.waived(k),
         hist.bound, hist.upserted, hist.lost)
  }

  function Apply(s: State, step: Step): Option<State> {
    match step
    case Tick(d) => Some(s.(now := s.now + d))
    case Client(tx) => if ClientEnabled(s, tx) then Some(Commit(s, ClientApply(s, tx))) else None
    case Local(p, m) => (
      match LocalMove(s, p, m)
      case Some(proc) => if GuardFree(s, p, proc) then Some(SetProc(s, p, proc)) else None
      case None => None)
    case Store(p, m) => (
      match StoreMove(s, p, m)
      case Some(result) => Some(SetProc(Commit(s, result.0), p, result.1))
      case None => None)
    case Write(p, applied, acknowledged) => (
      match PendingWrite(s, p)
      case Some(w) =>
        // An acknowledged write took effect; an unacknowledged one may or may not have.
        if acknowledged && !applied then None
        else Some(SetProc(if applied then s.(reg := s.reg[w.head := w.check]) else s,
                          p, if acknowledged then w.acknowledged else w.uncertain))
      case None => None)
    case SeePulls(p, open) =>
      var i := ProcAt(s, p);
      if i.Inval? && i.ipc == IFound then
        Some(SetProc(if open then s else s.(hist := Waive(s.hist, i.claim.head)), p, i.(ipc := IPulls(open))))
      else None
  }

  function Initial(): State {
    State(0, Db(map[], map[], map[], {}, map[], 0), map[], map[],
          Hist(0, (h: HeadKey) => 0, (h: HeadKey) => 0, (k: PullKey) => 0, (k: PullKey) => 0, (k: PullKey) => 0))
  }

  function Run(steps: seq<Step>): Option<State> {
    if steps == [] then Some(Initial())
    else match Run(steps[..|steps| - 1])
      case Some(s) => Apply(s, steps[|steps| - 1])
      case None => None
  }

  ghost predicate Reachable(s: State) {
    exists steps :: Run(steps) == Some(s)
  }
}
