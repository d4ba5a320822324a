/**
 What a step may do to the check shown at a commit: who may change it, what replaces
 what, and that a shown result is never cancelled.
 */
module PublicationChecks {
  import opened Options
  import opened Queue
  import opened QueueFacts
  import opened Publication
  import opened PublicationInvariant
  import opened PublicationSafety
  import opened PublicationTheorems

  /** Only the holder of a head's writer guard changes what is shown there. */
  lemma OnlyGuardHoldersWrite(s: State, step: Step, h: HeadKey)
    requires Apply(s, step).Some? && Shown(Apply(s, step).value, h) != Shown(s, h)
    ensures step.Write? && step.applied && WriterGuard(ProcAt(s, step.p)) == Some(KeyOf(h))
  {
    WriterHolds(s, step.p);
  }

  /** So what a guard holder has seen at its head stays shown there until its own next write. */
  lemma SeenUntilOwnWrite(s: State, step: Step, p: Pid, h: HeadKey)
    requires Reachable(s) && Apply(s, step).Some? && WriterGuard(ProcAt(s, p)) == Some(KeyOf(h))
    requires !(step.Write? && step.p == p)
    ensures Shown(Apply(s, step).value, h) == Shown(s, h)
  {
    ReachableInv(s);
    if Shown(Apply(s, step).value, h) != Shown(s, h) { OnlyGuardHoldersWrite(s, step, h); }
  }

  /** A shown result gives way only to another result or to a blocking check: it is never cancelled, and never removed. */
  lemma ResultsAreNotCancelled(s: State, step: Step, h: HeadKey)
    requires Apply(s, step).Some? && Shown(s, h).Done?
    ensures Shown(Apply(s, step).value, h).Done? || Shown(Apply(s, step).value, h) == Blocking
  {
  }

  /**
   Closing a pull request rewrites nothing but a blocking check, which it cancels: a
   worker in the closing section can write exactly while a blocking check is shown.
   */
  lemma ClosingCancelsOnlyBlocking(s: State, p: Pid, applied: bool, acknowledged: bool)
    requires ProcAt(s, p).Eval? && ProcAt(s, p).pc == ClosingGuarded && (acknowledged ==> applied)
    ensures var h, result := EvalHead(ProcAt(s, p)), Apply(s, Write(p, applied, acknowledged));
            && (result.Some? <==> Shown(s, h) == Blocking)
            && (result.Some? ==> Shown(result.value, h) == if applied then Cancelled else Blocking)
  {
  }

  /** No step of a worker that finishes a closed pull request changes a shown result, at any head. */
  lemma ClosingKeepsResults(s: State, step: Step, p: Pid, h: HeadKey)
    requires Apply(s, step).Some? && ProcAt(s, p).Eval?
    requires ProcAt(s, p).pc == Closing || ProcAt(s, p).pc == ClosingGuarded
    requires (step.Local? || step.Store? || step.Write?) && step.p == p && Shown(s, h).Done?
    ensures Shown(Apply(s, step).value, h) == Shown(s, h)
  {
  }

  /** A worker revokes the shown check before it evaluates, unless its job is a recheck that has not lost a lease. */
  lemma RevokesUnlessKept(s: State, p: Pid)
    requires ProcAt(s, p).Eval? && ProcAt(s, p).pc == RevokeCurrent
    ensures var e := ProcAt(s, p);
            if e.job.reason == ScheduledRecheck && e.job.attempts <= 1
            then Apply(s, Write(p, true, true)).None? && LocalMove(s, p, Inspect) == Some(e.(pc := Revoked))
            else && LocalMove(s, p, Inspect).None? && Apply(s, Write(p, true, true)).Some?
                 && Shown(Apply(s, Write(p, true, true)).value, EvalHead(e)) == Blocking
  {
  }

  /** Whatever else happens, a recheck that has not lost a lease shows nothing new before its own result. */
  lemma KeptCheckStays(s: State, step: Step, p: Pid, h: HeadKey)
    requires Apply(s, step).Some? && ProcAt(s, p).Eval?
    requires ProcAt(s, p).job.reason == ScheduledRecheck && ProcAt(s, p).job.attempts <= 1
    requires var pc := ProcAt(s, p).pc;
             || EvidenceTaken(pc)
             || pc in {Start, Bound, RevokeGuarded, RevokeClaimOk, RevokeCurrent, Revoked, Invalidated, Ready}
    requires (step.Local? || step.Store? || step.Write?) && step.p == p
    ensures Shown(Apply(s, step).value, h) != Shown(s, h) ==>
              ProcAt(s, p).pc == Cleared && h == EvalHead(ProcAt(s, p)) && Shown(Apply(s, step).value, h).Done?
  {
  }

  /** After a write of its own result a worker that cannot confirm it writes a blocking check over it. */
  lemma RestoringBlocks(s: State, p: Pid)
    requires ProcAt(s, p).Eval? && (ProcAt(s, p).pc.Restoring? || ProcAt(s, p).pc == TailConfirmed)
    ensures LocalMove(s, p, Inspect).None? && Apply(s, Write(p, true, true)).Some?
    ensures Shown(Apply(s, Write(p, true, true)).value, EvalHead(ProcAt(s, p))) == Blocking
    ensures var e, after := ProcAt(s, p), ProcAt(Apply(s, Write(p, true, true)).value, p);
            // An unacknowledged write or an authority change raises; a lost claim or plain supersession returns.
            after == e.(pc := if e.pc == Restoring(true)
                                 || (e.pc == TailConfirmed
                                     && (Fence(e.job.pull.inst, None) in s.db.fences
                                         || Fence(e.job.pull.inst, Some(e.job.pull.repo)) in s.db.fences))
                              then Raising else Returning)
  {
  }

  /** An evaluation ends its job only from its last point, and fails or defers it only once it has raised. */
  lemma EndsExactly(s: State, p: Pid, delay: nat, limit: Option<nat>)
    requires ProcAt(s, p).Eval?
    ensures Apply(s, Store(p, Finish)).Some? <==> ProcAt(s, p).pc == Returning
    ensures Apply(s, Store(p, FailWith(delay))).Some? <==> ProcAt(s, p).pc == Raising
    ensures Apply(s, Store(p, DeferWith(delay, limit))).Some? <==> ProcAt(s, p).pc == Raising
  {
  }

  /** A reset completes only past its last check, and is released only once it has raised. */
  lemma ResetEndsExactly(s: State, p: Pid, delay: nat, limit: Option<nat>)
    requires ProcAt(s, p).Inval?
    ensures Apply(s, Store(p, Finish)).Some? <==> ProcAt(s, p).ipc == IPast
    ensures Apply(s, Store(p, FailWith(delay))).Some? <==> ProcAt(s, p).ipc == IRaising
    ensures Apply(s, Store(p, DeferWith(delay, limit))).Some? <==> ProcAt(s, p).ipc == IRaising
  {
  }

  // ---- Fences ---------------------------------------------------------------------------

  lemma WorkersKeepFences(s: State, p: Pid, m: StoreCall)
    requires StoreMove(s, p, m).Some?
    ensures StoreMove(s, p, m).value.0.fences == s.db.fences && StoreMove(s, p, m).value.0.authEpochs == s.db.authEpochs
  {
    var proc := ProcAt(s, p);
    if proc.Eval? { EvaluationsKeepFences(s, proc, m); } else if proc.Inval? { ResetsKeepFences(s, proc, m); }
  }

  lemma EvaluationsKeepFences(s: State, e: Proc, m: StoreCall)
    requires e.Eval? && EvalStore(s, e, m).Some?
    ensures SameAuthority(s.db, EvalStore(s, e, m).value.0)
  {
    match m
    case SeeNewHead(sha) => EnqueueKeepsFences(s.db, WorkerRequest(e.job.pull, sha, e.job.workClass), s.now);
    case Rebind => FanOutKeepsFences(s.db, WorkerRequest(e.job.pull, e.sha, e.job.workClass), e.pc.current, s.now);
    case _ =>
  }

  lemma ResetsKeepFences(s: State, i: Proc, m: StoreCall)
    requires i.Inval? && InvalStore(s, i, m).Some?
    ensures SameAuthority(s.db, InvalStore(s, i, m).value.0)
  {
    if m.FanTo? {
      var h := i.claim.head;
      FanOutKeepsFences(s.db, WorkerRequest(PullKey(h.inst, h.repo, m.number), h.sha, Recovery), i.claim.generation, s.now);
    }
  }

  /** The fences a step adds: those of an accepted change, and a page's children while their parent stands. */
  function Added(s: State, step: Step): set<Fence> {
    match step
    case Client(ClientAuthority(inst, scope)) => {Fence(inst, scope)}
    case Client(ClientChildren(inst, repos)) =>
      if Fence(inst, None) in s.db.fences then set r | r in repos :: Fence(inst, Some(r)) else {}
    case _ => {}
  }

  /**
   An accepted change fences its scope at once, and nothing but a fence's own completion takes it away.  An
   installation's epoch counts its installation-wide changes, and nothing else.
   */
  lemma FencesMoveExactly(s: State, step: Step, inst: nat)
    requires Apply(s, step).Some?
    ensures AuthGeneration(Apply(s, step).value.db, inst) ==
              AuthGeneration(s.db, inst) + if step == Client(ClientAuthority(inst, None)) then 1 else 0
    ensures Apply(s, step).value.db.fences ==
              s.db.fences + Added(s, step) - (if step.Client? && step.tx.ClientFenceDone? then {step.tx.fence} else {})
  {
    match step
    case Client(tx) =>
      if !tx.ClientAuthority? && !tx.ClientChildren? && !tx.ClientFenceDone? { QueueKeepsFences(s, tx); }
    case Store(p, m) => WorkersKeepFences(s, p, m);
    case _ =>
  }

  /** An invalidator that has found the pull request open, or a due fast reset, blocks the head. */
  lemma ResetsBlock(s: State, p: Pid)
    requires (ProcAt(s, p).Inval? && ProcAt(s, p).ipc == IDecide(true))
             || (ProcAt(s, p).Fast? && ProcAt(s, p).fpc == FReady)
             || (ProcAt(s, p).Revoker? && ProcAt(s, p).held)
    ensures var proc := ProcAt(s, p);
            var h := if proc.Inval? then proc.claim.head else if proc.Fast? then proc.fastHead else proc.revokeHead;
            Apply(s, Write(p, true, true)).Some? && Shown(Apply(s, Write(p, true, true)).value, h) == Blocking
  {
  }

  // ---- Triggers ----------------------------------------------------------------------------

  /** A trigger for the head has been accepted: one more generation, and the pull request's row bound to it, unleased. */
  predicate Triggered(s: State, s': State, pull: PullKey, sha: string) {
    var h := HeadKey(pull.inst, pull.repo, sha);
    && h in s'.db.epochs && s'.db.epochs[h].lease.None?
    && s'.db.epochs[h].generation == (if h in s.db.epochs then s.db.epochs[h].generation else 0) + 1
    && s'.db.epochs[h].invalidated == (if h in s.db.epochs then s.db.epochs[h].invalidated else 0)
    && s'.db.epochs == s.db.epochs[h := s'.db.epochs[h]]
    && pull in s'.db.jobs && s'.db.jobs == s.db.jobs[pull := s'.db.jobs[pull]]
    && s'.db.jobs[pull].head == Some(sha) && s'.db.jobs[pull].sharedGen == s'.db.epochs[h].generation
    && s'.db.jobs[pull].lease.None? && s'.db.jobs[pull].attempts == 0
  }

  lemma TriggerTriggers(s: State, r: Request)
    requires r.head.Some?
    ensures Triggered(s, Commit(s, EnqueueSharedHeadTrigger(s.db, r, s.now)), r.pull, r.head.value)
  {
  }

  /** An accepted request with a head triggers that head, and its history dates the trigger. */
  lemma AcceptedRequestsTrigger(s: State, r: Request)
    requires r.reason != ScheduledRecheck && r.head.Some?
    ensures var s', h := Apply(s, Client(ClientEnqueue(r))).value, HeadKey(r.pull.inst, r.pull.repo, r.head.value);
            Triggered(s, s', r.pull, r.head.value) && s'.hist.trig(h) == s'.hist.serial == s.hist.serial + 1
    ensures var s' := Apply(s, Client(ClientIfAbsent(r))).value;
            if r.pull in s.db.jobs then s'.db == s.db else Triggered(s, s', r.pull, r.head.value)
  {
    TriggerTriggers(s, r);
  }

  /** A worker that sees another head triggers that head for its own pull request, and returns. */
  lemma NewHeadsTrigger(s: State, p: Pid, sha: string)
    requires ProcAt(s, p).Eval?
    ensures var e, result := ProcAt(s, p), Apply(s, Store(p, SeeNewHead(sha)));
            && (result.Some? <==>
                  (e.pc == Start && e.job.head.Some? && e.job.head != Some(sha)) || e.pc == Evaluated)
            && (result.Some? ==>
                  Triggered(s, result.value, e.job.pull, sha) && ProcAt(result.value, p) == e.(pc := Returning))
  {
    var e := ProcAt(s, p);
    TriggerTriggers(s, WorkerRequest(e.job.pull, sha, e.job.workClass));
  }

  /** The row now stands for the head's present generation, which has not moved. */
  predicate BoundTo(s: State, s': State, pull: PullKey, sha: string, generation: nat) {
    && s'.db.epochs == s.db.epochs && pull in s'.db.jobs && s'.db.jobs == s.db.jobs[pull := s'.db.jobs[pull]]
    && s'.db.jobs[pull].head == Some(sha) && s'.db.jobs[pull].sharedGen == generation && s'.db.jobs[pull].lease.None?
  }

  /** The generation is still the head's own. */
  predicate StillCurrent(s: State, h: HeadKey, generation: nat) {
    generation != 0 && h in s.db.epochs && s.db.epochs[h].generation == generation
  }

  predicate BoundElsewhere(s: State, pull: PullKey, sha: string) {
    pull in s.db.jobs && s.db.jobs[pull].head.Some? && s.db.jobs[pull].head != Some(sha)
  }

  /**
   A reset's fan-out queues its pull request at the reset's own generation while that is
   current, unless the pull request has moved to another head; it stops once it is not.
   */
  lemma FanOutBinds(s: State, p: Pid, number: nat)
    requires ProcAt(s, p).Inval? && ProcAt(s, p).ipc == IFan
    ensures var i, result := ProcAt(s, p), Apply(s, Store(p, FanTo(number)));
            var pull := PullKey(i.claim.head.inst, i.claim.head.repo, number);
            && result.Some?
            && var s' := result.value;
            && ProcAt(s', p) == i.(ipc := if StillCurrent(s, i.claim.head, i.claim.generation) then IPast else IGone)
            && if StillCurrent(s, i.claim.head, i.claim.generation) && !BoundElsewhere(s, pull, i.claim.head.sha)
               then BoundTo(s, s', pull, i.claim.head.sha, i.claim.generation)
                    && (pull !in s.db.jobs ==> s'.db.jobs[pull].workClass == Recovery)
               else s'.db == s.db
  {
  }

  /** A worker whose generation has passed requeues its pull request at the generation it read, while that is current. */
  lemma RebindBinds(s: State, p: Pid)
    requires ProcAt(s, p).Eval? && ProcAt(s, p).pc.RevokeRebind?
    ensures var e, result := ProcAt(s, p), Apply(s, Store(p, Rebind));
            var h := HeadKey(e.job.pull.inst, e.job.pull.repo, e.sha);
            && result.Some?
            && var s' := result.value;
            && ProcAt(s', p) == e.(pc := if StillCurrent(s, h, e.pc.current) then Returning else Raising)
            && if StillCurrent(s, h, e.pc.current) && !BoundElsewhere(s, e.job.pull, e.sha)
               then BoundTo(s, s', e.job.pull, e.sha, e.pc.current)
               else s'.db == s.db
  {
  }

  // ---- The history ------------------------------------------------------------------------------

  /** A head's trigger is waived only by a guarded reset that finds no pull request open at it, and up to its last trigger. */
  lemma WaivesExactly(s: State, step: Step, h: HeadKey)
    requires Apply(s, step).Some?
    ensures var s' := Apply(s, step).value;
            s'.hist.waived(h) ==
              if step.SeePulls? && !step.open && ProcAt(s, step.p).claim.head == h then s.hist.trig(h) else s.hist.waived(h)
    ensures step.SeePulls? ==> WriterGuard(ProcAt(s, step.p)) == Some(KeyOf(ProcAt(s, step.p).claim.head))
  {
  }

  // ---- What may go wrong -----------------------------------------------------------------------

  /** Where an evaluation goes after its write, as it is or is not acknowledged. */
  function AfterWriting(e: Proc, acknowledged: bool, fenced: bool): EvalPc
    requires e.Eval?
  {
    match e.pc
    case RevokeCurrent => if acknowledged then Revoked else Raising
    case Cleared => if acknowledged then Wrote else Restoring(true)
    case Restoring(raising) => if raising then Raising else Returning
    case TailConfirmed => if acknowledged && !fenced then Returning else Raising
    case _ => if acknowledged then Returning else Raising
  }

  /** A write may take effect and be acknowledged, take effect unacknowledged, or be lost; the worker knows only the answer. */
  lemma WritesMayBeLost(s: State, p: Pid, applied: bool, acknowledged: bool)
    requires PendingWrite(s, p).Some? && (acknowledged ==> applied)
    ensures var result := Apply(s, Write(p, applied, acknowledged));
            && result.Some? && result.value.db == s.db && (!applied ==> result.value.reg == s.reg)
            && var proc, after := ProcAt(s, p), ProcAt(result.value, p);
            match proc
            case Eval(job, _, _, _, _, _, _, _) =>
              after == proc.(pc := AfterWriting(proc, acknowledged, Blocked(s.db, job.pull.inst, job.pull.repo)))
            case Inval(_, _) => after == proc.(ipc := if acknowledged then IPast else IRaising)
            case _ => after == Idle
  {
  }

  /** Any worker may crash between any two steps, and an evaluation or a reset may raise; the clock may pass any instant. */
  lemma WorkersMayFail(s: State, p: Pid, d: nat)
    ensures Apply(s, Tick(d)).Some? && Apply(s, Tick(d)).value == s.(now := s.now + d)
    ensures ProcAt(s, p) != Idle ==> Apply(s, Local(p, Crash)) == Some(SetProc(s, p, Idle))
    ensures ProcAt(s, p).Eval? ==> Apply(s, Local(p, Raise)) == Some(SetProc(s, p, ProcAt(s, p).(pc := Raising)))
    ensures ProcAt(s, p).Inval? ==> Apply(s, Local(p, Raise)) == Some(SetProc(s, p, ProcAt(s, p).(ipc := IRaising)))
  {
  }

  /** Resets without a lease begin anywhere: each takes its head's guard, once, and then writes. */
  lemma UnleasedResetsBegin(s: State, p: Pid, h: HeadKey, token: nat)
    ensures ProcAt(s, p).Idle? ==>
              && LocalMove(s, p, BeginFast(h, token)) == Some(Fast(h, token, FStart))
              && LocalMove(s, p, BeginRevoke(h)) == Some(Revoker(h, false))
    ensures ProcAt(s, p).Revoker? ==>
              && LocalMove(s, p, Acquire) ==
                   (if ProcAt(s, p).held then None else Some(Revoker(ProcAt(s, p).revokeHead, true)))
              && (PendingWrite(s, p).Some? <==> ProcAt(s, p).held)
              && (WriterGuard(ProcAt(s, p)) == if ProcAt(s, p).held then Some(KeyOf(ProcAt(s, p).revokeHead)) else None)
  {
  }

  /** A worker holds a head's writer guard exactly between taking it and leaving the section it protects. */
  lemma GuardsAreHeldExactly(proc: Proc)
    ensures WriterGuard(proc).Some? <==>
              match proc
              case Idle => false
              case Eval(_, pc, _, _, _, _, _, _) =>
                pc !in {Start, Bound, Revoked, Invalidated, Ready, Collecting, Evaluated, Shared, Tail, TailContended,
                        Closing, Returning, Raising}
              case Inval(_, pc) => pc !in {IStart, IPast, IFan, IGone, IRaising}
              case Fast(_, _, pc) => pc != FStart
              case Revoker(_, held) => held
  {
  }

  /** A change is accepted exactly while no worker of its installation is between its evaluation and its last check. */
  lemma AcceptedExactly(s: State, inst: nat, scope: Option<string>)
    ensures Apply(s, Client(ClientAuthority(inst, scope))).Some? <==>
              forall q :: q in s.procs && s.procs[q].Eval? && s.procs[q].job.pull.inst == inst ==>
                s.procs[q].pc in {Start, Bound, RevokeGuarded, RevokeClaimOk, RevokeCurrent, RevokeStale, Revoked, Invalidated,
                                  Ready, Collecting, Evaluated, Closing, ClosingGuarded, Returning, Raising}
                || s.procs[q].pc.RevokeRebind?
  {
    forall q | q in s.procs && s.procs[q].Eval? && s.procs[q].job.pull.inst == inst
      ensures !HoldsShared(s.procs[q], inst) <==>
                s.procs[q].pc in {Start, Bound, RevokeGuarded, RevokeClaimOk, RevokeCurrent, RevokeStale, Revoked, Invalidated,
                                  Ready, Collecting, Evaluated, Closing, ClosingGuarded, Returning, Raising}
                || s.procs[q].pc.RevokeRebind?
    {
    }
  }

  /** A lease may be renewed at any point: it is moved exactly while the claim is held, and nothing else changes. */
  lemma RenewsExactly(s: State, p: Pid, until: Time)
    ensures ProcAt(s, p).Eval? ==>
              var result, c := Apply(s, Store(p, Renew(until))), ProcAt(s, p).job;
              && result.Some? && ProcAt(result.value, p) == ProcAt(s, p) && result.value.db.epochs == s.db.epochs
              && result.value.db.jobs ==
                   if && c.pull in s.db.jobs && s.db.jobs[c.pull].id == c.id && s.db.jobs[c.pull].generation == c.generation
                      && s.db.jobs[c.pull].lease.Some? && s.db.jobs[c.pull].lease.value.owner == c.owner
                   then s.db.jobs[c.pull := s.db.jobs[c.pull].(lease := Some(Lease(c.owner, until)))] else s.db.jobs
    ensures ProcAt(s, p).Inval? ==>
              var result, c := Apply(s, Store(p, Renew(until))), ProcAt(s, p).claim;
              && result.Some? && ProcAt(result.value, p) == ProcAt(s, p) && result.value.db.jobs == s.db.jobs
              && result.value.db.epochs ==
                   if && c.head in s.db.epochs && s.db.epochs[c.head].generation == c.generation
                      && s.db.epochs[c.head].invalidated < c.generation && s.db.epochs[c.head].lease.Some?
                      && s.db.epochs[c.head].lease.value.owner == c.owner && s.now <= s.db.epochs[c.head].lease.value.until
                   then s.db.epochs[c.head := s.db.epochs[c.head].(lease := Some(Lease(c.owner, until)))] else s.db.epochs
  {
  }

  /** Whatever GitHub answers, the evaluation has a step for it. */
  lemma AnswersAreTaken(s: State, p: Pid, sha: string, unique: bool)
    requires ProcAt(s, p).Eval?
    ensures var e := ProcAt(s, p);
            && (e.pc == Start || e.pc == Bound ==> LocalMove(s, p, GiveUp) == Some(e.(pc := Returning)))
            && (e.pc == Start && e.job.head == Some(sha) ==>
                  LocalMove(s, p, KeepHead(sha)) == Some(e.(pc := Bound, sha := sha)))
            && (e.pc == Start ==>
                  LocalMove(s, p, SeeClosed(sha)) ==
                    Some(e.(pc := Closing, sha := if e.job.head.Some? then e.job.head.value else sha)))
            && (e.pc == Evaluated ==> LocalMove(s, p, SeeClosed(sha)) == Some(e.(pc := Closing)))
            && (e.pc == Start && e.job.head.None? ==> Apply(s, Store(p, BindHead(sha))).Some?)
  {
  }
}
