/**
 What the installation's authority epoch fences: a completing check write rests on a
 claim, and on evidence, taken after every accepted installation-wide change.
 */
module PublicationAuthority {
  import opened Options
  import opened Queue
  import opened QueueFacts
  import opened Publication
  import opened PublicationInvariant
  import opened PublicationSafety

  /** The step accepts an installation-wide authority change. */
  predicate AcceptsChange(step: Step, inst: nat) {
    step.Client? && step.tx == ClientAuthority(inst, None)
  }

  /** The serial of the last installation-wide change accepted in a run, by installation; no code reads it. */
  function Changed(steps: seq<Step>, inst: nat): nat {
    if steps == [] then 0
    else
      var last := |steps| - 1;
      match Run(steps)
      case Some(s) => if AcceptsChange(steps[last], inst) then s.hist.serial else Changed(steps[..last], inst)
      case None => 0
  }

  // ---- Invariant ------------------------------------------------------------------

  /** A row that carries the present authority epoch was queued after the last installation-wide change. */
  ghost predicate RowAuthority(s: State, changed: nat -> nat, k: PullKey) {
    k in s.db.jobs ==>
      var present := AuthGeneration(s.db, k.inst);
      && s.db.jobs[k].authGen <= present
      && (s.db.jobs[k].authGen == present ==> changed(k.inst) <= s.hist.upserted(k))
  }

  ghost predicate ClaimAuthority(s: State, changed: nat -> nat, e: Proc)
    requires e.Eval?
  {
    && e.claimedAt <= s.hist.serial
    && (ClaimLive(s, e.job) ==> s.db.jobs[e.job.pull].authGen == e.job.authGen)
    && (EvidenceTaken(e.pc) ==> e.claimedAt <= e.evidence)
    && (e.pc == Cleared ==> changed(e.job.pull.inst) <= e.claimedAt)
  }

  ghost predicate AuthorityInv(s: State, changed: nat -> nat) {
    && (forall inst :: changed(inst) <= s.hist.serial)
    && (forall k :: RowAuthority(s, changed, k))
    && (forall p :: p in s.procs && s.procs[p].Eval? ==> ClaimAuthority(s, changed, s.procs[p]))
  }

  // ---- Transactions ------------------------------------------------------------------

  lemma EvalStamps(s: State, e: Proc, m: StoreCall)
    requires IdsBelow(s.db) && e.Eval? && EvalStore(s, e, m).Some?
    ensures Stamps(s.db, EvalStore(s, e, m).value.0)
  {
    match m
    case Renew(until) => QuietStamps(s.db, RenewClaim(s.db, e.job, until));
    case SeeNewHead(sha) => TriggerStamps(s.db, WorkerRequest(e.job.pull, sha, e.job.workClass), s.now);
    case BindHead(sha) => BindStamps(s.db, e.job, sha, s.now);
    case Rebind => FanOutStamps(s.db, WorkerRequest(e.job.pull, e.sha, e.job.workClass), e.pc.current, s.now);
    case Finish => QuietStamps(s.db, Complete(s.db, e.job, s.now));
    case FailWith(delay) => ReleaseStamps(s.db, e.job, s.now, delay, false, true);
    case DeferWith(delay, limit) =>
      ReleaseStamps(s.db, e.job, s.now, ClampedDelay(delay), true, PastRecheckLimit(e.job, s.now, delay, limit));
  }

  lemma InvalStamps(s: State, i: Proc, m: StoreCall)
    requires IdsBelow(s.db) && i.Inval? && InvalStore(s, i, m).Some?
    ensures Stamps(s.db, InvalStore(s, i, m).value.0)
  {
    if m.FanTo? {
      var h := i.claim.head;
      FanOutStamps(s.db, WorkerRequest(PullKey(h.inst, h.repo, m.number), h.sha, Recovery), i.claim.generation, s.now);
    } else {
      QuietStamps(s.db, InvalStore(s, i, m).value.0);
    }
  }

  lemma StoreStamps(s: State, p: Pid, m: StoreCall)
    requires IdsBelow(s.db) && StoreMove(s, p, m).Some?
    ensures Stamps(s.db, StoreMove(s, p, m).value.0)
  {
    var proc := ProcAt(s, p);
    if proc.Eval? {
      EvalStamps(s, proc, m);
    } else if proc.Inval? {
      InvalStamps(s, proc, m);
    } else if m.BeginEval? {
      ClaimStamps(s.db, m.pull, p, m.until);
    } else {
      QuietStamps(s.db, StoreMove(s, p, m).value.0);
    }
  }

  /** Every client transaction but the acceptance of an installation-wide change. */
  lemma ClientStamps(s: State, t: ClientTx)
    requires IdsBelow(s.db) && ClientEnabled(s, t) && !(t.ClientAuthority? && t.scope.None?)
    ensures Stamps(s.db, ClientApply(s, t))
  {
    match t
    case ClientEnqueue(r) => EnqueueStamps(s.db, r, s.now);
    case ClientIfAbsent(r) => if r.pull in s.db.jobs { SameStamps(s.db); } else { EnqueueStamps(s.db, r, s.now); }
    case ClientReconcile(r, observedAt, recheck) => ReconcileStamps(s.db, r, observedAt, recheck, s.now);
    case _ => QuietStamps(s.db, ClientApply(s, t));
  }

  // ---- Preservation -------------------------------------------------------------------

  lemma RowsKeep(s: State, db': Db, changed: nat -> nat, k: PullKey)
    requires AuthorityInv(s, changed) && Stamps(s.db, db')
    ensures RowAuthority(Commit(s, db'), changed, k)
  {
    assert StampStep(s.db, db', k) && RowAuthority(s, changed, k);
    assert changed(k.inst) <= s.hist.serial;
  }

  lemma ClaimKeeps(s: State, db': Db, changed: nat -> nat, q: Pid, e: Proc)
    requires Stamps(s.db, db') && e.Eval? && ClaimOkAt(s, q, e) && ClaimAuthority(s, changed, e)
    ensures ClaimAuthority(Commit(s, db'), changed, e)
  {
    assert StampStep(s.db, db', e.job.pull);
  }

  lemma CommitKeeps(s: State, db': Db, changed: nat -> nat)
    requires Inv(s) && AuthorityInv(s, changed) && Stamps(s.db, db')
    ensures AuthorityInv(Commit(s, db'), changed)
  {
    forall k ensures RowAuthority(Commit(s, db'), changed, k) { RowsKeep(s, db', changed, k); }
    forall q | q in s.procs && s.procs[q].Eval? ensures ClaimAuthority(Commit(s, db'), changed, s.procs[q]) {
      assert ProcOk(s, q, s.procs[q]);
      ClaimKeeps(s, db', changed, q, s.procs[q]);
    }
    forall inst ensures changed(inst) <= s.hist.serial + 1 { assert changed(inst) <= s.hist.serial; }
  }

  lemma ProcKeeps(s: State, changed: nat -> nat, p: Pid, proc': Proc)
    requires AuthorityInv(s, changed) && (proc'.Eval? ==> ClaimAuthority(s, changed, proc'))
    ensures AuthorityInv(SetProc(s, p, proc'), changed)
  {
    var s' := SetProc(s, p, proc');
    forall k ensures RowAuthority(s', changed, k) { assert RowAuthority(s, changed, k); }
    forall q | q in s'.procs && s'.procs[q].Eval? ensures ClaimAuthority(s', changed, s'.procs[q]) {
      if q != p { assert ClaimAuthority(s, changed, s.procs[q]); }
    }
  }

  function Bumped(changed: nat -> nat, inst: nat, serial: nat): nat -> nat {
    (i: nat) => if i == inst then serial else changed(i)
  }

  /** Acceptance raises the epoch, so every row queued before it no longer carries the present one. */
  lemma AcceptanceKeeps(s: State, changed: nat -> nat, inst: nat)
    requires Inv(s) && AuthorityInv(s, changed) && ClientEnabled(s, ClientAuthority(inst, None))
    ensures AuthorityInv(Commit(s, AcceptAuthority(s.db, inst, None)), Bumped(changed, inst, s.hist.serial + 1))
  {
    var changed' := Bumped(changed, inst, s.hist.serial + 1);
    var s' := Commit(s, AcceptAuthority(s.db, inst, None));
    forall k ensures RowAuthority(s', changed', k) { assert RowAuthority(s, changed, k); }
    forall q | q in s.procs && s.procs[q].Eval? ensures ClaimAuthority(s', changed', s.procs[q]) {
      assert ClaimAuthority(s, changed, s.procs[q]);
      if s.procs[q].pc == Cleared && s.procs[q].job.pull.inst == inst { assert HoldsShared(s.procs[q], inst); }
    }
    forall i ensures changed'(i) <= s'.hist.serial { assert changed(i) <= s.hist.serial; }
  }

  /** The last claim check before the write: the row still carries the present epoch. */
  lemma ClearedAfterChanges(s: State, changed: nat -> nat, p: Pid, e: Proc)
    requires Inv(s) && AuthorityInv(s, changed) && e.Eval? && e == ProcAt(s, p) && IsCurrentClaim(s.db, e.job, s.now)
    ensures changed(e.job.pull.inst) <= e.claimedAt
  {
    assert ProcOk(s, p, e) && ClaimAuthority(s, changed, e) && RowAuthority(s, changed, e.job.pull);
  }

  /** What a move of an evaluation leaves: its claim, and evidence that is kept or taken now. */
  ghost predicate SameEvaluation(s: State, e: Proc, e': Proc)
    requires e.Eval? && e'.Eval?
  {
    && e'.job == e.job && e'.claimedAt == e.claimedAt
    && (EvidenceTaken(e'.pc) ==> (EvidenceTaken(e.pc) && e'.evidence == e.evidence) || e'.evidence == s.hist.serial)
    && (e'.pc == Cleared ==> IsCurrentClaim(s.db, e.job, s.now))
  }

  lemma CheckLeads(s: State, e: Proc, e': Proc)
    requires e.Eval? && EvalCheck(s, e) == Some(e')
    ensures e'.Eval? && SameEvaluation(s, e, e')
  {
  }

  lemma MoveLeads(s: State, e: Proc, m: Move, e': Proc)
    requires e.Eval? && e'.Eval? && m != Inspect && EvalLocal(s, e, m) == Some(e')
    ensures SameEvaluation(s, e, e')
  {
  }

  lemma LocalKeepsAuthority(s: State, changed: nat -> nat, p: Pid, m: Move, e': Proc)
    requires Inv(s) && AuthorityInv(s, changed) && ProcAt(s, p).Eval?
    requires EvalLocal(s, ProcAt(s, p), m) == Some(e') && e'.Eval?
    ensures ClaimAuthority(s, changed, e')
  {
    var e := ProcAt(s, p);
    if m == Inspect { CheckLeads(s, e, e'); } else { MoveLeads(s, e, m, e'); }
    EvaluationStays(s, changed, p, e, e');
  }

  lemma EvaluationStays(s: State, changed: nat -> nat, p: Pid, e: Proc, e': Proc)
    requires Inv(s) && AuthorityInv(s, changed) && e.Eval? && e == ProcAt(s, p)
    requires e'.Eval? && SameEvaluation(s, e, e')
    ensures ClaimAuthority(s, changed, e')
  {
    assert ClaimAuthority(s, changed, e);
    if e'.pc == Cleared { ClearedAfterChanges(s, changed, p, e); }
  }

  lemma LocalStepKeeps(s: State, changed: nat -> nat, p: Pid, m: Move)
    requires Inv(s) && AuthorityInv(s, changed) && LocalMove(s, p, m).Some?
    ensures AuthorityInv(SetProc(s, p, LocalMove(s, p, m).value), changed)
  {
    var proc' := LocalMove(s, p, m).value;
    if ProcAt(s, p).Eval? && proc'.Eval? { LocalKeepsAuthority(s, changed, p, m, proc'); }
    ProcKeeps(s, changed, p, proc');
  }

  /** A transaction of an evaluation keeps its claim's stamp, and takes no evidence. */
  lemma EvalStoreLeads(s: State, e: Proc, m: StoreCall)
    requires e.Eval? && EvalStore(s, e, m).Some? && EvalStore(s, e, m).value.1.Eval?
    ensures var e' := EvalStore(s, e, m).value.1;
            || e' == e
            || (&& e'.job.pull == e.job.pull && e'.job.id == e.job.id && e'.job.generation == e.job.generation
                && e'.job.authGen == e.job.authGen && e'.claimedAt == e.claimedAt && !EvidenceTaken(e'.pc))
  {
  }

  /** The worker that issued a transaction: it keeps its claim, takes a new one, or is done. */
  lemma StoreClaim(s: State, changed: nat -> nat, p: Pid, m: StoreCall)
    requires Inv(s) && AuthorityInv(s, changed) && StoreMove(s, p, m).Some? && StoreMove(s, p, m).value.1.Eval?
    requires Stamps(s.db, StoreMove(s, p, m).value.0)
    ensures var (db', e') := StoreMove(s, p, m).value; ClaimAuthority(Commit(s, db'), changed, e')
  {
    var proc := ProcAt(s, p);
    if proc.Eval? {
      assert ProcOk(s, p, proc) && ClaimAuthority(s, changed, proc);
      ClaimKeeps(s, StoreMove(s, p, m).value.0, changed, p, proc);
      EvalStoreLeads(s, proc, m);
    }
  }

  lemma StoreStepKeeps(s: State, changed: nat -> nat, p: Pid, m: StoreCall)
    requires Inv(s) && AuthorityInv(s, changed) && StoreMove(s, p, m).Some?
    ensures var (db', proc') := StoreMove(s, p, m).value; AuthorityInv(SetProc(Commit(s, db'), p, proc'), changed)
  {
    var (db', proc') := StoreMove(s, p, m).value;
    RowIds(s);
    StoreStamps(s, p, m);
    CommitKeeps(s, db', changed);
    if proc'.Eval? { StoreClaim(s, changed, p, m); }
    ProcKeeps(Commit(s, db'), changed, p, proc');
  }

  lemma RowIds(s: State)
    requires Inv(s)
    ensures IdsBelow(s.db)
  {
    forall k | k in s.db.jobs ensures s.db.jobs[k].id < s.db.nextId { assert RowOk(s, k); }
  }

  lemma WriteStepKeeps(s: State, changed: nat -> nat, step: Step)
    requires AuthorityInv(s, changed) && Apply(s, step).Some? && (step.Write? || step.SeePulls? || step.Tick?)
    ensures AuthorityInv(Apply(s, step).value, changed)
  {
    var s' := Apply(s, step).value;
    SameQueue(s, step);
    forall k ensures RowAuthority(s', changed, k) { assert RowAuthority(s, changed, k); }
    forall q | q in s'.procs && s'.procs[q].Eval? ensures ClaimAuthority(s', changed, s'.procs[q]) {
      WriterStays(s, step, q);
      assert ClaimAuthority(s, changed, s.procs[q]);
    }
  }

  lemma SameQueue(s: State, step: Step)
    requires Apply(s, step).Some? && (step.Write? || step.SeePulls? || step.Tick?)
    ensures var s' := Apply(s, step).value;
            s'.db == s.db && s'.hist.serial == s.hist.serial && s'.hist.upserted == s.hist.upserted
  {
  }

  /** After a write an evaluation has the same claim and relies on no evidence. */
  lemma WriterStays(s: State, step: Step, q: Pid)
    requires Apply(s, step).Some? && (step.Write? || step.SeePulls? || step.Tick?)
    requires q in Apply(s, step).value.procs && Apply(s, step).value.procs[q].Eval?
    ensures q in s.procs && s.procs[q].Eval?
    ensures var e, e' := s.procs[q], Apply(s, step).value.procs[q];
            e' == e || (e'.job == e.job && e'.claimedAt == e.claimedAt && !EvidenceTaken(e'.pc))
  {
    if step.Write? && q == step.p {
      var w := PendingWrite(s, q).value;
      EvalWriteLeads(s, q, ProcAt(s, q), w, if step.acknowledged then w.acknowledged else w.uncertain);
    }
  }

  lemma ClientStepKeeps(s: State, changed: nat -> nat, t: ClientTx)
    requires Inv(s) && AuthorityInv(s, changed) && ClientEnabled(s, t)
    ensures var changed' := if t.ClientAuthority? && t.scope.None? then Bumped(changed, t.inst, s.hist.serial + 1) else changed;
            AuthorityInv(Commit(s, ClientApply(s, t)), changed')
  {
    if t.ClientAuthority? && t.scope.None? {
      AcceptanceKeeps(s, changed, t.inst);
    } else {
      RowIds(s);
      ClientStamps(s, t);
      CommitKeeps(s, ClientApply(s, t), changed);
    }
  }

  function ChangedIn(steps: seq<Step>): nat -> nat {
    (inst: nat) => Changed(steps, inst)
  }

  lemma SameChanges(s: State, a: nat -> nat, b: nat -> nat)
    requires AuthorityInv(s, a) && forall inst :: a(inst) == b(inst)
    ensures AuthorityInv(s, b)
  {
    forall k ensures RowAuthority(s, b, k) { assert RowAuthority(s, a, k); }
    forall q | q in s.procs && s.procs[q].Eval? ensures ClaimAuthority(s, b, s.procs[q]) {
      assert ClaimAuthority(s, a, s.procs[q]);
    }
  }

  function ChangedBy(s: State, changed: nat -> nat, step: Step): nat -> nat {
    if step.Client? && step.tx.ClientAuthority? && step.tx.scope.None?
    then Bumped(changed, step.tx.inst, s.hist.serial + 1) else changed
  }

  lemma ClientApplies(s: State, t: ClientTx)
    requires Apply(s, Client(t)).Some?
    ensures ClientEnabled(s, t) && Apply(s, Client(t)).value == Commit(s, ClientApply(s, t))
  {
  }

  lemma ChangedByClient(s: State, changed: nat -> nat, t: ClientTx)
    ensures ChangedBy(s, changed, Client(t)) ==
              if t.ClientAuthority? && t.scope.None? then Bumped(changed, t.inst, s.hist.serial + 1) else changed
  {
  }

  lemma ClientCase(s: State, changed: nat -> nat, step: Step)
    requires step.Client? && Inv(s) && AuthorityInv(s, changed) && Apply(s, step).Some?
    ensures AuthorityInv(Apply(s, step).value, ChangedBy(s, changed, step))
  {
    ClientApplies(s, step.tx);
    ChangedByClient(s, changed, step.tx);
    ClientStepKeeps(s, changed, step.tx);
  }

  lemma LocalCase(s: State, changed: nat -> nat, step: Step)
    requires step.Local? && Inv(s) && AuthorityInv(s, changed) && Apply(s, step).Some?
    ensures AuthorityInv(Apply(s, step).value, changed)
  {
    LocalStepKeeps(s, changed, step.p, step.move);
  }

  lemma StoreCase(s: State, changed: nat -> nat, step: Step)
    requires step.Store? && Inv(s) && AuthorityInv(s, changed) && Apply(s, step).Some?
    ensures AuthorityInv(Apply(s, step).value, changed)
  {
    StoreStepKeeps(s, changed, step.p, step.call);
  }

  lemma StepKeepsAuthority(s: State, changed: nat -> nat, step: Step)
    requires Inv(s) && AuthorityInv(s, changed) && Apply(s, step).Some?
    ensures AuthorityInv(Apply(s, step).value, ChangedBy(s, changed, step))
  {
    if step.Client? {
      ClientCase(s, changed, step);
    } else if step.Local? {
      LocalCase(s, changed, step);
    } else if step.Store? {
      StoreCase(s, changed, step);
    } else {
      WriteStepKeeps(s, changed, step);
    }
  }

  lemma ChangedNext(steps: seq<Step>, inst: nat)
    requires steps != [] && Run(steps).Some?
    ensures var before := steps[..|steps| - 1];
            Run(before).Some? && Changed(steps, inst) == ChangedBy(Run(before).value, ChangedIn(before), steps[|steps| - 1])(inst)
  {
  }

  lemma {:induction false} RunKeepsAuthority(steps: seq<Step>)
    requires Run(steps).Some?
    ensures AuthorityInv(Run(steps).value, ChangedIn(steps))
  {
    if steps != [] {
      var before, step := steps[..|steps| - 1], steps[|steps| - 1];
      var s, changed := Run(before).value, ChangedIn(before);
      RunKeepsAuthority(before);
      RunKeeps(before);
      StepKeepsAuthority(s, changed, step);
      forall inst ensures ChangedBy(s, changed, step)(inst) == ChangedIn(steps)(inst) { ChangedNext(steps, inst); }
      SameChanges(Run(steps).value, ChangedBy(s, changed, step), ChangedIn(steps));
    }
  }

  /**
   A worker about to write a result claimed its job, and began collecting its evidence,
   after every installation-wide change accepted so far.
   */
  lemma CompletingWriteFollowsChanges(steps: seq<Step>, p: Pid)
    requires Run(steps).Some?
    requires var s := Run(steps).value; PendingWrite(s, p).Some? && PendingWrite(s, p).value.check.Done?
    ensures var e := ProcAt(Run(steps).value, p);
            e.Eval? && Changed(steps, e.job.pull.inst) <= e.claimedAt <= e.evidence
  {
    RunKeepsAuthority(steps);
    var e := ProcAt(Run(steps).value, p);
    assert ClaimAuthority(Run(steps).value, ChangedIn(steps), e);
  }

  /** `Changed` dates every acceptance of the run: none has a later serial. */
  lemma {:induction false} ChangedDatesAcceptances(steps: seq<Step>, i: nat, inst: nat)
    requires Run(steps).Some? && i < |steps| && AcceptsChange(steps[i], inst)
    ensures Run(steps[..i + 1]).Some? && Run(steps[..i + 1]).value.hist.serial <= Changed(steps, inst)
  {
    var last := |steps| - 1;
    if i < last {
      assert steps[..last][..i + 1] == steps[..i + 1] && steps[..last][i] == steps[i];
      ChangedDatesAcceptances(steps[..last], i, inst);
      RunKeepsAuthority(steps[..last]);
      assert ChangedIn(steps[..last])(inst) <= Run(steps[..last]).value.hist.serial;
    } else {
      assert steps[..i + 1] == steps;
    }
  }
}
