/** The invariant holds in every reachable state, and what follows from it. */
module PublicationSafety {
  import opened Options
  import opened Queue
  import opened QueueFacts
  import opened Publication
  import opened PublicationInvariant
  import opened PublicationTransactions

  // ---- Local steps -----------------------------------------------------------

  /** A claim that is still live and publishable was bound after the head's last trigger. */
  lemma PublishableIsFresh(s: State, p: Pid, e: Proc)
    requires Inv(s) && e.Eval? && EvalOk(s, p, e) && HeadBound(e.pc)
    requires SharedGenerationIsPublishable(s.db, e.job, e.sha)
    ensures !Pending(s.db, EvalHead(e))
    ensures ClaimLive(s, e.job) ==> s.hist.trig(EvalHead(e)) <= e.bound
  {
    if ClaimLive(s, e.job) {
      assert RowOk(s, e.job.pull);
      assert BindingOk(s, e.job.pull, s.db.jobs[e.job.pull]);
    }
  }

  lemma ProcFrame(s: State, p: Pid, proc': Proc)
    requires !proc'.Inval? && ProcOk(s, p, proc')
    ensures ProcOk(SetProc(s, p, proc'), p, proc')
  {
  }

  /** What PublishableIsFresh says about one worker, apart from the invariant. */
  ghost predicate FreshIfPublishable(s: State, e: Proc)
    requires e.Eval?
  {
    HeadBound(e.pc) && SharedGenerationIsPublishable(s.db, e.job, e.sha) ==>
      && !Pending(s.db, EvalHead(e))
      && (ClaimLive(s, e.job) ==> s.hist.trig(EvalHead(e)) <= e.bound)
  }

  /** The last publishable check: from here on, a trigger leaves its reset owed. */
  lemma BecomesReady(s: State, p: Pid, e: Proc)
    requires e.Eval? && EvalOk(s, p, e) && e.pc == Unique && FreshIfPublishable(s, e)
    requires SharedGenerationIsPublishable(s.db, e.job, e.sha)
    ensures var e' := e.(pc := Current, seen := s.hist.trig(EvalHead(e))); EvalOk(s, p, e') && ReadyAllowed(s, p, e')
  {
    SameClaim(s, p, e, e.(pc := Current, seen := s.hist.trig(EvalHead(e))));
  }

  /** Moving on with the same claim keeps its facts; only the program point's own facts are left to check. */
  lemma SameClaim(s: State, p: Pid, e: Proc, e': Proc)
    requires e.Eval? && e'.Eval? && ClaimOkAt(s, p, e)
    requires e'.job == e.job && e'.bound == e.bound && e'.claimedAt == e.claimedAt
    ensures ClaimOkAt(s, p, e')
  {
  }

  /** From here on only claim facts matter. */
  lemma Leaves(s: State, p: Pid, e: Proc, pc: EvalPc)
    requires e.Eval? && EvalOk(s, p, e)
    requires !EvidenceTaken(pc) && (HeadBound(pc) ==> HeadBound(e.pc))
    ensures EvalOk(s, p, e.(pc := pc)) && ReadyAllowed(s, p, e.(pc := pc))
  {
    SameClaim(s, p, e, e.(pc := pc));
  }

  /** Between collecting evidence and the last publishable check. */
  lemma Advances(s: State, p: Pid, e: Proc, e': Proc)
    requires e.Eval? && e'.Eval? && EvalOk(s, p, e) && EvidenceTaken(e.pc) && EvidenceTaken(e'.pc)
    requires e' == e.(pc := e'.pc, success := e'.success)
    requires e'.pc != Current && e'.pc != Cleared
    requires FenceChecked(e'.pc) ==> FenceChecked(e.pc) || !Blocked(s.db, e.job.pull.inst, e.job.pull.repo)
    ensures EvalOk(s, p, e') && ReadyAllowed(s, p, e')
  {
    SameClaim(s, p, e, e');
  }

  lemma Clears(s: State, p: Pid, e: Proc)
    requires e.Eval? && e == ProcAt(s, p) && EvalOk(s, p, e) && e.pc == Current
    requires IsCurrentClaim(s.db, e.job, s.now)
    ensures EvalOk(s, p, e.(pc := Cleared)) && ReadyAllowed(s, p, e.(pc := Cleared))
  {
    SameClaim(s, p, e, e.(pc := Cleared));
  }

  lemma Collects(s: State, p: Pid, e: Proc)
    requires e.Eval? && EvalOk(s, p, e) && e.pc == Ready
    ensures var e' := e.(pc := Collecting, evidence := s.hist.serial); EvalOk(s, p, e') && ReadyAllowed(s, p, e')
  {
    SameClaim(s, p, e, e.(pc := Collecting, evidence := s.hist.serial));
  }

  lemma EvalCheckKeeps(s: State, p: Pid, e: Proc, e': Proc)
    requires e.Eval? && e == ProcAt(s, p) && EvalOk(s, p, e) && FreshIfPublishable(s, e)
    requires EvalCheck(s, e) == Some(e')
    ensures EvalOk(s, p, e') && ReadyAllowed(s, p, e')
  {
    if e.pc == Ready {
      Collects(s, p, e);
    } else if e'.pc == Current {
      BecomesReady(s, p, e);
    } else if e'.pc == Cleared {
      Clears(s, p, e);
    } else if EvidenceTaken(e'.pc) {
      Advances(s, p, e, e');
    } else {
      Leaves(s, p, e, e'.pc);
    }
  }

  /** The other moves: along the evaluation with a new conclusion, or out of it. */
  lemma EvalMoveLeads(s: State, e: Proc, m: Move, e': Proc)
    requires e.Eval? && e'.Eval? && EvalLocal(s, e, m) == Some(e') && m != Inspect && !m.SeeClosed? && !m.KeepHead?
    ensures e' == e.(pc := e'.pc, success := e'.success) && e'.pc != Current && e'.pc != Cleared
    ensures HeadBound(e'.pc) ==> HeadBound(e.pc)
    ensures EvidenceTaken(e'.pc) ==> EvidenceTaken(e.pc) && (FenceChecked(e'.pc) ==> FenceChecked(e.pc))
    ensures !EvidenceTaken(e'.pc) ==> e' == e.(pc := e'.pc)
  {
  }

  lemma EvalLocalKeeps(s: State, p: Pid, e: Proc, m: Move, proc': Proc)
    requires e.Eval? && e == ProcAt(s, p) && EvalOk(s, p, e) && FreshIfPublishable(s, e)
    requires EvalLocal(s, e, m) == Some(proc')
    ensures ProcOk(s, p, proc') && ReadyAllowed(s, p, proc')
  {
    if m == Inspect {
      EvalCheckKeeps(s, p, e, proc');
    } else if m.SeeClosed? || m.KeepHead? {
      SameClaim(s, p, e, proc');
    } else if proc'.Eval? {
      EvalMoveLeads(s, e, m, proc');
      if EvidenceTaken(proc'.pc) { Advances(s, p, e, proc'); } else { Leaves(s, p, e, proc'.pc); }
    }
  }

  lemma EvalFacts(s: State, p: Pid, e: Proc)
    requires Inv(s) && e == ProcAt(s, p) && e.Eval?
    ensures EvalOk(s, p, e) && FreshIfPublishable(s, e)
  {
    assert ProcOk(s, p, e);
    if HeadBound(e.pc) && SharedGenerationIsPublishable(s.db, e.job, e.sha) { PublishableIsFresh(s, p, e); }
  }

  /** Whoever holds the writer guard of h excludes every worker ready to publish at h. */
  lemma GuardExcludesReady(s: State, p: Pid, h: HeadKey)
    requires GuardsExclusive(s) && p in s.procs
    requires WriterGuard(s.procs[p]) == Some(KeyOf(h)) && !s.procs[p].Eval?
    ensures NobodyReady(s, h)
  {
  }

  lemma InvalLocalKeeps(s: State, p: Pid, m: Move, proc': Proc)
    requires Inv(s) && ProcAt(s, p).Inval? && InvalLocal(s, ProcAt(s, p), m) == Some(proc')
    ensures ProcOk(SetProc(s, p, proc'), p, proc') && ReadyAllowed(s, p, proc')
  {
    var i := ProcAt(s, p);
    var h := i.claim.head;
    assert ProcOk(s, p, i) && HeadOk(s, h);
    if InvalHoldsWriter(i.ipc) {
      GuardExcludesReady(s, p, h);
    }
    if proc'.Inval? && (proc'.ipc == IPast || proc'.ipc == IFan) && OwnsInvalidation(s.db, i.claim) {
      assert NobodyReady(s, h);
      assert NobodyReady(SetProc(s, p, proc'), h);
    }
  }

  lemma FastLocalKeeps(s: State, p: Pid, m: Move, proc': Proc)
    requires Inv(s) && ProcAt(s, p).Fast? && FastLocal(s, ProcAt(s, p), m) == Some(proc')
    ensures ProcOk(s, p, proc') && !proc'.Eval? && !proc'.Inval?
  {
    assert ProcOk(s, p, ProcAt(s, p)) && HeadOk(s, ProcAt(s, p).fastHead);
  }

  lemma EvalStaysEval(s: State, e: Proc, m: Move)
    requires e.Eval? && EvalLocal(s, e, m).Some?
    ensures !EvalLocal(s, e, m).value.Inval?
  {
  }

  lemma EvalMoveOk(s: State, p: Pid, m: Move, proc': Proc)
    requires Inv(s) && ProcAt(s, p).Eval? && EvalLocal(s, ProcAt(s, p), m) == Some(proc')
    ensures !proc'.Inval? && ProcOk(s, p, proc') && ReadyAllowed(s, p, proc')
  {
    var e := ProcAt(s, p);
    EvalFacts(s, p, e);
    EvalStaysEval(s, e, m);
    EvalLocalKeeps(s, p, e, m, proc');
  }

  lemma LocalProcOk(s: State, p: Pid, m: Move, proc': Proc)
    requires Inv(s) && LocalMove(s, p, m) == Some(proc')
    ensures ProcOk(SetProc(s, p, proc'), p, proc') && ReadyAllowed(s, p, proc')
  {
    var proc := ProcAt(s, p);
    if proc.Inval? {
      InvalLocalKeeps(s, p, m, proc');
    } else {
      if proc.Eval? {
        EvalMoveOk(s, p, m, proc');
      } else if proc.Fast? {
        FastLocalKeeps(s, p, m, proc');
      }
      if !proc'.Inval? { ProcFrame(s, p, proc'); }
    }
  }

  lemma LocalKeeps(s: State, p: Pid, m: Move)
    requires Inv(s) && Apply(s, Local(p, m)).Some?
    ensures Inv(Apply(s, Local(p, m)).value)
  {
    var proc' := LocalMove(s, p, m).value;
    LocalProcOk(s, p, m, proc');
    ProcChange(s, p, proc');
  }

  // ---- Check writes ----------------------------------------------------------

  function WithCheck(s: State, w: CheckWrite): State {
    s.(reg := s.reg[w.head := w.check])
  }

  lemma WriterHolds(s: State, p: Pid)
    requires PendingWrite(s, p).Some?
    ensures WriterGuard(ProcAt(s, p)) == Some(KeyOf(PendingWrite(s, p).value.head))
  {
  }

  lemma WriteHead(s: State, p: Pid, w: CheckWrite)
    requires Inv(s) && PendingWrite(s, p) == Some(w)
    ensures forall h :: HeadOk(WithCheck(s, w), h)
  {
    var s' := WithCheck(s, w);
    assert ProcOk(s, p, ProcAt(s, p));
    forall h ensures HeadOk(s', h) {
      assert HeadOk(s, h);
    }
  }

  lemma WriteOthers(s: State, p: Pid, w: CheckWrite, q: Pid)
    requires Inv(s) && PendingWrite(s, p) == Some(w) && q in s.procs && q != p
    ensures ProcOk(WithCheck(s, w), q, s.procs[q])
  {
    WriterHolds(s, p);
    assert ProcOk(s, q, s.procs[q]);
    if s.procs[q].Inval? && s.procs[q].claim.head == w.head && w.check.Done? {
      assert ReadyToPublish(s.procs[p], w.head);
    }
  }

  lemma EvalWriteLeads(s: State, p: Pid, e: Proc, w: CheckWrite, proc': Proc)
    requires e.Eval? && e == ProcAt(s, p) && PendingWrite(s, p) == Some(w)
    requires proc' == w.acknowledged || proc' == w.uncertain
    ensures proc'.Eval? && proc' == e.(pc := proc'.pc) && !EvidenceTaken(proc'.pc)
    ensures HeadBound(proc'.pc) ==> HeadBound(e.pc)
    ensures WriterGuard(proc') == None || WriterGuard(proc') == WriterGuard(e)
  {
  }

  lemma EvalWriterContinues(s: State, s': State, p: Pid, e: Proc, w: CheckWrite, proc': Proc)
    requires e.Eval? && e == ProcAt(s, p) && EvalOk(s, p, e) && PendingWrite(s, p) == Some(w)
    requires s' == s || s' == WithCheck(s, w)
    requires proc' == w.acknowledged || proc' == w.uncertain
    ensures EvalOk(s', p, proc') && (forall h :: !ReadyToPublish(proc', h))
    ensures WriterGuard(proc') == None || WriterGuard(proc') == WriterGuard(e)
  {
    EvalWriteLeads(s, p, e, w, proc');
    SameClaim(s, p, e, proc');
  }

  /** Before an acknowledged reset, an invalidator excludes every worker ready to publish. */
  lemma InvalWriterContinues(s: State, p: Pid, i: Proc, w: CheckWrite)
    requires GuardsExclusive(s) && p in s.procs
    requires i.Inval? && i == ProcAt(s, p) && InvalOk(s, p, i) && PendingWrite(s, p) == Some(w)
    ensures var s' := SetProc(WithCheck(s, w), p, w.acknowledged);
            w.acknowledged.Inval? && w.acknowledged.ipc == IPast && InvalOk(s', p, w.acknowledged)
    ensures w.uncertain.Inval? && w.uncertain.ipc == IRaising && w.uncertain.claim == i.claim
  {
    GuardExcludesReady(s, p, w.head);
    var s' := SetProc(WithCheck(s, w), p, w.acknowledged);
    assert NobodyReady(s', w.head);
  }

  lemma EvalWriterOk(s: State, p: Pid, w: CheckWrite, s': State, proc': Proc)
    requires Inv(s) && PendingWrite(s, p) == Some(w) && ProcAt(s, p).Eval? && (s' == s || s' == WithCheck(s, w))
    requires proc' == w.acknowledged || proc' == w.uncertain
    ensures ProcOk(SetProc(s', p, proc'), p, proc') && ReadyAllowed(s', p, proc') && GuardAllowed(s', p, proc')
  {
    var e := ProcAt(s, p);
    assert ProcOk(s, p, e);
    EvalWriteLeads(s, p, e, w, proc');
    EvalWriterContinues(s, s', p, e, w, proc');
    ProcFrame(s', p, proc');
  }

  /** What the writer itself may assume after its write. */
  lemma WriterContinues(s: State, p: Pid, w: CheckWrite, s': State, proc': Proc)
    requires Inv(s) && PendingWrite(s, p) == Some(w)
    requires (s' == WithCheck(s, w) && proc' == w.acknowledged) || ((s' == s || s' == WithCheck(s, w)) && proc' == w.uncertain)
    ensures ProcOk(SetProc(s', p, proc'), p, proc') && ReadyAllowed(s', p, proc') && GuardAllowed(s', p, proc')
  {
    var proc := ProcAt(s, p);
    if proc.Eval? {
      EvalWriterOk(s, p, w, s', proc');
    } else if proc.Inval? {
      assert ProcOk(s, p, proc);
      InvalWriterContinues(s, p, proc, w);
    }
  }

  lemma WriteKeeps(s: State, p: Pid, applied: bool, acknowledged: bool)
    requires Inv(s) && Apply(s, Write(p, applied, acknowledged)).Some?
    ensures Inv(Apply(s, Write(p, applied, acknowledged)).value)
  {
    var w := PendingWrite(s, p).value;
    var s' := if applied then WithCheck(s, w) else s;
    WriterContinues(s, p, w, s', if acknowledged then w.acknowledged else w.uncertain);
    forall h ensures EpochOk(s', h) { assert EpochOk(s, h); }
    forall k ensures RowOk(s', k) { assert RowOk(s, k); }
    if applied {
      WriteHead(s, p, w);
      forall q | q in s.procs && q != p ensures ProcOk(s', q, s.procs[q]) { WriteOthers(s, p, w, q); }
    }
    ProcChange(s', p, if acknowledged then w.acknowledged else w.uncertain);
  }

  lemma SeePullsKeeps(s: State, p: Pid, open: bool)
    requires Inv(s) && Apply(s, SeePulls(p, open)).Some?
    ensures Inv(Apply(s, SeePulls(p, open)).value)
  {
    var i := ProcAt(s, p);
    assert ProcOk(s, p, i);
    var s' := if open then s else s.(hist := Waive(s.hist, i.claim.head));
    forall h ensures EpochOk(s', h) && HeadOk(s', h) { assert EpochOk(s, h) && HeadOk(s, h); }
    forall k ensures RowOk(s', k) { assert RowOk(s, k); }
    forall q | q in s.procs && q != p ensures ProcOk(s', q, s.procs[q]) { assert ProcOk(s, q, s.procs[q]); }
    ProcChange(s', p, i.(ipc := IPulls(open)));
  }

  // ---- Store transactions ------------------------------------------------------

  lemma SameFences(s: State, db': Db)
    requires db'.fences <= s.db.fences && db'.authEpochs == s.db.authEpochs
    ensures FencesKept(s, db')
  {
  }

  /** The claimant's own facts survive its lease renewal. */
  lemma RenewEval(s: State, p: Pid, e: Proc, until: Time)
    requires Inv(s) && ProcAt(s, p) == e && e.Eval?
    ensures var s' := SetProc(Commit(s, RenewClaim(s.db, e.job, until)), p, e); ProcOk(s', p, e)
  {
    assert ProcOk(s, p, e);
    var db' := RenewClaim(s.db, e.job, until);
    RenewTx(s, e.job, until);
    if e.pc == Current || e.pc == Cleared {
      TxSeen(s, db', p, None, EvalHead(e), e.seen);
    }
    assert RowStep(s.db, db', p, e.job.pull);
  }

  /** A claimant's transaction that leaves its own row alone, or supersedes it, keeps its claim facts. */
  lemma OwnClaim(s: State, db': Db, p: Pid, e: Proc, pc: EvalPc)
    requires e.Eval? && EvalOk(s, p, e) && s.db.nextId <= db'.nextId && RowStep(s.db, db', p, e.job.pull)
    requires pc == Returning || pc == Raising
    requires var r := e.job.pull; r in db'.jobs && r in s.db.jobs && db'.jobs[r].id == s.db.jobs[r].id ==>
               db'.jobs[r] == s.db.jobs[r] || db'.jobs[r].generation > s.db.jobs[r].generation
    ensures ProcOk(SetProc(Commit(s, db'), p, e.(pc := pc)), p, e.(pc := pc))
  {
  }

  lemma LeftQuietly(e: Proc, pc: EvalPc)
    requires e.Eval? && (pc == Returning || pc == Raising)
    ensures WriterGuard(e.(pc := pc)) == None && forall h :: !ReadyToPublish(e.(pc := pc), h)
  {
  }

  /** A worker that has left its publishing section only owes its claim facts. */
  lemma SettlesDown(s: State, db': Db, p: Pid, e: Proc, pc: EvalPc)
    requires Inv(s) && e == ProcAt(s, p) && e.Eval? && Tx(s, db', p, None) && FencesKept(s, db')
    requires pc == Returning || pc == Raising
    requires var r := e.job.pull; r in db'.jobs && r in s.db.jobs && db'.jobs[r].id == s.db.jobs[r].id ==>
               db'.jobs[r] == s.db.jobs[r] || db'.jobs[r].generation > s.db.jobs[r].generation
    ensures Inv(SetProc(Commit(s, db'), p, e.(pc := pc)))
  {
    assert ProcOk(s, p, e);
    assert RowStep(s.db, db', p, e.job.pull);
    OwnClaim(s, db', p, e, pc);
    LeftQuietly(e, pc);
    TxKeeps(s, db', p, None, e.(pc := pc));
  }

  lemma RenewKeeps(s: State, p: Pid, e: Proc, until: Time)
    requires Inv(s) && e == ProcAt(s, p) && e.Eval?
    ensures Inv(SetProc(Commit(s, RenewClaim(s.db, e.job, until)), p, e))
  {
    assert ProcOk(s, p, e);
    RenewTx(s, e.job, until);
    RenewEval(s, p, e, until);
    TxKeeps(s, RenewClaim(s.db, e.job, until), p, None, e);
  }

  lemma SeeNewHeadKeeps(s: State, p: Pid, e: Proc, sha: string)
    requires Inv(s) && e == ProcAt(s, p) && e.Eval?
    ensures var r := WorkerRequest(e.job.pull, sha, e.job.workClass);
            Inv(SetProc(Commit(s, EnqueueSharedHeadTrigger(s.db, r, s.now)), p, e.(pc := Returning)))
  {
    var r := WorkerRequest(e.job.pull, sha, e.job.workClass);
    TriggerTx(s, r, p);
    SettlesDown(s, EnqueueSharedHeadTrigger(s.db, r, s.now), p, e, Returning);
  }

  lemma RebindKeeps(s: State, p: Pid, e: Proc, current: nat, pc: EvalPc)
    requires Inv(s) && e == ProcAt(s, p) && e.Eval? && (pc == Returning || pc == Raising)
    ensures var r := WorkerRequest(e.job.pull, e.sha, e.job.workClass);
            Inv(SetProc(Commit(s, EnqueueForGeneration(s.db, r, current, s.now)), p, e.(pc := pc)))
  {
    var r := WorkerRequest(e.job.pull, e.sha, e.job.workClass);
    FanOutTx(s, r, current, p);
    SettlesDown(s, EnqueueForGeneration(s.db, r, current, s.now), p, e, pc);
  }

  /** A bound claim carries the head's new generation, and was bound by this transaction. */
  lemma BoundKeeps(s: State, p: Pid, e: Proc, sha: string, e': Proc)
    requires Inv(s) && e == ProcAt(s, p) && e.Eval? && e.pc == Start && e.job.head.None? && CanBind(s.db, e.job)
    requires EvalStore(s, e, BindHead(sha)) == Some((BindClaim(s.db, e.job, sha, s.now), e'))
    ensures Inv(SetProc(Commit(s, BindClaim(s.db, e.job, sha, s.now)), p, e'))
  {
    var db' := BindClaim(s.db, e.job, sha, s.now);
    assert ProcOk(s, p, e) && RowOk(s, e.job.pull);
    BindTx(s, e.job, sha);
    SameFences(s, db');
    TxKeeps(s, db', p, None, e');
  }

  lemma BindHeadKeeps(s: State, p: Pid, e: Proc, sha: string)
    requires Inv(s) && e == ProcAt(s, p) && e.Eval? && EvalStore(s, e, BindHead(sha)).Some?
    ensures var (db', e') := EvalStore(s, e, BindHead(sha)).value; Inv(SetProc(Commit(s, db'), p, e'))
  {
    if CanBind(s.db, e.job) {
      BoundKeeps(s, p, e, sha, EvalStore(s, e, BindHead(sha)).value.1);
    } else {
      assert ProcOk(s, p, e);
      BindTx(s, e.job, sha);
      SettlesDown(s, BindClaim(s.db, e.job, sha, s.now), p, e, Returning);
    }
  }

  lemma ReleaseKeeps(s: State, p: Pid, e: Proc, delay: nat, refund: bool, revoke: bool)
    requires Inv(s) && e == ProcAt(s, p) && e.Eval? && (refund || revoke)
    ensures Inv(SetProc(Commit(s, Release(s.db, e.job, s.now, delay, refund, revoke)), p, Idle))
  {
    assert ProcOk(s, p, e);
    ReleaseTx(s, e.job, delay, refund, revoke);
    TxKeeps(s, Release(s.db, e.job, s.now, delay, refund, revoke), p, None, Idle);
  }

  lemma CompleteKeeps(s: State, p: Pid, e: Proc)
    requires Inv(s) && e == ProcAt(s, p) && e.Eval?
    ensures Inv(SetProc(Commit(s, Complete(s.db, e.job, s.now)), p, Idle))
  {
    assert ProcOk(s, p, e);
    CompleteTx(s, e.job);
    TxKeeps(s, Complete(s.db, e.job, s.now), p, None, Idle);
  }

  lemma EvalStoreKeeps(s: State, p: Pid, e: Proc, m: StoreCall)
    requires Inv(s) && e == ProcAt(s, p) && e.Eval? && EvalStore(s, e, m).Some?
    ensures var (db', e') := EvalStore(s, e, m).value; Inv(SetProc(Commit(s, db'), p, e'))
  {
    match m
    case Renew(until) => RenewKeeps(s, p, e, until);
    case SeeNewHead(sha) => SeeNewHeadKeeps(s, p, e, sha);
    case BindHead(sha) => BindHeadKeeps(s, p, e, sha);
    case Rebind => RebindKeeps(s, p, e, e.pc.current, EvalStore(s, e, m).value.1.pc);
    case Finish => CompleteKeeps(s, p, e);
    case FailWith(delay) => ReleaseKeeps(s, p, e, delay, false, true);
    case DeferWith(delay, limit) =>
      ReleaseKeeps(s, p, e, ClampedDelay(delay), true, PastRecheckLimit(e.job, s.now, delay, limit));
  }

  lemma RenewInval(s: State, p: Pid, i: Proc, until: Time)
    requires Inv(s) && ProcAt(s, p) == i && i.Inval?
    ensures var s' := SetProc(Commit(s, RenewInvalidation(s.db, i.claim, s.now, until)), p, i); ProcOk(s', p, i)
  {
    assert ProcOk(s, p, i);
  }

  lemma FanOutKeepsOwnership(s: State, p: Pid, i: Proc, number: nat)
    requires Inv(s) && ProcAt(s, p) == i && i.Inval? && InvalStore(s, i, FanTo(number)).Some?
    ensures var (db', i') := InvalStore(s, i, FanTo(number)).value; ProcOk(SetProc(Commit(s, db'), p, i'), p, i')
  {
    assert ProcOk(s, p, i);
    var (db', i') := InvalStore(s, i, FanTo(number)).value;
    var s' := SetProc(Commit(s, db'), p, i');
    assert db'.epochs == s.db.epochs;
    assert !Advanced(s.db, db', i.claim.head);
    if OwnsInvalidation(s.db, i.claim) {
      assert NobodyReady(s, i.claim.head);
    }
  }

  lemma FinishInvalKeeps(s: State, p: Pid, i: Proc)
    requires Inv(s) && i == ProcAt(s, p) && i.Inval? && i.ipc == IPast
    ensures Inv(SetProc(Commit(s, CompleteInvalidation(s.db, i.claim, s.now)), p, Idle))
  {
    assert ProcOk(s, p, i);
    if IsCurrentInvalidation(s.db, i.claim, s.now) {
      InvalidationTx(s, i.claim, 0, 0, false);
      TxKeeps(s, CompleteInvalidation(s.db, i.claim, s.now), p, Some(i.claim.head), Idle);
    } else {
      UnchangedTx(s, p);
      TxKeeps(s, s.db, p, None, Idle);
    }
  }

  lemma ReleaseInvalKeeps(s: State, p: Pid, i: Proc, delay: nat, refund: bool)
    requires Inv(s) && i == ProcAt(s, p) && i.Inval?
    ensures Inv(SetProc(Commit(s, ReleaseInvalidation(s.db, i.claim, s.now, delay, refund)), p, Idle))
  {
    assert ProcOk(s, p, i);
    InvalidationTx(s, i.claim, 0, delay, refund);
    TxKeeps(s, ReleaseInvalidation(s.db, i.claim, s.now, delay, refund), p, None, Idle);
  }

  lemma RenewInvalKeeps(s: State, p: Pid, i: Proc, until: Time)
    requires Inv(s) && i == ProcAt(s, p) && i.Inval?
    ensures Inv(SetProc(Commit(s, RenewInvalidation(s.db, i.claim, s.now, until)), p, i))
  {
    assert ProcOk(s, p, i);
    InvalidationTx(s, i.claim, until, 0, false);
    RenewInval(s, p, i, until);
    TxKeeps(s, RenewInvalidation(s.db, i.claim, s.now, until), p, None, i);
  }

  lemma FanToLeads(s: State, i: Proc, number: nat)
    requires i.Inval? && InvalStore(s, i, FanTo(number)).Some?
    ensures var (db', i') := InvalStore(s, i, FanTo(number)).value; var h := i.claim.head;
            && db' == EnqueueForGeneration(
                 s.db, WorkerRequest(PullKey(h.inst, h.repo, number), h.sha, Recovery), i.claim.generation, s.now)
            && i'.Inval? && WriterGuard(i') == None
  {
  }

  lemma FanToKeeps(s: State, p: Pid, i: Proc, number: nat)
    requires Inv(s) && i == ProcAt(s, p) && i.Inval? && InvalStore(s, i, FanTo(number)).Some?
    ensures var (db', i') := InvalStore(s, i, FanTo(number)).value; Inv(SetProc(Commit(s, db'), p, i'))
  {
    var h := i.claim.head;
    var r := WorkerRequest(PullKey(h.inst, h.repo, number), h.sha, Recovery);
    var db' := EnqueueForGeneration(s.db, r, i.claim.generation, s.now);
    FanToLeads(s, i, number);
    FanOutTx(s, r, i.claim.generation, p);
    FanOutKeepsFences(s.db, r, i.claim.generation, s.now);
    SameFences(s, db');
    FanOutKeepsOwnership(s, p, i, number);
    TxKeeps(s, db', p, None, InvalStore(s, i, FanTo(number)).value.1);
  }

  lemma InvalStoreKeeps(s: State, p: Pid, i: Proc, m: StoreCall)
    requires Inv(s) && i == ProcAt(s, p) && i.Inval? && InvalStore(s, i, m).Some?
    ensures var (db', i') := InvalStore(s, i, m).value; Inv(SetProc(Commit(s, db'), p, i'))
  {
    match m
    case Renew(until) => RenewInvalKeeps(s, p, i, until);
    case FanTo(number) => FanToKeeps(s, p, i, number);
    case Finish => FinishInvalKeeps(s, p, i);
    case FailWith(delay) => ReleaseInvalKeeps(s, p, i, delay, false);
    case DeferWith(delay, _) => ReleaseInvalKeeps(s, p, i, delay, true);
  }

  lemma BeginEvalKeeps(s: State, p: Pid, pull: PullKey, until: Time)
    requires Inv(s) && ProcAt(s, p).Idle? && StoreMove(s, p, BeginEval(pull, until)).Some?
    ensures Inv(Apply(s, Store(p, BeginEval(pull, until))).value)
  {
    var (db', proc') := StoreMove(s, p, BeginEval(pull, until)).value;
    assert RowOk(s, pull);
    ClaimTx(s, pull, p, until);
    SameFences(s, db');
    TxKeeps(s, db', p, None, proc');
  }

  lemma BeginInvalKeeps(s: State, p: Pid, h: HeadKey, until: Time)
    requires Inv(s) && ProcAt(s, p).Idle? && StoreMove(s, p, BeginInval(h, until)).Some?
    ensures Inv(Apply(s, Store(p, BeginInval(h, until))).value)
  {
    var (db', proc') := StoreMove(s, p, BeginInval(h, until)).value;
    ClaimInvalidationTx(s, h, p, until);
    SameFences(s, db');
    TxKeeps(s, db', p, None, proc');
  }

  lemma BeginKeeps(s: State, p: Pid, m: StoreCall)
    requires Inv(s) && ProcAt(s, p).Idle? && StoreMove(s, p, m).Some?
    ensures Inv(Apply(s, Store(p, m)).value)
  {
    if m.BeginEval? { BeginEvalKeeps(s, p, m.pull, m.until); } else { BeginInvalKeeps(s, p, m.head, m.until); }
  }

  // ---- Transactions from outside -------------------------------------------------

  lemma {:induction false} FreshPid(pids: set<Pid>) returns (unused: Pid)
    ensures forall p :: p in pids ==> p < unused
  {
    if pids == {} {
      unused := 0;
    } else {
      var x :| x in pids;
      var rest := FreshPid(pids - {x});
      unused := rest + x + 1;
      assert forall p :: p in pids ==> p == x || p in pids - {x};
    }
  }

  /** Queue transactions leave authority rows and epochs alone. */
  lemma QueueKeepsFences(s: State, t: ClientTx)
    requires ClientEnabled(s, t) && !t.ClientAuthority? && !t.ClientChildren? && !t.ClientFenceDone?
    ensures ClientApply(s, t).fences == s.db.fences && ClientApply(s, t).authEpochs == s.db.authEpochs
  {
    if t.ClientReconcile? {
      ReconcileKeepsFences(s.db, t.r, t.observedAt, t.recheckSeconds, s.now);
    } else if !t.ClientPrune? {
      EnqueueKeepsFences(s.db, t.r, s.now);
    }
  }

  /** No publisher holds the shared side while an authority change is accepted, and children need their parent. */
  lemma ClientFences(s: State, t: ClientTx)
    requires ClientEnabled(s, t)
    ensures FencesKept(s, ClientApply(s, t))
  {
    if !t.ClientAuthority? && !t.ClientChildren? && !t.ClientFenceDone? {
      QueueKeepsFences(s, t);
      SameFences(s, ClientApply(s, t));
    }
  }

  lemma ClientTxOk(s: State, t: ClientTx, p: Pid)
    requires Inv(s) && ClientEnabled(s, t)
    ensures Tx(s, ClientApply(s, t), p, None)
  {
    match t
    case ClientEnqueue(r) => EnqueueTx(s, r, p);
    case ClientIfAbsent(r) => if r.pull in s.db.jobs { UnchangedTx(s, p); } else { EnqueueTx(s, r, p); }
    case ClientReconcile(r, observedAt, recheck) => ReconcileTx(s, r, observedAt, recheck, p);
    case ClientPrune(olderThan) => PruneTx(s, olderThan, p);
    case ClientAuthority(_, _) => FenceTx(s, ClientApply(s, t), p);
    case ClientChildren(_, _) => FenceTx(s, ClientApply(s, t), p);
    case ClientFenceDone(_) => FenceTx(s, ClientApply(s, t), p);
  }

  lemma ClientKeeps(s: State, t: ClientTx)
    requires Inv(s) && ClientEnabled(s, t)
    ensures Inv(Commit(s, ClientApply(s, t)))
  {
    var db' := ClientApply(s, t);
    var p := FreshPid(s.procs.Keys);
    ClientTxOk(s, t, p);
    ClientFences(s, t);
    TxRows(s, db', p, None);
    TxHeads(s, db', p, None);
    forall q | q in s.procs ensures ProcOk(Commit(s, db'), q, s.procs[q]) { TxOthers(s, db', p, None, q); }
  }

  // ---- The invariant in every reachable state -------------------------------------

  lemma StepKeeps(s: State, step: Step)
    requires Inv(s) && Apply(s, step).Some?
    ensures Inv(Apply(s, step).value)
  {
    match step
    case Tick(d) =>
      var s' := s.(now := s.now + d);
      forall h ensures EpochOk(s', h) && HeadOk(s', h) { assert EpochOk(s, h) && HeadOk(s, h); }
      forall k ensures RowOk(s', k) { assert RowOk(s, k); }
      forall q | q in s.procs ensures ProcOk(s', q, s.procs[q]) { assert ProcOk(s, q, s.procs[q]); }
    case Client(tx) => ClientKeeps(s, tx);
    case Local(p, m) => LocalKeeps(s, p, m);
    case Store(p, m) =>
      match ProcAt(s, p) {
        case Idle => BeginKeeps(s, p, m);
        case Eval(_, _, _, _, _, _, _, _) => EvalStoreKeeps(s, p, ProcAt(s, p), m);
        case Inval(_, _) => InvalStoreKeeps(s, p, ProcAt(s, p), m);
        case _ =>
      }
    case Write(p, applied, acknowledged) => WriteKeeps(s, p, applied, acknowledged);
    case SeePulls(p, open) => SeePullsKeeps(s, p, open);
  }

  lemma {:induction false} RunKeeps(steps: seq<Step>)
    ensures Run(steps).Some? ==> Inv(Run(steps).value)
  {
    if steps != [] {
      RunKeeps(steps[..|steps| - 1]);
      if Run(steps).Some? {
        StepKeeps(Run(steps[..|steps| - 1]).value, steps[|steps| - 1]);
      }
    }
  }
}
