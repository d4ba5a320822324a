/**
 What surrounds a completing write.  Between a worker's own revocation of the check and
 its write nothing older than that revocation is shown; and a worker that finishes with
 its result in place has confirmed it after writing it.
 */
module PublicationPhases {
  import opened Options
  import opened Queue
  import opened Publication

  /** What a worker has done since its result was acknowledged. */
  datatype Aftermath = Aftermath(wrote: bool, restored: bool, held: bool, publishable: bool, alone: bool)

  const NOTHING: Aftermath := Aftermath(false, false, false, false, false)

  /**
   Bookkeeping that no code reads: check writes in the order they took effect, the last
   write that showed a result at each head, each worker's own revocation, and what it
   has observed since its result was acknowledged.
   */
  datatype Watch = Watch(
    writes: nat, doneAt: HeadKey -> nat, revokedAt: Pid -> nat, aftermath: Pid -> Aftermath)

  function WatchWrite(s: State, w: CheckWrite, p: Pid, applied: bool, acknowledged: bool, watch: Watch): Watch {
    var n := if applied then watch.writes + 1 else watch.writes;
    var a := watch.aftermath(p);
    Watch(n,
          (h: HeadKey) => if applied && h == w.head && w.check.Done? then n else watch.doneAt(h),
          (q: Pid) => if q == p && acknowledged && w.check == Blocking then n else watch.revokedAt(q),
          (q: Pid) =>
            if q != p then watch.aftermath(q)
            else if w.check.Done? then (if acknowledged then NOTHING.(wrote := true) else a)
            else a.(restored := true))
  }

  /** What the worker reads after its write: its claim, then the head's generation, then whether it is alone. */
  function WatchInspect(s: State, e: Proc, a: Aftermath): Aftermath
    requires e.Eval?
  {
    match e.pc
    case Wrote => a.(held := IsCurrentClaim(s.db, e.job, s.now))
    case WroteClaimOk => a.(publishable := SharedGenerationIsPublishable(s.db, e.job, e.sha))
    case Tail => a.(alone := Alone(s, e))
    case TailGuarded => a.(alone := Alone(s, e))
    case _ => a
  }

  /** No superseding row and no authority fence. */
  predicate Alone(s: State, e: Proc)
    requires e.Eval?
  {
    !HasSupersedingJob(s.db, e.job) && !Blocked(s.db, e.job.pull.inst, e.job.pull.repo)
  }

  function SetAftermath(watch: Watch, p: Pid, a: Aftermath): Watch {
    Watch(watch.writes, watch.doneAt, watch.revokedAt, (q: Pid) => if q == p then a else watch.aftermath(q))
  }

  function WatchStep(s: State, step: Step, watch: Watch): Watch {
    match step
    case Write(p, applied, acknowledged) => (
      match PendingWrite(s, p)
      case Some(w) => WatchWrite(s, w, p, applied, acknowledged, watch)
      case None => watch)
    case Local(p, m) =>
      if m == Inspect && ProcAt(s, p).Eval?
      then SetAftermath(watch, p, WatchInspect(s, ProcAt(s, p), watch.aftermath(p))) else watch
    case Store(p, m) => if m.BeginEval? then SetAftermath(watch, p, NOTHING) else watch
    case _ => watch
  }

  function Unwatched(): Watch {
    Watch(0, (h: HeadKey) => 0, (p: Pid) => 0, (p: Pid) => NOTHING)
  }

  function Watched(steps: seq<Step>): Watch {
    if steps == [] then Unwatched()
    else match Run(steps[..|steps| - 1])
      case Some(s) => WatchStep(s, steps[|steps| - 1], Watched(steps[..|steps| - 1]))
      case None => Unwatched()
  }

  // ---- Invariant ------------------------------------------------------------------

  /** From the worker's own revocation to its write. */
  predicate AfterRevocation(pc: EvalPc) {
    pc == Revoked || pc == Invalidated || pc == Ready || EvidenceTaken(pc)
  }

  predicate AfterWrite(pc: EvalPc) {
    match pc
    case Wrote | WroteClaimOk | Restoring(_) | Tail | TailContended | TailGuarded | TailConfirmed => true
    case _ => false
  }

  predicate Finishing(pc: EvalPc) {
    pc == Returning || pc == Raising
  }

  predicate Confirmed(a: Aftermath) {
    a.held && a.publishable && a.alone
  }

  ghost predicate RevokedOk(s: State, watch: Watch, p: Pid, e: Proc)
    requires e.Eval?
  {
    AfterRevocation(e.pc) && !e.job.KeepsPublishedCheck() && Shown(s, EvalHead(e)).Done? ==>
      watch.revokedAt(p) < watch.doneAt(EvalHead(e))
  }

  ghost predicate AftermathOk(a: Aftermath, pc: EvalPc) {
    && (!AfterWrite(pc) && !Finishing(pc) ==> !a.wrote)
    && (pc == Wrote ==> a.wrote)
    && (pc == WroteClaimOk ==> a.held)
    && (pc == Tail || pc == TailContended || pc == TailGuarded ==> a.held && a.publishable)
    && (pc == Returning && a.wrote && !a.restored ==> Confirmed(a))
  }

  ghost predicate PhaseOk(s: State, watch: Watch, p: Pid, e: Proc)
    requires e.Eval?
  {
    RevokedOk(s, watch, p, e) && AftermathOk(watch.aftermath(p), e.pc)
  }

  ghost predicate PhaseInv(s: State, watch: Watch) {
    && (forall p :: watch.revokedAt(p) <= watch.writes)
    && (forall p :: p in s.procs && s.procs[p].Eval? ==> PhaseOk(s, watch, p, s.procs[p]))
  }

  // ---- Preservation ----------------------------------------------------------------

  /** A step that writes nothing and changes only worker p. */
  lemma QuietKeeps(s: State, s': State, watch: Watch, watch': Watch, p: Pid)
    requires PhaseInv(s, watch) && s'.reg == s.reg
    requires watch'.writes == watch.writes && watch'.doneAt == watch.doneAt && watch'.revokedAt == watch.revokedAt
    requires forall q :: q in s'.procs && q != p ==> q in s.procs && s'.procs[q] == s.procs[q]
    requires forall q :: q != p ==> watch'.aftermath(q) == watch.aftermath(q)
    requires p in s'.procs && s'.procs[p].Eval? ==> PhaseOk(s', watch', p, s'.procs[p])
    ensures PhaseInv(s', watch')
  {
    forall q | q in s'.procs && s'.procs[q].Eval? ensures PhaseOk(s', watch', q, s'.procs[q]) {
      if q != p { assert PhaseOk(s, watch, q, s.procs[q]); }
    }
  }

  lemma InspectKeeps(s: State, watch: Watch, p: Pid, e: Proc, e': Proc)
    requires e.Eval? && EvalCheck(s, e) == Some(e') && PhaseOk(s, watch, p, e)
    ensures e'.Eval? && AftermathOk(WatchInspect(s, e, watch.aftermath(p)), e'.pc)
    ensures RevokedOk(s, watch, p, e')
  {
    assert e'.job == e.job && e'.sha == e.sha;
  }

  lemma OtherMovesKeep(s: State, watch: Watch, p: Pid, e: Proc, m: Move, e': Proc)
    requires e.Eval? && e'.Eval? && m != Inspect && EvalLocal(s, e, m) == Some(e') && PhaseOk(s, watch, p, e)
    ensures PhaseOk(s, watch, p, e')
  {
  }

  lemma LocalKeepsPhase(s: State, watch: Watch, p: Pid, m: Move)
    requires PhaseInv(s, watch) && Apply(s, Local(p, m)).Some?
    ensures PhaseInv(Apply(s, Local(p, m)).value, WatchStep(s, Local(p, m), watch))
  {
    var s', watch' := Apply(s, Local(p, m)).value, WatchStep(s, Local(p, m), watch);
    var e := ProcAt(s, p);
    if e.Eval? {
      assert PhaseOk(s, watch, p, e);
      if m == Inspect {
        InspectKeeps(s, watch, p, e, s'.procs[p]);
      } else if s'.procs[p].Eval? {
        OtherMovesKeep(s, watch, p, e, m, s'.procs[p]);
      }
    }
    QuietKeeps(s, s', watch, watch', p);
  }

  /** A transaction renews the claim where it stands, leaves the revocation still ahead, or ends the evaluation. */
  lemma StoreLeads(s: State, p: Pid, m: StoreCall)
    requires StoreMove(s, p, m).Some?
    ensures var e, e' := ProcAt(s, p), StoreMove(s, p, m).value.1;
            e'.Eval? ==>
              || (m.BeginEval? && e'.pc == Start)
              || (e.Eval? && !m.BeginEval? && e' == e)
              || (e.Eval? && !m.BeginEval? && !AfterWrite(e.pc) && !Finishing(e.pc)
                  && (e'.pc == Bound || Finishing(e'.pc)))
  {
  }

  lemma StoreKeepsPhase(s: State, watch: Watch, p: Pid, m: StoreCall)
    requires PhaseInv(s, watch) && Apply(s, Store(p, m)).Some?
    ensures PhaseInv(Apply(s, Store(p, m)).value, WatchStep(s, Store(p, m), watch))
  {
    var (db', e') := StoreMove(s, p, m).value;
    var s', watch' := SetProc(Commit(s, db'), p, e'), WatchStep(s, Store(p, m), watch);
    if ProcAt(s, p).Eval? { assert PhaseOk(s, watch, p, ProcAt(s, p)); }
    StoreLeads(s, p, m);
    if e'.Eval? { StoredPhase(s, s', watch, watch', p, m, e'); }
    QuietKeeps(s, s', watch, watch', p);
  }

  lemma StoredPhase(s: State, s': State, watch: Watch, watch': Watch, p: Pid, m: StoreCall, e': Proc)
    requires s'.reg == s.reg && e'.Eval? && watch' == WatchStep(s, Store(p, m), watch)
    requires var e := ProcAt(s, p);
             || (m.BeginEval? && e'.pc == Start)
             || (e.Eval? && !m.BeginEval? && PhaseOk(s, watch, p, e)
                 && (e' == e || (!AfterWrite(e.pc) && !Finishing(e.pc) && (e'.pc == Bound || Finishing(e'.pc)))))
    ensures PhaseOk(s', watch', p, e')
  {
  }

  lemma WriteLeads(s: State, p: Pid, w: CheckWrite, acknowledged: bool, e: Proc, e': Proc)
    requires PendingWrite(s, p) == Some(w) && e == ProcAt(s, p) && e.Eval?
    requires e' == if acknowledged then w.acknowledged else w.uncertain
    ensures e'.Eval? && e'.job == e.job && EvalHead(e') == EvalHead(e) == w.head
    ensures if w.check.Done? then e'.pc == (if acknowledged then Wrote else Restoring(true))
            else (e'.pc == Revoked && acknowledged && w.check == Blocking) || Finishing(e'.pc)
    ensures w.check.Done? <==> e.pc == Cleared
    ensures e.pc == RevokeCurrent || AfterWrite(e.pc) || e.pc == Cleared || e.pc == ClosingGuarded
  {
  }

  lemma WriterPhase(s: State, watch: Watch, p: Pid, w: CheckWrite, applied: bool, acknowledged: bool, e': Proc)
    requires PendingWrite(s, p) == Some(w) && ProcAt(s, p).Eval? && PhaseOk(s, watch, p, ProcAt(s, p))
    requires e' == (if acknowledged then w.acknowledged else w.uncertain) && (acknowledged ==> applied)
    ensures e'.Eval?
    ensures var s' := if applied then s.(reg := s.reg[w.head := w.check]) else s;
            PhaseOk(s', WatchWrite(s, w, p, applied, acknowledged, watch), p, e')
  {
    WriteLeads(s, p, w, acknowledged, ProcAt(s, p), e');
  }

  lemma OtherPhase(s: State, watch: Watch, p: Pid, w: CheckWrite, applied: bool, acknowledged: bool, q: Pid, e: Proc)
    requires e.Eval? && PhaseOk(s, watch, q, e) && q != p && watch.revokedAt(q) <= watch.writes
    ensures var s' := if applied then s.(reg := s.reg[w.head := w.check]) else s;
            PhaseOk(s', WatchWrite(s, w, p, applied, acknowledged, watch), q, e)
  {
  }

  lemma WriteKeepsPhase(s: State, watch: Watch, p: Pid, applied: bool, acknowledged: bool)
    requires PhaseInv(s, watch) && Apply(s, Write(p, applied, acknowledged)).Some?
    ensures PhaseInv(Apply(s, Write(p, applied, acknowledged)).value, WatchStep(s, Write(p, applied, acknowledged), watch))
  {
    var w := PendingWrite(s, p).value;
    var proc' := if acknowledged then w.acknowledged else w.uncertain;
    var s1 := if applied then s.(reg := s.reg[w.head := w.check]) else s;
    var watch' := WatchWrite(s, w, p, applied, acknowledged, watch);
    forall q | q in s.procs && q != p && s.procs[q].Eval? ensures PhaseOk(s1, watch', q, s.procs[q]) {
      assert PhaseOk(s, watch, q, s.procs[q]) && watch.revokedAt(q) <= watch.writes;
      OtherPhase(s, watch, p, w, applied, acknowledged, q, s.procs[q]);
    }
    if ProcAt(s, p).Eval? {
      assert PhaseOk(s, watch, p, ProcAt(s, p));
      WriterPhase(s, watch, p, w, applied, acknowledged, proc');
    }
    RegisterPhase(s1, watch', p, proc');
    forall q ensures watch'.revokedAt(q) <= watch'.writes { assert watch.revokedAt(q) <= watch.writes; }
  }

  lemma RegisterPhase(s: State, watch: Watch, p: Pid, proc': Proc)
    requires forall q :: q in s.procs && q != p && s.procs[q].Eval? ==> PhaseOk(s, watch, q, s.procs[q])
    requires proc'.Eval? ==> PhaseOk(s, watch, p, proc')
    ensures var s' := SetProc(s, p, proc');
            forall q :: q in s'.procs && s'.procs[q].Eval? ==> PhaseOk(s', watch, q, s'.procs[q])
  {
  }

  lemma StepKeepsPhase(s: State, watch: Watch, step: Step)
    requires PhaseInv(s, watch) && Apply(s, step).Some?
    ensures PhaseInv(Apply(s, step).value, WatchStep(s, step, watch))
  {
    match step
    case Local(p, m) => LocalKeepsPhase(s, watch, p, m);
    case Store(p, m) => StoreKeepsPhase(s, watch, p, m);
    case Write(p, applied, acknowledged) => WriteKeepsPhase(s, watch, p, applied, acknowledged);
    case SeePulls(p, _) => QuietKeeps(s, Apply(s, step).value, watch, watch, p);
    case _ => QuietKeeps(s, Apply(s, step).value, watch, watch, 0);
  }

  lemma {:induction false} RunKeepsPhase(steps: seq<Step>)
    requires Run(steps).Some?
    ensures PhaseInv(Run(steps).value, Watched(steps))
  {
    if steps != [] {
      RunKeepsPhase(steps[..|steps| - 1]);
      StepKeepsPhase(Run(steps[..|steps| - 1]).value, Watched(steps[..|steps| - 1]), steps[|steps| - 1]);
    }
  }

  /** Writes are numbered as they take effect; results and revocations carry the number of their write. */
  lemma WritesAreNumbered(s: State, p: Pid, watch: Watch, acknowledged: bool)
    requires PendingWrite(s, p).Some?
    ensures var w, watch' := PendingWrite(s, p).value, WatchStep(s, Write(p, true, acknowledged), watch);
            && watch'.writes == watch.writes + 1
            && (w.check.Done? ==> watch'.doneAt(w.head) == watch'.writes)
            && (forall h :: h != w.head ==> watch'.doneAt(h) == watch.doneAt(h))
            && (w.check == Blocking && acknowledged ==> watch'.revokedAt(p) == watch'.writes)
            && (w.check.Done? && acknowledged ==> watch'.aftermath(p) == Aftermath(true, false, false, false, false))
  {
  }

  // ---- Theorems ----------------------------------------------------------------------

  /**
   From a worker's own revocation until its write, a result shown at its head was
   written after that revocation -- unless the job is one that keeps the published check.
   */
  lemma NothingOlderThanTheRevocation(steps: seq<Step>, p: Pid)
    requires Run(steps).Some?
    requires var e := ProcAt(Run(steps).value, p); e.Eval? && AfterRevocation(e.pc) && !e.job.KeepsPublishedCheck()
    ensures var s, watch := Run(steps).value, Watched(steps);
            var h := EvalHead(ProcAt(s, p));
            Shown(s, h).Done? ==> watch.revokedAt(p) < watch.doneAt(h)
  {
    RunKeepsPhase(steps);
    assert PhaseOk(Run(steps).value, Watched(steps), p, ProcAt(Run(steps).value, p));
  }

  /**
   A worker that is about to complete its job after an acknowledged result either went
   on to restore a blocking check, or saw after the write that its claim was current,
   that its head's generation was publishable, and that no superseding row and no
   authority fence stood.
   */
  lemma ResultsLeftInPlaceAreConfirmed(steps: seq<Step>, p: Pid)
    requires Run(steps).Some?
    requires ProcAt(Run(steps).value, p).Eval? && ProcAt(Run(steps).value, p).pc == Returning
    requires Watched(steps).aftermath(p).wrote && !Watched(steps).aftermath(p).restored
    ensures Confirmed(Watched(steps).aftermath(p))
  {
    RunKeepsPhase(steps);
    assert PhaseOk(Run(steps).value, Watched(steps), p, ProcAt(Run(steps).value, p));
  }
}
