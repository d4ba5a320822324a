/**
 The checks behind every check write.  A trail that no code reads keeps, for each
 worker, what was true in the database at each of its looks since it last took a
 guard, wrote, or began; and every write is shown to follow the looks it needs.
 */
module PublicationTrail {
  import opened Options
  import opened Queue
  import opened Publication

  /** What a look at the database finds, in terms of the stored rows, the epochs and the clock. */
  datatype Look =
    | EvalLook(current: bool, own: bool, publishable: bool, fenced: bool, superseded: bool)
    | InvalLook(leased: bool, absent: bool)
    | FastLook(pending: bool)

  function StoredGeneration(db: Db, h: HeadKey): nat {
    if h in db.epochs then db.epochs[h].generation else 0
  }

  function StoredAuthority(db: Db, inst: nat): nat {
    if inst in db.authEpochs then db.authEpochs[inst] else 0
  }

  function EvalLookAt(s: State, e: Proc): Look
    requires e.Eval?
  {
    var c, h := e.job, HeadOf(e.job.pull, e.sha);
    var held := c.pull in s.db.jobs && s.db.jobs[c.pull].id == c.id;
    var own := c.head == Some(e.sha) && StoredGeneration(s.db, h) == c.sharedGen;
    EvalLook(
      && held && s.db.jobs[c.pull].generation == c.generation && s.db.jobs[c.pull].lease.Some?
      && s.db.jobs[c.pull].lease.value.owner == c.owner && s.now <= s.db.jobs[c.pull].lease.value.until
      && s.db.jobs[c.pull].authGen == StoredAuthority(s.db, c.pull.inst) == c.authGen,
      own,
      own && (h in s.db.epochs ==> s.db.epochs[h].invalidated == s.db.epochs[h].generation),
      Fence(c.pull.inst, None) in s.db.fences || Fence(c.pull.inst, Some(c.pull.repo)) in s.db.fences,
      held && c.generation < s.db.jobs[c.pull].generation)
  }

  /** The reset of generation n is still owed. */
  predicate Owed(db: Db, h: HeadKey, n: nat) {
    h in db.epochs && db.epochs[h].generation == n && db.epochs[h].invalidated != n && db.epochs[h].invalidated < n
  }

  function LookAt(s: State, proc: Proc): Option<Look> {
    match proc
    case Eval(_, _, _, _, _, _, _, _) => Some(EvalLookAt(s, proc))
    case Inval(c, _) =>
      Some(InvalLook(
        && Owed(s.db, c.head, c.generation) && s.db.epochs[c.head].lease.Some?
        && s.db.epochs[c.head].lease.value.owner == c.owner && s.now <= s.db.epochs[c.head].lease.value.until,
        c.head !in s.reg || s.reg[c.head] == Absent))
    case Fast(h, token, _) => Some(FastLook(Owed(s.db, h, token)))
    case _ => None
  }

  type Trail = Pid -> seq<Look>

  function SetTrail(trail: Trail, p: Pid, looks: seq<Look>): Trail {
    (q: Pid) => if q == p then looks else trail(q)
  }

  /** Looks are kept until the worker takes a guard, writes, begins anew, or has revoked its check. */
  function TrailStep(s: State, step: Step, trail: Trail): Trail {
    match step
    case Local(p, m) =>
      var looked := LookAt(s, ProcAt(s, p));
      if m == Inspect && looked.Some? && !(ProcAt(s, p).Eval? && ProcAt(s, p).pc == RevokeCurrent)
      then SetTrail(trail, p, trail(p) + [looked.value])
      else SetTrail(trail, p, if m.Acquire? || m == Inspect then [] else trail(p))
    case Store(p, m) => if m.BeginEval? || m.BeginInval? then SetTrail(trail, p, []) else trail
    case Write(p, _, _) => SetTrail(trail, p, [])
    case _ => trail
  }

  function Trailed(steps: seq<Step>): Trail {
    if steps == [] then (p: Pid) => []
    else match Run(steps[..|steps| - 1])
      case Some(s) => TrailStep(s, steps[|steps| - 1], Trailed(steps[..|steps| - 1]))
      case None => (p: Pid) => []
  }

  // ---- What each point of a worker has behind it -----------------------------------------

  predicate AllEval(looks: seq<Look>, n: nat) {
    |looks| == n && forall i :: 0 <= i < n ==> looks[i].EvalLook?
  }

  /** The claim was seen to be current, then the generation publishable, then the repository unfenced, and so on. */
  predicate EvalTrail(pc: EvalPc, looks: seq<Look>) {
    match pc
    case RevokeGuarded => looks == []
    case RevokeClaimOk => AllEval(looks, 1) && looks[0].current
    case RevokeCurrent => AllEval(looks, 2) && looks[0].current && looks[1].own
    case RevokeStale => AllEval(looks, 2) && looks[0].current && !looks[1].own
    case Revoked => looks == []
    case Invalidated => AllEval(looks, 1) && looks[0].publishable
    case Ready => AllEval(looks, 2) && looks[0].publishable && !looks[1].fenced
    case Collecting | Evaluated | Shared => AllEval(looks, 3) && looks[0].publishable && !looks[1].fenced
    case Guarded => looks == []
    case ClaimOk => AllEval(looks, 1) && looks[0].current
    case VersionOk => AllEval(looks, 2) && looks[0].current && looks[1].publishable
    case Unfenced | Unique => AllEval(looks, 3) && looks[0].current && looks[1].publishable && !looks[2].fenced
    case Current =>
      AllEval(looks, 4) && looks[0].current && looks[1].publishable && !looks[2].fenced && looks[3].publishable
    case Cleared =>
      && AllEval(looks, 5) && looks[0].current && looks[1].publishable && !looks[2].fenced && looks[3].publishable
      && looks[4].current
    case Wrote => looks == []
    case WroteClaimOk => AllEval(looks, 1) && looks[0].current
    case Tail => AllEval(looks, 2) && looks[0].current && looks[1].publishable
    case TailContended =>
      AllEval(looks, 3) && looks[0].current && looks[1].publishable && (looks[2].superseded || looks[2].fenced)
    case TailGuarded => looks == []
    case TailConfirmed => AllEval(looks, 1) && (looks[0].superseded || looks[0].fenced)
    case Restoring(raising) =>
      if raising then looks == []
      else looks != [] && var last := looks[|looks| - 1]; last.EvalLook? && !(last.current && last.publishable)
    case _ => true
  }

  predicate AllInval(looks: seq<Look>, n: nat) {
    |looks| == n && forall i :: 0 <= i < n ==> looks[i].InvalLook?
  }

  predicate InvalTrail(pc: InvalPc, looks: seq<Look>) {
    match pc
    case IGuarded => looks == []
    case ILook => AllInval(looks, 1) && looks[0].leased
    case IAbsent => AllInval(looks, 2) && looks[0].leased && looks[1].absent
    case IPresent => AllInval(looks, 2) && looks[0].leased && !looks[1].absent
    case IFound | IPulls(_) => AllInval(looks, 3) && looks[0].leased && !looks[1].absent && looks[2].leased
    case IDecide(_) => AllInval(looks, 4) && looks[0].leased && !looks[1].absent && looks[2].leased && looks[3].leased
    case IFan => looks != [] && looks[|looks| - 1].InvalLook? && looks[|looks| - 1].leased
    case _ => true
  }

  predicate FastTrail(pc: FastPc, looks: seq<Look>) {
    match pc
    case FStart => true
    case FGuarded => looks == []
    case FPending => |looks| == 1 && looks[0] == FastLook(true)
    case FLooked => |looks| == 2 && looks[0] == FastLook(true)
    case FReady => |looks| == 3 && looks[0] == FastLook(true) == looks[2]
  }

  predicate ProcTrail(proc: Proc, looks: seq<Look>) {
    match proc
    case Eval(_, pc, _, _, _, _, _, _) => EvalTrail(pc, looks)
    case Inval(_, pc) => InvalTrail(pc, looks)
    case Fast(_, _, pc) => FastTrail(pc, looks)
    case _ => true
  }

  ghost predicate TrailInv(s: State, trail: Trail) {
    forall p :: p in s.procs ==> ProcTrail(s.procs[p], trail(p))
  }

  // ---- Preservation -------------------------------------------------------------------------

  lemma InspectTrail(s: State, e: Proc, e': Proc, looks: seq<Look>)
    requires e.Eval? && EvalCheck(s, e) == Some(e') && EvalTrail(e.pc, looks)
    ensures e'.Eval? && EvalTrail(e'.pc, if e.pc == RevokeCurrent then [] else looks + [EvalLookAt(s, e)])
  {
  }

  lemma MoveTrail(s: State, e: Proc, m: Move, e': Proc, looks: seq<Look>)
    requires e.Eval? && e'.Eval? && m != Inspect && EvalLocal(s, e, m) == Some(e') && EvalTrail(e.pc, looks)
    ensures EvalTrail(e'.pc, if m.Acquire? then [] else looks)
  {
  }

  lemma InvalMoveTrail(s: State, i: Proc, m: Move, i': Proc, looks: seq<Look>)
    requires i.Inval? && i'.Inval? && InvalLocal(s, i, m) == Some(i') && InvalTrail(i.ipc, looks)
    ensures InvalTrail(i'.ipc, if m == Inspect then looks + [LookAt(s, i).value] else if m.Acquire? then [] else looks)
  {
  }

  lemma FastMoveTrail(s: State, f: Proc, m: Move, f': Proc, looks: seq<Look>)
    requires f.Fast? && f'.Fast? && FastLocal(s, f, m) == Some(f') && FastTrail(f.fpc, looks)
    ensures FastTrail(f'.fpc, if m == Inspect then looks + [LookAt(s, f).value] else if m.Acquire? then [] else looks)
  {
  }

  lemma LocalTrail(s: State, trail: Trail, p: Pid, m: Move)
    requires TrailInv(s, trail) && LocalMove(s, p, m).Some?
    ensures ProcTrail(LocalMove(s, p, m).value, TrailStep(s, Local(p, m), trail)(p))
  {
    var proc, proc' := ProcAt(s, p), LocalMove(s, p, m).value;
    if p in s.procs { assert ProcTrail(proc, trail(p)); }
    if proc.Eval? && proc'.Eval? {
      if m == Inspect { InspectTrail(s, proc, proc', trail(p)); } else { MoveTrail(s, proc, m, proc', trail(p)); }
    } else if proc.Inval? && proc'.Inval? {
      InvalMoveTrail(s, proc, m, proc', trail(p));
    } else if proc.Fast? && proc'.Fast? {
      FastMoveTrail(s, proc, m, proc', trail(p));
    } else {
      Leaving(s, p, m);
    }
  }

  /** A worker of one kind becomes idle, and only an idle one becomes another kind. */
  lemma Leaving(s: State, p: Pid, m: Move)
    requires LocalMove(s, p, m).Some?
    requires var proc, proc' := ProcAt(s, p), LocalMove(s, p, m).value;
             !(proc.Eval? && proc'.Eval?) && !(proc.Inval? && proc'.Inval?) && !(proc.Fast? && proc'.Fast?)
    ensures var proc' := LocalMove(s, p, m).value; proc'.Idle? || proc'.Revoker? || (proc'.Fast? && proc'.fpc == FStart)
  {
  }

  lemma StoreTrail(s: State, trail: Trail, p: Pid, m: StoreCall)
    requires TrailInv(s, trail) && StoreMove(s, p, m).Some?
    ensures ProcTrail(StoreMove(s, p, m).value.1, TrailStep(s, Store(p, m), trail)(p))
  {
    var proc := ProcAt(s, p);
    if p in s.procs { assert ProcTrail(proc, trail(p)); }
    if proc.Eval? { EvalStoreTrail(s, proc, m, trail(p)); } else if proc.Inval? { InvalStoreTrail(s, proc, m, trail(p)); }
  }

  lemma EvalStoreTrail(s: State, e: Proc, m: StoreCall, looks: seq<Look>)
    requires e.Eval? && EvalTrail(e.pc, looks) && EvalStore(s, e, m).Some?
    ensures ProcTrail(EvalStore(s, e, m).value.1, looks) && !m.BeginEval? && !m.BeginInval?
  {
  }

  lemma InvalStoreTrail(s: State, i: Proc, m: StoreCall, looks: seq<Look>)
    requires i.Inval? && InvalTrail(i.ipc, looks) && InvalStore(s, i, m).Some?
    ensures ProcTrail(InvalStore(s, i, m).value.1, looks) && !m.BeginEval? && !m.BeginInval?
  {
  }

  lemma WriteTrail(s: State, p: Pid, w: CheckWrite)
    requires PendingWrite(s, p) == Some(w)
    ensures ProcTrail(w.acknowledged, []) && ProcTrail(w.uncertain, [])
  {
  }

  lemma StepKeepsTrail(s: State, trail: Trail, step: Step)
    requires TrailInv(s, trail) && Apply(s, step).Some?
    ensures TrailInv(Apply(s, step).value, TrailStep(s, step, trail))
  {
    var s', trail' := Apply(s, step).value, TrailStep(s, step, trail);
    match step {
      case Local(p, m) => LocalTrail(s, trail, p, m);
      case Store(p, m) => StoreTrail(s, trail, p, m);
      case Write(p, _, _) => WriteTrail(s, p, PendingWrite(s, p).value);
      case SeePulls(p, _) => assert ProcTrail(s.procs[p], trail(p));
      case _ =>
    }
    forall q | q in s'.procs ensures ProcTrail(s'.procs[q], trail'(q)) {
      if q in s.procs { assert ProcTrail(s.procs[q], trail(q)); }
    }
  }

  lemma {:induction false} RunKeepsTrail(steps: seq<Step>)
    requires Run(steps).Some?
    ensures TrailInv(Run(steps).value, Trailed(steps))
  {
    if steps != [] {
      RunKeepsTrail(steps[..|steps| - 1]);
      StepKeepsTrail(Run(steps[..|steps| - 1]).value, Trailed(steps[..|steps| - 1]), steps[|steps| - 1]);
    }
  }

  lemma TrailOf(steps: seq<Step>, p: Pid)
    requires Run(steps).Some?
    ensures ProcTrail(ProcAt(Run(steps).value, p), Trailed(steps)(p))
  {
    RunKeepsTrail(steps);
    if p in Run(steps).value.procs { assert ProcTrail(Run(steps).value.procs[p], Trailed(steps)(p)); }
  }

  lemma EvalTrailOf(steps: seq<Step>, p: Pid)
    requires Run(steps).Some? && ProcAt(Run(steps).value, p).Eval?
    ensures EvalTrail(ProcAt(Run(steps).value, p).pc, Trailed(steps)(p))
  {
    TrailOf(steps, p);
  }

  // ---- Theorems ----------------------------------------------------------------------------------

  /**
   A worker about to write a result has, since it took the writer guard, seen its claim
   current, its generation publishable, the repository unfenced, the generation
   publishable once more, and its claim current once more, in this order.
   */
  lemma ResultsFollowTheirChecks(steps: seq<Step>, p: Pid)
    requires Run(steps).Some?
    requires var s := Run(steps).value; PendingWrite(s, p).Some? && PendingWrite(s, p).value.check.Done?
    ensures var looks := Trailed(steps)(p);
            && AllEval(looks, 5) && looks[0].current && looks[1].publishable && !looks[2].fenced && looks[3].publishable
            && looks[4].current
  {
    TrailOf(steps, p);
  }

  /**
   A worker about to revoke the check has, under the guard, seen its claim current and the
   head's generation to be its own; one that collects evidence has, since it revoked, seen
   the generation publishable and the repository unfenced.
   */
  lemma EvaluationsFollowTheirChecks(steps: seq<Step>, p: Pid)
    requires Run(steps).Some? && ProcAt(Run(steps).value, p).Eval?
    ensures var pc, looks := ProcAt(Run(steps).value, p).pc, Trailed(steps)(p);
            && (pc == RevokeCurrent ==> AllEval(looks, 2) && looks[0].current && looks[1].own)
            && (pc == Collecting ==> AllEval(looks, 3) && looks[0].publishable && !looks[1].fenced)
  {
    EvalTrailOf(steps, p);
  }

  /**
   A worker restores a blocking check only after an unacknowledged write, or after seeing,
   since its write, that its claim or generation no longer stood, or that it was superseded
   or fenced.
   */
  lemma RestoringFollowsAFailedCheck(steps: seq<Step>, p: Pid)
    requires Run(steps).Some? && ProcAt(Run(steps).value, p).Eval?
    ensures var pc, looks := ProcAt(Run(steps).value, p).pc, Trailed(steps)(p);
            && (pc == Restoring(false) ==> looks != [] && var last := looks[|looks| - 1];
                                           last.EvalLook? && !(last.current && last.publishable))
            && (pc == TailConfirmed ==> AllEval(looks, 1) && (looks[0].superseded || looks[0].fenced))
  {
    EvalTrailOf(steps, p);
  }

  /**
   An exact-head reset is written only after its lease was seen to stand under the guard,
   before and after the check was seen and again once its pull requests were known; a
   token-carrying reset only while its generation was seen to be owed before and after.
   */
  lemma ResetsFollowTheirChecks(steps: seq<Step>, p: Pid)
    requires Run(steps).Some? && PendingWrite(Run(steps).value, p).Some?
    ensures var proc, looks := ProcAt(Run(steps).value, p), Trailed(steps)(p);
            && (proc.Inval? ==> AllInval(looks, 4) && looks[0].leased && !looks[1].absent && looks[2].leased && looks[3].leased)
            && (proc.Fast? ==> |looks| == 3 && looks[0] == FastLook(true) == looks[2])
  {
    TrailOf(steps, p);
  }

  /** A claimed pull request's fan-out goes on only while the reset's lease is seen to stand. */
  lemma FanOutFollowsItsCheck(steps: seq<Step>, p: Pid)
    requires Run(steps).Some? && ProcAt(Run(steps).value, p).Inval? && ProcAt(Run(steps).value, p).ipc == IFan
    ensures var looks := Trailed(steps)(p); looks != [] && looks[|looks| - 1].InvalLook? && looks[|looks| - 1].leased
  {
    TrailOf(steps, p);
  }

  // ---- No look is wasted -----------------------------------------------------------------------------

  /** What a look must find for the evaluation to go on. */
  predicate GoesOn(pc: EvalPc, look: Look)
    requires look.EvalLook?
  {
    match pc
    case RevokeGuarded | Guarded | Current | Wrote => look.current
    case RevokeClaimOk => look.own
    case Revoked | ClaimOk | Unique | WroteClaimOk => look.publishable
    case Invalidated | VersionOk => !look.fenced
    case Tail | TailGuarded => look.superseded || look.fenced
    case _ => true
  }

  /** An evaluation turns off its way exactly when a look finds what it must not: a good look never ends it. */
  lemma TurnsOffExactly(s: State, e: Proc)
    requires e.Eval? && EvalCheck(s, e).Some?
    ensures var e' := EvalCheck(s, e).value;
            && e' == e.(pc := e'.pc, evidence := e'.evidence, seen := e'.seen)
            && (GoesOn(e.pc, EvalLookAt(s, e)) <==> e'.pc !in {Returning, Raising, Restoring(false), RevokeStale})
            && (!GoesOn(e.pc, EvalLookAt(s, e)) ==>
                  e'.pc == match e.pc
                           case RevokeClaimOk => RevokeStale
                           case Revoked | Invalidated | VersionOk => Raising
                           case Wrote | WroteClaimOk => Restoring(false)
                           case _ => Returning)
  {
  }

  /** A reset goes on exactly while its lease stands, and ends only for want of it. */
  lemma ResetTurnsOffExactly(s: State, i: Proc)
    requires i.Inval? && InvalLocal(s, i, Inspect).Some? && i.ipc != ILook && !i.ipc.IDecide?
    ensures InvalLocal(s, i, Inspect).value.ipc == IGone <==> !LookAt(s, i).value.leased
  {
  }

  /** A reset that finds no pull request open, or no check, leaves what is shown and completes. */
  lemma NothingToReset(s: State, i: Proc)
    requires i.Inval?
    ensures i.ipc == ILook ==>
              InvalLocal(s, i, Inspect) == Some(i.(ipc := if LookAt(s, i).value.absent then IAbsent else IPresent))
    ensures i.ipc == IDecide(false) ==> InvalLocal(s, i, Inspect) == Some(i.(ipc := IPast))
    ensures i.ipc == IAbsent && LookAt(s, i).value.leased ==> InvalLocal(s, i, Inspect) == Some(i.(ipc := IPast))
  {
  }

  // ---- Nobody is stuck -------------------------------------------------------------------------------

  /** What an evaluation can do next at each of its points, besides raising and crashing. */
  lemma EvaluationsGoOn(s: State, p: Pid, delay: nat, success: bool)
    requires ProcAt(s, p).Eval?
    ensures var e := ProcAt(s, p);
            match e.pc
            case Start => EvalLocal(s, e, GiveUp) == Some(e.(pc := Returning))
            case Bound => EvalLocal(s, e, Acquire) == Some(e.(pc := RevokeGuarded))
            case RevokeCurrent => EvalLocal(s, e, Inspect).Some? || PendingWrite(s, p).Some?
            case RevokeRebind(_) => StoreMove(s, p, Rebind).Some?
            case Collecting => EvalLocal(s, e, Conclude(success)) == Some(e.(pc := Evaluated, success := success))
            case Evaluated => EvalLocal(s, e, EnterShared) == Some(e.(pc := Shared))
            case Shared => EvalLocal(s, e, Acquire) == Some(e.(pc := Guarded))
            case Unfenced => EvalLocal(s, e, SeeUnique(success)) == Some(e.(pc := Unique, success := e.success && success))
            case TailContended => EvalLocal(s, e, Acquire) == Some(e.(pc := TailGuarded))
            case Closing => EvalLocal(s, e, Acquire) == Some(e.(pc := ClosingGuarded))
            case ClosingGuarded => EvalLocal(s, e, LeaveClosed) == Some(e.(pc := Returning))
            case Cleared | Restoring(_) | TailConfirmed => PendingWrite(s, p).Some?
            case Returning => StoreMove(s, p, Finish).Some?
            case Raising => StoreMove(s, p, FailWith(delay)).Some?
            case _ => EvalLocal(s, e, Inspect).Some?
  {
  }

  /** A token-carrying reset takes its guard, looks three times, and writes. */
  lemma FastResetsGoOn(s: State, p: Pid)
    requires ProcAt(s, p).Fast?
    ensures var f := ProcAt(s, p);
            (f.fpc != FStart ==> FastLocal(s, f, Acquire).None?)
            && match f.fpc
            case FStart => FastLocal(s, f, Acquire) == Some(f.(fpc := FGuarded))
            case FReady => PendingWrite(s, p).Some?
            case FPending => FastLocal(s, f, Inspect) == Some(f.(fpc := FLooked))
            case _ =>
              FastLocal(s, f, Inspect) == Some(if Owed(s.db, f.fastHead, f.token)
                                               then f.(fpc := if f.fpc == FGuarded then FPending else FReady) else Idle)
  {
  }

  /** The same for a reset: a look, the listing of its pull requests, its write, its fan-out, or its end. */
  lemma ResetsGoOn(s: State, p: Pid, number: nat, open: bool, delay: nat)
    requires ProcAt(s, p).Inval?
    ensures var i := ProcAt(s, p);
            match i.ipc
            case IStart => InvalLocal(s, i, Acquire) == Some(i.(ipc := IGuarded))
            case IFound =>
              && Apply(s, SeePulls(p, open)).Some?
              && ProcAt(Apply(s, SeePulls(p, open)).value, p) == i.(ipc := IPulls(open))
            case IDecide(found) => if found then PendingWrite(s, p).Some? else InvalLocal(s, i, Inspect).Some?
            case IPast => StoreMove(s, p, Finish).Some? && InvalLocal(s, i, Inspect).Some?
            case IFan => StoreMove(s, p, FanTo(number)).Some?
            case IRaising => StoreMove(s, p, FailWith(delay)).Some?
            case IGone => true
            case _ => InvalLocal(s, i, Inspect).Some?
  {
  }
}
