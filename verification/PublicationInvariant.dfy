/**
 The inductive invariant of the publication protocol and its preservation by
 every step.
 */
module PublicationInvariant {
  import opened Options
  import opened Queue
  import opened Publication

  // ---- The invariant ---------------------------------------------------------

  ghost predicate EpochOk(s: State, h: HeadKey) {
    h in s.db.epochs ==> 1 <= s.db.epochs[h].generation && s.db.epochs[h].invalidated <= s.db.epochs[h].generation
  }

  /**
   A row that still carries the current generation of its head was bound after
   the last trigger for that head, and a row whose head has no epoch carries
   generation zero; so an epoch reborn at generation 1 never matches an old row.
   */
  ghost predicate BindingOk(s: State, pull: PullKey, row: Job) {
    row.head.Some? ==>
      var h := HeadOf(pull, row.head.value);
      if h in s.db.epochs then
        && row.sharedGen <= s.db.epochs[h].generation
        && (row.sharedGen == s.db.epochs[h].generation ==> s.hist.trig(h) <= s.hist.bound(pull))
      else
        row.sharedGen == 0 && s.hist.trig(h) <= s.hist.bound(pull)
  }

  ghost predicate RecheckOk(s: State, pull: PullKey, row: Job) {
    row.reason == ScheduledRecheck ==>
      row.head.Some? && row.attempts == s.hist.lost(pull) + if row.lease.Some? then 1 else 0
  }

  ghost predicate RowOk(s: State, pull: PullKey) {
    pull in s.db.jobs ==>
      var row := s.db.jobs[pull];
      && row.id < s.db.nextId
      && s.hist.bound(pull) <= s.hist.serial && s.hist.upserted(pull) <= s.hist.serial
      && BindingOk(s, pull, row)
      && RecheckOk(s, pull, row)
  }

  ghost predicate OwedReset(s: State, h: HeadKey) {
    var c := Shown(s, h);
    c.Done? && c.success && c.evidence < s.hist.trig(h) ==>
      Pending(s.db, h) || s.hist.waived(h) >= s.hist.trig(h)
  }

  ghost predicate HeadOk(s: State, h: HeadKey) {
    var c := Shown(s, h);
    && s.hist.trig(h) <= s.hist.serial
    && OwedReset(s, h)
    && (c.Done? ==> c.version <= s.hist.trig(h) && (c.version == s.hist.trig(h) ==> !Pending(s.db, h)))
  }

  /** No result for the head's present generation is shown. */
  ghost predicate Outdated(s: State, h: HeadKey) {
    var c := Shown(s, h);
    c.Done? ==> c.version < s.hist.trig(h)
  }

  ghost predicate Settled(s: State, h: HeadKey) {
    var c := Shown(s, h);
    c.Done? && c.success ==> c.evidence >= s.hist.trig(h) || s.hist.waived(h) >= s.hist.trig(h)
  }

  ghost predicate ReadyToPublish(proc: Proc, h: HeadKey) {
    proc.Eval? && (proc.pc == Current || proc.pc == Cleared) && EvalHead(proc) == h
  }

  ghost predicate NobodyReady(s: State, h: HeadKey) {
    forall q :: q in s.procs ==> !ReadyToPublish(s.procs[q], h)
  }

  /** Either no trigger arrived since `seen` was read, or its reset is still owed. */
  ghost predicate SeenOk(s: State, h: HeadKey, seen: nat) {
    seen <= s.hist.trig(h) && (seen == s.hist.trig(h) <==> !Pending(s.db, h))
  }

  ghost predicate ClaimLive(s: State, c: Claim) {
    HasRow(s.db, c) && s.db.jobs[c.pull].generation == c.generation
  }

  ghost predicate ClaimOkAt(s: State, p: Pid, e: Proc)
    requires e.Eval?
  {
    var c := e.job;
    && c.owner == p
    && c.id < s.db.nextId
    && (HasRow(s.db, c) ==> s.db.jobs[c.pull].generation >= c.generation)
    && (ClaimLive(s, c) ==>
          var row := s.db.jobs[c.pull];
          && row.lease.Some? && row.lease.value.owner == p
          && row.head == c.head && row.sharedGen == c.sharedGen
          && row.reason == c.reason
          && s.hist.bound(c.pull) == e.bound
          && s.hist.upserted(c.pull) <= e.claimedAt)
  }

  predicate HeadBound(pc: EvalPc) {
    pc != Start && pc != Closing && pc != ClosingGuarded && pc != Returning && pc != Raising
  }

  predicate FenceChecked(pc: EvalPc) {
    pc == Unfenced || pc == Unique || pc == Current || pc == Cleared
  }

  ghost predicate EvalOk(s: State, p: Pid, e: Proc)
    requires e.Eval?
  {
    var h := EvalHead(e);
    && ClaimOkAt(s, p, e)
    && e.bound <= s.hist.serial
    && (HeadBound(e.pc) ==> e.job.head == Some(e.sha))
    && (EvidenceTaken(e.pc) ==> e.bound <= e.evidence)
    && (FenceChecked(e.pc) ==> !Blocked(s.db, e.job.pull.inst, e.job.pull.repo))
    && (e.pc == Current ==> SeenOk(s, h, e.seen) && (ClaimLive(s, e.job) ==> e.seen <= e.bound))
    && (e.pc == Cleared ==>
          && SeenOk(s, h, e.seen) && e.seen <= e.bound
          && AuthGeneration(s.db, e.job.pull.inst) == e.job.authGen)
  }

  ghost predicate InvalOk(s: State, p: Pid, i: Proc)
    requires i.Inval?
  {
    var h := i.claim.head;
    && i.claim.owner == p
    && (match i.ipc
        case ILook => Outdated(s, h)
        case IAbsent => Shown(s, h) == Absent
        case IPresent | IFound => Outdated(s, h)
        case IPulls(open) => Outdated(s, h) && (!open && OwnsInvalidation(s.db, i.claim) ==> s.hist.waived(h) >= s.hist.trig(h))
        case IDecide(open) => Outdated(s, h) && (!open && OwnsInvalidation(s.db, i.claim) ==> s.hist.waived(h) >= s.hist.trig(h))
        case IPast | IFan => OwnsInvalidation(s.db, i.claim) ==> Settled(s, h) && NobodyReady(s, h)
        case _ => true)
  }

  ghost predicate FastOk(s: State, f: Proc)
    requires f.Fast?
  {
    f.fpc == FPending || f.fpc == FLooked || f.fpc == FReady ==> Outdated(s, f.fastHead)
  }

  ghost predicate ProcOk(s: State, p: Pid, proc: Proc) {
    match proc
    case Eval(_, _, _, _, _, _, _, _) => EvalOk(s, p, proc)
    case Inval(_, _) => InvalOk(s, p, proc)
    case Fast(_, _, _) => FastOk(s, proc)
    case _ => true
  }

  ghost predicate ProcsOk(s: State) {
    forall p :: p in s.procs ==> ProcOk(s, p, s.procs[p])
  }

  ghost predicate GuardsExclusive(s: State) {
    forall p, q :: p in s.procs && q in s.procs && p != q && WriterGuard(s.procs[p]).Some? ==>
      WriterGuard(s.procs[p]) != WriterGuard(s.procs[q])
  }

  ghost predicate Inv(s: State) {
    && (forall h :: EpochOk(s, h))
    && (forall pull :: RowOk(s, pull))
    && (forall h :: HeadOk(s, h))
    && ProcsOk(s)
    && GuardsExclusive(s)
  }

  // ---- What a transaction may do ---------------------------------------------

  /** One head's epoch: unchanged, advanced, re-leased by p, released, reset by p (`completing`), or pruned. */
  ghost predicate EpochStep(db: Db, db': Db, p: Pid, h: HeadKey, completing: bool) {
    if h in db'.epochs then
      var e' := db'.epochs[h];
      if h !in db.epochs then e'.generation == 1 && e'.invalidated == 0 && e'.lease.None?
      else
        var e := db.epochs[h];
        || (e'.generation == e.generation + 1 && e'.invalidated == e.invalidated && e'.lease.None?)
        || (&& e'.generation == e.generation
            && e'.invalidated == (if completing then e.generation else e.invalidated)
            && (completing ==> e'.lease.None?)
            && (e'.lease.Some? ==>
                  e'.lease.value.owner == p || (e.lease.Some? && e.lease.value.owner == e'.lease.value.owner)))
    else
      h in db.epochs ==>
        && db.epochs[h].invalidated == db.epochs[h].generation
        && forall pull :: pull in db'.jobs ==> !References(db', pull, h)
  }

  ghost predicate SameRow(db: Db, db': Db, k: PullKey) {
    (k in db'.jobs <==> k in db.jobs) && (k in db.jobs ==> db'.jobs[k] == db.jobs[k])
  }

  /** One pull request's row: only its lease holder p changes it without bumping the generation. */
  ghost predicate RowStep(db: Db, db': Db, p: Pid, k: PullKey) {
    k in db'.jobs ==>
      var r' := db'.jobs[k];
      if k in db.jobs && db.jobs[k].id == r'.id then
        var r := db.jobs[k];
        || r' == r
        || r'.generation > r.generation
        || (r'.generation == r.generation && (r.lease.None? || r.lease.value.owner == p))
      else db.nextId <= r'.id
  }

  ghost predicate Tx(s: State, db': Db, p: Pid, done: Option<HeadKey>) {
    && s.db.nextId <= db'.nextId
    && (forall h :: EpochStep(s.db, db', p, h, done == Some(h)))
    && (forall k :: RowStep(s.db, db', p, k))
    && (forall k :: SameRow(s.db, db', k) || RowOk(Commit(s, db'), k))
  }

  /** No fence appears, and the authority epoch stands, wherever somebody publishes. */
  ghost predicate FencesKept(s: State, db': Db) {
    forall q :: q in s.procs && s.procs[q].Eval? && HoldsShared(s.procs[q], s.procs[q].job.pull.inst) ==>
      var k := s.procs[q].job.pull;
      && (Blocked(db', k.inst, k.repo) ==> Blocked(s.db, k.inst, k.repo))
      && AuthGeneration(db', k.inst) == AuthGeneration(s.db, k.inst)
  }

  lemma TxRows(s: State, db': Db, p: Pid, done: Option<HeadKey>)
    requires Inv(s) && Tx(s, db', p, done)
    ensures forall h :: EpochOk(Commit(s, db'), h)
    ensures forall k :: RowOk(Commit(s, db'), k)
  {
    var s' := Commit(s, db');
    forall h ensures EpochOk(s', h) {
      assert EpochOk(s, h) && EpochStep(s.db, db', p, h, done == Some(h));
    }
    forall k ensures RowOk(s', k) {
      if SameRow(s.db, db', k) && k in db'.jobs {
        assert RowOk(s, k);
        var row := db'.jobs[k];
        if row.head.Some? {
          var h := HeadOf(k, row.head.value);
          assert EpochOk(s, h) && HeadOk(s, h) && EpochStep(s.db, db', p, h, done == Some(h));
          assert References(db', k, h);
        }
      }
    }
  }

  lemma TxHeads(s: State, db': Db, p: Pid, done: Option<HeadKey>)
    requires Inv(s) && Tx(s, db', p, done)
    requires done.Some? ==> Settled(s, done.value)
    ensures forall h :: HeadOk(Commit(s, db'), h)
  {
    forall h ensures HeadOk(Commit(s, db'), h) {
      assert EpochOk(s, h) && HeadOk(s, h) && EpochStep(s.db, db', p, h, done == Some(h));
    }
  }

  lemma TxSeen(s: State, db': Db, p: Pid, done: Option<HeadKey>, h: HeadKey, seen: nat)
    requires Inv(s) && Tx(s, db', p, done)
    requires SeenOk(s, h, seen) && done != Some(h)
    ensures SeenOk(Commit(s, db'), h, seen)
  {
    assert EpochOk(s, h) && HeadOk(s, h) && EpochStep(s.db, db', p, h, done == Some(h));
  }

  lemma TxClaim(s: State, db': Db, p: Pid, done: Option<HeadKey>, q: Pid, e: Proc)
    requires Inv(s) && Tx(s, db', p, done)
    requires e.Eval? && q != p && ClaimOkAt(s, q, e)
    ensures ClaimOkAt(Commit(s, db'), q, e)
    ensures ClaimLive(Commit(s, db'), e.job) ==> ClaimLive(s, e.job)
  {
    assert RowStep(s.db, db', p, e.job.pull);
  }

  lemma TxOwns(s: State, db': Db, p: Pid, done: Option<HeadKey>, c: InvalClaim)
    requires Inv(s) && Tx(s, db', p, done)
    requires c.owner != p && OwnsInvalidation(db', c)
    ensures OwnsInvalidation(s.db, c) && !Advanced(s.db, db', c.head)
  {
    assert EpochOk(s, c.head) && EpochStep(s.db, db', p, c.head, done == Some(c.head));
  }

  /** Every worker but p keeps its invariant across p's transaction. */
  lemma TxOthers(s: State, db': Db, p: Pid, done: Option<HeadKey>, q: Pid)
    requires Inv(s) && Tx(s, db', p, done) && FencesKept(s, db')
    requires done.Some? ==> NobodyReady(s, done.value)
    requires q in s.procs && q != p
    ensures ProcOk(Commit(s, db'), q, s.procs[q])
  {
    var s' := Commit(s, db');
    var proc := s.procs[q];
    assert ProcOk(s, q, proc);
    match proc
    case Eval(_, pc, _, _, _, _, _, _) =>
      TxClaim(s, db', p, done, q, proc);
      if pc == Current || pc == Cleared {
        assert ReadyToPublish(proc, EvalHead(proc));
        TxSeen(s, db', p, done, EvalHead(proc), proc.seen);
      }
    case Inval(c, pc) =>
      assert HeadOk(s, c.head);
      if OwnsInvalidation(db', c) {
        TxOwns(s, db', p, done, c);
      }
    case Fast(h, _, _) =>
      assert HeadOk(s, h);
    case _ =>
  }

  /** A worker becomes ready to publish at h only while no reset of h is owed. */
  ghost predicate ReadyAllowed(s: State, p: Pid, proc': Proc) {
    forall h :: ReadyToPublish(proc', h) ==> ReadyToPublish(ProcAt(s, p), h) || !Pending(s.db, h)
  }

  ghost predicate GuardAllowed(s: State, p: Pid, proc': Proc) {
    || WriterGuard(proc') == None
    || WriterGuard(proc') == WriterGuard(ProcAt(s, p))
    || GuardFree(s, p, proc')
  }

  lemma OthersUnaffected(s: State, p: Pid, proc': Proc, q: Pid)
    requires q in s.procs && q != p && ProcOk(s, q, s.procs[q]) && ReadyAllowed(s, p, proc')
    ensures ProcOk(SetProc(s, p, proc'), q, s.procs[q])
  {
    var s' := SetProc(s, p, proc');
    if s.procs[q].Inval? {
      var h := s.procs[q].claim.head;
      if OwnsInvalidation(s.db, s.procs[q].claim) && NobodyReady(s, h) {
        assert !ReadyToPublish(proc', h);
      }
    }
  }

  /** Replacing one worker's state, with the database, register and history as they are. */
  lemma ProcChange(s: State, p: Pid, proc': Proc)
    requires (forall h :: EpochOk(s, h)) && (forall k :: RowOk(s, k)) && (forall h :: HeadOk(s, h))
    requires forall q :: q in s.procs && q != p ==> ProcOk(s, q, s.procs[q])
    requires GuardsExclusive(s) && ProcOk(SetProc(s, p, proc'), p, proc')
    requires GuardAllowed(s, p, proc') && ReadyAllowed(s, p, proc')
    ensures Inv(SetProc(s, p, proc'))
  {
    var s' := SetProc(s, p, proc');
    forall h ensures EpochOk(s', h) && HeadOk(s', h) { assert EpochOk(s, h) && HeadOk(s, h); }
    forall k ensures RowOk(s', k) { assert RowOk(s, k); }
    forall q | q in s.procs && q != p ensures ProcOk(s', q, s.procs[q]) { OthersUnaffected(s, p, proc', q); }
  }

  /** A transaction by p, after which p is proc', keeps the invariant. */
  lemma TxKeeps(s: State, db': Db, p: Pid, done: Option<HeadKey>, proc': Proc)
    requires Inv(s) && Tx(s, db', p, done) && FencesKept(s, db')
    requires done.Some? ==> Settled(s, done.value) && NobodyReady(s, done.value)
    requires ProcOk(SetProc(Commit(s, db'), p, proc'), p, proc')
    requires GuardAllowed(s, p, proc')
    requires forall h :: ReadyToPublish(proc', h) ==> ReadyToPublish(ProcAt(s, p), h)
    ensures Inv(SetProc(Commit(s, db'), p, proc'))
  {
    TxRows(s, db', p, done);
    TxHeads(s, db', p, done);
    forall q | q in s.procs && q != p
      ensures ProcOk(Commit(s, db'), q, s.procs[q])
    {
      TxOthers(s, db', p, done, q);
    }
    ProcChange(Commit(s, db'), p, proc');
  }
}
