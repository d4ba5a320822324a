/** A run of the protocol up to the moment before a completing write. */
module PublicationRuns {
  import opened Options
  import opened Queue
  import opened Publication

  lemma Extend(s: State, step: Step) returns (s': State)
    requires Reachable(s) && Apply(s, step).Some?
    ensures s' == Apply(s, step).value && Reachable(s')
  {
    var steps :| Run(steps) == Some(s);
    s' := Apply(s, step).value;
    assert (steps + [step])[..|steps + [step]| - 1] == steps;
    assert Run(steps + [step]) == Some(s');
  }

  const K := PullKey(1, "o/r", 7)
  const H := HeadKey(1, "o/r", "a")
  const PUSH := Client(ClientEnqueue(Request(K, Some("a"), OtherReason("push"), Interactive)))

  /** Worker 2 evaluates the only row at `pc`, and nobody else runs. */
  ghost predicate Evaluating(s: State, pc: EvalPc) {
    && Reachable(s) && s.now == 0 && s.db.fences == {} && s.db.authEpochs == map[]
    && (forall q :: q in s.procs ==> q == 1 || q == 2) && ProcAt(s, 1) == Idle
    && ProcAt(s, 2).Eval? && ProcAt(s, 2).pc == pc && ProcAt(s, 2).sha == "a"
    && ProcAt(s, 2).job.pull == K && ProcAt(s, 2).job.head == Some("a") && !ProcAt(s, 2).job.KeepsPublishedCheck()
    && IsCurrentClaim(s.db, ProcAt(s, 2).job, 0) && SharedGenerationIsPublishable(s.db, ProcAt(s, 2).job, "a")
  }

  const ROW := Job(0, 1, Some("a"), 1, 0, OtherReason("push"), Interactive, 0, 0, 0, None)
  const RESET := InvalClaim(H, 1, 1, 1)

  /** Only worker 1 runs: it holds the reset of the first generation. */
  ghost predicate Resetting(s: State, pc: InvalPc) {
    && Reachable(s) && s.now == 0 && s.db.fences == {} && s.db.authEpochs == map[] && s.reg == map[]
    && s.procs == map[1 := Inval(RESET, pc)]
    && s.db.epochs == map[H := Epoch(1, 0, 0, 0, 1, Some(Lease(1, 9)))]
    && s.db.jobs == map[K := ROW]
  }

  lemma ResettingIsReachable() returns (s: State)
    ensures Resetting(s, IStart)
  {
    assert Run([]) == Some(Initial());
    s := Extend(Initial(), PUSH);
    s := Extend(s, Store(1, BeginInval(H, 9)));
  }

  lemma ResetMoves(s: State, m: Move, pc: InvalPc, pc': InvalPc) returns (s': State)
    requires Resetting(s, pc) && InvalLocal(s, Inval(RESET, pc), m) == Some(Inval(RESET, pc'))
    ensures Resetting(s', pc')
  {
    s' := Extend(s, Local(1, m));
  }

  lemma ResetIsReachable() returns (s: State)
    ensures Reachable(s) && s.now == 0 && s.db.fences == {} && s.db.authEpochs == map[] && s.procs == map[1 := Idle]
    ensures s.db.epochs == map[H := Epoch(1, 1, 0, 0, 1, None)] && s.db.jobs == map[K := ROW]
  {
    s := ResettingIsReachable();
    s := ResetMoves(s, Acquire, IStart, IGuarded);
    s := ResetMoves(s, Inspect, IGuarded, ILook);
    s := ResetMoves(s, Inspect, ILook, IAbsent);
    s := ResetMoves(s, Inspect, IAbsent, IPast);
    s := Extend(s, Store(1, Finish));
  }

  lemma StartIsReachable() returns (s: State)
    ensures Reachable(s) && s.now == 0 && s.db.fences == {} && s.db.authEpochs == map[]
    ensures s.db.epochs == map[H := Epoch(1, 1, 0, 0, 1, None)]
    ensures s.db.jobs == map[K := ROW.(attempts := 1, lease := Some(Lease(2, 9)))]
    ensures s.procs.Keys == {1, 2} && s.procs[1] == Idle
    ensures s.procs[2].Eval? && s.procs[2].pc == Start && s.procs[2].job == ClaimView(K, s.db.jobs[K], 2)
  {
    s := ResetIsReachable();
    s := Extend(s, Store(2, BeginEval(K, 9)));
  }

  lemma BoundIsReachable() returns (s: State)
    ensures Evaluating(s, Bound)
  {
    s := StartIsReachable();
    s := Extend(s, Local(2, KeepHead("a")));
  }

  lemma Moves(s: State, pc: EvalPc, m: Move, pc': EvalPc) returns (s': State)
    requires Evaluating(s, pc) && EvalLocal(s, ProcAt(s, 2), m).Some?
    requires var e := EvalLocal(s, ProcAt(s, 2), m).value;
             e.Eval? && e.job == ProcAt(s, 2).job && e.sha == "a" && e.pc == pc'
    ensures Evaluating(s', pc') && ProcAt(s', 2) == EvalLocal(s, ProcAt(s, 2), m).value && s'.hist == s.hist
  {
    s' := Extend(s, Local(2, m));
  }

  lemma RevokeCurrentIsReachable() returns (s: State)
    ensures Evaluating(s, RevokeCurrent)
  {
    s := BoundIsReachable();
    s := Moves(s, Bound, Acquire, RevokeGuarded);
    s := Moves(s, RevokeGuarded, Inspect, RevokeClaimOk);
    s := Moves(s, RevokeClaimOk, Inspect, RevokeCurrent);
  }

  lemma RevokedIsReachable() returns (s: State)
    ensures Evaluating(s, Revoked)
  {
    s := RevokeCurrentIsReachable();
    s := Extend(s, Write(2, true, true));
  }

  lemma ReadyIsReachable() returns (s: State)
    ensures Evaluating(s, Ready)
  {
    s := RevokedIsReachable();
    s := Moves(s, Revoked, Inspect, Invalidated);
    s := Moves(s, Invalidated, Inspect, Ready);
  }

  lemma CollectingIsReachable() returns (s: State)
    ensures Evaluating(s, Collecting) && ProcAt(s, 2).evidence <= s.hist.serial
  {
    s := ReadyIsReachable();
    s := Moves(s, Ready, Inspect, Collecting);
  }

  lemma SharedIsReachable() returns (s: State)
    ensures Evaluating(s, Shared) && ProcAt(s, 2).success && ProcAt(s, 2).evidence <= s.hist.serial
  {
    s := CollectingIsReachable();
    s := Moves(s, Collecting, Conclude(true), Evaluated);
    s := Moves(s, Evaluated, EnterShared, Shared);
  }

  lemma ClaimOkIsReachable() returns (s: State)
    ensures Evaluating(s, ClaimOk) && ProcAt(s, 2).success && ProcAt(s, 2).evidence <= s.hist.serial
  {
    s := SharedIsReachable();
    s := Moves(s, Shared, Acquire, Guarded);
    s := Moves(s, Guarded, Inspect, ClaimOk);
  }

  lemma UnfencedIsReachable() returns (s: State)
    ensures Evaluating(s, Unfenced) && ProcAt(s, 2).success && ProcAt(s, 2).evidence <= s.hist.serial
  {
    s := ClaimOkIsReachable();
    s := Moves(s, ClaimOk, Inspect, VersionOk);
    s := Moves(s, VersionOk, Inspect, Unfenced);
  }

  lemma ClearedIsReachable() returns (s: State)
    ensures Evaluating(s, Cleared) && ProcAt(s, 2).success && ProcAt(s, 2).evidence <= s.hist.serial
  {
    s := UnfencedIsReachable();
    s := Moves(s, Unfenced, SeeUnique(true), Unique);
    s := Moves(s, Unique, Inspect, Current);
    s := Moves(s, Current, Inspect, Cleared);
  }
}
