/**
 The store as an object whose transactions update its tables in place.  Every
 method is one committed transaction; its contract is the corresponding function
 of module Queue, which is what the protocol in module Publication runs on.
 */
module QueueStore {
  import opened Options
  import opened Queue

  /** Released rows keep their identity and generation; a refund takes back this attempt, if there is one. */
  predicate ReleasedRow(before: Job, after: Job, refund: bool) {
    && after.lease.None? && after.id == before.id && after.generation == before.generation && after.head == before.head
    && after.attempts == if refund && before.attempts > 0 then before.attempts - 1 else before.attempts
  }

  /** The last outcome for this very head was confirmed by the completion that recorded it. */
  predicate Confirmed(recon: map<PullKey, Recon>, r: Request) {
    && r.pull in recon && Some(recon[r.pull].head) == r.head
    && recon[r.pull].confirmedAt == Some(recon[r.pull].completedAt)
  }

  class Store {
    var jobs: map<PullKey, Job>
    var epochs: map<HeadKey, Epoch>
    var recon: map<PullKey, Recon>
    var fences: set<Fence>
    var authEpochs: map<nat, nat>
    var nextId: nat

    constructor ()
      ensures View() == Db(map[], map[], map[], {}, map[], 0)
    {
      jobs, epochs, recon, fences, authEpochs, nextId := map[], map[], map[], {}, map[], 0;
    }

    function View(): Db
      reads this
    {
      Db(jobs, epochs, recon, fences, authEpochs, nextId)
    }

    /** UPDATE the epoch row; when no row was updated, INSERT generation 1. */
    method AdvanceSharedHeadEpoch(h: HeadKey, now: Time) returns (generation: nat)
      modifies this`epochs
      ensures View() == Advance(old(View()), h, now)
      ensures generation == SharedGeneration(old(View()), h) + 1
      ensures epochs == old(epochs)[h := epochs[h]]
      ensures epochs[h].generation == generation && epochs[h].lease.None? && epochs[h].attempts == 0
      ensures epochs[h].invalidated == if h in old(epochs) then old(epochs)[h].invalidated else 0
    {
      if h in epochs {
        var e := epochs[h];
        generation := e.generation + 1;
        epochs := epochs[h := Epoch(generation, e.invalidated, now, now, 0, None)];
      } else {
        generation := 1;
        epochs := epochs[h := Epoch(1, 0, now, now, 0, None)];
      }
    }

    method EnqueueInSession(r: Request, sharedGen: nat, keepClass: bool, now: Time)
      modifies this`jobs, this`nextId
      ensures View() == Upsert(old(View()), r, sharedGen, keepClass, now)
      ensures jobs == old(jobs)[r.pull := jobs[r.pull]]
      ensures var row := jobs[r.pull]; row.lease.None? && row.attempts == 0 && row.head == r.head && row.sharedGen == sharedGen
      ensures r.pull in old(jobs) ==>
                && jobs[r.pull].id == old(jobs)[r.pull].id
                && jobs[r.pull].generation == old(jobs)[r.pull].generation + 1
                && (keepClass && old(jobs)[r.pull].workClass == Interactive ==> jobs[r.pull].workClass == Interactive)
      ensures r.pull !in old(jobs) ==> jobs[r.pull].id == old(nextId) < nextId && jobs[r.pull].generation == 1
    {
      var authGen := AuthGeneration(View(), r.pull.inst);
      if r.pull in jobs {
        var row := jobs[r.pull];
        var workClass := r.workClass;
        if keepClass && row.workClass == Interactive {
          workClass := Interactive;
        }
        jobs := jobs[r.pull := Job(row.id, row.generation + 1, r.head, sharedGen, authGen, r.reason, workClass, 0,
                                   now, now, None)];
      } else {
        jobs := jobs[r.pull := Job(nextId, 1, r.head, sharedGen, authGen, r.reason, r.workClass, 0,
                                   now, now, None)];
        nextId := nextId + 1;
      }
    }

    method EnqueueTrigger(r: Request, now: Time)
      requires r.head.Some?
      modifies this
      ensures View() == EnqueueSharedHeadTrigger(old(View()), r, now)
      ensures var h := HeadOf(r.pull, r.head.value);
              && jobs == old(jobs)[r.pull := jobs[r.pull]] && epochs == old(epochs)[h := epochs[h]]
              && jobs[r.pull].sharedGen == epochs[h].generation == SharedGeneration(old(View()), h) + 1
    {
      var generation := AdvanceSharedHeadEpoch(HeadOf(r.pull, r.head.value), now);
      EnqueueInSession(r, generation, true, now);
    }

    /** Bind fan-out work to a still-current generation, preserving a different head's row. */
    method EnqueueForSharedHeadGeneration(r: Request, generation: nat, now: Time) returns (outcome: FanOutOutcome)
      requires r.head.Some?
      modifies this
      ensures outcome == FanOut(old(View()), r, generation)
      ensures View() == EnqueueForGeneration(old(View()), r, generation, now)
      ensures epochs == old(epochs)
      ensures outcome != Queued ==> jobs == old(jobs)
      ensures outcome == Queued ==>
                jobs == old(jobs)[r.pull := jobs[r.pull]]
                && jobs[r.pull].sharedGen == generation == SharedGeneration(View(), HeadOf(r.pull, r.head.value))
    {
      if generation == 0 {
        return BadGeneration;
      }
      var h := HeadOf(r.pull, r.head.value);
      if SharedGeneration(View(), h) != generation {
        return GenerationChanged;
      }
      if r.pull in jobs && jobs[r.pull].head.Some? && jobs[r.pull].head != r.head {
        return OtherHeadKept;
      }
      EnqueueInSession(r, generation, true, now);
      outcome := Queued;
    }

    /** The epoch advance rolls back when the pull request already has a row. */
    method EnqueueIfAbsentRow(r: Request, now: Time) returns (queued: bool)
      modifies this
      ensures queued == (r.pull !in old(jobs))
      ensures View() == EnqueueIfAbsent(old(View()), r, now)
      ensures !queued ==> View() == old(View())
    {
      if r.pull in jobs {
        return false;
      }
      var generation := 0;
      if r.head.Some? {
        generation := AdvanceSharedHeadEpoch(HeadOf(r.pull, r.head.value), now);
      }
      EnqueueInSession(r, generation, true, now);
      queued := true;
    }

    method ReconcileIfDue(r: Request, observedAt: Time, recheckSeconds: nat, now: Time) returns (queued: bool)
      requires r.head.Some?
      modifies this
      ensures r.pull in old(jobs) ==>
                (queued <==> && old(jobs)[r.pull].head != r.head
                             && (old(jobs)[r.pull].workClass == Recovery || old(jobs)[r.pull].requestedAt <= observedAt))
      ensures r.pull !in old(jobs) ==>
                (queued <==> !(Confirmed(old(recon), r) && old(recon)[r.pull].completedAt + recheckSeconds > now))
      ensures queued && r.pull !in old(jobs) && Confirmed(old(recon), r) ==>
                && r.pull in jobs && jobs[r.pull].reason == ScheduledRecheck
                && jobs[r.pull].sharedGen == SharedGeneration(old(View()), HeadOf(r.pull, r.head.value))
                                          == SharedGeneration(View(), HeadOf(r.pull, r.head.value))
      ensures queued && !(r.pull !in old(jobs) && Confirmed(old(recon), r)) ==>
                && r.pull in jobs && jobs[r.pull].reason == r.reason
                && jobs[r.pull].sharedGen == SharedGeneration(View(), HeadOf(r.pull, r.head.value))
                                          == SharedGeneration(old(View()), HeadOf(r.pull, r.head.value)) + 1
      ensures View() == EnqueueReconciliationIfDue(old(View()), r, observedAt, recheckSeconds, now)
      ensures !queued ==> jobs == old(jobs) && epochs == old(epochs)
      ensures queued ==> jobs == old(jobs)[r.pull := jobs[r.pull]] && jobs[r.pull].head == r.head
    {
      var h := HeadOf(r.pull, r.head.value);
      if r.pull in jobs {
        var existing := jobs[r.pull];
        if existing.head == r.head || (existing.workClass == Interactive && existing.requestedAt > observedAt) {
          queued := false;
        } else {
          var generation := AdvanceSharedHeadEpoch(h, now);
          EnqueueInSession(r, generation, existing.workClass != Interactive, now);
          queued := true;
        }
        if r.pull in recon {
          recon := recon[r.pull := recon[r.pull].(observedAt := now)];
        }
        return;
      }
      var confirmed := ConfirmedAt(View(), r);
      if confirmed.Some? && confirmed.value + recheckSeconds > now {
        recon := recon[r.pull := recon[r.pull].(observedAt := now)];
        return false;
      }
      var reason, generation := r.reason, 0;
      if confirmed.Some? {
        reason := ScheduledRecheck;
        if h in epochs {
          epochs := epochs[h := epochs[h].(changedAt := now)];
          generation := epochs[h].generation;
        }
      } else {
        generation := AdvanceSharedHeadEpoch(h, now);
      }
      EnqueueInSession(r.(reason := reason), generation, true, now);
      queued := true;
    }

    method BindClaimToHead(c: Claim, sha: string, now: Time) returns (bound: Option<Claim>)
      modifies this
      ensures c.head.Some? ==> View() == old(View()) && bound == if c.head == Some(sha) then Some(c) else None
      ensures c.head.None? ==> View() == BindClaim(old(View()), c, sha, now)
      ensures bound.Some? && c.head.None? ==>
                && c.pull in old(jobs) && old(jobs)[c.pull].id == c.id && old(jobs)[c.pull].generation == c.generation
                && old(jobs)[c.pull].head.None? && jobs == old(jobs)[c.pull := jobs[c.pull]]
      ensures c.head.None? ==>
                bound == if CanBind(old(View()), c)
                         then Some(c.(head := Some(sha), sharedGen := SharedGeneration(View(), HeadOf(c.pull, sha))))
                         else None
    {
      if c.head.Some? {
        return if c.head == Some(sha) then Some(c) else None;
      }
      if !CanBind(View(), c) {
        return None;
      }
      var generation := AdvanceSharedHeadEpoch(HeadOf(c.pull, sha), now);
      jobs := jobs[c.pull := jobs[c.pull].(head := Some(sha), sharedGen := generation)];
      bound := Some(c.(head := Some(sha), sharedGen := generation));
    }

    method ClaimEvaluation(pull: PullKey, owner: Owner, now: Time, leaseSeconds: nat) returns (claimed: Option<Claim>)
      modifies this`jobs
      ensures claimed.Some? <==>
                && pull in old(jobs) && old(jobs)[pull].availableAt <= now
                && (old(jobs)[pull].lease.None? || old(jobs)[pull].lease.value.until < now)
                && Fence(pull.inst, None) !in fences && Fence(pull.inst, Some(pull.repo)) !in fences
      ensures claimed.Some? ==> pull in jobs && jobs[pull].lease == Some(Lease(owner, now + leaseSeconds))
      ensures claimed.Some? ==>
                && View() == ClaimJob(old(View()), pull, owner, now + leaseSeconds)
                && claimed.value == ClaimView(pull, jobs[pull], owner)
                && claimed.value == Claim(pull, jobs[pull].id, jobs[pull].generation, jobs[pull].head, jobs[pull].sharedGen,
                                          jobs[pull].authGen, jobs[pull].reason, jobs[pull].workClass,
                                          jobs[pull].attempts, jobs[pull].requestedAt, owner)
                && IsCurrentClaim(View(), claimed.value, now)
                   == (AuthGeneration(View(), pull.inst) == claimed.value.authGen)
                && jobs == old(jobs)[pull := jobs[pull]]
                && claimed.value.attempts == old(jobs)[pull].attempts + 1
                && (old(jobs)[pull].lease.Some? <==> claimed.value.generation == old(jobs)[pull].generation + 1)
      ensures claimed.None? ==> View() == old(View())
    {
      if !CanClaim(View(), pull, now) {
        return None;
      }
      var row := jobs[pull];
      var generation := row.generation;
      if row.lease.Some? {
        generation := generation + 1;
      }
      row := row.(lease := Some(Lease(owner, now + leaseSeconds)), attempts := row.attempts + 1, generation := generation);
      jobs := jobs[pull := row];
      claimed := Some(ClaimView(pull, row, owner));
    }

    method RenewEvaluation(c: Claim, now: Time, leaseSeconds: nat) returns (renewed: bool)
      modifies this`jobs
      ensures renewed == HoldsClaim(old(View()), c)
      ensures View() == RenewClaim(old(View()), c, now + leaseSeconds)
      ensures renewed ==> jobs == old(jobs)[c.pull := old(jobs)[c.pull].(lease := Some(Lease(c.owner, now + leaseSeconds)))]
    {
      renewed := HoldsClaim(View(), c);
      if renewed {
        jobs := jobs[c.pull := jobs[c.pull].(lease := Some(Lease(c.owner, now + leaseSeconds)))];
      }
    }

    method CompleteEvaluation(c: Claim, now: Time) returns (completed: bool)
      modifies this`jobs, this`recon
      ensures completed == HoldsClaim(old(View()), c)
      ensures View() == Complete(old(View()), c, now)
      ensures jobs == if completed then old(jobs) - {c.pull} else old(jobs)
      ensures completed && old(jobs)[c.pull].head.Some? ==>
                recon == old(recon)[c.pull := Recon(old(jobs)[c.pull].head.value, now, Some(now), now)]
    {
      completed := HoldsClaim(View(), c);
      if completed {
        var row := jobs[c.pull];
        jobs := jobs - {c.pull};
        if row.head.Some? {
          recon := recon[c.pull := Recon(row.head.value, now, Some(now), now)];
        }
      }
    }

    method ReleaseClaim(c: Claim, now: Time, delay: nat, refund: bool, revoke: bool) returns (updated: bool)
      modifies this
      ensures updated == HoldsClaim(old(View()), c)
      ensures View() == Release(old(View()), c, now, delay, refund, revoke)
      ensures !updated ==> View() == old(View())
      ensures updated ==> jobs == old(jobs)[c.pull := jobs[c.pull]] && ReleasedRow(old(jobs)[c.pull], jobs[c.pull], refund)
      ensures updated && revoke && c.reason == ScheduledRecheck && c.head.Some? ==>
                SharedGeneration(View(), HeadOf(c.pull, c.head.value)) == jobs[c.pull].sharedGen
      ensures !(updated && revoke && c.reason == ScheduledRecheck && c.head.Some?) ==> epochs == old(epochs)
    {
      updated := HoldsClaim(View(), c);
      if !updated {
        return;
      }
      var row := jobs[c.pull].(availableAt := now + delay, lease := None);
      if refund && row.attempts > 0 {
        row := row.(attempts := row.attempts - 1);
      }
      jobs := jobs[c.pull := row];
      if revoke && c.reason == ScheduledRecheck && c.head.Some? {
        var generation := AdvanceSharedHeadEpoch(HeadOf(c.pull, c.head.value), now);
        jobs := jobs[c.pull := row.(reason := PeriodicReconciliation, sharedGen := generation)];
      }
    }

    /** A failure keeps the attempt, and ends a scheduled recheck. */
    method FailClaim(c: Claim, now: Time, delay: nat) returns (updated: bool)
      modifies this
      ensures updated == HoldsClaim(old(View()), c)
      ensures View() == Fail(old(View()), c, now, delay)
      ensures updated ==>
                && c.pull in jobs && jobs[c.pull].attempts == old(jobs)[c.pull].attempts
                && jobs[c.pull].availableAt == now + delay && jobs[c.pull].lease.None?
                && (c.reason == ScheduledRecheck && c.head.Some? ==> jobs[c.pull].reason == PeriodicReconciliation)
    {
      updated := ReleaseClaim(c, now, delay, false, true);
    }

    method DeferClaim(c: Claim, now: Time, delay: nat, limit: Option<nat>) returns (updated: bool)
      modifies this
      ensures updated == HoldsClaim(old(View()), c)
      ensures View() == Defer(old(View()), c, now, delay, limit)
      ensures updated ==>
                && c.pull in jobs && now + 1 <= jobs[c.pull].availableAt <= now + 86400
                && (1 <= delay <= 86400 ==> jobs[c.pull].availableAt == now + delay)
                && jobs[c.pull].attempts == (if old(jobs)[c.pull].attempts > 0 then old(jobs)[c.pull].attempts - 1 else 0)
    {
      var clamped := ClampedDelay(delay);
      var revoke := limit.Some? && now + clamped > c.requestedAt + limit.value;
      updated := ReleaseClaim(c, now, clamped, true, revoke);
    }

    method ClaimReset(h: HeadKey, owner: Owner, now: Time, leaseSeconds: nat) returns (claimed: Option<InvalClaim>)
      modifies this`epochs
      ensures claimed.Some? <==>
                && h in old(epochs) && old(epochs)[h].invalidated < old(epochs)[h].generation
                && old(epochs)[h].availableAt <= now
                && (old(epochs)[h].lease.None? || old(epochs)[h].lease.value.until < now)
      ensures claimed.Some? ==> h in epochs && epochs[h].lease == Some(Lease(owner, now + leaseSeconds))
      ensures claimed.Some? ==>
                && View() == ClaimInvalidation(old(View()), h, owner, now + leaseSeconds)
                && IsCurrentInvalidation(View(), claimed.value, now)
                && claimed.value.head == h && claimed.value.owner == owner
      ensures claimed.None? ==> View() == old(View())
    {
      if !CanClaimInvalidation(View(), h, now) {
        return None;
      }
      var e := epochs[h];
      epochs := epochs[h := e.(lease := Some(Lease(owner, now + leaseSeconds)), attempts := e.attempts + 1)];
      claimed := Some(InvalClaim(h, e.generation, e.attempts + 1, owner));
    }

    method RenewReset(c: InvalClaim, now: Time, leaseSeconds: nat) returns (renewed: bool)
      modifies this`epochs
      ensures renewed == IsCurrentInvalidation(old(View()), c, now)
      ensures View() == RenewInvalidation(old(View()), c, now, now + leaseSeconds)
    {
      renewed := IsCurrentInvalidation(View(), c, now);
      if renewed {
        epochs := epochs[c.head := epochs[c.head].(lease := Some(Lease(c.owner, now + leaseSeconds)))];
      }
    }

    method CompleteReset(c: InvalClaim, now: Time) returns (completed: bool)
      modifies this`epochs
      ensures completed == IsCurrentInvalidation(old(View()), c, now)
      ensures completed ==> !Pending(View(), c.head)
      ensures View() == CompleteInvalidation(old(View()), c, now)
      ensures epochs == if completed then old(epochs)[c.head := epochs[c.head]] else old(epochs)
    {
      completed := IsCurrentInvalidation(View(), c, now);
      if completed {
        epochs := epochs[c.head := epochs[c.head].(invalidated := c.generation, lease := None)];
      }
    }

    method ReleaseReset(c: InvalClaim, now: Time, delay: nat, refund: bool) returns (updated: bool)
      modifies this`epochs
      ensures updated == IsCurrentInvalidation(old(View()), c, now)
      ensures View() == ReleaseInvalidation(old(View()), c, now, delay, refund)
      ensures updated ==> epochs == old(epochs)[c.head := epochs[c.head]] && Pending(View(), c.head)
    {
      updated := IsCurrentInvalidation(View(), c, now);
      if updated {
        var e := epochs[c.head].(availableAt := now + delay, lease := None);
        if refund && e.attempts > 0 {
          e := e.(attempts := e.attempts - 1);
        }
        epochs := epochs[c.head := e];
      }
    }

    method Prune(olderThan: Time) returns (removed: nat)
      modifies this`epochs
      ensures View() == PruneSharedHeadEpochs(old(View()), olderThan)
      ensures removed == |set h | h in old(epochs) && Prunable(old(View()), h, olderThan)|
      ensures forall h :: h in old(epochs) && h !in epochs <==>
                && h in old(epochs) && old(epochs)[h].changedAt < olderThan
                && old(epochs)[h].invalidated == old(epochs)[h].generation && old(epochs)[h].lease.None?
                && forall pull :: pull in jobs && jobs[pull].head.Some? ==>
                     HeadKey(pull.inst, pull.repo, jobs[pull].head.value) != h
      ensures forall h :: h in epochs ==> epochs[h] == old(epochs)[h]
    {
      var db := View();
      var gone := set h | h in epochs && Prunable(db, h, olderThan);
      epochs := epochs - gone;
      removed := |gone|;
    }
  }
}
