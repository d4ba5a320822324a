# Extra CODEOWNERS: a verified model

Extra CODEOWNERS publishes one required GitHub check per commit. The check may show success only while
every changed path that has CODEOWNERS is approved on current evidence. Replicated workers share a SQL
database, lose leases, crash, and write to GitHub at any moment. This project models the parts of the
service that have to be right for the check to be believed, and proves what they guarantee.

## What is modelled

**The publication protocol** (`Queue`, `QueueStore`, `Publication*`). `Queue` holds the durable rows and
every store transaction as a total function on the database. `QueueStore.Store` updates the same tables
in place, one method per transaction, each proved against its function. `Publication` is the state
machine: every transaction, GitHub read or write and guard acquisition of `evaluate_job`,
`invalidate_shared_head`, `invalidate_for_trigger` and `_finish_closed_pull_check` is one atomic step.
Workers interleave freely, raise or crash between any two steps, and the clock only moves forward. A
history that no code reads (`Hist`) is computed from the database before and after each transaction. It
gives each accepted trigger a serial, because stored generations restart at 1 after pruning.
`PublicationAuthority` and `PublicationPhases` observe whole runs in the same way. `PublicationChecks`
says what may replace what at a commit, `PublicationTrail` which looks at the database every write follows, and
`Leases` who may take over whose work.

**Authority fan-out** (`Authority`, `AuthorityFanOut`, `AuthorityFence`, `AuthorityCheckpoints`, `AuthorityPages`): the coalesced
rows with their bounded maps, one installation's fan-out as a state machine, and the page and prefix
checkpoints of one repository pass.

**The quota account** (`Budget`), **patterns and CODEOWNERS files** (`Text`, `Patterns`, `PatternShapes`,
`Codeowners`, `CodeownersFacts`), **policy and evaluation** (`Policy`, `Evaluator`, `Approvals`, `Guardrails`,
`LineFeeds`), **DCO evidence** (`Dco`), **the response cache** (`DiscoveryCache`) and **the JSON nesting scan**
(`JsonNesting`).

## Main results

* `StaleSuccessIsOwedAReset`, `CompletingWriteIsFresh`, `NoWrongfulReset`, `OneLiveClaim`,
  `CompleteIsLatest`, `RecheckAttempts` and `ReleasedRecheck` hold in every reachable state of the
  protocol, across pruning and generation restart. `StaleSuccessIsReachable` is a run in which a stale
  success is really shown, so the first of them is not vacuous.
* `CompletingWriteFollowsChanges`: what the installation's authority epoch fences. A result is written only
  on a claim and evidence that follow every accepted installation-wide change. `NothingOlderThanTheRevocation`
  and `ResultsLeftInPlaceAreConfirmed` cover the phases before and after that write. `ResultsAreNotCancelled` and
  `ClosingCancelsOnlyBlocking`: closing a pull request never rewrites a completed result.
  `ResultsFollowTheirChecks` and `ResetsFollowTheirChecks`: every write follows the looks it needs, in order.
* `LiveEvaluationIsLeftAlone`, `LiveResetIsLeftAlone` and `LiveAuthorityIsLeftAlone`: while a lease runs, nobody
  but its holder touches the work, apart from newer work that supersedes it; `EvaluationClaimedExactly` and its
  companions: once it has run out, anybody can claim it.
* `CoalescingLosesNothing`, `PassesReadAfterTheirRequests` and `FenceStaysUp` hold over every run of the
  authority machine. A request counts as covered only by a pass that read page 1 and then each next page for as
  long as the provider said there were more, all after the request was accepted, or that retired the repository
  after it.
* `Evaluate` succeeds exactly when every changed path is approved on its own, although the code decides
  by owner set and coalesces delegations by application. `PathApprovedExactly` says what approval means on the
  reviews, the author and the delegations themselves, and `WithdrawnApprovalsBlock` that an approval its author
  has since taken back does not count.
* `CompilationPreservesMeaning`: the regular expression emitted for a pattern matches a path exactly when
  a direct recursive matcher does, for every string, including paths with line breaks. `WildcardMatchesExactly`,
  `LiteralMatchesExactly` and `DirectoryMatchesExactly` give the meaning of every pattern by its written shape.
* `RoundTrip`, `ReachedExactlyWhenParented` with `CommitOrderIsValid`, `HitsAreLastWrites`,
  `QuotaConserved` and `ScanDecidesDepth` are for-all statements about every input or every run.

## Where the code falls short of its own statement

* **A refused listing checkpoint can drop the installation fence.** While an installation-wide change fans
  out, its row should block every repository until all of them are enumerated. `_discover_authority` returns
  normally when a listing page's checkpoint is refused (`extra_codeowners/service.py:2362-2363`), also when
  the claim's lease merely ran out and nobody reclaimed it. `complete_authority` then checks the row's id,
  generation and owner, but not the lease (`extra_codeowners/database.py:3300-3346`), and deletes the row.
  `LateRunForgetsAChange` is a concrete run. `CompletionKeepsFenceExactly` gives the exact condition at
  completion: the listing had reached its end, or later evidence is pending. `OnlyRefusedWorkersDrop` shows
  that nothing but such a refusal leads there, `LateCheckpointDropsFence` that it does when that worker
  completes with nothing pending, and `FenceStaysUp` proves continuity for every run without such a
  completion.
* **A line feed in a path escapes directory patterns.** Patterns are compiled with `.*`, which stops at a line
  feed, and `normalize_repository_path` (`extra_codeowners/models.py:82-98`) accepts one inside a path. Below
  a wildcard-free directory a pattern matches exactly when the rest of the path is on one line. Two things
  follow. A workflow file such as `.github/workflows/a<LF>b.yml` is not guarded (`GuardedFeedEscapes`). And a
  file such as `src/a<LF>b` below an owned `/src/` has no owner (`OwnedFeedEscapes`), so changing it needs no
  approval at all: `UnapprovedChangePassesExactly` gives a whole evaluation input, with default options, that
  nobody approved and that is approvable exactly when the path holds a line feed.

## Model

| member | source | states |
|---|---|---|
| `QueueStore.Store.AdvanceSharedHeadEpoch` | extra_codeowners/database.py:1556-1640 | advancing a head bumps its generation by one, or starts it at 1, clears the invalidation lease and attempts, keeps what was invalidated and changes no other row |
| `QueueStore.Store.EnqueueInSession` | extra_codeowners/database.py:1671-1769 | a queued pull request keeps its id, gains a generation, loses lease and attempts and takes the new head binding; a missing one gets a fresh id; interactive work is never demoted when the class is kept |
| `QueueStore.Store.EnqueueTrigger` | extra_codeowners/database.py:1824-1843 | an accepted exact-head trigger advances the epoch and binds the row to that new generation in one transaction |
| `QueueStore.Store.EnqueueForSharedHeadGeneration` | extra_codeowners/database.py:1845-1896 | fan-out work binds only to a still-current generation, never advances it, and leaves a row for a different head alone |
| `QueueStore.Store.EnqueueIfAbsentRow` | extra_codeowners/database.py:1898-1970 | an existing row absorbs the request without advancing the epoch; an absent one is queued with a trigger |
| `QueueStore.Store.ReconcileIfDue` | extra_codeowners/database.py:1972-2135 | when reconciliation queues work, on the stored row and outcome: a confirmed outcome is rechecked exactly when its recheck is due, on the present generation, and anything else is queued with a trigger; exactly what each case changes |
| `QueueStore.Store.BindClaimToHead` | extra_codeowners/database.py:2388-2434 | a hintless claim binds to the live head exactly when the row still carries the claim, atomically advancing that head; a lost binding changes nothing |
| `QueueStore.Store.ClaimEvaluation` | extra_codeowners/database.py:2916-3040 | a claim succeeds exactly on an available, unfenced row without a lease or with one that ended before now; reclaiming an expired lease bumps the generation; the new claim is current unless authority moved |
| `QueueStore.Store.RenewEvaluation` | extra_codeowners/database.py:2605-2618 | renewal succeeds exactly for the holder of id, generation and owner |
| `QueueStore.Store.CompleteEvaluation` | extra_codeowners/database.py:3449-3502 | completion removes exactly the holder's row and records the reconciliation outcome |
| `QueueStore.Store.ReleaseClaim` | extra_codeowners/database.py:3519-3557 | release clears the lease, may refund the attempt, and on revocation advances the epoch and rebinds the row in the same transaction |
| `QueueStore.Store.FailClaim` | extra_codeowners/database.py:3559-3584 | a failure keeps the attempt, delays the row and ends a scheduled recheck |
| `QueueStore.Store.DeferClaim` | extra_codeowners/database.py:3586-3626 | the delay is clamped to one second to one day, and a recheck deferred past its limit is revoked |
| `QueueStore.Store.ClaimReset` | extra_codeowners/database.py:2695-2769 | an exact-head reset is claimed exactly when it is pending, due, and without a lease or with one that ended before now; the claim is then current |
| `QueueStore.Store.RenewReset` | extra_codeowners/database.py:2802-2823 | a reset lease is renewed exactly while its claim is current |
| `QueueStore.Store.CompleteReset` | extra_codeowners/database.py:2825-2850 | completing a current reset leaves none pending for the head; a stale claim changes nothing |
| `QueueStore.Store.ReleaseReset` | extra_codeowners/database.py:2852-2913 | failing or deferring a reset releases exactly a current claim, refunding the attempt only on deferral |
| `QueueStore.Store.Prune` | extra_codeowners/database.py:3836-3855 | exactly the old, reset, unleased and unreferenced epochs are removed, and their number returned |
| `Leases.EvaluationClaimedExactly` | extra_codeowners/database.py:2916-3040 | an evaluation is claimed exactly when it is due, no lease on it reaches the present, and no fence covers it; no other row changes |
| `Leases.ResetClaimedExactly` | extra_codeowners/database.py:2695-2769 | a reset is claimed exactly when it is owed, due, and no lease on it reaches the present; no other row changes |
| `Leases.AuthorityClaimedExactly` | extra_codeowners/database.py:3114-3211 | an authority row is claimed exactly when no lease on it reaches the present (retry delays apart); no other row changes |
| `Leases.ExpiredWorkIsClaimable` | extra_codeowners/database.py:2916-3040 | due, unfenced work whose lease has run out can always be claimed, so a crashed worker strands nothing |
| `Leases.CurrentOrReclaimable` | extra_codeowners/database.py:2572-2603 | a held claim on due, unfenced work is either still current or reclaimable, never both and never neither |
| `Leases.LiveEvaluationIsLeftAlone` | extra_codeowners/database.py:2916-3040 | in every reachable state, while a lease on a row runs only its holder changes the row, apart from a trigger that supersedes it and leaves it unleased |
| `Leases.LiveResetIsLeftAlone` | extra_codeowners/database.py:2695-2850 | in every reachable state, while a lease on a reset runs only its holder completes, releases or extends it, apart from a trigger that owes a newer one |
| `Leases.LiveAuthorityIsLeftAlone` | extra_codeowners/database.py:3114-3346 | while a lease on an authority row runs, requests may join it, but nobody else moves, takes or ends its pass |
| `PublicationTheorems.StaleSuccessIsOwedAReset` | extra_codeowners/service.py:1362-1438 | in every reachable state a shown success older than an accepted trigger is owed a durable reset, unless since that trigger a guarded invalidator saw no open pull request at the commit |
| `PublicationTheorems.CompletingWriteIsFresh` | extra_codeowners/service.py:1701-1755 | every completing write carries evidence collected after its job was bound, with no trigger between the binding and the last publishable check, under no authority fence and with the authority epoch the job was queued under |
| `PublicationAuthority.CompletingWriteFollowsChanges` | extra_codeowners/database.py:2572-2603 | every worker about to write a result claimed its job, and began collecting its evidence, after every installation-wide authority change accepted in the run |
| `PublicationAuthority.ChangedDatesAcceptances` | extra_codeowners/database.py:2214-2343 | the recorded serial of the last change is at or after every acceptance of the run |
| `PublicationAuthority.AcceptanceKeeps` | extra_codeowners/database.py:2214-2231 | accepting a change raises the epoch, so no row queued before it still carries the present one |
| `PublicationAuthority.StoreStamps` | extra_codeowners/database.py:1671-1769 | queueing stamps the present authority epoch, and no other worker transaction changes a row's stamp |
| `PublicationPhases.NothingOlderThanTheRevocation` | extra_codeowners/service.py:1541-1600 | from a worker's own revocation until its write, a result shown at its head was written after that revocation, unless the job keeps the published check |
| `PublicationPhases.ResultsLeftInPlaceAreConfirmed` | extra_codeowners/service.py:1776-1848 | a worker about to complete its job leaves an acknowledged result in place only if, after writing it, it saw a current claim, a publishable generation, no superseding row and no fence; otherwise it has tried to restore a blocking check |
| `PublicationPhases.WritesAreNumbered` | extra_codeowners/service.py:1701-1848 | the numbers the phase theorems compare are those of the writes, in the order they took effect |
| `PublicationChecks.OnlyGuardHoldersWrite` | extra_codeowners/service.py:1362-1438 | only the holder of a head's writer guard changes what is shown there |
| `PublicationChecks.SeenUntilOwnWrite` | extra_codeowners/service.py:1362-1438 | in every reachable state, what a guard holder has seen at its head stays shown until its own next write |
| `PublicationChecks.ResultsAreNotCancelled` | extra_codeowners/service.py:616-672 | a shown result gives way only to another result or to a blocking check, at every step of every worker |
| `PublicationChecks.ClosingCancelsOnlyBlocking` | extra_codeowners/service.py:616-672 | a worker finishing a closed pull request can write exactly while a blocking check is shown, and then cancels it |
| `PublicationChecks.ClosingKeepsResults` | extra_codeowners/service.py:616-672 | no step of a worker finishing a closed pull request changes a shown result, at any head |
| `PublicationChecks.RevokesUnlessKept` | extra_codeowners/service.py:1541-1600 | a worker writes a blocking check before it evaluates, exactly unless its job is a scheduled recheck in its first attempt |
| `PublicationChecks.KeptCheckStays` | extra_codeowners/service.py:1541-1600 | a scheduled recheck in its first attempt changes nothing shown before its own result |
| `PublicationChecks.RestoringBlocks` | extra_codeowners/service.py:1776-1848 | a worker that could not confirm its result writes a blocking check over it |
| `PublicationChecks.ResetsBlock` | extra_codeowners/service.py:1362-1438 | a reset that goes through shows a blocking check at its head |
| `PublicationChecks.EndsExactly` | extra_codeowners/service.py:1453-1862 | an evaluation completes its job only from its last point, and fails or defers it only once it has raised |
| `PublicationChecks.ResetEndsExactly` | extra_codeowners/service.py:1369-1451 | a reset completes only past its last check, and is released only once it has raised |
| `PublicationChecks.FencesMoveExactly` | extra_codeowners/database.py:2214-2343 | an accepted change fences its scope at once, children are fenced only under their parent, nothing but its own completion removes a fence, and the installation's epoch counts exactly its installation-wide changes |
| `PublicationChecks.AcceptedRequestsTrigger` | extra_codeowners/database.py:1824-1970 | an accepted request with a head adds one generation to that head and binds the pull request's unleased row to it |
| `PublicationChecks.NewHeadsTrigger` | extra_codeowners/service.py:1453-1540 | a worker that finds another head, or a changed one after evaluating, triggers it for its own pull request and returns |
| `PublicationChecks.RebindBinds` | extra_codeowners/service.py:1541-1575 | a worker whose generation has passed requeues its pull request at the present generation, unless that moved or the row went to another head |
| `PublicationChecks.FanOutBinds` | extra_codeowners/service.py:1417-1438 | fan-out queues a pull request at the reset's own generation exactly while that is current and the pull request has not moved to another head |
| `PublicationChecks.WaivesExactly` | extra_codeowners/service.py:1369-1416 | a trigger is waived only by a guarded reset that finds no pull request open at the head |
| `PublicationChecks.WritesMayBeLost` | extra_codeowners/service.py:1701-1848 | a write may take effect and be acknowledged, take effect unacknowledged, or be lost, and where the worker goes then |
| `PublicationChecks.WorkersMayFail` | extra_codeowners/service.py:1453-1862 | any worker may crash or raise between any two steps |
| `PublicationChecks.UnleasedResetsBegin` | extra_codeowners/service.py:1362-1400 | token-carrying and unconditional resets may begin at any head at any time, and the unconditional one writes exactly while it holds the guard |
| `PublicationChecks.GuardsAreHeldExactly` | extra_codeowners/service.py:1362-1862 | between which points of an evaluation or a reset its head's writer guard is held |
| `PublicationChecks.AcceptedExactly` | extra_codeowners/database.py:2233-2343 | a change is accepted exactly while no worker of its installation stands between its evaluation and its last check |
| `PublicationChecks.RenewsExactly` | extra_codeowners/database.py:2605-2823 | a renewal moves the lease exactly while the claim is held, for evaluations and resets, and changes nothing else |
| `PublicationChecks.AnswersAreTaken` | extra_codeowners/service.py:1453-1540 | what an evaluation does with each answer about its pull request: unusable, closed, its own head, or no hint |
| `PublicationTrail.ResultsFollowTheirChecks` | extra_codeowners/service.py:1701-1755 | a worker about to write a result has, under the guard, seen in this order: its claim current, its generation publishable, no fence, the generation publishable again, its claim current again, all stated on the stored rows |
| `PublicationTrail.EvaluationsFollowTheirChecks` | extra_codeowners/service.py:1541-1600 | a worker about to revoke has, under the guard, seen its claim current and the head's generation its own; one collecting evidence has since seen the generation publishable and no fence |
| `PublicationTrail.RestoringFollowsAFailedCheck` | extra_codeowners/service.py:1776-1848 | a worker restores a blocking check only after an unacknowledged write or after seeing that its claim, its generation or its standing was lost |
| `PublicationTrail.ResetsFollowTheirChecks` | extra_codeowners/service.py:1369-1416 | a reset is written only after its lease was seen to stand three times around what it read; a token-carrying one only while its generation was owed before and after |
| `PublicationTrail.FanOutFollowsItsCheck` | extra_codeowners/service.py:1417-1438 | fan-out goes on only while the reset's lease is seen to stand |
| `PublicationTrail.TurnsOffExactly` | extra_codeowners/service.py:1541-1848 | an evaluation leaves its way exactly when a look finds what it must not: a good look never ends it |
| `PublicationTrail.ResetTurnsOffExactly` | extra_codeowners/service.py:1369-1438 | a reset is given up exactly when its lease no longer stands |
| `PublicationTrail.NothingToReset` | extra_codeowners/service.py:1369-1416 | a reset that finds no check, or no open pull request, leaves what is shown and goes on to complete |
| `PublicationTrail.EvaluationsGoOn` | extra_codeowners/service.py:1453-1862 | at every point an evaluation has a next step besides raising, and which |
| `PublicationTrail.ResetsGoOn` | extra_codeowners/service.py:1369-1451 | at every point a reset has a next step |
| `PublicationTrail.FastResetsGoOn` | extra_codeowners/service.py:1362-1400 | a token-carrying reset takes its guard, looks while its generation is owed, and writes |
| `PublicationTheorems.ReadyMeansChecked` | extra_codeowners/database.py:2450-2471 | passing the last publishable check means the head's generation is the claim's own, its reset is done, and for a live claim no trigger came after the binding |
| `PublicationTheorems.NoWrongfulReset` | extra_codeowners/service.py:1369-1416 | a leased or token-carrying exact-head reset about to be written never covers a result published for the head's present generation, for every interleaving of expiry, reclaim and publication |
| `PublicationTheorems.PresentResultIsReset` | extra_codeowners/database.py:2473-2498 | a result for the present generation is shown only once that generation's reset is done |
| `PublicationTheorems.OneLiveClaim` | extra_codeowners/database.py:2572-2603 | two workers never both hold a claim on a row's present generation |
| `PublicationTheorems.CompleteIsLatest` | extra_codeowners/database.py:3449-3502 | completion removes a row only if every trigger accepted for its pull request precedes the claim |
| `PublicationTheorems.RecheckAttempts` | extra_codeowners/database.py:549-558 | a row still marked as a scheduled recheck has as many attempts as lost leases, plus one while leased |
| `PublicationTheorems.KeepsPublishedExactlyBeforeALoss` | extra_codeowners/database.py:2985-3006 | a fresh claim keeps the published check exactly when the row is a scheduled recheck that never lost a lease |
| `PublicationTheorems.ReleasedRecheck` | extra_codeowners/database.py:3505-3626 | failing a recheck, or deferring it past the limit, advances the head, leaves its reset owed and ends keep-published status in one step; a short deferral changes neither and refunds the attempt |
| `PublicationTheorems.StaleSuccessIsReachable` | extra_codeowners/service.py:1701-1755 | a concrete run in which a trigger commits during a success write, so that a stale success is shown with its reset owed |
| `PublicationSafety.StepKeeps` | extra_codeowners/service.py:1453-1862 | every step of every worker, client and clock keeps the protocol invariant |
| `PublicationSafety.RunKeeps` | extra_codeowners/service.py:1453-1862 | the invariant holds after every run from the empty database |
| `PublicationSafety.PublishableIsFresh` | extra_codeowners/database.py:2450-2471 | a live, publishable claim was bound after its head's last trigger, because a referenced epoch cannot be pruned and reborn with the same number |
| `PublicationSafety.GuardExcludesReady` | extra_codeowners/service.py:1362-1400 | while an invalidator holds a head's writer guard no worker is ready to publish there |
| `PublicationSafety.ClientFences` | extra_codeowners/database.py:2233-2343 | no authority change is accepted while a publisher of that installation holds the shared guard, and children appear only under their parent row |
| `PublicationTransactions.TriggerTx` | extra_codeowners/database.py:1824-1843 | a trigger transaction is one of the moves the invariant allows |
| `PublicationTransactions.FanOutTx` | extra_codeowners/database.py:1845-1896 | a fan-out transaction never rebinds a row to a generation older than its head's last trigger |
| `PublicationTransactions.ReconcileTx` | extra_codeowners/database.py:1972-2135 | every reconciliation outcome, the scheduled recheck included, keeps rows bound to their generation |
| `PublicationTransactions.BindTx` | extra_codeowners/database.py:2388-2434 | binding a hintless claim keeps rows bound to their generation |
| `PublicationTransactions.ReleaseTx` | extra_codeowners/database.py:3519-3557 | releasing a claim keeps the recheck and binding facts of its row |
| `PublicationTransactions.PruneTx` | extra_codeowners/database.py:3836-3855 | pruning removes only reset, unreferenced epochs, so no row can match a reborn generation |
| `PublicationInvariant.TxOthers` | extra_codeowners/database.py:1556-1640 | a transaction by one worker leaves every other worker's facts intact |
| `Authority.AuthorityRecord.EnqueueRequest` | extra_codeowners/database.py:2138-2211 | a request widens an unstarted pass or joins the pending evidence; past 100 branches either becomes a full rescan |
| `Authority.AuthorityRecord.CompletePass` | extra_codeowners/database.py:3300-3346 | the row is deleted exactly when nothing is pending; otherwise one next pass covers all of it from page one |
| `Authority.TargetExactly` | extra_codeowners/database.py:2138-2211 | a request is narrowed to one branch exactly where it names one of at most 255 characters in a repository's own scope; any other covers every branch |
| `AuthorityFence.CoalescingLosesNothing` | extra_codeowners/database.py:2138-2211 | in every run both maps hold at most 100 branches, a full rescan has no pending map, and every accepted request was covered by a completed pass that read the whole listing after it, or still stands in its row (the installation row unless a completion dropped it early) |
| `AuthorityFence.PassesReadAfterTheirRequests` | extra_codeowners/database.py:2162-2182 | whatever a pass has observed and still relies on, handled prefixes included, was read after every request it is to cover; no request is merged into a pass that has passed a page |
| `AuthorityFence.UnstartedIsFresh` | extra_codeowners/database.py:2162-2171 | an unstarted row relies on no observation, so widening it omits none |
| `AuthorityFence.CompletionCovers` | extra_codeowners/database.py:3300-3346 | completing an ended pass covers every open request not left for the next one, by reading the whole listing after it or by retiring the repository after it; the row goes exactly when nothing is pending, and then every request ever accepted for it is covered |
| `AuthorityFence.FenceStaysUp` | extra_codeowners/database.py:3248-3281 | from acceptance of an installation-wide change a repository stays blocked until a pass read the whole listing after the change, page 1 and each next page until the provider had no more, and every page that listed the repository has had its follow-up covered (runs in which no completion drops the installation row early) |
| `AuthorityFence.CompletionKeepsFenceExactly` | extra_codeowners/database.py:3300-3346 | with a change outstanding, completion keeps the installation fence exactly when the listing had reached its end or evidence is pending |
| `AuthorityFence.OnlyRefusedWorkersDrop` | extra_codeowners/service.py:2353-2366 | only a worker whose listing checkpoint was refused drops the installation row early |
| `AuthorityFence.LateCheckpointDropsFence` | extra_codeowners/service.py:2353-2366 | after a listing page refused only for an expired lease, with nothing pending, the same worker's completion drops every outstanding change |
| `AuthorityFence.LateRunForgetsAChange` | extra_codeowners/service.py:2353-2366 | a five-step run in which an accepted installation-wide change is forgotten |
| `AuthorityFence.RowsMoveLikeFences` | extra_codeowners/database.py:3248-3281 | authority rows appear only by acceptance or as children under the present parent row, and disappear only by their own completion |
| `AuthorityFence.ChildrenAreDistinct` | extra_codeowners/database.py:3248-3281 | the children one page creates get row ids different from each other and from every other row's |
| `AuthorityFence.CoalesceRepresents` | extra_codeowners/database.py:2138-2211 | coalescing one request keeps the bounded row equal in meaning to the outstanding requests, and keeps everything its pass relies on newer than the requests that pass covers |
| `AuthorityFence.EndedPassCovers` | extra_codeowners/database.py:3300-3346 | a pass that has read until the provider had no more pages, or retired its repository, covers every request it was to cover |
| `AuthorityFence.PrefixKeeps` | extra_codeowners/database.py:3213-3246 | checkpointing a handled prefix keeps the invariant: its fingerprints are dated by the claim that observed them |
| `AuthorityFence.RestartKeeps` | extra_codeowners/service.py:2332-2345 | a changed population starts the enumeration over without losing a request |
| `AuthorityFence.StepKeeps` | extra_codeowners/database.py:3114-3447 | every step of the authority machine keeps the representation, dating and listing invariants |
| `AuthorityCheckpoints.ListingPageExactly` | extra_codeowners/database.py:3248-3281 | a listing page is stored exactly while the claim stands: the row moves to the next page, or to the end when there are no more, and every listed repository has a row |
| `AuthorityCheckpoints.ListedAreFollowedUp` | extra_codeowners/database.py:3248-3281 | every repository a stored page lists is to be followed up on every branch, in its present pass if unstarted and otherwise in its next |
| `AuthorityCheckpoints.RestartExactly` | extra_codeowners/service.py:2332-2345 | a changed population sends the listing back to its first page while the claim stands, and raises either way |
| `AuthorityCheckpoints.PullPageExactly` | extra_codeowners/database.py:3213-3246 | a page of pull requests is stored exactly while the claim stands: next page, last number, greatest cursor and an empty handled map |
| `AuthorityCheckpoints.PrefixExactly` | extra_codeowners/database.py:3213-3246 | a handled prefix is stored exactly while the claim stands, and moves no page |
| `AuthorityCheckpoints.ReleaseExactly` | extra_codeowners/database.py:3348-3447 | a failed pass only loses its lease and a deferred one also takes back its attempt; neither moves the pass |
| `AuthorityCheckpoints.CompletionExactly` | extra_codeowners/database.py:3300-3346 | when a pass may complete, end or retire, and that a completion or renewal without the claim changes no row |
| `AuthorityCheckpoints.ClaimExactly` | extra_codeowners/database.py:3114-3211 | a claim counts an attempt, bumps the generation exactly on an expired lease, and leaves no other worker the claim |
| `AuthorityCheckpoints.RequestsAreBooked` | extra_codeowners/database.py:2138-2211 | every accepted request is booked under a serial of its own and is open until covered |
| `AuthorityCheckpoints.ClaimsAreDated` | extra_codeowners/database.py:3114-3211 | a claim is dated after everything booked before it |
| `AuthorityCheckpoints.ListingPagesAreBooked` | extra_codeowners/service.py:2346-2366 | a stored listing page is booked as read: number, whether the provider had more, the reader's date, and what it listed |
| `AuthorityCheckpoints.PullPagesAreBooked` | extra_codeowners/service.py:2595-2611 | a stored page of pull requests is booked as read, with the dates of the handled prefix it builds on |
| `AuthorityCheckpoints.PrefixesAreBooked` | extra_codeowners/service.py:2560-2572 | a handled prefix is booked under its observer's date |
| `AuthorityCheckpoints.WorkersMayFail` | extra_codeowners/service.py:2613-2680 | a fan-out worker may raise or crash between any two steps and leaves its row as it is |
| `AuthorityPages.ReadPage` | extra_codeowners/service.py:2502-2554 | the page's observations are exactly its matching pull requests, and the requests are those without an identical handled fingerprint |
| `AuthorityPages.SortBatch` | extra_codeowners/service.py:2555 | the batch is the requests in ascending order |
| `AuthorityPages.ScanPrefix` | extra_codeowners/service.py:2560-2567 | only the successful contiguous prefix is recorded: a later success never hides an earlier failure |
| `AuthorityPages.RepositoryPass.AttemptPage` | extra_codeowners/service.py:2487-2611 | one attempt moves the page exactly when the whole batch was handled and both checkpoints were current, and otherwise checkpoints exactly the handled prefix |
| `AuthorityPages.HandledReturned` | extra_codeowners/service.py:2434-2485 | for every history of attempts each stored fingerprint was handled or handed off under exactly that observation |
| `AuthorityPages.PagePassesOnlyWhenHandled` | extra_codeowners/service.py:2487-2611 | whatever fails, crashes or retries, a page passes only after every matching pull request on it was handled or handed off as just seen, and one is skipped only if it already had been |
| `AuthorityPages.PassedAttemptMovesOn` | extra_codeowners/service.py:2595-2611 | a page passes exactly when every revocation of its batch finished and the claim was current at the checkpoints; the pass then stands at the page the provider named next, with nothing handled there |
| `AuthorityPages.PrefixIsRecorded` | extra_codeowners/service.py:2560-2572 | a failed attempt whose claim was current records exactly the pull requests before the first that did not finish |
| `AuthorityPages.FailedAttemptKeepsPage` | extra_codeowners/database.py:3213-3246 | an attempt that does not pass moves no page field and adds only a handled prefix of its batch |
| `Budget.RecoveryApiBudget.AdmitRequest` | extra_codeowners/api_budget.py:122-153 | the locked row after one admission, and whether it debits, probes, defers or reports exhaustion with which delay |
| `Budget.RecoveryApiBudget.ObserveQuota` | extra_codeowners/api_budget.py:155-199 | the locked row after one observation: refund, new window or tightened balance, with the clock read twice |
| `Budget.QuotaConserved` | extra_codeowners/api_budget.py:122-199 | in every run the balance is within the limit and, inside one window, at most opening less debits plus refunds; probes outside live windows are at least 60 seconds apart |
| `Budget.RefundsOnlyTheNewestDebit` | extra_codeowners/api_budget.py:168-184 | a refund is granted only while its debit is the newest accounting event, and a receipt refunds at most once |
| `Budget.RefundsExactly` | extra_codeowners/api_budget.py:155-199 | inside a window an observation raises the balance exactly for the newest debit's holder, where the provider has more and the limit allows, and by exactly one; otherwise it takes the smaller balance |
| `Budget.RenewsExactly` | extra_codeowners/api_budget.py:155-199 | once the window has ended, or before any was known, an observation opens a new one with the provider's numbers |
| `Budget.LedgerCounts` | extra_codeowners/api_budget.py:122-199 | the ledger of QuotaConserved counts exactly the debits, refunds, probes and openings of the account |
| `Budget.RefundIsReachable` | extra_codeowners/api_budget.py:122-199 | a concrete run with a refund |
| `Budget.ProbesExactly` | extra_codeowners/api_budget.py:122-153 | outside a live window recovery work is admitted exactly when sixty seconds have passed since the last probe, and direct work always |
| `Budget.ResetNeverMovesBack` | extra_codeowners/api_budget.py:155-199 | no event moves the reset deadline back |
| `Budget.RecoveryKeepsReserve` | extra_codeowners/api_budget.py:122-153 | in a live window any run of recovery admissions takes the balance down by one each, exactly to the ceiling-rounded reserve, and not at all when it starts there |
| `Budget.DirectUsesTheReserve` | extra_codeowners/api_budget.py:122-153 | direct work is refused exactly at zero and recovery work exactly at the reserve |
| `Patterns.AcceptedPatterns` | extra_codeowners/codeowners.py:41-62 | exactly the accepted patterns: stripped non-empty text beginning with neither ! nor #, without brackets and backslashes, and with no empty, . or .. segment between its slashes |
| `Patterns.CompilePattern` | extra_codeowners/codeowners.py:65-104 | the index loop emits exactly the tokens of the pattern with its anchor prefix and literal suffix |
| `Patterns.Translate` | extra_codeowners/codeowners.py:78-96 | the translation loop emits the tokens of the whole pattern, runs of stars included |
| `Patterns.TokensMatch` | extra_codeowners/codeowners.py:78-96 | the emitted tokens match a string exactly when the recursive matcher does |
| `Patterns.CompilationPreservesMeaning` | extra_codeowners/codeowners.py:65-104 | for every pattern and every path the emitted expression matches exactly when the direct glob matcher does |
| `Patterns.AnchoredLiteral` | extra_codeowners/codeowners.py:98-104 | an anchored wildcard-free d matches exactly d and everything on one line below it |
| `Patterns.AnchoredDirectory` | extra_codeowners/codeowners.py:72-76 | an anchored wildcard-free d/ matches exactly what is on one line below it |
| `Patterns.AnchoredTree` | extra_codeowners/codeowners.py:78-96 | /d/** matches exactly the one-line paths under d/ |
| `Patterns.BareName` | extra_codeowners/codeowners.py:65-104 | a bare wildcard-free name matches exactly the paths that have it as a segment |
| `PatternShapes.AnchoredExactly` | extra_codeowners/codeowners.py:65-104 | a pattern is anchored exactly when it holds a slash other than one at its end |
| `PatternShapes.LiteralExactly` | extra_codeowners/codeowners.py:65-104 | what a pattern names is literal exactly when its last segment holds neither star nor question mark |
| `PatternShapes.Composes` | extra_codeowners/codeowners.py:78-96 | a pattern reads a path exactly when its beginning reads a part of it and its end the rest, for every cut that parts no double star |
| `PatternShapes.WildcardMatchesExactly` | extra_codeowners/codeowners.py:65-104 | a pattern with a wildcard in its last segment matches exactly what it reads to the end of the path, and nothing below |
| `PatternShapes.LiteralMatchesExactly` | extra_codeowners/codeowners.py:65-104 | a pattern with a literal last segment matches exactly what it reads and everything on one line below that |
| `PatternShapes.DirectoryMatchesExactly` | extra_codeowners/codeowners.py:72-76 | a pattern that ends in a slash matches exactly what lies on one line below what it reads |
| `PatternShapes.DoubleStarDirectoryMatchesExactly` | extra_codeowners/codeowners.py:72-96 | a double star before the last slash: the pattern goes on to a tree and reads to the end of the path |
| `PatternShapes.DirectChildrenExactly` | extra_codeowners/codeowners.py:98-104 | one star below a plain directory matches exactly its direct children |
| `PatternShapes.OneCharacterExactly` | extra_codeowners/codeowners.py:98-104 | a question mark below a plain directory matches exactly one more character that is no slash |
| `PatternShapes.InnerSlashAnchors` | extra_codeowners/codeowners.py:65-104 | a plain pattern with an inner slash matches only from the root |
| `PatternShapes.StarredDirectories` | extra_codeowners/codeowners.py:78-96 | two or more stars before a slash stand for nothing or for whole directories |
| `PatternShapes.StarredCharacters` | extra_codeowners/codeowners.py:78-96 | two or more stars before anything else take any characters of one line, slashes included |
| `Codeowners.LastRule` | extra_codeowners/codeowners.py:148-156 | the loop returns the last rule that applies, and none exactly when none applies |
| `Codeowners.RuleFor` | extra_codeowners/codeowners.py:148-162 | the owners of a path are those of its last matching rule, or none |
| `Codeowners.SplitLine` | extra_codeowners/codeowners.py:165-186 | the index loop splits a line into its tokens, honouring escaped whitespace |
| `Codeowners.ParseCodeowners` | extra_codeowners/codeowners.py:189-257 | a document is rejected with every issue in line order, or parsed to every rule in line order |
| `Codeowners.LineParses` | extra_codeowners/codeowners.py:201-253 | a printed rule parses back to the same pattern and owners |
| `Codeowners.SplitEscaped` | extra_codeowners/codeowners.py:165-186 | an escaped pattern comes back as one token whatever whitespace it holds |
| `Codeowners.RoundTrip` | extra_codeowners/codeowners.py:189-257 | printing any list of one-line valid rules with normalized distinct owners, within the size limit, and parsing it returns the same rules in order |
| `CodeownersFacts.RejectedExactly` | extra_codeowners/codeowners.py:189-257 | a document is rejected exactly when it exceeds 3 MiB or some line of it is faulty: no faulty line is skipped |
| `CodeownersFacts.LineExactly` | extra_codeowners/codeowners.py:201-253 | a line is skipped, rejected or a rule exactly by its words: none, an invalid pattern or owner, or the pattern with each of its owners once |
| `CodeownersFacts.DocumentExactly` | extra_codeowners/codeowners.py:189-257 | an accepted document holds one rule for each line that says something, in line order |
| `CodeownersFacts.LastMatchOwns` | extra_codeowners/codeowners.py:148-162 | the last matching rule decides a path's owners |
| `CodeownersFacts.UnmatchedHasNoOwner` | extra_codeowners/codeowners.py:148-162 | a path no rule matches has no owner |
| `CodeownersFacts.AcceptedOwners` | extra_codeowners/models.py:64-79 | exactly the accepted owners: a user or an organization's team, lower-cased and stripped; anything else with an at sign inside is reported as an email address |
| `Policy.CompilePolicy` | extra_codeowners/policy.py:159-224 | compilation succeeds exactly when every guarded pattern is valid and every delegation is enrolled with valid paths; otherwise it reports exactly those issues |
| `Policy.AnyMatchMeans` | extra_codeowners/policy.py:124-128 | a path is non-delegable exactly when some guarded pattern matches it |
| `Policy.Decide` | extra_codeowners/policy.py:81-104 | a delegation decides exactly the paths and owners it covers, and is eligible exactly when labels are complete and none is forbidden |
| `Policy.Reasons` | extra_codeowners/policy.py:91-97 | exactly the missing and the forbidden labels are reported, and nothing exactly when the labels allow the delegation |
| `Policy.Coalesce` | extra_codeowners/policy.py:145-156 | one decision per application: eligible if any delegation is, otherwise with the pooled reasons |
| `Policy.DelegationDecisions` | extra_codeowners/policy.py:130-156 | an application is eligible after coalescing exactly when one of its delegations covers the path for these owners and the labels allow it |
| `Evaluator.LatestOpinionatedReviews` | extra_codeowners/evaluator.py:28-48 | exactly each actor's latest approval, rejection or dismissal by time and then id, with times and ids never decreasing; comments never supersede |
| `Evaluator.EvaluationPaths` | extra_codeowners/evaluator.py:51-57 | every old and new path once |
| `Evaluator.CurrentApprovals` | extra_codeowners/evaluator.py:60-80 | exactly the standing approvals, on the exact head where that is required; the rest are stale |
| `Evaluator.RecognizedAppApprovals` | extra_codeowners/evaluator.py:83-116 | exactly the aliases whose id, slug, bot account and login all match an approving application |
| `Evaluator.GroupPaths` | extra_codeowners/evaluator.py:232-241 | the groups hold exactly the owned paths under their own owner set, once per set; the rest are unowned |
| `Evaluator.DecideGroup` | extra_codeowners/evaluator.py:243-367 | a group is satisfied exactly when each of its paths is covered by a human owner, an owning author or applications, credited in that order |
| `Evaluator.CollectEvidence` | extra_codeowners/evaluator.py:296-341 | per path: whether it is guarded, and exactly the eligible applications and those of them that approved; all succeeds exactly when every path has one |
| `Evaluator.EvidenceDecides` | extra_codeowners/evaluator.py:299-319 | a path's evidence names an approved application exactly when an approved application covers the path |
| `Evaluator.GroupsAgreeWithPaths` | extra_codeowners/evaluator.py:243-367 | deciding by group agrees with deciding path by path |
| `Evaluator.Evaluate` | extra_codeowners/evaluator.py:165-388 | success exactly when policy is enabled, everything parses and compiles, and every old or new changed path with owners has a current human owner approval, an opted-in owning author, or is delegable with an approved eligible application |
| `Evaluator.HumanApprovesExactly` | extra_codeowners/evaluator.py:28-80 | a human owner approves exactly when some approval of theirs, on the head where required, is followed by no later approval, rejection or dismissal of the same actor |
| `Evaluator.WithdrawnApprovalsBlock` | extra_codeowners/evaluator.py:28-80 | a change whose owners have all since rejected or been dismissed does not pass, unless the author or an application covers it |
| `Approvals.PathApprovedExactly` | extra_codeowners/evaluator.py:243-367 | a path is approved exactly when it has no owners, a human owner's approval stands, an opted-in owning author counts, or it is unguarded and delegated to an application whose approval stands |
| `Approvals.AppApprovedExactly` | extra_codeowners/evaluator.py:83-116 | an application has approved exactly when a standing approval comes from the bot of the first enrolled application that agrees in id, slug, account and login |
| `Approvals.EligibleExactly` | extra_codeowners/policy.py:81-156 | an application is eligible exactly when some delegation names it, covers the path and one of the owners, and finds its labels present and its forbidden ones absent |
| `Approvals.AuthorOwnsExactly` | extra_codeowners/evaluator.py:222-230 | the author counts exactly where the repository opted in and one of their own identities is an owner |
| `Approvals.SoundExactly` | extra_codeowners/policy.py:159-224 | a policy compiles exactly when all guarded and delegated patterns are valid and every delegation names an enrolled application |
| `Guardrails.BuiltinsMatchGuarded` | extra_codeowners/policy.py:23-30 | the built-in guarded patterns match exactly the listed files and one-line paths below the listed directories |
| `LineFeeds.WorkflowsGuardedExactly` | extra_codeowners/policy.py:23-30 | a name below .github/workflows/ is guarded exactly when it is on one line |
| `LineFeeds.GuardedFeedEscapes` | extra_codeowners/policy.py:23-30 | a concrete workflow path with a line feed that is not guarded |
| `LineFeeds.DirectoryOwnedExactly` | extra_codeowners/codeowners.py:65-104 | a rule for an anchored wildcard-free directory owns exactly the one-line paths below it |
| `LineFeeds.OwnedFeedEscapes` | extra_codeowners/codeowners.py:148-162 | a concrete path below an owned directory that has no owner |
| `LineFeeds.OwnedFeedIsAPath` | extra_codeowners/models.py:82-98 | that path is one the service accepts as a repository path |
| `LineFeeds.UnapprovedChangePassesExactly` | extra_codeowners/evaluator.py:165-388 | with default options, a change below the owned directory that nobody approved is approvable exactly when its path holds a line feed |
| `LineFeeds.BuiltinsValid` | extra_codeowners/policy.py:23-30 | every built-in pattern is a valid one |
| `Guardrails.GuardedPathsNeedTheirOwners` | extra_codeowners/policy.py:169-175 | without the insecure escape hatch a guarded path is approved exactly by its human owners or an opted-in owning author, whatever applications say |
| `Guardrails.PolicyFileNeedsItsOwners` | extra_codeowners/policy.py:172-174 | so is the repository's own policy file, unless the repository has opted in |
| `Guardrails.OrganizationPathsNeedTheirOwners` | extra_codeowners/policy.py:169-175 | a path an organization pattern matches is approved exactly by its owners, even with the escape hatch and the repository opt-in |
| `Dco.CommitOrderIsValid` | extra_codeowners/dco.py:628-653 | accepts exactly when evidence follows the listed order, listed parents strictly precede children and a walk from the head through listed parents reaches every commit |
| `Dco.Explore` | extra_codeowners/dco.py:645-653 | the worklist terminates with exactly the commits reachable from the head |
| `Dco.ReachedExactlyWhenParented` | extra_codeowners/dco.py:628-653 | given the order, every commit is reachable exactly when every commit but the last is a parent of a listed one |
| `Dco.SizesShowDuplicates` | extra_codeowners/dco.py:683-685 | comparing list and set sizes finds exactly the duplicates |
| `Dco.EvaluateDco` | extra_codeowners/dco.py:656-713 | the reported failure is the first unsatisfied condition, none exactly on a pass, with each commit's outcome |
| `Dco.PassMeans` | extra_codeowners/dco.py:656-713 | a pass is one unchanged pull request whose distinct ordered commits are all connected to the head and signed off by their authors, unless it is Dependabot's single signed commit directly on the base |
| `Dco.ExemptExactly` | extra_codeowners/dco.py:578-625 | a commit without its author's sign-off is let through exactly as the single commit, directly on the base, of a pull request opened by the bot account and signed by GitHub for it |
| `DiscoveryCache.ResponseCache.Lookup` | extra_codeowners/discovery_cache.py:113-144 | absent, expired, rejected or hit, and the cache after each; a hit refreshes and moves to the end |
| `DiscoveryCache.ResponseCache.Put` | extra_codeowners/discovery_cache.py:146-179 | a put first drops its key, then rejects, or stores and evicts; the cache after each |
| `DiscoveryCache.ResponseCache.Evict` | extra_codeowners/discovery_cache.py:175-179 | the loop keeps the longest most-recent suffix that fits, with accounted bytes equal to the stored sizes |
| `DiscoveryCache.ResponseCache.Remove` | extra_codeowners/discovery_cache.py:185-193 | removal drops exactly one key and its bytes |
| `DiscoveryCache.PutKeeps` | extra_codeowners/discovery_cache.py:146-179 | after a put accounted bytes equal stored sizes, both bounds hold, keys are distinct, and an accepted entry is the most recent one |
| `DiscoveryCache.LookupKeeps` | extra_codeowners/discovery_cache.py:113-144 | a lookup keeps accounting, bounds and keys |
| `DiscoveryCache.RetainedIsLongest` | extra_codeowners/discovery_cache.py:175-179 | no more is evicted than needed: any longer suffix breaks a bound |
| `DiscoveryCache.RetainedKeepsLast` | extra_codeowners/discovery_cache.py:175-179 | the entry being stored is never the one evicted |
| `DiscoveryCache.HitsAreLastWrites` | extra_codeowners/discovery_cache.py:113-193 | after any run of calls a hit is exactly the last entry stored under its key, and with a lossless codec no encoding is rejected |
| `DiscoveryCache.PutThenLookup` | extra_codeowners/discovery_cache.py:113-179 | an accepted entry is hit until its idle lifetime ends, and expires then |
| `DiscoveryCache.PutIsNextHit` | extra_codeowners/discovery_cache.py:113-179 | after any run of calls an accepted entry is the next lookup's answer |
| `DiscoveryCache.StoredExactly` | extra_codeowners/discovery_cache.py:146-258 | exactly what is stored: positive installation, rooted path, at most 4096 key bytes, a quoted tag of at most 512 characters, at most 128 printable links of at most 16384 characters, and a size within both bounds |
| `DiscoveryCache.CompressesExactly` | extra_codeowners/discovery_cache.py:165-173 | an entry is stored compressed exactly when that is configured, succeeds and is shorter, and is charged what is stored |
| `DiscoveryCache.OversizedIsRejected` | extra_codeowners/discovery_cache.py:124-140 | a compressed entry that decodes to too much, or not at all, is dropped |
| `DiscoveryCache.RecencyIsKept` | extra_codeowners/discovery_cache.py:113-193 | every call leaves the other keys in order, and a hit or put moves its own to the most recent end |
| `JsonNesting.ValidateJsonNesting` | extra_codeowners/github.py:293-314 | the character loop computes the scan of the whole text |
| `JsonNesting.TextFeeds` | extra_codeowners/github.py:300-307 | a string leaves the scan where it was, whatever brackets, quotes and escapes it holds |
| `JsonNesting.ScanDecidesDepth` | extra_codeowners/github.py:293-314 | for every text of the RFC 8259 grammar the scan accepts exactly when containers nest at most 64 deep |
| `Text.SpacesAndBreaks` | extra_codeowners/codeowners.py:201-206 | exactly the characters that are stripped as white space, and those that end a line |
| `Text.StripExactly` | extra_codeowners/codeowners.py:203 | stripping removes white space and nothing else, from both ends |
| `Text.LinesSplitExactly` | extra_codeowners/codeowners.py:202 | a line ends at its first boundary; a carriage return and the line feed after it are one |
| `Text.Utf8Exactly` | extra_codeowners/codeowners.py:192-193 | the size of a document is the sum over its characters of the fewest bytes each fits in |

## Assumptions

* Database transactions are atomic and serialised; a lost insert race and its retry are one transaction.
  Row ids are never reused. Times are natural numbers (microseconds in `Budget`); `lease_owner` and
  `lease_until` form one optional lease. A worker slot holds one claim at a time, so its owner string
  identifies it.
* A check write takes effect inside the guarded section that issued it or not at all; an unacknowledged
  write may or may not have taken effect. `skip_if_unchanged` is a write of the same result.
* Evidence carries the serial at which collection began. Writer guards are keyed by installation and
  commit, and the shared side of the authority guard excludes acceptance of installation-wide changes.
* In `Publication` an authority row is only present or absent; `RowsMoveLikeFences` shows that the rows of
  the authority machine move as those fences do.
* Fingerprints are the observations they hash, and compression is any pair of functions; where a theorem
  needs a lossless pair it says so.

## Left out

- Claim selection order, worker lanes, provider backpressure, wake-ups and retry delays: any claimable row
  may be claimed at any time, so every theorem holds for every schedule.
- The delivery de-duplication table, head-SHA validation, `observe_evaluation_base`, service leases,
  audit records and `prune_reconciliation_states`.
- `enqueue_authority` without the authority guard, which has no caller, and "dead" rows, which no
  transaction produces.
- PublicationTheorems.NoWrongfulReset: covers the leased invalidator and the fast path with a generation
  token; the authority path without a token resets unconditionally (it is in the model as `Revoker`).
- AuthorityFence.FenceStaysUp: excludes completions that drop the installation row early, for which
  continuity is false (see above).
- AuthorityFanOut.Leg: a page's reading is dated by the claim of the worker that read it, a lower bound of the
  reading itself.
- Authority.AuthorityRecord.CompletePass: the reason text chosen for the next pass is an argument.
- How a repository is proved absent or archived (its membership pages and their checkpoints): `Retire` is one
  step, available at any page, and a pass that ends this way says so.
- The text of check output, explanations and issue messages, and the alphabetical order of owners,
  aliases and label names in it; owner sets and coalesced decisions are sets and maps.
- `normalize_repository_path` and the field validators of the input models: evaluation takes validated
  input, as the service does. `str.lower` is modelled as far as an accepted owner can tell.
- The ceiling of the quota reserve is computed in floating point by the service; the model uses the exact
  integer ceiling, which agrees for limits up to a thousand million.
- Header parsing of quota observations, scan cursors of the quota table, HTTP, tokens, GraphQL, schema
  validation, settings, metrics, the command line and the web application.
- Cache observers and their event counts; zlib itself.
- JSON texts outside the grammar of RFC 8259: the scan is defined on them, but nothing is claimed.
