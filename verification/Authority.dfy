/**
 Coalesced authority rows.  A row bounds its bookkeeping to two maps of at most
 MAX_REFS branch names and one full-rescan flag.
 */
module Authority {
  import opened Options
  import opened Queue

  const MAX_REFS: nat := 100
  const MAX_REF_LENGTH: nat := 255

  // None is the installation-wide "*" row, Some(r) the row of repository r.
  type Scope = Option<string>

  datatype Row = Row(
    id: nat, generation: nat, reason: string,
    targets: map<string, string>,            // empty: every branch
    pending: map<string, string>, pendingFull: bool, pendingReason: Option<string>,
    attempts: nat, lease: Option<Lease>,
    nextPage: nat, lastNumber: nat, cursor: nat, handled: map<string, string>)

  function NewAuthorityRow(id: nat, target: Option<string>, reason: string): Row {
    Row(id, 1, reason, if target.Some? then map[target.value := reason] else map[],
        map[], false, None, 0, None, 1, 0, 0, map[])
  }

  /** The branch a request is limited to; installation-wide and over-long ones cover every branch. */
  function TargetRef(scope: Scope, baseRef: Option<string>): Option<string> {
    if scope.None? || baseRef.None? || |baseRef.value| > MAX_REF_LENGTH then None else baseRef
  }

  /** A request is narrowed to one branch exactly where it names one of bounded length, in a repository's own scope. */
  lemma TargetExactly(scope: Scope, baseRef: Option<string>)
    ensures TargetRef(scope, baseRef) == baseRef || TargetRef(scope, baseRef) == None
    ensures TargetRef(scope, baseRef).Some? <==> scope.Some? && baseRef.Some? && |baseRef.value| <= 255
  {
  }

  /** No observation of the queued pass exists yet. */
  predicate Unstarted(row: Row) {
    row.lease.None? && row.attempts == 0 && row.nextPage == 1 && row.lastNumber == 0 && row.handled == map[]
  }

  predicate HasPending(row: Row) {
    row.pendingFull || row.pending != map[]
  }

  function WidenTargets(targets: map<string, string>, target: Option<string>, reason: string): map<string, string> {
    if target.None? || targets == map[] then map[]
    else
      var wider := targets[target.value := reason];
      if |wider| <= MAX_REFS then wider else map[]
  }

  function FullRescan(row: Row, reason: string): Row {
    row.(pendingFull := true, pendingReason := Some(reason), pending := map[])
  }

  function Coalesce(row: Row, target: Option<string>, reason: string): Row {
    if Unstarted(row) then
      row.(targets := WidenTargets(row.targets, target, reason), reason := reason)
    else if target.None? then FullRescan(row, reason)
    else if row.pendingFull then row
    else
      var refs := row.pending[target.value := reason];
      if |refs| > MAX_REFS then FullRescan(row, reason) else row.(pending := refs)
  }

  /** complete_authority on a row with later evidence: one next pass over everything still pending. */
  function NextPass(row: Row, reason: string): Row {
    Row(row.id, row.generation + 1, reason, if row.pendingFull then map[] else row.pending,
        map[], false, None, 0, None, 1, 0, 0, map[])
  }

  /** The mutable row and the two operations that coalesce into it. */
  class AuthorityRecord {
    var row: Row

    constructor (id: nat, target: Option<string>, reason: string)
      ensures row == NewAuthorityRow(id, target, reason)
    {
      var targets := map[];
      if target.Some? {
        targets := map[target.value := reason];
      }
      row := Row(id, 1, reason, targets, map[], false, None, 0, None, 1, 0, 0, map[]);
    }

    method EnqueueRequest(target: Option<string>, reason: string)
      modifies this
      ensures row == Coalesce(old(row), target, reason)
      ensures var untouched := old(row).lease.None? && old(row).attempts == 0 && old(row).nextPage == 1
                               && old(row).lastNumber == 0 && old(row).handled == map[];
              if untouched
              then row == old(row).(targets := row.targets, reason := reason)
              else row == old(row).(pending := row.pending, pendingFull := row.pendingFull, pendingReason := row.pendingReason)
      ensures |old(row).targets| <= 100 && |old(row).pending| <= 100 ==> |row.targets| <= 100 && |row.pending| <= 100
    {
      if Unstarted(row) {
        if target.None? {
          row := row.(targets := map[]);
        } else if row.targets != map[] {
          var targets := row.targets[target.value := reason];
          if |targets| > MAX_REFS {
            targets := map[];
          }
          row := row.(targets := targets);
        }
        row := row.(reason := reason);
      } else if target.None? {
        row := row.(pendingFull := true, pendingReason := Some(reason), pending := map[]);
      } else if !row.pendingFull {
        var refs := row.pending[target.value := reason];
        if |refs| > MAX_REFS {
          row := row.(pendingFull := true, pendingReason := Some(reason), pending := map[]);
        } else {
          row := row.(pending := refs);
        }
      }
    }

    /** Returns whether the row is deleted; otherwise it starts its next pass. */
    method CompletePass(reason: string) returns (deleted: bool)
      modifies this
      ensures deleted == !HasPending(old(row))
      ensures row == if deleted then old(row) else NextPass(old(row), reason)
      ensures !deleted ==> Unstarted(row) && !HasPending(row) && row.generation == old(row).generation + 1
      ensures !deleted && !old(row).pendingFull ==> row.targets == old(row).pending
    {
      deleted := !row.pendingFull && row.pending == map[];
      if !deleted {
        var targets := row.pending;
        if row.pendingFull {
          targets := map[];
        }
        row := row.(generation := row.generation + 1, targets := targets, reason := reason);
        row := row.(pending := map[], pendingFull := false, pendingReason := None);
        row := row.(nextPage := 1, lastNumber := 0, cursor := 0, handled := map[], attempts := 0, lease := None);
      }
    }
  }
}

/**
 One installation's authority fan-out as a state machine: acceptance, claims,
 page and prefix checkpoints and completion of the installation-wide row and of
 the repository rows it creates.
 */
module AuthorityFanOut {
  import opened Options
  import opened Queue
  import opened Authority

  type Pid = Owner

  datatype Req = Req(serial: nat, target: Option<string>)

  // ---- What no code reads ---------------------------------------------------------

  /**
   One checkpointed page: its number, and whether the provider said there were more.
   `dates` dates everything the checkpoint relies on: the claim of the worker that
   read the page, and the claims under which the handled prefix it builds on was
   observed.  A worker reads only after its claim.
   */
  datatype Leg = Leg(page: nat, more: bool, dates: set<nat>, at: nat, listed: set<string>)

  /**
   One scope: every request accepted, those no pass has covered, those of them left
   for the next pass, and what the present pass has observed and still relies on.
   */
  datatype Track = Track(asked: set<Req>, open: set<Req>, pend: set<Req>, scan: seq<Leg>, prefix: set<nat>)

  /** What a completed pass rested on. */
  datatype Evidence = Scanned(scan: seq<Leg>) | Retired(since: nat)
  datatype Pass = Pass(scope: Scope, targets: map<string, string>, evidence: Evidence)

  datatype Hist = Hist(serial: nat, track: Scope -> Track, passes: seq<Pass>)

  /** Page 1, then page 2, and so on: each read because the one before it said there were more. */
  predicate InOrder(scan: seq<Leg>) {
    forall i :: 0 <= i < |scan| ==> scan[i].page == i + 1 && (i + 1 < |scan| ==> scan[i].more)
  }

  /** The whole listing: pages in order, up to one after which the provider had no more. */
  predicate Whole(scan: seq<Leg>) {
    scan != [] && InOrder(scan) && !scan[|scan| - 1].more
  }

  predicate ReadAfter(dates: set<nat>, serial: nat) {
    forall date :: date in dates ==> serial <= date
  }

  predicate AllReadAfter(scan: seq<Leg>, serial: nat) {
    forall i :: 0 <= i < |scan| ==> ReadAfter(scan[i].dates, serial)
  }

  predicate Covers(targets: map<string, string>, req: Req) {
    targets == map[] || (req.target.Some? && req.target.value in targets)
  }

  /**
   The pass covers the request: its branches include the request's, and it read
   every page from the first to the last after the request was accepted, or it
   proved after that that the repository is no longer to be scanned.
   */
  predicate Covered(pass: Pass, req: Req) {
    && Covers(pass.targets, req)
    && match pass.evidence
       case Scanned(scan) => Whole(scan) && AllReadAfter(scan, req.serial)
       case Retired(since) => req.serial <= since
  }

  predicate Done(passes: seq<Pass>, scope: Scope, req: Req) {
    exists i :: 0 <= i < |passes| && passes[i].scope == scope && Covered(passes[i], req)
  }

  // ---- State and steps --------------------------------------------------------------

  /** `Refused` returns like `Returning`, after a listing checkpoint that was not current. */
  datatype Pc = Scanning(page: nat) | Returning | Refused | Retiring | Raising

  datatype Worker =
    Worker(scope: Scope, id: nat, generation: nat, targets: map<string, string>, since: nat, pc: Pc)

  datatype State = State(now: Time, rows: map<Scope, Row>, nextId: nat, workers: map<Pid, Worker>, hist: Hist)

  datatype Step =
    | Tick(d: nat)
    | Accept(scope: Scope, baseRef: Option<string>, reason: string)
    | Claim(p: Pid, scope: Scope, until: Time)
    | Renew(p: Pid, until: Time)
    | InstallationPage(p: Pid, repos: seq<string>, more: bool)
    | PopulationChanged(p: Pid)
    | Prefix(p: Pid, number: nat, handled: map<string, string>)
    | RepositoryPage(p: Pid, number: nat, more: bool, last: nat)
    | ScanEnds(p: Pid) | Retire(p: Pid)
    | Raise(p: Pid) | Crash(p: Pid)
    | Complete(p: Pid) | Fail(p: Pid) | Defer(p: Pid)

  predicate HoldsRow(s: State, p: Pid, w: Worker) {
    && w.scope in s.rows
    && var r := s.rows[w.scope];
       r.id == w.id && r.generation == w.generation && r.lease.Some? && r.lease.value.owner == p
  }

  /** The fence of advance_installation_authority_page and advance_authority_cursor: an unexpired claim. */
  predicate MayAdvance(s: State, p: Pid, w: Worker) {
    HoldsRow(s, p, w) && s.rows[w.scope].lease.value.until > s.now
  }

  predicate RepoBlocked(s: State, repo: string) {
    None in s.rows || Some(repo) in s.rows
  }

  function WithTrack(h: Hist, scope: Scope, t: Track): Hist {
    Hist(h.serial + 1, (k: Scope) => if k == scope then t else h.track(k), h.passes)
  }

  // ---- Requests entering rows ---------------------------------------------------

  function Requested(s: State, scope: Scope, id: nat, target: Option<string>, reason: string): Row {
    if scope in s.rows then Coalesce(s.rows[scope], target, reason) else NewAuthorityRow(id, target, reason)
  }

  function JoinTrack(row: Row, t: Track, req: Req): Track {
    Track(t.asked + {req}, t.open + {req}, if Unstarted(row) then t.pend else t.pend + {req}, t.scan, t.prefix)
  }

  function RequestTrack(s: State, scope: Scope, req: Req): Track {
    var t := s.hist.track(scope);
    if scope in s.rows then JoinTrack(s.rows[scope], t, req) else Track(t.asked + {req}, t.open + {req}, {}, [], {})
  }

  function RequestState(s: State, scope: Scope, target: Option<string>, reason: string): State {
    var req := Req(s.hist.serial + 1, target);
    State(s.now, s.rows[scope := Requested(s, scope, s.nextId, target, reason)], s.nextId + 1, s.workers,
          WithTrack(s.hist, scope, RequestTrack(s, scope, req)))
  }

  // ---- Checkpoints ----------------------------------------------------------------

  function NextPage(page: nat, more: bool): nat {
    if more then page + 1 else 0
  }

  function Listed(repos: seq<string>): set<string> {
    set r | r in repos
  }

  function IndexOf(repos: seq<string>, repo: string): (i: nat)
    requires repo in repos
    ensures i < |repos| && repos[i] == repo
  {
    if repos[0] == repo then 0 else 1 + IndexOf(repos[1..], repo)
  }

  /** The page the worker asked for, and what the provider answered. */
  function PageLeg(s: State, w: Worker, repos: seq<string>, more: bool): Leg
    requires w.pc.Scanning?
  {
    Leg(w.pc.page, more, s.hist.track(w.scope).prefix + {w.since}, s.hist.serial + 1, Listed(repos))
  }

  function ChildRow(s: State, repos: seq<string>, repo: string, reason: string): Row
    requires repo in repos
  {
    Requested(s, Some(repo), s.nextId + IndexOf(repos, repo), None, reason)
  }

  /** One listing page: every child's request and the parent's cursor commit together. */
  function PageState(s: State, w: Worker, repos: seq<string>, more: bool): State
    requires None in s.rows && w.scope == None && w.pc.Scanning?
  {
    var parent, t, n := s.rows[None], s.hist.track(None), s.hist.serial + 1;
    State(s.now,
      map k: Scope | k in s.rows.Keys + (set r | r in repos :: Some(r)) ::
        if k == None then parent.(nextPage := NextPage(w.pc.page, more))
        else if k.value in repos then ChildRow(s, repos, k.value, parent.reason) else s.rows[k],
      s.nextId + |repos|, s.workers,
      Hist(n, (k: Scope) => if k == None then t.(scan := t.scan + [PageLeg(s, w, repos, more)])
                            else if k.value in repos then RequestTrack(s, k, Req(n, None)) else s.hist.track(k),
           s.hist.passes))
  }

  /** A changed population starts the enumeration over; the children it has created keep their own rows. */
  function RestartState(s: State, w: Worker): State
    requires w.scope in s.rows
  {
    s.(rows := s.rows[w.scope := s.rows[w.scope].(nextPage := 1)],
       hist := WithTrack(s.hist, w.scope, s.hist.track(w.scope).(scan := [], prefix := {})))
  }

  /** The handled prefix of a page's batch. */
  function PrefixState(s: State, w: Worker, number: nat, handled: map<string, string>): State
    requires w.scope in s.rows
  {
    var row, t := s.rows[w.scope], s.hist.track(w.scope);
    s.(rows := s.rows[w.scope := row.(cursor := if row.cursor < number then number else row.cursor, handled := handled)],
       hist := WithTrack(s.hist, w.scope, t.(prefix := t.prefix + {w.since})))
  }

  /** A repository page whose whole batch was handled. */
  function CursorState(s: State, w: Worker, number: nat, more: bool, last: nat): State
    requires w.scope in s.rows && w.pc.Scanning?
  {
    var row, t := s.rows[w.scope], s.hist.track(w.scope);
    s.(rows := s.rows[w.scope := row.(cursor := if row.cursor < number then number else row.cursor,
                                      handled := map[], nextPage := NextPage(w.pc.page, more), lastNumber := last)],
       hist := WithTrack(s.hist, w.scope, t.(scan := t.scan + [PageLeg(s, w, [], more)], prefix := {})))
  }

  // ---- Claims and completion ----------------------------------------------------

  function ClaimState(s: State, p: Pid, scope: Scope, until: Time): State
    requires scope in s.rows
  {
    var row := s.rows[scope];
    var claimed := row.(lease := Some(Lease(p, until)), attempts := row.attempts + 1,
                        generation := if row.lease.Some? then row.generation + 1 else row.generation);
    s.(rows := s.rows[scope := claimed],
       workers := s.workers[p := Worker(scope, claimed.id, claimed.generation, claimed.targets, s.hist.serial + 1,
                                        Scanning(claimed.nextPage))],
       hist := WithTrack(s.hist, scope, s.hist.track(scope)))
  }

  predicate Finishing(pc: Pc) {
    pc == Returning || pc == Refused || pc == Retiring
  }

  function PassOf(s: State, w: Worker): Pass {
    Pass(w.scope, w.targets, if w.pc == Retiring then Retired(w.since) else Scanned(s.hist.track(w.scope).scan))
  }

  function Uncovered(open: set<Req>, pass: Pass): set<Req> {
    set req | req in open && !Covered(pass, req)
  }

  function CompleteState(s: State, p: Pid, w: Worker): State
    requires HoldsRow(s, p, w)
  {
    var row, t, pass := s.rows[w.scope], s.hist.track(w.scope), PassOf(s, w);
    var h := WithTrack(s.hist, w.scope, Track(t.asked, Uncovered(t.open, pass), {}, [], {}));
    var reason := if row.pendingReason.Some? then row.pendingReason.value else row.reason;
    s.(rows := if HasPending(row) then s.rows[w.scope := NextPass(row, reason)] else s.rows - {w.scope},
       workers := s.workers - {p},
       hist := Hist(h.serial, h.track, s.hist.passes + [pass]))
  }

  function Goto(s: State, p: Pid, pc: Pc): State
    requires p in s.workers
  {
    s.(workers := s.workers[p := s.workers[p].(pc := pc)])
  }

  function ReleaseState(s: State, p: Pid, w: Worker, refund: bool): State {
    if HoldsRow(s, p, w) then
      var row := s.rows[w.scope];
      var attempts := if refund && row.attempts > 0 then row.attempts - 1 else row.attempts;
      s.(rows := s.rows[w.scope := row.(lease := None, attempts := attempts)], workers := s.workers - {p})
    else s.(workers := s.workers - {p})
  }

  predicate ReadsListing(s: State, p: Pid) {
    p in s.workers && s.workers[p].scope.None? && s.workers[p].pc.Scanning? && s.workers[p].pc.page > 0
  }

  predicate ReadsPulls(s: State, p: Pid) {
    p in s.workers && s.workers[p].scope.Some? && s.workers[p].pc.Scanning? && s.workers[p].pc.page > 0
  }

  function ApplyRead(s: State, step: Step): Option<State> {
    match step
    case InstallationPage(p, repos, more) =>
      if !ReadsListing(s, p) then None
      // A refused checkpoint makes discovery return normally.
      else if !MayAdvance(s, p, s.workers[p]) then Some(Goto(s, p, Refused))
      else
        Some(Goto(PageState(s, s.workers[p], repos, more), p, Scanning(NextPage(s.workers[p].pc.page, more))))
    case PopulationChanged(p) =>
      // The result of this checkpoint is not looked at: discovery raises either way.
      if !ReadsListing(s, p) then None
      else if !MayAdvance(s, p, s.workers[p]) then Some(Goto(s, p, Raising))
      else Some(Goto(RestartState(s, s.workers[p]), p, Raising))
    case Prefix(p, number, handled) =>
      if !ReadsPulls(s, p) || handled == map[] then None
      else if !MayAdvance(s, p, s.workers[p]) then Some(Goto(s, p, Raising))
      else Some(PrefixState(s, s.workers[p], number, handled))
    case RepositoryPage(p, number, more, last) =>
      if !ReadsPulls(s, p) then None
      // A refused checkpoint raises.
      else if !MayAdvance(s, p, s.workers[p]) then Some(Goto(s, p, Raising))
      else
        Some(Goto(CursorState(s, s.workers[p], number, more, last), p, Scanning(NextPage(s.workers[p].pc.page, more))))
    case _ => None
  }

  function Apply(s: State, step: Step): Option<State> {
    match step
    case Tick(d) => Some(s.(now := s.now + d))
    case Accept(scope, baseRef, reason) => Some(RequestState(s, scope, TargetRef(scope, baseRef), reason))
    case Claim(p, scope, until) =>
      if p !in s.workers && scope in s.rows && LeaseFree(s.rows[scope].lease, s.now)
      then Some(ClaimState(s, p, scope, until)) else None
    case Renew(p, until) =>
      if p !in s.workers then None
      else if HoldsRow(s, p, s.workers[p]) then
        var scope := s.workers[p].scope;
        Some(s.(rows := s.rows[scope := s.rows[scope].(lease := Some(Lease(p, until)))]))
      else Some(s)
    case ScanEnds(p) =>
      if p in s.workers && s.workers[p].pc == Scanning(0) then Some(Goto(s, p, Returning)) else None
    case Retire(p) =>
      // The repository is proved absent from the installation, or a newly added one is archived.
      if p in s.workers && s.workers[p].scope.Some? && s.workers[p].pc.Scanning?
      then Some(Goto(s, p, Retiring)) else None
    case Raise(p) => if p in s.workers then Some(Goto(s, p, Raising)) else None
    case Crash(p) => Some(s.(workers := s.workers - {p}))
    case Complete(p) =>
      if p !in s.workers || !Finishing(s.workers[p].pc) then None
      else if HoldsRow(s, p, s.workers[p]) then Some(CompleteState(s, p, s.workers[p]))
      else Some(s.(workers := s.workers - {p}))
    case Fail(p) =>
      if p in s.workers && s.workers[p].pc == Raising then Some(ReleaseState(s, p, s.workers[p], false)) else None
    case Defer(p) =>
      if p in s.workers && s.workers[p].pc == Raising then Some(ReleaseState(s, p, s.workers[p], true)) else None
    case _ => ApplyRead(s, step)
  }

  function Initial(): State {
    State(0, map[], 0, map[], Hist(0, (k: Scope) => Track({}, {}, {}, [], {}), []))
  }

  function Run(steps: seq<Step>): Option<State> {
    if steps == [] then Some(Initial())
    else match Run(steps[..|steps| - 1])
      case Some(s) => Apply(s, steps[|steps| - 1])
      case None => None
  }

  /** The completion deletes the installation row although its listing has not ended. */
  predicate Drops(s: State, step: Step) {
    && step.Complete? && step.p in s.workers && s.workers[step.p].scope.None?
    && Finishing(s.workers[step.p].pc) && HoldsRow(s, step.p, s.workers[step.p])
    && s.rows[None].nextPage != 0 && !HasPending(s.rows[None])
  }

  /** No completion of the run drops the installation row early. */
  predicate NeverDrops(steps: seq<Step>) {
    steps == []
    || (NeverDrops(steps[..|steps| - 1])
        && match Run(steps[..|steps| - 1])
           case Some(s) => !Drops(s, steps[|steps| - 1])
           case None => true)
  }
}
