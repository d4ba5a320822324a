/** What each step of the authority fan-out stores, in terms of the rows themselves. */
module AuthorityCheckpoints {
  import opened Options
  import opened Queue
  import opened Authority
  import opened AuthorityFanOut

  /** The row still carries the worker's claim, and its lease reaches past the present. */
  predicate Stands(s: State, p: Pid, w: Worker) {
    && w.scope in s.rows && s.rows[w.scope].id == w.id && s.rows[w.scope].generation == w.generation
    && s.rows[w.scope].lease.Some? && s.rows[w.scope].lease.value.owner == p && s.now < s.rows[w.scope].lease.value.until
  }

  /** Nothing is stored, and the worker goes on at pc. */
  predicate Turned(s: State, s': State, p: Pid, pc: Pc) {
    p in s.workers && s'.rows == s.rows && s'.workers == s.workers[p := s.workers[p].(pc := pc)]
  }

  /**
   A listing page is stored exactly while the claim stands: the row moves to the page after
   it, or to the end when there are no more, and every repository it listed has a row then.
   */
  lemma ListingPageExactly(s: State, p: Pid, repos: seq<string>, more: bool)
    requires p in s.workers && s.workers[p].scope.None? && s.workers[p].pc.Scanning? && s.workers[p].pc.page > 0
    ensures var w, result := s.workers[p], Apply(s, InstallationPage(p, repos, more));
            && result.Some?
            && var s' := result.value;
            if Stands(s, p, w) then
              var next := if more then w.pc.page + 1 else 0;
              && s'.workers == s.workers[p := w.(pc := Scanning(next))]
              && None in s'.rows && s'.rows[None] == s.rows[None].(nextPage := next)
              && (forall repo :: repo in repos ==> Some(repo) in s'.rows)
              && (forall scope :: scope in s.rows && scope.Some? && scope.value !in repos ==>
                    scope in s'.rows && s'.rows[scope] == s.rows[scope])
            else Turned(s, s', p, Refused)
  {
  }

  /** Every repository a stored page lists is to be followed up in full, whatever its row was doing. */
  lemma ListedAreFollowedUp(s: State, p: Pid, repos: seq<string>, more: bool, repo: string)
    requires p in s.workers && s.workers[p].scope.None? && s.workers[p].pc.Scanning? && s.workers[p].pc.page > 0
    requires Stands(s, p, s.workers[p]) && repo in repos
    ensures var row' := Apply(s, InstallationPage(p, repos, more)).value.rows[Some(repo)];
            if Some(repo) !in s.rows || Unstarted(s.rows[Some(repo)]) then row'.targets == map[]
            else row'.pendingFull && row'.targets == s.rows[Some(repo)].targets && row'.nextPage == s.rows[Some(repo)].nextPage
  {
  }

  /** A changed population sends the listing back to its first page, while the claim stands, and raises either way. */
  lemma RestartExactly(s: State, p: Pid)
    requires p in s.workers && s.workers[p].scope.None? && s.workers[p].pc.Scanning? && s.workers[p].pc.page > 0
    ensures var w, result := s.workers[p], Apply(s, PopulationChanged(p));
            && result.Some?
            && result.value.workers == s.workers[p := w.(pc := Raising)]
            && result.value.rows == if Stands(s, p, w) then s.rows[None := s.rows[None].(nextPage := 1)] else s.rows
  {
  }

  /** A page of pull requests is stored exactly while the claim stands, with nothing handled on the page after it. */
  lemma PullPageExactly(s: State, p: Pid, number: nat, more: bool, last: nat)
    requires p in s.workers && s.workers[p].scope.Some? && s.workers[p].pc.Scanning? && s.workers[p].pc.page > 0
    ensures var w, result := s.workers[p], Apply(s, RepositoryPage(p, number, more, last));
            && result.Some?
            && var s' := result.value;
            if Stands(s, p, w) then
              var next := if more then w.pc.page + 1 else 0;
              && s'.workers == s.workers[p := w.(pc := Scanning(next))]
              && w.scope in s'.rows && s'.rows == s.rows[w.scope := s'.rows[w.scope]]
              && var row, row' := s.rows[w.scope], s'.rows[w.scope];
              && row' == row.(cursor := row'.cursor, handled := map[], nextPage := next, lastNumber := last)
              && row'.cursor >= row.cursor && row'.cursor >= number && (row'.cursor == row.cursor || row'.cursor == number)
            else Turned(s, s', p, Raising)
  {
  }

  /** A handled prefix is stored exactly while the claim stands, and moves no page. */
  lemma PrefixExactly(s: State, p: Pid, number: nat, handled: map<string, string>)
    requires p in s.workers && s.workers[p].scope.Some? && s.workers[p].pc.Scanning? && s.workers[p].pc.page > 0
    requires handled != map[]
    ensures var w, result := s.workers[p], Apply(s, Prefix(p, number, handled));
            && result.Some?
            && var s' := result.value;
            if Stands(s, p, w) then
              && s'.workers == s.workers && w.scope in s'.rows && s'.rows == s.rows[w.scope := s'.rows[w.scope]]
              && var row, row' := s.rows[w.scope], s'.rows[w.scope];
              && row' == row.(cursor := row'.cursor, handled := handled)
              && row'.cursor >= row.cursor && row'.cursor >= number && (row'.cursor == row.cursor || row'.cursor == number)
            else Turned(s, s', p, Raising)
  {
  }

  /** The row still carries the worker's claim, whether or not its lease has run out. */
  predicate Carries(s: State, p: Pid, w: Worker) {
    && w.scope in s.rows && s.rows[w.scope].id == w.id && s.rows[w.scope].generation == w.generation
    && s.rows[w.scope].lease.Some? && s.rows[w.scope].lease.value.owner == p
  }

  /** A failed pass only loses its lease; a deferred one also takes back its attempt; neither moves the pass. */
  lemma ReleaseExactly(s: State, p: Pid)
    requires p in s.workers
    ensures var w := s.workers[p];
            && (Apply(s, Fail(p)).Some? <==> w.pc == Raising) && (Apply(s, Defer(p)).Some? <==> w.pc == Raising)
            && (w.pc == Raising ==>
                  var failed, deferred := Apply(s, Fail(p)).value, Apply(s, Defer(p)).value;
                  && failed.workers == deferred.workers == s.workers - {p}
                  && if Carries(s, p, w) then
                       var row := s.rows[w.scope];
                       && failed.rows == s.rows[w.scope := row.(lease := None)]
                       && deferred.rows ==
                            s.rows[w.scope := row.(lease := None, attempts := if row.attempts > 0 then row.attempts - 1 else 0)]
                     else failed.rows == s.rows == deferred.rows)
  {
  }

  /** A pass completes from its end, from a refused checkpoint, or with its repository retired; and a renewal moves its lease. */
  lemma CompletionExactly(s: State, p: Pid, until: Time)
    requires p in s.workers
    ensures var w := s.workers[p];
            && (Apply(s, Complete(p)).Some? <==> w.pc == Returning || w.pc == Refused || w.pc == Retiring)
            && (Apply(s, Complete(p)).Some? ==>
                  var s' := Apply(s, Complete(p)).value;
                  && s'.workers == s.workers - {p}
                  && if !Carries(s, p, w) then s'.rows == s.rows
                     else
                       var row := s.rows[w.scope];
                       if row.pendingFull || row.pending != map[] then
                         && w.scope in s'.rows && s'.rows == s.rows[w.scope := s'.rows[w.scope]]
                         && s'.rows[w.scope].targets == (if row.pendingFull then map[] else row.pending)
                         && s'.rows[w.scope].reason == (if row.pendingReason.Some? then row.pendingReason.value else row.reason)
                       else s'.rows == s.rows - {w.scope})
            && (Apply(s, ScanEnds(p)).Some? <==> w.pc == Scanning(0))
            && (Apply(s, Retire(p)).Some? <==> w.scope.Some? && w.pc.Scanning?)
            && Apply(s, Renew(p, until)).Some?
            && Apply(s, Renew(p, until)).value.rows ==
                 if Carries(s, p, w) then s.rows[w.scope := s.rows[w.scope].(lease := Some(Lease(p, until)))] else s.rows
  {
  }

  /** A claim counts one more attempt, and on an expired lease fences the worker that held it. */
  lemma ClaimExactly(s: State, p: Pid, scope: Scope, until: Time)
    requires Apply(s, Step.Claim(p, scope, until)).Some?
    ensures var s' := Apply(s, Step.Claim(p, scope, until)).value;
            && scope in s.rows && s'.rows.Keys == s.rows.Keys
            && var row, row' := s.rows[scope], s'.rows[scope];
            && row' == row.(lease := Some(Lease(p, until)), attempts := row.attempts + 1, generation := row'.generation)
            && row'.generation == row.generation + (if row.lease.Some? then 1 else 0)
            && p in s'.workers && s'.workers[p].scope == scope && s'.workers[p].id == row.id
            && s'.workers[p].generation == row'.generation && s'.workers[p].targets == row.targets
            && s'.workers[p].pc == Scanning(row.nextPage)
            && (forall q :: q in s.workers && q != p && s.workers[q].scope == scope ==> !Carries(s', q, s.workers[q]))
  {
  }

  // ---- The books -------------------------------------------------------------------------------

  /** Every accepted request is booked under a serial of its own, open until a pass covers it. */
  lemma RequestsAreBooked(s: State, scope: Scope, baseRef: Option<string>, reason: string)
    ensures var s', req := Apply(s, Accept(scope, baseRef, reason)).value, Req(s.hist.serial + 1, TargetRef(scope, baseRef));
            && s'.hist.serial == req.serial && s'.hist.passes == s.hist.passes
            && s'.hist.track(scope).asked == s.hist.track(scope).asked + {req}
            && s'.hist.track(scope).open == s.hist.track(scope).open + {req}
            && forall k :: k != scope ==> s'.hist.track(k) == s.hist.track(k)
  {
  }

  /** A claim is dated after everything booked before it. */
  lemma ClaimsAreDated(s: State, p: Pid, scope: Scope, until: Time)
    requires Apply(s, Step.Claim(p, scope, until)).Some?
    ensures var s' := Apply(s, Step.Claim(p, scope, until)).value;
            p in s'.workers && s'.workers[p].since == s'.hist.serial == s.hist.serial + 1
  {
  }

  /** A stored listing page is booked as read: its number, the provider's answer, its reader's date, and what it listed. */
  lemma ListingPagesAreBooked(s: State, p: Pid, repos: seq<string>, more: bool)
    requires p in s.workers && s.workers[p].scope.None? && s.workers[p].pc.Scanning? && s.workers[p].pc.page > 0
    requires Stands(s, p, s.workers[p])
    ensures var w, s' := s.workers[p], Apply(s, InstallationPage(p, repos, more)).value;
            var before, after := s.hist.track(None), s'.hist.track(None);
            && |after.scan| == |before.scan| + 1 && before.scan <= after.scan
            && var leg := after.scan[|before.scan|];
            && leg.page == w.pc.page && leg.more == more && w.since in leg.dates && before.prefix <= leg.dates
            && leg.at == s'.hist.serial == s.hist.serial + 1 && (forall repo :: repo in repos <==> repo in leg.listed)
            && forall repo :: repo in repos ==> Req(leg.at, None) in s'.hist.track(Some(repo)).open
  {
    var w, s' := s.workers[p], Apply(s, InstallationPage(p, repos, more)).value;
    assert s'.hist.track(None).scan == s.hist.track(None).scan + [PageLeg(s, w, repos, more)];
    forall repo | repo in repos ensures Req(s.hist.serial + 1, None) in s'.hist.track(Some(repo)).open {
      assert s'.hist.track(Some(repo)) == RequestTrack(s, Some(repo), Req(s.hist.serial + 1, None));
    }
  }

  /** So is a page of pull requests, with the dates of the handled prefix it builds on. */
  lemma PullPagesAreBooked(s: State, p: Pid, number: nat, more: bool, last: nat)
    requires p in s.workers && s.workers[p].scope.Some? && s.workers[p].pc.Scanning? && s.workers[p].pc.page > 0
    requires Stands(s, p, s.workers[p])
    ensures var w, s' := s.workers[p], Apply(s, RepositoryPage(p, number, more, last)).value;
            var before, after := s.hist.track(w.scope), s'.hist.track(w.scope);
            && |after.scan| == |before.scan| + 1 && before.scan <= after.scan
            && var leg := after.scan[|before.scan|];
            leg.page == w.pc.page && leg.more == more && w.since in leg.dates && before.prefix <= leg.dates
  {
  }

  /** A handled prefix is booked under its observer's date. */
  lemma PrefixesAreBooked(s: State, p: Pid, number: nat, handled: map<string, string>)
    requires p in s.workers && s.workers[p].scope.Some? && s.workers[p].pc.Scanning? && s.workers[p].pc.page > 0
    requires handled != map[] && Stands(s, p, s.workers[p])
    ensures var w, s' := s.workers[p], Apply(s, Prefix(p, number, handled)).value;
            s'.hist.track(w.scope).prefix == s.hist.track(w.scope).prefix + {w.since}
  {
  }

  /** A worker may raise or crash between any two steps, and leaves its row as it is; the clock may pass any instant. */
  lemma WorkersMayFail(s: State, p: Pid, d: nat)
    requires p in s.workers
    ensures Apply(s, Tick(d)) == Some(s.(now := s.now + d))
    ensures Apply(s, Raise(p)).Some? && Turned(s, Apply(s, Raise(p)).value, p, Raising)
    ensures Apply(s, Crash(p)) == Some(s.(workers := s.workers - {p}))
  {
  }
}
