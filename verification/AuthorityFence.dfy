/**
 Coalescing loses no request: each is covered by a pass that read every page after
 it, or still stands in its row.  And the installation fence stays up until every
 enumerated repository's own fan-out has covered the change, unless a completion
 drops it early.
 */
module AuthorityFence {
  import opened Options
  import opened Queue
  import opened Authority
  import opened AuthorityFanOut

  // ---- Invariant ---------------------------------------------------------------

  ghost predicate PendCovers(row: Row, req: Req) {
    row.pendingFull || (req.target.Some? && req.target.value in row.pending)
  }

  ghost predicate Bounded(row: Row) {
    |row.targets| <= 100 && |row.pending| <= 100 && (row.pendingFull ==> row.pending == map[])
  }

  /** Everything the present pass has observed and relies on was read after the request. */
  ghost predicate Fresh(t: Track, req: Req) {
    AllReadAfter(t.scan, req.serial) && ReadAfter(t.prefix, req.serial)
  }

  /** The present pass is to cover the request. */
  ghost predicate Current(t: Track, req: Req) {
    req in t.open && req !in t.pend
  }

  /** The row's bounded maps stand for exactly the open requests of its scope. */
  ghost predicate Represents(row: Row, t: Track) {
    && t.pend <= t.open
    && (HasPending(row) <==> t.pend != {})
    && (forall req :: Current(t, req) ==> Covers(row.targets, req) && Fresh(t, req))
    && (forall req :: req in t.pend ==> PendCovers(row, req))
  }

  /** The row's cursor says how far the present pass has come. */
  ghost predicate Progress(row: Row, t: Track) {
    && InOrder(t.scan) && (row.handled == map[] ==> t.prefix == {})
    && row.nextPage == (if t.scan == [] then 1 else if t.scan[|t.scan| - 1].more then |t.scan| + 1 else 0)
  }

  ghost predicate Dated(t: Track, serial: nat) {
    forall req :: req in t.open ==> req.serial <= serial
  }

  ghost predicate Accounted(s: State, scope: Scope) {
    forall req :: req in s.hist.track(scope).asked ==>
      req in s.hist.track(scope).open || Done(s.hist.passes, scope, req)
  }

  ghost predicate RowInv(s: State, tidy: bool, scope: Scope) {
    var t := s.hist.track(scope);
    && Dated(t, s.hist.serial) && Accounted(s, scope)
    && (if scope in s.rows then
          var row := s.rows[scope];
          && row.id < s.nextId && Bounded(row) && Represents(row, t) && Progress(row, t)
          && (scope.None? ==> row.targets == map[] && row.pending == map[])
        else
          tidy || scope.Some? ==> t.open == {})
  }

  /** A claim that still holds its row came after every request its pass is to cover. */
  ghost predicate ClaimInv(s: State, w: Worker)
    requires w.scope in s.rows
  {
    var row := s.rows[w.scope];
    && w.targets == row.targets
    && (forall req :: Current(s.hist.track(w.scope), req) ==> req.serial <= w.since)
    && (w.pc.Scanning? ==> w.pc.page == row.nextPage)
    && (w.pc == Returning ==> row.nextPage == 0)
  }

  ghost predicate WorkerInv(s: State, p: Pid, w: Worker) {
    && w.id < s.nextId
    && (w.pc == Retiring ==> w.scope.Some?) && (w.pc == Refused ==> w.scope.None?)
    && (w.scope in s.rows && s.rows[w.scope].id == w.id ==>
          var row := s.rows[w.scope];
          && w.generation <= row.generation
          && (w.generation == row.generation ==>
                row.lease.Some? && row.lease.value.owner == p && ClaimInv(s, w)))
  }

  /** Every repository a page listed was asked about in that page's own transaction. */
  ghost predicate ListingAsked(s: State, scan: seq<Leg>) {
    forall i, r :: 0 <= i < |scan| && r in scan[i].listed ==> Req(scan[i].at, None) in s.hist.track(Some(r)).asked
  }

  ghost predicate ListingsInv(s: State) {
    && ListingAsked(s, s.hist.track(None).scan)
    && forall i :: 0 <= i < |s.hist.passes| && s.hist.passes[i].scope.None? && s.hist.passes[i].evidence.Scanned? ==>
         ListingAsked(s, s.hist.passes[i].evidence.scan)
  }

  ghost predicate Inv(s: State, tidy: bool) {
    && (forall scope :: RowInv(s, tidy, scope))
    && (forall p :: p in s.workers ==> WorkerInv(s, p, s.workers[p]))
    && ListingsInv(s)
  }

  // ---- Scans -----------------------------------------------------------------------

  lemma InOrderGrows(scan: seq<Leg>, leg: Leg)
    requires InOrder(scan) && leg.page == |scan| + 1 && (scan != [] ==> scan[|scan| - 1].more)
    ensures InOrder(scan + [leg])
  {
  }

  /** An unstarted row has nothing to rely on, so widening its pass omits no evidence. */
  lemma UnstartedIsFresh(row: Row, t: Track)
    requires Progress(row, t) && Unstarted(row)
    ensures t.scan == [] && t.prefix == {}
  {
  }

  // ---- Coalescing one request -----------------------------------------------------

  lemma WidenRepresents(row: Row, t: Track, req: Req, reason: string)
    requires Bounded(row) && Represents(row, t) && Progress(row, t) && Unstarted(row)
    ensures var row' := Coalesce(row, req.target, reason); Bounded(row') && Represents(row', JoinTrack(row, t, req))
  {
    UnstartedIsFresh(row, t);
    var row', t' := Coalesce(row, req.target, reason), JoinTrack(row, t, req);
    forall r | Current(t', r) ensures Covers(row'.targets, r) && Fresh(t', r) {
      if r != req { assert Current(t, r); }
    }
  }

  lemma PendRepresents(row: Row, t: Track, req: Req, reason: string)
    requires Bounded(row) && Represents(row, t) && !Unstarted(row)
    ensures var row' := Coalesce(row, req.target, reason);
            Bounded(row') && Represents(row', JoinTrack(row, t, req))
  {
    var row', t' := Coalesce(row, req.target, reason), JoinTrack(row, t, req);
    forall r | r in t.pend + {req} ensures PendCovers(row', r) {
      if r in t.pend { assert PendCovers(row, r); }
    }
    assert HasPending(row') && req in t'.pend;
    forall r | Current(t', r) ensures Covers(row'.targets, r) && Fresh(t', r) { assert Current(t, r); }
  }

  /** The row keeps its claim and its place, a started pass its branches, and a full row every branch. */
  predicate CoalescedRow(row: Row, row': Row, req: Req) {
    && row'.id == row.id && row'.generation == row.generation && row'.lease == row.lease
    && row'.nextPage == row.nextPage && row'.handled == row.handled
    && (!Unstarted(row) ==> row'.targets == row.targets)
    && (req.target.None? && row.targets == map[] ==> row'.targets == map[])
    && (req.target.None? && row.pending == map[] ==> row'.pending == map[])
  }

  lemma CoalesceKeepsClaim(row: Row, req: Req, reason: string)
    ensures CoalescedRow(row, Coalesce(row, req.target, reason), req)
  {
  }

  /** Coalescing keeps what the row stands for, and a started row's current pass. */
  lemma CoalesceRepresents(row: Row, t: Track, req: Req, reason: string)
    requires Bounded(row) && Represents(row, t) && Progress(row, t)
    ensures var row', t' := Coalesce(row, req.target, reason), JoinTrack(row, t, req);
            Bounded(row') && Represents(row', t') && Progress(row', t')
    ensures CoalescedRow(row, Coalesce(row, req.target, reason), req)
  {
    CoalesceKeepsClaim(row, req, reason);
    if Unstarted(row) { WidenRepresents(row, t, req, reason); } else { PendRepresents(row, t, req, reason); }
  }

  /** What a request leaves of a row: its identity, and what its current pass is to cover while it is leased. */
  ghost predicate SameClaim(s: State, scope: Scope, row': Row, t': Track)
    requires scope in s.rows
  {
    var row, t := s.rows[scope], s.hist.track(scope);
    && row'.id == row.id && row'.generation == row.generation && row'.lease == row.lease
    && row'.nextPage == row.nextPage
    && (row.lease.Some? ==> row'.targets == row.targets && forall req :: Current(t', req) ==> Current(t, req))
  }

  lemma RequestKeeps(s: State, tidy: bool, scope: Scope, id: nat, req: Req, reason: string)
    requires RowInv(s, tidy, scope) && req.serial == s.hist.serial + 1 && s.nextId <= id
    requires scope.None? ==> req.target.None?
    ensures var row', t' := Requested(s, scope, id, req.target, reason), RequestTrack(s, scope, req);
            && Dated(t', req.serial) && row'.id <= id && Bounded(row') && Represents(row', t') && Progress(row', t')
            && (scope.None? ==> row'.targets == map[] && row'.pending == map[])
            && t'.asked == s.hist.track(scope).asked + {req} && t'.open == s.hist.track(scope).open + {req}
            && t'.scan == (if scope in s.rows then s.hist.track(scope).scan else [])
            && (scope in s.rows ==> SameClaim(s, scope, row', t'))
            && (scope !in s.rows ==> row'.id == id)
  {
    if scope in s.rows {
      CoalesceRepresents(s.rows[scope], s.hist.track(scope), req, reason);
    }
  }

  // ---- Steps --------------------------------------------------------------------------

  /** Requests and finished passes are only ever added. */
  ghost predicate BooksGrow(s: State, s': State) {
    && s.hist.passes <= s'.hist.passes
    && forall scope :: s.hist.track(scope).asked <= s'.hist.track(scope).asked
  }

  lemma DoneGrows(passes: seq<Pass>, passes': seq<Pass>, scope: Scope, req: Req)
    requires passes <= passes' && Done(passes, scope, req)
    ensures Done(passes', scope, req)
  {
    var i :| 0 <= i < |passes| && passes[i].scope == scope && Covered(passes[i], req);
    assert passes'[i] == passes[i];
  }

  lemma ListingGrows(s: State, s': State, scan: seq<Leg>)
    requires BooksGrow(s, s') && ListingAsked(s, scan)
    ensures ListingAsked(s', scan)
  {
    forall i, r | 0 <= i < |scan| && r in scan[i].listed
      ensures Req(scan[i].at, None) in s'.hist.track(Some(r)).asked
    {
      assert Req(scan[i].at, None) in s.hist.track(Some(r)).asked;
    }
  }

  /** Listings stay accounted for while no pass is added. */
  lemma ListingsGrow(s: State, s': State)
    requires BooksGrow(s, s') && s'.hist.passes == s.hist.passes && ListingsInv(s)
    requires ListingAsked(s', s'.hist.track(None).scan)
    ensures ListingsInv(s')
  {
    forall i | 0 <= i < |s'.hist.passes| && s'.hist.passes[i].scope.None? && s'.hist.passes[i].evidence.Scanned?
      ensures ListingAsked(s', s'.hist.passes[i].evidence.scan)
    {
      ListingGrows(s, s', s.hist.passes[i].evidence.scan);
    }
  }

  lemma AccountedGrows(s: State, s': State, scope: Scope, req: Req)
    requires Accounted(s, scope) && s'.hist.passes == s.hist.passes
    requires var t, t' := s.hist.track(scope), s'.hist.track(scope);
             t'.asked == t.asked + {req} && t'.open == t.open + {req}
    ensures Accounted(s', scope)
  {
  }

  lemma AcceptRow(s: State, tidy: bool, scope: Scope, target: Option<string>, reason: string)
    requires RowInv(s, tidy, scope) && (scope.None? ==> target.None?)
    ensures RowInv(RequestState(s, scope, target, reason), tidy, scope)
  {
    var s', req := RequestState(s, scope, target, reason), Req(s.hist.serial + 1, target);
    RequestKeeps(s, tidy, scope, s.nextId, req, reason);
    assert s'.hist.track(scope) == RequestTrack(s, scope, req);
    AccountedGrows(s, s', scope, req);
  }

  /** A worker's facts survive whatever keeps its own row's claim. */
  lemma WorkerStays(s: State, s': State, p: Pid, w: Worker)
    requires WorkerInv(s, p, w) && s.nextId <= s'.nextId
    requires w.scope in s'.rows ==>
               if w.scope in s.rows then SameClaim(s, w.scope, s'.rows[w.scope], s'.hist.track(w.scope))
               else s.nextId <= s'.rows[w.scope].id
    ensures WorkerInv(s', p, w)
  {
  }

  lemma RequestScan(s: State, scope: Scope, req: Req)
    ensures var t, t' := s.hist.track(scope), RequestTrack(s, scope, req);
            t'.scan == (if scope in s.rows then t.scan else []) && t'.asked == t.asked + {req}
  {
  }

  lemma AcceptListings(s: State, tidy: bool, scope: Scope, target: Option<string>, reason: string)
    requires ListingsInv(s) && RowInv(s, tidy, scope) && (scope.None? ==> target.None?)
    ensures ListingsInv(RequestState(s, scope, target, reason))
  {
    var s', req := RequestState(s, scope, target, reason), Req(s.hist.serial + 1, target);
    RequestScan(s, scope, req);
    if scope.None? && None !in s.rows {
      assert s'.hist.track(None).scan == [];
    } else {
      assert s'.hist.track(None).scan == s.hist.track(None).scan;
      ListingGrows(s, s', s.hist.track(None).scan);
    }
    ListingsGrow(s, s');
  }

  lemma AcceptWorker(s: State, tidy: bool, scope: Scope, target: Option<string>, reason: string, p: Pid, w: Worker)
    requires RowInv(s, tidy, scope) && WorkerInv(s, p, w) && (scope.None? ==> target.None?)
    ensures WorkerInv(RequestState(s, scope, target, reason), p, w)
  {
    RequestKeeps(s, tidy, scope, s.nextId, Req(s.hist.serial + 1, target), reason);
    WorkerStays(s, RequestState(s, scope, target, reason), p, w);
  }

  lemma AcceptKeeps(s: State, tidy: bool, scope: Scope, target: Option<string>, reason: string)
    requires Inv(s, tidy) && (scope.None? ==> target.None?)
    ensures Inv(RequestState(s, scope, target, reason), tidy)
  {
    var s' := RequestState(s, scope, target, reason);
    assert RowInv(s, tidy, scope);
    forall k ensures RowInv(s', tidy, k) {
      assert RowInv(s, tidy, k);
      if k == scope { AcceptRow(s, tidy, scope, target, reason); }
    }
    forall p | p in s'.workers ensures WorkerInv(s', p, s'.workers[p]) {
      AcceptWorker(s, tidy, scope, target, reason, p, s.workers[p]);
    }
    AcceptListings(s, tidy, scope, target, reason);
  }

  /** A requested row of scope k, whatever else the step does. */
  lemma RequestedRow(s: State, s': State, tidy: bool, k: Scope, id: nat, reason: string)
    requires RowInv(s, tidy, k) && k.Some? && s.nextId <= id < s'.nextId
    requires s'.hist.passes == s.hist.passes && s'.hist.serial == s.hist.serial + 1
    requires s'.hist.track(k) == RequestTrack(s, k, Req(s.hist.serial + 1, None))
    requires k in s'.rows && s'.rows[k] == Requested(s, k, id, None, reason)
    ensures RowInv(s', tidy, k)
  {
    var req := Req(s.hist.serial + 1, None);
    RequestKeeps(s, tidy, k, id, req, reason);
    AccountedGrows(s, s', k, req);
  }

  lemma PageRow(s: State, tidy: bool, w: Worker, repos: seq<string>, more: bool, k: Scope)
    requires RowInv(s, tidy, k) && k.Some? && None in s.rows && w.scope == None && w.pc.Scanning?
    ensures RowInv(PageState(s, w, repos, more), tidy, k)
  {
    var s' := PageState(s, w, repos, more);
    if k.value in repos {
      RequestedRow(s, s', tidy, k, s.nextId + IndexOf(repos, k.value), s.rows[None].reason);
    } else {
      assert s'.hist.track(k) == s.hist.track(k);
    }
  }

  /** A checkpoint by the current claim relies only on what was read after the requests it is to cover. */
  lemma LegKeeps(s: State, p: Pid, w: Worker, repos: seq<string>, more: bool)
    requires HoldsRow(s, p, w) && WorkerInv(s, p, w) && w.pc.Scanning? && w.pc.page > 0
    requires var t := s.hist.track(w.scope); Represents(s.rows[w.scope], t) && Progress(s.rows[w.scope], t)
    ensures var t := s.hist.track(w.scope);
            var t' := t.(scan := t.scan + [PageLeg(s, w, repos, more)]);
            InOrder(t'.scan) && |t'.scan| == w.pc.page && (forall req :: Current(t, req) ==> AllReadAfter(t'.scan, req.serial))
  {
    var t, leg := s.hist.track(w.scope), PageLeg(s, w, repos, more);
    InOrderGrows(t.scan, leg);
    forall req | Current(t, req) ensures AllReadAfter(t.scan + [leg], req.serial) {
      assert Fresh(t, req) && req.serial <= w.since;
    }
  }

  lemma ParentRow(s: State, tidy: bool, p: Pid, repos: seq<string>, more: bool)
    requires RowInv(s, tidy, None) && p in s.workers && WorkerInv(s, p, s.workers[p])
    requires s.workers[p].scope == None && s.workers[p].pc.Scanning? && s.workers[p].pc.page > 0
    requires HoldsRow(s, p, s.workers[p])
    ensures RowInv(PageState(s, s.workers[p], repos, more), tidy, None)
  {
    var w, t := s.workers[p], s.hist.track(None);
    var t' := t.(scan := t.scan + [PageLeg(s, w, repos, more)]);
    LegKeeps(s, p, w, repos, more);
    forall req | Current(t', req) ensures Fresh(t', req) { assert Current(t, req) && Fresh(t, req); }
  }

  lemma PageListing(s: State, tidy: bool, w: Worker, repos: seq<string>, more: bool)
    requires Inv(s, tidy) && None in s.rows && w.scope == None && w.pc.Scanning?
    ensures ListingsInv(PageState(s, w, repos, more))
  {
    var s', t := PageState(s, w, repos, more), s.hist.track(None);
    ListingGrows(s, s', t.scan);
    forall r | r in repos ensures Req(s.hist.serial + 1, None) in s'.hist.track(Some(r)).asked {
      assert s'.hist.track(Some(r)) == RequestTrack(s, Some(r), Req(s.hist.serial + 1, None));
    }
    ListingsGrow(s, s');
  }

  lemma PageWorker(s: State, tidy: bool, w: Worker, repos: seq<string>, more: bool, q: Pid, v: Worker)
    requires Inv(s, tidy) && None in s.rows && w.scope == None && w.pc.Scanning? && v.scope.Some? && WorkerInv(s, q, v)
    ensures WorkerInv(PageState(s, w, repos, more), q, v)
  {
    assert RowInv(s, tidy, v.scope);
    if v.scope.value in repos {
      RequestKeeps(s, tidy, v.scope, s.nextId + IndexOf(repos, v.scope.value), Req(s.hist.serial + 1, None),
                   s.rows[None].reason);
    }
    WorkerStays(s, PageState(s, w, repos, more), q, v);
  }

  lemma PageKeeps(s: State, tidy: bool, p: Pid, repos: seq<string>, more: bool)
    requires Inv(s, tidy) && ReadsListing(s, p) && HoldsRow(s, p, s.workers[p])
    ensures Inv(Goto(PageState(s, s.workers[p], repos, more), p, Scanning(NextPage(s.workers[p].pc.page, more))), tidy)
  {
    var w := s.workers[p];
    var s1 := PageState(s, w, repos, more);
    var s' := Goto(s1, p, Scanning(NextPage(w.pc.page, more)));
    assert WorkerInv(s, p, w) && RowInv(s, tidy, None);
    forall k ensures RowInv(s', tidy, k) {
      assert RowInv(s, tidy, k);
      if k.None? { ParentRow(s, tidy, p, repos, more); } else { PageRow(s, tidy, w, repos, more, k); }
      assert RowInv(s1, tidy, k);
    }
    forall q | q in s'.workers ensures WorkerInv(s', q, s'.workers[q]) {
      assert WorkerInv(s, q, s.workers[q]);
      if s.workers[q].scope.Some? { PageWorker(s, tidy, w, repos, more, q, s.workers[q]); }
    }
    PageListing(s, tidy, w, repos, more);
    ListingGrows(s1, s', s1.hist.track(None).scan);
    ListingsGrow(s1, s');
  }

  /** An update of one row by its claimant p, with the track that goes with it; p goes on at pc. */
  ghost predicate OwnStep(s: State, p: Pid, row': Row, t': Track, pc: Pc)
    requires p in s.workers && s.workers[p].scope in s.rows
  {
    var w := s.workers[p];
    var row, t := s.rows[w.scope], s.hist.track(w.scope);
    && row'.id == row.id && row'.generation == row.generation && row'.targets == row.targets
    && row'.pending == row.pending && row'.pendingFull == row.pendingFull
    && row'.lease.Some? && row'.lease.value.owner == p
    && t'.asked == t.asked && t'.open == t.open && t'.pend == t.pend
    && Progress(row', t') && (forall req :: Current(t, req) ==> Fresh(t', req))
    && (pc == Raising || (pc.Scanning? && pc.page == row'.nextPage) || (pc == w.pc && row'.nextPage == row.nextPage))
  }

  lemma OwnStepKeeps(s: State, tidy: bool, p: Pid, row': Row, t': Track, pc: Pc)
    requires Inv(s, tidy) && p in s.workers && HoldsRow(s, p, s.workers[p]) && OwnStep(s, p, row', t', pc)
    requires s.workers[p].scope.None? ==> ListingAsked(s, t'.scan)
    ensures var scope := s.workers[p].scope;
            Inv(Goto(s.(rows := s.rows[scope := row'], hist := WithTrack(s.hist, scope, t')), p, pc), tidy)
  {
    var w := s.workers[p];
    var s' := Goto(s.(rows := s.rows[w.scope := row'], hist := WithTrack(s.hist, w.scope, t')), p, pc);
    assert WorkerInv(s, p, w);
    forall k ensures RowInv(s', tidy, k) {
      assert RowInv(s, tidy, k);
      if k == w.scope { OwnRow(s, tidy, p, row', t', pc); }
    }
    forall q | q in s'.workers ensures WorkerInv(s', q, s'.workers[q]) {
      assert WorkerInv(s, q, s.workers[q]);
      if q == p { assert forall req :: Current(t', req) <==> Current(s.hist.track(w.scope), req); }
    }
    ListingGrows(s, s', s'.hist.track(None).scan);
    ListingsGrow(s, s');
  }

  lemma OwnRow(s: State, tidy: bool, p: Pid, row': Row, t': Track, pc: Pc)
    requires p in s.workers && HoldsRow(s, p, s.workers[p]) && OwnStep(s, p, row', t', pc)
    requires RowInv(s, tidy, s.workers[p].scope)
    ensures var scope := s.workers[p].scope;
            RowInv(Goto(s.(rows := s.rows[scope := row'], hist := WithTrack(s.hist, scope, t')), p, pc), tidy, scope)
  {
    var w := s.workers[p];
    var t := s.hist.track(w.scope);
    assert forall req :: Current(t', req) <==> Current(t, req);
    assert forall req :: PendCovers(row', req) <==> PendCovers(s.rows[w.scope], req);
  }

  lemma RestartKeeps(s: State, tidy: bool, p: Pid)
    requires Inv(s, tidy) && ReadsListing(s, p) && HoldsRow(s, p, s.workers[p])
    ensures Inv(Goto(RestartState(s, s.workers[p]), p, Raising), tidy)
  {
    assert RowInv(s, tidy, None);
    var t' := s.hist.track(None).(scan := [], prefix := {});
    OwnStepKeeps(s, tidy, p, s.rows[None].(nextPage := 1), t', Raising);
  }

  lemma PrefixKeeps(s: State, tidy: bool, p: Pid, number: nat, handled: map<string, string>)
    requires Inv(s, tidy) && ReadsPulls(s, p) && HoldsRow(s, p, s.workers[p]) && handled != map[]
    ensures Inv(PrefixState(s, s.workers[p], number, handled), tidy)
  {
    var w := s.workers[p];
    var row, t := s.rows[w.scope], s.hist.track(w.scope);
    var row' := row.(cursor := if row.cursor < number then number else row.cursor, handled := handled);
    var t' := t.(prefix := t.prefix + {w.since});
    assert RowInv(s, tidy, w.scope) && WorkerInv(s, p, w);
    forall req | Current(t, req) ensures Fresh(t', req) { assert Fresh(t, req) && req.serial <= w.since; }
    OwnStepKeeps(s, tidy, p, row', t', w.pc);
    assert s.workers[p := w] == s.workers;
  }

  lemma CursorKeeps(s: State, tidy: bool, p: Pid, number: nat, more: bool, last: nat)
    requires Inv(s, tidy) && ReadsPulls(s, p) && HoldsRow(s, p, s.workers[p])
    ensures Inv(Goto(CursorState(s, s.workers[p], number, more, last), p, Scanning(NextPage(s.workers[p].pc.page, more))), tidy)
  {
    var w := s.workers[p];
    var row, t, next := s.rows[w.scope], s.hist.track(w.scope), NextPage(w.pc.page, more);
    assert RowInv(s, tidy, w.scope) && WorkerInv(s, p, w);
    LegKeeps(s, p, w, [], more);
    OwnStepKeeps(s, tidy, p,
                 row.(cursor := if row.cursor < number then number else row.cursor,
                      handled := map[], nextPage := next, lastNumber := last),
                 t.(scan := t.scan + [PageLeg(s, w, [], more)], prefix := {}), Scanning(next));
  }

  lemma ClaimKeeps(s: State, tidy: bool, p: Pid, scope: Scope, until: Time)
    requires Inv(s, tidy) && p !in s.workers && scope in s.rows && LeaseFree(s.rows[scope].lease, s.now)
    ensures Inv(ClaimState(s, p, scope, until), tidy)
  {
    var s' := ClaimState(s, p, scope, until);
    forall k ensures s'.hist.track(k) == s.hist.track(k) {}
    forall k ensures RowInv(s', tidy, k) { assert RowInv(s, tidy, k); }
    forall q | q in s'.workers ensures WorkerInv(s', q, s'.workers[q]) {
      assert RowInv(s, tidy, scope);
      if q != p { assert WorkerInv(s, q, s.workers[q]); }
    }
    ListingGrows(s, s', s.hist.track(None).scan);
    ListingsGrow(s, s');
  }

  /** Renewing a lease, moving on, leaving or releasing changes no books. */
  lemma SameListings(s: State, s': State)
    requires ListingsInv(s) && s'.hist == s.hist
    ensures ListingsInv(s')
  {
    ListingGrows(s, s', s.hist.track(None).scan);
    ListingsGrow(s, s');
  }

  lemma RenewKeeps(s: State, tidy: bool, p: Pid, until: Time)
    requires Inv(s, tidy) && p in s.workers && HoldsRow(s, p, s.workers[p])
    ensures var scope := s.workers[p].scope;
            Inv(s.(rows := s.rows[scope := s.rows[scope].(lease := Some(Lease(p, until)))]), tidy)
  {
    var scope := s.workers[p].scope;
    var s' := s.(rows := s.rows[scope := s.rows[scope].(lease := Some(Lease(p, until)))]);
    forall k ensures RowInv(s', tidy, k) { assert RowInv(s, tidy, k); }
    forall q | q in s'.workers ensures WorkerInv(s', q, s'.workers[q]) {
      assert WorkerInv(s, q, s.workers[q]) && WorkerInv(s, p, s.workers[p]);
    }
    SameListings(s, s');
  }

  lemma GotoKeeps(s: State, tidy: bool, p: Pid, pc: Pc)
    requires Inv(s, tidy) && p in s.workers && !pc.Scanning?
    requires (pc == Retiring ==> s.workers[p].scope.Some?) && (pc == Refused ==> s.workers[p].scope.None?)
    requires pc == Returning ==> s.workers[p].pc == Scanning(0)
    ensures Inv(Goto(s, p, pc), tidy)
  {
    var s' := Goto(s, p, pc);
    forall k ensures RowInv(s', tidy, k) { assert RowInv(s, tidy, k); }
    forall q | q in s'.workers ensures WorkerInv(s', q, s'.workers[q]) { assert WorkerInv(s, q, s.workers[q]); }
    SameListings(s, s');
  }

  lemma LeaveKeeps(s: State, tidy: bool, p: Pid)
    requires Inv(s, tidy)
    ensures Inv(s.(workers := s.workers - {p}), tidy)
  {
    var s' := s.(workers := s.workers - {p});
    forall k ensures RowInv(s', tidy, k) { assert RowInv(s, tidy, k); }
    forall q | q in s'.workers ensures WorkerInv(s', q, s'.workers[q]) { assert WorkerInv(s, q, s.workers[q]); }
    SameListings(s, s');
  }

  lemma ReleaseKeeps(s: State, tidy: bool, p: Pid, refund: bool)
    requires Inv(s, tidy) && p in s.workers
    ensures Inv(ReleaseState(s, p, s.workers[p], refund), tidy)
  {
    var w := s.workers[p];
    if HoldsRow(s, p, w) {
      var s' := ReleaseState(s, p, w, refund);
      forall k ensures RowInv(s', tidy, k) { assert RowInv(s, tidy, k); }
      forall q | q in s'.workers ensures WorkerInv(s', q, s'.workers[q]) {
        assert WorkerInv(s, q, s.workers[q]) && WorkerInv(s, p, w);
      }
      SameListings(s, s');
    } else {
      LeaveKeeps(s, tidy, p);
    }
  }

  // ---- Completion ------------------------------------------------------------------------

  /** The pass has read to the end of its listing, or its repository has been retired. */
  predicate Ended(row: Row, w: Worker) {
    w.pc == Retiring || row.nextPage == 0
  }

  /** An ended pass covers every request it was to cover. */
  lemma EndedPassCovers(s: State, tidy: bool, p: Pid, w: Worker, req: Req)
    requires RowInv(s, tidy, w.scope) && WorkerInv(s, p, w) && HoldsRow(s, p, w) && Ended(s.rows[w.scope], w)
    requires Current(s.hist.track(w.scope), req)
    ensures Covered(PassOf(s, w), req)
  {
    assert Fresh(s.hist.track(w.scope), req);
  }

  /** What a completed pass leaves open is what the next pass covers. */
  lemma LeftOver(s: State, tidy: bool, p: Pid, w: Worker, req: Req, reason: string)
    requires RowInv(s, tidy, w.scope) && WorkerInv(s, p, w) && HoldsRow(s, p, w) && HasPending(s.rows[w.scope])
    requires Finishing(w.pc) && req in s.hist.track(w.scope).open && !Covered(PassOf(s, w), req)
    ensures Covers(NextPass(s.rows[w.scope], reason).targets, req)
  {
    var row, t := s.rows[w.scope], s.hist.track(w.scope);
    if Ended(row, w) {
      if req !in t.pend { EndedPassCovers(s, tidy, p, w, req); }
      assert req in t.pend;
    }
  }

  lemma CompleteAccounted(s: State, p: Pid, w: Worker)
    requires HoldsRow(s, p, w) && Accounted(s, w.scope)
    ensures Accounted(CompleteState(s, p, w), w.scope)
  {
    var s', n := CompleteState(s, p, w), |s.hist.passes|;
    forall req | req in s.hist.track(w.scope).asked
      ensures req in s'.hist.track(w.scope).open || Done(s'.hist.passes, w.scope, req)
    {
      if Done(s.hist.passes, w.scope, req) {
        DoneGrows(s.hist.passes, s'.hist.passes, w.scope, req);
      } else if Covered(PassOf(s, w), req) {
        assert s'.hist.passes[n] == PassOf(s, w);
      }
    }
  }

  lemma OtherAccounted(s: State, p: Pid, w: Worker, k: Scope)
    requires HoldsRow(s, p, w) && Accounted(s, k) && k != w.scope
    ensures Accounted(CompleteState(s, p, w), k)
  {
    var s' := CompleteState(s, p, w);
    forall req | req in s.hist.track(k).asked ensures req in s'.hist.track(k).open || Done(s'.hist.passes, k, req) {
      if Done(s.hist.passes, k, req) { DoneGrows(s.hist.passes, s'.hist.passes, k, req); }
    }
  }

  lemma CompleteRow(s: State, tidy: bool, p: Pid, w: Worker)
    requires RowInv(s, tidy, w.scope) && WorkerInv(s, p, w) && HoldsRow(s, p, w) && Finishing(w.pc)
    requires tidy && w.scope.None? && !HasPending(s.rows[None]) ==> s.rows[None].nextPage == 0
    ensures RowInv(CompleteState(s, p, w), tidy, w.scope)
  {
    var row, t := s.rows[w.scope], s.hist.track(w.scope);
    CompleteAccounted(s, p, w);
    if HasPending(row) {
      var reason := if row.pendingReason.Some? then row.pendingReason.value else row.reason;
      forall req | req in Uncovered(t.open, PassOf(s, w)) ensures Covers(NextPass(row, reason).targets, req) {
        LeftOver(s, tidy, p, w, req, reason);
      }
    } else if tidy || w.scope.Some? {
      forall req | req in t.open ensures Covered(PassOf(s, w), req) {
        assert Current(t, req);
        EndedPassCovers(s, tidy, p, w, req);
      }
    }
  }

  lemma CompleteListings(s: State, p: Pid, w: Worker)
    requires ListingsInv(s) && HoldsRow(s, p, w)
    ensures ListingsInv(CompleteState(s, p, w))
  {
    var s' := CompleteState(s, p, w);
    assert BooksGrow(s, s');
    forall i | 0 <= i < |s'.hist.passes| && s'.hist.passes[i].scope.None? && s'.hist.passes[i].evidence.Scanned?
      ensures ListingAsked(s', s'.hist.passes[i].evidence.scan)
    {
      if i < |s.hist.passes| {
        ListingGrows(s, s', s.hist.passes[i].evidence.scan);
      } else {
        ListingGrows(s, s', s.hist.track(None).scan);
      }
    }
    if w.scope.Some? { ListingGrows(s, s', s.hist.track(None).scan); }
  }

  lemma CompleteKeeps(s: State, tidy: bool, p: Pid)
    requires Inv(s, tidy) && p in s.workers && Finishing(s.workers[p].pc) && HoldsRow(s, p, s.workers[p])
    requires tidy ==> !Drops(s, Complete(p))
    ensures Inv(CompleteState(s, p, s.workers[p]), tidy)
  {
    var w := s.workers[p];
    var s' := CompleteState(s, p, w);
    assert WorkerInv(s, p, w);
    forall k ensures RowInv(s', tidy, k) {
      assert RowInv(s, tidy, k);
      if k == w.scope { CompleteRow(s, tidy, p, w); } else { OtherAccounted(s, p, w, k); }
    }
    forall q | q in s'.workers ensures WorkerInv(s', q, s'.workers[q]) { assert WorkerInv(s, q, s.workers[q]); }
    CompleteListings(s, p, w);
  }

  lemma TickKeeps(s: State, tidy: bool, d: nat)
    requires Inv(s, tidy)
    ensures Inv(s.(now := s.now + d), tidy)
  {
    var s' := s.(now := s.now + d);
    forall k ensures RowInv(s', tidy, k) { assert RowInv(s, tidy, k); }
    forall q | q in s'.workers ensures WorkerInv(s', q, s'.workers[q]) { assert WorkerInv(s, q, s.workers[q]); }
    SameListings(s, s');
  }

  lemma ReadKeeps(s: State, tidy: bool, step: Step)
    requires Inv(s, tidy) && ApplyRead(s, step).Some?
    ensures Inv(ApplyRead(s, step).value, tidy)
  {
    var p := step.p;
    if !MayAdvance(s, p, s.workers[p]) {
      GotoKeeps(s, tidy, p, if step.InstallationPage? then Refused else Raising);
    } else if step.InstallationPage? {
      PageKeeps(s, tidy, p, step.repos, step.more);
    } else if step.PopulationChanged? {
      RestartKeeps(s, tidy, p);
    } else if step.Prefix? {
      PrefixKeeps(s, tidy, p, step.number, step.handled);
    } else {
      CursorKeeps(s, tidy, p, step.number, step.more, step.last);
    }
  }

  /** Every step keeps the invariant, and every step but an early drop keeps the installation row accounted for. */
  lemma StepKeeps(s: State, tidy: bool, step: Step)
    requires Inv(s, tidy) && Apply(s, step).Some? && (tidy ==> !Drops(s, step))
    ensures Inv(Apply(s, step).value, tidy)
  {
    match step
    case Tick(d) => TickKeeps(s, tidy, d);
    case Accept(scope, baseRef, reason) => AcceptKeeps(s, tidy, scope, TargetRef(scope, baseRef), reason);
    case Claim(p, scope, until) => ClaimKeeps(s, tidy, p, scope, until);
    case Renew(p, until) => if HoldsRow(s, p, s.workers[p]) { RenewKeeps(s, tidy, p, until); }
    case ScanEnds(p) => GotoKeeps(s, tidy, p, Returning);
    case Retire(p) => GotoKeeps(s, tidy, p, Retiring);
    case Raise(p) => GotoKeeps(s, tidy, p, Raising);
    case Crash(p) => LeaveKeeps(s, tidy, p);
    case Complete(p) => if HoldsRow(s, p, s.workers[p]) { CompleteKeeps(s, tidy, p); } else { LeaveKeeps(s, tidy, p); }
    case Fail(p) => ReleaseKeeps(s, tidy, p, false);
    case Defer(p) => ReleaseKeeps(s, tidy, p, true);
    case _ => ReadKeeps(s, tidy, step);
  }

  lemma InitialInv(tidy: bool)
    ensures Inv(Initial(), tidy)
  {
  }

  lemma {:induction false} RunKeeps(steps: seq<Step>, tidy: bool)
    requires Run(steps).Some? && (tidy ==> NeverDrops(steps))
    ensures Inv(Run(steps).value, tidy)
  {
    if steps == [] {
      InitialInv(tidy);
    } else {
      RunKeeps(steps[..|steps| - 1], tidy);
      StepKeeps(Run(steps[..|steps| - 1]).value, tidy, steps[|steps| - 1]);
    }
  }

  // ---- Theorems ------------------------------------------------------------------------------

  /** The row still stands for the request: its present pass or its next one covers the branch. */
  ghost predicate Standing(s: State, scope: Scope, req: Req) {
    scope in s.rows && (Covers(s.rows[scope].targets, req) || PendCovers(s.rows[scope], req))
  }

  /**
   In every run both maps of every row stay within their bound, and every accepted
   request either was covered by a completed pass, which read every page after the
   request, or still stands in its row.  For the installation row this needs a run
   that never drops it early.
   */
  lemma CoalescingLosesNothing(steps: seq<Step>, scope: Scope)
    requires Run(steps).Some?
    ensures var s := Run(steps).value;
            && (scope in s.rows ==> Bounded(s.rows[scope]))
            && (scope in s.rows || scope.Some? || NeverDrops(steps) ==>
                  forall req :: req in s.hist.track(scope).asked ==>
                    Done(s.hist.passes, scope, req) || Standing(s, scope, req))
  {
    var s := Run(steps).value;
    var tidy := NeverDrops(steps);
    RunKeeps(steps, tidy);
    assert RowInv(s, tidy, scope);
    forall req | req in s.hist.track(scope).open && scope in s.rows ensures Standing(s, scope, req) {
      if req !in s.hist.track(scope).pend { assert Current(s.hist.track(scope), req); }
    }
  }

  /**
   Whatever the present pass has observed and still relies on was read after every
   request it is to cover: no request is merged into a pass that has passed a page.
   */
  lemma PassesReadAfterTheirRequests(steps: seq<Step>, scope: Scope, req: Req)
    requires Run(steps).Some? && scope in Run(steps).value.rows
    requires Current(Run(steps).value.hist.track(scope), req)
    ensures var s := Run(steps).value;
            && Fresh(s.hist.track(scope), req) && InOrder(s.hist.track(scope).scan)
            && Covers(s.rows[scope].targets, req)
  {
    RunKeeps(steps, false);
    assert RowInv(Run(steps).value, false, scope);
  }

  /**
   The completion of an ended pass covers every open request not left for the next
   pass; the row goes exactly when none is left, and then every request accepted
   for the scope has been covered.
   */
  lemma CompletionCovers(steps: seq<Step>, p: Pid, req: Req)
    requires Run(steps).Some? && p in Run(steps).value.workers
    requires var s := Run(steps).value; var w := s.workers[p];
             Finishing(w.pc) && HoldsRow(s, p, w) && Ended(s.rows[w.scope], w)
    requires req in Run(steps).value.hist.track(Run(steps).value.workers[p].scope).asked
    ensures var s := Run(steps).value; var w := s.workers[p]; var s' := CompleteState(s, p, w);
            && (Current(s.hist.track(w.scope), req) ==> Covered(PassOf(s, w), req))
            && (w.scope !in s'.rows <==> !HasPending(s.rows[w.scope]))
            && (w.scope !in s'.rows ==> Done(s'.hist.passes, w.scope, req))
  {
    var s := Run(steps).value;
    var w := s.workers[p];
    RunKeeps(steps, false);
    assert RowInv(s, false, w.scope) && WorkerInv(s, p, w);
    if Current(s.hist.track(w.scope), req) { EndedPassCovers(s, false, p, w, req); }
    CompleteAccounted(s, p, w);
  }

  /**
   From acceptance of an installation-wide change on, a repository stays blocked
   until a pass has read the whole listing after the change and, if any of its pages
   listed the repository, a pass of the repository has covered the follow-up that
   page created: it read every page of pull requests after it, or retired the
   repository after it.
   */
  lemma FenceStaysUp(steps: seq<Step>, change: Req, repo: string)
    requires Run(steps).Some? && NeverDrops(steps)
    requires change in Run(steps).value.hist.track(None).asked && !RepoBlocked(Run(steps).value, repo)
    ensures var passes := Run(steps).value.hist.passes;
            exists i :: 0 <= i < |passes| && passes[i].scope.None? && Covered(passes[i], change)
                        && passes[i].evidence.Scanned? && FollowedUp(passes, passes[i].evidence.scan, repo)
  {
    var s := Run(steps).value;
    RunKeeps(steps, true);
    assert RowInv(s, true, None) && RowInv(s, true, Some(repo));
    assert Done(s.hist.passes, None, change);
    var i :| 0 <= i < |s.hist.passes| && s.hist.passes[i].scope == None && Covered(s.hist.passes[i], change);
    InstallationScans(steps, i);
    var scan := s.hist.passes[i].evidence.scan;
    assert ListingAsked(s, scan);
    assert FollowedUp(s.hist.passes, scan, repo);
  }

  /** Every page of the scan that listed the repository has had its follow-up covered. */
  ghost predicate FollowedUp(passes: seq<Pass>, scan: seq<Leg>, repo: string) {
    forall i :: 0 <= i < |scan| && repo in scan[i].listed ==> Done(passes, Some(repo), Req(scan[i].at, None))
  }

  /** Only completions add passes, each its own worker's. */
  lemma StepPasses(s: State, step: Step)
    requires Apply(s, step).Some?
    ensures var passes' := Apply(s, step).value.hist.passes;
            || passes' == s.hist.passes
            || (step.Complete? && step.p in s.workers && passes' == s.hist.passes + [PassOf(s, s.workers[step.p])])
  {
  }

  lemma {:induction false} InstallationScans(steps: seq<Step>, i: nat)
    requires Run(steps).Some? && i < |Run(steps).value.hist.passes| && Run(steps).value.hist.passes[i].scope.None?
    ensures Run(steps).value.hist.passes[i].evidence.Scanned?
  {
    var before, step := steps[..|steps| - 1], steps[|steps| - 1];
    var s := Run(before).value;
    RunKeeps(before, false);
    StepPasses(s, step);
    if i < |s.hist.passes| {
      InstallationScans(before, i);
    } else {
      assert WorkerInv(s, step.p, s.workers[step.p]);
    }
  }

  /** The installation fence stands for the change, or a pass has read the whole listing after it. */
  ghost predicate FenceHolds(s: State, change: Req) {
    None in s.rows || Done(s.hist.passes, None, change)
  }

  /**
   complete_authority checks the generation and the owner but not the lease.  With
   a change outstanding, it keeps the fence exactly when the pass had reached the
   end of its listing or later evidence is pending.
   */
  lemma CompletionKeepsFenceExactly(steps: seq<Step>, p: Pid, change: Req)
    requires Run(steps).Some? && p in Run(steps).value.workers
    requires var s := Run(steps).value; var w := s.workers[p];
             && w.scope.None? && Finishing(w.pc) && HoldsRow(s, p, w)
             && change in s.hist.track(None).asked && !Done(s.hist.passes, None, change)
    ensures var s := Run(steps).value; var w := s.workers[p];
            FenceHolds(CompleteState(s, p, w), change) <==> s.rows[None].nextPage == 0 || HasPending(s.rows[None])
  {
    var s := Run(steps).value;
    var w, t := s.workers[p], s.hist.track(None);
    var s' := CompleteState(s, p, w);
    RunKeeps(steps, false);
    assert RowInv(s, false, None) && WorkerInv(s, p, w);
    if !HasPending(s.rows[None]) {
      if s.rows[None].nextPage == 0 {
        EndedPassCovers(s, false, p, w, change);
        assert s'.hist.passes[|s.hist.passes|] == PassOf(s, w);
      } else {
        assert !Whole(t.scan);
        NotDoneYet(s.hist.passes, PassOf(s, w), None, change);
      }
    }
  }

  lemma NotDoneYet(passes: seq<Pass>, pass: Pass, scope: Scope, req: Req)
    requires !Done(passes, scope, req) && !Covered(pass, req)
    ensures !Done(passes + [pass], scope, req)
  {
    assert forall i :: 0 <= i < |passes| ==> (passes + [pass])[i] == passes[i];
  }

  /** Only a worker whose checkpoint was refused drops the installation row early. */
  lemma OnlyRefusedWorkersDrop(steps: seq<Step>, step: Step)
    requires Run(steps).Some? && Drops(Run(steps).value, step)
    ensures Run(steps).value.workers[step.p].pc == Refused
  {
    RunKeeps(steps, false);
    assert WorkerInv(Run(steps).value, step.p, Run(steps).value.workers[step.p]);
  }

  /** The listing page is refused although the row still carries the worker's generation and owner: its lease ran out. */
  predicate Late(s: State, p: Pid) {
    ReadsListing(s, p) && HoldsRow(s, p, s.workers[p]) && !MayAdvance(s, p, s.workers[p])
  }

  /** After a late checkpoint the same worker's completion drops the fence of every outstanding change. */
  lemma LateCheckpointDropsFence(steps: seq<Step>, p: Pid, repos: seq<string>, more: bool, change: Req)
    requires Run(steps).Some? && Late(Run(steps).value, p) && !HasPending(Run(steps).value.rows[None])
    requires var s := Run(steps).value; change in s.hist.track(None).asked && !Done(s.hist.passes, None, change)
    ensures var s1 := Apply(Run(steps).value, InstallationPage(p, repos, more)).value;
            Drops(s1, Complete(p)) && !FenceHolds(Apply(s1, Complete(p)).value, change)
  {
    var s := Run(steps).value;
    var s1 := Apply(s, InstallationPage(p, repos, more)).value;
    RunKeeps(steps, false);
    assert WorkerInv(s, p, s.workers[p]) && RowInv(s, false, None);
    assert !Whole(s.hist.track(None).scan);
    NotDoneYet(s.hist.passes, PassOf(s1, s1.workers[p]), None, change);
  }

  const LATE_RUN := [Accept(None, None, "installation"), Step.Claim(1, None, 10), Tick(10),
                     InstallationPage(1, ["a"], false), Complete(1)]

  /** Concretely: the lease runs out before the first page is checkpointed, and the change is forgotten. */
  lemma LateRunForgetsAChange()
    ensures Run(LATE_RUN).Some? && !NeverDrops(LATE_RUN)
    ensures var s := Run(LATE_RUN).value;
            Req(1, None) in s.hist.track(None).asked && !RepoBlocked(s, "a") && !FenceHolds(s, Req(1, None))
  {
    var change := Req(1, None);
    var s1 := RequestState(Initial(), None, None, "installation");
    assert LATE_RUN[..4][..3][..2][..1][..0] == [];
    assert LATE_RUN[..4][..3][..2][..1] == [LATE_RUN[0]];
    assert LATE_RUN[..4][..3][..2] == LATE_RUN[..2];
    assert LATE_RUN[..4][..3] == LATE_RUN[..3];
    assert Run(LATE_RUN[..1]) == Some(s1);
    var s2 := ClaimState(s1, 1, None, 10);
    assert LATE_RUN[..2][..1] == LATE_RUN[..1];
    assert Run(LATE_RUN[..2]) == Some(s2);
    var s3 := s2.(now := 10);
    assert LATE_RUN[..3][..2] == LATE_RUN[..2];
    assert Run(LATE_RUN[..3]) == Some(s3);
    LateCheckpointDropsFence(LATE_RUN[..3], 1, ["a"], false, change);
    assert LATE_RUN[..4][..3] == LATE_RUN[..3] && LATE_RUN[..5] == LATE_RUN;
    assert Run(LATE_RUN[..4]) == Apply(s3, LATE_RUN[3]);
    assert Run(LATE_RUN) == Apply(Run(LATE_RUN[..4]).value, LATE_RUN[4]);
  }

  // ---- Rows ------------------------------------------------------------------------------------

  /**
   A row appears only by acceptance of its scope, or as a child of a page committed
   while the installation row is present and stays present; it disappears only by
   its own completion.  These are the moves the publication protocol assumes of fences.
   */
  lemma RowsMoveLikeFences(s: State, step: Step, scope: Scope)
    requires Apply(s, step).Some?
    ensures var s' := Apply(s, step).value;
            && (scope !in s.rows && scope in s'.rows ==>
                  || (step.Accept? && step.scope == scope)
                  || (step.InstallationPage? && scope.Some? && None in s.rows && None in s'.rows))
            && (scope in s.rows && scope !in s'.rows ==>
                  step.Complete? && step.p in s.workers && s.workers[step.p].scope == scope)
  {
  }

  lemma ChildId(s: State, w: Worker, repos: seq<string>, more: bool, k: Scope)
    requires w.scope == None && w.pc.Scanning? && None in s.rows && (k in s.rows ==> s.rows[k].id < s.nextId)
    requires k in PageState(s, w, repos, more).rows
    ensures var id := PageState(s, w, repos, more).rows[k].id;
            if k in s.rows then id == s.rows[k].id < s.nextId
            else k.Some? && k.value in repos && id == s.nextId + IndexOf(repos, k.value)
  {
  }

  /** The children a page creates get row ids of their own, different from each other and from every other row's. */
  lemma ChildrenAreDistinct(steps: seq<Step>, w: Worker, repos: seq<string>, more: bool, k: Scope, k': Scope)
    requires Run(steps).Some? && w.scope == None && w.pc.Scanning? && None in Run(steps).value.rows && k != k'
    requires var s' := PageState(Run(steps).value, w, repos, more); k in s'.rows && k' in s'.rows
    requires k !in Run(steps).value.rows
    ensures var s' := PageState(Run(steps).value, w, repos, more); s'.rows[k].id != s'.rows[k'].id
  {
    var s := Run(steps).value;
    RunKeeps(steps, false);
    RowIdBelow(s, k);
    RowIdBelow(s, k');
    ChildId(s, w, repos, more, k);
    ChildId(s, w, repos, more, k');
  }

  lemma RowIdBelow(s: State, k: Scope)
    requires Inv(s, false)
    ensures k in s.rows ==> s.rows[k].id < s.nextId
  {
    assert RowInv(s, false, k);
  }
}
