/**
 One repository's authority pass: listing pages are checkpointed in two steps,
 first the handled prefix of the page's sorted batch, then the page itself.
 A fingerprint is the observation it hashes.
 */
module AuthorityPages {
  datatype Observation = Observation(head: string, baseRef: string, updatedAt: string)
  datatype Pull = Pull(number: nat, observed: Observation)

  /** What happened to one pull request's revocation. */
  datatype Revocation =
    | NotEnrolled
    | QueuedAndReset
    | Failed(promoted: bool)     // promoted: re-queued as interactive work before the error is logged
    | BudgetDeferred
    | RateLimited

  /** Whether the revocation returns normally, leaving the pull request handled or durably handed off. */
  predicate Settled(r: Revocation) {
    r.NotEnrolled? || r.QueuedAndReset? || (r.Failed? && r.promoted)
  }

  datatype Progress = Progress(cursor: nat, handled: map<nat, Observation>, nextPage: nat, lastNumber: nat)

  /** One attempt at one page; `first` and `second` say whether the claim was current at each checkpoint. */
  datatype Attempt = Attempt(
    page: seq<Pull>, targets: set<string>, outcomes: map<nat, Revocation>,
    first: bool, second: bool, next: nat, last: nat)

  function Max(a: nat, b: nat): nat {
    if a < b then b else a
  }

  // ---- Specification -----------------------------------------------------------

  predicate Distinct(page: seq<Pull>) {
    forall i, j :: 0 <= i < j < |page| ==> page[i].number != page[j].number
  }

  predicate Matches(pull: Pull, targets: set<string>) {
    targets == {} || pull.observed.baseRef in targets
  }

  ghost predicate SeesBefore(a: Attempt, k: nat, n: nat, o: Observation) {
    exists i :: 0 <= i < k && i < |a.page| && a.page[i] == Pull(n, o) && Matches(a.page[i], a.targets)
  }

  /** The page shows open pull request n, on a targeted branch, as o. */
  ghost predicate Sees(a: Attempt, n: nat, o: Observation) {
    SeesBefore(a, |a.page|, n, o)
  }

  predicate Shows(seen: map<nat, Observation>, n: nat, o: Observation) {
    n in seen && seen[n] == o
  }

  ghost predicate IsSeen(a: Attempt, seen: map<nat, Observation>) {
    forall n, o :: Shows(seen, n, o) <==> Sees(a, n, o)
  }

  ghost predicate Sorted(s: seq<nat>) {
    forall i, j :: 0 <= i < j < |s| ==> s[i] < s[j]
  }

  /** The batch is the sorted list of seen pull requests without an identical handled fingerprint. */
  ghost predicate IsBatch(p: Progress, seen: map<nat, Observation>, batch: seq<nat>) {
    && Sorted(batch)
    && forall n :: n in batch <==> n in seen && !(n in p.handled && p.handled[n] == seen[n])
  }

  predicate Succeeds(a: Attempt, n: nat) {
    n in a.outcomes && Settled(a.outcomes[n])
  }

  function Prefix(a: Attempt, batch: seq<nat>): (k: nat)
    ensures k <= |batch|
    ensures forall i :: 0 <= i < k ==> Succeeds(a, batch[i])
    ensures k < |batch| ==> !Succeeds(a, batch[k])
  {
    if batch == [] || !Succeeds(a, batch[0]) then 0
    else
      assert forall i :: 0 <= i < |batch| - 1 ==> batch[1..][i] == batch[i + 1];
      1 + Prefix(a, batch[1..])
  }

  /** Fingerprints kept after handling the first k of the batch: those still seen, plus the new prefix. */
  function Kept(p: Progress, seen: map<nat, Observation>, batch: seq<nat>, k: nat): map<nat, Observation>
    requires k <= |batch|
  {
    map n | n in seen && (n in batch[..k] || n in p.handled) :: if n in batch[..k] then seen[n] else p.handled[n]
  }

  predicate Passes(a: Attempt, batch: seq<nat>) {
    Prefix(a, batch) == |batch| && (batch == [] || a.first) && a.second
  }

  function After(p: Progress, a: Attempt, seen: map<nat, Observation>, batch: seq<nat>): Progress {
    var k := Prefix(a, batch);
    var p1 := if k > 0 && a.first then p.(cursor := Max(p.cursor, batch[k - 1]), handled := Kept(p, seen, batch, k)) else p;
    if Passes(a, batch) then Progress(p1.cursor, map[], a.next, a.last) else p1
  }

  // ---- The discovery loop --------------------------------------------------------

  function Insert(x: nat, s: seq<nat>): (r: seq<nat>)
    requires Sorted(s) && x !in s
    ensures Sorted(r) && forall n :: n in r <==> n == x || n in s
  {
    if s == [] || x < s[0] then [x] + s
    else
      assert s == [s[0]] + s[1..];
      assert s[0] != x;
      var rest := Insert(x, s[1..]);
      assert forall i :: 0 <= i < |rest| ==> s[0] < rest[i] by { AllAbove(s, x, rest); }
      [s[0]] + rest
  }

  lemma AllAbove(s: seq<nat>, x: nat, rest: seq<nat>)
    requires s != [] && Sorted(s) && s[0] < x
    requires forall n :: n in rest ==> n == x || n in s[1..]
    ensures forall i :: 0 <= i < |rest| ==> s[0] < rest[i]
  {
    forall i | 0 <= i < |rest| ensures s[0] < rest[i] { assert rest[i] in rest; }
  }

  function SortBatch(requests: seq<nat>): (batch: seq<nat>)
    requires forall i, j :: 0 <= i < j < |requests| ==> requests[i] != requests[j]
    ensures Sorted(batch) && forall n :: n in batch <==> n in requests
  {
    if requests == [] then []
    else
      assert requests == [requests[0]] + requests[1..];
      Insert(requests[0], SortBatch(requests[1..]))
  }

  /** Read the page: what it shows, and the pull requests without an identical handled fingerprint. */
  method ReadPage(a: Attempt, handled: map<nat, Observation>) returns (seen: map<nat, Observation>, requests: seq<nat>)
    requires Distinct(a.page)
    ensures IsSeen(a, seen)
    ensures forall i :: 0 <= i < |a.page| ==>
              (Shows(seen, a.page[i].number, a.page[i].observed) <==>
                 a.targets == {} || a.page[i].observed.baseRef in a.targets)
    ensures forall n :: n in requests <==> n in seen && !(n in handled && handled[n] == seen[n])
    ensures forall x, y :: 0 <= x < y < |requests| ==> requests[x] != requests[y]
  {
    seen, requests := map[], [];
    for i := 0 to |a.page|
      invariant forall n, o :: Shows(seen, n, o) <==> SeesBefore(a, i, n, o)
      invariant forall n :: n in requests <==> n in seen && !(n in handled && handled[n] == seen[n])
      invariant forall x, y :: 0 <= x < y < |requests| ==> requests[x] != requests[y]
    {
      var pull := a.page[i];
      NewNumber(a, i);
      SeesNext(a, i);
      ghost var was := seen;
      if Matches(pull, a.targets) {
        assert pull.number !in seen by {
          assert pull.number in seen ==> Shows(seen, pull.number, seen[pull.number]);
        }
        seen := seen[pull.number := pull.observed];
        assert forall n, o :: Shows(seen, n, o) <==> Shows(was, n, o) || (n == pull.number && o == pull.observed);
        if !(pull.number in handled && handled[pull.number] == pull.observed) {
          requests := requests + [pull.number];
        }
      }
    }
  }

  lemma NewNumber(a: Attempt, i: nat)
    requires Distinct(a.page) && i < |a.page|
    ensures forall o :: !SeesBefore(a, i, a.page[i].number, o)
  {
  }

  lemma SeesNext(a: Attempt, i: nat)
    requires i < |a.page|
    ensures forall n, o :: SeesBefore(a, i + 1, n, o) <==>
              SeesBefore(a, i, n, o) || (a.page[i] == Pull(n, o) && Matches(a.page[i], a.targets))
  {
    forall n, o | SeesBefore(a, i, n, o) ensures SeesBefore(a, i + 1, n, o) {
      var m :| 0 <= m < i && a.page[m] == Pull(n, o) && Matches(a.page[m], a.targets);
      assert a.page[m] == Pull(n, o) && m < i + 1;
    }
  }

  lemma KeptNext(p: Progress, seen: map<nat, Observation>, batch: seq<nat>, k: nat)
    requires k < |batch| && batch[k] in seen
    ensures Kept(p, seen, batch, k + 1) == Kept(p, seen, batch, k)[batch[k] := seen[batch[k]]]
  {
    assert batch[..k + 1] == batch[..k] + [batch[k]];
    assert forall n :: n in batch[..k + 1] <==> n in batch[..k] || n == batch[k];
  }

  /** Only the successful contiguous prefix counts: a later success never hides an earlier failure. */
  method ScanPrefix(a: Attempt, p: Progress, seen: map<nat, Observation>, batch: seq<nat>)
    returns (k: nat, local: map<nat, Observation>)
    requires IsBatch(p, seen, batch)
    ensures k == Prefix(a, batch) && local == Kept(p, seen, batch, k)
  {
    local := map n | n in p.handled && n in seen :: p.handled[n];
    k := 0;
    while k < |batch| && Succeeds(a, batch[k])
      invariant 0 <= k <= |batch| && forall i :: 0 <= i < k ==> Succeeds(a, batch[i])
      invariant local == Kept(p, seen, batch, k)
    {
      assert batch[k] in batch;
      KeptNext(p, seen, batch, k);
      local := local[batch[k] := seen[batch[k]]];
      k := k + 1;
    }
    PrefixIs(a, batch, k);
  }

  class RepositoryPass {
    var cursor: nat
    var handled: map<nat, Observation>
    var nextPage: nat
    var lastNumber: nat

    function View(): Progress
      reads this
    {
      Progress(cursor, handled, nextPage, lastNumber)
    }

    constructor ()
      ensures View() == Progress(0, map[], 1, 0)
    {
      cursor, handled, nextPage, lastNumber := 0, map[], 1, 0;
    }

    /** Validate the page, revoke what is not already handled, and checkpoint. */
    method AttemptPage(a: Attempt) returns (passed: bool, seen: map<nat, Observation>, batch: seq<nat>)
      requires Distinct(a.page)
      modifies this
      ensures IsSeen(a, seen) && IsBatch(old(View()), seen, batch)
      ensures passed == Passes(a, batch)
      ensures View() == After(old(View()), a, seen, batch)
    {
      var requests: seq<nat>;
      seen, requests := ReadPage(a, handled);
      batch := SortBatch(requests);
      var k, local := ScanPrefix(a, View(), seen, batch);
      if k != 0 {
        if !a.first { return false, seen, batch; }
        cursor, handled := Max(cursor, batch[k - 1]), local;
      }
      if k < |batch| || !a.second { return false, seen, batch; }
      handled, nextPage, lastNumber := map[], a.next, a.last;
      passed := true;
    }
  }

  lemma {:induction false} PrefixIs(a: Attempt, batch: seq<nat>, k: nat)
    requires k <= |batch| && forall i :: 0 <= i < k ==> Succeeds(a, batch[i])
    requires k < |batch| ==> !Succeeds(a, batch[k])
    ensures Prefix(a, batch) == k
  {
  }

  // ---- Any pattern of attempts ---------------------------------------------------

  /** One attempt together with what it saw and the batch it formed. */
  datatype Event = Event(attempt: Attempt, seen: map<nat, Observation>, batch: seq<nat>)

  ghost predicate Proper(p: Progress, e: Event) {
    IsSeen(e.attempt, e.seen) && IsBatch(p, e.seen, e.batch)
  }

  /** Revocations that have returned normally by the end of the events. */
  ghost predicate Returned(events: seq<Event>, n: nat, o: Observation) {
    exists i :: 0 <= i < |events| && n in events[i].batch && n in events[i].seen && events[i].seen[n] == o
                && Succeeds(events[i].attempt, n)
  }

  ghost predicate History(events: seq<Event>, p: Progress) {
    if events == [] then p.handled == map[]
    else
      var last := events[|events| - 1];
      exists q :: History(events[..|events| - 1], q) && Proper(q, last)
                  && p == After(q, last.attempt, last.seen, last.batch)
  }

  lemma ReturnedGrows(events: seq<Event>, e: Event)
    ensures forall n, o :: Returned(events, n, o) ==> Returned(events + [e], n, o)
  {
    forall n, o | Returned(events, n, o) ensures Returned(events + [e], n, o) {
      var i :| 0 <= i < |events| && n in events[i].batch && n in events[i].seen && events[i].seen[n] == o
               && Succeeds(events[i].attempt, n);
      assert (events + [e])[i] == events[i];
    }
  }

  /** Every stored fingerprint was handled, or handed off, under exactly that observation. */
  lemma {:induction false} HandledReturned(events: seq<Event>, p: Progress)
    requires History(events, p)
    ensures forall n :: n in p.handled ==> Returned(events, n, p.handled[n])
  {
    if events != [] {
      var prior, last := events[..|events| - 1], events[|events| - 1];
      var q :| History(prior, q) && Proper(q, last) && p == After(q, last.attempt, last.seen, last.batch);
      HandledReturned(prior, q);
      ReturnedGrows(prior, last);
      assert events == prior + [last];
      forall n | n in p.handled ensures Returned(events, n, p.handled[n]) {
        var k := Prefix(last.attempt, last.batch);
        if n in last.batch[..k] && p.handled != q.handled {
          assert events[|events| - 1] == last;
        }
      }
    }
  }

  /**
   For any pattern of failures, crashes and retries, the page passes only after
   every matching pull request seen on it was handled or handed off under the very
   observation just seen, and any pull request left out of the batch already had been.
   */
  lemma PagePassesOnlyWhenHandled(events: seq<Event>, p: Progress, e: Event, n: nat, o: Observation)
    requires History(events, p) && Proper(p, e) && Sees(e.attempt, n, o)
    ensures n !in e.batch ==> Returned(events, n, o)
    ensures Passes(e.attempt, e.batch) ==> Returned(events + [e], n, o)
  {
    HandledReturned(events, p);
    ReturnedGrows(events, e);
    assert Shows(e.seen, n, o);
    if n in e.batch && Passes(e.attempt, e.batch) {
      var i :| 0 <= i < |e.batch| && e.batch[i] == n;
      assert Succeeds(e.attempt, n);
      assert (events + [e])[|events|] == e;
    }
  }

  ghost predicate AddsPrefix(p: Progress, p': Progress, e: Event, k: nat) {
    && k <= |e.batch| && (forall i :: 0 <= i < k ==> Succeeds(e.attempt, e.batch[i]))
    && forall n :: n in p'.handled ==> n in e.batch[..k] || (n in p.handled && p'.handled[n] == p.handled[n])
  }

  /** An attempt that does not pass moves no page field and adds only a handled prefix of its batch. */
  lemma FailedAttemptKeepsPage(p: Progress, e: Event)
    requires Proper(p, e) && !Passes(e.attempt, e.batch)
    ensures var p' := After(p, e.attempt, e.seen, e.batch);
            && p'.nextPage == p.nextPage && p'.lastNumber == p.lastNumber && p.cursor <= p'.cursor
            && exists k :: AddsPrefix(p, p', e, k)
  {
    var k := Prefix(e.attempt, e.batch);
    var p' := After(p, e.attempt, e.seen, e.batch);
    assert AddsPrefix(p, p', e, k);
  }

  /** Handled here, or durably handed off: not enrolled, queued and reset, or failed after promotion. */
  predicate Finished(a: Attempt, n: nat) {
    n in a.outcomes && (a.outcomes[n] == NotEnrolled || a.outcomes[n] == QueuedAndReset || a.outcomes[n] == Failed(true))
  }

  lemma {:induction false} PrefixStops(a: Attempt, batch: seq<nat>)
    ensures Prefix(a, batch) == |batch| <==> forall i :: 0 <= i < |batch| ==> Finished(a, batch[i])
  {
    assert forall n :: Succeeds(a, n) <==> Finished(a, n);
  }

  /**
   A page passes exactly when every revocation of its batch finished and the claim was
   current at the checkpoints; then the pass goes on to the page the provider named next,
   with nothing handled there yet.
   */
  lemma PassedAttemptMovesOn(p: Progress, e: Event)
    requires Proper(p, e)
    ensures var a, p' := e.attempt, After(p, e.attempt, e.seen, e.batch);
            && (Passes(a, e.batch) <==>
                  (forall i :: 0 <= i < |e.batch| ==> Finished(a, e.batch[i])) && (e.batch != [] ==> a.first) && a.second)
            && (Passes(a, e.batch) ==>
                  && p'.nextPage == a.next && p'.lastNumber == a.last && p'.handled == map[]
                  && p'.cursor >= p.cursor && forall i :: 0 <= i < |e.batch| ==> e.batch[i] <= p'.cursor)
  {
    PrefixStops(e.attempt, e.batch);
    if e.batch != [] { assert forall i :: 0 <= i < |e.batch| ==> e.batch[i] <= e.batch[|e.batch| - 1]; }
  }

  /** A current first checkpoint records exactly the finished pull requests before the first that did not finish. */
  lemma PrefixIsRecorded(p: Progress, e: Event, k: nat)
    requires Proper(p, e) && e.attempt.first && !Passes(e.attempt, e.batch)
    requires k <= |e.batch| && (forall i :: 0 <= i < k ==> Finished(e.attempt, e.batch[i]))
    requires k < |e.batch| ==> !Finished(e.attempt, e.batch[k])
    ensures var p' := After(p, e.attempt, e.seen, e.batch);
            && (forall i :: 0 <= i < k ==> e.batch[i] in p'.handled && p'.handled[e.batch[i]] == e.seen[e.batch[i]])
            && (forall i :: k <= i < |e.batch| && e.batch[i] in p'.handled ==>
                  e.batch[i] in p.handled && p'.handled[e.batch[i]] == p.handled[e.batch[i]])
  {
    PrefixIs(e.attempt, e.batch, k);
    assert forall i :: 0 <= i < k ==> e.batch[i] in e.batch[..k];
    forall i | k <= i < |e.batch| ensures e.batch[i] !in e.batch[..k] {
      assert forall m :: 0 <= m < k ==> e.batch[m] < e.batch[i];
    }
  }
}
