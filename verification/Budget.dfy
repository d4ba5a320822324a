/**
 The shared REST quota account of one installation: debits, revision-fenced
 refunds, a reserve for direct events and a rate-limited probe, all on one locked
 row.  Times are microseconds.
 */
module Budget {
  import opened Options

  type Time = nat
  const SECOND: nat := 1_000_000
  const PROBE_SPACING: nat := 60 * SECOND

  datatype RawQuota = RawQuota(limit: nat, remaining: nat, resetAt: Time)
  // What CoreQuota.from_headers lets through.
  type Quota = q: RawQuota | q.remaining <= q.limit && 0 < q.limit witness RawQuota(1, 0, 0)

  datatype Receipt = Receipt(inst: nat, resetAt: Time, revision: nat)

  datatype Account = Account(
    inst: nat, limit: nat, remaining: nat, resetAt: Time, probeAfter: Time, revision: nat)

  datatype Admission = Admitted(receipt: Option<Receipt>) | Deferred(delay: nat) | Exhausted(delay: nat)

  type Percent = p: nat | 1 <= p <= 90 witness 20

  function CeilDiv(a: nat, b: nat): (c: nat)
    requires b > 0
    ensures b * c >= a && (c > 0 ==> b * (c - 1) < a)
  {
    (a + b - 1) / b
  }

  function Reserve(limit: nat, percent: Percent): nat {
    CeilDiv(limit * percent, 100)
  }

  predicate Live(a: Account, now: Time) {
    a.resetAt > now && a.limit > 0
  }

  function Admit(a: Account, percent: Percent, recovery: bool, now: Time): (Account, Admission) {
    if Live(a, now) then
      if a.remaining == 0 then (a, Exhausted(CeilDiv(a.resetAt - now, SECOND) + 1))
      else if recovery && a.remaining <= Reserve(a.limit, percent) then
        (a, Deferred(CeilDiv(a.resetAt - now, SECOND) + 1))
      else
        (a.(remaining := a.remaining - 1, revision := a.revision + 1),
         Admitted(Some(Receipt(a.inst, a.resetAt, a.revision + 1))))
    else if recovery then
      if a.probeAfter > now then (a, Deferred(CeilDiv(a.probeAfter - now, SECOND)))
      else (a.(probeAfter := now + PROBE_SPACING), Admitted(None))
    else (a, Admitted(None))
  }

  predicate Refunds(a: Account, q: Quota, receipt: Option<Receipt>, t1: Time) {
    && q.resetAt >= a.resetAt
    && receipt.Some? && receipt.value.inst == a.inst && receipt.value.resetAt == a.resetAt
    && a.resetAt > t1 && receipt.value.revision == a.revision
    && q.remaining >= a.remaining + 1 && a.remaining < a.limit
  }

  /** The stored window has ended, or none was ever known. */
  predicate Renews(a: Account, q: Quota, t2: Time) {
    q.resetAt >= a.resetAt && (a.limit == 0 || a.resetAt <= t2)
  }

  /** observe; the clock is read twice. */
  function Observe(a: Account, q: Quota, receipt: Option<Receipt>, t1: Time, t2: Time): Account {
    if q.resetAt < a.resetAt then a
    else
      var remaining := if Refunds(a, q, receipt, t1) then a.remaining + 1 else a.remaining;
      if Renews(a, q, t2) then
        a.(limit := q.limit, remaining := q.remaining, resetAt := q.resetAt, revision := a.revision + 1)
      else
        a.(limit := if a.limit < q.limit then q.limit else a.limit,
           remaining := if q.remaining < remaining then q.remaining else remaining,
           resetAt := if q.remaining == 0 then q.resetAt else a.resetAt,
           revision := a.revision + 1)
  }

  /** The locked row and the two transactions on it. */
  class RecoveryApiBudget {
    const inst: nat
    const percent: Percent
    var limit: nat
    var remaining: nat
    var resetAt: Time
    var probeAfter: Time
    var revision: nat

    function View(): Account
      reads this
    {
      Account(inst, limit, remaining, resetAt, probeAfter, revision)
    }

    constructor (inst: nat, percent: Percent, now: Time)
      ensures View() == Account(inst, 0, 0, now, now, 0) == Start(inst, now).account && this.percent == percent
    {
      this.inst, this.percent := inst, percent;
      limit, remaining, resetAt, probeAfter, revision := 0, 0, now, now, 0;
    }

    method AdmitRequest(recovery: bool, now: Time) returns (admission: Admission)
      modifies this
      ensures (View(), admission) == Admit(old(View()), percent, recovery, now)
      ensures limit == old(limit) && resetAt == old(resetAt)
      ensures admission.Admitted? && admission.receipt.Some? <==> remaining == old(remaining) - 1
      ensures !admission.Admitted? ==> View() == old(View())
    {
      var delay, exhausted, receipt := 0, false, None;
      if resetAt > now && limit > 0 {
        var reserve := CeilDiv(limit * percent, 100);
        if remaining == 0 || (recovery && remaining <= reserve) {
          delay := CeilDiv(resetAt - now, SECOND) + 1;
          exhausted := remaining == 0;
        } else {
          remaining := remaining - 1;
          revision := revision + 1;
          receipt := Some(Receipt(inst, resetAt, revision));
        }
      } else if recovery {
        if probeAfter > now {
          delay := CeilDiv(probeAfter - now, SECOND);
        } else {
          probeAfter := now + PROBE_SPACING;
        }
      }
      if delay != 0 {
        return if exhausted then Exhausted(delay) else Deferred(delay);
      }
      admission := Admitted(receipt);
    }

    method ObserveQuota(q: Quota, receipt: Option<Receipt>, t1: Time, t2: Time)
      modifies this
      ensures View() == Observe(old(View()), q, receipt, t1, t2)
      ensures resetAt >= old(resetAt) && probeAfter == old(probeAfter)
      ensures q.resetAt < old(resetAt) ==> View() == old(View())
      ensures q.resetAt >= old(resetAt) ==> revision == old(revision) + 1 && remaining <= q.remaining
    {
      var previous := resetAt;
      if q.resetAt < previous {
        return;
      }
      if receipt.Some? && receipt.value.inst == inst && receipt.value.resetAt == previous && previous > t1
         && receipt.value.revision == revision && q.remaining >= remaining + 1 && remaining < limit {
        remaining := remaining + 1;
      }
      if limit == 0 || previous <= t2 {
        limit, remaining, resetAt := q.limit, q.remaining, q.resetAt;
      } else {
        if q.remaining < remaining { remaining := q.remaining; }
        if limit < q.limit { limit := q.limit; }
        if q.remaining == 0 { resetAt := q.resetAt; }
      }
      revision := revision + 1;
    }
  }

  // ---- Every run -----------------------------------------------------------------

  datatype Accounting = Opened | Debited(receipt: Receipt) | Quoted

  /** Bookkeeping of the present accounting window, kept beside the account. */
  datatype Ledger = Ledger(
    opening: nat, debits: nat, refunds: nat, latest: Accounting,
    issued: set<Receipt>, refunded: set<Receipt>, probes: seq<Time>)

  datatype Event =
    | AdmitEvent(recovery: bool, now: Time)
    | ObserveEvent(quota: Quota, receipt: Option<Receipt>, t1: Time, t2: Time)

  datatype World = World(account: Account, ledger: Ledger, now: Time)

  /** Clocks never run back, and a refund names a receipt that was issued. */
  predicate Possible(w: World, e: Event) {
    match e
    case AdmitEvent(_, now) => w.now <= now
    case ObserveEvent(_, receipt, t1, t2) =>
      w.now <= t1 <= t2 && (receipt.Some? ==> receipt.value in w.ledger.issued)
  }

  function Step(w: World, e: Event, percent: Percent): World {
    var a, l := w.account, w.ledger;
    match e
    case AdmitEvent(recovery, now) => (
      var (a', admission) := Admit(a, percent, recovery, now);
      var l' := match admission
        case Admitted(Some(r)) => l.(debits := l.debits + 1, latest := Debited(r), issued := l.issued + {r})
        case Admitted(None) => if recovery then l.(probes := l.probes + [now]) else l
        case _ => l;
      World(a', l', now))
    case ObserveEvent(q, receipt, t1, t2) =>
      var a' := Observe(a, q, receipt, t1, t2);
      var l1 := if Refunds(a, q, receipt, t1)
                then l.(refunds := l.refunds + 1, refunded := l.refunded + {receipt.value}) else l;
      var l' := if q.resetAt < a.resetAt then l
                else if Renews(a, q, t2) then l1.(opening := q.remaining, debits := 0, refunds := 0, latest := Quoted)
                else l1.(latest := Quoted);
      World(a', l', t2)
  }

  function Start(inst: nat, now: Time): World {
    World(Account(inst, 0, 0, now, now, 0), Ledger(0, 0, 0, Opened, {}, {}, []), now)
  }

  function Run(inst: nat, start: Time, events: seq<Event>, percent: Percent): Option<World> {
    if events == [] then Some(Start(inst, start))
    else match Run(inst, start, events[..|events| - 1], percent)
      case None => None
      case Some(w) =>
        var e := events[|events| - 1];
        if Possible(w, e) then Some(Step(w, e, percent)) else None
  }

  ghost predicate Inv(w: World) {
    var a, l := w.account, w.ledger;
    && a.remaining <= a.limit
    && a.remaining + l.debits <= l.opening + l.refunds
    && (forall r :: r in l.issued ==> r.revision <= a.revision && (r.revision == a.revision <==> l.latest == Debited(r)))
    && (forall r :: r in l.refunded ==> r in l.issued && r.revision < a.revision)
    && (forall r, r' :: r in l.issued && r' in l.issued && r.revision == r'.revision ==> r == r')
    && (l.latest.Debited? ==> l.latest.receipt in l.issued)
    && (forall i, j :: 0 <= i < j < |l.probes| ==> l.probes[i] + PROBE_SPACING <= l.probes[j])
    && (forall i :: 0 <= i < |l.probes| ==> l.probes[i] + PROBE_SPACING <= a.probeAfter && l.probes[i] <= w.now)
  }

  lemma StepKeeps(w: World, e: Event, percent: Percent)
    requires Inv(w) && Possible(w, e)
    ensures Inv(Step(w, e, percent))
  {
  }

  lemma {:induction false} RunKeeps(inst: nat, start: Time, events: seq<Event>, percent: Percent)
    requires Run(inst, start, events, percent).Some?
    ensures Inv(Run(inst, start, events, percent).value)
  {
    if events != [] {
      RunKeeps(inst, start, events[..|events| - 1], percent);
      StepKeeps(Run(inst, start, events[..|events| - 1], percent).value, events[|events| - 1], percent);
    }
  }

  /**
   The balance stays within the limit; within one accounting window it never
   exceeds what the window opened with, less debits, plus refunds; and probes by
   recovery work outside live windows are at least a minute apart.
   */
  lemma QuotaConserved(inst: nat, start: Time, events: seq<Event>, percent: Percent)
    requires Run(inst, start, events, percent).Some?
    ensures var w := Run(inst, start, events, percent).value;
            && w.account.remaining <= w.account.limit
            && w.account.remaining <= w.ledger.opening - w.ledger.debits + w.ledger.refunds
            && forall i, j :: 0 <= i < j < |w.ledger.probes| ==>
                 w.ledger.probes[j] - w.ledger.probes[i] >= 60 * SECOND
  {
    RunKeeps(inst, start, events, percent);
  }

  /** A refund is granted only while its debit is the newest accounting event, and never twice. */
  lemma RefundsOnlyTheNewestDebit(inst: nat, start: Time, events: seq<Event>, percent: Percent, e: Event)
    requires Run(inst, start, events, percent).Some? && e.ObserveEvent?
    requires Possible(Run(inst, start, events, percent).value, e)
    requires Refunds(Run(inst, start, events, percent).value.account, e.quota, e.receipt, e.t1)
    ensures var w := Run(inst, start, events, percent).value;
            && w.ledger.latest == Debited(e.receipt.value)
            && e.receipt.value !in w.ledger.refunded
            && e.receipt.value in Step(w, e, percent).ledger.refunded
            && Step(w, e, percent).ledger.latest == Quoted
  {
    RunKeeps(inst, start, events, percent);
  }

  lemma ResetNeverMovesBack(w: World, e: Event, percent: Percent)
    ensures w.account.resetAt <= Step(w, e, percent).account.resetAt
  {
  }

  /** Recovery admissions at the given instants, one after another. */
  function AdmitRecovery(a: Account, percent: Percent, times: seq<Time>): Account
    decreases |times|
  {
    if times == [] then a else AdmitRecovery(Admit(a, percent, true, times[0]).0, percent, times[1..])
  }

  /** In a live window recovery work takes the balance down by one a time, to the reserve and no further. */
  lemma {:induction false} RecoveryKeepsReserve(a: Account, percent: Percent, times: seq<Time>)
    requires forall i :: 0 <= i < |times| ==> Live(a, times[i])
    ensures var a', reserve := AdmitRecovery(a, percent, times), Reserve(a.limit, percent);
            && a'.limit == a.limit && a'.resetAt == a.resetAt
            && a'.remaining == (if a.remaining <= reserve then a.remaining
                                else if a.remaining - |times| <= reserve then reserve
                                else a.remaining - |times|)
    decreases |times|
  {
    if times != [] {
      var a1 := Admit(a, percent, true, times[0]).0;
      assert Live(a, times[0]);
      RecoveryKeepsReserve(a1, percent, times[1..]);
    }
  }

  /** A direct event in a live window is refused exactly when nothing at all remains. */
  lemma DirectUsesTheReserve(a: Account, percent: Percent, now: Time)
    requires Live(a, now)
    ensures Admit(a, percent, false, now).1.Admitted? <==> a.remaining > 0
    ensures Admit(a, percent, true, now).1.Admitted? <==> a.remaining > Reserve(a.limit, percent)
  {
    assert Reserve(a.limit, percent) >= 0;
  }

  /** Outside a live window recovery work probes at most once in sixty seconds, and direct work always passes. */
  lemma ProbesExactly(a: Account, percent: Percent, now: Time)
    requires a.resetAt <= now || a.limit == 0
    ensures var (a', admission) := Admit(a, percent, true, now);
            && (admission.Admitted? <==> a.probeAfter <= now)
            && a' == if a.probeAfter <= now then a.(probeAfter := now + 60_000_000) else a
    ensures Admit(a, percent, false, now) == (a, Admitted(None))
  {
  }

  /**
   Inside a window an observation raises the balance by exactly one, for the holder of
   the newest debit alone, and only if the provider has that much; otherwise it never
   raises it, and never leaves more than the provider reports.
   */
  lemma RefundsExactly(a: Account, q: Quota, receipt: Option<Receipt>, t1: Time, t2: Time)
    requires q.resetAt >= a.resetAt && a.limit > 0 && t2 < a.resetAt && t1 <= t2
    ensures var a' := Observe(a, q, receipt, t1, t2);
            && (a'.remaining > a.remaining <==>
                  && receipt == Some(Receipt(a.inst, a.resetAt, a.revision))
                  && a.remaining < q.remaining && a.remaining < a.limit)
            && a'.remaining == (if a'.remaining > a.remaining then a.remaining + 1
                                else if q.remaining < a.remaining then q.remaining
                                else a.remaining)
            && (a'.remaining > a.remaining <==> Refunds(a, q, receipt, t1))
            && a'.limit >= q.limit && a'.limit >= a.limit && (a'.limit == a.limit || a'.limit == q.limit)
            && a'.resetAt == if q.remaining == 0 then q.resetAt else a.resetAt
  {
    if Refunds(a, q, receipt, t1) {
      assert receipt.value == Receipt(receipt.value.inst, receipt.value.resetAt, receipt.value.revision);
    }
  }

  /** Once the window has ended, or before any was known, an observation opens a new one. */
  lemma RenewsExactly(a: Account, q: Quota, receipt: Option<Receipt>, t1: Time, t2: Time)
    requires q.resetAt >= a.resetAt && (a.limit == 0 || a.resetAt <= t2)
    ensures var a' := Observe(a, q, receipt, t1, t2);
            a'.limit == q.limit && a'.remaining == q.remaining && a'.resetAt == q.resetAt
  {
  }

  /** The ledger counts what happens to the balance: each debit, each refund and each probe, from each window's opening. */
  lemma LedgerCounts(w: World, e: Event, percent: Percent)
    requires Possible(w, e)
    ensures var w' := Step(w, e, percent);
            var a, l, a', l' := w.account, w.ledger, w'.account, w'.ledger;
            match e
            case AdmitEvent(recovery, now) =>
              && l'.debits - l.debits == a.remaining - a'.remaining
              && l'.opening == l.opening && l'.refunds == l.refunds && l'.refunded == l.refunded
              && l'.probes == if recovery && a'.probeAfter == now + 60_000_000 && !Live(a, now) && a.probeAfter <= now
                              then l.probes + [now] else l.probes
            case ObserveEvent(q, receipt, t1, t2) =>
              && l'.probes == l.probes
              && if q.resetAt < a.resetAt then l' == l && a' == a
                 else if a.limit == 0 || a.resetAt <= t2 then l'.opening == a'.remaining && l'.debits == 0 == l'.refunds
                 else && l'.opening == l.opening && l'.debits == l.debits
                      && l'.refunds == l.refunds + if a'.remaining > a.remaining then 1 else 0
  {
    var a := w.account;
    if e.ObserveEvent? && e.quota.resetAt >= a.resetAt && a.limit > 0 && e.t2 < a.resetAt {
      RefundsExactly(a, e.quota, e.receipt, e.t1, e.t2);
    }
  }

  const QUOTED: Quota := RawQuota(10, 5, 90)
  const REFUNDED: seq<Event> := [
    ObserveEvent(QUOTED, None, 1, 1), AdmitEvent(false, 1), ObserveEvent(QUOTED, Some(Receipt(7, 90, 2)), 1, 1)]

  /** A run in which a debit is refunded, so the statements about runs are not vacuous. */
  lemma RefundIsReachable()
    ensures Run(7, 1, REFUNDED, 20).Some?
    ensures var w := Run(7, 1, REFUNDED, 20).value; w.account == Account(7, 10, 5, 90, 1, 3) && w.ledger.refunds == 1
  {
    assert REFUNDED[..2][..1][..0] == [] && REFUNDED[..2][..1] == [REFUNDED[0]];
    var w1 := Step(Start(7, 1), REFUNDED[0], 20);
    assert Run(7, 1, REFUNDED[..2][..1], 20) == Some(w1);
    var w2 := Step(w1, REFUNDED[1], 20);
    assert Run(7, 1, REFUNDED[..2], 20) == Some(w2);
    assert w2.account == Account(7, 10, 4, 90, 1, 2);
  }
}
