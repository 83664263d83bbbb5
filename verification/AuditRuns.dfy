/** What holds in every run of the audit protocol, whatever the interleaving. */
module AuditRuns {
  import opened Common
  import opened AuditLedger
  import opened AuditClaim
  import opened AuditSafety

  // ---- Money ----------------------------------------------------------------------------

  function Accounted(r: Reservation): int { r.accounted }

  /** By how much the actual cost exceeded the reserved ceiling. */
  function Overrun(r: Reservation): int { if r.accounted > r.ceiling then r.accounted - r.ceiling else 0 }

  ghost function Sum(m: map<Key, Reservation>, f: Reservation -> int): int
    decreases |m|
  {
    if m == map[] then 0 else var k :| k in m; f(m[k]) + Sum(m - {k}, f)
  }

  lemma {:induction false} SumWithout(m: map<Key, Reservation>, k: Key, f: Reservation -> int)
    requires k in m
    ensures Sum(m, f) == f(m[k]) + Sum(m - {k}, f)
    decreases |m|
  {
    var j :| j in m && Sum(m, f) == f(m[j]) + Sum(m - {j}, f);
    if j != k {
      SumWithout(m - {j}, k, f);
      SumWithout(m - {k}, j, f);
      assert m - {j} - {k} == m - {k} - {j};
    }
  }

  lemma SumReplaced(m: map<Key, Reservation>, k: Key, r: Reservation, f: Reservation -> int)
    ensures Sum(m[k := r], f) == Sum(m, f) + f(r) - if k in m then f(m[k]) else 0
  {
    SumWithout(m[k := r], k, f);
    assert m[k := r] - {k} == m - {k};
    if k in m {
      SumWithout(m, k, f);
    } else {
      assert m - {k} == m;
    }
  }

  /** The month's spend is the sum of what its reservations account for, and an unsettled
      reservation accounts for exactly its ceiling. */
  ghost predicate Conserved(b: Budget) {
    && b.spent == Sum(b.reservations, Accounted)
    && (forall k :: k in b.reservations
          ==> b.reservations[k].settled || b.reservations[k].accounted == b.reservations[k].ceiling)
  }

  /** Spend stays within the limit, except for what actual costs exceeded their ceilings by. */
  ghost predicate WithinLimit(cap: Money, b: Budget) {
    b.spent <= cap + Sum(b.reservations, Overrun)
  }

  ghost predicate MoneyOk(cap: Money, s: Shared) {
    forall m :: m in s.budgets ==> Conserved(s.budgets[m]) && WithinLimit(cap, s.budgets[m])
  }

  lemma {:induction false} OverrunsNonNegative(m: map<Key, Reservation>)
    ensures Sum(m, Overrun) >= 0
    decreases |m|
  {
    if m != map[] {
      var k :| k in m && Sum(m, Overrun) == Overrun(m[k]) + Sum(m - {k}, Overrun);
      OverrunsNonNegative(m - {k});
    }
  }

  lemma ReserveConserves(cap: Money, b: Budget, key: Key, ceiling: Money)
    requires Conserved(b) && key !in b.reservations && b.spent + ceiling <= cap
    ensures Conserved(Reserve(b, key, ceiling)) && WithinLimit(cap, Reserve(b, key, ceiling))
  {
    SumReplaced(b.reservations, key, Reservation(ceiling, ceiling, false), Accounted);
    OverrunsNonNegative(Reserve(b, key, ceiling).reservations);
  }

  lemma SettleConserves(cap: Money, b: Budget, key: Key, actual: Money)
    requires Conserved(b) && WithinLimit(cap, b) && key in b.reservations && !b.reservations[key].settled
    ensures Conserved(Settle(b, key, actual)) && WithinLimit(cap, Settle(b, key, actual))
  {
    var r := b.reservations[key].(accounted := actual, settled := true);
    SumReplaced(b.reservations, key, r, Accounted);
    SumReplaced(b.reservations, key, r, Overrun);
  }

  lemma StepMoney(cfg: Config, s: Shared, id: int, w: Worker, x: Input)
    requires WorkerOk(cfg.cap, w) && MoneyOk(cfg.cap, s)
    ensures MoneyOk(cfg.cap, Step(cfg, s, id, w, x).shared)
  {
    var t := Step(cfg, s, id, w, x).shared;
    match w.pc
    case ReserveSave(_, seen) =>
      if t != s {
        assert Conserved(BudgetOf(seen)) by {
          if seen.None? { assert Sum(map[], Accounted) == 0; }
        }
        ReserveConserves(cfg.cap, BudgetOf(seen), w.key, w.ceiling);
      }
    case SettleSave(_, actual, _, doc) =>
      if t != s {
        SettleConserves(cfg.cap, doc, w.key, actual);
      }
    case _ => NotMoney(cfg, s, id, w, x);
  }

  lemma NotMoney(cfg: Config, s: Shared, id: int, w: Worker, x: Input)
    requires !w.pc.ReserveSave? && !w.pc.SettleSave?
    ensures Step(cfg, s, id, w, x).shared.budgets == s.budgets
  {
  }

  // ---- Every run ------------------------------------------------------------------------

  ghost predicate Invariant(cfg: Config, sys: System) {
    (forall id :: id in sys.workers ==> WorkerOk(cfg.cap, sys.workers[id])) && MoneyOk(cfg.cap, sys.shared)
  }

  lemma NextKeepsInvariant(cfg: Config, sys: System, e: Event)
    requires Invariant(cfg, sys)
    ensures Invariant(cfg, Next(cfg, sys, e)) && Grows(sys.shared, Next(cfg, sys, e).shared)
  {
    if e.Run? && e.id in sys.workers {
      StepGood(cfg, sys.shared, e.id, sys.workers[e.id], e.x);
      StepMoney(cfg, sys.shared, e.id, sys.workers[e.id], e.x);
    }
  }

  lemma {:induction false} RunsKeepInvariant(cfg: Config, events: seq<Event>)
    ensures Invariant(cfg, Exec(cfg, events))
  {
    if events != [] {
      RunsKeepInvariant(cfg, events[..|events| - 1]);
      NextKeepsInvariant(cfg, Exec(cfg, events[..|events| - 1]), events[|events| - 1]);
    }
  }

  /** Conservation: in every reachable budget document, under any interleaving and either store. */
  lemma MoneyIsConserved(cfg: Config, events: seq<Event>, m: Month)
    requires m in Exec(cfg, events).shared.budgets
    ensures Conserved(Exec(cfg, events).shared.budgets[m])
    ensures WithinLimit(cfg.cap, Exec(cfg, events).shared.budgets[m])
  {
    RunsKeepInvariant(cfg, events);
  }

  lemma GrowsTransitive(a: Shared, b: Shared, c: Shared)
    requires Grows(a, b) && Grows(b, c)
    ensures Grows(a, c)
  {
    forall k ensures ClaimKept(ClaimAt(a.docs, k), ClaimAt(c.docs, k)) {
      assert ClaimKept(ClaimAt(a.docs, k), ClaimAt(b.docs, k)) && ClaimKept(ClaimAt(b.docs, k), ClaimAt(c.docs, k));
    }
    forall m, k ensures ReservationKept(ReservationAt(a.budgets, m, k), ReservationAt(c.budgets, m, k)) {
      assert ReservationKept(ReservationAt(a.budgets, m, k), ReservationAt(b.budgets, m, k));
      assert ReservationKept(ReservationAt(b.budgets, m, k), ReservationAt(c.budgets, m, k));
    }
    forall k ensures a.calls[k] <= c.calls[k] {
      assert a.calls[k] <= b.calls[k];
    }
  }

  /** Write-once over whole runs: whatever happens after any point, no key is dropped, no completed
      verdict and no settled reservation changes, and no disposition is touched. */
  lemma {:induction false} NothingFinalChanges(cfg: Config, events: seq<Event>, n: nat)
    requires n <= |events|
    ensures Grows(Exec(cfg, events[..n]).shared, Exec(cfg, events).shared)
    decreases |events|
  {
    if n == |events| {
      assert events[..n] == events;
    } else {
      var init := events[..|events| - 1];
      assert init[..n] == events[..n];
      NothingFinalChanges(cfg, init, n);
      RunsKeepInvariant(cfg, init);
      NextKeepsInvariant(cfg, Exec(cfg, init), events[|events| - 1]);
      GrowsTransitive(Exec(cfg, events[..n]).shared, Exec(cfg, init).shared, Exec(cfg, events).shared);
    }
  }

  /** What a reservation must satisfy against the limits of the pass that made it. */
  predicate Allowed(l: Limits, spentAfter: Money, ceiling: Money) {
    && ceiling <= l.perRunHard && spentAfter <= l.monthlyHard && l.preflight <= l.perRunHard
    && !Over(l.perRunSoft, ceiling) && !Over(l.monthlySoft, spentAfter)
  }

  lemma NewReservation(cfg: Config, s: Shared, id: int, w: Worker, x: Input, m: Month, k: Key)
    requires WorkerOk(cfg.cap, w) && ReservationAt(s.budgets, m, k).None?
    requires ReservationAt(Step(cfg, s, id, w, x).shared.budgets, m, k).Some?
    ensures w.pc.ReserveSave? && w.month == m && w.key == k
    ensures ReservationAt(Step(cfg, s, id, w, x).shared.budgets, m, k) == Some(Reservation(w.ceiling, w.ceiling, false))
    ensures Allowed(w.limits, BudgetOf(Get(Step(cfg, s, id, w, x).shared.budgets, m)).spent, w.ceiling)
  {
    if !w.pc.ReserveSave? && !w.pc.SettleSave? {
      NotMoney(cfg, s, id, w, x);
    }
  }

  /** Every reservation in every run is made by a pass for its own key and month, at its ceiling, and
      only when run, month and soft limits all allow it. */
  lemma ReservationsAreAllowed(cfg: Config, events: seq<Event>, e: Event, m: Month, k: Key)
    requires ReservationAt(Exec(cfg, events).shared.budgets, m, k).None?
    requires ReservationAt(Exec(cfg, events + [e]).shared.budgets, m, k).Some?
    ensures e.Run? && e.id in Exec(cfg, events).workers
    ensures var w := Exec(cfg, events).workers[e.id];
            w.key == k && w.month == m
                && ReservationAt(Exec(cfg, events + [e]).shared.budgets, m, k)
                == Some(Reservation(w.ceiling, w.ceiling, false))
            && Allowed(w.limits, BudgetOf(Get(Exec(cfg, events + [e]).shared.budgets, m)).spent, w.ceiling)
  {
    RunsKeepInvariant(cfg, events);
    assert (events + [e])[..|events|] == events;
    if e.Run? && e.id in Exec(cfg, events).workers {
      NewReservation(cfg, Exec(cfg, events).shared, e.id, Exec(cfg, events).workers[e.id], e.x, m, k);
    }
  }

  // ---- At most one paid call --------------------------------------------------------------

  ghost predicate CallInvariant(sys: System) {
    CallsOk(sys.shared) && forall id :: id in sys.workers ==> MayCall(sys.shared, id, sys.workers[id])
  }

  lemma OthersStillMayCall(s: Shared, t: Shared, id: int, other: int, w: Worker)
    requires RespectsOwners(id, s, t) && other != id && MayCall(s, other, w)
    ensures MayCall(t, other, w)
  {
  }

  lemma NextKeepsCalls(cfg: Config, sys: System, e: Event)
    requires (!cfg.adopting || cfg.distinctTimes) && Invariant(cfg, sys) && CallInvariant(sys)
    ensures CallInvariant(Next(cfg, sys, e))
  {
    if e.Run? && e.id in sys.workers {
      var t := Next(cfg, sys, e);
      StepCalls(cfg, sys.shared, e.id, sys.workers[e.id], e.x);
      forall id | id in t.workers ensures MayCall(t.shared, id, t.workers[id]) {
        if id != e.id {
          OthersStillMayCall(sys.shared, t.shared, e.id, id, sys.workers[id]);
        }
      }
    }
  }

  lemma {:induction false} RunsKeepCalls(cfg: Config, events: seq<Event>)
    requires !cfg.adopting || cfg.distinctTimes
    ensures CallInvariant(Exec(cfg, events))
  {
    if events != [] {
      RunsKeepCalls(cfg, events[..|events| - 1]);
      RunsKeepInvariant(cfg, events[..|events| - 1]);
      NextKeepsCalls(cfg, Exec(cfg, events[..|events| - 1]), events[|events| - 1]);
    }
  }
}
