/** The in-memory claim store and one pass of the audit over it, as they run: each store access is
    tied to the matching step of the protocol, and other passes may run between any two accesses. */
module AuditStore {
  import opened Common
  import opened AuditLedger
  import opened AuditClaim
  import opened AuditSafety

  class MemoryClaimStore {
    var docs: map<int, Ledger>
    var budgets: map<Month, Budget>
    var writes: int
    ghost const cap: Money
    ghost const shared: bool      // other passes use the store as well
    ghost var events: seq<Event>

    constructor (cap: Money, ghost shared: bool)
      ensures Valid() && Now() == INITIAL && this.cap == cap && this.shared == shared
    {
      docs, budgets, writes, this.cap, events := map[], map[], 0, cap, [];
      this.shared := shared;
    }

    ghost function Settings(): Config { Config(false, false, false, false, cap) }

    /** The protocol state that the events so far lead to. */
    ghost function Now(): System
      reads this
    {
      Exec(Settings(), events)
    }

    ghost predicate Holds(s: Shared)
      reads this
    {
      docs == s.docs && budgets == s.budgets
    }

    ghost predicate Valid()
      reads this
    {
      Holds(Now().shared)
    }

    ghost predicate At(id: int, w: Worker)
      reads this
    {
      id in Now().workers && Now().workers[id] == w
    }

    method Save(issue: int, ledger: Ledger, expected: Option<Ledger>) returns (ok: bool)
      modifies this`docs, this`writes
      ensures ok == (Get(old(docs), issue) == expected)
      ensures docs == if ok then old(docs)[issue := ledger] else old(docs)
      ensures writes == old(writes) + if ok then 1 else 0
    {
      ok := Get(docs, issue) == expected;
      if ok {
        docs := docs[issue := ledger];
        writes := writes + 1;
      }
    }

    method SaveMonthBudget(month: Month, budget: Budget, expected: Option<Budget>) returns (ok: bool)
      modifies this`budgets, this`writes
      ensures ok == (Get(old(budgets), month) == expected)
      ensures budgets == if ok then old(budgets)[month := budget] else old(budgets)
      ensures writes == old(writes) + if ok then 1 else 0
    {
      ok := Get(budgets, month) == expected;
      if ok {
        budgets := budgets[month := budget];
        writes := writes + 1;
      }
    }

    /** Notes that the pass has just made one step. */
    ghost method Record(e: Event)
      requires Holds(Next(Settings(), Now(), e).shared)
      modifies this`events
      ensures Valid() && Now() == Next(Settings(), old(Now()), e) && events == old(events) + [e]
    {
      events := events + [e];
      assert events[..|events| - 1] == old(events);
    }

    /** Whatever other passes do meanwhile: the caller may rely on nothing but this contract. */
    method OtherPasses(ghost id: int)
      requires Valid()
      modifies this
      ensures Valid() && old(events) <= events
      ensures id in old(Now()).workers ==> At(id, old(Now()).workers[id])
      ensures !shared ==> Are(old(docs), old(budgets), old(writes))
    {
    }

    predicate Are(docs: map<int, Ledger>, budgets: map<Month, Budget>, writes: int)
      reads this
    {
      this.docs == docs && this.budgets == budgets && this.writes == writes
    }
  }

  // ---- What one pass alone does -----------------------------------------------------------------

  /** The amount is within the limits for one run, and with the spend so far within those of the month. */
  predicate Within(l: Limits, spent: Money, amount: Money) {
    && amount <= l.perRunHard && spent + amount <= l.monthlyHard
    && (l.perRunSoft.Some? ==> amount <= l.perRunSoft.value)
    && (l.monthlySoft.Some? ==> spent + amount <= l.monthlySoft.value)
  }

  predicate LimitsAllow(l: Limits, spent: Money, ceiling: Money) {
    Within(l, spent, l.preflight) && Within(l, spent, ceiling)
  }

  lemma BlockedExactly(l: Limits, spent: Money, ceiling: Money)
    ensures BlockedBeforeCall(l, spent, ceiling) <==> !LimitsAllow(l, spent, ceiling)
  {
  }

  /** The budgets with one reservation as given and the month's spend changed by what it now accounts for. */
  function WithSlot(budgets: map<Month, Budget>, month: Month, key: Key, r: Reservation): map<Month, Budget> {
    var b := if month in budgets then budgets[month] else Budget(0, map[]);
    var before := if key in b.reservations then b.reservations[key].accounted else 0;
    budgets[month := Budget(b.spent + r.accounted - before, b.reservations[key := r])]
  }

  /** The documents with the key's claim as given and everything else as it was. */
  function WithClaimAt(docs: map<int, Ledger>, key: Key, c: Claim, month: Month, current: bool): map<int, Ledger> {
    var l := if key.issue in docs then docs[key.issue] else Ledger(month, map[], map[]);
    docs[key.issue := Ledger(if current then month else l.month, l.claims[key := c], l.dispositions)]
  }

  /** What a pass that finds a reservation of its key settles at, and with what verdict: what is settled
      stays, a recorded result is kept, otherwise the reserved amount, for a human. */
  predicate RecoveredAs(c: Option<Claim>, r: Reservation, verdict: Verdict, actual: Money) {
    var known := if c.Some? && c.value.verdict.Some? then c.value.verdict.value else HumanRequired;
    if r.settled then verdict == known && actual == r.accounted
    else if c.Some? && c.value.cost.Some? then verdict == known && actual == c.value.cost.value
    else verdict == HumanRequired && actual == if r.accounted != 0 then r.accounted else r.ceiling
  }

  /** A reserved key is completed as recovered, its reservation settled. */
  ghost predicate CompletesHeld(docs: map<int, Ledger>, budgets: map<Month, Budget>, store: MemoryClaimStore, key: Key,
      lease: int, read: Input, r: Reservation, outcome: Outcome)
    reads store
  {
    var c := ClaimAt(docs, key);
    && outcome == FinishedWithoutCall
    && exists verdict, actual :: RecoveredAs(c, r, verdict, actual)
         && store.docs == WithClaimAt(docs, key, Claim(Completed, read.month, if c.Some? then c.value.claimedAt
                                                else read.now, lease, Some(verdict), Some(actual)), read.month, false)
         && store.budgets == if r.settled then budgets
                             else WithSlot(budgets, read.month, key, Reservation(r.ceiling, actual, true))
  }

  /** A fresh key within the limits is reserved, claimed, audited, recorded, settled and completed. */
  ghost predicate Audits(docs: map<int, Ledger>, budgets: map<Month, Budget>, store: MemoryClaimStore, key: Key,
      limits: Limits, ceiling: Money, lease: int, month: Month, called: Input, outcome: Outcome, paid: bool)
    reads store
  {
    var spent := if month in budgets then budgets[month].spent else 0;
    if !LimitsAllow(limits, spent, ceiling) then
      outcome == BudgetBlocked && !paid && store.docs == docs && store.budgets == budgets
    else
      && outcome == Audited(called.verdict) && paid
      && store.docs == WithClaimAt(docs, key, Claim(Completed, month, called.now, lease, Some(called.verdict),
                                                    Some(called.cost)), month, true)
      && store.budgets == WithSlot(budgets, month, key, Reservation(ceiling, called.cost, true))
  }

  ghost predicate FromHeld(docs: map<int, Ledger>, budgets: map<Month, Budget>, store: MemoryClaimStore, key: Key,
      limits: Limits, ceiling: Money, lease: int, read: Input, called: Input, outcome: Outcome, paid: bool)
    reads store
  {
    var c := ClaimAt(docs, key);
    var r := ReservationAt(budgets, read.month, key);
    if read.evidenceBlocked then outcome == EvidenceBlocked && !paid && store.docs == docs && store.budgets == budgets
    else if r.Some? then !paid && CompletesHeld(docs, budgets, store, key, lease, read, r.value, outcome)
    else if c.Some? then
      && outcome == FinishedWithoutCall && !paid && store.budgets == budgets
      && store.docs == WithClaimAt(docs, key, Claim(Completed, c.value.month, c.value.claimedAt, c.value.lease,
                                                    Some(HumanRequired), Some(0)), read.month, false)
    else if !read.ready then outcome == NotReady && !paid && store.docs == docs && store.budgets == budgets
    else Audits(docs, budgets, store, key, limits, ceiling, lease, read.month, called, outcome, paid)
  }

  /** One pass alone, from the stores as it finds them. */
  ghost predicate AloneDoes(docs: map<int, Ledger>, budgets: map<Month, Budget>, store: MemoryClaimStore, key: Key,
      limits: Limits, ceiling: Money, lease: int, loaded: Input, read: Input, called: Input, outcome: Outcome,
      paid: bool)
    reads store
  {
    var c := ClaimAt(docs, key);
    if c.Some? && c.value.state == Completed then
      outcome == DuplicateCompleted && !paid && store.docs == docs && store.budgets == budgets
    else if c.Some? && c.value.lease > 0 && 0 <= loaded.now - c.value.claimedAt < c.value.lease then
      outcome == DuplicateClaim && !paid && store.docs == docs && store.budgets == budgets
    else FromHeld(docs, budgets, store, key, limits, ceiling, lease, read, called, outcome, paid)
  }

  /** A step that reads neither clock nor auditor. */
  ghost function Plain(id: int): Event { Run(id, Input(0, 0, false, false, 0, Pass)) }

  datatype Reserving = Reserved | Already | Blocked | Lost

  method ReserveCeiling(store: MemoryClaimStore, ghost id: int, w: Worker) returns (r: Reserving)
    requires store.Valid() && store.At(id, w.(pc := ReserveLoad(0)))
    modifies store
    ensures store.Valid() && old(store.events) <= store.events
    ensures store.At(id, w.(pc := if r == Reserved then ClaimSave else Stopped))
    ensures !store.shared && ReservationAt(old(store.budgets), w.month, w.key).None? ==>
              && store.docs == old(store.docs)
              && (r == Reserved <==> LimitsAllow(w.limits, BudgetOf(Get(old(store.budgets), w.month)).spent, w.ceiling))
              && store.budgets == if r == Reserved
                                  then WithSlot(old(store.budgets), w.month, w.key,
                                                Reservation(w.ceiling, w.ceiling, false))
                                  else old(store.budgets)
  {
    var attempt := 0;
    BlockedExactly(w.limits, BudgetOf(Get(store.budgets, w.month)).spent, w.ceiling);
    while attempt < 2
      invariant 0 <= attempt <= 2
      invariant !store.shared ==> attempt == 0 && store.docs == old(store.docs) && store.budgets == old(store.budgets)
      invariant store.Valid() && old(store.events) <= store.events
      invariant store.At(id, w.(pc := if attempt < 2 then ReserveLoad(attempt) else Stopped))
    {
      store.OtherPasses(id);
      var seen := Get(store.budgets, w.month);
      var budget := BudgetOf(seen);
      store.Record(Plain(id));
      if w.key in budget.reservations {
        return Already;
      }
      if BlockedBeforeCall(w.limits, budget.spent, w.ceiling) {
        return Blocked;
      }
      var ok := ReserveOnce(store, id, w, attempt, seen);
      if ok {
        return Reserved;
      }
      attempt := attempt + 1;
    }
    r := Lost;
  }

  /** One compare-and-set of the budget with the reservation. */
  method ReserveOnce(store: MemoryClaimStore, ghost id: int, w: Worker, ghost attempt: int, seen: Option<Budget>)
      returns (ok: bool)
    requires store.Valid() && store.At(id, w.(pc := ReserveSave(attempt, seen)))
    modifies store
    ensures store.Valid() && old(store.events) <= store.events
    ensures store.At(id, w.(pc := if ok then ClaimSave else if attempt == 0 then ReserveLoad(1) else Stopped))
    ensures !store.shared && Get(old(store.budgets), w.month) == seen && w.key !in BudgetOf(seen).reservations ==>
              ok && store.docs == old(store.docs)
              && store.budgets == WithSlot(old(store.budgets), w.month, w.key, Reservation(w.ceiling, w.ceiling, false))
  {
    store.OtherPasses(id);
    ok := store.SaveMonthBudget(w.month, Reserve(BudgetOf(seen), w.key, w.ceiling), seen);
    store.Record(Plain(id));
  }

  datatype Settling = Settled | Missing | LostTwice

  method SettleReservation(store: MemoryClaimStore, ghost id: int, w: Worker, actual: Money, ghost after: Claim)
      returns (r: Settling)
    requires store.Valid() && store.At(id, w.(pc := SettleLoad(0, actual, after)))
    modifies store
    ensures store.Valid() && old(store.events) <= store.events
    ensures store.At(id, w.(pc := if r == Settled then FinalSave(after) else Stopped))
    ensures !store.shared && ReservationAt(old(store.budgets), w.month, w.key).Some? ==>
              var slot := ReservationAt(old(store.budgets), w.month, w.key).value;
              && r == Settled && store.docs == old(store.docs)
              && store.budgets == if slot.settled then old(store.budgets)
                                  else WithSlot(old(store.budgets), w.month, w.key,
                                                Reservation(slot.ceiling, actual, true))
  {
    var attempt := 0;
    while attempt < 2
      invariant 0 <= attempt <= 2
      invariant !store.shared ==> attempt == 0 && store.docs == old(store.docs) && store.budgets == old(store.budgets)
      invariant store.Valid() && old(store.events) <= store.events
      invariant store.At(id, w.(pc := if attempt < 2 then SettleLoad(attempt, actual, after) else Stopped))
    {
      store.OtherPasses(id);
      var budget := BudgetOf(Get(store.budgets, w.month));
      store.Record(Plain(id));
      if w.key !in budget.reservations {
        return Missing;
      }
      if budget.reservations[w.key].settled {
        return Settled;
      }
      var ok := SettleOnce(store, id, w, attempt, actual, after, budget);
      if ok {
        return Settled;
      }
      attempt := attempt + 1;
    }
    r := LostTwice;
  }

  /** One compare-and-set of the settled budget. */
  method SettleOnce(store: MemoryClaimStore, ghost id: int, w: Worker, ghost attempt: int, actual: Money,
      ghost after: Claim, budget: Budget)
    returns (ok: bool)
    requires store.Valid() && w.key in budget.reservations
      && store.At(id, w.(pc := SettleSave(attempt, actual, after, budget)))
    modifies store
    ensures store.Valid() && old(store.events) <= store.events
    ensures store.At(id,
      w.(pc := if ok then FinalSave(after) else if attempt == 0 then SettleLoad(1, actual, after) else Stopped))
    ensures !store.shared && Get(old(store.budgets), w.month) == Some(budget) ==>
              ok && store.docs == old(store.docs)
              && store.budgets == WithSlot(old(store.budgets), w.month, w.key,
                                           Reservation(budget.reservations[w.key].ceiling, actual, true))
  {
    store.OtherPasses(id);
    ok := store.SaveMonthBudget(w.month, Settle(budget, w.key, actual), Some(budget));
    store.Record(Plain(id));
  }

  /** Settles and completes without a call; a lost settlement or completion raises a conflict, a
      missing reservation another error. */
  method FinishWithoutCall(store: MemoryClaimStore, ghost id: int, w: Worker, actual: Money, after: Claim)
      returns (outcome: Outcome)
    requires store.Valid() && store.At(id, w.(pc := SettleLoad(0, actual, after)))
    modifies store
    ensures store.Valid() && old(store.events) <= store.events
    ensures store.At(id, w.(pc := Stopped))
    ensures outcome.FinishedWithoutCall? || outcome.ConflictRaised? || outcome.ReservationMissing?
    ensures outcome.FinishedWithoutCall? ==> ClaimAt(store.docs, w.key) == Some(after)
    ensures !store.shared && ReservationAt(old(store.budgets), w.month, w.key).Some?
            && Get(old(store.docs), w.key.issue) == w.base ==>
              var slot := ReservationAt(old(store.budgets), w.month, w.key).value;
              && outcome == FinishedWithoutCall
              && store.docs == WithClaimAt(old(store.docs), w.key, after, w.month, false)
              && store.budgets == if slot.settled then old(store.budgets)
                                  else WithSlot(old(store.budgets), w.month, w.key,
                                                Reservation(slot.ceiling, actual, true))
  {
    var settled := SettleReservation(store, id, w, actual, after);
    match settled {
      case Missing => outcome := ReservationMissing;
      case LostTwice => outcome := ConflictRaised;
      case Settled =>
        var ok := Complete(store, id, w, after);
        outcome := if ok then FinishedWithoutCall else ConflictRaised;
    }
  }

  method Complete(store: MemoryClaimStore, ghost id: int, w: Worker, after: Claim) returns (ok: bool)
    requires store.Valid() && store.At(id, w.(pc := FinalSave(after)))
    modifies store
    ensures store.Valid() && old(store.events) <= store.events
    ensures store.At(id, w.(pc := Stopped))
    ensures ok ==> ClaimAt(store.docs, w.key) == Some(after)
    ensures !store.shared && Get(old(store.docs), w.key.issue) == w.base ==>
              ok && store.budgets == old(store.budgets)
              && store.docs == WithClaimAt(old(store.docs), w.key, after, w.month, false)
  {
    store.OtherPasses(id);
    ok := store.Save(w.key.issue, WithClaim(w.base, w.key, after, w.month), w.base);
    store.Record(Run(id, Input(0, 0, false, false, 0, Pass)));
  }

  datatype Outcome = DuplicateCompleted | DuplicateClaim | EvidenceBlocked | FinishedWithoutCall | NotReady
                   | BudgetBlocked | SettlePending | Audited(verdict: Verdict) | ConflictRaised | ReservationMissing

  /** The claim write: afterwards the pass may call the auditor, or has lost. */
  method WriteClaim(store: MemoryClaimStore, ghost id: int, w: Worker, x: Input) returns (ok: bool, ledger: Ledger)
    requires store.Valid() && store.At(id, w.(pc := ClaimSave))
    modifies store
    ensures store.Valid() && old(store.events) <= store.events
    ensures ledger == WithClaim(w.base, w.key, ClaimEntry(w, x.now), w.month).(month := w.month)
    ensures ok ==> store.At(id, w.(pc := CallAuditor, base := Some(ledger)))
    ensures !ok ==> store.At(id, w.(pc := Stopped))
    ensures !store.shared && Get(old(store.docs), w.key.issue) == w.base ==>
              ok && store.docs == old(store.docs)[w.key.issue := ledger] && store.budgets == old(store.budgets)
  {
    store.OtherPasses(id);
    ledger := WithClaim(w.base, w.key, ClaimEntry(w, x.now), w.month).(month := w.month);
    ok := store.Save(w.key.issue, ledger, w.base);
    store.Record(Run(id, x));
  }

  /** The paid call, and the write that keeps its usage. */
  method CallAndRecord(store: MemoryClaimStore, ghost id: int, w: Worker, ledger: Ledger, x: Input)
      returns (ok: bool, used: Ledger)
    requires store.Valid() && store.At(id, w.(pc := CallAuditor, base := Some(ledger))) && w.key in ledger.claims
    modifies store
    ensures store.Valid() && old(store.events) <= store.events
    ensures used
      == WithClaim(Some(ledger), w.key, ledger.claims[w.key].(verdict := Some(x.verdict), cost := Some(x.cost)),
      w.month)
    ensures ok ==> store.At(id,
      w.(pc := SettleLoad(0, x.cost, used.claims[w.key].(state := Completed)), base := Some(used)))
    ensures !ok ==> id in store.Now().workers && store.Now().workers[id].pc.Stopped?
    ensures !store.shared && Get(old(store.docs), w.key.issue) == Some(ledger) ==>
              ok && store.docs == old(store.docs)[w.key.issue := used] && store.budgets == old(store.budgets)
  {
    store.OtherPasses(id);
    store.Record(Run(id, x));
    store.OtherPasses(id);
    used := WithClaim(Some(ledger), w.key, ledger.claims[w.key].(verdict := Some(x.verdict), cost := Some(x.cost)),
        w.month);
    ok := store.Save(w.key.issue, used, Some(ledger));
    store.Record(Run(id, x));
  }

  /** Everything from the claim write on. */
  method ClaimAndCall(store: MemoryClaimStore, ghost id: int, w: Worker, x: Input)
      returns (outcome: Outcome, paid: bool)
    requires store.Valid() && store.At(id, w.(pc := ClaimSave))
    modifies store
    ensures store.Valid() && old(store.events) <= store.events
    ensures Ended(store, id)
    ensures outcome == Audited(x.verdict) || outcome == SettlePending || outcome == ConflictRaised
      || outcome == ReservationMissing
    ensures outcome.Audited? ==>
            paid && ClaimAt(store.docs, w.key)
                == Some(Claim(Completed, w.month, x.now, w.lease, Some(x.verdict), Some(x.cost)))
    ensures !store.shared && Get(old(store.docs), w.key.issue) == w.base
            && ReservationAt(old(store.budgets), w.month, w.key) == Some(Reservation(w.ceiling, w.ceiling, false)) ==>
              && outcome == Audited(x.verdict) && paid
              && store.docs == WithClaimAt(old(store.docs), w.key, Claim(Completed, w.month, x.now, w.lease,
                                           Some(x.verdict), Some(x.cost)), w.month, true)
              && store.budgets == WithSlot(old(store.budgets), w.month, w.key, Reservation(w.ceiling, x.cost, true))
  {
    AuditedDocs(store.docs, w, x);
    var ok, ledger := WriteClaim(store, id, w, x);
    if !ok {
      return ConflictRaised, false;
    }
    var used: Ledger;
    ok, used := CallAndRecord(store, id, w, ledger, x);
    if !ok {
      return ConflictRaised, true;
    }
    var claim := used.claims[w.key].(state := Completed);
    var settled := SettleReservation(store, id, w.(base := Some(used)), x.cost, claim);
    if settled != Settled {
      return if settled == Missing then ReservationMissing else SettlePending, true;
    }
    ok := Complete(store, id, w.(base := Some(used)), claim);
    return if ok then Audited(x.verdict) else ConflictRaised, true;
  }

  ghost predicate Ended(store: MemoryClaimStore, id: int)
    reads store
  {
    id in store.Now().workers && store.Now().workers[id].pc.Stopped?
  }

  lemma RecoveryCompletes(w: Worker, held: Reservation, now: Time)
    ensures Recover(w, held, now) == w.(pc := Recover(w, held, now).pc)
    ensures Recover(w, held, now).pc.SettleLoad? && Recover(w, held, now).pc.attempt == 0
    ensures Recover(w, held, now).pc.after.state == Completed
  {
  }

  /** From the month's budget on, for a pass that found no completed and no live claim. */
  method ReadHeldAndGoOn(store: MemoryClaimStore, ghost id: int, w0: Worker, read: Input, called: Input)
      returns (outcome: Outcome, paid: bool)
    requires store.Valid() && store.At(id, w0) && w0.pc == ReadHeld
    modifies store
    ensures store.Valid() && old(store.events) <= store.events
    ensures Ended(store, id)
    ensures outcome.Audited? ==> paid && outcome.verdict == called.verdict
    ensures outcome.Audited? || outcome.FinishedWithoutCall? ==> CompletedIn(store.docs, w0.key)
    ensures !store.shared && Get(old(store.docs), w0.key.issue) == w0.base ==>
              FromHeld(old(store.docs), old(store.budgets), store, w0.key, w0.limits, w0.ceiling, w0.lease, read,
                       called, outcome, paid)
  {
    paid := false;
    store.OtherPasses(id);
    var claims := ClaimsOf(w0.base);
    var reservations := BudgetOf(Get(store.budgets, read.month)).reservations;
    store.Record(Run(id, read));
    if read.evidenceBlocked {
      return EvidenceBlocked, false;
    }
    var w := w0.(month := read.month);
    if w.key in reservations {
      outcome := CompleteHeld(store, id, w, reservations[w.key], read);
    } else if w.key in claims {
      var ok := Complete(store, id, w, Reconciled(claims[w.key]));
      outcome := if ok then FinishedWithoutCall else ConflictRaised;
    } else if !read.ready {
      outcome := NotReady;
    } else {
      outcome, paid := AuditFresh(store, id, w, called);
    }
  }

  /** A reservation of the key is found: settle as recovered, and complete without a call. */
  method CompleteHeld(store: MemoryClaimStore, ghost id: int, w: Worker, held: Reservation, read: Input)
      returns (outcome: Outcome)
    requires store.Valid() && store.At(id, Recover(w, held, read.now)) && w.month == read.month
    modifies store
    ensures store.Valid() && old(store.events) <= store.events && Ended(store, id)
    ensures outcome.FinishedWithoutCall? || outcome.ConflictRaised? || outcome.ReservationMissing?
    ensures outcome.FinishedWithoutCall? ==> CompletedIn(store.docs, w.key)
    ensures !store.shared && Get(old(store.docs), w.key.issue) == w.base
            && ReservationAt(old(store.budgets), read.month, w.key) == Some(held) ==>
              CompletesHeld(old(store.docs), old(store.budgets), store, w.key, w.lease, read, held, outcome)
  {
    RecoveryCompletes(w, held, read.now);
    RecoveryIs(w, held, read.now);
    var next := Recover(w, held, read.now).pc;
    outcome := FinishWithoutCall(store, id, w, next.actual, next.after);
  }

  lemma RecoveryIs(w: Worker, held: Reservation, now: Time)
    ensures var next := Recover(w, held, now).pc; var c := Get(ClaimsOf(w.base), w.key);
            && next.after.verdict.Some? && RecoveredAs(c, held, next.after.verdict.value, next.actual)
            && next.after == Claim(Completed, w.month, if c.Some? then c.value.claimedAt else now, w.lease,
                                   next.after.verdict, Some(next.actual))
  {
  }

  /** Nothing is known of the key: reserve, then claim and call. */
  method AuditFresh(store: MemoryClaimStore, ghost id: int, w: Worker, called: Input)
      returns (outcome: Outcome, paid: bool)
    requires store.Valid() && store.At(id, w.(pc := ReserveLoad(0)))
    modifies store
    ensures store.Valid() && old(store.events) <= store.events && Ended(store, id)
    ensures outcome.Audited? ==> paid && outcome.verdict == called.verdict && CompletedIn(store.docs, w.key)
    ensures !outcome.FinishedWithoutCall?
    ensures !store.shared && Get(old(store.docs), w.key.issue) == w.base
            && ReservationAt(old(store.budgets), w.month, w.key).None? ==>
              Audits(old(store.docs), old(store.budgets), store, w.key, w.limits, w.ceiling, w.lease, w.month, called,
                     outcome, paid)
  {
    paid := false;
    var reserving := ReserveCeiling(store, id, w);
    if reserving == Reserved {
      SlotTwice(old(store.budgets), w.month, w.key, w.ceiling, called.cost);
      outcome, paid := ClaimAndCall(store, id, w, called);
    } else {
      outcome := BudgetBlocked;
    }
  }

  lemma SlotTwice(budgets: map<Month, Budget>, month: Month, key: Key, ceiling: Money, actual: Money)
    ensures ReservationAt(budgets, month, key).None? ==>
              var reserved := WithSlot(budgets, month, key, Reservation(ceiling, ceiling, false));
              && ReservationAt(reserved, month, key) == Some(Reservation(ceiling, ceiling, false))
              && WithSlot(reserved, month, key, Reservation(ceiling, actual, true))
                 == WithSlot(budgets, month, key, Reservation(ceiling, actual, true))
  {
    if ReservationAt(budgets, month, key).None? {
      var reserved := WithSlot(budgets, month, key, Reservation(ceiling, ceiling, false));
      var once, twice := WithSlot(budgets, month, key, Reservation(ceiling, actual, true)),
                         WithSlot(reserved, month, key, Reservation(ceiling, actual, true));
      assert twice[month].reservations == once[month].reservations;
      assert twice == once;
    }
  }

  /** The claim, its usage and its completion, one written over the other. */
  lemma AuditedDocs(docs: map<int, Ledger>, w: Worker, x: Input)
    ensures Get(docs, w.key.issue) == w.base ==>
              var ledger := WithClaim(w.base, w.key, ClaimEntry(w, x.now), w.month).(month := w.month);
              var used := WithClaim(Some(ledger), w.key, ledger.claims[w.key].(verdict := Some(x.verdict),
                                                                              cost := Some(x.cost)), w.month);
              var claim := used.claims[w.key].(state := Completed);
              && claim == Claim(Completed, w.month, x.now, w.lease, Some(x.verdict), Some(x.cost))
              && WithClaimAt(docs[w.key.issue := ledger][w.key.issue := used], w.key, claim, w.month, false)
                 == WithClaimAt(docs, w.key, claim, w.month, true)
  {
    if Get(docs, w.key.issue) == w.base {
      var ledger := WithClaim(w.base, w.key, ClaimEntry(w, x.now), w.month).(month := w.month);
      var used := WithClaim(Some(ledger), w.key, ledger.claims[w.key].(verdict := Some(x.verdict),
                                                                      cost := Some(x.cost)), w.month);
      var claim := used.claims[w.key].(state := Completed);
      var once, thrice := WithClaimAt(docs, w.key, claim, w.month, true),
        WithClaimAt(docs[w.key.issue := ledger][w.key.issue := used], w.key, claim, w.month, false);
      assert thrice[w.key.issue].claims == once[w.key.issue].claims;
      assert thrice == once;
    }
  }

  predicate CompletedIn(docs: map<int, Ledger>, key: Key) {
    ClaimAt(docs, key).Some? && ClaimAt(docs, key).value.state == Completed
  }

  /** One pass. `loaded`, `read` and `called` are what clock, evidence and auditor answer at those
      points. Whatever the outcome, the stores are those of a run of the protocol, so all that is
      proved of runs holds of them. */
  method RunExactHeadAudit(store: MemoryClaimStore, ghost id: int, key: Key, limits: Limits, ceiling: Money, lease: int,
                           loaded: Input, read: Input, called: Input) returns (outcome: Outcome, paid: bool)
    requires store.Valid() && id !in store.Now().workers && limits.monthlyHard <= store.cap
    modifies store
    ensures store.Valid() && old(store.events) <= store.events
    ensures Ended(store, id)
    ensures outcome.Audited? ==> paid && outcome.verdict == called.verdict
    ensures outcome.Audited? || outcome.FinishedWithoutCall? ==> CompletedIn(store.docs, key)
    ensures !store.shared ==>
              AloneDoes(old(store.docs), old(store.budgets), store, key, limits, ceiling, lease, loaded, read, called,
                        outcome, paid)
  {
    store.Record(Start(id, key, limits, ceiling, lease));
    store.OtherPasses(id);
    var base := Get(store.docs, key.issue);
    var claims := ClaimsOf(base);
    store.Record(Run(id, loaded));
    if key in claims && claims[key].state == Completed {
      return DuplicateCompleted, false;
    }
    if key in claims && Live(claims[key], loaded.now) {
      return DuplicateClaim, false;
    }
    outcome, paid := ReadHeldAndGoOn(store, id, Worker(key, limits, ceiling, lease, ReadHeld, base, 0), read, called);
  }
}
