/** At-most-once payment, write-once verdicts and the money invariants, over every run. */
module AuditSafety {
  import opened Common
  import opened AuditLedger
  import opened AuditClaim

  function ClaimAt(docs: map<int, Ledger>, k: Key): Option<Claim> {
    Get(ClaimsOf(Get(docs, k.issue)), k)
  }

  function ReservationAt(budgets: map<Month, Budget>, m: Month, k: Key): Option<Reservation> {
    Get(BudgetOf(Get(budgets, m)).reservations, k)
  }

  function DispositionAt(docs: map<int, Ledger>, k: Key): Option<Disposition> {
    if k.issue in docs then Get(docs[k.issue].dispositions, k) else None
  }

  // ---- What no step ever undoes ---------------------------------------------------------

  ghost predicate ClaimKept(a: Option<Claim>, b: Option<Claim>) {
    a.Some? ==> b.Some? && (a.value.state == Completed ==> b == a)
  }

  ghost predicate ReservationKept(a: Option<Reservation>, b: Option<Reservation>) {
    a.Some? ==> b.Some? && b.value.ceiling == a.value.ceiling && (a.value.settled ==> b == a)
  }

  /** Keys are never dropped, completed claims and settled reservations never change, ceilings and
      dispositions never change, paid calls are never forgotten. */
  ghost predicate Grows(a: Shared, b: Shared) {
    && (forall k :: ClaimKept(ClaimAt(a.docs, k), ClaimAt(b.docs, k)))
    && (forall m, k :: ReservationKept(ReservationAt(a.budgets, m, k), ReservationAt(b.budgets, m, k)))
    && (forall k :: DispositionAt(b.docs, k) == DispositionAt(a.docs, k))
    && (forall k :: a.calls[k] <= b.calls[k])
  }

  /** A step of worker `id` leaves the calls for keys that another worker claimed alone. */
  ghost predicate RespectsOwners(id: int, a: Shared, b: Shared) {
    forall k :: k in a.owner ==> Get(b.owner, k) == Some(a.owner[k]) && (a.owner[k] != id ==> b.calls[k] == a.calls[k])
  }

  lemma ReplaceClaim(s: Shared, t: Shared, key: Key, base: Option<Ledger>, intended: Ledger, c: Claim)
    requires Get(s.docs, key.issue) == base && t.docs == s.docs[key.issue := intended]
    requires intended.claims == ClaimsOf(base)[key := c]
    requires intended.dispositions == if base.Some? then base.value.dispositions else map[]
    ensures forall k :: ClaimAt(t.docs, k) == if k == key then Some(c) else ClaimAt(s.docs, k)
    ensures forall k :: DispositionAt(t.docs, k) == DispositionAt(s.docs, k)
  {
  }

  lemma ReplaceReservation(s: Shared, t: Shared, m: Month, intended: Budget, key: Key, r: Reservation)
    requires t.budgets == s.budgets[m := intended]
    requires intended.reservations == BudgetOf(Get(s.budgets, m)).reservations[key := r]
    ensures forall n, k :: ReservationAt(t.budgets, n, k) == if n == m && k == key then Some(r)
      else ReservationAt(s.budgets, n, k)
  {
  }

  // ---- Invariant of one worker relative to the shared state -------------------------------

  ghost predicate Absent(w: Worker) {
    w.key !in ClaimsOf(w.base)
  }

  ghost predicate Open(w: Worker) {
    w.key in ClaimsOf(w.base) ==> ClaimsOf(w.base)[w.key].state == Claimed
  }

  predicate AwaitsResult(c: Option<Claim>) {
    c.Some? && c.value.state == Claimed && c.value.cost.None?
  }

  ghost predicate WorkerOk(cap: Money, w: Worker) {
    match w.pc
    case LoadLedger => w.limits.monthlyHard <= cap
    case ReadHeld => Open(w) && w.limits.monthlyHard <= cap
    case ReserveLoad(_) => Absent(w) && w.limits.monthlyHard <= cap
    case ReserveSave(_, seen) => Absent(w) && w.limits.monthlyHard <= cap && w.key !in BudgetOf(seen).reservations
                                 && !BlockedBeforeCall(w.limits, BudgetOf(seen).spent, w.ceiling)
    case ClaimSave => Absent(w)
    case CallAuditor => AwaitsResult(Get(ClaimsOf(w.base), w.key))
    case UsageSave(_, _) => AwaitsResult(Get(ClaimsOf(w.base), w.key))
    case SettleLoad(_, _, after) => Open(w) && after.state == Completed && after.cost.Some?
    case SettleSave(_, _, after, doc) =>
        Open(w) && after.state == Completed && after.cost.Some? && w.key in doc.reservations
                                         && !doc.reservations[w.key].settled
    case FinalSave(after) => Open(w) && after.state == Completed && after.cost.Some?
    case Stopped => true
  }

  /** Storing a ledger with one claim replaced, when the stored ledger is the one it was made from. */
  lemma LedgerWriteGrows(s: Shared, t: Shared, w: Worker, c: Claim, intended: Ledger)
    requires Open(w) && Get(s.docs, w.key.issue) == w.base
    requires intended == WithClaim(w.base, w.key, c, w.month).(month := intended.month)
    requires t.docs == s.docs[w.key.issue := intended] && t.budgets == s.budgets && t.calls == s.calls
    ensures Grows(s, t) && ClaimAt(t.docs, w.key) == Some(c)
    ensures forall k :: k != w.key ==> ClaimAt(t.docs, k) == ClaimAt(s.docs, k)
  {
    ReplaceClaim(s, t, w.key, w.base, intended, c);
  }

  lemma BudgetWriteGrows(s: Shared, t: Shared, w: Worker, r: Reservation, intended: Budget)
    requires intended.reservations == BudgetOf(Get(s.budgets, w.month)).reservations[w.key := r]
    requires t.budgets == s.budgets[w.month := intended] && t.docs == s.docs && t.calls == s.calls
    requires ReservationKept(ReservationAt(s.budgets, w.month, w.key), Some(r))
    ensures Grows(s, t) && ReservationAt(t.budgets, w.month, w.key) == Some(r)
    ensures forall m, k ::
        m != w.month || k != w.key ==> ReservationAt(t.budgets, m, k) == ReservationAt(s.budgets, m, k)
  {
    ReplaceReservation(s, t, w.month, intended, w.key, r);
  }

  ghost predicate Good(cap: Money, s: Shared, m: Move) {
    Grows(s, m.shared) && WorkerOk(cap, m.worker)
  }

  lemma ReserveSaveGood(cfg: Config, s: Shared, w: Worker, attempt: int, seen: Option<Budget>)
    requires w.pc == ReserveSave(attempt, seen) && WorkerOk(cfg.cap, w)
    ensures Good(cfg.cap, s, DoReserveSave(cfg, s, w, attempt, seen))
  {
    var t := DoReserveSave(cfg, s, w, attempt, seen).shared;
    if t != s {
      BudgetWriteGrows(s, t, w, Reservation(w.ceiling, w.ceiling, false), t.budgets[w.month]);
    }
  }

  lemma SettleSaveGood(cfg: Config, s: Shared, w: Worker, attempt: int, actual: Money, after: Claim, doc: Budget)
    requires w.pc == SettleSave(attempt, actual, after, doc) && WorkerOk(cfg.cap, w)
    ensures Good(cfg.cap, s, DoSettleSave(cfg, s, w, attempt, actual, after, doc))
  {
    var t := DoSettleSave(cfg, s, w, attempt, actual, after, doc).shared;
    if t != s {
      BudgetWriteGrows(s, t, w, t.budgets[w.month].reservations[w.key], t.budgets[w.month]);
    }
  }

  lemma ClaimSaveGood(cfg: Config, s: Shared, id: int, w: Worker, now: Time)
    requires w.pc == ClaimSave && WorkerOk(cfg.cap, w)
    ensures Good(cfg.cap, s, DoClaimSave(cfg, s, id, w, now))
  {
    var t := DoClaimSave(cfg, s, id, w, now).shared;
    if t.docs != s.docs {
      LedgerWriteGrows(s, t, w, ClaimEntry(w, now), t.docs[w.key.issue]);
    }
  }

  lemma UsageSaveGood(cfg: Config, s: Shared, w: Worker, cost: Money, verdict: Verdict)
    requires w.pc == UsageSave(cost, verdict) && WorkerOk(cfg.cap, w)
    ensures Good(cfg.cap, s, DoUsageSave(cfg, s, w, cost, verdict))
  {
    var t := DoUsageSave(cfg, s, w, cost, verdict).shared;
    if t.docs != s.docs {
      LedgerWriteGrows(s, t, w, t.docs[w.key.issue].claims[w.key], t.docs[w.key.issue]);
    }
  }

  lemma FinalSaveGood(cfg: Config, s: Shared, w: Worker, after: Claim)
    requires w.pc == FinalSave(after) && WorkerOk(cfg.cap, w)
    ensures Good(cfg.cap, s, DoFinalSave(cfg, s, w, after))
  {
    var t := DoFinalSave(cfg, s, w, after).shared;
    if t.docs != s.docs {
      LedgerWriteGrows(s, t, w, after, t.docs[w.key.issue]);
    }
  }

  lemma ReadingIsGood(cfg: Config, s: Shared, id: int, w: Worker, x: Input)
    requires WorkerOk(cfg.cap, w)
    requires !w.pc.ReserveSave? && !w.pc.SettleSave? && !w.pc.ClaimSave? && !w.pc.UsageSave? && !w.pc.FinalSave?
    ensures Good(cfg.cap, s, Step(cfg, s, id, w, x))
  {
  }

  /** No step of any worker drops a key or changes what is final. */
  lemma StepGood(cfg: Config, s: Shared, id: int, w: Worker, x: Input)
    requires WorkerOk(cfg.cap, w)
    ensures Good(cfg.cap, s, Step(cfg, s, id, w, x))
  {
    match w.pc
    case ReserveSave(attempt, seen) => ReserveSaveGood(cfg, s, w, attempt, seen);
    case ClaimSave => ClaimSaveGood(cfg, s, id, w, x.now);
    case UsageSave(cost, verdict) => UsageSaveGood(cfg, s, w, cost, verdict);
    case SettleSave(attempt, actual, after, doc) => SettleSaveGood(cfg, s, w, attempt, actual, after, doc);
    case FinalSave(after) => FinalSaveGood(cfg, s, w, after);
    case _ => ReadingIsGood(cfg, s, id, w, x);
  }

  // ---- At most one paid call per key ------------------------------------------------------

  /** A claim written before its call and not yet given a result was claimed at a used time. */
  ghost predicate TimesRecorded(s: Shared) {
    forall k :: AwaitsResult(ClaimAt(s.docs, k)) ==> ClaimAt(s.docs, k).value.claimedAt in s.times
  }

  ghost predicate CallsOk(s: Shared) {
    && (forall k :: k in s.owner ==> ClaimAt(s.docs, k).Some?)
    && (forall k :: s.calls[k] <= 1 && (s.calls[k] > 0 ==> k in s.owner))
    && TimesRecorded(s)
  }

  /** A worker about to call the auditor created its key's claim, and nobody has called for it. */
  ghost predicate MayCall(s: Shared, id: int, w: Worker) {
    w.pc.CallAuditor? ==> Get(s.owner, w.key) == Some(id) && s.calls[w.key] == 0
  }

  ghost predicate CallGood(s: Shared, id: int, m: Move) {
    CallsOk(m.shared) && MayCall(m.shared, id, m.worker) && RespectsOwners(id, s, m.shared)
  }

  /** The claim write of this pass cannot be mistaken for another pass's. */
  ghost predicate ClaimIsOwn(cfg: Config, s: Shared, w: Worker) {
    !cfg.adopting || cfg.distinctTimes || (w.pc.ClaimSave? ==> ClaimAt(s.docs, w.key).None?)
  }

  lemma CreateClaim(s: Shared, t: Shared, id: int, w: Worker, now: Time, intended: Ledger)
    requires Absent(w) && Get(s.docs, w.key.issue) == w.base && CallsOk(s)
    requires intended == WithClaim(w.base, w.key, ClaimEntry(w, now), w.month).(month := w.month)
    requires t == s.(docs := s.docs[w.key.issue := intended], owner := s.owner[w.key := id], times := s.times + {now})
    ensures CallsOk(t) && RespectsOwners(id, s, t) && t.calls[w.key] == 0
  {
    LedgerWriteGrows(s, t, w, ClaimEntry(w, now), intended);
    assert ClaimAt(s.docs, w.key).None?;
    CreatedCallsOk(s, t, id, w.key, ClaimEntry(w, now));
  }

  lemma CreatedCallsOk(s: Shared, t: Shared, id: int, key: Key, c: Claim)
    requires CallsOk(s) && ClaimAt(s.docs, key).None? && ClaimAt(t.docs, key) == Some(c) && c.claimedAt in t.times
    requires forall k :: k != key ==> ClaimAt(t.docs, k) == ClaimAt(s.docs, k)
    requires t.calls == s.calls && t.owner == s.owner[key := id] && s.times <= t.times
    ensures CallsOk(t) && RespectsOwners(id, s, t) && t.calls[key] == 0
  {
    assert TimesRecorded(t) by {
      forall k | AwaitsResult(ClaimAt(t.docs, k)) ensures ClaimAt(t.docs, k).value.claimedAt in t.times {
        assert k != key ==> ClaimAt(s.docs, k).value.claimedAt in s.times;
      }
    }
    CreatedOwners(s, t, id, key);
  }

  lemma CreatedOwners(s: Shared, t: Shared, id: int, key: Key)
    requires (forall k :: k in s.owner ==> ClaimAt(s.docs, k).Some?) && ClaimAt(s.docs, key).None?
    requires forall k :: s.calls[k] > 0 ==> k in s.owner
    requires t.calls == s.calls && t.owner == s.owner[key := id]
    ensures RespectsOwners(id, s, t) && t.calls[key] == 0 && t.owner.Keys == s.owner.Keys + {key}
  {
    assert key !in s.owner;
  }

  /** With distinct claim times the ledger cannot already hold the bytes of this claim write. */
  lemma NothingToAdopt(s: Shared, w: Worker, now: Time, intended: Ledger)
    requires TimesRecorded(s) && now !in s.times
    requires intended == WithClaim(w.base, w.key, ClaimEntry(w, now), w.month).(month := w.month)
    ensures Get(s.docs, w.key.issue) != Some(intended)
  {
    assert AwaitsResult(Some(ClaimEntry(w, now)));
    assert Get(s.docs, w.key.issue) == Some(intended) ==> ClaimAt(s.docs, w.key) == Some(ClaimEntry(w, now));
  }

  lemma MoreTimes(s: Shared, t: Shared, id: int)
    requires CallsOk(s) && t == s.(times := t.times) && s.times <= t.times
    ensures CallsOk(t) && RespectsOwners(id, s, t)
  {
  }

  lemma ClaimSaveCalls(cfg: Config, s: Shared, id: int, w: Worker, now: Time)
    requires w.pc == ClaimSave && WorkerOk(cfg.cap, w) && CallsOk(s)
    requires !cfg.adopting || now !in s.times || ClaimAt(s.docs, w.key).None?
    ensures CallGood(s, id, DoClaimSave(cfg, s, id, w, now))
  {
    var m := DoClaimSave(cfg, s, id, w, now);
    var intended := WithClaim(w.base, w.key, ClaimEntry(w, now), w.month).(month := w.month);
    if Get(s.docs, w.key.issue) == w.base {
      CreateClaim(s, m.shared, id, w, now, intended);
    } else {
      if cfg.adopting && now !in s.times {
        NothingToAdopt(s, w, now, intended);
      }
      MoreTimes(s, m.shared, id);
    }
  }

  lemma AuditorCalls(s: Shared, id: int, w: Worker)
    requires w.pc.CallAuditor? && CallsOk(s) && MayCall(s, id, w)
    ensures CallsOk(s.(calls := s.calls + multiset{w.key}))
      && RespectsOwners(id, s, s.(calls := s.calls + multiset{w.key}))
  {
  }

  lemma BudgetWriteCalls(s: Shared, t: Shared, id: int)
    requires CallsOk(s) && t == s.(budgets := t.budgets)
    ensures CallsOk(t) && RespectsOwners(id, s, t)
  {
  }

  /** A ledger write that gives a claim its result, or completes it, cannot add a paid call. */
  lemma ResultWriteCalls(s: Shared, t: Shared, id: int, w: Worker, c: Claim, intended: Ledger)
    requires Open(w) && CallsOk(s) && Get(s.docs, w.key.issue) == w.base && c.cost.Some?
    requires intended == WithClaim(w.base, w.key, c, w.month)
    requires t == s.(docs := s.docs[w.key.issue := intended], doneIn := t.doneIn)
    ensures CallsOk(t) && RespectsOwners(id, s, t)
  {
    LedgerWriteGrows(s, t, w, c, intended);
  }

  lemma UsageSaveCalls(cfg: Config, s: Shared, id: int, w: Worker, cost: Money, verdict: Verdict)
    requires w.pc == UsageSave(cost, verdict) && WorkerOk(cfg.cap, w) && CallsOk(s)
    ensures CallGood(s, id, DoUsageSave(cfg, s, w, cost, verdict))
  {
    var t := DoUsageSave(cfg, s, w, cost, verdict).shared;
    if t.docs != s.docs {
      ResultWriteCalls(s, t, id, w, t.docs[w.key.issue].claims[w.key], t.docs[w.key.issue]);
    }
  }

  lemma FinalSaveCalls(cfg: Config, s: Shared, id: int, w: Worker, after: Claim)
    requires w.pc == FinalSave(after) && WorkerOk(cfg.cap, w) && CallsOk(s)
    ensures CallGood(s, id, DoFinalSave(cfg, s, w, after))
  {
    var t := DoFinalSave(cfg, s, w, after).shared;
    if t.docs != s.docs {
      ResultWriteCalls(s, t, id, w, after, t.docs[w.key.issue]);
    }
  }

  lemma BudgetStepCalls(cfg: Config, s: Shared, id: int, w: Worker, x: Input)
    requires w.pc.ReserveSave? || w.pc.SettleSave?
    requires CallsOk(s)
    ensures CallGood(s, id, Step(cfg, s, id, w, x))
  {
    BudgetStepOnly(cfg, s, id, w, x);
    BudgetWriteCalls(s, Step(cfg, s, id, w, x).shared, id);
  }

  lemma BudgetStepOnly(cfg: Config, s: Shared, id: int, w: Worker, x: Input)
    requires w.pc.ReserveSave? || w.pc.SettleSave?
    ensures Step(cfg, s, id, w, x).shared == s.(budgets := Step(cfg, s, id, w, x).shared.budgets)
    ensures !Step(cfg, s, id, w, x).worker.pc.CallAuditor?
  {
  }

  lemma ReadingCalls(cfg: Config, s: Shared, id: int, w: Worker, x: Input)
    requires w.pc.LoadLedger? || w.pc.ReadHeld? || w.pc.ReserveLoad? || w.pc.SettleLoad? || w.pc.Stopped?
    requires CallsOk(s)
    ensures CallGood(s, id, Step(cfg, s, id, w, x))
  {
    ReadingOnly(cfg, s, id, w, x);
  }

  lemma ReadingOnly(cfg: Config, s: Shared, id: int, w: Worker, x: Input)
    requires w.pc.LoadLedger? || w.pc.ReadHeld? || w.pc.ReserveLoad? || w.pc.SettleLoad? || w.pc.Stopped?
    ensures Step(cfg, s, id, w, x).shared == s && !Step(cfg, s, id, w, x).worker.pc.CallAuditor?
  {
  }

  lemma StepCalls(cfg: Config, s: Shared, id: int, w: Worker, x: Input)
    requires ClaimIsOwn(cfg, s, w) && WorkerOk(cfg.cap, w) && CallsOk(s) && MayCall(s, id, w)
    ensures CallGood(s, id, Step(cfg, s, id, w, x))
  {
    match w.pc
    case ClaimSave =>
      if !(cfg.distinctTimes && x.now in s.times) {
        ClaimSaveCalls(cfg, s, id, w, x.now);
      }
    case UsageSave(cost, verdict) => UsageSaveCalls(cfg, s, id, w, cost, verdict);
    case FinalSave(after) => FinalSaveCalls(cfg, s, id, w, after);
    case CallAuditor => AuditorCalls(s, id, w);
    case ReserveSave(_, _) => BudgetStepCalls(cfg, s, id, w, x);
    case SettleSave(_, _, _, _) => BudgetStepCalls(cfg, s, id, w, x);
    case _ => ReadingCalls(cfg, s, id, w, x);
  }
}
