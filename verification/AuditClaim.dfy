/** The exact-HEAD paid audit: a claim ledger per issue, a budget document per month, both
    compare-and-set, and any number of workers that may crash between any two store accesses. */
module AuditClaim {
  import opened Common
  import opened AuditLedger

  datatype Limits = Limits(perRunHard: Money, monthlyHard: Money, preflight: Money,
                           perRunSoft: Option<Money>, monthlySoft: Option<Money>)

  function Over(limit: Option<Money>, amount: Money): bool {
    limit.Some? && amount > limit.value
  }

  /** `AuditBudget.blocked_before_call` for a month that has already spent `spent`. */
  function BlockedBeforeCall(l: Limits, spent: Money, ceiling: Money): bool {
    || Over(l.perRunSoft, l.preflight) || Over(l.monthlySoft, spent + l.preflight)
    || l.preflight > l.perRunHard || spent + l.preflight > l.monthlyHard
    || Over(l.perRunSoft, ceiling) || Over(l.monthlySoft, spent + ceiling)
    || ceiling > l.perRunHard || spent + ceiling > l.monthlyHard
  }

  function Live(c: Claim, now: Time): bool {
    c.state == Claimed && c.lease > 0 && 0 <= now - c.claimedAt < c.lease
  }

  // ---- Documents ------------------------------------------------------------------------

  const EMPTY_BUDGET := Budget(0, map[])

  function BudgetOf(stored: Option<Budget>): Budget {
    if stored.Some? then stored.value else EMPTY_BUDGET
  }

  function Reserve(b: Budget, key: Key, ceiling: Money): Budget {
    Budget(b.spent + ceiling, b.reservations[key := Reservation(ceiling, ceiling, false)])
  }

  function Settle(b: Budget, key: Key, actual: Money): Budget
    requires key in b.reservations
  {
    var slot := b.reservations[key];
    Budget(b.spent + actual - slot.accounted, b.reservations[key := slot.(accounted := actual, settled := true)])
  }

  /** The ledger with one claim replaced; a new ledger starts in the pass's month. */
  function WithClaim(stored: Option<Ledger>, key: Key, c: Claim, month: Month): Ledger {
    var l := if stored.Some? then stored.value else Ledger(month, map[], map[]);
    l.(claims := l.claims[key := c])
  }

  // ---- Shared state and workers ----------------------------------------------------------

  /** The two stores, and the history the theorems speak of: paid calls per key, the pass whose
      claim write created a key, claim times used, and the month in which a key was completed. */
  datatype Shared = Shared(docs: map<int, Ledger>, budgets: map<Month, Budget>,
                           calls: multiset<Key>, owner: map<Key, int>, times: set<Time>, doneIn: map<Key, Month>)

  /** Where a pass stands; each constructor names the store access (or call) it makes next. */
  datatype Pc =
    | LoadLedger
    | ReadHeld
    | ReserveLoad(attempt: int)
    | ReserveSave(attempt: int, seen: Option<Budget>)
    | ClaimSave
    | CallAuditor
    | UsageSave(cost: Money, verdict: Verdict)
    | SettleLoad(attempt: int, actual: Money, after: Claim)
    | SettleSave(attempt: int, actual: Money, after: Claim, doc: Budget)
    | FinalSave(after: Claim)
    | Stopped

  /** One pass of `run_exact_head_audit`; `base` is the ledger it last loaded or saved. */
  datatype Worker = Worker(key: Key, limits: Limits, ceiling: Money, lease: int, pc: Pc, base: Option<Ledger>,
      month: Month)

  /** What the outside decides during one step: clock, month, evidence and key checks, call result. */
  datatype Input = Input(now: Time, month: Month, evidenceBlocked: bool, ready: bool, cost: Money, verdict: Verdict)

  /** `adopting`: the store adopts equal bytes; `distinctTimes`: no two claim writes read the same
      clock value; `exclusive`: a pass starts only when all earlier ones for its key have ended;
      `sameMonth`: no pass reads the budget of another month than the one that holds its key's
      reservation; `cap` bounds every worker's monthly hard limit. */
  datatype Config = Config(adopting: bool, distinctTimes: bool, exclusive: bool, sameMonth: bool, cap: Money)

  datatype Move = Move(shared: Shared, worker: Worker)

  /** What a pass that found its key's claim not completed and not live does with the month's budget. */
  function Recover(w: Worker, held: Reservation, now: Time): Worker {
    var claims := ClaimsOf(w.base);
    var claimedAt := if w.key in claims then claims[w.key].claimedAt else now;
    var verdict := if w.key in claims && claims[w.key].verdict.Some? then claims[w.key].verdict.value
        else HumanRequired;
    if held.settled then
      Finish(w, claimedAt, verdict, held.accounted)
    else if w.key in claims && claims[w.key].cost.Some? then
      Finish(w, claimedAt, verdict, claims[w.key].cost.value)
    else
      Finish(w, claimedAt, HumanRequired, if held.accounted != 0 then held.accounted else held.ceiling)
  }

  function Finish(w: Worker, claimedAt: Time, verdict: Verdict, actual: Money): Worker {
    w.(pc := SettleLoad(0, actual, Claim(Completed, w.month, claimedAt, w.lease, Some(verdict), Some(actual))))
  }

  function Reconciled(c: Claim): Claim {
    c.(state := Completed, verdict := Some(HumanRequired), cost := Some(0))
  }

  function DoLoadLedger(s: Shared, w: Worker, x: Input): Worker {
    var base := Get(s.docs, w.key.issue);
    var claims := ClaimsOf(base);
    if w.key in claims && (claims[w.key].state == Completed || Live(claims[w.key], x.now)) then w.(pc := Stopped)
    else w.(pc := ReadHeld, base := base)
  }

  /** The key has a reservation in another month. */
  predicate HeldElsewhere(budgets: map<Month, Budget>, key: Key, month: Month) {
    exists m | m in budgets :: m != month && key in budgets[m].reservations
  }

  function DoReadHeld(s: Shared, w: Worker, x: Input): Worker {
    if x.evidenceBlocked then w.(pc := Stopped)
    else
      var v := w.(month := x.month);
      var reservations := BudgetOf(Get(s.budgets, x.month)).reservations;
      if w.key in reservations then Recover(v, reservations[w.key], x.now)
      else if w.key in ClaimsOf(w.base) then v.(pc := FinalSave(Reconciled(ClaimsOf(w.base)[w.key])))
      else v.(pc := if x.ready then ReserveLoad(0) else Stopped)
  }

  function DoReserveLoad(s: Shared, w: Worker, attempt: int): Worker {
    var b := BudgetOf(Get(s.budgets, w.month));
    if w.key in b.reservations || BlockedBeforeCall(w.limits, b.spent, w.ceiling) then w.(pc := Stopped)
    else w.(pc := ReserveSave(attempt, Get(s.budgets, w.month)))
  }

  function DoReserveSave(cfg: Config, s: Shared, w: Worker, attempt: int, seen: Option<Budget>): Move {
    var intended := Reserve(BudgetOf(seen), w.key, w.ceiling);
    match Cas(cfg.adopting, Get(s.budgets, w.month), seen, intended)
    case Written => Move(s.(budgets := s.budgets[w.month := intended]), w.(pc := ClaimSave))
    case Adopted => Move(s, w.(pc := ClaimSave))
    case Conflict => Move(s, w.(pc := if attempt == 0 then ReserveLoad(1) else Stopped))
  }

  function ClaimEntry(w: Worker, now: Time): Claim {
    Claim(Claimed, w.month, now, w.lease, None, None)
  }

  function DoClaimSave(cfg: Config, s: Shared, id: int, w: Worker, now: Time): Move {
    var intended := WithClaim(w.base, w.key, ClaimEntry(w, now), w.month).(month := w.month);
    match Cas(cfg.adopting, Get(s.docs, w.key.issue), w.base, intended)
    case Written =>
        Move(s.(docs := s.docs[w.key.issue := intended], owner := s.owner[w.key := id], times := s.times + {now}),
                         w.(pc := CallAuditor, base := Some(intended)))
    case Adopted => Move(s.(times := s.times + {now}), w.(pc := CallAuditor, base := Some(intended)))
    case Conflict => Move(s.(times := s.times + {now}), w.(pc := Stopped))
  }

  function DoUsageSave(cfg: Config, s: Shared, w: Worker, cost: Money, verdict: Verdict): Move {
    if w.key !in ClaimsOf(w.base) then Move(s, w.(pc := Stopped))
    else
      var used := ClaimsOf(w.base)[w.key].(verdict := Some(verdict), cost := Some(cost));
      var intended := WithClaim(w.base, w.key, used, w.month);
      var settling := w.(pc := SettleLoad(0, cost, used.(state := Completed)), base := Some(intended));
      match Cas(cfg.adopting, Get(s.docs, w.key.issue), w.base, intended)
      case Written => Move(s.(docs := s.docs[w.key.issue := intended]), settling)
      case Adopted => Move(s, settling)
      case Conflict => Move(s, w.(pc := Stopped))
  }

  function DoSettleLoad(s: Shared, w: Worker, attempt: int, actual: Money, after: Claim): Worker {
    var b := BudgetOf(Get(s.budgets, w.month));
    if w.key !in b.reservations then w.(pc := Stopped)
    else if b.reservations[w.key].settled then w.(pc := FinalSave(after))
    else w.(pc := SettleSave(attempt, actual, after, b))
  }

  function DoSettleSave(cfg: Config, s: Shared, w: Worker, attempt: int, actual: Money, after: Claim,
      doc: Budget): Move {
    if w.key !in doc.reservations then Move(s, w.(pc := Stopped))
    else
      var intended := Settle(doc, w.key, actual);
      match Cas(cfg.adopting, Get(s.budgets, w.month), Some(doc), intended)
      case Written => Move(s.(budgets := s.budgets[w.month := intended]), w.(pc := FinalSave(after)))
      case Adopted => Move(s, w.(pc := FinalSave(after)))
      case Conflict => Move(s, w.(pc := if attempt == 0 then SettleLoad(1, actual, after) else Stopped))
  }

  function DoFinalSave(cfg: Config, s: Shared, w: Worker, after: Claim): Move {
    var intended := WithClaim(w.base, w.key, after, w.month);
    match Cas(cfg.adopting, Get(s.docs, w.key.issue), w.base, intended)
    case Written =>
        Move(s.(docs := s.docs[w.key.issue := intended], doneIn := s.doneIn[w.key := w.month]), w.(pc := Stopped))
    case Adopted => Move(s, w.(pc := Stopped))
    case Conflict => Move(s, w.(pc := Stopped))
  }

  /** One step of a pass: at most one store access, or the paid call. */
  function Step(cfg: Config, s: Shared, id: int, w: Worker, x: Input): Move {
    match w.pc
    case LoadLedger => Move(s, DoLoadLedger(s, w, x))
    case ReadHeld => if cfg.sameMonth && HeldElsewhere(s.budgets, w.key, x.month) then Move(s, w)
        else Move(s, DoReadHeld(s, w, x))
    case ReserveLoad(attempt) => Move(s, DoReserveLoad(s, w, attempt))
    case ReserveSave(attempt, seen) => DoReserveSave(cfg, s, w, attempt, seen)
    case ClaimSave => if cfg.distinctTimes && x.now in s.times then Move(s, w) else DoClaimSave(cfg, s, id, w, x.now)
    case CallAuditor => Move(s.(calls := s.calls + multiset{w.key}), w.(pc := UsageSave(x.cost, x.verdict)))
    case UsageSave(cost, verdict) => DoUsageSave(cfg, s, w, cost, verdict)
    case SettleLoad(attempt, actual, after) => Move(s, DoSettleLoad(s, w, attempt, actual, after))
    case SettleSave(attempt, actual, after, doc) => DoSettleSave(cfg, s, w, attempt, actual, after, doc)
    case FinalSave(after) => DoFinalSave(cfg, s, w, after)
    case Stopped => Move(s, w)
  }

  // ---- Runs -----------------------------------------------------------------------------

  datatype Event = Start(id: int, key: Key, limits: Limits, ceiling: Money, lease: int)
                 | Run(id: int, x: Input)
                 | Crash(id: int)

  datatype System = System(shared: Shared, workers: map<int, Worker>)

  const INITIAL := System(Shared(map[], map[], multiset{}, map[], {}, map[]), map[])

  predicate NoneRuns(workers: map<int, Worker>, key: Key) {
    forall id | id in workers && workers[id].key == key :: workers[id].pc.Stopped?
  }

  function Next(cfg: Config, sys: System, e: Event): System {
    match e
    case Start(id, key, limits, ceiling, lease) =>
      if id in sys.workers || limits.monthlyHard > cfg.cap || (cfg.exclusive && !NoneRuns(sys.workers, key)) then sys
      else sys.(workers := sys.workers[id := Worker(key, limits, ceiling, lease, LoadLedger, None, 0)])
    case Run(id, x) =>
      if id !in sys.workers then sys
      else var m := Step(cfg, sys.shared, id, sys.workers[id], x); System(m.shared, sys.workers[id := m.worker])
    case Crash(id) =>
      if id !in sys.workers then sys else sys.(workers := sys.workers[id := sys.workers[id].(pc := Stopped)])
  }

  /** The state after a sequence of events: every interleaving, crash and clock reading. */
  function Exec(cfg: Config, events: seq<Event>): System {
    if events == [] then INITIAL
    else Next(cfg, Exec(cfg, events[..|events| - 1]), events[|events| - 1])
  }
}
