/** Exactly which deployments pay at most once, and exactly which agree with their accounts. */
module AuditExact {
  import opened Common
  import opened AuditLedger
  import opened AuditClaim
  import opened AuditSafety
  import opened AuditRuns

  // ---- One pass per key -------------------------------------------------------------------

  /** With no other pass for its key running, what a pass knows about its key in the stores is still so. */
  ghost predicate Alone(s: Shared, w: Worker) {
    match w.pc
    case LoadLedger => true
    case Stopped => true
    case ReadHeld => Current(s, w)
    case ReserveLoad(_) => Current(s, w) && Slot(s, w).None?
    case ReserveSave(_, _) => Current(s, w) && Slot(s, w).None?
    case ClaimSave => Current(s, w) && Unsettled(Slot(s, w))
    case CallAuditor => Current(s, w) && Unsettled(Slot(s, w))
    case UsageSave(_, _) => Current(s, w) && Unsettled(Slot(s, w))
    case SettleLoad(_, actual, after) => Current(s, w) && after.cost == Some(actual) && Slot(s, w).Some?
                                         && (Slot(s, w).value.settled ==> Slot(s, w).value.accounted == actual)
    case SettleSave(_, actual, after, doc) =>
        Current(s, w) && after.cost == Some(actual) && Slot(s, w) == Get(doc.reservations, w.key)
    case FinalSave(after) => Current(s, w) && Agree(after, Slot(s, w))
  }

  /** The key's claim in the ledger the pass holds is the stored one; other keys may have moved on. */
  predicate Current(s: Shared, w: Worker) {
    ClaimAt(s.docs, w.key) == Get(ClaimsOf(w.base), w.key)
  }

  function Slot(s: Shared, w: Worker): Option<Reservation> {
    ReservationAt(s.budgets, w.month, w.key)
  }

  predicate Unsettled(r: Option<Reservation>) {
    r.Some? && !r.value.settled
  }

  /** A completed claim's recorded cost is what its settled reservation accounts for. */
  predicate Agree(c: Claim, r: Option<Reservation>) {
    c.state == Completed && c.cost.Some? && (r.Some? ==> r.value.settled && r.value.accounted == c.cost.value)
  }

  /** For every key, in the month in which it was completed. */
  ghost predicate Agreement(s: Shared) {
    forall k :: k in s.doneIn
        ==> ClaimAt(s.docs, k).Some? && Agree(ClaimAt(s.docs, k).value, ReservationAt(s.budgets, s.doneIn[k], k))
  }

  ghost predicate AloneGood(s: Shared, m: Move) {
    Agreement(m.shared) && Alone(m.shared, m.worker)
  }

  lemma ReadingAlone(cfg: Config, s: Shared, id: int, w: Worker, x: Input)
    requires w.pc.LoadLedger? || w.pc.ReadHeld? || w.pc.ReserveLoad? || w.pc.CallAuditor? || w.pc.SettleLoad?
      || w.pc.Stopped?
    requires WorkerOk(cfg.cap, w) && Agreement(s) && Alone(s, w)
    ensures AloneGood(s, Step(cfg, s, id, w, x))
  {
  }

  lemma NotYetDone(s: Shared, w: Worker)
    requires Agreement(s) && Open(w) && Current(s, w)
    ensures w.key !in s.doneIn
  {
  }

  lemma ReserveSaveAlone(cfg: Config, s: Shared, w: Worker, attempt: int, seen: Option<Budget>)
    requires w.pc == ReserveSave(attempt, seen) && WorkerOk(cfg.cap, w) && Agreement(s) && Alone(s, w)
    ensures AloneGood(s, DoReserveSave(cfg, s, w, attempt, seen))
  {
    var t := DoReserveSave(cfg, s, w, attempt, seen).shared;
    if t != s {
      BudgetWriteGrows(s, t, w, Reservation(w.ceiling, w.ceiling, false), t.budgets[w.month]);
      NotYetDone(s, w);
    }
  }

  lemma SettleSaveAlone(cfg: Config, s: Shared, w: Worker, attempt: int, actual: Money, after: Claim, doc: Budget)
    requires w.pc == SettleSave(attempt, actual, after, doc) && WorkerOk(cfg.cap, w) && Agreement(s) && Alone(s, w)
    ensures AloneGood(s, DoSettleSave(cfg, s, w, attempt, actual, after, doc))
  {
    var t := DoSettleSave(cfg, s, w, attempt, actual, after, doc).shared;
    if t != s {
      BudgetWriteGrows(s, t, w, t.budgets[w.month].reservations[w.key], t.budgets[w.month]);
      NotYetDone(s, w);
    }
  }

  /** Nothing of the key has changed. */
  ghost predicate KeyKept(s: Shared, t: Shared, k: Key) {
    && ClaimAt(t.docs, k) == ClaimAt(s.docs, k) && Get(t.doneIn, k) == Get(s.doneIn, k)
    && (forall m :: ReservationAt(t.budgets, m, k) == ReservationAt(s.budgets, m, k))
  }

  /** The step stored the ledger the pass holds, with the key's claim replaced. */
  predicate LedgerWritten(s: Shared, t: Shared, w: Worker) {
    && Get(s.docs, w.key.issue) == w.base && w.key.issue in t.docs && w.key in t.docs[w.key.issue].claims
    && (var intended := t.docs[w.key.issue];
        && t.docs == s.docs[w.key.issue := intended]
        && intended
           == WithClaim(w.base, w.key, intended.claims[w.key], w.month).(month := intended.month))
    && t.budgets == s.budgets
    && (t.doneIn == s.doneIn || t.doneIn == s.doneIn[w.key := w.month])
  }

  predicate LedgerStep(s: Shared, t: Shared, w: Worker) {
    LedgerWritten(s, t, w) || (t.docs == s.docs && t.budgets == s.budgets && t.doneIn == s.doneIn)
  }

  lemma LedgerStepShape(cfg: Config, s: Shared, id: int, w: Worker, x: Input)
    requires w.pc.ClaimSave? || w.pc.UsageSave? || w.pc.FinalSave?
    ensures LedgerStep(s, Step(cfg, s, id, w, x).shared, w)
  {
  }

  lemma WrittenKeepsOthers(s: Shared, t: Shared, w: Worker, k: Key)
    requires LedgerStep(s, t, w) && k != w.key
    ensures KeyKept(s, t, k)
  {
    if LedgerWritten(s, t, w) {
      ReplaceClaim(s, t, w.key, w.base, t.docs[w.key.issue], t.docs[w.key.issue].claims[w.key]);
    }
  }

  /** A ledger write for a key not yet completed keeps the others' agreement. */
  lemma WrittenAgrees(s: Shared, t: Shared, w: Worker)
    requires Agreement(s) && Open(w) && Current(s, w) && LedgerStep(s, t, w)
    requires w.key in t.doneIn ==>
               t.doneIn[w.key] == w.month && ClaimAt(t.docs, w.key).Some?
                 && Agree(ClaimAt(t.docs, w.key).value, Slot(s, w))
    ensures Agreement(t)
  {
    NotYetDone(s, w);
    forall k | k in t.doneIn && k != w.key
        ensures KeyKept(s, t, k) {
      WrittenKeepsOthers(s, t, w, k);
    }
  }

  lemma LedgerWriteAlone(cfg: Config, s: Shared, id: int, w: Worker, x: Input)
    requires w.pc.ClaimSave? || w.pc.UsageSave? || w.pc.FinalSave?
    requires WorkerOk(cfg.cap, w) && Agreement(s) && Alone(s, w)
    ensures AloneGood(s, Step(cfg, s, id, w, x))
  {
    NotYetDone(s, w);
    LedgerStepShape(cfg, s, id, w, x);
    LedgerWriterAlone(cfg, s, id, w, x);
    WrittenAgrees(s, Step(cfg, s, id, w, x).shared, w);
  }

  lemma LedgerWriterAlone(cfg: Config, s: Shared, id: int, w: Worker, x: Input)
    requires w.pc.ClaimSave? || w.pc.UsageSave? || w.pc.FinalSave?
    requires WorkerOk(cfg.cap, w) && Alone(s, w) && w.key !in s.doneIn
    ensures Alone(Step(cfg, s, id, w, x).shared, Step(cfg, s, id, w, x).worker)
    ensures var t := Step(cfg, s, id, w, x).shared;
            w.key in t.doneIn ==>
              t.doneIn[w.key] == w.month && ClaimAt(t.docs, w.key).Some?
                && Agree(ClaimAt(t.docs, w.key).value, Slot(s, w))
  {
  }

  lemma StepAlone(cfg: Config, s: Shared, id: int, w: Worker, x: Input)
    requires WorkerOk(cfg.cap, w) && Agreement(s) && Alone(s, w)
    ensures AloneGood(s, Step(cfg, s, id, w, x))
  {
    match w.pc
    case ReserveSave(attempt, seen) => ReserveSaveAlone(cfg, s, w, attempt, seen);
    case SettleSave(attempt, actual, after, doc) => SettleSaveAlone(cfg, s, w, attempt, actual, after, doc);
    case ClaimSave => LedgerWriteAlone(cfg, s, id, w, x);
    case UsageSave(_, _) => LedgerWriteAlone(cfg, s, id, w, x);
    case FinalSave(_) => LedgerWriteAlone(cfg, s, id, w, x);
    case _ => ReadingAlone(cfg, s, id, w, x);
  }

  ghost predicate OneRunning(sys: System) {
    forall i, j :: Running(sys.workers, i) && Running(sys.workers, j) && sys.workers[i].key == sys.workers[j].key
        ==> i == j
  }

  predicate Running(workers: map<int, Worker>, id: int) {
    id in workers && !workers[id].pc.Stopped?
  }

  lemma BudgetStepKeepsOthers(cfg: Config, s: Shared, id: int, w: Worker, x: Input, k: Key)
    requires w.pc.ReserveSave? || w.pc.SettleSave?
    requires k != w.key
    ensures KeyKept(s, Step(cfg, s, id, w, x).shared, k)
  {
    var t := Step(cfg, s, id, w, x).shared;
    BudgetStepOnly(cfg, s, id, w, x);
    if t.budgets != s.budgets {
      ReplaceReservation(s, t, w.month, t.budgets[w.month], w.key, t.budgets[w.month].reservations[w.key]);
    }
  }

  lemma RestKeepsDocuments(cfg: Config, s: Shared, id: int, w: Worker, x: Input)
    requires !w.pc.ClaimSave? && !w.pc.UsageSave? && !w.pc.FinalSave? && !w.pc.ReserveSave? && !w.pc.SettleSave?
    ensures Step(cfg, s, id, w, x).shared == s.(calls := Step(cfg, s, id, w, x).shared.calls)
  {
  }

  /** A pass changes only its own key's claim and reservations. */
  lemma StepKeepsOtherKeys(cfg: Config, s: Shared, id: int, w: Worker, x: Input, k: Key)
    requires WorkerOk(cfg.cap, w) && k != w.key
    ensures KeyKept(s, Step(cfg, s, id, w, x).shared, k)
  {
    if w.pc.ClaimSave? || w.pc.UsageSave? || w.pc.FinalSave? {
      LedgerStepShape(cfg, s, id, w, x);
      WrittenKeepsOthers(s, Step(cfg, s, id, w, x).shared, w, k);
    } else if w.pc.ReserveSave? || w.pc.SettleSave? {
      BudgetStepKeepsOthers(cfg, s, id, w, x, k);
    } else {
      RestKeepsDocuments(cfg, s, id, w, x);
    }
  }

  lemma KeptAlone(s: Shared, t: Shared, w: Worker)
    requires KeyKept(s, t, w.key) && Alone(s, w)
    ensures Alone(t, w)
  {
  }

  ghost predicate AloneInvariant(sys: System) {
    && OneRunning(sys) && Agreement(sys.shared)
    && (forall id :: id in sys.workers ==> Alone(sys.shared, sys.workers[id]))
    && CallInvariant(sys)
  }

  lemma NextKeepsAlone(cfg: Config, sys: System, e: Event)
    requires cfg.exclusive && Invariant(cfg, sys) && AloneInvariant(sys)
    ensures AloneInvariant(Next(cfg, sys, e))
  {
    if e.Run? && e.id in sys.workers {
      RunKeepsAlone(cfg, sys, e.id, e.x);
      RunKeepsCalls(cfg, sys, e.id, e.x);
    }
  }

  lemma RunKeepsAlone(cfg: Config, sys: System, id: int, x: Input)
    requires Invariant(cfg, sys) && OneRunning(sys) && Agreement(sys.shared) && id in sys.workers
    requires forall j :: j in sys.workers ==> Alone(sys.shared, sys.workers[j])
    ensures OneRunning(Next(cfg, sys, Run(id, x))) && Agreement(Next(cfg, sys, Run(id, x)).shared)
    ensures forall j ::
        j in sys.workers ==> Alone(Next(cfg, sys, Run(id, x)).shared, Next(cfg, sys, Run(id, x)).workers[j])
  {
    var w := sys.workers[id];
    var m := Step(cfg, sys.shared, id, w, x);
    StepAlone(cfg, sys.shared, id, w, x);
    StepKeepsKey(cfg, sys.shared, id, w, x);
    forall j | j in sys.workers && j != id ensures Alone(m.shared, sys.workers[j]) {
      var o := sys.workers[j];
      if o.key != w.key {
        StepKeepsOtherKeys(cfg, sys.shared, id, w, x, o.key);
        KeptAlone(sys.shared, m.shared, o);
      } else {
        assert Running(sys.workers, id) && Running(sys.workers, j) ==> id == j;
      }
    }
  }

  lemma StepKeepsKey(cfg: Config, s: Shared, id: int, w: Worker, x: Input)
    ensures Step(cfg, s, id, w, x).worker.key == w.key
    ensures w.pc.Stopped? ==> Step(cfg, s, id, w, x) == Move(s, w)
  {
  }

  lemma RunKeepsCalls(cfg: Config, sys: System, id: int, x: Input)
    requires Invariant(cfg, sys) && CallInvariant(sys) && id in sys.workers && Alone(sys.shared, sys.workers[id])
    ensures CallInvariant(Next(cfg, sys, Run(id, x)))
  {
    var t := Next(cfg, sys, Run(id, x));
    StepCalls(cfg, sys.shared, id, sys.workers[id], x);
    forall j | j in t.workers && j != id ensures MayCall(t.shared, j, t.workers[j]) {
      OthersStillMayCall(sys.shared, t.shared, id, j, sys.workers[j]);
    }
  }

  lemma {:induction false} ExclusiveRuns(cfg: Config, events: seq<Event>)
    requires cfg.exclusive
    ensures AloneInvariant(Exec(cfg, events))
  {
    if events != [] {
      ExclusiveRuns(cfg, events[..|events| - 1]);
      RunsKeepInvariant(cfg, events[..|events| - 1]);
      NextKeepsAlone(cfg, Exec(cfg, events[..|events| - 1]), events[|events| - 1]);
    }
  }

  // ---- Concrete runs ----------------------------------------------------------------------

  lemma Then(cfg: Config, past: seq<Event>, a: Event, b: Event) returns (events: seq<Event>)
    ensures Exec(cfg, events) == Next(cfg, Next(cfg, Exec(cfg, past), a), b)
  {
    events := past + [a, b];
    assert events[..|events| - 1] == past + [a] && (past + [a])[..|past|] == past;
  }

  const KEY := Key(1, 7)

  /** A budget that lets a call of the least allowed amount through. */
  function Low(cfg: Config): Money { if cfg.cap < 0 then cfg.cap else 0 }

  function Begin(cfg: Config, id: int): Event {
    Start(id, KEY, Limits(0, Low(cfg), Low(cfg), None, None), Low(cfg), 1)
  }

  function At(id: int, now: Time): Event { Run(id, Input(now, 0, false, true, 5, Pass)) }

  function Begun(cfg: Config, pc: Pc, base: Option<Ledger>): Worker {
    Worker(KEY, Limits(0, Low(cfg), Low(cfg), None, None), Low(cfg), 1, pc, base, 0)
  }

  function FirstClaim(cfg: Config): Ledger { Ledger(0, map[KEY := Claim(Claimed, 0, 0, 1, None, None)], map[]) }
  function Held(cfg: Config): Budget { Budget(Low(cfg), map[KEY := Reservation(Low(cfg), Low(cfg), false)]) }

  function Both(s: Shared, w: Worker): System { System(s, map[1 := w, 2 := w]) }

  lemma BothWantToReserve(cfg: Config) returns (events: seq<Event>)
    requires !cfg.exclusive
    ensures Exec(cfg, events) == Both(INITIAL.shared, Begun(cfg, ReserveSave(0, None), None))
  {
    events := Then(cfg, [], Begin(cfg, 1), Begin(cfg, 2));
    assert Exec(cfg, events) == Both(INITIAL.shared, Begun(cfg, LoadLedger, None));
    events := Then(cfg, events, At(1, 0), At(2, 0));
    assert Exec(cfg, events) == Both(INITIAL.shared, Begun(cfg, ReadHeld, None));
    events := Then(cfg, events, At(1, 0), At(2, 0));
    assert Exec(cfg, events) == Both(INITIAL.shared, Begun(cfg, ReserveLoad(0), None));
    events := Then(cfg, events, At(1, 0), At(2, 0));
  }

  /** Two passes that read an empty store each adopt the other's bytes and both pay. */
  lemma AdoptedClaimPaysTwice(cfg: Config) returns (events: seq<Event>)
    requires cfg.adopting && !cfg.distinctTimes && !cfg.exclusive
    ensures Exec(cfg, events).shared.calls[KEY] == 2
  {
    events := BothWantToReserve(cfg);
    events := Then(cfg, events, At(1, 0), At(2, 0));
    assert Exec(cfg, events) == Both(INITIAL.shared.(budgets := map[0 := Held(cfg)]), Begun(cfg, ClaimSave, None));
    events := Then(cfg, events, At(1, 0), At(2, 0));
    var claimed := Exec(cfg, events);
    assert claimed.workers[1].pc == CallAuditor && claimed.workers[2].pc == CallAuditor;
    events := Then(cfg, events, At(1, 0), At(2, 0));
  }

  function Paid(cfg: Config): Shared {
    Shared(map[1 := FirstClaim(cfg)], map[0 := Held(cfg)], multiset{KEY}, map[KEY := 1], {0}, map[])
  }

  function SettledByOther(cfg: Config): Shared {
    Paid(cfg).(budgets := map[0 := Settle(Held(cfg), KEY, Low(cfg))])
  }

  function Late(cfg: Config): Worker { Begun(cfg, UsageSave(5, Pass), Some(FirstClaim(cfg))) }

  const AT_ZERO := Input(0, 0, false, true, 5, Pass)

  function Reserved(cfg: Config): Shared { INITIAL.shared.(budgets := map[0 := Held(cfg)]) }

  function Claiming(cfg: Config): Shared {
    Reserved(cfg).(docs := map[1 := FirstClaim(cfg)], owner := map[KEY := 1], times := {0})
  }

  /** The first pass, up to its reservation. */
  lemma ReadingSteps(cfg: Config)
    ensures Step(cfg, INITIAL.shared, 1, Begun(cfg, LoadLedger, None), AT_ZERO)
      == Move(INITIAL.shared, Begun(cfg, ReadHeld, None))
    ensures Step(cfg, INITIAL.shared, 1, Begun(cfg, ReadHeld, None), AT_ZERO)
      == Move(INITIAL.shared, Begun(cfg, ReserveLoad(0), None))
    ensures Step(cfg, INITIAL.shared, 1, Begun(cfg, ReserveLoad(0), None), AT_ZERO)
         == Move(INITIAL.shared, Begun(cfg, ReserveSave(0, None), None))
  {
  }

  lemma ReservingStep(cfg: Config)
    ensures Step(cfg, INITIAL.shared, 1, Begun(cfg, ReserveSave(0, None), None), AT_ZERO)
      == Move(Reserved(cfg), Begun(cfg, ClaimSave, None))
  {
  }

  lemma ClaimingStep(cfg: Config)
    ensures Step(cfg, Reserved(cfg), 1, Begun(cfg, ClaimSave, None), AT_ZERO)
         == Move(Claiming(cfg), Begun(cfg, CallAuditor, Some(FirstClaim(cfg))))
  {
  }

  lemma CallingStep(cfg: Config)
    ensures Step(cfg, Claiming(cfg), 1, Begun(cfg, CallAuditor, Some(FirstClaim(cfg))), AT_ZERO)
      == Move(Paid(cfg), Late(cfg))
  {
  }

  /** From its start, the first pass reserves, claims and pays, whoever else has started. */
  lemma FirstPays(cfg: Config, past: seq<Event>) returns (events: seq<Event>)
    requires 1 in Exec(cfg, past).workers && Exec(cfg, past).shared == INITIAL.shared
    requires Exec(cfg, past).workers[1] == Begun(cfg, LoadLedger, None)
    ensures Exec(cfg, events) == System(Paid(cfg), Exec(cfg, past).workers[1 := Late(cfg)])
  {
    ReadingSteps(cfg);
    events := Then(cfg, past, At(1, 0), At(1, 0));
    ReservingStep(cfg);
    events := Then(cfg, events, At(1, 0), At(1, 0));
    ClaimingStep(cfg);
    CallingStep(cfg);
    events := Then(cfg, events, At(1, 0), At(1, 0));
  }

  lemma FirstPasses(cfg: Config) returns (events: seq<Event>)
    requires !cfg.exclusive
    ensures Exec(cfg, events) == System(Paid(cfg), map[1 := Late(cfg), 2 := Begun(cfg, LoadLedger, None)])
  {
    events := Then(cfg, [], Begin(cfg, 1), Begin(cfg, 2));
    events := FirstPays(cfg, events);
  }

  lemma OtherSettles(cfg: Config) returns (events: seq<Event>, w: Worker)
    requires !cfg.exclusive
    ensures Exec(cfg, events) == System(SettledByOther(cfg), map[1 := Late(cfg), 2 := w])
  {
    events := FirstPasses(cfg);
    events := Then(cfg, events, At(2, 1), At(2, 1));
    var done := Claim(Completed, 0, 0, 1, Some(HumanRequired), Some(Low(cfg)));
    assert Exec(cfg, events)
        == System(Paid(cfg),
        map[1 := Late(cfg), 2 := Begun(cfg, SettleLoad(0, Low(cfg), done), Some(FirstClaim(cfg)))]);
    events := Then(cfg, events, At(2, 1), At(2, 1));
    w := Begun(cfg, FinalSave(done), Some(FirstClaim(cfg)));
    assert Exec(cfg, events).shared == SettledByOther(cfg);
  }

  function Used(cfg: Config): Ledger {
    WithClaim(Some(FirstClaim(cfg)), KEY, Claim(Claimed, 0, 0, 1, Some(Pass), Some(5)), 0)
  }

  lemma FirstRecordsUsage(cfg: Config) returns (events: seq<Event>, w: Worker)
    requires !cfg.exclusive
    ensures Exec(cfg, events) == System(SettledByOther(cfg).(docs := map[1 := Used(cfg)]),
                                        map[1 := Begun(cfg, FinalSave(Used(cfg).claims[KEY].(state := Completed)),
                                            Some(Used(cfg))), 2 := w])
  {
    events, w := OtherSettles(cfg);
    events := Then(cfg, events, At(1, 1), At(1, 1));
  }

  /** A pass whose lease ran out during its paid call records a cost that the pass after it,
      which settled at the ceiling, did not account for. */
  lemma LateResultDisagrees(cfg: Config) returns (events: seq<Event>)
    requires !cfg.exclusive
    ensures !Agreement(Exec(cfg, events).shared)
  {
    var w: Worker;
    events, w := FirstRecordsUsage(cfg);
    events := Then(cfg, events, At(1, 1), Crash(1));
    var end := Exec(cfg, events).shared;
    assert KEY in end.doneIn && ClaimAt(end.docs, KEY).value.cost == Some(5);
    assert ReservationAt(end.budgets, 0, KEY) == Some(Reservation(Low(cfg), Low(cfg), true));
  }

  lemma FirstAlonePays(cfg: Config) returns (events: seq<Event>)
    ensures Exec(cfg, events) == System(Paid(cfg), map[1 := Late(cfg)])
  {
    events := Then(cfg, [], Begin(cfg, 1), Crash(9));
    events := FirstPays(cfg, events);
  }

  function NextMonth(id: int): Event { Run(id, Input(1, 1, false, true, 5, Pass)) }

  function LateReader(cfg: Config): Worker {
    Begun(cfg, FinalSave(Reconciled(FirstClaim(cfg).claims[KEY])), Some(FirstClaim(cfg))).(month := 1)
  }

  lemma NextMonthReads(cfg: Config, gone: Worker)
    requires !cfg.sameMonth
    ensures Next(cfg, Next(cfg, System(Paid(cfg), map[1 := gone, 2 := Begun(cfg, LoadLedger, None)]), NextMonth(2)),
      NextMonth(2))
         == System(Paid(cfg), map[1 := gone, 2 := LateReader(cfg)])
  {
  }

  /** A pass that finds an interrupted claim only after the month has changed completes it at no cost,
      although it was paid for, and leaves the old month's reservation unsettled. */
  lemma RolloverForgetsCost(cfg: Config) returns (events: seq<Event>)
    requires !cfg.sameMonth
    ensures KEY in Exec(cfg, events).shared.doneIn
    ensures Exec(cfg, events).shared.calls[KEY] == 1
    ensures ClaimAt(Exec(cfg, events).shared.docs, KEY) == Some(Claim(Completed, 0, 0, 1, Some(HumanRequired), Some(0)))
    ensures ReservationAt(Exec(cfg, events).shared.budgets, 0, KEY) == Some(Reservation(Low(cfg), Low(cfg), false))
  {
    events := FirstAlonePays(cfg);
    events := Then(cfg, events, Crash(1), Begin(cfg, 2));
    var gone := Late(cfg).(pc := Stopped);
    assert Exec(cfg, events) == System(Paid(cfg), map[1 := gone, 2 := Begun(cfg, LoadLedger, None)]);
    NextMonthReads(cfg, gone);
    events := Then(cfg, events, NextMonth(2), NextMonth(2));
    events := Then(cfg, events, NextMonth(2), Crash(2));
  }

  // ---- The exact conditions ---------------------------------------------------------------

  /** In every run no key is paid for twice, exactly when the store is a strict compare-and-set,
      or no two claim writes share a clock reading, or no two passes for one key overlap. */
  lemma PaidAtMostOnce(cfg: Config)
    ensures (forall events, k :: Exec(cfg, events).shared.calls[k] <= 1)
      <==> !cfg.adopting || cfg.distinctTimes || cfg.exclusive
  {
    if !cfg.adopting || cfg.distinctTimes || cfg.exclusive {
      forall events, k ensures Exec(cfg, events).shared.calls[k] <= 1 {
        if cfg.exclusive {
          ExclusiveRuns(cfg, events);
        } else {
          RunsKeepCalls(cfg, events);
        }
      }
    } else {
      var events := AdoptedClaimPaysTwice(cfg);
      assert Exec(cfg, events).shared.calls[KEY] == 2;
    }
  }

  /** Every completed claim agrees with its reservation in every run, whatever crashed and on every
      recovery path, exactly when no two passes for one key overlap. */
  lemma AccountsAgree(cfg: Config)
    ensures (forall events :: Agreement(Exec(cfg, events).shared)) <==> cfg.exclusive
  {
    if cfg.exclusive {
      forall events ensures Agreement(Exec(cfg, events).shared) {
        ExclusiveRuns(cfg, events);
      }
    } else {
      var events := LateResultDisagrees(cfg);
    }
  }
}
