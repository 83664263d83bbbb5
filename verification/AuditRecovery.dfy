/** What a recovery records: the result that was already written, or, without one, no verdict at the
    reserved ceiling. */
module AuditRecovery {
  import opened Common
  import opened AuditLedger
  import opened AuditClaim
  import opened AuditSafety
  import opened AuditRuns
  import opened AuditExact
  import opened AuditMonths

  predicate HasResult(c: Option<Claim>) { c.Some? && c.value.cost.Some? }

  /** A slot of a key without a result accounts for its ceiling; of one with a result, once settled, for
      the result's cost. */
  predicate SlotRight(c: Option<Claim>, r: Option<Reservation>) {
    r.Some? ==>
      if HasResult(c) && r.value.settled then Some(r.value.accounted) == c.value.cost
      else r.value.accounted == r.value.ceiling
  }

  /** What is known of a key that is not completed. */
  ghost predicate KeyRight(s: Shared, k: Key) {
    && (ClaimAt(s.docs, k).Some? ==> exists m :: ReservationAt(s.budgets, m, k).Some?)
    && (k !in s.doneIn ==>
          && (forall m :: SlotRight(ClaimAt(s.docs, k), ReservationAt(s.budgets, m, k)))
          && (ClaimAt(s.docs, k).Some? && !HasResult(ClaimAt(s.docs, k)) ==> ClaimAt(s.docs, k).value.verdict.None?)
          && (HasResult(ClaimAt(s.docs, k)) ==> ClaimAt(s.docs, k).value.verdict.Some?))
  }

  /** The completed claim a pass is about to write keeps the stored result, or has none to keep. */
  predicate KeepsResult(s: Shared, w: Worker, after: Claim) {
    var c := ClaimAt(s.docs, w.key);
    if HasResult(c) then after.verdict == c.value.verdict && after.cost == c.value.cost
    else after.verdict == Some(HumanRequired) && Slot(s, w).Some? && after.cost == Some(Slot(s, w).value.ceiling)
  }

  ghost predicate Right(s: Shared, w: Worker) {
    match w.pc
    case SettleLoad(_, _, after) => KeepsResult(s, w, after)
    case SettleSave(_, _, after, _) => KeepsResult(s, w, after)
    case FinalSave(after) => KeepsResult(s, w, after)
    case _ => true
  }

  ghost predicate Known(cfg: Config, s: Shared, w: Worker) {
    && WorkerOk(cfg.cap, w) && Agreement(s) && Alone(s, w) && MonthOk(s, w) && KeyRight(s, w.key) && Right(s, w)
  }

  ghost predicate StaysRight(s: Shared, m: Move) {
    KeyRight(m.shared, m.worker.key) && Right(m.shared, m.worker)
  }

  // ---- Each step ----------------------------------------------------------------------------------

  lemma NotDone(cfg: Config, s: Shared, w: Worker)
    requires Known(cfg, s, w) && !w.pc.LoadLedger? && !w.pc.Stopped?
    ensures w.key !in s.doneIn
  {
    NotYetDone(s, w);
  }

  lemma RecoverRight(cfg: Config, s: Shared, w: Worker, now: Time, month: Month)
    requires Known(cfg, s, w) && w.pc.ReadHeld? && ReservationAt(s.budgets, month, w.key).Some?
    ensures Right(s, Recover(w.(month := month), ReservationAt(s.budgets, month, w.key).value, now))
  {
    NotDone(cfg, s, w);
    assert SlotRight(ClaimAt(s.docs, w.key), ReservationAt(s.budgets, month, w.key));
  }

  /** A claim always has a reservation, so a pass that sees none in its month, and none elsewhere, sees
      no claim. */
  lemma ReadHeldRight(cfg: Config, s: Shared, id: int, w: Worker, x: Input)
    requires cfg.sameMonth && Known(cfg, s, w) && w.pc.ReadHeld?
    ensures StaysRight(s, Step(cfg, s, id, w, x))
  {
    if ReservationAt(s.budgets, x.month, w.key).Some? {
      RecoverRight(cfg, s, w, x.now, x.month);
    } else if ClaimAt(s.docs, w.key).Some? {
      var m :| ReservationAt(s.budgets, m, w.key).Some?;
      assert m in s.budgets && w.key in s.budgets[m].reservations;
      assert HeldElsewhere(s.budgets, w.key, x.month);
    }
  }

  lemma ReadingRight(cfg: Config, s: Shared, id: int, w: Worker, x: Input)
    requires Known(cfg, s, w)
    requires w.pc.LoadLedger? || w.pc.ReserveLoad? || w.pc.CallAuditor? || w.pc.SettleLoad? || w.pc.Stopped?
    ensures StaysRight(s, Step(cfg, s, id, w, x))
  {
    var t := Step(cfg, s, id, w, x).shared;
    assert t == s.(calls := t.calls);
  }

  /** The key's own slot, in the pass's month, is replaced. */
  lemma SlotReplaced(s: Shared, t: Shared, w: Worker, r: Reservation)
    requires KeyRight(s, w.key) && OneMonth(s, w)
    requires w.month in t.budgets && t == s.(budgets := s.budgets[w.month := t.budgets[w.month]])
    requires t.budgets[w.month].reservations == BudgetOf(Get(s.budgets, w.month)).reservations[w.key := r]
    requires SlotRight(ClaimAt(s.docs, w.key), Some(r))
    ensures KeyRight(t, w.key) && Slot(t, w) == Some(r)
  {
    ReplaceReservation(s, t, w.month, t.budgets[w.month], w.key, r);
    assert ReservationAt(t.budgets, w.month, w.key).Some?;
  }

  lemma ReserveSaveRight(cfg: Config, s: Shared, id: int, w: Worker, x: Input)
    requires Known(cfg, s, w) && w.pc.ReserveSave?
    ensures StaysRight(s, Step(cfg, s, id, w, x))
  {
    var t := Step(cfg, s, id, w, x).shared;
    if t != s {
      SlotReplaced(s, t, w, Reservation(w.ceiling, w.ceiling, false));
    }
  }

  lemma SettleSaveRight(cfg: Config, s: Shared, id: int, w: Worker, x: Input)
    requires Known(cfg, s, w) && w.pc.SettleSave?
    ensures StaysRight(s, Step(cfg, s, id, w, x))
  {
    NotDone(cfg, s, w);
    var t := Step(cfg, s, id, w, x).shared;
    if t != s {
      SlotReplaced(s, t, w, Slot(s, w).value.(accounted := w.pc.actual, settled := true));
    }
  }

  /** The key's own claim is replaced, its slots stay. */
  lemma ClaimReplaced(s: Shared, t: Shared, w: Worker, c: Claim)
    requires LedgerStep(s, t, w) && ClaimAt(t.docs, w.key) == Some(c)
    requires Slot(s, w).Some?
    requires w.key !in t.doneIn ==>
               && (forall m :: SlotRight(Some(c), ReservationAt(s.budgets, m, w.key)))
               && (c.cost.Some? <==> c.verdict.Some?)
    ensures KeyRight(t, w.key)
  {
    assert ReservationAt(t.budgets, w.month, w.key).Some?;
  }

  lemma ClaimSaveRight(cfg: Config, s: Shared, id: int, w: Worker, x: Input)
    requires Known(cfg, s, w) && w.pc.ClaimSave?
    ensures StaysRight(s, Step(cfg, s, id, w, x))
  {
    NotDone(cfg, s, w);
    LedgerStepShape(cfg, s, id, w, x);
    var t := Step(cfg, s, id, w, x).shared;
    if t.docs != s.docs {
      forall m ensures SlotRight(Some(ClaimEntry(w, x.now)), ReservationAt(s.budgets, m, w.key)) {
        assert SlotRight(ClaimAt(s.docs, w.key), ReservationAt(s.budgets, m, w.key));
      }
      ClaimReplaced(s, t, w, ClaimEntry(w, x.now));
    }
  }

  lemma UsageSaveRight(cfg: Config, s: Shared, id: int, w: Worker, x: Input)
    requires Known(cfg, s, w) && w.pc.UsageSave?
    ensures StaysRight(s, Step(cfg, s, id, w, x))
  {
    NotDone(cfg, s, w);
    LedgerStepShape(cfg, s, id, w, x);
    var t := Step(cfg, s, id, w, x).shared;
    if t.docs != s.docs {
      var used := ClaimAt(t.docs, w.key).value;
      forall m ensures SlotRight(Some(used), ReservationAt(s.budgets, m, w.key)) {
        assert SlotRight(ClaimAt(s.docs, w.key), ReservationAt(s.budgets, m, w.key));
        assert m != w.month ==> ReservationAt(s.budgets, m, w.key).None?;
      }
      ClaimReplaced(s, t, w, used);
    }
  }

  lemma FinalSaveRight(cfg: Config, s: Shared, id: int, w: Worker, x: Input)
    requires Known(cfg, s, w) && w.pc.FinalSave?
    ensures StaysRight(s, Step(cfg, s, id, w, x))
  {
    LedgerStepShape(cfg, s, id, w, x);
    var t := Step(cfg, s, id, w, x).shared;
    if t.docs != s.docs {
      var m :| ReservationAt(s.budgets, m, w.key).Some?;
      assert ReservationAt(t.budgets, m, w.key).Some?;
    }
  }

  lemma StepRight(cfg: Config, s: Shared, id: int, w: Worker, x: Input)
    requires cfg.sameMonth && Known(cfg, s, w)
    ensures StaysRight(s, Step(cfg, s, id, w, x))
  {
    match w.pc
    case ReadHeld => ReadHeldRight(cfg, s, id, w, x);
    case ReserveSave(_, _) => ReserveSaveRight(cfg, s, id, w, x);
    case SettleSave(_, _, _, _) => SettleSaveRight(cfg, s, id, w, x);
    case ClaimSave => ClaimSaveRight(cfg, s, id, w, x);
    case UsageSave(_, _) => UsageSaveRight(cfg, s, id, w, x);
    case FinalSave(_) => FinalSaveRight(cfg, s, id, w, x);
    case _ => ReadingRight(cfg, s, id, w, x);
  }

  // ---- Every run ----------------------------------------------------------------------------------

  ghost predicate RightRun(sys: System) {
    && (forall k :: KeyRight(sys.shared, k))
    && (forall id :: id in sys.workers ==> Right(sys.shared, sys.workers[id]))
  }

  lemma KeptRight(s: Shared, t: Shared, k: Key)
    requires KeyKept(s, t, k) && KeyRight(s, k)
    ensures KeyRight(t, k)
  {
    if ClaimAt(s.docs, k).Some? {
      var m :| ReservationAt(s.budgets, m, k).Some?;
      assert ReservationAt(t.budgets, m, k).Some?;
    }
    assert k in t.doneIn <==> k in s.doneIn;
    if k !in t.doneIn {
      forall m ensures SlotRight(ClaimAt(t.docs, k), ReservationAt(t.budgets, m, k)) {
        assert SlotRight(ClaimAt(s.docs, k), ReservationAt(s.budgets, m, k));
      }
    }
  }

  lemma KeptWorker(s: Shared, t: Shared, w: Worker)
    requires KeyKept(s, t, w.key) && Right(s, w)
    ensures Right(t, w)
  {
  }

  ghost predicate Everything(cfg: Config, sys: System) {
    Invariant(cfg, sys) && AloneInvariant(sys) && MonthsOk(sys) && RightRun(sys)
  }

  lemma RunStaysRight(cfg: Config, sys: System, id: int, x: Input)
    requires cfg.exclusive && cfg.sameMonth && Everything(cfg, sys) && id in sys.workers
    ensures RightRun(Next(cfg, sys, Run(id, x)))
  {
    var w := sys.workers[id];
    var t := Next(cfg, sys, Run(id, x));
    StepRight(cfg, sys.shared, id, w, x);
    StepKeepsKey(cfg, sys.shared, id, w, x);
    forall k ensures KeyRight(t.shared, k) {
      if k != w.key {
        StepKeepsOtherKeys(cfg, sys.shared, id, w, x, k);
        KeptRight(sys.shared, t.shared, k);
      }
    }
    forall j | j in t.workers && j != id ensures Right(t.shared, t.workers[j]) {
      var o := sys.workers[j];
      if o.key != w.key {
        StepKeepsOtherKeys(cfg, sys.shared, id, w, x, o.key);
        KeptWorker(sys.shared, t.shared, o);
      } else {
        assert Running(sys.workers, id) && Running(sys.workers, j) ==> id == j;
      }
    }
  }

  lemma {:induction false} RunsStayRight(cfg: Config, events: seq<Event>)
    requires cfg.exclusive && cfg.sameMonth
    ensures Everything(cfg, Exec(cfg, events))
  {
    RunsKeepInvariant(cfg, events);
    ExclusiveRuns(cfg, events);
    RunsKeepMonths(cfg, events);
    if events != [] {
      var e := events[|events| - 1];
      RunsStayRight(cfg, events[..|events| - 1]);
      var sys := Exec(cfg, events[..|events| - 1]);
      if e.Run? && e.id in sys.workers {
        RunStaysRight(cfg, sys, e.id, e.x);
      }
    }
  }

  /** The completed claim and its slot, given the claim stored before. */
  ghost predicate Recovers(before: Option<Claim>, after: Option<Claim>, slot: Option<Reservation>) {
    && after.Some? && after.value.state == Completed && slot.Some? && slot.value.settled
    && (if before.Some? && before.value.cost.Some?
        then after.value.verdict == before.value.verdict && after.value.cost == before.value.cost
             && before.value.cost == Some(slot.value.accounted)
        else after.value.verdict == Some(HumanRequired) && after.value.cost == Some(slot.value.ceiling)
             && slot.value.accounted == slot.value.ceiling)
  }

  /** Whenever a key is completed, in any run with one pass per key and month: if a result was already
      written, its verdict and cost are kept and the slot accounts for that cost; if none was, nobody's
      verdict is invented, and claim and slot stand at the ceiling that was reserved. */
  lemma CompletionKeepsResult(cfg: Config, events: seq<Event>, e: Event, k: Key)
    requires cfg.exclusive && cfg.sameMonth
    requires k !in Exec(cfg, events).shared.doneIn && k in Exec(cfg, events + [e]).shared.doneIn
    ensures var s, t := Exec(cfg, events).shared, Exec(cfg, events + [e]).shared;
            Recovers(ClaimAt(s.docs, k), ClaimAt(t.docs, k), ReservationAt(t.budgets, t.doneIn[k], k))
  {
    RunsStayRight(cfg, events);
    assert (events + [e])[..|events|] == events;
    var sys := Exec(cfg, events);
    assert e.Run? && e.id in sys.workers;
    CompletingStep(cfg, sys.shared, e.id, sys.workers[e.id], e.x, k);
  }

  lemma CompletingStep(cfg: Config, s: Shared, id: int, w: Worker, x: Input, k: Key)
    requires Known(cfg, s, w) && k !in s.doneIn && k in Step(cfg, s, id, w, x).shared.doneIn
    ensures var t := Step(cfg, s, id, w, x).shared;
            Recovers(ClaimAt(s.docs, k), ClaimAt(t.docs, k), ReservationAt(t.budgets, t.doneIn[k], k))
  {
    LedgerStepsComplete(cfg, s, id, w, x, k);
    HasSlot(s, w);
    assert SlotRight(ClaimAt(s.docs, k), Slot(s, w));
  }

  lemma LedgerStepsComplete(cfg: Config, s: Shared, id: int, w: Worker, x: Input, k: Key)
    requires k !in s.doneIn && k in Step(cfg, s, id, w, x).shared.doneIn
    ensures w.pc.FinalSave? && k == w.key
    ensures var t := Step(cfg, s, id, w, x).shared;
            t.budgets == s.budgets && t.doneIn[k] == w.month && ClaimAt(t.docs, k) == Some(w.pc.after)
  {
  }

  /** The slot of a claim about to be completed is in the pass's month. */
  lemma HasSlot(s: Shared, w: Worker)
    requires w.pc.FinalSave? && KeyRight(s, w.key) && OneMonth(s, w) && Right(s, w)
    ensures Slot(s, w).Some?
  {
    if ClaimAt(s.docs, w.key).Some? {
      var m :| ReservationAt(s.budgets, m, w.key).Some?;
      assert m == w.month;
    }
  }
}
