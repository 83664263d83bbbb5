/** Accounts over all months: when a completed claim agrees with its reservation wherever that was made. */
module AuditMonths {
  import opened Common
  import opened AuditLedger
  import opened AuditClaim
  import opened AuditSafety
  import opened AuditRuns
  import opened AuditExact

  /** In whatever month a completed key has a reservation, it is settled at the recorded cost. */
  ghost predicate AgreeEverywhere(s: Shared) {
    forall k, m :: k in s.doneIn ==> AgreesIn(s, k, m)
  }

  predicate AgreesIn(s: Shared, k: Key, m: Month) {
    ClaimAt(s.docs, k).Some? && Agree(ClaimAt(s.docs, k).value, ReservationAt(s.budgets, m, k))
  }

  lemma SameDocuments(s: Shared, t: Shared)
    requires AgreeEverywhere(s) && t.docs == s.docs && t.budgets == s.budgets && t.doneIn == s.doneIn
    ensures AgreeEverywhere(t)
  {
    forall k, m | k in t.doneIn ensures AgreesIn(t, k, m) {
      assert AgreesIn(s, k, m);
    }
  }

  /** The key has no reservation in another month than the one the pass has read. */
  ghost predicate OneMonth(s: Shared, w: Worker) {
    forall m :: m != w.month ==> ReservationAt(s.budgets, m, w.key).None?
  }

  ghost predicate MonthOk(s: Shared, w: Worker) {
    w.pc.LoadLedger? || w.pc.ReadHeld? || w.pc.Stopped? || OneMonth(s, w)
  }

  ghost predicate MonthGood(s: Shared, m: Move) {
    AgreeEverywhere(m.shared) && MonthOk(m.shared, m.worker)
  }

  lemma ReadingMonths(cfg: Config, s: Shared, id: int, w: Worker, x: Input)
    requires w.pc.LoadLedger? || w.pc.ReserveLoad? || w.pc.CallAuditor? || w.pc.SettleLoad? || w.pc.Stopped?
    requires AgreeEverywhere(s) && MonthOk(s, w)
    ensures MonthGood(s, Step(cfg, s, id, w, x))
  {
    SameDocuments(s, Step(cfg, s, id, w, x).shared);
  }

  lemma ReadHeldMonths(cfg: Config, s: Shared, id: int, w: Worker, x: Input)
    requires cfg.sameMonth && w.pc.ReadHeld? && AgreeEverywhere(s)
    ensures MonthGood(s, Step(cfg, s, id, w, x))
  {
    if !HeldElsewhere(s.budgets, w.key, x.month) {
      forall m | m != x.month ensures ReservationAt(s.budgets, m, w.key).None? {
        assert m in s.budgets ==> w.key !in s.budgets[m].reservations;
      }
    }
  }

  /** A write of the key's own reservation, in the month the pass has read. */
  lemma BudgetWriteMonths(s: Shared, t: Shared, w: Worker, r: Reservation, intended: Budget)
    requires AgreeEverywhere(s) && OneMonth(s, w) && w.key !in s.doneIn
    requires intended.reservations == BudgetOf(Get(s.budgets, w.month)).reservations[w.key := r]
    requires t == s.(budgets := s.budgets[w.month := intended])
    ensures AgreeEverywhere(t) && OneMonth(t, w)
  {
    ReplaceReservation(s, t, w.month, intended, w.key, r);
    forall k, m | k in t.doneIn ensures AgreesIn(t, k, m) {
      assert AgreesIn(s, k, m);
    }
  }

  lemma ReserveSaveMonths(cfg: Config, s: Shared, id: int, w: Worker, x: Input)
    requires w.pc.ReserveSave? && Agreement(s) && AgreeEverywhere(s) && OneMonth(s, w) && Alone(s, w)
      && WorkerOk(cfg.cap, w)
    ensures MonthGood(s, Step(cfg, s, id, w, x))
  {
    NotYetDone(s, w);
    var t := Step(cfg, s, id, w, x).shared;
    if t != s {
      BudgetWriteMonths(s, t, w, Reservation(w.ceiling, w.ceiling, false), t.budgets[w.month]);
    }
  }

  lemma SettleSaveMonths(cfg: Config, s: Shared, id: int, w: Worker, x: Input)
    requires w.pc.SettleSave? && Agreement(s) && AgreeEverywhere(s) && OneMonth(s, w) && Alone(s, w)
      && WorkerOk(cfg.cap, w)
    ensures MonthGood(s, Step(cfg, s, id, w, x))
  {
    NotYetDone(s, w);
    var t := Step(cfg, s, id, w, x).shared;
    if t != s {
      BudgetWriteMonths(s, t, w, t.budgets[w.month].reservations[w.key], t.budgets[w.month]);
    }
  }

  lemma LedgerWriteMonths(cfg: Config, s: Shared, id: int, w: Worker, x: Input)
    requires w.pc.ClaimSave? || w.pc.UsageSave? || w.pc.FinalSave?
    requires Agreement(s) && AgreeEverywhere(s) && OneMonth(s, w) && Alone(s, w) && WorkerOk(cfg.cap, w)
    ensures MonthGood(s, Step(cfg, s, id, w, x))
  {
    var t := Step(cfg, s, id, w, x).shared;
    if t.docs != s.docs {
      LedgerWriteGrows(s, t, w, t.docs[w.key.issue].claims[w.key], t.docs[w.key.issue]);
      NotYetDone(s, w);
      forall k, m | k in t.doneIn ensures AgreesIn(t, k, m) {
        assert k != w.key ==> AgreesIn(s, k, m);
        assert k == w.key && m != w.month ==> ReservationAt(s.budgets, m, k).None?;
      }
    } else {
      SameDocuments(s, t);
    }
  }

  lemma StepMonths(cfg: Config, s: Shared, id: int, w: Worker, x: Input)
    requires cfg.sameMonth && Agreement(s) && AgreeEverywhere(s) && MonthOk(s, w) && Alone(s, w) && WorkerOk(cfg.cap, w)
    ensures MonthGood(s, Step(cfg, s, id, w, x))
  {
    if w.pc.ReadHeld? {
      ReadHeldMonths(cfg, s, id, w, x);
    } else if w.pc.ReserveSave? {
      ReserveSaveMonths(cfg, s, id, w, x);
    } else if w.pc.SettleSave? {
      SettleSaveMonths(cfg, s, id, w, x);
    } else if w.pc.ClaimSave? || w.pc.UsageSave? || w.pc.FinalSave? {
      LedgerWriteMonths(cfg, s, id, w, x);
    } else {
      ReadingMonths(cfg, s, id, w, x);
    }
  }

  ghost predicate MonthsOk(sys: System) {
    AgreeEverywhere(sys.shared) && forall id :: id in sys.workers ==> MonthOk(sys.shared, sys.workers[id])
  }

  lemma NextMonths(cfg: Config, sys: System, e: Event)
    requires cfg.exclusive && cfg.sameMonth && Invariant(cfg, sys) && AloneInvariant(sys) && MonthsOk(sys)
    ensures MonthsOk(Next(cfg, sys, e))
  {
    if e.Run? && e.id in sys.workers {
      var w := sys.workers[e.id];
      var t := Next(cfg, sys, e);
      StepMonths(cfg, sys.shared, e.id, w, e.x);
      StepKeepsKey(cfg, sys.shared, e.id, w, e.x);
      forall id | id in t.workers && id != e.id ensures MonthOk(t.shared, t.workers[id]) {
        var o := sys.workers[id];
        if o.key != w.key {
          StepKeepsOtherKeys(cfg, sys.shared, e.id, w, e.x, o.key);
          KeptMonths(sys.shared, t.shared, o);
        } else {
          assert Running(sys.workers, e.id) && Running(sys.workers, id) ==> id == e.id;
        }
      }
    }
  }

  lemma KeptMonths(s: Shared, t: Shared, w: Worker)
    requires KeyKept(s, t, w.key) && MonthOk(s, w)
    ensures MonthOk(t, w)
  {
  }

  lemma {:induction false} RunsKeepMonths(cfg: Config, events: seq<Event>)
    requires cfg.exclusive && cfg.sameMonth
    ensures MonthsOk(Exec(cfg, events))
  {
    if events != [] {
      RunsKeepMonths(cfg, events[..|events| - 1]);
      RunsKeepInvariant(cfg, events[..|events| - 1]);
      ExclusiveRuns(cfg, events[..|events| - 1]);
      NextMonths(cfg, Exec(cfg, events[..|events| - 1]), events[|events| - 1]);
    }
  }

  /** In every run the reservation of every completed key, in whatever month it was made, is settled at
      the recorded cost, exactly when no two passes for one key overlap and none reads another month
      than the one that holds its key's reservation. */
  lemma AccountsAgreeInEveryMonth(cfg: Config)
    ensures (forall events :: AgreeEverywhere(Exec(cfg, events).shared)) <==> cfg.exclusive && cfg.sameMonth
  {
    if !cfg.exclusive {
      var events := LateResultDisagrees(cfg);
      var s := Exec(cfg, events).shared;
      assert AgreeEverywhere(s) ==> forall k :: k in s.doneIn ==> AgreesIn(s, k, s.doneIn[k]);
    } else if !cfg.sameMonth {
      var events := RolloverForgetsCost(cfg);
      var s := Exec(cfg, events).shared;
      assert !AgreesIn(s, KEY, 0);
    } else {
      forall events ensures AgreeEverywhere(Exec(cfg, events).shared) {
        RunsKeepMonths(cfg, events);
      }
    }
  }
}
