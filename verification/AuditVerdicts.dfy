/** No verdict without an audit: PASS and REWORK are only ever recorded for keys that were paid for. */
module AuditVerdicts {
  import opened Common
  import opened AuditLedger
  import opened AuditClaim
  import opened AuditSafety
  import opened AuditRuns
  import AuditExact

  predicate Earned(calls: multiset<Key>, k: Key, v: Option<Verdict>) {
    v.Some? && v.value != HumanRequired ==> calls[k] > 0
  }

  predicate ClaimEarned(calls: multiset<Key>, k: Key, c: Option<Claim>) {
    c.Some? ==> Earned(calls, k, c.value.verdict)
  }

  ghost predicate ClaimsEarned(s: Shared) {
    forall k :: ClaimEarned(s.calls, k, ClaimAt(s.docs, k))
  }

  predicate WorkerEarned(calls: multiset<Key>, w: Worker) {
    && ClaimEarned(calls, w.key, Get(ClaimsOf(w.base), w.key))
    && (match w.pc
        case UsageSave(_, _) => calls[w.key] > 0
        case SettleLoad(_, _, after) => Earned(calls, w.key, after.verdict)
        case SettleSave(_, _, after, _) => Earned(calls, w.key, after.verdict)
        case FinalSave(after) => Earned(calls, w.key, after.verdict)
        case _ => true)
  }

  ghost predicate EarnedMove(m: Move) {
    ClaimsEarned(m.shared) && WorkerEarned(m.shared.calls, m.worker)
  }

  lemma WriteEarned(s: Shared, t: Shared, w: Worker, c: Claim, intended: Ledger)
    requires ClaimsEarned(s) && Open(w) && Get(s.docs, w.key.issue) == w.base && Earned(s.calls, w.key, c.verdict)
    requires intended == WithClaim(w.base, w.key, c, w.month).(month := intended.month)
    requires t.docs == s.docs[w.key.issue := intended] && t.budgets == s.budgets && t.calls == s.calls
    ensures ClaimsEarned(t)
  {
    LedgerWriteGrows(s, t, w, c, intended);
    forall k ensures ClaimEarned(t.calls, k, ClaimAt(t.docs, k)) {
      assert ClaimEarned(s.calls, k, ClaimAt(s.docs, k));
    }
  }

  lemma WritingEarned(cfg: Config, s: Shared, id: int, w: Worker, x: Input)
    requires w.pc.ClaimSave? || w.pc.UsageSave? || w.pc.FinalSave?
    requires WorkerOk(cfg.cap, w) && ClaimsEarned(s) && WorkerEarned(s.calls, w)
    ensures EarnedMove(Step(cfg, s, id, w, x))
  {
    var t := Step(cfg, s, id, w, x).shared;
    if t.docs != s.docs {
      WriteEarned(s, t, w, t.docs[w.key.issue].claims[w.key], t.docs[w.key.issue]);
    }
  }

  lemma OnlyBudgets(cfg: Config, s: Shared, id: int, w: Worker, x: Input)
    requires !w.pc.ClaimSave? && !w.pc.UsageSave? && !w.pc.FinalSave? && !w.pc.CallAuditor?
    ensures Step(cfg, s, id, w, x).shared == s.(budgets := Step(cfg, s, id, w, x).shared.budgets)
  {
  }

  lemma RestEarned(cfg: Config, s: Shared, id: int, w: Worker, x: Input)
    requires !w.pc.ClaimSave? && !w.pc.UsageSave? && !w.pc.FinalSave? && !w.pc.CallAuditor?
    requires ClaimsEarned(s) && WorkerEarned(s.calls, w)
    ensures EarnedMove(Step(cfg, s, id, w, x))
  {
    assert ClaimEarned(s.calls, w.key, ClaimAt(s.docs, w.key));
    OnlyBudgets(cfg, s, id, w, x);
  }

  lemma MoreCallsEarned(s: Shared, t: Shared)
    requires ClaimsEarned(s) && t == s.(calls := t.calls) && forall k :: s.calls[k] <= t.calls[k]
    ensures ClaimsEarned(t)
  {
    forall k ensures ClaimEarned(t.calls, k, ClaimAt(t.docs, k)) {
      assert ClaimEarned(s.calls, k, ClaimAt(s.docs, k)) && s.calls[k] <= t.calls[k];
    }
  }

  lemma StepEarned(cfg: Config, s: Shared, id: int, w: Worker, x: Input)
    requires WorkerOk(cfg.cap, w) && ClaimsEarned(s) && WorkerEarned(s.calls, w)
    ensures EarnedMove(Step(cfg, s, id, w, x))
  {
    if w.pc.ClaimSave? || w.pc.UsageSave? || w.pc.FinalSave? {
      WritingEarned(cfg, s, id, w, x);
    } else if w.pc.CallAuditor? {
      MoreCallsEarned(s, Step(cfg, s, id, w, x).shared);
    } else {
      RestEarned(cfg, s, id, w, x);
    }
  }

  ghost predicate EarnedInvariant(sys: System) {
    ClaimsEarned(sys.shared) && forall id :: id in sys.workers ==> WorkerEarned(sys.shared.calls, sys.workers[id])
  }

  lemma NextEarned(cfg: Config, sys: System, e: Event)
    requires Invariant(cfg, sys) && EarnedInvariant(sys)
    ensures EarnedInvariant(Next(cfg, sys, e))
  {
    if e.Run? && e.id in sys.workers {
      var t := Next(cfg, sys, e);
      StepEarned(cfg, sys.shared, e.id, sys.workers[e.id], e.x);
      NextKeepsInvariant(cfg, sys, e);
      forall id | id in t.workers && id != e.id ensures WorkerEarned(t.shared.calls, t.workers[id]) {
        StaysEarned(sys.shared.calls, t.shared.calls, sys.workers[id]);
      }
    }
  }

  lemma StaysEarned(calls: multiset<Key>, more: multiset<Key>, w: Worker)
    requires WorkerEarned(calls, w) && forall k :: calls[k] <= more[k]
    ensures WorkerEarned(more, w)
  {
    assert calls[w.key] <= more[w.key];
  }

  lemma {:induction false} RunsKeepEarned(cfg: Config, events: seq<Event>)
    ensures EarnedInvariant(Exec(cfg, events))
  {
    if events != [] {
      RunsKeepEarned(cfg, events[..|events| - 1]);
      RunsKeepInvariant(cfg, events[..|events| - 1]);
      NextEarned(cfg, Exec(cfg, events[..|events| - 1]), events[|events| - 1]);
    }
  }

  /** In every run, on every recovery path: a PASS or REWORK stands only where the auditor was paid,
      and exactly once wherever payment is at most once. */
  lemma VerdictsArePaidFor(cfg: Config, events: seq<Event>, k: Key)
    requires ClaimAt(Exec(cfg, events).shared.docs, k).Some?
    requires ClaimAt(Exec(cfg, events).shared.docs, k).value.verdict == Some(Pass)
      || ClaimAt(Exec(cfg, events).shared.docs, k).value.verdict == Some(Rework)
    ensures Exec(cfg, events).shared.calls[k] >= 1
    ensures !cfg.adopting || cfg.distinctTimes || cfg.exclusive ==> Exec(cfg, events).shared.calls[k] == 1
  {
    RunsKeepEarned(cfg, events);
    assert ClaimEarned(Exec(cfg, events).shared.calls, k, ClaimAt(Exec(cfg, events).shared.docs, k));
    AuditExact.PaidAtMostOnce(cfg);
  }
}
