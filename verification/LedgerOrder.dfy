/** Ledgers only go forward: no run of audits and dispositions ever brings back a ledger it has left. */
module LedgerOrder {
  import opened Common
  import opened AuditLedger
  import opened AuditDisposition
  import opened DispositionRuns
  import C = AuditClaim
  import AuditSafety
  import AuditRuns

  // ---- The order ------------------------------------------------------------------------------

  predicate DispositionsGoOn(a: map<Key, Disposition>, b: map<Key, Disposition>) {
    && (forall k | k in a :: k in b && (b[k] == a[k] || (!Terminal(a[k]) && Terminal(b[k]))))
    && (forall k | k in b && k !in a :: Terminal(b[k]))
  }

  /** The second ledger is the first one, or a later state of it. */
  predicate Precedes(a: Ledger, b: Ledger) {
    && ClaimsGoOn(a.claims, b.claims) && DispositionsGoOn(a.dispositions, b.dispositions)
    && (a.claims.Keys == b.claims.Keys ==> a.month == b.month)
  }

  predicate MaybePrecedes(a: Option<Ledger>, b: Option<Ledger>) {
    a.Some? ==> b.Some? && Precedes(a.value, b.value)
  }

  lemma SameKeys(a: Ledger, b: Ledger, c: Ledger)
    requires ClaimsGoOn(a.claims, b.claims) && ClaimsGoOn(b.claims, c.claims) && a.claims.Keys == c.claims.Keys
    ensures a.claims.Keys == b.claims.Keys
  {
    forall k | k in b.claims ensures k in a.claims {
      assert k in c.claims.Keys;
    }
  }

  lemma PrecedesComposes(a: Ledger, b: Ledger, c: Ledger)
    requires Precedes(a, b) && Precedes(b, c)
    ensures Precedes(a, c)
  {
    if a.claims.Keys == c.claims.Keys {
      SameKeys(a, b, c);
    }
  }

  /** Two ledgers that precede each other are the same bytes. */
  lemma PrecedesIsAntisymmetric(a: Ledger, b: Ledger)
    requires Precedes(a, b) && Precedes(b, a)
    ensures a == b
  {
    SameKeys(a, b, a);
    assert forall k | k in a.claims :: a.claims[k] == b.claims[k];
    forall k | k in a.dispositions ensures k in b.dispositions && a.dispositions[k] == b.dispositions[k] {}
    assert a.dispositions == b.dispositions;
  }

  lemma AuditPrecedes(a: Option<Ledger>, b: Ledger)
    requires AuditWrite(a, b)
    ensures MaybePrecedes(a, Some(b))
  {
  }

  lemma Composes(a: Option<Ledger>, b: Option<Ledger>, c: Option<Ledger>)
    requires MaybePrecedes(a, b) && MaybePrecedes(b, c)
    ensures MaybePrecedes(a, c)
  {
    if a.Some? {
      PrecedesComposes(a.value, b.value, c.value);
    }
  }

  /** What lies between two equal ledgers is equal to them. */
  lemma NothingBetween(a: Option<Ledger>, b: Option<Ledger>, c: Option<Ledger>)
    requires MaybePrecedes(a, b) && MaybePrecedes(b, c) && a == c
    ensures b == a
  {
    if a.Some? {
      PrecedesIsAntisymmetric(a.value, b.value);
    }
  }

  // ---- Runs of the audit protocol ---------------------------------------------------------------

  function Document(cfg: C.Config, events: seq<C.Event>, n: nat, issue: int): Option<Ledger>
    requires n <= |events|
  {
    Get(C.Exec(cfg, events[..n]).shared.docs, issue)
  }

  lemma OtherIssuesKept(cfg: C.Config, s: C.Shared, id: int, w: C.Worker, x: C.Input, issue: int)
    requires issue != w.key.issue
    ensures Get(C.Step(cfg, s, id, w, x).shared.docs, issue) == Get(s.docs, issue)
  {
    if !w.pc.ClaimSave? && !w.pc.UsageSave? && !w.pc.FinalSave? {
      OtherStepsKeepDocs(cfg, s, id, w, x);
    }
  }

  lemma AuditStepGoesForward(cfg: C.Config, s: C.Shared, id: int, w: C.Worker, x: C.Input, issue: int)
    requires AuditSafety.WorkerOk(cfg.cap, w)
    ensures MaybePrecedes(Get(s.docs, issue), Get(C.Step(cfg, s, id, w, x).shared.docs, issue))
  {
    if issue != w.key.issue {
      OtherIssuesKept(cfg, s, id, w, x, issue);
    } else if issue in C.Step(cfg, s, id, w, x).shared.docs {
      AuditStepsAreAuditWrites(cfg, s, id, w, x);
      AuditPrecedes(Get(s.docs, issue), C.Step(cfg, s, id, w, x).shared.docs[issue]);
    } else {
      AuditSafety.StepGood(cfg, s, id, w, x);
    }
  }

  lemma NextAuditGoesForward(cfg: C.Config, past: seq<C.Event>, e: C.Event, issue: int)
    ensures MaybePrecedes(Get(C.Exec(cfg, past).shared.docs, issue), Get(C.Exec(cfg, past + [e]).shared.docs, issue))
  {
    AuditRuns.RunsKeepInvariant(cfg, past);
    var sys := C.Exec(cfg, past);
    assert (past + [e])[..|past|] == past;
    if e.Run? && e.id in sys.workers {
      AuditStepGoesForward(cfg, sys.shared, e.id, sys.workers[e.id], e.x, issue);
    }
  }

  lemma {:induction false} AuditGoesForward(cfg: C.Config, events: seq<C.Event>, i: nat, j: nat, issue: int)
    requires i <= j <= |events|
    ensures MaybePrecedes(Document(cfg, events, i, issue), Document(cfg, events, j, issue))
    decreases j
  {
    if i < j {
      var past, e := events[..j - 1], events[j - 1];
      assert events[..j] == past + [e];
      AuditGoesForward(cfg, events, i, j - 1, issue);
      NextAuditGoesForward(cfg, past, e, issue);
      Composes(Document(cfg, events, i, issue), Document(cfg, events, j - 1, issue), Document(cfg, events, j, issue));
    }
  }

  /** In every run of audits, whatever crashes: an issue's ledger, once left, never comes back. */
  lemma AuditsNeverReturn(cfg: C.Config, events: seq<C.Event>, i: nat, j: nat, k: nat, issue: int)
    requires i <= j <= k <= |events| && Document(cfg, events, i, issue) == Document(cfg, events, k, issue)
    ensures Document(cfg, events, j, issue) == Document(cfg, events, i, issue)
  {
    AuditGoesForward(cfg, events, i, j, issue);
    AuditGoesForward(cfg, events, j, k, issue);
    NothingBetween(
      Document(cfg, events, i, issue), Document(cfg, events, j, issue), Document(cfg, events, k, issue));
  }

  // ---- Runs of dispositions, with audits between -------------------------------------------------

  lemma RememberPrecedes(ledger: Ledger, p: Pass, action: Action)
    requires p.key in ledger.dispositions ==> !Terminal(ledger.dispositions[p.key])
    requires !action.DispatchStarted?
    ensures Precedes(ledger, Remember(ledger, p, action))
  {
  }

  lemma StepGoesForward(cfg: Config, w: World, p: Pass, refused: bool)
    requires PassOk(cfg.issue, w, p)
    ensures MaybePrecedes(w.ledger, Step(cfg, w, p, refused).world.ledger)
  {
    if p.pc.SaveLedger? {
      RememberPrecedes(p.pc.ledger, p, p.pc.action);
    }
  }

  lemma NextGoesForward(cfg: Config, sys: System, e: Event)
    requires Invariant(cfg, sys)
    ensures MaybePrecedes(sys.world.ledger, Next(cfg, sys, e).world.ledger)
  {
    if e.Run? && e.id in sys.passes {
      StepGoesForward(cfg, sys.world, sys.passes[e.id], e.refused);
    } else if e.Audit? && AuditWrite(sys.world.ledger, e.ledger) {
      AuditPrecedes(sys.world.ledger, e.ledger);
    }
  }

  function LedgerAfter(cfg: Config, head: int, events: seq<Event>, n: nat): Option<Ledger>
    requires n <= |events|
  {
    Exec(cfg, head, events[..n]).world.ledger
  }

  lemma {:induction false} LedgersGoForward(cfg: Config, head: int, events: seq<Event>, i: nat, j: nat)
    requires i <= j <= |events|
    ensures MaybePrecedes(LedgerAfter(cfg, head, events, i), LedgerAfter(cfg, head, events, j))
    decreases j
  {
    if i < j {
      assert events[..j][..|events[..j]| - 1] == events[..j - 1];
      LedgersGoForward(cfg, head, events, i, j - 1);
      RunsKeepInvariant(cfg, head, events[..j - 1]);
      NextGoesForward(cfg, Exec(cfg, head, events[..j - 1]), events[j - 1]);
      Composes(LedgerAfter(cfg, head, events, i), LedgerAfter(cfg, head, events, j - 1),
               LedgerAfter(cfg, head, events, j));
    }
  }

  /** In every run of dispositions and audits a ledger, once left, never comes back: a pass whose base
      is no longer stored has lost its write. */
  lemma LedgersNeverReturn(cfg: Config, head: int, events: seq<Event>, i: nat, j: nat, k: nat)
    requires i <= j <= k <= |events| && LedgerAfter(cfg, head, events, i) == LedgerAfter(cfg, head, events, k)
    ensures LedgerAfter(cfg, head, events, j) == LedgerAfter(cfg, head, events, i)
  {
    LedgersGoForward(cfg, head, events, i, j);
    LedgersGoForward(cfg, head, events, j, k);
    NothingBetween(
      LedgerAfter(cfg, head, events, i), LedgerAfter(cfg, head, events, j), LedgerAfter(cfg, head, events, k));
  }
}
