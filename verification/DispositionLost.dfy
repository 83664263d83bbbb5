/** When the disposition of a mutated body can still be recorded, and when it is lost for ever. */
module DispositionLost {
  import opened Common
  import opened AuditLedger
  import opened AuditDisposition
  import opened DispositionRuns
  import opened LedgerOrder
  import C = AuditClaim
  import AuditSafety

  // ---- What a pass holds is the past ----------------------------------------------------------

  function BaseOf(p: Pass): Option<Ledger> {
    match p.pc
    case LoadPacket(ledger) => Some(ledger)
    case Reload(ledger, _, _) => Some(ledger)
    case CasPacket(ledger, _, _) => Some(ledger)
    case SaveLedger(ledger, _) => Some(ledger)
    case _ => None
  }

  /** The stored ledger is the one the pass holds, or a later one. */
  predicate BaseIsPast(w: World, p: Pass) {
    MaybePrecedes(BaseOf(p), w.ledger)
  }

  ghost predicate BasesArePast(sys: System) {
    forall id :: id in sys.passes ==> BaseIsPast(sys.world, sys.passes[id])
  }

  lemma StepPast(cfg: Config, w: World, p: Pass, refused: bool)
    requires PassOk(cfg.issue, w, p) && BaseIsPast(w, p)
    ensures BaseIsPast(Step(cfg, w, p, refused).world, Step(cfg, w, p, refused).pass)
  {
    var m := Step(cfg, w, p, refused);
    if p.pc.SaveLedger? {
      assert BaseOf(m.pass).None?;
    }
  }

  lemma NextPast(cfg: Config, sys: System, e: Event)
    requires Invariant(cfg, sys) && BasesArePast(sys)
    ensures BasesArePast(Next(cfg, sys, e))
  {
    NextGoesForward(cfg, sys, e);
    var t := Next(cfg, sys, e);
    forall id | id in t.passes ensures BaseIsPast(t.world, t.passes[id]) {
      if id in sys.passes && t.passes[id] == sys.passes[id] {
        Composes(BaseOf(sys.passes[id]), sys.world.ledger, t.world.ledger);
      } else if e.Run? {
        StepPast(cfg, sys.world, sys.passes[id], e.refused);
      }
    }
  }

  lemma {:induction false} RunsKeepPast(cfg: Config, head: int, events: seq<Event>)
    ensures BasesArePast(Exec(cfg, head, events))
  {
    if events != [] {
      RunsKeepPast(cfg, head, events[..|events| - 1]);
      RunsKeepInvariant(cfg, head, events[..|events| - 1]);
      NextPast(cfg, Exec(cfg, head, events[..|events| - 1]), events[|events| - 1]);
    }
  }

  // ---- Who can still record ---------------------------------------------------------------------

  /** The body was changed for the key. */
  predicate Mutated(w: World, key: Key) {
    exists i | 0 <= i < |w.mutated| :: w.mutated[i].head == key.sha
  }

  /** The pass stands before its ledger write for the key, with an attempt number that can be
      recorded, and the ledger it holds is still the stored one. */
  predicate Standing(w: World, p: Pass, key: Key) {
    p.key == key && p.pc.SaveLedger? && 1 <= p.attempt <= 100 && w.ledger == Some(p.pc.ledger)
  }

  predicate CanRecord(sys: System, key: Key) {
    exists id | id in sys.passes :: Standing(sys.world, sys.passes[id], key)
  }

  ghost predicate Lost(sys: System, key: Key) {
    Mutated(sys.world, key) && !Done(sys.world, key) && !CanRecord(sys, key)
  }

  /** The mutation that was made is the one the key's verdict wants. */
  lemma MutationFits(cfg: Config, w: World, key: Key) returns (m: Mutation)
    requires WorldOk(cfg.issue, w) && Mutated(w, key) && key.issue == cfg.issue
    ensures Fits(ClaimOf(w, key), ActionOf(m)) && Evidence(key.sha, m) in w.mutated
  {
    var i :| 0 <= i < |w.mutated| && w.mutated[i].head == key.sha;
    m := w.mutated[i].mutation;
    assert w.mutated[i] in w.mutated && key == Key(cfg.issue, w.mutated[i].head);
  }

  /** A step for the key itself neither records it nor comes to stand before its ledger write. */
  lemma OwnStepLost(cfg: Config, w: World, p: Pass, refused: bool)
    requires WorldOk(cfg.issue, w) && PassOk(cfg.issue, w, p) && Stands(w)
    requires Mutated(w, p.key) && !Done(w, p.key) && !Standing(w, p, p.key)
    ensures Step(cfg, w, p, refused).world == w && !Standing(w, Step(cfg, w, p, refused).pass, p.key)
  {
    var m := MutationFits(cfg, w, p.key);
    assert w.packet.head == p.key.sha ==> PacketMarker(w.packet, p.key.sha, m);
    match p.pc
    case SaveLedger(ledger, action) =>
      assert p.key in Remember(ledger, p, action).dispositions;
    case _ =>
  }

  /** No later ledger is the one that a pass holds and that is no longer stored. */
  lemma StaleStaysLost(w: World, t: World, p: Pass)
    requires BaseIsPast(w, p) && MaybePrecedes(w.ledger, t.ledger) && !Standing(w, p, p.key)
    ensures !Standing(t, p, p.key)
  {
    if p.pc.SaveLedger? && t.ledger == Some(p.pc.ledger) {
      NothingBetween(BaseOf(p), w.ledger, t.ledger);
    }
  }

  lemma RunStaysLost(cfg: Config, sys: System, id: int, refused: bool, key: Key)
    requires Invariant(cfg, sys) && Stands(sys.world) && BasesArePast(sys) && Lost(sys, key) && key.issue == cfg.issue
    requires id in sys.passes
    ensures !CanRecord(Next(cfg, sys, Run(id, refused)), key) && !Done(Next(cfg, sys, Run(id, refused)).world, key)
  {
    var p := sys.passes[id];
    var m := Step(cfg, sys.world, p, refused);
    if p.key == key {
      OwnStepLost(cfg, sys.world, p, refused);
    } else {
      KeyUntouched(cfg, sys.world, p, refused, key);
      StepGoesForward(cfg, sys.world, p, refused);
      forall j | j in sys.passes && j != id ensures !Standing(m.world, sys.passes[j], key) {
        if sys.passes[j].key == key {
          StaleStaysLost(sys.world, m.world, sys.passes[j]);
        }
      }
    }
  }

  lemma KeyUntouched(cfg: Config, w: World, p: Pass, refused: bool, key: Key)
    requires p.key != key && PassOk(cfg.issue, w, p)
    ensures DispositionOf(Step(cfg, w, p, refused).world, key) == DispositionOf(w, key)
    ensures Step(cfg, w, p, refused).pass.key == p.key
  {
  }

  lemma NextLost(cfg: Config, sys: System, e: Event, key: Key)
    requires Invariant(cfg, sys) && Stands(sys.world) && BasesArePast(sys) && Lost(sys, key) && key.issue == cfg.issue
    ensures Lost(Next(cfg, sys, e), key)
  {
    NextOk(cfg, sys, e);
    var t := Next(cfg, sys, e);
    var i :| 0 <= i < |sys.world.mutated| && sys.world.mutated[i].head == key.sha;
    assert t.world.mutated[i] == sys.world.mutated[i];
    if e.Run? && e.id in sys.passes {
      RunStaysLost(cfg, sys, e.id, e.refused, key);
    } else if e.Audit? && t != sys {
      var m := MutationFits(cfg, sys.world, key);
      AuditStaysLost(sys, e.ledger, key);
    }
  }

  lemma AuditStaysLost(sys: System, l: Ledger, key: Key)
    requires Lost(sys, key) && BasesArePast(sys) && sys.world.ledger.Some? && AuditWrite(sys.world.ledger, l)
    ensures !CanRecord(sys.(world := sys.world.(ledger := Some(l))), key)
    ensures !Done(sys.world.(ledger := Some(l)), key)
  {
    AuditPrecedes(sys.world.ledger, l);
    forall id | id in sys.passes ensures !Standing(sys.world.(ledger := Some(l)), sys.passes[id], key) {
      if sys.passes[id].key == key {
        StaleStaysLost(sys.world, sys.world.(ledger := Some(l)), sys.passes[id]);
      }
    }
  }

  /** Once nobody stands before the ledger write, no later pass records the disposition: each finds
      the marker and stops. */
  lemma {:induction false} StrandedForEver(cfg: Config, head: int, past: seq<Event>, events: seq<Event>, key: Key)
    requires cfg.keepsEvidence && cfg.freshHeads && key.issue == cfg.issue && Lost(Exec(cfg, head, past), key)
    ensures Lost(Exec(cfg, head, past + events), key)
    decreases |events|
  {
    if events == [] {
      assert past + events == past;
    } else {
      var longer := past + [events[0]];
      assert longer[..|longer| - 1] == past && longer + events[1..] == past + events;
      RunsKeepInvariant(cfg, head, past);
      RunsMutateOnce(cfg, head, past);
      RunsKeepPast(cfg, head, past);
      NextLost(cfg, Exec(cfg, head, past), events[0], key);
      StrandedForEver(cfg, head, longer, events[1..], key);
    }
  }

  /** A standing pass records it by its next step. */
  lemma StandingRecords(cfg: Config, head: int, past: seq<Event>, id: int, key: Key)
    requires var sys := Exec(cfg, head, past); id in sys.passes && Standing(sys.world, sys.passes[id], key)
    ensures Done(Exec(cfg, head, past + [Run(id, false)]).world, key)
  {
    RunsKeepInvariant(cfg, head, past);
    assert (past + [Run(id, false)])[..|past|] == past;
  }

  /** The disposition of a mutated body, not yet recorded, is recorded in some continuation of the run
      exactly when a pass for its key still stands before its ledger write, with an attempt number in
      1..100 and a base ledger that is still the stored one. */
  lemma RecordedIffStanding(cfg: Config, head: int, past: seq<Event>, key: Key)
    requires cfg.keepsEvidence && cfg.freshHeads && key.issue == cfg.issue
    requires Mutated(Exec(cfg, head, past).world, key) && !Done(Exec(cfg, head, past).world, key)
    ensures (exists events :: Done(Exec(cfg, head, past + events).world, key))
      <==> CanRecord(Exec(cfg, head, past), key)
  {
    if CanRecord(Exec(cfg, head, past), key) {
      var sys := Exec(cfg, head, past);
      var id :| id in sys.passes && Standing(sys.world, sys.passes[id], key);
      StandingRecords(cfg, head, past, id, key);
    } else {
      forall events ensures !Done(Exec(cfg, head, past + events).world, key) {
        StrandedForEver(cfg, head, past, events, key);
      }
    }
  }

  // ---- How it gets lost -------------------------------------------------------------------------

  /** A pass crashes between the body's write and the ledger's. */
  lemma LostByCrash(cfg: Config) returns (events: seq<Event>)
    ensures Lost(Exec(cfg, 7, events), Key(cfg.issue, 7))
  {
    events := Then(cfg, 7, [], Audit(Audited(cfg)));
    events := HandOff(cfg, events, 1, 1, Audited(cfg));
    events := Then(cfg, 7, events, Crash(1));
    assert Exec(cfg, 7, events).world.mutated[0] == Evidence(7, Handoff);
  }

  /** An attempt number that cannot be recorded is refused only after the body was changed. */
  lemma LostByAttempt(cfg: Config, attempt: int) returns (events: seq<Event>)
    requires !(1 <= attempt <= 100)
    ensures Lost(Exec(cfg, 7, events), Key(cfg.issue, 7))
  {
    events := Then(cfg, 7, [], Audit(Audited(cfg)));
    events := HandOff(cfg, events, 1, attempt, Audited(cfg));
    assert Exec(cfg, 7, events).world.mutated[0] == Evidence(7, Handoff);
  }

  /** The next head's audit is under way: its claim is written, its result is not. */
  function Beside(cfg: Config): Ledger {
    Audited(cfg).(claims := Audited(cfg).claims[Key(cfg.issue, 8) := Claim(Claimed, 0, 0, 1, None, None)])
  }

  /** Its result is saved. */
  function WithUsage(cfg: Config): Ledger {
    var used := Claim(Claimed, 0, 0, 1, Some(Verdict.Pass), Some(5));
    Beside(cfg).(claims := Beside(cfg).claims[Key(cfg.issue, 8) := used])
  }

  function Usage(cfg: Config): C.Worker {
    C.Worker(Key(cfg.issue, 8), C.Limits(0, 0, 0, None, None), 0, 1, C.UsageSave(5, Verdict.Pass), Some(Beside(cfg)), 0)
  }

  /** That is what the audit protocol does from there. */
  lemma UsageIsSaved(cfg: Config, audits: C.Config, s: C.Shared, id: int, x: C.Input)
    requires Get(s.docs, cfg.issue) == Some(Beside(cfg))
    ensures AuditSafety.WorkerOk(audits.cap, Usage(cfg))
    ensures Get(C.Step(audits, s, id, Usage(cfg), x).shared.docs, cfg.issue) == Some(WithUsage(cfg))
  {
  }

  /** A run in which a live pass can record what it has done, until the audit of the next head saves
      its usage: then the ledger the pass holds is gone for good, and the disposition with it. */
  lemma LostByAudit(cfg: Config) returns (past: seq<Event>)
    ensures CanRecord(Exec(cfg, 7, past), Key(cfg.issue, 7))
    ensures Lost(Exec(cfg, 7, past + [Audit(WithUsage(cfg))]), Key(cfg.issue, 7))
  {
    past := Then(cfg, 7, [], Audit(Audited(cfg)));
    past := Then(cfg, 7, past, Audit(Beside(cfg)));
    past := HandOff(cfg, past, 1, 1, Beside(cfg));
    assert Standing(Exec(cfg, 7, past).world, Exec(cfg, 7, past).passes[1], Key(cfg.issue, 7));
    var events := past + [Audit(WithUsage(cfg))];
    assert events[..|events| - 1] == past;
    assert Exec(cfg, 7, events).world.mutated[0] == Evidence(7, Handoff);
    assert Beside(cfg).claims[Key(cfg.issue, 8)] != WithUsage(cfg).claims[Key(cfg.issue, 8)];
    assert Exec(cfg, 7, events).passes.Keys == {1} && Exec(cfg, 7, events).passes[1].pc.ledger == Beside(cfg);
  }
}
