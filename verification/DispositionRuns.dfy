/** Write-once dispositions and at most one body mutation per key, over every run. */
module DispositionRuns {
  import opened Common
  import opened AuditLedger
  import opened AuditDisposition
  import C = AuditClaim
  import AuditSafety

  // ---- The audit protocol is such an environment ------------------------------------------

  lemma WriteIsAuditWrite(stored: Option<Ledger>, w: C.Worker, c: Claim, next: Ledger)
    requires stored == w.base && next == C.WithClaim(w.base, w.key, c, w.month).(month := next.month)
    requires w.key in ClaimsOf(stored) ==> ClaimGoesOn(ClaimsOf(stored)[w.key], c)
    requires w.key in ClaimsOf(stored) ==> next.month == stored.value.month
    ensures AuditWrite(stored, next)
  {
  }

  lemma OtherStepsKeepDocs(cfg: C.Config, s: C.Shared, id: int, w: C.Worker, x: C.Input)
    requires !w.pc.ClaimSave? && !w.pc.UsageSave? && !w.pc.FinalSave?
    ensures C.Step(cfg, s, id, w, x).shared.docs == s.docs
  {
  }

  /** Every ledger that a step of the audit protocol stores for its issue is an allowed audit write. */
  lemma AuditStepsAreAuditWrites(cfg: C.Config, s: C.Shared, id: int, w: C.Worker, x: C.Input)
    requires AuditSafety.WorkerOk(cfg.cap, w) && w.key.issue in C.Step(cfg, s, id, w, x).shared.docs
    ensures AuditWrite(Get(s.docs, w.key.issue), C.Step(cfg, s, id, w, x).shared.docs[w.key.issue])
  {
    var t := C.Step(cfg, s, id, w, x).shared;
    if w.pc.ClaimSave? || w.pc.UsageSave? || w.pc.FinalSave? {
      if t.docs != s.docs {
        var next := t.docs[w.key.issue];
        WriteIsAuditWrite(Get(s.docs, w.key.issue), w, next.claims[w.key], next);
      }
    } else {
      OtherStepsKeepDocs(cfg, s, id, w, x);
    }
  }

  // ---- What no step undoes ----------------------------------------------------------------

  function DispositionOf(w: World, k: Key): Option<Disposition> {
    if w.ledger.Some? then Get(w.ledger.value.dispositions, k) else None
  }

  predicate Done(w: World, k: Key) {
    DispositionOf(w, k).Some? && Terminal(DispositionOf(w, k).value)
  }

  function ClaimOf(w: World, k: Key): Option<Claim> { Get(ClaimsOf(w.ledger), k) }

  predicate IsCompleted(c: Option<Claim>) {
    c.Some? && c.value.state == ClaimState.Completed && c.value.verdict.Some?
  }

  ghost predicate FinalKept(a: World, b: World) {
    && (forall k :: IsCompleted(ClaimOf(a, k)) ==> ClaimOf(b, k) == ClaimOf(a, k))
    && (forall k :: Done(a, k) ==> DispositionOf(b, k) == DispositionOf(a, k))
    && a.mutated <= b.mutated
  }

  function Wanted(v: Verdict): Action {
    match v
    case Rework => ReworkHandoff
    case Pass => PassCheckpoint
    case HumanRequired => HumanRequiredAction
  }

  /** The action fits the verdict of the key's completed claim. */
  predicate Fits(c: Option<Claim>, action: Action) {
    IsCompleted(c) && action == Wanted(c.value.verdict.value)
  }

  /** An action other than the human one has changed the body for this head. */
  predicate Shown(mutated: seq<Evidence>, head: int, action: Action) {
    && (action.ReworkHandoff? ==> Evidence(head, Handoff) in mutated)
    && (action.PassCheckpoint? ==> Evidence(head, Checkpoint) in mutated)
  }

  /** What a pass knows: its snapshot holds the key's final claim and no terminal disposition. */
  ghost predicate Snapshot(w: World, p: Pass, ledger: Ledger) {
    && IsCompleted(Get(ledger.claims, p.key)) && ClaimOf(w, p.key) == Get(ledger.claims, p.key)
    && (p.key in ledger.dispositions ==> !Terminal(ledger.dispositions[p.key]))
  }

  ghost predicate PassOk(issue: int, w: World, p: Pass) {
    p.key.issue == issue &&
    match p.pc
    case LoadLedger => true
    case LoadPacket(ledger) => Snapshot(w, p, ledger)
    case Reload(ledger, seen, m) => Snapshot(w, p, ledger) && About(w, p, seen, m)
    case CasPacket(ledger, seen, m) => Snapshot(w, p, ledger) && About(w, p, seen, m)
    case SaveLedger(ledger, action) =>
        Snapshot(w, p, ledger) && Fits(ClaimOf(w, p.key), action) && Shown(w.mutated, p.key.sha, action)
    case Ended(_) => true
  }

  /** The body the pass read is at its head and does not carry the marker it is about to write. */
  ghost predicate About(w: World, p: Pass, seen: Packet, m: Mutation) {
    Fits(ClaimOf(w, p.key), ActionOf(m)) && seen.head == p.key.sha && !PacketMarker(seen, p.key.sha, m)
  }

  ghost predicate WorldOk(issue: int, w: World) {
    && (forall e :: e in w.mutated ==> Fits(ClaimOf(w, Key(issue, e.head)), ActionOf(e.mutation)))
    && (forall k :: Done(w, k) ==>
                Fits(ClaimOf(w, k), DispositionOf(w, k).value.action)
                    && Shown(w.mutated, k.sha, DispositionOf(w, k).value.action))
  }

  ghost predicate Invariant(cfg: Config, sys: System) {
    WorldOk(cfg.issue, sys.world) && forall id :: id in sys.passes ==> PassOk(cfg.issue, sys.world, sys.passes[id])
  }

  lemma OtherPassOk(issue: int, a: World, b: World, p: Pass)
    requires PassOk(issue, a, p) && FinalKept(a, b)
    ensures PassOk(issue, b, p)
  {
    assert forall e :: e in a.mutated ==> e in b.mutated;
  }

  lemma SaveLedgerOk(cfg: Config, w: World, p: Pass, ledger: Ledger, action: Action)
    requires p.pc == SaveLedger(ledger, action) && PassOk(cfg.issue, w, p) && WorldOk(cfg.issue, w)
    ensures FinalKept(w, DoSaveLedger(cfg, w, p, ledger, action).world)
    ensures WorldOk(cfg.issue, DoSaveLedger(cfg, w, p, ledger, action).world)
  {
    var t := DoSaveLedger(cfg, w, p, ledger, action).world;
    if t != w {
      assert forall k :: ClaimOf(t, k) == ClaimOf(w, k);
      assert forall k :: DispositionOf(t, k) == if k == p.key then Some(Disposition(action, p.attempt))
          else DispositionOf(w, k);
    }
  }

  lemma CasPacketOk(cfg: Config, w: World, p: Pass, ledger: Ledger, seen: Packet, m: Mutation)
    requires p.pc == CasPacket(ledger, seen, m) && PassOk(cfg.issue, w, p) && WorldOk(cfg.issue, w)
    ensures FinalKept(w, DoCasPacket(w, p, ledger, seen, m).world)
    ensures WorldOk(cfg.issue, DoCasPacket(w, p, ledger, seen, m).world)
    ensures PassOk(cfg.issue, DoCasPacket(w, p, ledger, seen, m).world, DoCasPacket(w, p, ledger, seen, m).pass)
  {
    var t := DoCasPacket(w, p, ledger, seen, m).world;
    if t != w {
      assert Evidence(p.key.sha, m) in t.mutated;
      assert p.key == Key(cfg.issue, p.key.sha);
      assert forall k :: ClaimOf(t, k) == ClaimOf(w, k) && DispositionOf(t, k) == DispositionOf(w, k);
    }
  }

  lemma StepOk(cfg: Config, w: World, p: Pass, refused: bool)
    requires PassOk(cfg.issue, w, p) && WorldOk(cfg.issue, w)
    ensures FinalKept(w, Step(cfg, w, p, refused).world) && WorldOk(cfg.issue, Step(cfg, w, p, refused).world)
    ensures PassOk(cfg.issue, Step(cfg, w, p, refused).world, Step(cfg, w, p, refused).pass)
  {
    match p.pc
    case SaveLedger(ledger, action) => SaveLedgerOk(cfg, w, p, ledger, action);
    case CasPacket(ledger, seen, m) => CasPacketOk(cfg, w, p, ledger, seen, m);
    case _ =>
  }

  lemma AuditOk(issue: int, w: World, ledger: Ledger)
    requires WorldOk(issue, w) && AuditWrite(w.ledger, ledger)
    ensures FinalKept(w, w.(ledger := Some(ledger))) && WorldOk(issue, w.(ledger := Some(ledger)))
  {
    var t := w.(ledger := Some(ledger));
    assert forall k :: Done(t, k) ==> DispositionOf(t, k) == DispositionOf(w, k);
  }

  lemma SameLedgerOk(issue: int, w: World, t: World)
    requires WorldOk(issue, w) && t.ledger == w.ledger && t.mutated == w.mutated
    ensures FinalKept(w, t) && WorldOk(issue, t)
  {
    assert forall k :: ClaimOf(t, k) == ClaimOf(w, k) && DispositionOf(t, k) == DispositionOf(w, k);
  }

  lemma NextOk(cfg: Config, sys: System, e: Event)
    requires Invariant(cfg, sys)
    ensures Invariant(cfg, Next(cfg, sys, e)) && FinalKept(sys.world, Next(cfg, sys, e).world)
  {
    var t := Next(cfg, sys, e);
    if e.Run? && e.id in sys.passes {
      StepOk(cfg, sys.world, sys.passes[e.id], e.refused);
    } else if e.Audit? && t != sys {
      AuditOk(cfg.issue, sys.world, e.ledger);
    } else {
      SameLedgerOk(cfg.issue, sys.world, t.world);
    }
    forall id | id in t.passes ensures PassOk(cfg.issue, t.world, t.passes[id]) {
      if id in sys.passes && t.passes[id] == sys.passes[id] {
        OtherPassOk(cfg.issue, sys.world, t.world, sys.passes[id]);
      }
    }
  }

  /** In every run, each recorded disposition fits the verdict of its completed claim, and a handoff
      or checkpoint is recorded, and the body changed, only for such a claim. */
  lemma {:induction false} RunsKeepInvariant(cfg: Config, head: int, events: seq<Event>)
    ensures Invariant(cfg, Exec(cfg, head, events))
  {
    if events != [] {
      RunsKeepInvariant(cfg, head, events[..|events| - 1]);
      NextOk(cfg, Exec(cfg, head, events[..|events| - 1]), events[|events| - 1]);
    }
  }

  /** Completed verdicts and terminal dispositions are write-once over whole runs. */
  lemma {:induction false} DispositionsAreWriteOnce(cfg: Config, head: int, events: seq<Event>, n: nat)
    requires n <= |events|
    ensures FinalKept(Exec(cfg, head, events[..n]).world, Exec(cfg, head, events).world)
    decreases |events|
  {
    if n == |events| {
      assert events[..n] == events;
    } else {
      var init := events[..|events| - 1];
      assert init[..n] == events[..n];
      DispositionsAreWriteOnce(cfg, head, init, n);
      RunsKeepInvariant(cfg, head, init);
      NextOk(cfg, Exec(cfg, head, init), events[|events| - 1]);
    }
  }

  // ---- At most one mutation per key --------------------------------------------------------

  predicate Once(mutated: seq<Evidence>) {
    forall i, j :: 0 <= i < j < |mutated| ==> mutated[i].head != mutated[j].head
  }

  /** While a head stands, the evidence of its mutation stands; heads left behind are known. */
  ghost predicate Stands(w: World) {
    && w.packet.head in w.heads
    && (forall e :: e in w.mutated ==> e.head in w.heads)
    && (forall e :: e in w.mutated && e.head == w.packet.head ==> PacketMarker(w.packet, e.head, e.mutation))
  }

  lemma CasPacketOnce(cfg: Config, w: World, p: Pass, ledger: Ledger, seen: Packet, m: Mutation)
    requires p.pc == CasPacket(ledger, seen, m) && PassOk(cfg.issue, w, p) && WorldOk(cfg.issue, w)
    requires Once(w.mutated) && Stands(w)
    ensures Once(DoCasPacket(w, p, ledger, seen, m).world.mutated) && Stands(DoCasPacket(w, p, ledger, seen, m).world)
  {
    if w.packet == seen {
      assert p.key == Key(cfg.issue, p.key.sha);
      forall e | e in w.mutated ensures e.head != p.key.sha {
        assert Fits(ClaimOf(w, Key(cfg.issue, e.head)), ActionOf(e.mutation));
      }
    }
  }

  lemma NextOnce(cfg: Config, sys: System, e: Event)
    requires cfg.keepsEvidence && cfg.freshHeads && Invariant(cfg, sys) && Once(sys.world.mutated) && Stands(sys.world)
    ensures Once(Next(cfg, sys, e).world.mutated) && Stands(Next(cfg, sys, e).world)
  {
    if e.Run? && e.id in sys.passes && sys.passes[e.id].pc.CasPacket? {
      var p := sys.passes[e.id];
      CasPacketOnce(cfg, sys.world, p, p.pc.ledger, p.pc.seen, p.pc.m);
    }
  }

  lemma {:induction false} RunsMutateOnce(cfg: Config, head: int, events: seq<Event>)
    requires cfg.keepsEvidence && cfg.freshHeads
    ensures Once(Exec(cfg, head, events).world.mutated) && Stands(Exec(cfg, head, events).world)
  {
    if events != [] {
      RunsMutateOnce(cfg, head, events[..|events| - 1]);
      RunsKeepInvariant(cfg, head, events[..|events| - 1]);
      NextOnce(cfg, Exec(cfg, head, events[..|events| - 1]), events[|events| - 1]);
    }
  }

  lemma Then(cfg: Config, head: int, past: seq<Event>, e: Event) returns (events: seq<Event>)
    ensures Exec(cfg, head, events) == Next(cfg, Exec(cfg, head, past), e)
  {
    events := past + [e];
    assert events[..|events| - 1] == past;
  }

  const REWORK := Claim(ClaimState.Completed, 0, 0, 0, Some(Rework), Some(0))
  function Audited(cfg: Config): Ledger { Ledger(0, map[Key(cfg.issue, 7) := REWORK], map[]) }

  /** A whole handoff by a new pass, up to and including the body's mutation. */
  lemma HandOff(cfg: Config, past: seq<Event>, id: int, attempt: int, held: Ledger) returns (events: seq<Event>)
    requires id !in Exec(cfg, 7, past).passes && Exec(cfg, 7, past).world.ledger == Some(held)
    requires Get(held.claims, Key(cfg.issue, 7)) == Some(REWORK) && Key(cfg.issue, 7) !in held.dispositions
    requires Exec(cfg, 7, past).world.packet.head == 7 && Exec(cfg, 7, past).world.packet.evidence.None?
    ensures Exec(cfg, 7, events).passes
      == Exec(cfg, 7, past).passes[
           id := Pass.Pass(Key(cfg.issue, 7), attempt, None, Pc.SaveLedger(held, ReworkHandoff))]
    ensures Exec(cfg, 7, events).world == Exec(cfg, 7, past).world.(
      packet := Packet(7, Some(Evidence(7, Handoff)), Exec(cfg, 7, past).world.packet.token + 1),
      mutated := Exec(cfg, 7, past).world.mutated + [Evidence(7, Handoff)])
  {
    var w := Exec(cfg, 7, past).world;
    events := Then(cfg, 7, past, Begin(id, 7, attempt, None));
    events := Then(cfg, 7, events, Run(id, false));
    assert Exec(cfg, 7, events).passes[id].pc == LoadPacket(held);
    events := Then(cfg, 7, events, Run(id, false));
    assert Exec(cfg, 7, events).passes[id].pc == Reload(held, w.packet, Handoff);
    events := Then(cfg, 7, events, Run(id, false));
    events := Then(cfg, 7, events, Run(id, false));
  }

  /** A crash before the ledger write, and an editor who wipes the evidence, or takes the head
      away and back: the same key changes the body twice. */
  lemma MutatedTwice(cfg: Config) returns (events: seq<Event>)
    requires !cfg.keepsEvidence || !cfg.freshHeads
    ensures !Once(Exec(cfg, 7, events).world.mutated)
  {
    events := Then(cfg, 7, [], Audit(Audited(cfg)));
    events := HandOff(cfg, events, 1, 1, Audited(cfg));
    if cfg.keepsEvidence {
      events := Then(cfg, 7, events, Edit(8, None));
      events := Then(cfg, 7, events, Edit(7, None));
    } else {
      events := Then(cfg, 7, events, Edit(7, None));
    }
    events := HandOff(cfg, events, 2, 1, Audited(cfg));
    var mutated := Exec(cfg, 7, events).world.mutated;
    assert mutated[0] == mutated[1] == Evidence(7, Handoff);
  }

  /** The body is mutated at most once per key in every run, exactly when editors leave standing
      evidence alone and no head comes back. */
  lemma MutatedAtMostOnce(cfg: Config)
    ensures (forall head, events :: Once(Exec(cfg, head, events).world.mutated))
      <==> cfg.keepsEvidence && cfg.freshHeads
  {
    if cfg.keepsEvidence && cfg.freshHeads {
      forall head, events ensures Once(Exec(cfg, head, events).world.mutated) {
        RunsMutateOnce(cfg, head, events);
      }
    } else {
      var events := MutatedTwice(cfg);
    }
  }

  // ---- What the marker check gives away ------------------------------------------------------

  /** A rework for the body's current head is dropped as a duplicate exactly when the body still
      shows some handoff, whichever head that handoff was for: LAST_VERIFIED_HEAD itself contains
      the text the marker check looks for. */
  lemma ReworkDropped(w: World, p: Pass, ledger: Ledger)
    requires p.pc == LoadPacket(ledger) && Fits(Get(ledger.claims, p.key), ReworkHandoff) && w.packet.head == p.key.sha
    ensures DoLoadPacket(w, p, ledger, false).pc == Ended(Duplicate)
       <==> w.packet.evidence.Some? && w.packet.evidence.value.mutation == Handoff
  {
  }

  function AuditedBoth(cfg: Config): Ledger {
    Audited(cfg).(claims := map[Key(cfg.issue, 7) := REWORK, Key(cfg.issue, 8) := REWORK])
  }

  lemma NextHead(cfg: Config, past: seq<Event>) returns (events: seq<Event>)
    requires Exec(cfg, 7, past).world.ledger == Some(Audited(cfg)) && Exec(cfg, 7, past).world.heads == {7}
    requires Exec(cfg, 7, past).world.packet.head == 7
    ensures Exec(cfg, 7, events).passes == Exec(cfg, 7, past).passes
      && Exec(cfg, 7, events).world.mutated == Exec(cfg, 7, past).world.mutated
    ensures Exec(cfg, 7, events).world.ledger == Some(AuditedBoth(cfg))
    ensures Exec(cfg, 7, events).world.packet.head == 8
      && Exec(cfg, 7, events).world.packet.evidence == Some(Evidence(7, Handoff))
  {
    events := Then(cfg, 7, past, Audit(AuditedBoth(cfg)));
    events := Then(cfg, 7, events, Edit(8, Some(Evidence(7, Handoff))));
  }

  /** So the rework of a new head can be lost although nothing was ever done about it. */
  lemma NextHeadsReworkIsLost(cfg: Config) returns (events: seq<Event>)
    ensures 9 in Exec(cfg, 7, events).passes && Exec(cfg, 7, events).passes[9].pc == Ended(Duplicate)
    ensures Exec(cfg, 7, events).passes[9].key == Key(cfg.issue, 8) && Exec(cfg, 7, events).world.packet.head == 8
    ensures Fits(ClaimOf(Exec(cfg, 7, events).world, Key(cfg.issue, 8)), ReworkHandoff)
    ensures Exec(cfg, 7, events).world.mutated == [Evidence(7, Handoff)]
      && !Done(Exec(cfg, 7, events).world, Key(cfg.issue, 8))
  {
    events := Then(cfg, 7, [], Audit(Audited(cfg)));
    events := HandOff(cfg, events, 1, 1, Audited(cfg));
    events := NextHead(cfg, events);
    var next := AuditedBoth(cfg);
    events := Then(cfg, 7, events, Begin(9, 8, 1, None));
    events := Then(cfg, 7, events, Run(9, false));
    assert Exec(cfg, 7, events).passes[9].pc == LoadPacket(next);
    events := Then(cfg, 7, events, Run(9, false));
  }
}
