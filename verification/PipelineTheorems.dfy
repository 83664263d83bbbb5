/** What holds in every run of the pipeline: valid ledgers, one-shot dispatch, stable sources. */
module PipelineTheorems {
  import opened Common
  import opened Pipeline
  import opened PipelineBuild
  import opened PipelineStable
  import opened PipelineRuns
  import opened PipelineInvariant
  import opened PipelineSteps

  ghost predicate Fine(w: World, t: int, m: Move) {
    Keeps(w, m.world, t) && ThreadInv(m.world, t, m.pc)
  }

  lemma StepReserve(w: World, t: int, pc: Pc, e: Event)
    requires WorldInv(w) && pc.Built? && e.Run?
    ensures Fine(w, t, Step(w, t, pc, e))
  {
    ReserveRecordKeeps(w, t, pc.auth, pc.cycle, pc.effect);
  }

  lemma StepPublish(w: World, t: int, pc: Pc, e: Event)
    requires WorldInv(w) && pc.RecordReserved? && e.Run?
    ensures Fine(w, t, Step(w, t, pc, e))
  {
    PublishKeeps(w, t, pc.auth, pc.cycle, pc.effect);
  }

  lemma StepFinishRecord(w: World, t: int, pc: Pc, e: Event)
    requires WorldInv(w) && ThreadInv(w, t, pc) && pc.EffectDone? && e.Run?
    ensures Fine(w, t, Step(w, t, pc, e))
  {
    FinishRecordKeeps(w, t, pc.auth, pc.cycle, pc.effect, pc.receipt);
    FinishedRecordThread(w, pc.auth, pc.cycle, pc.effect, pc.receipt);
  }

  lemma FinishedRecordThread(w: World, auth: Authorization, cycle: Id, effect: Id, r: Receipt)
    ensures DoFinishRecord(w, auth, cycle, effect, r).pc == Over
  {
  }

  lemma StepEffect(w: World, t: int, pc: Pc, e: Event)
    requires WorldInv(w) && ThreadInv(w, t, pc) && e.Run?
    requires pc.Ready? || pc.Calling?
    ensures Fine(w, t, Step(w, t, pc, e))
  {
    if pc.Ready? {
      ReserveEffectKeeps(w, t, pc.auth, Some(pc.cycle), pc.effect, e.valid);
    } else if e.finish {
      FinishEffectKeeps(w, t, pc.auth, pc.cycleOf, pc.effect, pc.items);
    } else {
      CallKeeps(w, t, pc.auth, pc.cycleOf, pc.effect, pc.items, e.index, e.answer);
    }
  }

  lemma StepRest(w: World, t: int, pc: Pc, e: Event)
    requires WorldInv(w) && ThreadInv(w, t, pc) && e.Run?
    requires pc.JoinBuilt? || pc.ClaimReserved? || pc.ClaimJoinBuilt? || pc.Over?
    ensures Fine(w, t, Step(w, t, pc, e))
  {
    RestIs(w, t, pc, e);
    if pc.JoinBuilt? {
      RecordJoinKeeps(w, t, pc.join);
    } else if pc.ClaimReserved? {
      FinishClaimKeeps(w, t, pc.claim, pc.handoff, e.valid);
    } else if pc.ClaimJoinBuilt? {
      RecordClaimJoinKeeps(w, t, pc.claimJoin);
    } else {
      NothingChanges(w, t);
    }
  }

  /** The last update of a caller, after which it is over. */
  lemma RestIs(w: World, t: int, pc: Pc, e: Event)
    requires e.Run? && (pc.JoinBuilt? || pc.ClaimReserved? || pc.ClaimJoinBuilt? || pc.Over?)
    ensures Step(w, t, pc, e).pc == Over
    ensures Step(w, t, pc, e).world ==
            match pc
            case JoinBuilt(j) => DoRecordJoin(w, j).world
            case ClaimReserved(claim, h) => DoFinishClaim(w, claim, h, e.valid).world
            case ClaimJoinBuilt(c) => DoRecordClaimJoin(w, c).world
            case _ => w
  {
  }

  lemma StepKeeps(w: World, t: int, pc: Pc, e: Event)
    requires WorldInv(w) && ThreadInv(w, t, pc) && e.Run?
    ensures Fine(w, t, Step(w, t, pc, e))
  {
    if pc.Built? {
      StepReserve(w, t, pc, e);
    } else if pc.RecordReserved? {
      StepPublish(w, t, pc, e);
    } else if pc.EffectDone? {
      StepFinishRecord(w, t, pc, e);
    } else if pc.Ready? || pc.Calling? {
      StepEffect(w, t, pc, e);
    } else {
      StepRest(w, t, pc, e);
    }
  }

  lemma BuiltJoinThread(w: World, t: int, o: Observation)
    requires EffectsInv(w.effects) && BuildJoin(w.effects, o).Some?
    ensures ThreadInv(w, t, JoinBuilt(BuildJoin(w.effects, o).value))
  {
    var i := FoundEffect(w.effects, o.effect);
    assert EffectOk(w.effects[i]);
    BuiltJoinIsValid(w.effects, o);
  }

  lemma BindingsReflect(j: Join, refs: map<Id, ClaimReceipt>)
    requires forall k :: 0 <= k < |j.outcomes| ==> j.outcomes[k].node in refs
    ensures OutcomesOf(Bindings(j.outcomes, refs)) == j.outcomes && BindingsMatch(j, Bindings(j.outcomes, refs))
  {
    var bs := Bindings(j.outcomes, refs);
    assert forall k :: 0 <= k < |bs| ==> OutcomeOf(bs[k]) == j.outcomes[k];
    assert OutcomesOf(bs) == j.outcomes;
    forall i | 0 <= i < |j.outcomes| ensures HasBinding(bs, j.outcomes[i].node) {
      assert bs[i].node == j.outcomes[i].node;
    }
  }

  lemma JoinInLedger(es: seq<Effect>, js: seq<Join>, j: Join)
    requires JoinsLoad(es, js) && j in js
    ensures JoinOk(j) && JoinBound(es, j)
  {
  }

  /** A claim-bound join takes over outcomes, omissions and result of its dispatch join, and passes
      the validator and the binding check. */
  lemma BuiltClaimJoinIsBound(w: World, id: Id, j: Join, refs: map<Id, ClaimReceipt>)
    requires BuildClaimJoin(w, id, j, refs).Some?
    ensures ClaimJoinBound(w.effects, w.handoffs, w.claims, w.joins, BuildClaimJoin(w, id, j, refs).value)
  {
    BindingsReflect(j, refs);
    BoundClaimJoin(w, BuildClaimJoin(w, id, j, refs).value, refs);
  }

  lemma BoundClaimJoin(w: World, c: ClaimJoin, refs: map<Id, ClaimReceipt>)
    requires c.join in w.joins && Refers(w, c.join, refs) && c.bindings == Bindings(c.join.outcomes, refs)
      && BindingsMatch(c.join, c.bindings)
    requires c == ClaimJoin(c.id, c.join, c.join.result, c.join.complete, c.join.failed, c.join.human, c.bindings,
      c.join.omissions)
    ensures ClaimJoinBound(w.effects, w.handoffs, w.claims, w.joins, c)
  {
  }

  lemma BuiltClaimJoinIsValid(w: World, id: Id, j: Join, refs: map<Id, ClaimReceipt>)
    requires BuildClaimJoin(w, id, j, refs).Some?
    ensures ClaimJoinOk(BuildClaimJoin(w, id, j, refs).value)
  {
    BindingsReflect(j, refs);
    JoinInLedger(w.effects, w.joins, j);
    ValidClaimJoin(BuildClaimJoin(w, id, j, refs).value, refs);
  }

  lemma ValidClaimJoin(c: ClaimJoin, refs: map<Id, ClaimReceipt>)
    requires JoinOk(c.join) && (forall k :: 0 <= k < |c.join.outcomes| ==> c.join.outcomes[k].node in refs)
    requires forall i, k ::
        0 <= i < k < |c.join.outcomes| ==> refs[c.join.outcomes[i].node] != refs[c.join.outcomes[k].node]
    requires c.bindings == Bindings(c.join.outcomes, refs) && OutcomesOf(c.bindings) == c.join.outcomes
    requires c == ClaimJoin(c.id, c.join, c.join.result, c.join.complete, c.join.failed, c.join.human, c.bindings,
      c.join.omissions)
    ensures ClaimJoinOk(c)
  {
  }

  lemma EnterBuilding(cfg: Config, w: World, t: int, e: Event)
    requires WorldInv(w) && (e.StartJoin? || e.StartClaimJoin?)
    ensures Enter(cfg, w, t, e).world == w && ThreadInv(w, t, Enter(cfg, w, t, e).pc)
  {
    if e.StartJoin? {
      EnterIsJoin(cfg, w, t, e);
      if BuildJoin(w.effects, e.observation).Some? {
        BuiltJoinThread(w, t, e.observation);
      }
    } else {
      EnterIsClaimJoin(cfg, w, t, e);
      if BuildClaimJoin(w, e.id, e.join, e.refs).Some? {
        BuiltClaimJoinIsValid(w, e.id, e.join, e.refs);
      }
    }
  }

  lemma EnterIsJoin(cfg: Config, w: World, t: int, e: Event)
    requires e.StartJoin?
    ensures var built := BuildJoin(w.effects, e.observation);
            Enter(cfg, w, t, e) == Move(w, if built.Some? then JoinBuilt(built.value) else Over)
  {
  }

  lemma EnterIsClaimJoin(cfg: Config, w: World, t: int, e: Event)
    requires e.StartClaimJoin?
    ensures var built := BuildClaimJoin(w, e.id, e.join, e.refs);
            Enter(cfg, w, t, e) == Move(w, if built.Some? then ClaimJoinBuilt(built.value) else Over)
  {
  }

  lemma EnterClaim(cfg: Config, w: World, t: int, e: Event)
    requires WorldInv(w) && e.StartClaim?
    ensures Fine(w, t, Enter(cfg, w, t, e))
  {
    ReservedClaimFine(w, t, e.claim, e.handoff, e.current);
    EnterIsReserve(cfg, w, t, e);
  }

  lemma ReservedClaimFine(w: World, t: int, claim: Id, h: Handoff, current: bool)
    requires WorldInv(w)
    ensures Fine(w, t, DoReserveClaim(w, claim, h, current))
  {
    ReserveClaimKeeps(w, t, claim, h, current);
    ReservedClaimThread(w, t, claim, h, current);
  }

  lemma ReservedClaimThread(w: World, t: int, claim: Id, h: Handoff, current: bool)
    ensures ThreadInv(DoReserveClaim(w, claim, h, current).world, t, DoReserveClaim(w, claim, h, current).pc)
  {
    var pc := DoReserveClaim(w, claim, h, current).pc;
    assert pc.Over? || pc.ClaimReserved?;
  }

  lemma EnterIsReserve(cfg: Config, w: World, t: int, e: Event)
    requires e.StartClaim?
    ensures Enter(cfg, w, t, e) == DoReserveClaim(w, e.claim, e.handoff, e.current)
  {
  }

  lemma EnterDirect(cfg: Config, w: World, t: int, e: Event)
    requires WorldInv(w) && e.Direct? && !cfg.viaStart
    ensures Fine(w, t, Enter(cfg, w, t, e))
  {
    ReserveEffectKeeps(w, t, e.auth, None, e.effect, e.valid);
  }

  lemma EnterKeeps(cfg: Config, w: World, t: int, e: Event)
    requires WorldInv(w)
    ensures Fine(w, t, Enter(cfg, w, t, e))
  {
    if e.StartClaim? {
      EnterClaim(cfg, w, t, e);
    } else if e.Direct? && !cfg.viaStart {
      EnterDirect(cfg, w, t, e);
    } else {
      NothingChanges(w, t);
      if e.StartJoin? || e.StartClaimJoin? {
        EnterBuilding(cfg, w, t, e);
      }
    }
  }

  // ---- Every run ------------------------------------------------------------------------

  ghost predicate Invariant(sys: System) {
    && WorldInv(sys.world)
    && (forall t :: t in sys.threads ==> ThreadInv(sys.world, t, sys.threads[t]))
    && (forall a :: a in sys.world.owner ==> sys.world.owner[a] in sys.threads)
  }

  lemma OtherThreads(sys: System, v: World, t: int)
    requires Invariant(sys) && Keeps(sys.world, v, t)
    ensures forall u :: u in sys.threads && u != t ==> ThreadInv(v, u, sys.threads[u])
  {
    forall u | u in sys.threads && u != t ensures ThreadInv(v, u, sys.threads[u]) {
      OtherThread(sys.world, v, t, u, sys.threads[u]);
    }
  }

  lemma EnvironmentKeeps(sys: System, v: World)
    requires Invariant(sys) && v == sys.world.(plan := v.plan, published := v.published)
    ensures Invariant(System(v, sys.threads)) && Grows(sys.world, v)
  {
    SourcesSame(sys.world, v);
    forall t | t in sys.threads ensures ThreadInv(v, t, sys.threads[t]) {
      SameForThread(sys.world, v, t, sys.threads[t]);
    }
    SameGrows(sys.world, v);
  }

  lemma SameForThread(w: World, v: World, t: int, pc: Pc)
    requires v == w.(plan := v.plan, published := v.published) && ThreadInv(w, t, pc)
    ensures ThreadInv(v, t, pc)
  {
  }

  lemma SameGrows(w: World, v: World)
    requires v == w.(plan := v.plan, published := v.published)
    ensures Grows(w, v)
  {
  }

  lemma NewOwners(w: World, t: int, pc: Pc, e: Event)
    requires e.Run?
    ensures forall a ::
        a in Step(w, t, pc, e).world.owner ==>
          || (a in w.owner && Step(w, t, pc, e).world.owner[a] == w.owner[a])
          || Step(w, t, pc, e).world.owner[a] == t
  {
  }

  lemma EnterOwners(cfg: Config, w: World, t: int, e: Event)
    ensures forall a ::
        a in Enter(cfg, w, t, e).world.owner ==>
          || (a in w.owner && Enter(cfg, w, t, e).world.owner[a] == w.owner[a])
          || Enter(cfg, w, t, e).world.owner[a] == t
  {
  }

  lemma MoveOk(sys: System, t: int, m: Move)
    requires Invariant(sys) && Fine(sys.world, t, m)
    requires forall a ::
        a in m.world.owner ==> (a in sys.world.owner && m.world.owner[a] == sys.world.owner[a]) || m.world.owner[a] == t
    ensures Invariant(System(m.world, sys.threads[t := m.pc])) && Grows(sys.world, m.world)
  {
    OtherThreads(sys, m.world, t);
  }

  lemma CrashOk(sys: System, t: int)
    requires Invariant(sys)
    ensures Invariant(sys.(threads := sys.threads[t := Over])) && Grows(sys.world, sys.world)
  {
  }

  lemma NextOk(cfg: Config, sys: System, e: Event)
    requires Invariant(sys)
    ensures Invariant(Next(cfg, sys, e)) && Grows(sys.world, Next(cfg, sys, e).world)
  {
    if e.SetPlan? || e.Publish? {
      EnvironmentKeeps(sys, Next(cfg, sys, e).world);
    } else if e.Crash? {
      CrashOk(sys, e.t);
    } else if (e.t in sys.threads) == e.Run? {
      if e.Run? {
        StepKeeps(sys.world, e.t, sys.threads[e.t], e);
        NewOwners(sys.world, e.t, sys.threads[e.t], e);
        MoveOk(sys, e.t, Step(sys.world, e.t, sys.threads[e.t], e));
      } else {
        EnterKeeps(cfg, sys.world, e.t, e);
        EnterOwners(cfg, sys.world, e.t, e);
        MoveOk(sys, e.t, Enter(cfg, sys.world, e.t, e));
      }
    } else {
      NothingMoves(cfg, sys, e);
    }
  }

  lemma NothingMoves(cfg: Config, sys: System, e: Event)
    requires Invariant(sys) && !e.SetPlan? && !e.Publish? && !e.Crash? && (e.t in sys.threads) != e.Run?
    ensures Next(cfg, sys, e) == sys && Grows(sys.world, sys.world)
  {
    NothingChanges(sys.world, 0);
  }

  lemma {:induction false} RunsKeepInvariant(cfg: Config, events: seq<Event>)
    ensures Invariant(Exec(cfg, events))
  {
    if events != [] {
      RunsKeepInvariant(cfg, events[..|events| - 1]);
      NextOk(cfg, Exec(cfg, events[..|events| - 1]), events[|events| - 1]);
    }
  }

  /** In every run every ledger satisfies its own validator and every binding to its sources, so no
      loader ever rejects what the pipeline wrote. */
  lemma LoadersNeverReject(cfg: Config, events: seq<Event>)
    ensures var w := Exec(cfg, events).world;
            && EffectsOk(w.effects) && RecordsOk(w.records) && JoinsLoad(w.effects, w.joins) && HandoffsOk(w.handoffs)
            && ClaimsOk(w.claims) && ClaimJoinsLoad(w)
            && (forall i :: 0 <= i < |w.records| ==> RecordBound(w.effects, w.records[i]))
            && (forall i :: 0 <= i < |w.claims| && w.claims[i].receipt.Some?
                  ==> ClaimLoads(w.effects, w.handoffs, w.claims, w.claims[i].receipt.value))
  {
    RunsKeepInvariant(cfg, events);
  }

  lemma EffectsGrowOn(a: seq<Effect>, b: seq<Effect>, c: seq<Effect>)
    requires EffectsGrow(a, b) && EffectsGrow(b, c)
    ensures EffectsGrow(a, c)
  {
  }

  lemma GrowsTransitive(a: World, b: World, c: World)
    requires Grows(a, b) && Grows(b, c)
    ensures Grows(a, c)
  {
    EffectsGrowOn(a.effects, b.effects, c.effects);
    forall k ensures a.calls[k] <= c.calls[k] {
      assert a.calls[k] <= b.calls[k] <= c.calls[k];
    }
  }

  /** Source ledgers are append-only apart from one change per entry, over whole runs. */
  lemma {:induction false} LedgersGrow(cfg: Config, events: seq<Event>, n: nat)
    requires n <= |events|
    ensures Grows(Exec(cfg, events[..n]).world, Exec(cfg, events).world)
    decreases |events|
  {
    if n == |events| {
      assert events[..n] == events;
    } else {
      var init := events[..|events| - 1];
      assert init[..n] == events[..n];
      LedgersGrow(cfg, init, n);
      RunsKeepInvariant(cfg, init);
      NextOk(cfg, Exec(cfg, init), events[|events| - 1]);
      GrowsTransitive(Exec(cfg, events[..n]).world, Exec(cfg, init).world, Exec(cfg, events).world);
    }
  }

  /** Cross-ledger stability: any join, claim receipt, claim-bound join or execution record that
      passes re-validation at some point of a run, stored or not, passes it at every later point. */
  lemma ValidationIsStable(cfg: Config, events: seq<Event>, n: nat, j: Join, c: ClaimReceipt, b: ClaimJoin, r: Record)
    requires n <= |events|
    ensures var w := Exec(cfg, events[..n]).world; var v := Exec(cfg, events).world;
            && (JoinBound(w.effects, j) ==> JoinBound(v.effects, j))
            && (ClaimLoads(w.effects, w.handoffs, w.claims, c) ==> ClaimLoads(v.effects, v.handoffs, v.claims, c))
            && (ClaimJoinBound(w.effects, w.handoffs, w.claims, w.joins, b) ==>
                  ClaimJoinBound(v.effects, v.handoffs, v.claims, v.joins, b))
            && (RecordBound(w.effects, r) ==> RecordBound(v.effects, r))
  {
    var w, v := Exec(cfg, events[..n]).world, Exec(cfg, events).world;
    LedgersGrow(cfg, events, n);
    RunsKeepInvariant(cfg, events);
    StableParts(w, v, j, c, b, r);
  }

  lemma StableParts(w: World, v: World, j: Join, c: ClaimReceipt, b: ClaimJoin, r: Record)
    requires Grows(w, v) && EffectsOk(v.effects)
    ensures JoinBound(w.effects, j) ==> JoinBound(v.effects, j)
    ensures ClaimLoads(w.effects, w.handoffs, w.claims, c) ==> ClaimLoads(v.effects, v.handoffs, v.claims, c)
    ensures ClaimJoinBound(w.effects, w.handoffs, w.claims, w.joins, b)
      ==> ClaimJoinBound(v.effects, v.handoffs, v.claims, v.joins, b)
    ensures RecordBound(w.effects, r) ==> RecordBound(v.effects, r)
  {
    if JoinBound(w.effects, j) {
      JoinStaysBound(w.effects, v.effects, j);
    }
    if ClaimLoads(w.effects, w.handoffs, w.claims, c) {
      ClaimStaysLoadable(w.effects, v.effects, w.handoffs, v.handoffs, w.claims, v.claims, c);
    }
    if ClaimJoinBound(w.effects, w.handoffs, w.claims, w.joins, b) {
      ClaimJoinStaysBound(w.effects, v.effects, w.handoffs, v.handoffs, w.claims, v.claims, w.joins, v.joins, b);
    }
    if RecordBound(w.effects, r) {
      RecordStaysBound(w.effects, v.effects, r);
    }
  }

  // ---- One-shot dispatch ----------------------------------------------------------------------

  /** Each authorization causes at most one port call per assignment, whatever crashes or overlaps. */
  lemma OneCallPerAssignment(cfg: Config, events: seq<Event>, auth: Authorization, node: Id)
    ensures Exec(cfg, events).world.calls[ReplayKey(auth, node)] <= 1
  {
    RunsKeepInvariant(cfg, events);
  }

  /** Terminal receipts list every assignment in order, correctly attributed, pass the receipt
      validator, stand for exactly one call each, and their result and counts say what the items are. */
  lemma ReceiptsFollowAssignments(cfg: Config, events: seq<Event>, i: int)
    requires 0 <= i < |Exec(cfg, events).world.effects| && Exec(cfg, events).world.effects[i].receipt.Some?
    ensures ReceiptOk(Exec(cfg, events).world.effects[i].receipt.value)
      && Follows(Exec(cfg, events).world.effects[i].receipt.value)
    ensures var r := Exec(cfg, events).world.effects[i].receipt.value;
            OverallSays(r.overall, r.items) && CountsSay(r.counts, r.items)
    ensures AllCalled(Exec(cfg, events).world.calls, Exec(cfg, events).world.effects[i].auth)
  {
    RunsKeepInvariant(cfg, events);
    assert EffectOk(Exec(cfg, events).world.effects[i]);
    ReceiptSays(Exec(cfg, events).world.effects[i].receipt.value);
  }

  /** The handoff ledger satisfies its own validator although a dispatch checks only the digest. */
  lemma HandoffLedgerIsValid(cfg: Config, events: seq<Event>)
    ensures HandoffsOk(Exec(cfg, events).world.handoffs)
  {
    RunsKeepInvariant(cfg, events);
  }

  predicate OnePerPlan(calls: multiset<ReplayKey>) {
    forall k, m | k in calls && m in calls :: k.auth.plan == m.auth.plan ==> k.auth == m.auth
  }

  predicate HasRecord(rs: seq<Record>, auth: Authorization) { exists i | 0 <= i < |rs| :: rs[i].auth == auth }

  predicate Recorded(w: World, pc: Pc) {
    match pc
    case RecordReserved(auth, _, _) => HasRecord(w.records, auth)
    case Ready(auth, _, _) => HasRecord(w.records, auth)
    case _ => true
  }

  ghost predicate ViaRecords(sys: System) {
    && (forall a :: a in sys.world.owner ==> HasRecord(sys.world.records, a))
    && forall t :: t in sys.threads ==> Recorded(sys.world, sys.threads[t])
  }

  lemma RecordStays(a: World, b: World, auth: Authorization)
    requires RecordsGrow(a.records, b.records) && HasRecord(a.records, auth)
    ensures HasRecord(b.records, auth)
  {
    var i :| 0 <= i < |a.records| && a.records[i].auth == auth;
    assert b.records[i].auth == auth;
  }

  lemma StepRecorded(w: World, t: int, pc: Pc, e: Event)
    requires e.Run? && Recorded(w, pc) && RecordsGrow(w.records, Step(w, t, pc, e).world.records)
    ensures Recorded(Step(w, t, pc, e).world, Step(w, t, pc, e).pc)
    ensures forall a :: a in Step(w, t, pc, e).world.owner ==> a in w.owner || HasRecord(w.records, a)
  {
    match pc
    case Built(auth, cycle, effect) =>
      var v := DoReserveRecord(w, auth, cycle, effect);
      if v.pc.RecordReserved? {
        assert v.world.records[|w.records|].auth == auth;
      }
    case _ =>
  }

  lemma NextViaRecords(cfg: Config, sys: System, e: Event)
    requires cfg.viaStart && Invariant(sys) && ViaRecords(sys)
    ensures ViaRecords(Next(cfg, sys, e))
  {
    RecordsOnlyGrow(cfg, sys, e);
    NextRecorded(cfg, sys, e);
  }

  lemma RecordsOnlyGrow(cfg: Config, sys: System, e: Event)
    requires Invariant(sys)
    ensures RecordsGrow(sys.world.records, Next(cfg, sys, e).world.records)
  {
    NextOk(cfg, sys, e);
  }

  lemma NextRecorded(cfg: Config, sys: System, e: Event)
    requires cfg.viaStart && ViaRecords(sys) && RecordsGrow(sys.world.records, Next(cfg, sys, e).world.records)
    ensures ViaRecords(Next(cfg, sys, e))
  {
    if e.Run? && e.t in sys.threads {
      StepRecorded(sys.world, e.t, sys.threads[e.t], e);
      var m := Step(sys.world, e.t, sys.threads[e.t], e);
      StaysViaRecords(sys, m.world, sys.threads[e.t := m.pc], e.t);
    } else if !e.Run? && !e.SetPlan? && !e.Publish? && !e.Crash? && e.t !in sys.threads {
      var m := Enter(cfg, sys.world, e.t, e);
      EnterRecorded(cfg, sys.world, e.t, e);
      StaysViaRecords(sys, m.world, sys.threads[e.t := m.pc], e.t);
    }
  }

  lemma EnterRecorded(cfg: Config, w: World, t: int, e: Event)
    requires cfg.viaStart
    ensures Recorded(Enter(cfg, w, t, e).world, Enter(cfg, w, t, e).pc) && Enter(cfg, w, t, e).world.owner == w.owner
  {
  }

  /** Records are never dropped, so what other callers have recorded stays recorded. */
  lemma StaysViaRecords(sys: System, v: World, threads: map<int, Pc>, t: int)
    requires ViaRecords(sys) && RecordsGrow(sys.world.records, v.records) && t in threads && Recorded(v, threads[t])
    requires forall a :: a in v.owner ==> a in sys.world.owner || HasRecord(sys.world.records, a)
    requires forall u :: u in threads && u != t ==> u in sys.threads && threads[u] == sys.threads[u]
    ensures ViaRecords(System(v, threads))
  {
    forall a | a in v.owner ensures HasRecord(v.records, a) {
      RecordStays(sys.world, v, a);
    }
    forall u | u in threads && u != t && (threads[u].RecordReserved? || threads[u].Ready?)
        ensures Recorded(v, threads[u]) {
      RecordStays(sys.world, v, threads[u].auth);
    }
  }

  lemma {:induction false} RunsKeepViaRecords(cfg: Config, events: seq<Event>)
    requires cfg.viaStart
    ensures ViaRecords(Exec(cfg, events))
  {
    if events != [] {
      RunsKeepViaRecords(cfg, events[..|events| - 1]);
      RunsKeepInvariant(cfg, events[..|events| - 1]);
      NextViaRecords(cfg, Exec(cfg, events[..|events| - 1]), events[|events| - 1]);
    }
  }

  lemma RecordsPinPlans(w: World)
    requires WorldInv(w) && forall a :: a in w.owner ==> HasRecord(w.records, a)
    ensures OnePerPlan(w.calls)
  {
    forall k, m | k in w.calls && m in w.calls && k.auth.plan == m.auth.plan ensures k.auth == m.auth {
      assert w.calls[k] > 0 && w.calls[m] > 0;
      assert k.auth in w.owner && m.auth in w.owner;
      var i :| 0 <= i < |w.records| && w.records[i].auth == k.auth;
      var j :| 0 <= j < |w.records| && w.records[j].auth == m.auth;
      assert i != j ==> SameReplay(w.records[if i < j then i else j], w.records[if i < j then j else i]);
    }
  }
}
