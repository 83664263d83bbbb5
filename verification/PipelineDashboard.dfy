/** What the execution dashboard says, and what it means from plan to outcome. */
module PipelineDashboard {
  import opened Common
  import opened Pipeline
  import opened PipelineBuild
  import opened PipelineStable
  import opened PipelineRuns
  import opened PipelineInvariant
  import opened PipelineSteps
  import opened PipelineTheorems

  datatype Stage = InProgress | AwaitingJoin | Complete | PartlyDone | Unsuccessful | ForHuman

  /** The join dashboard shows the last fifty joins of the ledger. */
  function Shown(js: seq<Join>): seq<Join> {
    if |js| <= 50 then js else js[|js| - 50..]
  }

  /** The join of a receipt; of several, the last. */
  function JoinFor(js: seq<Join>, r: Receipt): Option<Join> {
    if js == [] then None
    else if js[|js| - 1].receipt == r then Some(js[|js| - 1])
    else JoinFor(js[..|js| - 1], r)
  }

  function StageOf(r: Record, shown: seq<Join>): Stage {
    if r.receipt.None? || r.result.None? then InProgress
    else if r.result.value.Failed? then Unsuccessful
    else if r.result.value.NeedsHuman? then ForHuman
    else
      match JoinFor(shown, r.receipt.value)
      case None => AwaitingJoin
      case Some(j) =>
        if j.result.NEEDS_HUMAN? then ForHuman
        else if j.result.FAIL? then Unsuccessful
        else if r.result.value.Partial? || j.result.PARTIAL? then PartlyDone
        else Complete
  }

  lemma {:induction false} JoinForFinds(js: seq<Join>, r: Receipt)
    ensures JoinFor(js, r).Some? ==> JoinFor(js, r).value in js && JoinFor(js, r).value.receipt == r
    ensures JoinFor(js, r).None? ==> forall j :: j in js ==> j.receipt != r
  {
    if js != [] && js[|js| - 1].receipt != r {
      JoinForFinds(js[..|js| - 1], r);
      assert js == js[..|js| - 1] + [js[|js| - 1]];
    }
  }

  // ---- Counting ---------------------------------------------------------------------------

  lemma {:induction false} AllOfOneResult(items: seq<Item>)
    ensures CountOf(items, DISPATCHED) <= |items|
    ensures CountOf(items, DISPATCHED) == |items| <==> forall i :: 0 <= i < |items| ==> items[i].result.DISPATCHED?
  {
    if items != [] {
      AllOfOneResult(items[1..]);
      assert items == [items[0]] + items[1..];
    }
  }

  lemma {:induction false} AllOfOneOutcome(os: seq<NodeOutcome>)
    ensures CountOutcome(os, COMPLETE) <= |os|
    ensures CountOutcome(os, COMPLETE) == |os| ==> CountOutcome(os, HUMAN) == 0
    ensures CountOutcome(os, COMPLETE) == |os| <==> forall i :: 0 <= i < |os| ==> os[i].outcome.COMPLETE?
  {
    if os != [] {
      AllOfOneOutcome(os[1..]);
      assert os == [os[0]] + os[1..];
    }
  }

  lemma {:induction false} NothingOmitted(items: seq<Item>)
    requires forall i :: 0 <= i < |items| ==> items[i].result.DISPATCHED?
    ensures OmissionsOf(items) == []
  {
    if items != [] {
      NothingOmitted(items[1..]);
    }
  }

  // ---- End to end -------------------------------------------------------------------------

  predicate CompleteFor(os: seq<NodeOutcome>, a: Assignment) {
    exists k | 0 <= k < |os| :: os[k].node == a.node && os[k].who == a.who && os[k].outcome.COMPLETE?
  }

  /** Every assignment of the authorized plan was dispatched by exactly one call and has exactly one
      outcome, COMPLETE, by the same slot, worker, provider, runtime, route and head; nothing was
      omitted and nothing added. */
  ghost predicate FullyDone(w: World, auth: Authorization, j: Join) {
    && j.auth == auth && j.omissions == [] && |j.outcomes| == |auth.plan.assignments| && DistinctOutcomes(j.outcomes)
    && AllCalled(w.calls, auth)
    && forall i :: 0 <= i < |auth.plan.assignments| ==> CompleteFor(j.outcomes, auth.plan.assignments[i])
  }

  lemma PassedJoin(j: Join)
    requires JoinOk(j) && j.result == PASS
    ensures forall k :: 0 <= k < |j.outcomes| ==> j.outcomes[k].outcome.COMPLETE?
  {
    AllOfOneOutcome(j.outcomes);
  }

  lemma FullDispatch(r: Receipt)
    requires ReceiptOk(r) && r.overall == AllDispatched
    ensures forall i :: 0 <= i < |r.items| ==> r.items[i].result.DISPATCHED?
    ensures r.counts.dispatched == |r.items| && OmissionsOf(r.items) == []
  {
    AllOfOneResult(r.items);
    NothingOmitted(r.items);
  }

  lemma EveryAssignmentComplete(j: Join, i: int)
    requires JoinOk(j) && j.result == PASS && Follows(j.receipt) && OutcomesMatch(j.receipt.items, j.outcomes)
      && DistinctItems(j.receipt.items)
    requires 0 <= i < |j.receipt.items| && j.receipt.items[i].result.DISPATCHED?
    ensures CompleteFor(j.outcomes, j.receipt.auth.plan.assignments[i])
  {
    PassedJoin(j);
    assert HasOutcome(j.outcomes, j.receipt.items[i].node);
    var k :| 0 <= k < |j.outcomes| && j.outcomes[k].node == j.receipt.items[i].node;
    assert DispatchedAs(j.receipt.items, j.outcomes[k].node, j.outcomes[k].who);
    var m :| 0 <= m < |j.receipt.items| && j.receipt.items[m].node == j.outcomes[k].node
        && j.receipt.items[m].who == j.outcomes[k].who;
    assert m == i;
  }

  lemma JoinIsFullyDone(w: World, j: Join)
    requires EffectsInv(w.effects) && CallsInv(w.effects, w.owner, w.calls) && JoinOk(j) && JoinBound(w.effects, j)
    requires j.result == PASS && j.effectResult == AllDispatched
    ensures FullyDone(w, j.auth, j)
  {
    var e := FoundEffect(w.effects, j.effect);
    assert EffectOk(w.effects[e]) && Follows(j.receipt);
    FullDispatch(j.receipt);
    assert AllCalled(w.calls, w.effects[e].auth);
    forall i | 0 <= i < |j.auth.plan.assignments| ensures CompleteFor(j.outcomes, j.auth.plan.assignments[i]) {
      EveryAssignmentComplete(j, i);
    }
  }

  /** The dashboard shows COMPLETE for an execution exactly when its effect dispatched everything
      and a join shown for its receipt has only COMPLETE outcomes; and then every assignment of the
      authorized plan is fully done. */
  lemma CompleteMeansDone(cfg: Config, events: seq<Event>, i: int) returns (j: Join)
    requires 0 <= i < |Exec(cfg, events).world.records|
    requires StageOf(Exec(cfg, events).world.records[i], Shown(Exec(cfg, events).world.joins)) == Complete
    ensures j in Exec(cfg, events).world.joins && Exec(cfg, events).world.records[i].receipt == Some(j.receipt)
    ensures FullyDone(Exec(cfg, events).world, Exec(cfg, events).world.records[i].auth, j)
  {
    var w := Exec(cfg, events).world;
    assert WorldInv(w) by {
      RunsKeepInvariant(cfg, events);
    }
    j := CompleteInWorld(w, i);
  }

  lemma CompleteInWorld(w: World, i: int) returns (j: Join)
    requires WorldInv(w) && 0 <= i < |w.records| && StageOf(w.records[i], Shown(w.joins)) == Complete
    ensures j in w.joins && w.records[i].receipt == Some(j.receipt) && FullyDone(w, w.records[i].auth, j)
  {
    var r := w.records[i];
    j := CompleteJoin(r, Shown(w.joins));
    assert RecordBound(w.effects, r);
    assert JoinOk(j) && JoinBound(w.effects, j) by {
      var k :| 0 <= k < |w.joins| && w.joins[k] == j;
    }
    JoinIsFullyDone(w, j);
  }

  lemma CompleteJoin(r: Record, shown: seq<Join>) returns (j: Join)
    requires StageOf(r, shown) == Complete
    ensures r.receipt == Some(j.receipt) && r.result == Some(AllDispatched) && j in shown && j.result == PASS
  {
    JoinForFinds(shown, r.receipt.value);
    j := JoinFor(shown, r.receipt.value).value;
  }

  lemma CompleteExactly(r: Record, shown: seq<Join>)
    requires (r.receipt.Some? ==> r.result == Some(r.receipt.value.overall)) && forall j ::
        j in shown ==> JoinOk(j) && j.effectResult == j.receipt.overall
    requires forall i, k :: 0 <= i < k < |shown| ==> shown[i].receipt != shown[k].receipt
    ensures StageOf(r, shown) == Complete <==>
      r.receipt.Some? && r.receipt.value.overall == AllDispatched
      && exists j :: j in shown && j.receipt == r.receipt.value && CountOutcome(j.outcomes, COMPLETE) == |j.outcomes|
  {
    if r.receipt.Some? {
      JoinForFinds(shown, r.receipt.value);
      var found := JoinFor(shown, r.receipt.value);
      forall j | j in shown ensures j.result == PASS <==> CountOutcome(j.outcomes, COMPLETE) == |j.outcomes| {
        AllOfOneOutcome(j.outcomes);
        assert JoinOk(j);
      }
    }
  }

  predicate HasJoin(shown: seq<Join>, r: Receipt) {
    exists k | 0 <= k < |shown| :: shown[k].receipt == r
  }

  /** Some shown join of the receipt has only outcomes that satisfy the test. */
  predicate JoinedOnly(shown: seq<Join>, r: Receipt, outcome: Outcome) {
    exists k | 0 <= k < |shown| :: shown[k].receipt == r &&
      forall i | 0 <= i < |shown[k].outcomes| :: shown[k].outcomes[i].outcome == outcome
  }

  predicate JoinedWith(shown: seq<Join>, r: Receipt, outcome: Outcome) {
    exists k | 0 <= k < |shown| :: shown[k].receipt == r && SomeOutcome(shown[k].outcomes, outcome)
  }

  /** Each stage, told by the items of the receipt and the outcomes of the join shown for it. */
  ghost predicate StageSays(stage: Stage, r: Record, shown: seq<Join>) {
    if r.receipt.None? then stage == InProgress
    else
      var receipt := r.receipt.value;
      var human := SomeItem(receipt.items, HUMAN_REQUIRED);
      var dispatched := SomeItem(receipt.items, DISPATCHED);
      var whole := forall i | 0 <= i < |receipt.items| :: receipt.items[i].result == DISPATCHED;
      && (stage.ForHuman? <==> human || JoinedWith(shown, receipt, HUMAN))
      && (stage.Unsuccessful? <==> !human && (!dispatched || JoinedOnly(shown, receipt, FAILED)))
      && (stage.AwaitingJoin? <==> !human && dispatched && !HasJoin(shown, receipt))
      && (stage.Complete? <==> whole && JoinedOnly(shown, receipt, COMPLETE))
      && (stage.PartlyDone? <==>
            && !human && JoinedWith(shown, receipt, COMPLETE) && !JoinedWith(shown, receipt, HUMAN)
            && !(whole && JoinedOnly(shown, receipt, COMPLETE)))
      && !stage.InProgress?
  }

  lemma ShownJoin(shown: seq<Join>, j: Join, r: Receipt, outcome: Outcome)
    requires forall i, k :: 0 <= i < k < |shown| ==> shown[i].receipt != shown[k].receipt
    requires j in shown && j.receipt == r
    ensures HasJoin(shown, r)
    ensures JoinedOnly(shown, r, outcome) <==>
              forall i | 0 <= i < |j.outcomes| :: j.outcomes[i].outcome == outcome
    ensures JoinedWith(shown, r, outcome) <==> SomeOutcome(j.outcomes, outcome)
  {
    var n :| 0 <= n < |shown| && shown[n] == j;
    assert forall k | 0 <= k < |shown| && shown[k].receipt == r :: k == n;
  }

  lemma StageOfShown(r: Record, shown: seq<Join>, j: Join)
    requires r.receipt.Some? && ReceiptOk(r.receipt.value) && r.result == Some(r.receipt.value.overall)
    requires j in shown && JoinFor(shown, r.receipt.value) == Some(j) && j.receipt == r.receipt.value
    requires forall i, k :: 0 <= i < k < |shown| ==> shown[i].receipt != shown[k].receipt
    requires JoinOk(j) && (r.receipt.value.overall.AllDispatched? || r.receipt.value.overall.Partial?)
    ensures StageSays(StageOf(r, shown), r, shown)
  {
    ReceiptSays(r.receipt.value);
    JoinSaysRight(j);
    ShownJoin(shown, j, j.receipt, COMPLETE);
    ShownJoin(shown, j, j.receipt, FAILED);
    ShownJoin(shown, j, j.receipt, HUMAN);
  }

  lemma StageOfUnshown(r: Record, shown: seq<Join>)
    requires r.receipt.Some? && ReceiptOk(r.receipt.value) && r.result == Some(r.receipt.value.overall)
    requires forall j :: j in shown ==> j.receipt != r.receipt.value
    ensures StageSays(StageOf(r, shown), r, shown)
  {
    JoinForFinds(shown, r.receipt.value);
    ReceiptSays(r.receipt.value);
    assert forall k | 0 <= k < |shown| :: shown[k] in shown;
  }

  /** In every run each record's stage on the dashboard says exactly how its receipt's items and the
      outcomes of its shown join stand. */
  lemma StagesSay(cfg: Config, events: seq<Event>, i: int)
    requires 0 <= i < |Exec(cfg, events).world.records|
    ensures var w := Exec(cfg, events).world; var shown := Shown(w.joins);
            StageSays(StageOf(w.records[i], shown), w.records[i], shown)
  {
    RunsKeepInvariant(cfg, events);
    var w := Exec(cfg, events).world;
    var shown, r := Shown(w.joins), w.records[i];
    assert RecordBound(w.effects, r);
    if r.receipt.Some? {
      RecordedReceiptOk(w, r);
      JoinForFinds(shown, r.receipt.value);
      if JoinFor(shown, r.receipt.value).Some? {
        var j := JoinFor(shown, r.receipt.value).value;
        assert JoinOk(j) && JoinBound(w.effects, j);
        StageOfShown(r, shown, j);
      } else {
        StageOfUnshown(r, shown);
      }
    }
  }

  lemma RecordedReceiptOk(w: World, r: Record)
    requires EffectsOk(w.effects) && RecordBound(w.effects, r) && r.receipt.Some?
    ensures ReceiptOk(r.receipt.value)
  {
    var k := FoundEffect(w.effects, r.effect);
    assert EffectOk(w.effects[k]);
  }

  // ---- What the dashboard forgets -----------------------------------------------------------

  lemma ShownExactly(js: seq<Join>, i: int)
    requires 0 <= i < |js| && OneJoinPerReceipt(js)
    ensures js[i] in Shown(js) <==> |js| - i <= 50
  {
    assert |js| > 50 && |js| - i <= 50 ==> Shown(js)[i - (|js| - 50)] == js[i];
    if |js| > 50 && js[i] in Shown(js) {
      var k :| 0 <= k < 50 && Shown(js)[k] == js[i];
      assert |js| - 50 + k == i;
    }
  }

  lemma ForgottenExactly(r: Record, js: seq<Join>, n: int)
    requires 0 <= n < |js| && OneJoinPerReceipt(js) && r.receipt == Some(js[n].receipt)
      && r.result == Some(js[n].receipt.overall)
    requires js[n].receipt.overall.AllDispatched? || js[n].receipt.overall.Partial?
    ensures StageOf(r, Shown(js)) == AwaitingJoin <==> |js| - n > 50
  {
    JoinForFinds(Shown(js), js[n].receipt);
    ShownExactly(js, n);
    OnlyThisJoin(js, n);
  }

  /** A recorded join stops counting exactly when fifty joins sort after it: from then on the
      dashboard says that the execution still awaits its join. */
  lemma JoinIsForgotten(cfg: Config, events: seq<Event>, i: int, n: int)
    requires 0 <= i < |Exec(cfg, events).world.records| && 0 <= n < |Exec(cfg, events).world.joins|
    requires Exec(cfg, events).world.records[i].receipt == Some(Exec(cfg, events).world.joins[n].receipt)
    ensures StageOf(Exec(cfg, events).world.records[i], Shown(Exec(cfg, events).world.joins)) == AwaitingJoin
       <==> |Exec(cfg, events).world.joins| - n > 50
  {
    RunsKeepInvariant(cfg, events);
    var w := Exec(cfg, events).world;
    RecordAndJoin(w, i, n);
    ForgottenExactly(w.records[i], w.joins, n);
  }

  lemma RecordAndJoin(w: World, i: int, n: int)
    requires RecordsInv(w.effects, w.records) && JoinsInv(w.effects, w.joins) && 0 <= i < |w.records|
      && 0 <= n < |w.joins|
    requires w.records[i].receipt == Some(w.joins[n].receipt)
    ensures w.records[i].result == Some(w.joins[n].receipt.overall)
    ensures w.joins[n].receipt.overall.AllDispatched? || w.joins[n].receipt.overall.Partial?
  {
    assert RecordBound(w.effects, w.records[i]) && JoinBound(w.effects, w.joins[n]);
  }

  lemma OnlyThisJoin(js: seq<Join>, n: int)
    requires 0 <= n < |js| && OneJoinPerReceipt(js)
    ensures forall j :: j in Shown(js) && j.receipt == js[n].receipt ==> j == js[n]
  {
    forall j | j in Shown(js) && j.receipt == js[n].receipt ensures j == js[n] {
      var k :| 0 <= k < |js| && js[k] == j;
      assert k == n;
    }
  }

  // ---- Stage counts ---------------------------------------------------------------------------

  function CountStage(stages: seq<Stage>, s: Stage): nat {
    if stages == [] then 0 else CountStage(stages[..|stages| - 1], s) + if stages[|stages| - 1] == s then 1 else 0
  }

  lemma {:induction false} StagesAddUp(stages: seq<Stage>)
    ensures CountStage(stages, InProgress) + CountStage(stages, AwaitingJoin) + CountStage(stages, Complete)
            + CountStage(stages, PartlyDone) + CountStage(stages, Unsuccessful) + CountStage(stages, ForHuman)
                == |stages|
  {
    if stages != [] {
      StagesAddUp(stages[..|stages| - 1]);
    }
  }

  const STAGES: set<Stage> := {InProgress, AwaitingJoin, Complete, PartlyDone, Unsuccessful, ForHuman}

  /** The dashboard's loop: stages in record order, and counts that add up to the records. */
  method ExecutionDashboard(records: seq<Record>, joins: seq<Join>)
      returns (stages: seq<Stage>, counts: map<Stage, int>)
    ensures |stages| == |records| && forall i :: 0 <= i < |records| ==> stages[i] == StageOf(records[i], Shown(joins))
    ensures counts.Keys == STAGES && forall s :: s in STAGES ==> counts[s] == CountStage(stages, s)
    ensures counts[InProgress] + counts[AwaitingJoin] + counts[Complete] + counts[PartlyDone] + counts[Unsuccessful]
      + counts[ForHuman] == |records|
  {
    stages := [];
    counts := map s | s in STAGES :: 0;
    for i := 0 to |records|
      invariant |stages| == i && forall k :: 0 <= k < i ==> stages[k] == StageOf(records[k], Shown(joins))
      invariant counts.Keys == STAGES && forall s :: s in STAGES ==> counts[s] == CountStage(stages, s)
    {
      var stage := StageOf(records[i], Shown(joins));
      counts := counts[stage := counts[stage] + 1];
      stages := stages + [stage];
      assert stages[..i] + [stage] == stages;
    }
    StagesAddUp(stages);
  }

  // ---- One dispatch per plan --------------------------------------------------------------------

  lemma Then(cfg: Config, past: seq<Event>, e: Event) returns (events: seq<Event>)
    ensures Exec(cfg, events) == Next(cfg, Exec(cfg, past), e)
  {
    events := past + [e];
    assert events[..|events| - 1] == past;
  }

  function By(k: Id): Attribution { Attribution(k, k, 0, 0, None, 0) }
  const TWO := Plan(0, [Assignment(1, 0, 1, By(1)), Assignment(2, 0, 2, By(2))])
  function Auth(id: Id): Authorization { Authorization(id, 0, TWO) }
  function Call(t: int): Event { Run(t, 0, Foreign(Broken), true, false) }

  function Dispatching(effects: seq<Effect>, calls: multiset<ReplayKey>, owner: map<Authorization, int>,
      id: Id): World {
    World(TWO, Some(Auth(id)), effects, [], [], [], [], [], calls, owner)
  }

  lemma DirectReserves(cfg: Config, es: seq<Effect>, calls: multiset<ReplayKey>, owner: map<Authorization, int>,
      threads: map<int, Pc>, id: Id)
    requires !cfg.viaStart && id !in threads && EffectsOk(es) && |es| < MAX_EFFECTS && !ReplaysEffect(es, id, Auth(id))
    ensures Next(cfg, System(Dispatching(es, calls, owner, id), threads), Direct(id, Auth(id), id, true))
         == System(Dispatching(es + [Effect(id, Auth(id), None)], calls, owner[Auth(id) := id], id),
                   threads[id := Calling(Auth(id), None, id, map[])])
  {
  }

  lemma FirstCall(cfg: Config, es: seq<Effect>, calls: multiset<ReplayKey>, owner: map<Authorization, int>,
      threads: map<int, Pc>, id: Id)
    requires id in threads && threads[id] == Calling(Auth(id), None, id, map[])
    ensures var s := Next(cfg, System(Dispatching(es, calls, owner, id), threads), Call(id));
            s.world == Dispatching(es, calls + multiset{ReplayKey(Auth(id), 1)}, owner, id)
                && s.threads.Keys == threads.Keys
  {
  }

  /** The plan is dispatched once, and then authorized a second time. */
  lemma FirstDirect(cfg: Config) returns (events: seq<Event>)
    requires !cfg.viaStart
    ensures Exec(cfg, events).world
      == Dispatching([Effect(1, Auth(1), None)], multiset{ReplayKey(Auth(1), 1)}, map[Auth(1) := 1], 2)
    ensures Exec(cfg, events).threads.Keys == {1}
  {
    events := Then(cfg, [], SetPlan(TWO));
    events := Then(cfg, events, Publish(1, 0));
    assert Exec(cfg, events) == System(Dispatching([], multiset{}, map[], 1), map[]);
    DirectReserves(cfg, [], multiset{}, map[], map[], 1);
    events := Then(cfg, events, Direct(1, Auth(1), 1, true));
    FirstCall(cfg, []
        + [Effect(1, Auth(1), None)], multiset{}, map[Auth(1) := 1], map[1 := Calling(Auth(1), None, 1, map[])], 1);
    events := Then(cfg, events, Call(1));
    assert multiset{} + multiset{ReplayKey(Auth(1), 1)} == multiset{ReplayKey(Auth(1), 1)};
    events := Then(cfg, events, Publish(2, 0));
  }

  /** Two direct commits of differently named authorizations of one plan dispatch it twice. */
  lemma DirectCommitsRepeat(cfg: Config) returns (events: seq<Event>)
    requires !cfg.viaStart
    ensures !OnePerPlan(Exec(cfg, events).world.calls)
  {
    events := FirstDirect(cfg);
    var es, calls, owner, threads :=
      [Effect(1, Auth(1), None)], multiset{ReplayKey(Auth(1), 1)}, map[Auth(1) := 1], Exec(cfg, events).threads;
    DirectReserves(cfg, es, calls, owner, threads, 2);
    events := Then(cfg, events, Direct(2, Auth(2), 2, true));
    FirstCall(cfg, es
        + [Effect(2, Auth(2), None)], calls, owner[Auth(2) := 2], threads[2 := Calling(Auth(2), None, 2, map[])], 2);
    events := Then(cfg, events, Call(2));
    assert ReplayKey(Auth(1), 1) in Exec(cfg, events).world.calls
        && ReplayKey(Auth(2), 1) in Exec(cfg, events).world.calls;
  }

  /** Each plan is dispatched under one authorization only, in every run, exactly when dispatch goes
      through the execution ledger. */
  lemma PlanDispatchedOnce(cfg: Config)
    ensures (forall events :: OnePerPlan(Exec(cfg, events).world.calls)) <==> cfg.viaStart
  {
    if cfg.viaStart {
      forall events ensures OnePerPlan(Exec(cfg, events).world.calls) {
        RunsKeepInvariant(cfg, events);
        RunsKeepViaRecords(cfg, events);
        RecordsPinPlans(Exec(cfg, events).world);
      }
    } else {
      var events := DirectCommitsRepeat(cfg);
    }
  }
}
