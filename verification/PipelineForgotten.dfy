/** A run of fifty-one executions and joins, in which the first execution is shown COMPLETE and, in the
    end, as still awaiting its join. */
module PipelineForgotten {
  import opened Common
  import opened Pipeline
  import opened PipelineBuild
  import opened PipelineStable
  import opened PipelineRuns
  import opened PipelineTheorems
  import opened PipelineDashboard

  // ---- The documents of the k-th execution ----------------------------------------------------

  function PlanOf(k: nat): Plan { TWO.(observedAt := k) }
  function AuthOf(k: nat): Authorization { Authorization(k, 0, PlanOf(k)) }

  const DISPATCHES: PortAnswer := Foreign(Answer(DISPATCHED, Some(ForeignRef(0))))

  function ItemOf(k: nat, n: Id): Item { Item(n, By(n), ReplayKey(AuthOf(k), n), DISPATCHED, Some(ForeignRef(0))) }
  function ReceiptOf(k: nat): Receipt { ReceiptFor(k, AuthOf(k), [ItemOf(k, 1), ItemOf(k, 2)]) }
  function Done(n: Id): NodeOutcome { NodeOutcome(n, By(n), COMPLETE, 0, 0) }
  function Observed(k: nat): Observation { Observation(k, k, ReceiptOf(k), AuthOf(k), k, [Done(1), Done(2)]) }
  function JoinOf(k: nat): Join {
    Join(k, k, ReceiptOf(k), AuthOf(k), k, AllDispatched, PASS, 2, 0, 2, 0, 0, [Done(1), Done(2)], [])
  }
  function Open(k: nat): Record { Record(k, AuthOf(k), k, None, None) }
  function RecordOf(k: nat): Record { Record(k, AuthOf(k), k, Some(ReceiptOf(k)), Some(AllDispatched)) }

  function Effects(k: nat): seq<Effect> { seq(k, (i: nat) => Effect(i, AuthOf(i), Some(ReceiptOf(i)))) }
  function Records(k: nat): seq<Record> { seq(k, (i: nat) => RecordOf(i)) }
  function Joins(k: nat): seq<Join> { seq(k, (i: nat) => JoinOf(i)) }

  lemma DocumentsOk(k: nat)
    ensures AuthorizationOk(AuthOf(k)) && ReceiptOk(ReceiptOf(k)) && ReceiptOf(k).overall == AllDispatched
  {
    AllOfOneResult([ItemOf(k, 1), ItemOf(k, 2)]);
    CountsAddUp([ItemOf(k, 1), ItemOf(k, 2)]);
  }

  // ---- One update after the other ---------------------------------------------------------------

  lemma Reserves(w: World, k: nat)
    requires w.records == Records(k) && RecordsOk(w.records) && k < MAX_RECORDS
    ensures DoReserveRecord(w, AuthOf(k), k, k)
      == Move(w.(records := Records(k) + [Open(k)]), RecordReserved(AuthOf(k), k, k))
  {
    forall i | 0 <= i < |w.records| ensures !SameReplay(w.records[i], Open(k)) {
      assert w.records[i] == RecordOf(i);
    }
  }

  lemma Publishes(w: World, k: nat)
    requires w.plan == PlanOf(k)
    ensures DoPublish(w, AuthOf(k), k, k) == Move(w.(published := Some(AuthOf(k))), Ready(AuthOf(k), k, k))
  {
    DocumentsOk(k);
  }

  function Begun(k: nat): seq<Effect> { Effects(k) + [Effect(k, AuthOf(k), None)] }

  lemma ReservesEffect(w: World, t: int, k: nat)
    requires w.plan == PlanOf(k) && w.published == Some(AuthOf(k)) && w.effects == Effects(k) && EffectsOk(w.effects)
      && k < MAX_EFFECTS
    ensures DoReserveEffect(w, t, AuthOf(k), Some(k), k, true)
         == Move(w.(effects := Begun(k), owner := w.owner[AuthOf(k) := t]), Calling(AuthOf(k), Some(k), k, map[]))
  {
    DocumentsOk(k);
    forall i | 0 <= i < |w.effects| ensures w.effects[i].effect != k && w.effects[i].auth != AuthOf(k) {
      assert w.effects[i] == Effect(i, AuthOf(i), Some(ReceiptOf(i)));
    }
  }

  lemma Calls(w: World, k: nat)
    ensures DoCall(w, AuthOf(k), Some(k), k, map[], 0, DISPATCHES)
         == Move(w.(calls := w.calls + multiset{ReplayKey(AuthOf(k), 1)}),
             Calling(AuthOf(k), Some(k), k, map[0 := ItemOf(k, 1)]))
    ensures DoCall(w, AuthOf(k), Some(k), k, map[0 := ItemOf(k, 1)], 1, DISPATCHES)
         == Move(w.(calls := w.calls + multiset{ReplayKey(AuthOf(k), 2)}),
                 Calling(AuthOf(k), Some(k), k, map[0 := ItemOf(k, 1), 1 := ItemOf(k, 2)]))
  {
  }

  lemma Finishes(w: World, k: nat)
    requires w.effects == Begun(k) && EffectsOk(w.effects)
    ensures DoFinishEffect(w, AuthOf(k), Some(k), k, map[0 := ItemOf(k, 1), 1 := ItemOf(k, 2)])
         == Move(w.(effects := Effects(k + 1)), EffectDone(AuthOf(k), k, k, ReceiptOf(k)))
  {
    var items := map[0 := ItemOf(k, 1), 1 := ItemOf(k, 2)];
    assert InOrder(AuthOf(k), items) == [ItemOf(k, 1), ItemOf(k, 2)];
    assert ReceiptOk(ReceiptOf(k)) && ReceiptFor(k, AuthOf(k), InOrder(AuthOf(k), items)) == ReceiptOf(k) by {
      DocumentsOk(k);
    }
    FinishedList(k);
    assert FindEffect(w.effects, k) == Some(Effect(k, AuthOf(k), None)) by {
      FindEffectAt(w.effects, k);
    }
  }

  lemma FinishedList(k: nat)
    ensures Begun(k)[k] == Effect(k, AuthOf(k), None) && Finalized(Begun(k), k, ReceiptOf(k)) == Effects(k + 1)
  {
    assert forall i :: 0 <= i < k ==> Begun(k)[i].effect == i;
  }

  lemma FinishesRecord(w: World, k: nat)
    requires w.records == Records(k) + [Open(k)] && RecordsOk(w.records)
    ensures DoFinishRecord(w, AuthOf(k), k, k, ReceiptOf(k)) == Move(w.(records := Records(k + 1)), Over)
  {
    DocumentsOk(k);
    assert w.records[k] == Open(k);
    assert Replaced(w.records, Open(k), RecordOf(k)) == Records(k + 1);
  }

  lemma BuildsJoin(es: seq<Effect>, k: nat)
    requires es == Effects(k + 1) && EffectsOk(es)
    ensures BuildJoin(es, Observed(k)) == Some(JoinOf(k))
  {
    DocumentsOk(k);
    assert es[k].effect == k;
    FindEffectAt(es, k);
    var items, os := ReceiptOf(k).items, [Done(1), Done(2)];
    AllOfOneResult(items);
    NothingOmitted(items);
    assert os[1..] == [Done(2)] && os[1..][1..] == [];
    assert SortNodes(os[1..]) == [Done(2)] && SortNodes(os) == os;
    CompleteCounts();
    assert items[0].node == 1 && items[1].node == 2;
    assert DispatchedAs(items, 1, By(1)) && DispatchedAs(items, 2, By(2));
  }

  lemma CompleteCounts()
    ensures CountOutcome([Done(1), Done(2)], COMPLETE) == 2 && CountOutcome([Done(1), Done(2)], FAILED) == 0
    ensures CountOutcome([Done(1), Done(2)], HUMAN) == 0 && JoinResultOf([Done(1), Done(2)]) == PASS
  {
    var os := [Done(1), Done(2)];
    assert os[1..] == [Done(2)] && os[1..][1..] == [];
  }

  lemma {:induction false} InsertLast(js: seq<Join>, j: Join)
    requires forall i :: 0 <= i < |js| ==> Before(js[i], j)
    ensures InsertJoin(js, j) == js + [j]
  {
    if js != [] {
      InsertLast(js[1..], j);
      assert js == [js[0]] + js[1..];
    }
  }

  lemma JoinFollows(js: seq<Join>, k: nat)
    requires js == Joins(k)
    ensures !ReplaysJoin(js, JoinOf(k)) && InsertJoin(js, JoinOf(k)) == Joins(k + 1)
  {
    forall i | 0 <= i < |js| ensures js[i].id != k && js[i].receipt != ReceiptOf(k) && Before(js[i], JoinOf(k)) {
      assert js[i] == JoinOf(i);
    }
    InsertLast(js, JoinOf(k));
    assert Joins(k) + [JoinOf(k)] == Joins(k + 1);
  }

  // ---- The run ----------------------------------------------------------------------------------

  /** k executions are done and joined, and two fresh callers can follow. */
  predicate Joined(sys: System, k: nat) {
    && sys.world.effects == Effects(k) && sys.world.records == Records(k) && sys.world.joins == Joins(k)
    && forall t | t in sys.threads :: t < 2 * k
  }

  lemma Extends(cfg: Config, past: seq<Event>, e: Event)
    ensures Exec(cfg, past + [e]) == Next(cfg, Exec(cfg, past), e)
  {
    assert (past + [e])[..|past + [e]| - 1] == past;
  }

  lemma EffectsLoad(cfg: Config, events: seq<Event>)
    ensures EffectsOk(Exec(cfg, events).world.effects)
  {
    LoadersNeverReject(cfg, events);
  }

  lemma RecordsLoad(cfg: Config, events: seq<Event>)
    ensures RecordsOk(Exec(cfg, events).world.records)
  {
    LoadersNeverReject(cfg, events);
  }

  /** The ledger loads, so a join that replays nothing is recorded. */
  lemma RecordsJoin(cfg: Config, events: seq<Event>, j: Join)
    requires |Exec(cfg, events).world.joins| < MAX_JOINS && !ReplaysJoin(Exec(cfg, events).world.joins, j)
    ensures var w := Exec(cfg, events).world; DoRecordJoin(w, j) == Move(w.(joins := InsertJoin(w.joins, j)), Over)
  {
    LoadersNeverReject(cfg, events);
  }

  function Update(t: int, index: int, finish: bool): Event { Run(t, index, DISPATCHES, true, finish) }

  /** A new caller with its authorization, its record and its publication. */
  lemma Authorizes(cfg: Config, past: seq<Event>, k: nat) returns (events: seq<Event>)
    requires Joined(Exec(cfg, past), k) && k < 51
    ensures past <= events && Exec(cfg, events).threads == Exec(cfg, past).threads[2 * k := Ready(AuthOf(k), k, k)]
    ensures Exec(cfg, events).world
         == Exec(cfg, past).world.(plan := PlanOf(k), published := Some(AuthOf(k)), records := Records(k) + [Open(k)])
  {
    DocumentsOk(k);
    events := past + [SetPlan(PlanOf(k))];
    Extends(cfg, past, SetPlan(PlanOf(k)));
    var start := Start(2 * k, k, 0, k, k);
    Extends(cfg, events, start);
    events := events + [start];
    RecordsLoad(cfg, events);
    Reserves(Exec(cfg, events).world, k);
    Extends(cfg, events, Update(2 * k, 0, false));
    events := events + [Update(2 * k, 0, false)];
    Publishes(Exec(cfg, events).world, k);
    Extends(cfg, events, Update(2 * k, 0, false));
    events := events + [Update(2 * k, 0, false)];
  }

  /** One caller stands at pc, with the records and joins as given. */
  predicate StandsAt(sys: System, k: nat, pc: Pc, es: seq<Effect>, rs: seq<Record>) {
    && 2 * k in sys.threads && sys.threads[2 * k] == pc && sys.world.effects == es && sys.world.records == rs
    && sys.world.joins == Joins(k) && forall t | t in sys.threads :: t <= 2 * k
  }

  lemma StartsEffect(cfg: Config, past: seq<Event>, k: nat) returns (events: seq<Event>)
    requires StandsAt(Exec(cfg, past), k, Ready(AuthOf(k), k, k), Effects(k), Records(k) + [Open(k)]) && k < 51
    requires Exec(cfg, past).world.plan == PlanOf(k) && Exec(cfg, past).world.published == Some(AuthOf(k))
    ensures past <= events
    ensures StandsAt(Exec(cfg, events), k, Calling(AuthOf(k), Some(k), k, map[]), Begun(k), Records(k) + [Open(k)])
  {
    EffectsLoad(cfg, past);
    ReservesEffect(Exec(cfg, past).world, 2 * k, k);
    Extends(cfg, past, Update(2 * k, 0, false));
    events := past + [Update(2 * k, 0, false)];
  }

  lemma CallsBoth(cfg: Config, past: seq<Event>, k: nat) returns (events: seq<Event>)
    requires StandsAt(Exec(cfg, past), k, Calling(AuthOf(k), Some(k), k, map[]), Begun(k), Records(k) + [Open(k)])
    ensures past <= events
    ensures StandsAt(Exec(cfg, events), k, Calling(AuthOf(k), Some(k), k, map[0 := ItemOf(k, 1), 1 := ItemOf(k, 2)]),
                     Begun(k), Records(k) + [Open(k)])
  {
    Calls(Exec(cfg, past).world, k);
    Extends(cfg, past, Update(2 * k, 0, false));
    events := past + [Update(2 * k, 0, false)];
    Calls(Exec(cfg, events).world, k);
    Extends(cfg, events, Update(2 * k, 1, false));
    events := events + [Update(2 * k, 1, false)];
  }

  lemma EndsEffect(cfg: Config, past: seq<Event>, k: nat) returns (events: seq<Event>)
    requires StandsAt(Exec(cfg, past), k, Calling(AuthOf(k), Some(k), k, map[0 := ItemOf(k, 1), 1 := ItemOf(k, 2)]),
                      Begun(k), Records(k) + [Open(k)])
    ensures past <= events
    ensures StandsAt(Exec(cfg, events), k, EffectDone(AuthOf(k), k, k, ReceiptOf(k)), Effects(k + 1), Records(k)
      + [Open(k)])
  {
    EffectsLoad(cfg, past);
    Finishes(Exec(cfg, past).world, k);
    Extends(cfg, past, Update(2 * k, 0, true));
    events := past + [Update(2 * k, 0, true)];
  }

  lemma EndsRecord(cfg: Config, past: seq<Event>, k: nat) returns (events: seq<Event>)
    requires StandsAt(Exec(cfg, past), k, EffectDone(AuthOf(k), k, k, ReceiptOf(k)), Effects(k + 1), Records(k)
      + [Open(k)])
    ensures past <= events && StandsAt(Exec(cfg, events), k, Over, Effects(k + 1), Records(k + 1))
  {
    RecordsLoad(cfg, past);
    FinishesRecord(Exec(cfg, past).world, k);
    Extends(cfg, past, Update(2 * k, 0, false));
    events := past + [Update(2 * k, 0, false)];
  }

  /** A second caller builds the join. */
  lemma BuildsUp(cfg: Config, past: seq<Event>, k: nat) returns (events: seq<Event>)
    requires StandsAt(Exec(cfg, past), k, Over, Effects(k + 1), Records(k + 1))
    ensures past <= events && Exec(cfg, events).world == Exec(cfg, past).world
    ensures Exec(cfg, events).threads == Exec(cfg, past).threads[2 * k + 1 := JoinBuilt(JoinOf(k))]
  {
    EffectsLoad(cfg, past);
    BuildsJoin(Exec(cfg, past).world.effects, k);
    var start := StartJoin(2 * k + 1, Observed(k));
    Extends(cfg, past, start);
    events := past + [start];
  }

  /** And records it. */
  lemma RecordsUp(cfg: Config, past: seq<Event>, t: int, j: Join) returns (events: seq<Event>)
    requires t in Exec(cfg, past).threads && Exec(cfg, past).threads[t] == JoinBuilt(j)
    requires |Exec(cfg, past).world.joins| < MAX_JOINS && !ReplaysJoin(Exec(cfg, past).world.joins, j)
    ensures past <= events
    ensures Exec(cfg, events).world == Exec(cfg, past).world.(joins := InsertJoin(Exec(cfg, past).world.joins, j))
    ensures Exec(cfg, events).threads.Keys == Exec(cfg, past).threads.Keys
  {
    RecordsJoin(cfg, past, j);
    events := past + [Update(t, 0, false)];
    Extends(cfg, past, Update(t, 0, false));
  }

  lemma JoinsUp(cfg: Config, past: seq<Event>, k: nat) returns (events: seq<Event>)
    requires StandsAt(Exec(cfg, past), k, Over, Effects(k + 1), Records(k + 1)) && k < 51
    ensures past <= events && Joined(Exec(cfg, events), k + 1)
  {
    events := BuildsUp(cfg, past, k);
    JoinFollows(Exec(cfg, events).world.joins, k);
    events := RecordsUp(cfg, events, 2 * k + 1, JoinOf(k));
  }

  lemma OneExecution(cfg: Config, past: seq<Event>, k: nat) returns (events: seq<Event>)
    requires Joined(Exec(cfg, past), k) && k < 51
    ensures past <= events && Joined(Exec(cfg, events), k + 1)
  {
    events := Authorizes(cfg, past, k);
    events := StartsEffect(cfg, events, k);
    events := CallsBoth(cfg, events, k);
    events := EndsEffect(cfg, events, k);
    events := EndsRecord(cfg, events, k);
    events := JoinsUp(cfg, events, k);
  }

  lemma {:induction false} ManyExecutions(cfg: Config, past: seq<Event>, k: nat, n: nat) returns (events: seq<Event>)
    requires Joined(Exec(cfg, past), k) && k <= n <= 51
    ensures past <= events && Joined(Exec(cfg, events), n)
    decreases n - k
  {
    events := past;
    if k < n {
      events := OneExecution(cfg, past, k);
      events := ManyExecutions(cfg, events, k + 1, n);
    }
  }

  /** The first execution is COMPLETE once it is joined; fifty joins later the same record is shown as
      awaiting its join. */
  lemma CompleteIsForgotten(cfg: Config) returns (first: seq<Event>, events: seq<Event>)
    ensures first <= events && |Exec(cfg, first).world.records| > 0 && |Exec(cfg, events).world.records| > 0
    ensures Exec(cfg, events).world.records[0] == Exec(cfg, first).world.records[0]
    ensures StageOf(Exec(cfg, first).world.records[0], Shown(Exec(cfg, first).world.joins)) == Complete
    ensures StageOf(Exec(cfg, events).world.records[0], Shown(Exec(cfg, events).world.joins)) == AwaitingJoin
  {
    first := ManyExecutions(cfg, [], 0, 1);
    events := ManyExecutions(cfg, first, 1, 51);
    FirstIsComplete();
    FirstDocuments(51);
    JoinIsForgotten(cfg, events, 0, 0);
  }

  lemma FirstDocuments(n: nat)
    requires n > 0
    ensures |Records(n)| == |Joins(n)| == n && Records(n)[0] == RecordOf(0) && Joins(n)[0] == JoinOf(0)
  {
  }

  lemma FirstIsComplete()
    ensures |Records(1)| == 1 && Records(1)[0] == RecordOf(0) && StageOf(RecordOf(0), Shown(Joins(1))) == Complete
  {
    assert Joins(1) == [JoinOf(0)] && Joins(1)[..0] == [];
    assert JoinFor(Joins(1), ReceiptOf(0)) == Some(JoinOf(0));
  }
}
