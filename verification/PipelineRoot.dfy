/** A data root and the calls that change its ledgers, as they run: every ledger update is one step of
    the pipeline, and other callers may act between any two of them. */
module PipelineRoot {
  import opened Common
  import opened Pipeline
  import opened PipelineBuild
  import opened PipelineRuns
  import opened PipelineTheorems
  import opened PipelineInvariant
  import PipelineStable
  import PipelineSteps

  class DataRoot {
    var plan: Plan
    var published: Option<Authorization>
    var effects: seq<Effect>
    var records: seq<Record>
    var joins: seq<Join>
    var handoffs: seq<Handoff>
    ghost const cfg: Config
    ghost const shared: bool      // other callers use the root as well
    ghost var events: seq<Event>

    constructor (ghost shared: bool)
      ensures Valid() && Now() == INITIAL && this.shared == shared
    {
      plan, published, effects, records, joins, handoffs := Plan(0, []), None, [], [], [], [];
      cfg, events := Config(true), [];
      this.shared := shared;
    }

    ghost function Now(): System
      reads this
    {
      Exec(cfg, events)
    }

    ghost predicate Shows(w: World)
      reads this
    {
      plan == w.plan && published == w.published && effects == w.effects && records == w.records && joins == w.joins
          && handoffs == w.handoffs
    }

    ghost predicate Valid()
      reads this
    {
      Shows(Now().world)
    }

    ghost predicate At(t: int, pc: Pc)
      reads this
    {
      t in Now().threads && Now().threads[t] == pc
    }

    ghost method Note(e: Event)
      requires Shows(Next(cfg, Now(), e).world)
      modifies this`events
      ensures Valid() && Now() == Next(cfg, old(Now()), e) && events == old(events) + [e]
    {
      events := events + [e];
      assert events[..|events| - 1] == old(events);
    }

    /** Whatever other callers and new plans do meanwhile. */
    method Others(ghost t: int)
      requires Valid()
      modifies this
      ensures Valid() && old(events) <= events
      ensures t in old(Now()).threads ==> At(t, old(Now()).threads[t])
      ensures t !in old(Now()).threads ==> t !in Now().threads
      ensures !shared ==> Same(old(plan), old(published), old(effects), old(records), old(joins), old(handoffs))
    {
    }

    predicate Same(plan: Plan, published: Option<Authorization>, effects: seq<Effect>, records: seq<Record>,
        joins: seq<Join>, handoffs: seq<Handoff>)
      reads this
    {
      && this.plan == plan && this.published == published && this.effects == effects && this.records == records
      && this.joins == joins && this.handoffs == handoffs
    }
  }

  // ---- What an execution says -------------------------------------------------------------------

  /** The item of an assignment tells what the port did with its call: an answer with a reference is a
      dispatch, a plain refusal or request for a human is kept, anything else is an error; an emitted
      handoff is in the ledger, unless that was full. */
  predicate ItemTells(x: Item, auth: Authorization, effect: Id, a: Assignment, answer: PortAnswer, hs: seq<Handoff>) {
    && x.node == a.node && x.who == a.who && x.replay == ReplayKey(auth, a.node)
    && match answer
       case Emit(facts) =>
         var h := Handoff(effect, auth, ReplayKey(auth, a.node), a.node, a.repo, a.issue, a.who, facts);
         || (x.result == DISPATCHED && x.ref == Some(HandoffDigest(h)) && h in hs)
         || (x.result == HUMAN_REQUIRED && x.ref.None? && |hs| >= MAX_HANDOFFS)
       case Foreign(Answer(DISPATCHED, Some(ref))) => x.result == DISPATCHED && x.ref == Some(ref)
       case Foreign(Answer(REFUSED, None)) => x.result == REFUSED && x.ref.None?
       case Foreign(Answer(HUMAN_REQUIRED, None)) => x.result == HUMAN_REQUIRED && x.ref.None?
       case Foreign(_) => x.result == ERROR && x.ref.None?
  }

  ghost predicate ReceiptTells(r: Receipt, port: Assignment -> PortAnswer, hs: seq<Handoff>) {
    && |r.items| == |r.auth.plan.assignments| && OverallSays(r.overall, r.items) && CountsSay(r.counts, r.items)
    && forall i :: 0 <= i < |r.items| ==>
         var a := r.auth.plan.assignments[i]; ItemTells(r.items[i], r.auth, r.effect, a, port(a), hs)
  }

  ghost predicate ItemsTell(items: map<int, Item>, auth: Authorization, effect: Id, port: Assignment -> PortAnswer,
      hs: seq<Handoff>) {
    forall i | i in items && 0 <= i < |auth.plan.assignments| ::
      var a := auth.plan.assignments[i]; ItemTells(items[i], auth, effect, a, port(a), hs)
  }

  lemma StillTell(items: map<int, Item>, auth: Authorization, effect: Id, port: Assignment -> PortAnswer,
      hs: seq<Handoff>, more: seq<Handoff>)
    requires ItemsTell(items, auth, effect, port, hs) && hs <= more
    ensures ItemsTell(items, auth, effect, port, more)
  {
  }

  lemma HandoffsStay(cfg: Config, events: seq<Event>, more: seq<Event>)
    requires events <= more
    ensures Exec(cfg, events).world.handoffs <= Exec(cfg, more).world.handoffs
  {
    LedgersGrow(cfg, more, |events|);
    assert more[..|events|] == events;
  }

  /** A call never made before emits a handoff the ledger does not hold. */
  lemma NewHandoff(cfg: Config, events: seq<Event>, t: int, i: int, facts: int)
    requires t in Exec(cfg, events).threads && Exec(cfg, events).threads[t].Calling?
    requires var pc := Exec(cfg, events).threads[t]; 0 <= i < |pc.auth.plan.assignments| && i !in pc.items
    ensures var pc := Exec(cfg, events).threads[t];
            HandoffFor(pc.auth, pc.effect, pc.auth.plan.assignments[i], facts) !in Exec(cfg, events).world.handoffs
  {
    RunsKeepInvariant(cfg, events);
    var w, pc := Exec(cfg, events).world, Exec(cfg, events).threads[t];
    var h := HandoffFor(pc.auth, pc.effect, pc.auth.plan.assignments[i], facts);
    assert CalledSoFar(w.calls, pc.auth, pc.items) && w.calls[h.replay] == 0;
    forall k | 0 <= k < |w.handoffs| ensures w.handoffs[k] != h {
      assert w.calls[w.handoffs[k].replay] > 0;
    }
  }

  function Update(t: int): Event { Run(t, 0, Foreign(Broken), true, false) }

  /** The ledger has room, and no record has this cycle, plan, authorization or effect. */
  predicate FreshRecord(records: seq<Record>, auth: Authorization, cycle: Id, effect: Id) {
    && |records| < MAX_RECORDS
    && forall i | 0 <= i < |records| ::
         && records[i].cycle != cycle && records[i].auth.plan != auth.plan
         && records[i].auth != auth && records[i].effect != effect
  }

  lemma RecordsLoad(cfg: Config, events: seq<Event>)
    ensures RecordsOk(Exec(cfg, events).world.records)
  {
    RunsKeepInvariant(cfg, events);
  }

  /** `_reserve`: one record per cycle, plan, authorization and effect. */
  method ReserveRecord(root: DataRoot, t: int, auth: Authorization, cycle: Id, effect: Id) returns (ok: bool)
    requires root.Valid() && root.At(t, Built(auth, cycle, effect))
    modifies root
    ensures root.Valid() && old(root.events) <= root.events
    ensures root.At(t, if ok then RecordReserved(auth, cycle, effect) else Over)
    ensures !root.shared ==> ok == FreshRecord(old(root.records), auth, cycle, effect)
    ensures !root.shared ==>
            root.Same(old(root.plan), old(root.published), old(root.effects),
                      old(root.records) + if ok then [Record(cycle, auth, effect, None, None)] else [],
                      old(root.joins), old(root.handoffs))
  {
    root.Others(t);
    RecordsLoad(root.cfg, root.events);
    var r := Record(cycle, auth, effect, None, None);
    ok := RecordsOk(root.records) && |root.records| < MAX_RECORDS;
    var i := 0;
    while ok && i < |root.records|
      invariant 0 <= i <= |root.records|
      invariant ok ==> forall k :: 0 <= k < i ==> !SameReplay(root.records[k], r)
      invariant !ok ==>
          || !RecordsOk(root.records)
          || |root.records| >= MAX_RECORDS
          || (exists k :: 0 <= k < |root.records| && SameReplay(root.records[k], r))
    {
      ok := !SameReplay(root.records[i], r);
      i := i + 1;
    }
    if ok {
      root.records := root.records + [r];
    }
    root.Note(Update(t));
  }

  function Below(n: nat): (s: set<int>)
    ensures forall i :: i in s <==> 0 <= i < n
  {
    if n == 0 then {} else Below(n - 1) + {n - 1}
  }

  /** Reserves the effect, calls the port once per assignment in whatever order the threads happen to
      run, and finalizes the receipt. `port` is what the port does with each call. */
  method CommitDispatchEffect(root: DataRoot, t: int, auth: Authorization, cycle: Id, effect: Id,
      port: Assignment -> PortAnswer) returns (receipt: Option<Receipt>)
    requires root.Valid() && root.At(t, Ready(auth, cycle, effect))
    modifies root
    ensures root.Valid() && old(root.events) <= root.events
    ensures receipt.Some? ==>
            root.At(t, EffectDone(auth, cycle, effect, receipt.value)) && ReceiptOk(receipt.value)
                && Follows(receipt.value)
    ensures receipt.Some? ==>
            receipt.value.auth == auth && receipt.value.effect == effect
                && ReceiptTells(receipt.value, port, root.handoffs)
    ensures receipt.None? ==> root.At(t, Over)
    ensures !root.shared ==>
            (receipt.Some? <==> Dispatchable(old(root.plan), old(root.published), old(root.effects), auth, effect))
    ensures !root.shared && receipt.Some? ==>
            root.Same(old(root.plan), old(root.published), old(root.effects) + [Effect(effect, auth, receipt)],
                      old(root.records), old(root.joins), root.handoffs)
    ensures !root.shared && receipt.None? ==>
            root.Same(old(root.plan), old(root.published), old(root.effects), old(root.records), old(root.joins),
                      old(root.handoffs))
  {
    var reserved := ReserveEffect(root, t, auth, cycle, effect);
    if !reserved {
      return None;
    }
    var items := CallAll(root, t, auth, cycle, effect, port);
    receipt := FinalizeEffect(root, t, auth, cycle, effect, items, port);
    FinalizedLast(old(root.effects), effect, receipt.value);
  }

  /** Every assignment is called once, in whatever order the threads happen to run. */
  method CallAll(root: DataRoot, t: int, auth: Authorization, cycle: Id, effect: Id, port: Assignment -> PortAnswer)
      returns (items: map<int, Item>)
    requires root.Valid() && root.At(t, Calling(auth, Some(cycle), effect, map[]))
    modifies root
    ensures root.Valid() && old(root.events) <= root.events
    ensures root.At(t, Calling(auth, Some(cycle), effect, items)) && AllAnswered(auth, items)
    ensures ItemsTell(items, auth, effect, port, root.handoffs)
    ensures !root.shared ==>
            root.Same(old(root.plan), old(root.published), old(root.effects), old(root.records), old(root.joins),
                      root.handoffs)
  {
    items := map[];
    var waiting := Below(|auth.plan.assignments|);
    while waiting != {}
      invariant root.Valid() && old(root.events) <= root.events
      invariant root.At(t, Calling(auth, Some(cycle), effect, items))
      invariant ItemsTell(items, auth, effect, port, root.handoffs)
      invariant !root.shared ==>
          root.Same(old(root.plan), old(root.published), old(root.effects), old(root.records), old(root.joins),
                    root.handoffs)
      invariant Waits(waiting, items, |auth.plan.assignments|)
      decreases |waiting|
    {
      var i := AnyOf(waiting);
      items := CallOnce(root, t, auth, cycle, effect, items, i, port);
      waiting := waiting - {i};
    }
  }

  /** Exactly those waiting, of the first n, are not answered. */
  ghost predicate Waits(waiting: set<int>, items: map<int, Item>, n: nat) {
    && (forall i | i in waiting :: 0 <= i < n && i !in items)
    && (forall i | 0 <= i < n :: i in waiting || i in items)
  }

  method AnyOf(waiting: set<int>) returns (i: int)
    requires waiting != {}
    ensures i in waiting
  {
    assert (forall k :: k !in waiting) ==> waiting == {};
    i :| i in waiting;
  }

  lemma FinalizedLast(es: seq<Effect>, effect: Id, r: Receipt)
    ensures (forall i | 0 <= i < |es| :: es[i].effect != effect) ==>
              Finalized(es + [Effect(effect, r.auth, None)], effect, r) == es + [Effect(effect, r.auth, Some(r))]
  {
  }

  /** The authorization is published for the current plan and valid, the ledger has room, and neither
      the effect nor the authorization has been used. */
  predicate Dispatchable(plan: Plan, published: Option<Authorization>, effects: seq<Effect>, auth: Authorization,
      effect: Id) {
    published == Some(auth) && plan == auth.plan && AuthorizationOk(auth) && FreshEffect(effects, auth, effect)
  }

  predicate FreshEffect(effects: seq<Effect>, auth: Authorization, effect: Id) {
    && |effects| < MAX_EFFECTS
    && forall i | 0 <= i < |effects| :: effects[i].effect != effect && effects[i].auth != auth
  }

  method CallOnce(root: DataRoot, t: int, auth: Authorization, cycle: Id, effect: Id, items: map<int, Item>,
      i: int, port: Assignment -> PortAnswer)
    returns (more: map<int, Item>)
    requires root.Valid() && root.At(t, Calling(auth, Some(cycle), effect, items))
      && 0 <= i < |auth.plan.assignments| && i !in items && ItemsTell(items, auth, effect, port, root.handoffs)
    modifies root
    ensures root.Valid() && old(root.events) <= root.events
    ensures more.Keys == items.Keys + {i} && root.At(t, Calling(auth, Some(cycle), effect, more))
    ensures ItemsTell(more, auth, effect, port, root.handoffs)
    ensures !root.shared ==>
            root.Same(old(root.plan), old(root.published), old(root.effects), old(root.records), old(root.joins),
                      root.handoffs)
  {
    ghost var before := root.handoffs;
    more := DispatchOnce(root, t, auth, cycle, effect, items, i, port(auth.plan.assignments[i]));
    HandoffsStay(root.cfg, old(root.events), root.events);
    StillTell(items, auth, effect, port, before, root.handoffs);
  }

  method ReserveEffect(root: DataRoot, t: int, auth: Authorization, cycle: Id, effect: Id) returns (ok: bool)
    requires root.Valid() && root.At(t, Ready(auth, cycle, effect))
    modifies root
    ensures root.Valid() && old(root.events) <= root.events
    ensures root.At(t, if ok then Calling(auth, Some(cycle), effect, map[]) else Over)
    ensures !root.shared ==>
            ok == Dispatchable(old(root.plan), old(root.published), old(root.effects), auth, effect)
    ensures !root.shared ==>
            root.Same(old(root.plan), old(root.published),
                      old(root.effects) + if ok then [Effect(effect, auth, None)] else [],
                      old(root.records), old(root.joins), old(root.handoffs))
  {
    root.Others(t);
    EffectsLoad(root.cfg, root.events);
    ok := root.published == Some(auth) && root.plan == auth.plan && AuthorizationOk(auth)
          && EffectsOk(root.effects) && |root.effects| < MAX_EFFECTS && !ReplaysEffect(root.effects, effect, auth);
    if ok {
      root.effects := root.effects + [Effect(effect, auth, None)];
    }
    root.Note(Update(t));
  }

  method DispatchOnce(root: DataRoot, t: int, auth: Authorization, cycle: Id, effect: Id, items: map<int, Item>,
      i: int, answer: PortAnswer)
    returns (more: map<int, Item>)
    requires root.Valid() && root.At(t, Calling(auth, Some(cycle), effect, items))
      && 0 <= i < |auth.plan.assignments| && i !in items
    modifies root
    ensures root.Valid() && old(root.events) <= root.events
    ensures more.Keys == items.Keys + {i} && root.At(t, Calling(auth, Some(cycle), effect, more))
    ensures more == items[i := more[i]]
    ensures ItemTells(more[i], auth, effect, auth.plan.assignments[i], answer, root.handoffs)
    ensures !root.shared ==>
            root.Same(old(root.plan), old(root.published), old(root.effects), old(root.records), old(root.joins),
                      root.handoffs)
  {
    root.Others(t);
    if answer.Emit? {
      NewHandoff(root.cfg, root.events, t, i, answer.facts);
    }
    var raw := PortCall(root, t, auth, cycle, effect, items, i, answer);
    more := items[i := Normalize(auth.plan.assignments[i], auth, raw)];
    NormalizeTells(auth.plan.assignments[i], auth, effect, answer, raw, root.handoffs);
  }

  /** What the port answers, as the effect sees it. */
  predicate PortSays(auth: Authorization, effect: Id, a: Assignment, answer: PortAnswer, raw: Raw, hs: seq<Handoff>) {
    match answer
    case Foreign(x) => raw == x
    case Emit(facts) =>
      var h := HandoffFor(auth, effect, a, facts);
      || (raw == Answer(DISPATCHED, Some(HandoffDigest(h))) && h in hs)
      || (raw == Answer(HUMAN_REQUIRED, None) && |hs| >= MAX_HANDOFFS)
  }

  lemma NormalizeTells(a: Assignment, auth: Authorization, effect: Id, answer: PortAnswer, raw: Raw, hs: seq<Handoff>)
    requires PortSays(auth, effect, a, answer, raw, hs)
    ensures ItemTells(Normalize(a, auth, raw), auth, effect, a, answer, hs)
  {
  }

  method PortCall(root: DataRoot, t: int, auth: Authorization, cycle: Id, effect: Id, ghost items: map<int, Item>,
      i: int, answer: PortAnswer)
    returns (raw: Raw)
    requires root.Valid() && root.At(t, Calling(auth, Some(cycle), effect, items))
      && 0 <= i < |auth.plan.assignments| && i !in items
    requires answer.Emit? ==> HandoffFor(auth, effect, auth.plan.assignments[i], answer.facts) !in root.handoffs
    modifies root
    ensures root.Valid() && old(root.events) <= root.events
    ensures PortSays(auth, effect, auth.plan.assignments[i], answer, raw, root.handoffs)
    ensures root.At(t, Calling(auth, Some(cycle), effect, items[i := Normalize(auth.plan.assignments[i], auth, raw)]))
    ensures root.Same(old(root.plan), old(root.published), old(root.effects), old(root.records), old(root.joins),
                      root.handoffs)
  {
    if answer.Foreign? {
      raw := answer.raw;
    } else {
      raw := EmitHandoff(root, HandoffFor(auth, effect, auth.plan.assignments[i], answer.facts));
    }
    root.Note(Run(t, i, answer, true, false));
  }

  /** The handoff port: a new handoff is appended, a full or repeating ledger asks for a human. */
  method EmitHandoff(root: DataRoot, h: Handoff) returns (raw: Raw)
    modifies root`handoffs
    ensures |old(root.handoffs)| < MAX_HANDOFFS && h !in old(root.handoffs) ==>
              root.handoffs == old(root.handoffs) + [h] && raw == Answer(DISPATCHED, Some(HandoffDigest(h)))
    ensures |old(root.handoffs)| >= MAX_HANDOFFS || h in old(root.handoffs) ==>
              root.handoffs == old(root.handoffs) && raw == Answer(HUMAN_REQUIRED, None)
  {
    if |root.handoffs| < MAX_HANDOFFS && h !in root.handoffs {
      root.handoffs := root.handoffs + [h];
      raw := Answer(DISPATCHED, Some(HandoffDigest(h)));
    } else {
      raw := Answer(HUMAN_REQUIRED, None);
    }
  }

  /** The receipt, once every assignment is answered; its reservation is always still there. */
  method FinalizeEffect(root: DataRoot, t: int, auth: Authorization, cycle: Id, effect: Id, items: map<int, Item>,
      ghost port: Assignment -> PortAnswer) returns (receipt: Option<Receipt>)
    requires root.Valid() && root.At(t, Calling(auth, Some(cycle), effect, items)) && AllAnswered(auth, items)
    requires ItemsTell(items, auth, effect, port, root.handoffs)
    modifies root
    ensures root.Valid() && old(root.events) <= root.events
    ensures receipt.Some? && receipt.value.auth == auth && receipt.value.effect == effect
    ensures root.At(t, EffectDone(auth, cycle, effect, receipt.value)) && ReceiptOk(receipt.value)
    ensures Follows(receipt.value) && ReceiptTells(receipt.value, port, root.handoffs)
    ensures !root.shared ==>
            root.Same(old(root.plan), old(root.published), Finalized(old(root.effects), effect, receipt.value),
                      old(root.records), old(root.joins), old(root.handoffs))
  {
    ghost var before := root.handoffs;
    root.Others(t);
    HandoffsStay(root.cfg, old(root.events), root.events);
    StillTell(items, auth, effect, port, before, root.handoffs);
    ReceiptInThread(root.cfg, root.events, t, port, root.handoffs);
    receipt := WriteReceipt(root, t, auth, cycle, effect, items);
  }

  method WriteReceipt(root: DataRoot, t: int, auth: Authorization, cycle: Id, effect: Id, items: map<int, Item>)
      returns (receipt: Option<Receipt>)
    requires root.Valid() && root.At(t, Calling(auth, Some(cycle), effect, items)) && AllAnswered(auth, items)
    requires EffectsOk(root.effects) && FindEffect(root.effects, effect) == Some(Effect(effect, auth, None))
    requires ReceiptOk(ReceiptFor(effect, auth, InOrder(auth, items)))
    modifies root
    ensures root.Valid() && old(root.events) <= root.events
    ensures receipt == Some(ReceiptFor(effect, auth, InOrder(auth, items)))
    ensures root.At(t, EffectDone(auth, cycle, effect, receipt.value))
    ensures root.Same(old(root.plan), old(root.published), Finalized(old(root.effects), effect, receipt.value),
                      old(root.records), old(root.joins), old(root.handoffs))
  {
    var r := ReceiptFor(effect, auth, InOrder(auth, items));
    var entry := FindEffect(root.effects, effect);
    var ok := EffectsOk(root.effects) && ReceiptOk(r) && entry.Some? && entry.value.receipt.None?;
    if ok {
      root.effects := Rewritten(root.effects, effect, r);
    }
    root.Note(Run(t, 0, Foreign(Broken), true, true));
    receipt := if ok then Some(r) else None;
  }

  lemma EffectsLoad(cfg: Config, events: seq<Event>)
    ensures EffectsOk(Exec(cfg, events).world.effects)
  {
    RunsKeepInvariant(cfg, events);
  }

  lemma ReceiptInThread(cfg: Config, events: seq<Event>, t: int, port: Assignment -> PortAnswer, hs: seq<Handoff>)
    requires t in Exec(cfg, events).threads && Exec(cfg, events).threads[t].Calling?
    requires var pc := Exec(cfg, events).threads[t];
             AllAnswered(pc.auth, pc.items) && ItemsTell(pc.items, pc.auth, pc.effect, port, hs)
    ensures var pc := Exec(cfg, events).threads[t];
            var r := ReceiptFor(pc.effect, pc.auth, InOrder(pc.auth, pc.items));
            ReceiptOk(r) && Follows(r) && ReceiptTells(r, port, hs)
    ensures var pc := Exec(cfg, events).threads[t]; var es := Exec(cfg, events).world.effects;
            EffectsOk(es) && FindEffect(es, pc.effect) == Some(Effect(pc.effect, pc.auth, None))
  {
    RunsKeepInvariant(cfg, events);
    var pc, w := Exec(cfg, events).threads[t], Exec(cfg, events).world;
    assert ThreadInv(w, t, pc);
    ReceiptOfItems(pc.auth, pc.effect, pc.items, port, hs);
    var i :| 0 <= i < |w.effects| && w.effects[i] == Effect(pc.effect, pc.auth, None);
    PipelineStable.FindEffectAt(w.effects, i);
  }

  lemma ReceiptOfItems(auth: Authorization, effect: Id, items: map<int, Item>, port: Assignment -> PortAnswer,
      hs: seq<Handoff>)
    requires AuthorizationOk(auth) && ItemsOk(auth, items) && AllAnswered(auth, items)
    requires ItemsTell(items, auth, effect, port, hs)
    ensures var r := ReceiptFor(effect, auth, InOrder(auth, items));
            ReceiptOk(r) && Follows(r) && ReceiptTells(r, port, hs)
  {
    PipelineSteps.InOrderIsValid(effect, auth, items);
    ReceiptSays(ReceiptFor(effect, auth, InOrder(auth, items)));
  }

  /** The list of entries with the finalized one rewritten. */
  method Rewritten(es: seq<Effect>, effect: Id, r: Receipt) returns (updated: seq<Effect>)
    ensures updated == Finalized(es, effect, r)
  {
    updated := [];
    for i := 0 to |es|
      invariant updated == Finalized(es, effect, r)[..i]
    {
      updated := updated + [if es[i].effect == effect then Effect(effect, r.auth, Some(r)) else es[i]];
    }
  }

  /** `record_concurrency_dispatch_join`: build, then append and sort under the lock. */
  method RecordDispatchJoin(root: DataRoot, t: int, o: Observation) returns (ok: bool)
    requires root.Valid() && t !in root.Now().threads
    modifies root
    ensures root.Valid() && old(root.events) <= root.events && root.At(t, Over)
    ensures ok ==> exists j :: j in root.joins && j.id == o.id && j.receipt == o.receipt
    ensures !root.shared ==> (ok <==> Joins(old(root.effects), o) && FreshJoin(old(root.joins), o))
    ensures !root.shared && !ok ==> root.joins == old(root.joins)
    ensures !root.shared && ok ==>
            exists j :: JoinOf(j, o) && root.joins == InsertJoin(old(root.joins), j)
  {
    var built := BuildObserved(root, t, o);
    if built.None? {
      return false;
    }
    ok := AppendAndSort(root, t, built.value);
  }

  method BuildObserved(root: DataRoot, t: int, o: Observation) returns (built: Option<Join>)
    requires root.Valid() && t !in root.Now().threads
    modifies root
    ensures root.Valid() && old(root.events) <= root.events
    ensures root.At(t, if built.Some? then JoinBuilt(built.value) else Over)
    ensures built.Some? ==> JoinOf(built.value, o)
    ensures !root.shared ==> (built.Some? <==> Joins(old(root.effects), o))
    ensures !root.shared ==> root.joins == old(root.joins)
  {
    root.Others(t);
    BuiltJoinOf(root.cfg, root.events, o);
    built := BuildJoin(root.effects, o);
    root.Note(StartJoin(t, o));
  }

  lemma BuiltJoinOf(cfg: Config, events: seq<Event>, o: Observation)
    ensures var es := Exec(cfg, events).world.effects;
            && (BuildJoin(es, o).Some? <==> Joins(es, o))
            && (BuildJoin(es, o).Some? ==> JoinOf(BuildJoin(es, o).value, o))
  {
    EffectsLoad(cfg, events);
    var es := Exec(cfg, events).world.effects;
    BuiltExactly(es, o);
    if BuildJoin(es, o).Some? {
      FoundExactly(es, o.effect, o.receipt);
      var i :| 0 <= i < |es| && es[i].effect == o.effect && es[i].receipt == Some(o.receipt);
      assert EffectOk(es[i]);
      BuiltJoinIsValid(es, o);
      SortNodesOk(o.outcomes);
      JoinSaysRight(BuildJoin(es, o).value);
    }
  }

  predicate FreshJoin(js: seq<Join>, o: Observation) {
    |js| < MAX_JOINS && forall i | 0 <= i < |js| :: js[i].id != o.id && js[i].receipt != o.receipt
  }

  /** The join of an observation: its outcomes by node, and a result and counts that say what they are. */
  ghost predicate JoinOf(j: Join, o: Observation) {
    && j.id == o.id && j.effect == o.effect && j.receipt == o.receipt && j.auth == o.auth
    && j.observedAt == o.observedAt && ByNode(j.outcomes) && (forall x :: x in j.outcomes <==> x in o.outcomes)
    && JoinSays(j.result, j.outcomes)
  }

  lemma JoinsLoadAlways(cfg: Config, events: seq<Event>)
    ensures EffectsOk(Exec(cfg, events).world.effects)
    ensures JoinsLoad(Exec(cfg, events).world.effects, Exec(cfg, events).world.joins)
  {
    RunsKeepInvariant(cfg, events);
  }

  method AppendAndSort(root: DataRoot, t: int, j: Join) returns (ok: bool)
    requires root.Valid() && root.At(t, JoinBuilt(j))
    modifies root
    ensures root.Valid() && old(root.events) <= root.events && root.At(t, Over)
    ensures ok ==> j in root.joins
    ensures !root.shared ==>
            && ok == (|old(root.joins)| < MAX_JOINS && forall i | 0 <= i < |old(root.joins)| ::
                        old(root.joins)[i].id != j.id && old(root.joins)[i].receipt != j.receipt)
            && root.joins == if ok then InsertJoin(old(root.joins), j) else old(root.joins)
  {
    root.Others(t);
    JoinsLoadAlways(root.cfg, root.events);
    ok := StoreJoin(root, t, j);
  }

  method StoreJoin(root: DataRoot, t: int, j: Join) returns (ok: bool)
    requires root.Valid() && root.At(t, JoinBuilt(j)) && JoinsLoad(root.effects, root.joins)
    modifies root
    ensures root.Valid() && old(root.events) <= root.events && root.At(t, Over)
    ensures ok ==> j in root.joins
    ensures ok == (|old(root.joins)| < MAX_JOINS && forall i | 0 <= i < |old(root.joins)| ::
                     old(root.joins)[i].id != j.id && old(root.joins)[i].receipt != j.receipt)
    ensures root.joins == if ok then InsertJoin(old(root.joins), j) else old(root.joins)
  {
    ReplaysExactly(root.joins, j);
    RecordsJoin(root.Now().world, j);
    ok := JoinsLoad(root.effects, root.joins) && |root.joins| < MAX_JOINS && !ReplaysJoin(root.joins, j);
    if ok {
      root.joins := Sorting(root.joins, j);
    }
    root.Note(Update(t));
  }

  lemma RecordsJoin(w: World, j: Join)
    requires JoinsLoad(w.effects, w.joins)
    ensures DoRecordJoin(w, j)
         == Move(if |w.joins| < MAX_JOINS && !ReplaysJoin(w.joins, j) then w.(joins := InsertJoin(w.joins, j)) else w,
                 Over)
  {
  }

  lemma ReplaysExactly(js: seq<Join>, j: Join)
    ensures !ReplaysJoin(js, j) <==> forall i | 0 <= i < |js| :: js[i].id != j.id && js[i].receipt != j.receipt
  {
  }

  method Sorting(js: seq<Join>, j: Join) returns (sorted: seq<Join>)
    ensures sorted == InsertJoin(js, j) && j in sorted
  {
    var i := 0;
    while i < |js| && Before(js[i], j)
      invariant 0 <= i <= |js| && InsertJoin(js, j) == js[..i] + InsertJoin(js[i..], j)
    {
      assert js[i..][1..] == js[i + 1..];
      i := i + 1;
    }
    sorted := js[..i] + [j] + js[i..];
  }

  method Authorize(root: DataRoot, t: int, cycle: Id, authId: Id, at: int, effect: Id)
      returns (auth: Authorization, ok: bool)
    requires root.Valid() && t !in root.Now().threads
    modifies root
    ensures root.Valid() && old(root.events) <= root.events
    ensures root.At(t, if ok then Built(auth, cycle, effect) else Over)
    ensures auth.id == authId && auth.evaluatedAt == at
    ensures !root.shared ==> auth.plan == old(root.plan) && ok == AuthorizationOk(auth)
    ensures !root.shared ==>
            root.Same(old(root.plan), old(root.published), old(root.effects), old(root.records), old(root.joins),
                      old(root.handoffs))
  {
    root.Others(t);
    auth := Authorization(authId, at, root.plan);
    ok := AuthorizationOk(auth);
    root.Note(Start(t, authId, at, cycle, effect));
  }

  /** Everything before the dispatch: the authorization, its record, its publication. */
  method Prepare(root: DataRoot, t: int, cycle: Id, authId: Id, at: int, effect: Id)
      returns (auth: Authorization, ok: bool)
    requires root.Valid() && t !in root.Now().threads
    modifies root
    ensures root.Valid() && old(root.events) <= root.events
    ensures root.At(t, if ok then Ready(auth, cycle, effect) else Over)
    ensures !root.shared ==>
            auth == Authorization(authId, at, old(root.plan)) &&
            ok == (AuthorizationOk(auth) && FreshRecord(old(root.records), auth, cycle, effect))
    ensures !root.shared && ok ==>
            root.Same(old(root.plan), Some(auth), old(root.effects),
                      old(root.records) + [Record(cycle, auth, effect, None, None)], old(root.joins),
                      old(root.handoffs))
    ensures !root.shared && !ok ==>
            root.Same(old(root.plan), old(root.published), old(root.effects), old(root.records), old(root.joins),
                      old(root.handoffs))
  {
    auth, ok := Authorize(root, t, cycle, authId, at, effect);
    if ok {
      ok := ReserveRecord(root, t, auth, cycle, effect);
    }
    if ok {
      ok := PublishOwn(root, t, auth, cycle, effect);
    }
  }

  /** One execution: authorize, reserve the record, publish, dispatch, finalize both ledgers. */
  method StartConcurrencyExecution(root: DataRoot, t: int, cycle: Id, authId: Id, at: int, effect: Id,
      port: Assignment -> PortAnswer)
    returns (receipt: Option<Receipt>)
    requires root.Valid() && t !in root.Now().threads
    modifies root
    ensures root.Valid() && old(root.events) <= root.events && root.At(t, Over)
    ensures receipt.Some? ==>
            ReceiptOk(receipt.value) && Follows(receipt.value) && ReceiptTells(receipt.value, port, root.handoffs)
    ensures !root.shared ==>
            var auth := Authorization(authId, at, old(root.plan));
            receipt.Some? <==> AuthorizationOk(auth) && FreshRecord(old(root.records), auth, cycle, effect)
                               && FreshEffect(old(root.effects), auth, effect)
    ensures !root.shared && receipt.Some? ==>
            var auth, r := Authorization(authId, at, old(root.plan)), receipt.value;
            root.Same(old(root.plan), Some(auth), old(root.effects) + [Effect(effect, auth, receipt)],
                      old(root.records) + [Record(cycle, auth, effect, receipt, Some(r.overall))], old(root.joins),
                      root.handoffs)
    ensures !root.shared && receipt.None? ==> root.effects == old(root.effects) && root.handoffs == old(root.handoffs)
  {
    var auth, ok := Prepare(root, t, cycle, authId, at, effect);
    if !ok {
      return None;
    }
    receipt := CommitDispatchEffect(root, t, auth, cycle, effect, port);
    if receipt.Some? {
      ghost var reserved := root.events;
      FinalizeRecord(root, t, auth, cycle, effect, receipt.value);
      HandoffsStay(root.cfg, reserved, root.events);
      StillTells(receipt.value, port, Exec(root.cfg, reserved).world.handoffs, root.handoffs);
      FinishedLast(old(root.records), auth, cycle, effect, receipt.value);
    }
  }

  lemma StillTells(r: Receipt, port: Assignment -> PortAnswer, hs: seq<Handoff>, more: seq<Handoff>)
    requires ReceiptTells(r, port, hs) && hs <= more
    ensures ReceiptTells(r, port, more)
  {
  }

  lemma FinishedLast(rs: seq<Record>, auth: Authorization, cycle: Id, effect: Id, r: Receipt)
    ensures var open := Record(cycle, auth, effect, None, None);
            var done := Record(cycle, auth, effect, Some(r), Some(r.overall));
            FreshRecord(rs, auth, cycle, effect) ==> Replaced(rs + [open], open, done) == rs + [done]
  {
  }

  method PublishOwn(root: DataRoot, t: int, auth: Authorization, cycle: Id, effect: Id) returns (ok: bool)
    requires root.Valid() && root.At(t, RecordReserved(auth, cycle, effect))
    modifies root
    ensures root.Valid() && old(root.events) <= root.events
    ensures root.At(t, if ok then Ready(auth, cycle, effect) else Over)
    ensures !root.shared && AuthorizationOk(auth) && auth.plan == old(root.plan) ==>
            ok && root.Same(old(root.plan), Some(auth), old(root.effects), old(root.records), old(root.joins),
                            old(root.handoffs))
  {
    root.Others(t);
    var again := auth.(plan := root.plan);
    if AuthorizationOk(again) {
      root.published := Some(again);
    }
    root.Note(Update(t));
    ok := AuthorizationOk(again) && again == auth;
  }

  method FinalizeRecord(root: DataRoot, t: int, auth: Authorization, cycle: Id, effect: Id, r: Receipt)
    requires root.Valid() && root.At(t, EffectDone(auth, cycle, effect, r))
    modifies root
    ensures root.Valid() && old(root.events) <= root.events && root.At(t, Over)
    ensures !root.shared && Record(cycle, auth, effect, None, None) in old(root.records) ==>
            root.Same(old(root.plan), old(root.published), old(root.effects),
                      Replaced(old(root.records), Record(cycle, auth, effect, None, None),
                               Record(cycle, auth, effect, Some(r), Some(r.overall))),
                      old(root.joins), old(root.handoffs))
  {
    root.Others(t);
    RecordsLoad(root.cfg, root.events);
    var open := Record(cycle, auth, effect, None, None);
    if RecordsOk(root.records) && open in root.records {
      root.records := Replaced(root.records, open, Record(cycle, auth, effect, Some(r), Some(r.overall)));
    }
    root.Note(Update(t));
  }
}
