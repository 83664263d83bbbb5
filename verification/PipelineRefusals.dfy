/** What each ledger update of the pipeline does in every run, and exactly when it is refused: every
    re-validation of what was written before succeeds, and every reservation is still there when its
    caller comes back to it. */
module PipelineRefusals {
  import opened Common
  import opened Pipeline
  import opened PipelineBuild
  import opened PipelineStable
  import opened PipelineRuns
  import opened PipelineInvariant
  import opened PipelineTheorems
  import opened PipelineOwn
  import PipelineSteps

  function After(cfg: Config, events: seq<Event>, e: Event): System { Next(cfg, Exec(cfg, events), e) }

  predicate At(cfg: Config, events: seq<Event>, t: int, pc: Pc) {
    t in Exec(cfg, events).threads && Exec(cfg, events).threads[t] == pc
  }

  lemma FinishRan(cfg: Config, events: seq<Event>, e: Event, auth: Authorization, cycle: Option<Id>, effect: Id,
      items: map<int, Item>)
    requires e.Run? && e.finish && At(cfg, events, e.t, Calling(auth, cycle, effect, items))
    ensures var m := DoFinishEffect(Exec(cfg, events).world, auth, cycle, effect, items);
            After(cfg, events, e) == System(m.world, Exec(cfg, events).threads[e.t := m.pc])
  {
  }

  lemma FinishRecordRan(cfg: Config, events: seq<Event>, e: Event, auth: Authorization, cycle: Id, effect: Id,
      r: Receipt)
    requires e.Run? && At(cfg, events, e.t, EffectDone(auth, cycle, effect, r))
    ensures var m := DoFinishRecord(Exec(cfg, events).world, auth, cycle, effect, r);
            After(cfg, events, e) == System(m.world, Exec(cfg, events).threads[e.t := m.pc])
  {
  }

  lemma JoinRan(cfg: Config, events: seq<Event>, e: Event, j: Join)
    requires e.Run? && At(cfg, events, e.t, JoinBuilt(j))
    ensures After(cfg, events, e).world == DoRecordJoin(Exec(cfg, events).world, j).world
  {
  }

  lemma ClaimJoinRan(cfg: Config, events: seq<Event>, e: Event, c: ClaimJoin)
    requires e.Run? && At(cfg, events, e.t, ClaimJoinBuilt(c))
    ensures After(cfg, events, e).world == DoRecordClaimJoin(Exec(cfg, events).world, c).world
  {
  }

  // ---- Records and effects ------------------------------------------------------------------------

  /** A record is reserved exactly if the ledger has room and none has the cycle, plan, authorization
      or effect. */
  lemma RecordReservedExactly(cfg: Config, events: seq<Event>, e: Event, auth: Authorization, cycle: Id, effect: Id)
    requires e.Run? && At(cfg, events, e.t, Built(auth, cycle, effect))
    ensures var w, s := Exec(cfg, events).world, After(cfg, events, e);
            if |w.records| < 500 && forall i | 0 <= i < |w.records| ::
                 && w.records[i].cycle != cycle && w.records[i].auth.plan != auth.plan
                 && w.records[i].auth != auth && w.records[i].effect != effect
            then s.world == w.(records := w.records + [Record(cycle, auth, effect, None, None)])
                 && s.threads[e.t] == RecordReserved(auth, cycle, effect)
            else s.world == w && s.threads[e.t] == Over
  {
    RunsKeepInvariant(cfg, events);
  }

  /** An effect is reserved exactly if its authorization is valid, published and for the current plan,
      the ledger has room, and neither effect nor authorization was used before. */
  lemma EffectReservedExactly(cfg: Config, events: seq<Event>, e: Event, auth: Authorization, cycle: Id, effect: Id)
    requires e.Run? && e.valid && At(cfg, events, e.t, Ready(auth, cycle, effect))
    ensures var w, s := Exec(cfg, events).world, After(cfg, events, e);
            if w.published == Some(auth) && w.plan == auth.plan && AuthorizationOk(auth) && |w.effects| < 500
               && forall i | 0 <= i < |w.effects| :: w.effects[i].effect != effect && w.effects[i].auth != auth
            then s.world.effects == w.effects + [Effect(effect, auth, None)]
                 && s.threads[e.t] == Calling(auth, Some(cycle), effect, map[])
            else s.world == w && s.threads[e.t] == Over
  {
    RunsKeepInvariant(cfg, events);
  }

  /** The effect's own entry, and only that, has got a receipt with the items in assignment order, whose
      result and counts say what they are. */
  ghost predicate EffectFinished(es: seq<Effect>, fs: seq<Effect>, auth: Authorization, effect: Id,
      items: map<int, Item>, r: Receipt)
  {
    && r.effect == effect && r.auth == auth && |r.items| == |auth.plan.assignments|
    && (forall i | 0 <= i < |r.items| :: i in items && r.items[i] == items[i])
    && OverallSays(r.overall, r.items) && CountsSay(r.counts, r.items)
    && |fs| == |es| && Effect(effect, auth, None) in es
    && forall i | 0 <= i < |es| :: fs[i] == if es[i].effect == effect then Effect(effect, auth, Some(r)) else es[i]
  }

  /** Once every assignment is answered the effect is always finished. */
  lemma EffectFinishedAlways(cfg: Config, events: seq<Event>, e: Event, auth: Authorization, cycle: Option<Id>,
      effect: Id, items: map<int, Item>)
    returns (r: Receipt)
    requires e.Run? && e.finish && At(cfg, events, e.t, Calling(auth, cycle, effect, items))
    requires forall i | 0 <= i < |auth.plan.assignments| :: i in items
    ensures EffectFinished(Exec(cfg, events).world.effects, After(cfg, events, e).world.effects, auth, effect, items, r)
    ensures After(cfg, events, e).threads[e.t] == if cycle.Some? then EffectDone(auth, cycle.value, effect, r) else Over
  {
    r := ReceiptFor(effect, auth, InOrder(auth, items));
    FinishRan(cfg, events, e, auth, cycle, effect, items);
    assert WorldInv(Exec(cfg, events).world)
           && ThreadInv(Exec(cfg, events).world, e.t, Calling(auth, cycle, effect, items)) by {
      RunsKeepInvariant(cfg, events);
    }
    FinishedWorld(Exec(cfg, events).world, e.t, auth, cycle, effect, items);
  }

  lemma FinalizedEntries(es: seq<Effect>, effect: Id, r: Receipt)
    ensures var fs := Finalized(es, effect, r);
            |fs| == |es| && forall i | 0 <= i < |es| ::
              fs[i] == if es[i].effect == effect then Effect(effect, r.auth, Some(r)) else es[i]
  {
  }

  lemma FinishedWorld(w: World, t: int, auth: Authorization, cycle: Option<Id>, effect: Id, items: map<int, Item>)
    requires WorldInv(w) && ThreadInv(w, t, Calling(auth, cycle, effect, items)) && AllAnswered(auth, items)
    ensures var m := DoFinishEffect(w, auth, cycle, effect, items);
            var r := ReceiptFor(effect, auth, InOrder(auth, items));
            && EffectFinished(w.effects, m.world.effects, auth, effect, items, r)
            && m.pc == if cycle.Some? then EffectDone(auth, cycle.value, effect, r) else Over
  {
    assert EffectsOk(w.effects) && FindEffect(w.effects, effect) == Some(Effect(effect, auth, None)) by {
      var i :| 0 <= i < |w.effects| && w.effects[i] == Effect(effect, auth, None);
      FindEffectAt(w.effects, i);
    }
    FinishedReceipt(w.effects, auth, effect, items);
    FinishIs(w, auth, cycle, effect, items);
  }

  lemma FinishIs(w: World, auth: Authorization, cycle: Option<Id>, effect: Id, items: map<int, Item>)
    requires AllAnswered(auth, items) && ReceiptOk(ReceiptFor(effect, auth, InOrder(auth, items)))
    requires EffectsOk(w.effects) && FindEffect(w.effects, effect) == Some(Effect(effect, auth, None))
    ensures var r := ReceiptFor(effect, auth, InOrder(auth, items));
            DoFinishEffect(w, auth, cycle, effect, items)
              == Move(w.(effects := Finalized(w.effects, effect, r)),
                      if cycle.Some? then EffectDone(auth, cycle.value, effect, r) else Over)
  {
  }

  lemma FinishedReceipt(es: seq<Effect>, auth: Authorization, effect: Id, items: map<int, Item>)
    requires AuthorizationOk(auth) && ItemsOk(auth, items) && AllAnswered(auth, items)
    requires Effect(effect, auth, None) in es
    ensures var r := ReceiptFor(effect, auth, InOrder(auth, items));
            ReceiptOk(r) && EffectFinished(es, Finalized(es, effect, r), auth, effect, items, r)
  {
    var r := ReceiptFor(effect, auth, InOrder(auth, items));
    PipelineSteps.InOrderIsValid(effect, auth, items);
    ReceiptSays(r);
    FinalizedEntries(es, effect, r);
  }

  /** The execution record of a finished effect is always finished: its own entry, and only that, gets
      receipt and result. */
  lemma RecordFinishedAlways(cfg: Config, events: seq<Event>, e: Event, auth: Authorization, cycle: Id, effect: Id,
      r: Receipt)
    requires e.Run? && At(cfg, events, e.t, EffectDone(auth, cycle, effect, r))
    ensures var rs, done := Exec(cfg, events).world.records, After(cfg, events, e).world.records;
            && Record(cycle, auth, effect, None, None) in rs && |done| == |rs|
            && (forall i | 0 <= i < |rs| :: done[i] ==
                  if rs[i] == Record(cycle, auth, effect, None, None)
                  then Record(cycle, auth, effect, Some(r), Some(r.overall)) else rs[i])
    ensures After(cfg, events, e).world.effects == Exec(cfg, events).world.effects
  {
    assert RecordsOk(Exec(cfg, events).world.records) by {
      RunsKeepInvariant(cfg, events);
    }
    assert Owned(Exec(cfg, events).world, EffectDone(auth, cycle, effect, r)) by {
      RunsKeepOwn(cfg, events);
    }
    FinishRecordRan(cfg, events, e, auth, cycle, effect, r);
  }

  // ---- Joins and claims -----------------------------------------------------------------------------

  /** A built join is recorded exactly if the ledger has room and none has its id or receipt. */
  lemma JoinRecordedExactly(cfg: Config, events: seq<Event>, e: Event, j: Join)
    requires e.Run? && At(cfg, events, e.t, JoinBuilt(j))
    ensures var w, v := Exec(cfg, events).world, After(cfg, events, e).world;
            if |w.joins| < 500 && forall i | 0 <= i < |w.joins| ::
                 w.joins[i].id != j.id && w.joins[i].receipt != j.receipt
            then v == w.(joins := v.joins) && |v.joins| == |w.joins| + 1
                 && forall x :: x in v.joins <==> x == j || x in w.joins
            else v == w
  {
    assert WorldInv(Exec(cfg, events).world) by {
      RunsKeepInvariant(cfg, events);
    }
    JoinRan(cfg, events, e, j);
    RecordedJoin(Exec(cfg, events).world, j);
  }

  lemma RecordedJoin(w: World, j: Join)
    requires JoinsInv(w.effects, w.joins) && EffectsOk(w.effects)
    ensures DoRecordJoin(w, j).pc == Over
    ensures var v := DoRecordJoin(w, j).world;
            if |w.joins| < 500 && forall i | 0 <= i < |w.joins| ::
                 w.joins[i].id != j.id && w.joins[i].receipt != j.receipt
            then v == w.(joins := v.joins) && |v.joins| == |w.joins| + 1
                 && forall x :: x in v.joins <==> x == j || x in w.joins
            else v == w
  {
    if !ReplaysJoin(w.joins, j) {
      PipelineSteps.InsertJoinOk(w.joins, j);
    }
  }

  /** The handoff is in the ledger, and the terminal receipt of its effect lists it as dispatched. */
  predicate DispatchedHandoff(w: World, h: Handoff) {
    h in w.handoffs && exists i | 0 <= i < |w.effects| ::
      && w.effects[i].effect == h.effect && w.effects[i].auth == h.auth && w.effects[i].receipt.Some?
      && Lists(w.effects[i].receipt.value.items, h)
  }

  predicate Lists(items: seq<Item>, h: Handoff) {
    exists k | 0 <= k < |items| ::
      && items[k].node == h.node && items[k].who == h.who && items[k].replay == h.replay
      && items[k].result == DISPATCHED && items[k].ref == Some(HandoffDigest(h))
  }

  lemma ListsIsItemFor(items: seq<Item>, h: Handoff)
    ensures Lists(items, h) <==> ItemFor(items, h)
  {
    if Lists(items, h) {
      var k :| 0 <= k < |items| && items[k].node == h.node && items[k].who == h.who && items[k].replay == h.replay
        && items[k].result == DISPATCHED && items[k].ref == Some(HandoffDigest(h));
      assert items[k] == Item(h.node, h.who, h.replay, DISPATCHED, Some(HandoffDigest(h)));
    }
  }

  lemma ClaimableExactly(w: World, h: Handoff)
    requires WorldInv(w)
    ensures Claimable(w, h) <==> DispatchedHandoff(w, h)
  {
    if Claimable(w, h) {
      var i := FoundEffect(w.effects, h.effect);
      assert EffectOk(w.effects[i]);
      ListsIsItemFor(w.effects[i].receipt.value.items, h);
    }
    if DispatchedHandoff(w, h) {
      var i :| 0 <= i < |w.effects| && w.effects[i].effect == h.effect && w.effects[i].auth == h.auth
        && w.effects[i].receipt.Some? && Lists(w.effects[i].receipt.value.items, h);
      FindEffectAt(w.effects, i);
      assert EffectOk(w.effects[i]);
      ListsIsItemFor(w.effects[i].receipt.value.items, h);
    }
  }

  /** A claim is reserved exactly for a dispatched handoff whose facts still hold, if the ledger has
      room and neither claim nor handoff was used before. */
  lemma ClaimReservedExactly(cfg: Config, events: seq<Event>, t: int, claim: Id, h: Handoff, current: bool)
    requires t !in Exec(cfg, events).threads
    ensures var w, s := Exec(cfg, events).world, After(cfg, events, StartClaim(t, claim, h, current));
            if current && DispatchedHandoff(w, h) && |w.claims| < 512
               && forall i | 0 <= i < |w.claims| :: w.claims[i].claim != claim && w.claims[i].handoff != h
            then s.world == w.(claims := w.claims + [Claim(claim, h, None)]) && s.threads[t] == ClaimReserved(claim, h)
            else s.world == w && s.threads[t] == Over
  {
    RunsKeepInvariant(cfg, events);
    ReservedClaim(Exec(cfg, events).world, claim, h, current);
  }

  lemma ReservedClaim(w: World, claim: Id, h: Handoff, current: bool)
    requires WorldInv(w)
    ensures DoReserveClaim(w, claim, h, current)
         == if current && DispatchedHandoff(w, h) && |w.claims| < 512
               && forall i | 0 <= i < |w.claims| :: w.claims[i].claim != claim && w.claims[i].handoff != h
            then Move(w.(claims := w.claims + [Claim(claim, h, None)]), ClaimReserved(claim, h))
            else Move(w, Over)
  {
    ClaimableExactly(w, h);
  }

  /** A reserved claim is finished exactly if its facts still hold: its own entry gets a receipt that
      names the handoff and the effect's receipt. */
  lemma ClaimFinishedExactly(cfg: Config, events: seq<Event>, e: Event, claim: Id, h: Handoff) returns (n: int)
    requires e.Run? && At(cfg, events, e.t, ClaimReserved(claim, h))
    ensures var w, v := Exec(cfg, events).world, After(cfg, events, e).world;
            && 0 <= n < |w.claims| && w.claims[n] == Claim(claim, h, None)
            && TerminalReceipt(w.effects, h.effect).Some?
            && v == if !e.valid then w
                    else w.(claims := w.claims[n := Claim(claim, h,
                           Some(ClaimReceipt(claim, h, h, TerminalReceipt(w.effects, h.effect).value)))])
  {
    RunsKeepInvariant(cfg, events);
    RunsKeepOwn(cfg, events);
    var w := Exec(cfg, events).world;
    assert Owned(w, ClaimReserved(claim, h));
    n :| 0 <= n < |w.claims| && w.claims[n] == Claim(claim, h, None);
    assert forall i | 0 <= i < |w.claims| && i != n :: w.claims[i].claim != claim;
    if e.valid {
      var r := ClaimReceipt(claim, h, h, TerminalReceipt(w.effects, h.effect).value);
      assert Settled(w.claims, claim, r) == w.claims[n := Claim(claim, h, Some(r))];
    }
  }

  // ---- Claim-bound joins ----------------------------------------------------------------------------

  /** One terminal claim receipt per outcome of the join, each for a handoff of the join's own effect
      to that node and worker, all different, and no others. */
  predicate ClaimsAnswer(w: World, j: Join, refs: map<Id, ClaimReceipt>) {
    && (forall n | n in refs :: HasOutcome(j.outcomes, n))
    && (forall k | 0 <= k < |j.outcomes| :: j.outcomes[k].node in refs)
    && (forall k | 0 <= k < |j.outcomes| :: ClaimFor(w, j, j.outcomes[k], refs[j.outcomes[k].node]))
    && (forall i, k | 0 <= i < k < |j.outcomes| :: refs[j.outcomes[i].node] != refs[j.outcomes[k].node])
  }

  predicate ClaimFor(w: World, j: Join, o: NodeOutcome, c: ClaimReceipt) {
    && (exists i | 0 <= i < |w.claims| :: w.claims[i].receipt == Some(c))
    && c.receipt == j.receipt && c.handoff.effect == j.effect && c.handoff.auth == j.auth
    && c.handoff.node == o.node && c.handoff.who == o.who
  }

  lemma ClaimForExactly(w: World, j: Join, o: NodeOutcome, c: ClaimReceipt)
    requires ClaimsInv(w.effects, w.handoffs, w.claims)
    ensures ClaimFor(w, j, o, c) <==> ClaimBinding(w.effects, w.handoffs, w.claims, j, Bind(o, c))
  {
    if i :| 0 <= i < |w.claims| && w.claims[i].receipt == Some(c) {
      assert ReceiptBound(w.effects, w.handoffs, w.claims[i].receipt.value);
    }
  }

  /** A claim-bound join is built exactly from a recorded join and such claims. */
  lemma ClaimJoinBuiltExactly(cfg: Config, events: seq<Event>, id: Id, j: Join, refs: map<Id, ClaimReceipt>)
    ensures var w := Exec(cfg, events).world;
            BuildClaimJoin(w, id, j, refs).Some? <==> j in w.joins && ClaimsAnswer(w, j, refs)
  {
    assert WorldInv(Exec(cfg, events).world) by {
      RunsKeepInvariant(cfg, events);
    }
    BuiltInWorld(Exec(cfg, events).world, id, j, refs);
  }

  lemma BuiltInWorld(w: World, id: Id, j: Join, refs: map<Id, ClaimReceipt>)
    requires JoinsInv(w.effects, w.joins) && EffectsOk(w.effects) && ClaimsInv(w.effects, w.handoffs, w.claims)
    ensures BuildClaimJoin(w, id, j, refs).Some? <==> j in w.joins && ClaimsAnswer(w, j, refs)
  {
    forall k | 0 <= k < |j.outcomes| && j.outcomes[k].node in refs
      ensures ClaimFor(w, j, j.outcomes[k], refs[j.outcomes[k].node]) <==>
        ClaimBinding(w.effects, w.handoffs, w.claims, j, Bind(j.outcomes[k], refs[j.outcomes[k].node]))
    {
      ClaimForExactly(w, j, j.outcomes[k], refs[j.outcomes[k].node]);
    }
  }

  /** A built claim-bound join is recorded exactly if the ledger has room and no entry has its id, its
      join or one of its claims. */
  lemma ClaimJoinRecordedExactly(cfg: Config, events: seq<Event>, e: Event, c: ClaimJoin)
    requires e.Run? && At(cfg, events, e.t, ClaimJoinBuilt(c))
    ensures var w, v := Exec(cfg, events).world, After(cfg, events, e).world;
            if |w.claimJoins| < 500 && (forall i | 0 <= i < |w.claimJoins| ::
                 w.claimJoins[i].id != c.id && w.claimJoins[i].join != c.join && !SharesClaim(w.claimJoins[i], c))
            then v == w.(claimJoins := v.claimJoins) && |v.claimJoins| == |w.claimJoins| + 1
                 && forall x :: x in v.claimJoins <==> x == c || x in w.claimJoins
            else v == w
  {
    assert ClaimJoinsLoad(Exec(cfg, events).world) by {
      RunsKeepInvariant(cfg, events);
    }
    assert Owned(Exec(cfg, events).world, ClaimJoinBuilt(c)) by {
      RunsKeepOwn(cfg, events);
    }
    ClaimJoinRan(cfg, events, e, c);
    RecordedClaimJoin(Exec(cfg, events).world, c);
  }

  lemma RecordedClaimJoin(w: World, c: ClaimJoin)
    requires ClaimJoinsLoad(w) && ClaimJoinBound(w.effects, w.handoffs, w.claims, w.joins, c)
    ensures DoRecordClaimJoin(w, c).pc == Over
    ensures var v := DoRecordClaimJoin(w, c).world;
            if |w.claimJoins| < 500 && (forall i | 0 <= i < |w.claimJoins| ::
                 w.claimJoins[i].id != c.id && w.claimJoins[i].join != c.join && !SharesClaim(w.claimJoins[i], c))
            then v == w.(claimJoins := v.claimJoins) && |v.claimJoins| == |w.claimJoins| + 1
                 && forall x :: x in v.claimJoins <==> x == c || x in w.claimJoins
            else v == w
  {
    if forall i | 0 <= i < |w.claimJoins| :: !SameClaimReplay(w.claimJoins[i], c) {
      PipelineSteps.InsertClaimJoinOk(w.claimJoins, c);
    }
  }
}
