/** Every ledger update keeps the invariant. */
module PipelineSteps {
  import opened Common
  import opened Pipeline
  import opened PipelineBuild
  import opened PipelineStable
  import opened PipelineRuns
  import opened PipelineInvariant

  ghost predicate Keeps(a: World, b: World, t: int) {
    WorldInv(b) && Grows(a, b) && Respects(a, b, t)
  }

  lemma NothingChanges(w: World, t: int)
    requires WorldInv(w)
    ensures Keeps(w, w, t)
  {
  }

  /** Only ledgers above the effects change. */
  lemma SourcesSame(w: World, v: World)
    requires WorldInv(w) && v == w.(published := v.published, plan := v.plan)
    ensures WorldInv(v)
  {
    ClaimJoinsStay(w, v);
  }

  // ---- Records ----------------------------------------------------------------------------

  lemma RecordsMove(w: World, v: World, t: int)
    requires WorldInv(w) && v == w.(records := v.records) && RecordsInv(w.effects, v.records)
      && RecordsGrow(w.records, v.records)
    ensures Keeps(w, v, t)
  {
    ClaimJoinsStay(w, v);
  }

  lemma ReserveRecordKeeps(w: World, t: int, auth: Authorization, cycle: Id, effect: Id)
    requires WorldInv(w)
    ensures Keeps(w, DoReserveRecord(w, auth, cycle, effect).world, t)
  {
    RecordsMove(w, DoReserveRecord(w, auth, cycle, effect).world, t);
  }

  lemma FinishedRecords(es: seq<Effect>, rs: seq<Record>, open: Record, done: Record)
    requires RecordsInv(es, rs) && open.receipt.None? && done == open.(receipt := done.receipt, result := done.result)
    requires done.receipt.Some? && done.result.Some? && RecordBound(es, done)
    ensures RecordsInv(es, Replaced(rs, open, done)) && RecordsGrow(rs, Replaced(rs, open, done))
  {
    var fs := Replaced(rs, open, done);
    forall i, j | 0 <= i < j < |fs| ensures !SameReplay(fs[i], fs[j]) {
      assert !SameReplay(rs[i], rs[j]);
    }
  }

  lemma FinishRecordKeeps(w: World, t: int, auth: Authorization, cycle: Id, effect: Id, r: Receipt)
    requires WorldInv(w) && ThreadInv(w, t, EffectDone(auth, cycle, effect, r))
    ensures Keeps(w, DoFinishRecord(w, auth, cycle, effect, r).world, t)
  {
    FinishedRecords(w.effects, w.records, Record(cycle, auth, effect, None, None),
        Record(cycle, auth, effect, Some(r), Some(r.overall)));
    RecordsMove(w, DoFinishRecord(w, auth, cycle, effect, r).world, t);
  }

  lemma PublishKeeps(w: World, t: int, auth: Authorization, cycle: Id, effect: Id)
    requires WorldInv(w)
    ensures Keeps(w, DoPublish(w, auth, cycle, effect).world, t)
  {
    SourcesSame(w, DoPublish(w, auth, cycle, effect).world);
  }

  // ---- Effects ----------------------------------------------------------------------------

  lemma EffectsMove(w: World, v: World, t: int)
    requires WorldInv(w) && v == w.(effects := v.effects, owner := v.owner) && EffectsGrow(w.effects, v.effects)
      && EffectsInv(v.effects)
    requires CallsInv(v.effects, v.owner, v.calls)
    requires forall x :: x in w.owner ==> Get(v.owner, x) == Some(w.owner[x])
    requires forall f, x ::
        x in w.owner && w.owner[x] != t && Effect(f, x, None) in w.effects ==> Effect(f, x, None) in v.effects
    ensures Keeps(w, v, t)
  {
    EffectsChange(w, v);
    EffectsRespect(w, v, t);
  }

  lemma EffectsRespect(w: World, v: World, t: int)
    requires v == w.(effects := v.effects, owner := v.owner)
    requires forall f, x ::
        x in w.owner && w.owner[x] != t && Effect(f, x, None) in w.effects ==> Effect(f, x, None) in v.effects
    ensures Respects(w, v, t)
  {
  }

  lemma ReservedEffects(es: seq<Effect>, auth: Authorization, effect: Id)
    requires EffectsInv(es) && AuthorizationOk(auth) && !ReplaysEffect(es, effect, auth) && |es| < MAX_EFFECTS
    ensures EffectsInv(es + [Effect(effect, auth, None)]) && EffectsGrow(es, es + [Effect(effect, auth, None)])
    ensures Effect(effect, auth, None) in es + [Effect(effect, auth, None)] && !HasAuth(es, auth)
  {
  }

  lemma ReserveEffectKeeps(w: World, t: int, auth: Authorization, cycle: Option<Id>, effect: Id, valid: bool)
    requires WorldInv(w)
    ensures Keeps(w, DoReserveEffect(w, t, auth, cycle, effect, valid).world, t)
    ensures ThreadInv(DoReserveEffect(w, t, auth, cycle, effect, valid).world, t,
      DoReserveEffect(w, t, auth, cycle, effect, valid).pc)
  {
    if DoReserveEffect(w, t, auth, cycle, effect, valid).pc.Calling? {
      ReservedEffectKeeps(w, t, auth, effect);
    }
  }

  lemma ReservedEffectKeeps(w: World, t: int, auth: Authorization, effect: Id)
    requires WorldInv(w) && AuthorizationOk(auth) && !ReplaysEffect(w.effects, effect, auth)
      && |w.effects| < MAX_EFFECTS
    ensures var v := w.(effects := w.effects + [Effect(effect, auth, None)], owner := w.owner[auth := t]);
            Keeps(w, v, t) && Effect(effect, auth, None) in v.effects && CalledSoFar(v.calls, auth, map[])
  {
    var v := w.(effects := w.effects + [Effect(effect, auth, None)], owner := w.owner[auth := t]);
    ReservedEffects(w.effects, auth, effect);
    assert auth !in w.owner;
    ReservedCalls(w, v, auth, effect);
    EffectsMove(w, v, t);
  }

  lemma ReservedCalls(w: World, v: World, auth: Authorization, effect: Id)
    requires CallsInv(w.effects, w.owner, w.calls) && auth !in w.owner
    requires v == w.(effects := w.effects + [Effect(effect, auth, None)], owner := v.owner)
      && v.owner.Keys == w.owner.Keys + {auth}
    ensures CallsInv(v.effects, v.owner, v.calls)
    ensures forall n :: v.calls[ReplayKey(auth, n)] == 0
  {
    forall a | a in v.owner ensures HasAuth(v.effects, a) {
      if a == auth {
        assert v.effects[|w.effects|].auth == a;
      } else {
        assert HasAuth(w.effects, a);
        var i :| 0 <= i < |w.effects| && w.effects[i].auth == a;
        assert v.effects[i].auth == a;
      }
    }
    forall n ensures v.calls[ReplayKey(auth, n)] == 0 {
      assert w.calls[ReplayKey(auth, n)] > 0 ==> ReplayKey(auth, n).auth in w.owner;
    }
  }

  lemma InOrderIsValid(effect: Id, auth: Authorization, items: map<int, Item>)
    requires AuthorizationOk(auth) && ItemsOk(auth, items) && AllAnswered(auth, items)
    ensures ReceiptOk(ReceiptFor(effect, auth, InOrder(auth, items)))
      && Follows(ReceiptFor(effect, auth, InOrder(auth, items)))
  {
    var s := InOrder(auth, items);
    var raws := seq(|s|, i requires 0 <= i < |s| => if s[i].result.ERROR? then Broken
        else Answer(s[i].result, s[i].ref));
    assert Normalized(auth, s, raws);
    ReceiptIsValid(effect, auth, s, raws);
  }

  lemma FinishEffectKeeps(w: World, t: int, auth: Authorization, cycle: Option<Id>, effect: Id, items: map<int, Item>)
    requires WorldInv(w) && ThreadInv(w, t, Calling(auth, cycle, effect, items))
    ensures Keeps(w, DoFinishEffect(w, auth, cycle, effect, items).world, t)
    ensures ThreadInv(DoFinishEffect(w, auth, cycle, effect, items).world, t,
      DoFinishEffect(w, auth, cycle, effect, items).pc)
  {
    if AllAnswered(auth, items) {
      var r := ReceiptFor(effect, auth, InOrder(auth, items));
      InOrderIsValid(effect, auth, items);
      FinalizedKeeps(w, t, r, items);
    }
  }

  lemma FinalizedKeeps(w: World, t: int, r: Receipt, items: map<int, Item>)
    requires WorldInv(w) && Get(w.owner, r.auth) == Some(t) && Effect(r.effect, r.auth, None) in w.effects
      && ReceiptOk(r) && Follows(r)
    requires CalledSoFar(w.calls, r.auth, items) && AllAnswered(r.auth, items)
    ensures FindEffect(w.effects, r.effect) == Some(Effect(r.effect, r.auth, None))
    ensures Keeps(w, w.(effects := Finalized(w.effects, r.effect, r)), t)
      && TerminalReceipt(Finalized(w.effects, r.effect, r), r.effect) == Some(r)
  {
    var i :| 0 <= i < |w.effects| && w.effects[i] == Effect(r.effect, r.auth, None);
    var v := w.(effects := Finalized(w.effects, r.effect, r));
    FindEffectAt(w.effects, i);
    FinalizedOk(w, t, i, r);
    FinalizedCalls(w, i, r);
    EffectsMove(w, v, t);
    FindEffectAt(v.effects, i);
  }

  lemma FinalizedCalls(w: World, i: int, r: Receipt)
    requires CallsInv(w.effects, w.owner, w.calls) && 0 <= i < |w.effects|
      && w.effects[i] == Effect(r.effect, r.auth, None)
    requires AllCalled(w.calls, r.auth)
    ensures CallsInv(w.effects[i := Effect(r.effect, r.auth, Some(r))], w.owner, w.calls)
  {
    var fs := w.effects[i := Effect(r.effect, r.auth, Some(r))];
    forall a | a in w.owner ensures HasAuth(fs, a) {
      assert HasAuth(w.effects, a);
      var k :| 0 <= k < |w.effects| && w.effects[k].auth == a;
      assert fs[k].auth == a;
    }
  }

  lemma FinalizedOk(w: World, t: int, i: int, r: Receipt)
    requires EffectsInv(w.effects) && 0 <= i < |w.effects| && w.effects[i] == Effect(r.effect, r.auth, None)
      && ReceiptOk(r) && Follows(r)
    requires Get(w.owner, r.auth) == Some(t)
    ensures EffectsInv(Finalized(w.effects, r.effect, r)) && EffectsGrow(w.effects, Finalized(w.effects, r.effect, r))
    ensures Finalized(w.effects, r.effect, r) == w.effects[i := Effect(r.effect, r.auth, Some(r))]
    ensures forall f, x ::
        x != r.auth && Effect(f, x, None) in w.effects ==> Effect(f, x, None) in Finalized(w.effects, r.effect, r)
  {
    var es := w.effects;
    var fs := Finalized(es, r.effect, r);
    assert forall k :: 0 <= k < |es| && k != i ==> es[k].effect != r.effect;
    assert fs == es[i := Effect(r.effect, r.auth, Some(r))];
    forall f, x | x != r.auth && Effect(f, x, None) in es ensures Effect(f, x, None) in fs {
      var k :| 0 <= k < |es| && es[k] == Effect(f, x, None);
      assert fs[k] == es[k];
    }
  }

  // ---- Calls ------------------------------------------------------------------------------

  lemma CallKeeps(w: World, t: int, auth: Authorization, cycle: Option<Id>, effect: Id, items: map<int, Item>,
      i: int, answer: PortAnswer)
    requires WorldInv(w) && ThreadInv(w, t, Calling(auth, cycle, effect, items))
    ensures Keeps(w, DoCall(w, auth, cycle, effect, items, i, answer).world, t)
    ensures ThreadInv(DoCall(w, auth, cycle, effect, items, i, answer).world, t,
      DoCall(w, auth, cycle, effect, items, i, answer).pc)
  {
    if 0 <= i < |auth.plan.assignments| && i !in items {
      var m := DoCall(w, auth, cycle, effect, items, i, answer);
      CallWorld(w, t, auth, cycle, effect, items, i, answer);
      CalledThread(w.calls, auth, items, i, m.pc.items[i]);
    }
  }

  lemma CallWorld(w: World, t: int, auth: Authorization, cycle: Option<Id>, effect: Id, items: map<int, Item>,
      i: int, answer: PortAnswer)
    requires WorldInv(w) && Get(w.owner, auth) == Some(t) && Effect(effect, auth, None) in w.effects
      && CalledSoFar(w.calls, auth, items)
    requires 0 <= i < |auth.plan.assignments| && i !in items
    ensures Keeps(w, DoCall(w, auth, cycle, effect, items, i, answer).world, t)
  {
    var a := auth.plan.assignments[i];
    assert w.calls[ReplayKey(auth, a.node)] == 0;
    CalledKeeps(w, DoCall(w, auth, cycle, effect, items, i, answer).world, t,
        HandoffFor(auth, effect, a, if answer.Emit? then answer.facts else 0));
  }

  lemma CalledThread(calls: multiset<ReplayKey>, auth: Authorization, items: map<int, Item>, i: int, x: Item)
    requires AuthorizationOk(auth) && 0 <= i < |auth.plan.assignments| && i !in items && CalledSoFar(calls, auth, items)
    ensures CalledSoFar(calls + multiset{ReplayKey(auth, auth.plan.assignments[i].node)}, auth, items[i := x])
  {
  }

  lemma CalledKeeps(w: World, v: World, t: int, h: Handoff)
    requires WorldInv(w) && Get(w.owner, h.auth) == Some(t) && Effect(h.effect, h.auth, None) in w.effects
    requires h.replay == ReplayKey(h.auth, h.node) && w.calls[h.replay] == 0
    requires v == w.(calls := w.calls + multiset{h.replay}, handoffs := v.handoffs)
      && (v.handoffs == w.handoffs || v.handoffs == w.handoffs + [h])
    ensures Keeps(w, v, t)
  {
    CalledCalls(w, h.replay, h.auth);
    if v.handoffs != w.handoffs {
      EmitKeeps(w, h, v.calls);
    } else {
      UnderStays(w.effects, w.effects, w.calls, v.calls, w.handoffs);
    }
    ClaimsStay(w.effects, w.effects, w.handoffs, v.handoffs, w.claims);
    ClaimJoinsStay(w, v);
  }

  lemma CalledCalls(w: World, k: ReplayKey, auth: Authorization)
    requires CallsInv(w.effects, w.owner, w.calls) && EffectsOk(w.effects) && w.calls[k] == 0 && k.auth == auth
      && auth in w.owner
    requires exists f :: Effect(f, auth, None) in w.effects
    ensures CallsInv(w.effects, w.owner, w.calls + multiset{k})
  {
    var f :| Effect(f, auth, None) in w.effects;
    var m :| 0 <= m < |w.effects| && w.effects[m] == Effect(f, auth, None);
    forall i | 0 <= i < |w.effects| && w.effects[i].receipt.Some?
        ensures AllCalled(w.calls + multiset{k}, w.effects[i].auth) {
      assert w.effects[i].auth != auth by {
        assert i != m;
      }
      assert AllCalled(w.calls, w.effects[i].auth);
    }
  }

  /** A handoff of a call never made before repeats no replay key and no (effect, node). */
  lemma EmitKeeps(w: World, h: Handoff, calls: multiset<ReplayKey>)
    requires HandoffsInv(w.effects, w.calls, w.handoffs) && EffectsOk(w.effects)
    requires h.replay == ReplayKey(h.auth, h.node) && w.calls[h.replay] == 0 && calls == w.calls + multiset{h.replay}
    requires Effect(h.effect, h.auth, None) in w.effects
    ensures HandoffsInv(w.effects, calls, w.handoffs + [h])
  {
    var m :| 0 <= m < |w.effects| && w.effects[m] == Effect(h.effect, h.auth, None);
    forall i | 0 <= i < |w.handoffs|
      ensures w.handoffs[i] != h && w.handoffs[i].replay != h.replay
        && !(w.handoffs[i].effect == h.effect && w.handoffs[i].node == h.node)
      ensures calls[w.handoffs[i].replay] > 0 && UnderEffect(w.effects, w.handoffs[i])
    {
      assert w.calls[w.handoffs[i].replay] > 0;
      var k :| 0 <= k < |w.effects| && w.effects[k].effect == w.handoffs[i].effect
          && w.effects[k].auth == w.handoffs[i].auth;
      assert w.handoffs[i].effect == h.effect ==> k == m;
    }
    assert w.effects[m].effect == h.effect && UnderEffect(w.effects, h);
  }

  // ---- Joins ------------------------------------------------------------------------------

  predicate OneJoinPerReceipt(js: seq<Join>) {
    forall i, k | 0 <= i < k < |js| :: js[i].id != js[k].id && js[i].receipt != js[k].receipt
  }

  lemma {:induction false} InsertJoinOk(js: seq<Join>, j: Join)
    requires Sorted(js) && OneJoinPerReceipt(js) && !ReplaysJoin(js, j)
    ensures |InsertJoin(js, j)| == |js| + 1 && Sorted(InsertJoin(js, j)) && OneJoinPerReceipt(InsertJoin(js, j))
    ensures forall x :: x in InsertJoin(js, j) <==> x == j || x in js
  {
    if js != [] && Before(js[0], j) {
      InsertJoinOk(js[1..], j);
      var rest := InsertJoin(js[1..], j);
      forall k | 0 <= k < |rest|
          ensures Before(js[0], rest[k]) && js[0].id != rest[k].id && js[0].receipt != rest[k].receipt {
        assert rest[k] in rest;
      }
      assert js == [js[0]] + js[1..];
    }
  }

  lemma InsertedJoins(es: seq<Effect>, js: seq<Join>, j: Join)
    requires JoinsInv(es, js) && JoinOk(j) && JoinBound(es, j) && ByNode(j.outcomes) && !ReplaysJoin(js, j)
      && |js| < MAX_JOINS
    ensures JoinsInv(es, InsertJoin(js, j)) && forall x :: x in js ==> x in InsertJoin(js, j)
  {
    InsertJoinOk(js, j);
    var r := InsertJoin(js, j);
    forall i | 0 <= i < |r| ensures JoinOk(r[i]) && JoinBound(es, r[i]) && ByNode(r[i].outcomes) {
      assert r[i] in r;
    }
  }

  lemma JoinsMove(w: World, v: World, t: int)
    requires WorldInv(w) && v == w.(joins := v.joins) && JoinsInv(w.effects, v.joins) && forall j ::
        j in w.joins ==> j in v.joins
    ensures Keeps(w, v, t)
  {
    ClaimJoinsStay(w, v);
  }

  lemma RecordJoinKeeps(w: World, t: int, j: Join)
    requires WorldInv(w) && ThreadInv(w, t, JoinBuilt(j))
    ensures Keeps(w, DoRecordJoin(w, j).world, t)
  {
    var v := DoRecordJoin(w, j).world;
    if v != w {
      InsertedJoins(w.effects, w.joins, j);
      JoinsMove(w, v, t);
    }
  }

  // ---- Claims ---------------------------------------------------------------------------

  lemma ClaimsMove(w: World, v: World, t: int)
    requires WorldInv(w) && v == w.(claims := v.claims) && ClaimsInv(w.effects, w.handoffs, v.claims)
      && ClaimsGrow(w.claims, v.claims)
    ensures Keeps(w, v, t)
  {
    ClaimJoinsStay(w, v);
  }

  lemma ReserveClaimKeeps(w: World, t: int, claim: Id, h: Handoff, current: bool)
    requires WorldInv(w)
    ensures Keeps(w, DoReserveClaim(w, claim, h, current).world, t)
  {
    ClaimsMove(w, DoReserveClaim(w, claim, h, current).world, t);
  }

  lemma SettledClaims(es: seq<Effect>, hs: seq<Handoff>, cs: seq<Claim>, claim: Id, r: ClaimReceipt)
    requires ClaimsInv(es, hs, cs) && Claim(claim, r.handoff, None) in cs && ReceiptBound(es, hs, r) && r.claim == claim
    ensures ClaimsInv(es, hs, Settled(cs, claim, r)) && ClaimsGrow(cs, Settled(cs, claim, r))
  {
    var m :| 0 <= m < |cs| && cs[m] == Claim(claim, r.handoff, None);
    assert Settled(cs, claim, r) == cs[m := Claim(claim, r.handoff, Some(r))];
  }

  lemma FinishClaimKeeps(w: World, t: int, claim: Id, h: Handoff, current: bool)
    requires WorldInv(w)
    ensures Keeps(w, DoFinishClaim(w, claim, h, current).world, t)
  {
    var v := DoFinishClaim(w, claim, h, current).world;
    if v != w {
      SettledClaims(w.effects, w.handoffs, w.claims, claim,
          ClaimReceipt(claim, h, h, TerminalReceipt(w.effects, h.effect).value));
      ClaimsMove(w, v, t);
    }
  }

  predicate NoClaimReplay(cs: seq<ClaimJoin>) {
    forall i, k | 0 <= i < k < |cs| :: !SameClaimReplay(cs[i], cs[k])
  }

  lemma ReplaySymmetric(a: ClaimJoin, b: ClaimJoin)
    ensures SameClaimReplay(a, b) == SameClaimReplay(b, a)
  {
    assert SharesClaim(a, b) == SharesClaim(b, a) by {
      if SharesClaim(a, b) {
        var i, k :| 0 <= i < |a.bindings| && 0 <= k < |b.bindings| && a.bindings[i].claim == b.bindings[k].claim;
        assert b.bindings[k].claim == a.bindings[i].claim;
      }
      if SharesClaim(b, a) {
        var i, k :| 0 <= i < |b.bindings| && 0 <= k < |a.bindings| && b.bindings[i].claim == a.bindings[k].claim;
        assert a.bindings[k].claim == b.bindings[i].claim;
      }
    }
  }

  lemma {:induction false} InsertClaimJoinOk(cs: seq<ClaimJoin>, c: ClaimJoin)
    requires NoClaimReplay(cs) && forall i :: 0 <= i < |cs| ==> !SameClaimReplay(cs[i], c)
    ensures |InsertClaimJoin(cs, c)| == |cs| + 1 && NoClaimReplay(InsertClaimJoin(cs, c))
    ensures forall x :: x in InsertClaimJoin(cs, c) <==> x == c || x in cs
  {
    if cs != [] && ClaimJoinBefore(cs[0], c) {
      InsertClaimJoinOk(cs[1..], c);
      var rest := InsertClaimJoin(cs[1..], c);
      forall k | 0 <= k < |rest| ensures !SameClaimReplay(cs[0], rest[k]) {
        assert rest[k] in rest;
      }
      assert cs == [cs[0]] + cs[1..];
    } else {
      forall i | 0 <= i < |cs| ensures !SameClaimReplay(c, cs[i]) {
        ReplaySymmetric(cs[i], c);
      }
    }
  }

  lemma InsertedClaimJoins(w: World, c: ClaimJoin)
    requires ClaimJoinsLoad(w) && ClaimJoinOk(c) && ClaimJoinBound(w.effects, w.handoffs, w.claims, w.joins, c)
      && |w.claimJoins| < MAX_JOINS
    requires forall i :: 0 <= i < |w.claimJoins| ==> !SameClaimReplay(w.claimJoins[i], c)
    ensures ClaimJoinsLoad(w.(claimJoins := InsertClaimJoin(w.claimJoins, c)))
  {
    InsertClaimJoinOk(w.claimJoins, c);
    var r := InsertClaimJoin(w.claimJoins, c);
    forall i | 0 <= i < |r|
        ensures ClaimJoinOk(r[i]) && ClaimJoinBound(w.effects, w.handoffs, w.claims, w.joins, r[i]) {
      assert r[i] in r;
    }
  }

  lemma RecordClaimJoinKeeps(w: World, t: int, c: ClaimJoin)
    requires WorldInv(w) && ThreadInv(w, t, ClaimJoinBuilt(c))
    ensures Keeps(w, DoRecordClaimJoin(w, c).world, t)
  {
    var v := DoRecordClaimJoin(w, c).world;
    if v != w {
      RecordedClaimJoin(w, c);
      InsertedClaimJoins(w, c);
      InsertClaimJoinOk(w.claimJoins, c);
      ClaimJoinsMove(w, v, t);
    } else {
      NothingChanges(w, t);
    }
  }

  lemma RecordedClaimJoin(w: World, c: ClaimJoin)
    requires DoRecordClaimJoin(w, c).world != w
    ensures DoRecordClaimJoin(w, c).world == w.(claimJoins := InsertClaimJoin(w.claimJoins, c))
    ensures ClaimJoinBound(w.effects, w.handoffs, w.claims, w.joins, c) && |w.claimJoins| < MAX_JOINS
    ensures forall i :: 0 <= i < |w.claimJoins| ==> !SameClaimReplay(w.claimJoins[i], c)
  {
  }

  lemma ClaimJoinsMove(w: World, v: World, t: int)
    requires WorldInv(w) && v == w.(claimJoins := v.claimJoins) && ClaimJoinsLoad(v) && forall c ::
        c in w.claimJoins ==> c in v.claimJoins
    ensures Keeps(w, v, t)
  {
  }
}
