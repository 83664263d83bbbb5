/** What a caller has reserved stays its own: nobody else finishes its record or its claim, so the
    only refusals left are replays, full ledgers and facts that have drifted. */
module PipelineOwn {
  import opened Common
  import opened Pipeline
  import opened PipelineBuild
  import opened PipelineStable
  import opened PipelineRuns
  import opened PipelineInvariant
  import opened PipelineTheorems

  // ---- Reservations -----------------------------------------------------------------------------

  function Open(auth: Authorization, cycle: Id, effect: Id): Record { Record(cycle, auth, effect, None, None) }

  /** The open record a caller has reserved and not yet finished. */
  function RecordOf(pc: Pc): Option<Record> {
    match pc
    case RecordReserved(auth, cycle, effect) => Some(Open(auth, cycle, effect))
    case Ready(auth, cycle, effect) => Some(Open(auth, cycle, effect))
    case Calling(auth, cycle, effect, _) => if cycle.Some? then Some(Open(auth, cycle.value, effect)) else None
    case EffectDone(auth, cycle, effect, _) => Some(Open(auth, cycle, effect))
    case _ => None
  }

  function ClaimOf(pc: Pc): Option<Claim> {
    match pc
    case ClaimReserved(claim, h) => Some(Claim(claim, h, None))
    case _ => None
  }

  ghost predicate Owned(w: World, pc: Pc) {
    && (RecordOf(pc).Some? ==> RecordOf(pc).value in w.records)
    && (ClaimOf(pc).Some? ==> ClaimOf(pc).value in w.claims && Claimable(w, pc.handoff))
    && (pc.ClaimJoinBuilt? ==> ClaimJoinBound(w.effects, w.handoffs, w.claims, w.joins, pc.claimJoin))
  }

  /** Open entries of the first ledger, other than the mover's own, are in the second. */
  predicate OthersKept(a: World, b: World, pc: Pc) {
    && (forall r | r in a.records && r.receipt.None? && Some(r) != RecordOf(pc) :: r in b.records)
    && (forall c | c in a.claims && c.receipt.None? && Some(c) != ClaimOf(pc) :: c in b.claims)
  }

  /** What the mover newly reserves was not there before. */
  predicate NewIsFresh(a: World, pc: Pc, next: Pc) {
    && (RecordOf(next).Some? && RecordOf(next) != RecordOf(pc) ==> RecordOf(next).value !in a.records)
    && (ClaimOf(next).Some? && ClaimOf(next) != ClaimOf(pc) ==> ClaimOf(next).value !in a.claims)
  }

  lemma ClaimableStays(a: World, b: World, h: Handoff)
    requires Grows(a, b) && WorldInv(b) && Claimable(a, h)
    ensures Claimable(b, h)
  {
    TerminalStays(a.effects, b.effects, h.effect);
    SourceStays(a.effects, b.effects, h, TerminalReceipt(a.effects, h.effect).value);
  }

  lemma OwnedStays(a: World, b: World, pc: Pc, mover: Pc)
    requires Grows(a, b) && WorldInv(b) && Owned(a, pc) && OthersKept(a, b, mover)
    requires RecordOf(pc).Some? ==> RecordOf(pc) != RecordOf(mover)
    requires ClaimOf(pc).Some? ==> ClaimOf(pc) != ClaimOf(mover)
    ensures Owned(b, pc)
  {
    if ClaimOf(pc).Some? {
      ClaimableStays(a, b, pc.handoff);
    }
    if pc.ClaimJoinBuilt? {
      ClaimJoinStaysBound(a.effects, b.effects, a.handoffs, b.handoffs, a.claims, b.claims, a.joins, b.joins,
                          pc.claimJoin);
    }
  }

  // ---- Each move --------------------------------------------------------------------------------

  ghost predicate OwnMove(w: World, pc: Pc, m: Move) {
    Owned(m.world, m.pc) && OthersKept(w, m.world, pc) && NewIsFresh(w, pc, m.pc)
  }

  lemma ReserveRecordOwns(w: World, t: int, pc: Pc, e: Event)
    requires e.Run? && pc.Built? && WorldInv(w)
    ensures OwnMove(w, pc, Step(w, t, pc, e))
  {
    var m := DoReserveRecord(w, pc.auth, pc.cycle, pc.effect);
    var r := Open(pc.auth, pc.cycle, pc.effect);
    if m.pc.RecordReserved? {
      assert m.world.records[|w.records|] == r;
      assert forall i | 0 <= i < |w.records| :: w.records[i] != r;
    }
  }

  lemma FinishRecordOwns(w: World, t: int, pc: Pc, e: Event)
    requires e.Run? && pc.EffectDone?
    ensures OwnMove(w, pc, Step(w, t, pc, e))
  {
    var open := Open(pc.auth, pc.cycle, pc.effect);
    var done := Record(pc.cycle, pc.auth, pc.effect, Some(pc.receipt), Some(pc.receipt.overall));
    var after := Replaced(w.records, open, done);
    forall r | r in w.records && r != open ensures r in after {
      var i :| 0 <= i < |w.records| && w.records[i] == r;
      assert after[i] == r;
    }
  }

  lemma DispatchOwns(w: World, t: int, pc: Pc, e: Event)
    requires e.Run? && Owned(w, pc) && (pc.RecordReserved? || pc.Ready? || pc.Calling? || pc.Over?)
    ensures OwnMove(w, pc, Step(w, t, pc, e))
  {
    var m := Step(w, t, pc, e);
    assert m.world.records == w.records && m.world.claims == w.claims;
    assert RecordOf(m.pc).Some? ==> RecordOf(m.pc) == RecordOf(pc);
  }

  lemma FinishClaimOwns(w: World, t: int, pc: Pc, e: Event)
    requires e.Run? && pc.ClaimReserved? && WorldInv(w) && Owned(w, pc)
    ensures OwnMove(w, pc, Step(w, t, pc, e))
  {
    var m := DoFinishClaim(w, pc.claim, pc.handoff, e.valid);
    if m.world != w {
      var r := ClaimReceipt(pc.claim, pc.handoff, pc.handoff, TerminalReceipt(w.effects, pc.handoff.effect).value);
      assert m.world == w.(claims := Settled(w.claims, pc.claim, r));
      OthersStayOpen(w.claims, pc.claim, pc.handoff, r);
    }
  }

  lemma OthersStayOpen(cs: seq<Claim>, claim: Id, h: Handoff, r: ClaimReceipt)
    requires ClaimsOk(cs) && Claim(claim, h, None) in cs
    ensures forall c | c in cs && c != Claim(claim, h, None) :: c in Settled(cs, claim, r)
  {
    var n :| 0 <= n < |cs| && cs[n] == Claim(claim, h, None);
    forall c | c in cs && c != Claim(claim, h, None) ensures c in Settled(cs, claim, r) {
      var i :| 0 <= i < |cs| && cs[i] == c;
      assert i != n && cs[i].claim != claim;
      assert Settled(cs, claim, r)[i] == c;
    }
  }

  lemma JoinOwns(w: World, t: int, pc: Pc, e: Event)
    requires e.Run? && (pc.JoinBuilt? || pc.ClaimJoinBuilt?)
    ensures OwnMove(w, pc, Step(w, t, pc, e))
  {
  }

  lemma StepOwns(w: World, t: int, pc: Pc, e: Event)
    requires e.Run? && WorldInv(w) && Owned(w, pc)
    ensures OwnMove(w, pc, Step(w, t, pc, e))
  {
    if pc.Built? {
      ReserveRecordOwns(w, t, pc, e);
    } else if pc.EffectDone? {
      FinishRecordOwns(w, t, pc, e);
    } else if pc.ClaimReserved? {
      FinishClaimOwns(w, t, pc, e);
    } else if pc.JoinBuilt? || pc.ClaimJoinBuilt? {
      JoinOwns(w, t, pc, e);
    } else {
      DispatchOwns(w, t, pc, e);
    }
  }

  lemma EnterClaimOwns(w: World, claim: Id, h: Handoff, current: bool)
    ensures OwnMove(w, Over, DoReserveClaim(w, claim, h, current))
  {
    var m := DoReserveClaim(w, claim, h, current);
    if m.pc.ClaimReserved? {
      assert m.world.claims[|w.claims|] == Claim(claim, h, None);
      assert forall i | 0 <= i < |w.claims| :: w.claims[i].claim != claim;
    }
  }

  lemma EnterOwns(cfg: Config, w: World, t: int, e: Event)
    requires !e.Run?
    ensures OwnMove(w, Over, Enter(cfg, w, t, e))
  {
    if e.StartClaim? {
      EnterClaimOwns(w, e.claim, e.handoff, e.current);
    } else if e.StartClaimJoin? {
      if BuildClaimJoin(w, e.id, e.join, e.refs).Some? {
        BuiltClaimJoinIsBound(w, e.id, e.join, e.refs);
      }
    } else {
      EnterRest(cfg, w, t, e);
    }
  }

  lemma EnterRest(cfg: Config, w: World, t: int, e: Event)
    requires !e.Run? && !e.StartClaim? && !e.StartClaimJoin?
    ensures var m := Enter(cfg, w, t, e);
            && m.world.records == w.records && m.world.claims == w.claims
            && RecordOf(m.pc).None? && ClaimOf(m.pc).None? && !m.pc.ClaimJoinBuilt?
  {
  }

  // ---- Every run ----------------------------------------------------------------------------------

  ghost predicate OwnInvariant(sys: System) {
    && (forall t :: t in sys.threads ==> Owned(sys.world, sys.threads[t]))
    && (forall t, u :: t in sys.threads && u in sys.threads && t != u ==> Apart(sys.threads[t], sys.threads[u]))
  }

  predicate Apart(a: Pc, b: Pc) {
    && (RecordOf(a).Some? ==> RecordOf(a) != RecordOf(b))
    && (ClaimOf(a).Some? ==> ClaimOf(a) != ClaimOf(b))
  }

  lemma MoveOwns(sys: System, t: int, pc: Pc, m: Move)
    requires OwnInvariant(sys) && OwnMove(sys.world, pc, m) && Grows(sys.world, m.world) && WorldInv(m.world)
    requires pc == if t in sys.threads then sys.threads[t] else Over
    ensures OwnInvariant(System(m.world, sys.threads[t := m.pc]))
  {
    var threads := sys.threads[t := m.pc];
    forall u | u in threads && u != t ensures Owned(m.world, threads[u]) && Apart(m.pc, threads[u])
                                            && Apart(threads[u], m.pc) {
      assert Owned(sys.world, sys.threads[u]);
      assert t in sys.threads ==> Apart(sys.threads[u], pc);
      OwnedStays(sys.world, m.world, sys.threads[u], pc);
    }
  }

  lemma NextOwns(cfg: Config, sys: System, e: Event)
    requires Invariant(sys) && OwnInvariant(sys)
    ensures OwnInvariant(Next(cfg, sys, e))
  {
    if e.Run? {
      if e.t in sys.threads {
        StepKeeps(sys.world, e.t, sys.threads[e.t], e);
        StepOwns(sys.world, e.t, sys.threads[e.t], e);
        MoveOwns(sys, e.t, sys.threads[e.t], Step(sys.world, e.t, sys.threads[e.t], e));
      }
    } else if !e.SetPlan? && !e.Publish? && !e.Crash? && e.t !in sys.threads {
      EnterKeeps(cfg, sys.world, e.t, e);
      EnterOwns(cfg, sys.world, e.t, e);
      MoveOwns(sys, e.t, Over, Enter(cfg, sys.world, e.t, e));
    } else {
      NothingOwned(cfg, sys, e);
    }
  }

  lemma NothingOwned(cfg: Config, sys: System, e: Event)
    requires OwnInvariant(sys) && !e.Run? && (e.SetPlan? || e.Publish? || e.Crash? || e.t in sys.threads)
    ensures OwnInvariant(Next(cfg, sys, e))
  {
    var t := Next(cfg, sys, e);
    assert t.world == sys.world.(plan := t.world.plan, published := t.world.published);
    forall u | u in t.threads ensures Owned(t.world, t.threads[u]) {
      assert Owned(sys.world, sys.threads[u]);
    }
  }

  lemma {:induction false} RunsKeepOwn(cfg: Config, events: seq<Event>)
    ensures OwnInvariant(Exec(cfg, events))
  {
    if events != [] {
      RunsKeepOwn(cfg, events[..|events| - 1]);
      RunsKeepInvariant(cfg, events[..|events| - 1]);
      NextOwns(cfg, Exec(cfg, events[..|events| - 1]), events[|events| - 1]);
    }
  }
}
