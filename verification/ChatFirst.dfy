/** What a call does before its executor, told without the code that does it: whom it refuses, what it
    reclaims, which unit it claims, and which verdict it stores. */
module ChatFirst {
  import opened Common
  import opened ChatPacket
  import opened ChatGate
  import opened ChatRuns
  import opened ChatSafety
  import opened ChatTheorems

  datatype Answer = NothingStored | Verdict | Claimed(unit: Unit) | ResultStored | ReplayReturned | FailureStored

  // ---- Selection --------------------------------------------------------------------------------

  /** The unit k places after the start of the rotation. */
  function Nth(p: Packet, k: nat): Unit
    requires |p.queue| > 0
  {
    p.queue[(p.fairStart + k) % |p.queue|]
  }

  /** It is the k-th of the rotation, and the first one not done. */
  predicate LeadsAt(p: Packet, k: nat, u: Unit) {
    k < |p.queue| && Nth(p, k) == u && !IsDone(p, u) && forall j: nat | j < k :: IsDone(p, Nth(p, j))
  }

  predicate Leads(p: Packet, u: Unit) {
    exists k: nat | k < |p.queue| :: LeadsAt(p, k, u)
  }

  lemma {:induction false} SelectFromLeads(p: Packet, offset: nat)
    requires |p.queue| > 0 && offset <= |p.queue|
    requires forall j: nat | j < offset :: IsDone(p, Nth(p, j))
    ensures SelectFrom(p, offset).Some? ==> Leads(p, SelectFrom(p, offset).value)
    decreases |p.queue| - offset
  {
    if offset < |p.queue| {
      assert Rotated(p, offset) == Nth(p, offset);
      if IsDone(p, Nth(p, offset)) {
        SelectFromLeads(p, offset + 1);
      } else {
        assert LeadsAt(p, offset, Nth(p, offset));
      }
    }
  }

  lemma OneLeads(p: Packet, u: Unit, v: Unit)
    requires Leads(p, u) && Leads(p, v)
    ensures u == v
  {
    var i: nat :| i < |p.queue| && LeadsAt(p, i, u);
    var k: nat :| k < |p.queue| && LeadsAt(p, k, v);
    FirstNotDone(p, i, u, k);
    FirstNotDone(p, k, v, i);
  }

  lemma FirstNotDone(p: Packet, i: nat, u: Unit, k: nat)
    requires LeadsAt(p, i, u) && k < |p.queue| && !IsDone(p, Nth(p, k))
    ensures i <= k
  {
  }

  /** The selected unit is the first of the rotation that is not done. */
  lemma SelectsExactly(p: Packet, u: Unit)
    requires 0 <= p.fairStart < |p.queue|
    ensures SelectNext(p) == Some(u) <==> Leads(p, u)
  {
    SelectFromLeads(p, 0);
    SelectNextFinds(p);
    if Leads(p, u) {
      var k: nat :| k < |p.queue| && LeadsAt(p, k, u);
      assert Nth(p, k) in p.queue;
      OneLeads(p, u, SelectNext(p).value);
    }
  }

  // ---- Refusals -----------------------------------------------------------------------------------

  predicate Executes(p: Packet) { p.claim.Some? && p.claim.value.state.Executing? }

  /** A call is refused exactly for an executing claim: at its own head while the clock is before the
      lease's end, at another head while the claim is neither that old nor from the future. */
  predicate Refused(p: Packet, head: Sha, now: Time) {
    if p.target != head then Executes(p) && p.claim.value.claimedAt <= now < p.claim.value.claimedAt + 900
    else p.lastAudited != Some(head) && Executes(p) && now < p.claim.value.claimedAt + 900
  }

  lemma RefusedExactly(p: Packet, head: Sha, id: int, now: Time, explicitPass: bool)
    requires Sound(p)
    ensures PlanStep(p, head, id, now, explicitPass).Refuse? <==> Refused(p, head, now)
  {
    SelectNextFinds(p);
  }

  // ---- What is stored -------------------------------------------------------------------------------

  /** The packet with a unit claimed by the call, and nothing else changed. */
  predicate Claims(p: Packet, q: Packet, u: Unit, id: int, now: Time) {
    && 0 <= q.index < |p.queue| && p.queue[q.index] == u
    && q == p.(status := InSlice, unit := Some(u), index := q.index, next := CompleteOrResume(u),
               claim := Some(Claim(id, u, p.run, p.target, Executing, now)))
  }

  /** The first packet: nothing audited, nothing completed, the queue in order. */
  predicate Begins(q: Packet, head: Sha, release: bool) {
    && q.target == head && q.run == RunKey(head) && q.release == release && q.lastAudited.None? && q.status.Idle?
    && q.unit.None? && q.claim.None? && q.completed == map[] && q.findings == [] && q.fairStart == 0
    && |q.queue| == (if release then 6 else 5)
    && q.queue[..5] == [ChangedCode, AffectedContracts, AffectedTestsCi, SecurityImpact, DocsSpecDrift]
    && (release ==> q.queue[5] == ReleaseReadiness)
  }

  /** A fresh run on another head: nothing completed, the rotation one unit further. */
  predicate Restarts(p: Packet, q: Packet, head: Sha) {
    && q.target == head && q.run == RunKey(head) && q.release == p.release && q.queue == p.queue
    && q.fairStart == (if p.fairStart + 1 == |p.queue| then 0 else p.fairStart + 1) && q.index == q.fairStart
    && q.completed == map[] && q.findings == [] && q.unit.None? && q.claim.None? && q.status.Idle? && q.next.RunNext?
    && q.lastAudited == p.lastAudited && q.session == p.session
  }

  /** An audited head is only refreshed. */
  predicate Refreshes(p: Packet, q: Packet, explicitPass: bool) {
    q == p.(unit := None, claim := None, next := Coordination, session := if explicitPass then ACTIVE else STALLED,
            status := if explicitPass && p.findings == [] then Passed else WithFindings)
  }

  /** The verdict of a finished queue: with findings those of the completed units and a handoff next,
      without any a pass that promotes the head. */
  ghost predicate Concludes(p: Packet, q: Packet) {
    && (forall f :: f in q.findings <==>
          exists u :: u in p.queue && IsDone(p, u) && f in p.completed[KeyOf(p, u)].findings)
    && q == p.(findings := q.findings, unit := None, claim := None, status := q.status, next := q.next,
               lastAudited := q.lastAudited)
    && (if exists u :: u in p.queue && IsDone(p, u) && p.completed[KeyOf(p, u)].outcome.FINDING?
        then q.status.WithFindings? && q.next.AwaitHandoff? && q.lastAudited == p.lastAudited && q.findings != []
        else q.status.Passed? && q.next.UntilNextAudit? && q.lastAudited == Some(p.target) && q.findings == [])
  }

  /** The last save of the first section, from a packet at the call's head whose claim stands in nobody's
      way. */
  ghost predicate Decides(p: Packet, q: Packet, id: int, now: Time, explicitPass: bool, answer: Answer) {
    if p.lastAudited == Some(p.target) then answer.Verdict? && Refreshes(p, q, explicitPass)
    else if forall u | u in p.queue :: IsDone(p, u) then answer.Verdict? && Concludes(p, q)
    else answer.Claimed? && Leads(p, answer.unit) && Claims(p, q, answer.unit, id, now)
  }

  /** The whole first section of a call that nobody disturbs. */
  ghost predicate FirstDoes(p: Packet, q: Packet, head: Sha, id: int, now: Time, explicitPass: bool, answer: Answer) {
    if Refused(p, head, now) || (p.target != head && p.lastAudited == Some(head)) then answer.NothingStored? && q == p
    else if p.target == head then Decides(p, q, id, now, explicitPass, answer)
    else exists anew :: Restarts(p, anew, head) && Decides(anew, q, id, now, explicitPass, answer)
  }

  lemma DeltaRestarts(p: Packet, head: Sha)
    requires Sound(p)
    ensures Restarts(p, StartDelta(p, head), head)
  {
    ModOnce(p.fairStart + 1, |p.queue|);
    assert |p.queue| > 1;
  }

  lemma {:induction false} DerivedAre(p: Packet, units: seq<Unit>)
    ensures forall f :: f in Derived(p, units) <==>
              exists u :: u in units && IsDone(p, u) && f in p.completed[KeyOf(p, u)].findings
  {
    if units != [] {
      DerivedAre(p, units[1..]);
      assert units == [units[0]] + units[1..];
      var first := if IsDone(p, units[0]) then p.completed[KeyOf(p, units[0])].findings else [];
      assert Derived(p, units) == first + Derived(p, units[1..]);
      forall f ensures f in Derived(p, units) <==>
                 exists u :: u in units && IsDone(p, u) && f in p.completed[KeyOf(p, u)].findings {
        if u :| u in units && IsDone(p, u) && f in p.completed[KeyOf(p, u)].findings {
          assert u == units[0] || u in units[1..];
        }
      }
    }
  }

  lemma FinalizeConcludes(p: Packet)
    requires Sound(p) && !Audited(p) && SelectNext(p).None?
    ensures Concludes(p, Finalize(p)) && Sound(Finalize(p))
  {
    DerivedAre(p, p.queue);
    DerivedFindings(p, p.queue);
    FinalizeSound(p);
  }

  lemma ClaimClaims(p: Packet, id: int, now: Time)
    requires Sound(p) && !Audited(p) && SelectNext(p).Some? && now >= 0
    ensures var u := SelectNext(p).value;
            Leads(p, u) && Claims(p, ClaimUnit(p, u, id, now), u, id, now) && !IsDone(p, u) && u in p.queue
    ensures AcceptsAt(ClaimUnit(p, SelectNext(p).value, id, now), now)
  {
    SelectNextFinds(p);
    SelectsExactly(p, SelectNext(p).value);
    IndexInFinds(p.queue, SelectNext(p).value);
    ClaimSound(p, id, now);
  }

  lemma NoChangeRefreshes(p: Packet, explicitPass: bool)
    requires Sound(p) && Audited(p)
    ensures Refreshes(p, NoChange(p, explicitPass), explicitPass) && Sound(NoChange(p, explicitPass))
  {
    NoChangeSound(p, explicitPass);
  }

  /** A reclaimed claim is only marked so: whatever is decided from there is decided from here. */
  lemma DecidesSame(p: Packet, q: Packet, id: int, now: Time, explicitPass: bool, answer: Answer)
    requires Sound(p) && !Audited(p) && Decides(WithClaimState(p, TimedOut), q, id, now, explicitPass, answer)
    requires exists u :: u in p.queue && !IsDone(p, u)
    ensures Decides(p, q, id, now, explicitPass, answer)
  {
    var m := WithClaimState(p, TimedOut);
    assert forall u :: IsDone(m, u) == IsDone(p, u);
    var u :| u in p.queue && !IsDone(p, u);
    assert !IsDone(m, u) && u in m.queue;
    LeadsSame(p, m, answer.unit);
  }

  lemma LeadsSame(p: Packet, m: Packet, u: Unit)
    requires Leads(m, u) && m.queue == p.queue && m.fairStart == p.fairStart
    requires m.run == p.run && m.target == p.target && m.completed == p.completed
    ensures Leads(p, u)
  {
    var k: nat :| k < |m.queue| && LeadsAt(m, k, u);
    forall j: nat | j < k ensures IsDone(p, Nth(p, j)) {
      assert Nth(m, j) == Nth(p, j) && IsDone(m, Nth(m, j));
    }
    assert Nth(m, k) == Nth(p, k);
    assert LeadsAt(p, k, u);
  }

  // ---- Reclaiming, over runs --------------------------------------------------------------------------

  lemma Then(cfg: Config, past: seq<Event>, e: Event)
    ensures Exec(cfg, past + [e]) == Next(cfg, Exec(cfg, past), e)
  {
    assert (past + [e])[..|past|] == past;
  }

  predicate Plain(x: Input) { x.fault.NoFault? && x.now >= 0 }

  lemma LoadsIt(cfg: Config, w: World, id: int, c: Call, x: Input)
    requires c.pc.Load? && Loads(w, x.now)
    ensures Step(cfg, w, id, c, x) == Move(w, c.(pc := Planning(w.packet, w.version)))
  {
  }

  lemma ReclaimsIt(cfg: Config, w: World, id: int, c: Call, x: Input, p: Packet)
    requires Sound(p) && w.packet == Some(p) && c.pc == Planning(Some(p), w.version) && p.target == c.head && Plain(x)
    requires Executes(p) && p.claim.value.claimedAt + 900 <= x.now
    ensures Step(cfg, w, id, c, x) == Move(w.(packet := Some(WithClaimState(p, TimedOut)), version := w.version + 1),
                                           c.(pc := Planning(Some(WithClaimState(p, TimedOut)), w.version + 1)))
    ensures Sound(WithClaimState(p, TimedOut))
  {
    ClaimStateSound(p, TimedOut);
  }

  lemma ClaimsIt(cfg: Config, w: World, id: int, c: Call, x: Input, p: Packet)
    requires Sound(p) && w.packet == Some(p) && c.pc == Planning(Some(p), w.version) && p.target == c.head && Plain(x)
    requires p.claim.Some? && p.claim.value.state.TimedOut? && p.status.InSlice?
    ensures var u := p.claim.value.unit;
            Step(cfg, w, id, c, x) == Move(w.(packet := Some(ClaimUnit(p, u, id, x.now)), version := w.version + 1),
                                           c.(pc := Running(u)))
  {
    ClaimClaims(p, id, x.now);
  }

  /** From every run that has left an executing claim, a new call on the same head, once the lease is
      over, claims the same unit anew: begin, load, reclaim, claim, under whatever clocks, as long as
      the store answers and nobody else moves. */
  lemma ExpiredClaimIsReclaimed(cfg: Config, past: seq<Event>, id: int, release: bool, x: Input, y: Input, z: Input)
    requires PacketAfter(cfg, past).Some? && Executes(PacketAfter(cfg, past).value)
    requires id !in Exec(cfg, past).calls && Plain(y) && Plain(z)
    requires AcceptsAt(PacketAfter(cfg, past).value, x.now)
    requires PacketAfter(cfg, past).value.claim.value.claimedAt + 900 <= y.now
    ensures var p := PacketAfter(cfg, past).value;
            var s := Exec(cfg, past + [Begin(id, p.target, release), Run(id, x), Run(id, y), Run(id, z)]);
            && s.world.packet.Some?
            && s.world.packet.value.claim == Some(Claim(id, p.claim.value.unit, p.run, p.target, Executing, z.now))
            && s.world.packet.value.completed == p.completed && s.world.packet.value.target == p.target
            && id in s.calls && s.calls[id].pc == Running(p.claim.value.unit)
  {
    RunsKeepInvariant(cfg, past);
    var s := Exec(cfg, past);
    var p := s.world.packet.value;
    var e1, e2, e3, e4 := Begin(id, p.target, release), Run(id, x), Run(id, y), Run(id, z);
    Then(cfg, past, e1);
    Then(cfg, past + [e1], e2);
    Then(cfg, past + [e1] + [e2], e3);
    Then(cfg, past + [e1] + [e2] + [e3], e4);
    assert past + [e1, e2, e3, e4] == past + [e1] + [e2] + [e3] + [e4];
    var c := Call(p.target, release, Load);
    LoadsIt(cfg, s.world, id, c, x);
    ReclaimsIt(cfg, s.world, id, c.(pc := Planning(Some(p), s.world.version)), y, p);
    var q := WithClaimState(p, TimedOut);
    var w := s.world.(packet := Some(q), version := s.world.version + 1);
    ClaimsIt(cfg, w, id, c.(pc := Planning(Some(q), w.version)), z, q);
  }

  lemma PlansIt(cfg: Config, w: World, id: int, c: Call, x: Input, p: Packet)
    requires Sound(p) && w.packet == Some(p) && c.pc == Planning(Some(p), w.version)
    ensures Refused(p, c.head, x.now) ==> Step(cfg, w, id, c, x) == Move(w, c.(pc := Ended))
    ensures !Refused(p, c.head, x.now) && Plain(x) && AcceptsAt(p, x.now)
            && (p.target == c.head || p.lastAudited != Some(c.head)) ==>
              Step(cfg, w, id, c, x).world.version == w.version + 1
  {
    RefusedExactly(p, c.head, id, x.now, x.explicitPass);
    if !Refused(p, c.head, x.now) && Plain(x) && AcceptsAt(p, x.now)
       && (p.target == c.head || p.lastAudited != Some(c.head)) {
      PlanAccepted(p, c.head, id, x.now, x.explicitPass);
      var q := PlanStep(p, c.head, id, x.now, x.explicitPass).packet;
      assert Save(cfg, w, w.version, q, x) == Saving(Replace(w, q), Stored, true);
    }
  }

  /** What a call plans to save, the gate accepts at that time. */
  lemma PlanAccepted(p: Packet, head: Sha, id: int, now: Time, explicitPass: bool)
    requires Sound(p) && AcceptsAt(p, now) && now >= 0 && !PlanStep(p, head, id, now, explicitPass).Refuse?
    requires p.target == head || p.lastAudited != Some(head)
    ensures AcceptsAt(PlanStep(p, head, id, now, explicitPass).packet, now)
  {
    PlanSound(p, head, id, now, explicitPass);
    PlanTimes(p, head, id, now, explicitPass);
  }

  lemma PlanTimes(p: Packet, head: Sha, id: int, now: Time, explicitPass: bool)
    requires !PlanStep(p, head, id, now, explicitPass).Refuse?
    ensures var c := PlanStep(p, head, id, now, explicitPass).packet.claim;
            c.Some? ==> c.value.claimedAt == now || (p.claim.Some? && c.value.claimedAt == p.claim.value.claimedAt)
  {
  }

  /** In every run a call with a current base stores nothing and ends if it is refused, and, with a
      well-behaved store and clock, saves if it is not, unless HEAD has come back to the audited commit. */
  lemma RefusalsStoreNothing(cfg: Config, past: seq<Event>, id: int, x: Input)
    requires PacketAfter(cfg, past).Some? && id in Exec(cfg, past).calls
    requires Exec(cfg, past).calls[id].pc == Planning(PacketAfter(cfg, past), Exec(cfg, past).world.version)
    ensures var p, c := PacketAfter(cfg, past).value, Exec(cfg, past).calls[id];
            var w, s := Exec(cfg, past).world, Exec(cfg, past + [Run(id, x)]);
            && (Refused(p, c.head, x.now) ==> s.world == w && s.calls[id].pc.Ended?)
            && (!Refused(p, c.head, x.now) && Plain(x) && AcceptsAt(p, x.now)
                && (p.target == c.head || p.lastAudited != Some(c.head)) ==>
                  s.world.version == w.version + 1)
  {
    RunsKeepInvariant(cfg, past);
    Then(cfg, past, Run(id, x));
    PlansIt(cfg, Exec(cfg, past).world, id, Exec(cfg, past).calls[id], x, PacketAfter(cfg, past).value);
  }

  // ---- Operators ----------------------------------------------------------------------------------

  /** What a session command stores, in every run: the session, what comes next, and, for a timeout, a
      timed-out claim; nothing for another head, or for a packet the gate does not accept now. */
  lemma CommandsDo(cfg: Config, past: seq<Event>, head: Sha, state: Session, now: Time)
    requires cfg.operators && PacketAfter(cfg, past).Some?
    ensures var p := PacketAfter(cfg, past).value;
            PacketAfter(cfg, past + [MarkSession(head, state, now)])
              == Some(if head != p.target || !AcceptsAt(p, now) then p
                      else if state == TIMEDOUT then
                        p.(session := TIMEDOUT, next := AfterTimeout,
                           claim := if p.claim.Some? then Some(p.claim.value.(state := ClaimState.TimedOut)) else None)
                      else if state == ROLLOVER then p.(session := ROLLOVER, next := AfterRollover)
                      else p.(session := state))
    ensures var p := PacketAfter(cfg, past).value;
            PacketAfter(cfg, past + [Rollover(head, now)])
              == Some(if head == p.target && AcceptsAt(p, now)
                         && (p.session == ROLLOVER || p.session == TIMEDOUT || p.session == STALLED)
                      then p.(session := RESUMED) else p)
  {
    Then(cfg, past, MarkSession(head, state, now));
    Then(cfg, past, Rollover(head, now));
  }
}
