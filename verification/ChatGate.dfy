/** Which packets the controller builds, and exactly when the gate refuses one of them. */
module ChatGate {
  import opened Common
  import opened ChatPacket

  /** What every stored packet satisfies, beyond what the gate checks by itself. */
  ghost predicate Sound(p: Packet) {
    && Accepts(p) && p.fairStart < |p.queue|
    && (p.claim.Some? ==> p.unit == Some(p.claim.value.unit) && (p.status.InSlice? || p.status.Awaiting?))
    && (p.unit.Some? ==> SelectNext(p) == p.unit)
    && (Audited(p) ==> !HasFindingUnit(p) && p.findings == [])
  }

  // ---- Selection ------------------------------------------------------------------------

  lemma {:induction false} IndexInFinds(queue: seq<Unit>, unit: Unit)
    requires unit in queue
    ensures 0 <= IndexIn(queue, unit) < |queue| && queue[IndexIn(queue, unit)] == unit
  {
    if queue[0] != unit {
      IndexInFinds(queue[1..], unit);
    }
  }

  lemma RotatedInQueue(p: Packet, offset: int)
    requires |p.queue| > 0
    ensures Rotated(p, offset) in p.queue
  {
  }

  /** A selected unit is not done; if none is selected, none is left. */
  lemma {:induction false} SelectFromFinds(p: Packet, offset: int)
    requires |p.queue| > 0 && 0 <= offset
    ensures SelectFrom(p, offset).Some?
      ==> SelectFrom(p, offset).value in p.queue && !IsDone(p, SelectFrom(p, offset).value)
    ensures SelectFrom(p, offset).None? ==> forall i :: offset <= i < |p.queue| ==> IsDone(p, Rotated(p, i))
    decreases |p.queue| - offset
  {
    if offset < |p.queue| {
      RotatedInQueue(p, offset);
      if IsDone(p, Rotated(p, offset)) {
        SelectFromFinds(p, offset + 1);
      }
    }
  }

  lemma ModOnce(a: int, n: int)
    requires 0 <= a < 2 * n
    ensures a % n == if a < n then a else a - n
  {
    var q := a / n;
    assert a == q * n + a % n;
    assert q >= 2 ==> q * n >= 2 * n;
  }

  /** The offset at which the rotation reaches index `k`. */
  function OffsetOf(p: Packet, k: int): int {
    if k >= p.fairStart then k - p.fairStart else k - p.fairStart + |p.queue|
  }

  lemma RotationReaches(p: Packet, k: int)
    requires 0 <= p.fairStart < |p.queue| && 0 <= k < |p.queue|
    ensures 0 <= OffsetOf(p, k) < |p.queue| && Rotated(p, OffsetOf(p, k)) == p.queue[k]
  {
    ModOnce(p.fairStart + OffsetOf(p, k), |p.queue|);
  }

  lemma SelectNextFinds(p: Packet)
    requires 0 <= p.fairStart < |p.queue|
    ensures SelectNext(p).Some? ==> SelectNext(p).value in p.queue && !IsDone(p, SelectNext(p).value)
    ensures SelectNext(p).None? <==> AllDone(p)
  {
    SelectFromFinds(p, 0);
    if SelectNext(p).None? {
      forall u | u in p.queue ensures IsDone(p, u) {
        var k :| 0 <= k < |p.queue| && p.queue[k] == u;
        RotationReaches(p, k);
      }
    }
  }

  /** Selection looks only at the queue, the run, the rotation and which units are done. */
  lemma {:induction false} SelectFromSame(p: Packet, q: Packet, offset: int)
    requires |p.queue| > 0 && 0 <= offset && q.queue == p.queue && q.fairStart == p.fairStart
    requires q.run == p.run && q.target == p.target && q.completed == p.completed
    ensures SelectFrom(q, offset) == SelectFrom(p, offset)
    decreases |p.queue| - offset
  {
    if offset < |p.queue| {
      SelectFromSame(p, q, offset + 1);
    }
  }

  // ---- Transitions ----------------------------------------------------------------------

  lemma InitialSound(head: Sha, release: bool)
    ensures Sound(Initial(head, release))
  {
  }

  /** The gate refuses a new delta run exactly when HEAD has come back to the audited commit. */
  lemma DeltaAccepted(p: Packet, head: Sha)
    requires Sound(p)
    ensures Accepts(StartDelta(p, head)) <==> p.lastAudited != Some(head)
    ensures p.lastAudited != Some(head) ==> Sound(StartDelta(p, head))
  {
  }

  lemma ClaimSound(p: Packet, id: int, now: Time)
    requires Sound(p) && !Audited(p) && SelectNext(p).Some? && now >= 0
    ensures Sound(ClaimUnit(p, SelectNext(p).value, id, now))
  {
    var unit := SelectNext(p).value;
    var q := ClaimUnit(p, unit, id, now);
    SelectNextFinds(p);
    IndexInFinds(p.queue, unit);
    SelectFromSame(p, q, 0);
  }

  lemma SameUnits(p: Packet, q: Packet)
    requires q.queue == p.queue && q.run == p.run && q.target == p.target && q.completed == p.completed
    ensures AllDone(q) == AllDone(p) && HasFindingUnit(q) == HasFindingUnit(p) && EntriesOk(q) == EntriesOk(p)
  {
    assert forall u :: KeyOf(q, u) == KeyOf(p, u);
    assert forall k, e :: EntryOk(q, k, e) == EntryOk(p, k, e);
  }

  /** A packet that differs only in what it says next, its session and its claim's state. */
  lemma RestatedSound(p: Packet, q: Packet)
    requires Sound(p) && q == p.(next := q.next, session := q.session, claim := q.claim)
    requires q.claim.Some? == p.claim.Some?
    requires q.claim.Some? ==>
            q.claim.value == p.claim.value.(state := q.claim.value.state)
            && (q.claim.value.state.Executing? ==> p.status.InSlice?)
    ensures Sound(q)
  {
    SameUnits(p, q);
    SelectFromSame(p, q, 0);
  }

  lemma ClaimStateSound(p: Packet, state: ClaimState)
    requires Sound(p) && !state.Executing?
    ensures Sound(WithClaimState(p, state))
  {
    RestatedSound(p, WithClaimState(p, state));
  }

  lemma {:induction false} DerivedFindings(p: Packet, units: seq<Unit>)
    requires EntriesOk(p)
    ensures Derived(p, units) != []
      <==> exists u | u in units :: IsDone(p, u) && p.completed[KeyOf(p, u)].outcome.FINDING?
  {
    if units != [] {
      DerivedFindings(p, units[1..]);
      assert IsDone(p, units[0]) ==> EntryOk(p, KeyOf(p, units[0]), p.completed[KeyOf(p, units[0])]);
      assert units == [units[0]] + units[1..];
    }
  }

  /** A finished queue is always an acceptable verdict: PASSED exactly when every unit passed. */
  lemma FinalizeSound(p: Packet)
    requires Sound(p) && !Audited(p) && SelectNext(p).None?
    ensures Sound(Finalize(p))
    ensures Finalize(p).status.Passed? <==> !HasFindingUnit(p)
    ensures Finalize(p).status.Passed? <==> Audited(Finalize(p))
  {
    assert AllDone(Finalize(p)) && HasFindingUnit(Finalize(p)) == (Derived(p, p.queue) != []) by {
      SelectNextFinds(p);
      DerivedFindings(p, p.queue);
      SameUnits(p, Finalize(p));
    }
    SameUnits(p, Finalize(p));
    FinalizeVerdict(p);
  }

  lemma FinalizeVerdict(p: Packet)
    requires !Audited(p) && AllDone(Finalize(p)) && HasFindingUnit(Finalize(p)) == (Derived(p, p.queue) != [])
    ensures VerdictOk(Finalize(p)) && (Audited(Finalize(p)) <==> Finalize(p).status.Passed?)
    ensures Audited(Finalize(p)) ==> !HasFindingUnit(Finalize(p)) && Finalize(p).findings == []
    ensures Finalize(p).status.Passed? <==> Derived(p, p.queue) == []
  {
  }

  lemma NoChangeSound(p: Packet, explicitPass: bool)
    requires Sound(p) && Audited(p)
    ensures Sound(NoChange(p, explicitPass))
  {
    SameUnits(p, NoChange(p, explicitPass));
  }

  lemma MarkSound(p: Packet, state: Session)
    requires Sound(p)
    ensures Sound(Mark(p, state))
  {
    RestatedSound(p, Mark(p, state));
  }

  /** Failing a claim is refused exactly when the unit reported is not the claimed one. */
  lemma FailDraftAccepted(p: Packet, unit: Unit)
    requires Sound(p) && p.claim.Some?
    ensures Accepts(FailDraft(p, unit)) <==> unit == p.claim.value.unit
    ensures unit == p.claim.value.unit ==> Sound(FailDraft(p, unit))
  {
    var q := FailDraft(p, unit);
    if unit == p.claim.value.unit {
      IndexInFinds(p.queue, unit);
      SameUnits(p, q);
      SelectFromSame(p, q, 0);
    }
  }

  /** A draft that keeps the units and the claimed unit and has no verdict. */
  predicate Undecided(p: Packet, q: Packet) {
    && q == p.(status := q.status, next := q.next, session := q.session, claim := q.claim)
    && (match q.claim
        case None => q.status.FailedClosed?
        case Some(c) =>
            (q.status.InSlice? || q.status.Awaiting?) && p.claim.Some? && !c.state.Executing?
            && c == p.claim.value.(state := c.state))
  }

  /** A draft that adds the claimed unit's entry. */
  predicate Completes(p: Packet, q: Packet, r: SliceResult) {
    && p.unit == Some(r.unit) && EntryOk(p, KeyOf(p, r.unit), r)
    && q == p.(findings := p.findings + r.findings, completed := p.completed[KeyOf(p, r.unit) := r],
               status := SliceComplete, unit := None, claim := None, next := RunNext, session := q.session)
  }

  /** All that a result can do to a packet. */
  lemma ApplyShape(p: Packet, r: SliceResult, handoff: Handoff)
    requires p.claim.Some? && p.unit.Some?
    ensures Apply(p, r, handoff).Commit? ==>
      Undecided(p, Apply(p, r, handoff).draft) || Completes(p, Apply(p, r, handoff).draft, r)
  {
    if Canonical(r, p.unit, p.target) && !r.outcome.TIMEOUT? && !r.outcome.AWAITING? && r.evidence.Some?
        && r.evidence.value.passable {
      VerdictShape(p, r, handoff);
    }
  }

  lemma VerdictShape(p: Packet, r: SliceResult, handoff: Handoff)
    requires p.claim.Some? && p.unit.Some? && Canonical(r, p.unit, p.target)
    requires !r.outcome.TIMEOUT? && !r.outcome.AWAITING? && r.evidence.Some? && r.evidence.value.passable
    ensures ApplyVerdict(p, r, handoff).Commit? ==>
      Undecided(p, ApplyVerdict(p, r, handoff).draft) || Completes(p, ApplyVerdict(p, r, handoff).draft, r)
  {
  }

  lemma UndecidedSound(p: Packet, q: Packet)
    requires Sound(p) && p.claim.Some? && Undecided(p, q)
    ensures Sound(q)
  {
    SameUnits(p, q);
    SelectFromSame(p, q, 0);
  }

  lemma CompleteSound(p: Packet, q: Packet, r: SliceResult)
    requires Sound(p) && p.claim.Some? && Completes(p, q, r)
    ensures Sound(q)
  {
    assert forall k, e :: EntryOk(q, k, e) == EntryOk(p, k, e);
  }

  /** Whatever an executor returns, the packet made of it passes the gate. */
  lemma ApplySound(p: Packet, r: SliceResult, handoff: Handoff)
    requires Sound(p) && p.claim.Some?
    ensures Apply(p, r, handoff).Commit? ==> Sound(Apply(p, r, handoff).draft)
  {
    ApplyShape(p, r, handoff);
    var applied := Apply(p, r, handoff);
    if applied.Commit? {
      if Undecided(p, applied.draft) {
        UndecidedSound(p, applied.draft);
      } else {
        CompleteSound(p, applied.draft, r);
      }
    }
  }
}
