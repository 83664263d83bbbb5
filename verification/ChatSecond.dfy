/** What a call does after its executor, told without the code that does it: which results complete a
    unit, which are rejected, and which fail the claim closed. */
module ChatSecond {
  import opened Common
  import opened ChatPacket
  import opened ChatGate
  import opened ChatSafety
  import opened ChatFirst

  /** The result is about the claimed unit at the target, as far as its kind must be. */
  predicate WellFormed(p: Packet, u: Unit, r: SliceResult) {
    && (forall f | f in r.findings :: f.unit == r.unit)
    && (r.outcome == PASS || r.outcome == FINDING ==>
          && r.unit == u && r.sha == p.target
          && (r.evidence.Some? ==> r.evidence.value.unit == u && r.evidence.value.sha == p.target))
  }

  predicate OnTarget(p: Packet, u: Unit, r: SliceResult) {
    && r.unit == u && r.sha == p.target
    && r.evidence.Some? && r.evidence.value.unit == u && r.evidence.value.sha == p.target
  }

  /** The ids are new: none names a finding of the packet or of a completed unit, and none comes twice. */
  ghost predicate NewIds(p: Packet, fs: seq<Finding>) {
    && (forall f, g :: f in fs && g in p.findings ==> f.id != g.id)
    && (forall f, g, k ::
          f in fs && k in p.completed && p.completed[k].outcome.FINDING? && g in p.completed[k].findings ==>
            f.id != g.id)
    && (forall i, j | 0 <= i < j < |fs| :: fs[i].id != fs[j].id)
  }

  predicate Rejects(p: Packet, q: Packet, next: NextAction) {
    q == p.(status := FailedClosed, claim := None, next := next)
  }

  /** The claim has failed, and a human is asked for. */
  predicate FailsClosed(p: Packet, q: Packet, u: Unit) {
    && p.claim.Some? && 0 <= q.index < |p.queue| && p.queue[q.index] == u
    && q == p.(status := InSlice, session := STALLED, next := HumanRequired(u), unit := Some(u), index := q.index,
               claim := Some(p.claim.value.(state := Failed)))
  }

  /** The unit has its entry, the findings are open, and the claim is free. */
  predicate Enters(p: Packet, q: Packet, u: Unit, r: SliceResult) {
    q == p.(findings := p.findings + r.findings, completed := p.completed[UnitKey(p.run, u, p.target) := r],
            status := SliceComplete, unit := None, claim := None, next := RunNext,
            session := if p.session == TIMEDOUT then ACTIVE else p.session)
  }

  /** What a result with passable evidence for the claimed unit does. */
  ghost predicate Judges(p: Packet, q: Packet, u: Unit, r: SliceResult, handoff: Handoff, answer: Answer) {
    if r.outcome == REJECTED then answer.ResultStored? && Rejects(p, q, RejectUnsupported)
    else if r.outcome == FINDING && r.findings == [] then answer.ResultStored? && Rejects(p, q, RejectWithoutPayload)
    else if r.outcome == PASS && r.findings != [] then answer.ResultStored? && Rejects(p, q, RejectPassWithFindings)
    else if r.outcome == FINDING && (!NewIds(p, r.findings) || handoff == HandoffFailed) then
      answer.FailureStored? && FailsClosed(p, q, u)
    else if r.outcome == FINDING && handoff == HandoffLost then answer.NothingStored? && q == p
    else answer.ResultStored? && Enters(p, q, u, r)
  }

  /** What a call's result does to its own executing claim, nobody else about. */
  ghost predicate ResultDoes(p: Packet, q: Packet, u: Unit, r: SliceResult, handoff: Handoff, answer: Answer)
    requires p.claim.Some?
  {
    if !WellFormed(p, u, r) then answer.FailureStored? && FailsClosed(p, q, u)
    else if r.outcome == TIMEOUT then
      answer.ResultStored? && q == p.(status := InSlice, session := Session.TIMEDOUT, next := ResumeUnit(r.unit),
                                      claim := Some(p.claim.value.(state := TimedOut)))
    else if r.outcome == AWAITING then
      answer.ResultStored? && q == p.(status := Awaiting, next := SupplyEvidence(r.unit),
                                      claim := Some(p.claim.value.(state := AwaitingEvidence)))
    else if r.evidence.None? || !r.evidence.value.passable then
      answer.ResultStored? && Rejects(p, q, RejectIncomplete(r.unit))
    else if !OnTarget(p, u, r) then answer.FailureStored? && FailsClosed(p, q, u)
    else Judges(p, q, u, r, handoff, answer)
  }

  lemma NewIdsAre(p: Packet, fs: seq<Finding>)
    ensures NewIds(p, fs) <==> FreshIds(p, fs)
  {
    if FreshIds(p, fs) {
      forall f, g | f in fs && g in p.findings ensures f.id != g.id {
        assert g.id in BoundIds(p);
      }
      forall f, g, k | f in fs && k in p.completed && p.completed[k].outcome.FINDING? && g in p.completed[k].findings
        ensures f.id != g.id {
        assert g.id in BoundIds(p);
      }
    }
  }

  /** A well-formed packet, with the call's own executing claim. */
  ghost predicate Ready(p: Packet, u: Unit) {
    Sound(p) && Executes(p) && p.claim.value.unit == u
  }

  lemma ReadyUnit(p: Packet, u: Unit)
    requires Ready(p, u)
    ensures p.unit == Some(u) && p.status.InSlice? && !IsDone(p, u)
  {
    SelectNextFinds(p);
  }

  lemma FailingDoes(p: Packet, u: Unit)
    requires Ready(p, u)
    ensures FailsClosed(p, FailDraft(p, u), u) && Accepts(FailDraft(p, u))
  {
    FailDraftAccepted(p, u);
    IndexInFinds(p.queue, u);
  }

  /** The call's own executing claim, in a packet that the gate accepts now. */
  ghost predicate Failable(p: Packet, id: int, u: Unit, now: Time) {
    Ready(p, u) && Holds(p, id) && AcceptsAt(p, now)
  }

  /** Reconciled before anything has been stored, the claim fails closed. */
  lemma FailingReconciles(p: Packet, id: int, u: Unit, now: Time)
    requires Failable(p, id, u, now)
    ensures Reconcile(p, id, u) == Fail(FailDraft(p, u))
    ensures FailsClosed(p, FailDraft(p, u), u) && AcceptsAt(FailDraft(p, u), now)
  {
    ReadyUnit(p, u);
    FailingDoes(p, u);
  }

  /** What applying the result yields. */
  ghost predicate Yields(p: Packet, u: Unit, r: SliceResult, handoff: Handoff, applied: Applied)
    requires p.claim.Some?
  {
    match applied
    case Commit(q) => ResultDoes(p, q, u, r, handoff, ResultStored)
    case Abandon => ResultDoes(p, p, u, r, handoff, NothingStored)
    case _ => forall q :: FailsClosed(p, q, u) ==> ResultDoes(p, q, u, r, handoff, FailureStored)
  }

  lemma ApplyYields(p: Packet, u: Unit, r: SliceResult, handoff: Handoff)
    requires Ready(p, u)
    ensures Yields(p, u, r, handoff, Apply(p, r, handoff))
    ensures Apply(p, r, handoff).Commit? ==> Sound(Apply(p, r, handoff).draft)
  {
    ReadyUnit(p, u);
    ApplySound(p, r, handoff);
    assert Canonical(r, p.unit, p.target) <==> WellFormed(p, u, r);
    if WellFormed(p, u, r) && !r.outcome.TIMEOUT? && !r.outcome.AWAITING? && r.evidence.Some?
       && r.evidence.value.passable {
      VerdictYields(p, u, r, handoff);
    }
  }

  lemma VerdictYields(p: Packet, u: Unit, r: SliceResult, handoff: Handoff)
    requires p.claim.Some? && p.unit == Some(u) && WellFormed(p, u, r)
    requires !r.outcome.TIMEOUT? && !r.outcome.AWAITING? && r.evidence.Some? && r.evidence.value.passable
    ensures Yields(p, u, r, handoff, ApplyVerdict(p, r, handoff))
  {
    NewIdsAre(p, r.findings);
    assert Matches(p, r) <==> OnTarget(p, u, r);
  }
}
