/** The chat-audit checkpoint packet, the gate that re-validates it on every save and load, and the
    transitions that build new packets. One repository and branch, so a run key is a head. */
module ChatPacket {
  import opened Common

  type Sha = int
  type Time = int

  /** The units of the queue, or any other name an executor reports; `suffix` is the unit whose name
      such a name ends in after a colon, if it does. */
  datatype Unit = ChangedCode | AffectedContracts | AffectedTestsCi | SecurityImpact | DocsSpecDrift | ReleaseReadiness
                | Other(name: string, suffix: Option<Unit>)

  datatype RunKey = RunKey(head: Sha)
  datatype UnitKey = UnitKey(run: RunKey, unit: Unit, sha: Sha)

  datatype Finding = Finding(id: string, unit: Unit)
  datatype Evidence = Evidence(unit: Unit, sha: Sha, passable: bool)
  datatype Outcome = PASS | FINDING | TIMEOUT | REJECTED | AWAITING
  datatype SliceResult = SliceResult(unit: Unit, sha: Sha, outcome: Outcome, findings: seq<Finding>,
      evidence: Option<Evidence>)

  datatype ClaimState = Executing | TimedOut | AwaitingEvidence | Failed
  datatype Claim = Claim(id: int, unit: Unit, run: RunKey, sha: Sha, state: ClaimState, claimedAt: Time)

  datatype Status = Idle | InSlice | Awaiting | SliceComplete | Passed | WithFindings | FailedClosed
  datatype Session = ACTIVE | STALLED | TIMEDOUT | ROLLOVER | RESUMED

  datatype NextAction =
    | RunNext | CompleteOrResume(unit: Unit) | ResumeUnit(unit: Unit) | SupplyEvidence(unit: Unit)
    | RejectIncomplete(unit: Unit) | RejectUnsupported | RejectWithoutPayload | RejectPassWithFindings
    | HumanRequired(unit: Unit) | Coordination | AwaitHandoff | UntilNextAudit | AfterTimeout | AfterRollover

  datatype Packet = Packet(target: Sha, lastAudited: Option<Sha>, run: RunKey, release: bool, queue: seq<Unit>,
                           status: Status, unit: Option<Unit>, index: int, claim: Option<Claim>,
                           completed: map<UnitKey, SliceResult>, findings: seq<Finding>,
                           next: NextAction, session: Session, fairStart: int)

  const LEASE: int := 900
  const SKEW: int := 60

  function Queue(release: bool): seq<Unit> {
    [ChangedCode, AffectedContracts, AffectedTestsCi, SecurityImpact, DocsSpecDrift]
    + if release then [ReleaseReadiness] else []
  }

  function KeyOf(p: Packet, unit: Unit): UnitKey { UnitKey(p.run, unit, p.target) }

  predicate IsDone(p: Packet, unit: Unit) { KeyOf(p, unit) in p.completed }

  predicate Audited(p: Packet) { p.lastAudited == Some(p.target) }

  // ---- The gate -------------------------------------------------------------------------

  predicate EntryOk(p: Packet, k: UnitKey, e: SliceResult) {
    && k.run == p.run && k.sha == p.target && e.unit == k.unit && e.sha == k.sha
    && (e.outcome.PASS? || e.outcome.FINDING?)
    && e.evidence == Some(Evidence(k.unit, k.sha, true))
    && (e.outcome.FINDING? <==> e.findings != [])
  }

  predicate ClaimOk(p: Packet) {
    match p.claim
    case None => !p.status.InSlice?
    case Some(c) =>
      && c.unit in p.queue && (p.unit.Some? ==> c.unit == p.unit.value)
      && (c.state.Executing? ==> p.status.InSlice? && p.unit == Some(c.unit))
      && c.run == p.run && c.sha == p.target && c.claimedAt >= 0
  }

  predicate UnitOk(p: Packet) {
    && 0 <= p.index < |p.queue|
    && (p.unit.Some? ==> p.queue[p.index] == p.unit.value)
    && (p.status.InSlice? ==> p.unit.Some?)
  }

  predicate AllDone(p: Packet) { forall u | u in p.queue :: IsDone(p, u) }

  predicate HasFindingUnit(p: Packet) {
    exists u | u in p.queue :: IsDone(p, u) && p.completed[KeyOf(p, u)].outcome.FINDING?
  }

  /** `assert_audit_verdict_invariants`. */
  predicate VerdictOk(p: Packet) {
    match p.status
    case Passed => p.unit.None? && p.claim.None? && AllDone(p) && Audited(p) && p.findings == [] && !HasFindingUnit(p)
    case WithFindings =>
        p.unit.None? && p.claim.None? && AllDone(p) && (Audited(p) || (HasFindingUnit(p) && p.findings != []))
    case Awaiting => !Audited(p) && p.unit.Some?
    case SliceComplete => !Audited(p) && p.unit.None? && p.claim.None?
    case _ => !Audited(p)
  }

  predicate EntriesOk(p: Packet) {
    forall k | k in p.completed :: EntryOk(p, k, p.completed[k])
  }

  /** What the gate checks of a packet, whatever the time. */
  predicate Accepts(p: Packet) {
    && p.queue == Queue(p.release) && p.run == RunKey(p.target) && p.fairStart >= 0
    && UnitOk(p) && ClaimOk(p) && EntriesOk(p) && VerdictOk(p)
  }

  /** The gate also refuses a claim from too far in the future. */
  predicate AcceptsAt(p: Packet, now: Time) {
    Accepts(p) && (p.claim.Some? ==> p.claim.value.claimedAt <= now + SKEW)
  }

  // ---- Transitions ----------------------------------------------------------------------

  function Initial(head: Sha, release: bool): Packet {
    Packet(head, None, RunKey(head), release, Queue(release), Idle, None, 0, None, map[], [], RunNext, ACTIVE, 0)
  }

  function StartDelta(p: Packet, head: Sha): Packet {
    var start := (p.fairStart + 1) % |Queue(p.release)|;
    p.(target := head, run := RunKey(head), queue := Queue(p.release), fairStart := start, unit := None, index := start,
       completed := map[], claim := None, findings := [], status := Idle, next := RunNext)
  }

  predicate GenuinelyLive(c: Claim, now: Time) {
    c.state.Executing? && 0 <= now - c.claimedAt < LEASE
  }

  /** The queue, rotated to start at the fair index. */
  function Rotated(p: Packet, offset: int): Unit
    requires |p.queue| > 0
  {
    p.queue[(p.fairStart + offset) % |p.queue|]
  }

  function SelectFrom(p: Packet, offset: int): Option<Unit>
    requires |p.queue| > 0
    decreases |p.queue| - offset
  {
    if offset >= |p.queue| then None
    else
      var unit := Rotated(p, offset);
      if IsDone(p, unit) then SelectFrom(p, offset + 1) else Some(unit)
  }

  /** The first unit without a completed entry, starting at the rotating index. */
  function SelectNext(p: Packet): Option<Unit> {
    if p.queue == [] then None else SelectFrom(p, 0)
  }

  function IndexIn(queue: seq<Unit>, unit: Unit): int {
    if queue == [] || queue[0] == unit then 0 else 1 + IndexIn(queue[1..], unit)
  }

  function ClaimUnit(p: Packet, unit: Unit, id: int, now: Time): Packet {
    p.(status := InSlice, unit := Some(unit), index := IndexIn(p.queue, unit), next := CompleteOrResume(unit),
       claim := Some(Claim(id, unit, p.run, p.target, Executing, now)))
  }

  function WithClaimState(p: Packet, state: ClaimState): Packet {
    if p.claim.Some? then p.(claim := Some(p.claim.value.(state := state))) else p
  }

  /** All findings of the completed entries, in queue order. */
  function Derived(p: Packet, units: seq<Unit>): seq<Finding> {
    if units == [] then []
    else (if IsDone(p, units[0]) then p.completed[KeyOf(p, units[0])].findings else []) + Derived(p, units[1..])
  }

  function Finalize(p: Packet): Packet {
    var found := Derived(p, p.queue);
    var q := p.(findings := found, unit := None, claim := None);
    if found != [] then q.(status := WithFindings, next := AwaitHandoff)
    else q.(status := Passed, lastAudited := Some(p.target), next := UntilNextAudit)
  }

  /** A run on an already audited head only refreshes coordination. */
  function NoChange(p: Packet, explicitPass: bool): Packet {
    var q := p.(unit := None, claim := None);
    if !explicitPass then q.(status := WithFindings, next := Coordination, session := STALLED)
    else q.(status := if p.findings != [] then WithFindings else Passed, next := Coordination, session := ACTIVE)
  }

  function Mark(p: Packet, state: Session): Packet {
    var q := p.(session := state);
    match state
    case TIMEDOUT => WithClaimState(q.(next := AfterTimeout), TimedOut)
    case ROLLOVER => q.(next := AfterRollover)
    case _ => q
  }

  function FailDraft(p: Packet, unit: Unit): Packet {
    WithClaimState(p.(status := InSlice, session := STALLED, next := HumanRequired(unit), unit := Some(unit),
                      index := if unit in p.queue then IndexIn(p.queue, unit) else p.index), Failed)
  }

  // ---- One call of run_slice, up to the executor --------------------------------------------

  /** The next save of a call: refuse; save and go on; save and end; save the claim and execute. */
  datatype Plan = Refuse | Continue(packet: Packet) | End(packet: Packet) | Execute(packet: Packet, unit: Unit)

  function PlanClaim(p: Packet, unit: Unit, id: int, now: Time): Plan {
    if IsDone(p, unit) then Refuse else Execute(ClaimUnit(p, unit, id, now), unit)
  }

  function PlanStep(p: Packet, head: Sha, id: int, now: Time, explicitPass: bool): Plan {
    if p.target != head then
      if p.status.InSlice? && p.claim.Some? && GenuinelyLive(p.claim.value, now) then Refuse
      else Continue(StartDelta(p, head))
    else if Audited(p) then End(NoChange(p, explicitPass))
    else if p.status.InSlice? && p.unit.Some? && p.claim.Some? then
      if p.claim.value.state.Executing? && now - p.claim.value.claimedAt < LEASE then Refuse
      else if p.claim.value.state.Executing? || p.claim.value.state.Failed? then Continue(WithClaimState(p, TimedOut))
      else PlanClaim(p, p.unit.value, id, now)
    else
      match SelectNext(p)
      case None => End(Finalize(p))
      case Some(unit) => PlanClaim(p, unit, id, now)
  }

  // ---- The executor's result ----------------------------------------------------------------

  /** `canonicalize_executor_slice_result` accepts. */
  predicate Canonical(r: SliceResult, unit: Option<Unit>, sha: Sha) {
    && (forall f | f in r.findings :: f.unit == r.unit)
    && (r.outcome.PASS? || r.outcome.FINDING? ==>
          && (unit.Some? ==> r.unit == unit.value) && r.sha == sha
          && (r.evidence.Some? ==> r.evidence.value.unit == r.unit && r.evidence.value.sha == r.sha))
  }

  function BoundIds(p: Packet): set<string> {
    (set f | f in p.findings :: f.id)
    + (set k, f | k in p.completed && f in p.completed[k].findings && p.completed[k].outcome.FINDING? :: f.id)
  }

  predicate FreshIds(p: Packet, fs: seq<Finding>) {
    && (forall f | f in fs :: f.id !in BoundIds(p))
    && (forall i, j | 0 <= i < j < |fs| :: fs[i].id != fs[j].id)
  }

  /** What the handoff of the findings comes to: done, an error, or a lost compare-and-set. */
  datatype Handoff = HandedOff | HandoffFailed | HandoffLost

  /** A draft to save; an invalid result, reconciled at once; an exception for the caller to
      reconcile; or a lost compare-and-set, which nobody reconciles. */
  datatype Applied = Commit(draft: Packet) | Invalid | Raise | Abandon

  function Reject(p: Packet, next: NextAction): Applied {
    Commit(p.(status := FailedClosed, claim := None, next := next))
  }

  predicate Matches(p: Packet, r: SliceResult) {
    && r.evidence.Some?
    && (p.unit.Some? ==> r.unit == p.unit.value) && r.evidence.value.unit == r.unit
    && r.sha == p.target && r.evidence.value.sha == p.target
  }

  function ApplyVerdict(p: Packet, r: SliceResult, handoff: Handoff): Applied {
    if !Matches(p, r) then Raise
    else if r.outcome.REJECTED? then Reject(p, RejectUnsupported)
    else if r.outcome.FINDING? && r.findings == [] then Reject(p, RejectWithoutPayload)
    else if r.outcome.PASS? && r.findings != [] then Reject(p, RejectPassWithFindings)
    else if r.outcome.FINDING? && (!FreshIds(p, r.findings) || handoff.HandoffFailed?) then Raise
    else if r.outcome.FINDING? && handoff.HandoffLost? then Abandon
    else Commit(p.(findings := p.findings + r.findings, completed := p.completed[KeyOf(p, r.unit) := r],
                   status := SliceComplete, unit := None, claim := None, next := RunNext,
                   session := if p.session.TIMEDOUT? then ACTIVE else p.session))
  }

  /** `_apply_slice_result` under the call's own claim. */
  function Apply(p: Packet, r: SliceResult, handoff: Handoff): Applied {
    if !Canonical(r, p.unit, p.target) then Invalid
    else
      match r.outcome
      case TIMEOUT =>
          Commit(WithClaimState(p.(status := InSlice, session := TIMEDOUT, next := ResumeUnit(r.unit)), TimedOut))
      case AWAITING => Commit(WithClaimState(p.(status := Awaiting, next := SupplyEvidence(r.unit)), AwaitingEvidence))
      case _ =>
        if r.evidence.None? || !r.evidence.value.passable then Reject(p, RejectIncomplete(r.unit))
        else ApplyVerdict(p, r, handoff)
  }

  // ---- Reconciling an exception --------------------------------------------------------------

  /** `:u` ends in `:v`, as text. */
  predicate EndsIn(u: Unit, v: Unit) {
    u == v || (u.Other? && u.suffix == Some(v))
  }

  predicate NamesUnit(next: NextAction, unit: Unit) {
    match next
    case CompleteOrResume(u) => EndsIn(u, unit)
    case ResumeUnit(u) => EndsIn(u, unit)
    case SupplyEvidence(u) => EndsIn(u, unit)
    case RejectIncomplete(u) => EndsIn(u, unit)
    case HumanRequired(u) => EndsIn(u, unit)
    case _ => false
  }

  /** `_replay_committed_noncompletion` recognises a committed result. */
  predicate Replayed(p: Packet, id: int, unit: Unit) {
    || (p.status.InSlice? && p.session.TIMEDOUT? && p.unit == Some(unit) && OwnClaim(p, id, unit, TimedOut))
    || (p.status.Awaiting? && p.unit == Some(unit) && OwnClaim(p, id, unit, AwaitingEvidence))
    || (p.status.FailedClosed? && p.claim.None? && p.unit == Some(unit)
        && (NamesUnit(p.next, unit) || p.next.RejectWithoutPayload? || p.next.RejectPassWithFindings?))
  }

  predicate OwnClaim(p: Packet, id: int, unit: Unit, state: ClaimState) {
    p.claim.Some? && p.claim.value.id == id && p.claim.value.state == state && p.claim.value.unit == unit
  }

  predicate Holds(p: Packet, id: int) { p.claim.Some? && p.claim.value.id == id }

  datatype Reconciled = Replay | Lost | Fail(draft: Packet)

  function Reconcile(p: Packet, id: int, unit: Unit): Reconciled {
    if IsDone(p, unit) || Replayed(p, id, unit) then Replay
    else if !Holds(p, id) then Lost
    else Fail(FailDraft(p, unit))
  }

  /** `run_slice` reconciles a failed result twice: first under the unit the failure names, and, if
      that raises too, under the unit the call claimed. `Fails` stores the failed claim. */
  datatype Settled = Replays | Fails(draft: Packet) | Raises

  function Once(p: Packet, id: int, unit: Unit): Settled {
    match Reconcile(p, id, unit)
    case Replay => Replays
    case Lost => Raises
    case Fail(q) => if Accepts(q) then Fails(q) else Raises
  }

  function Twice(p: Packet, id: int, named: Unit, claimed: Unit): Settled {
    if Once(p, id, named).Raises? then Once(p, id, claimed) else Once(p, id, named)
  }
}
