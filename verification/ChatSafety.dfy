/** What every step of every controller keeps. */
module ChatSafety {
  import opened Common
  import opened ChatPacket
  import opened ChatGate
  import opened ChatRuns

  // ---- One save ---------------------------------------------------------------------------

  predicate Kept(p: Packet, q: Packet) {
    p.target == q.target ==> forall k | k in p.completed :: k in q.completed && q.completed[k] == p.completed[k]
  }

  /** What may happen to slice claims and completed units when `writer` stores q over p at `now`. */
  predicate SafeSave(p: Packet, q: Packet, writer: int, now: Time) {
    && Kept(p, q)
    && (q.claim.Some? ==> q.claim.value.id == writer || Holds(p, q.claim.value.id))
    && (p.target == q.target && q.completed != p.completed ==> Holds(p, writer))
    && (p.claim.Some? && p.claim.value.state.Executing? && q.claim != p.claim ==>
          && (q.claim.Some? ==> q.claim.value.id == p.claim.value.id && !q.claim.value.state.Executing?)
          && (p.claim.value.id == writer || now - p.claim.value.claimedAt >= LEASE
              || (q.target != p.target && now < p.claim.value.claimedAt)))
  }

  /** The planned save is safe, and the gate refuses it only for a head that is already audited. */
  ghost predicate PlanOk(p: Packet, head: Sha, id: int, now: Time, plan: Plan) {
    !plan.Refuse? ==>
      && (now >= 0 ==> (Accepts(plan.packet) <==> p.target == head || p.lastAudited != Some(head)))
      && (Accepts(plan.packet) ==> Sound(plan.packet))
      && SaveOk(p, plan.packet, id, now)
  }

  /** The last audited head changes only when the current one has passed in every unit. */
  ghost predicate PromotesOnly(p: Packet, q: Packet) {
    q.lastAudited != p.lastAudited ==> q.lastAudited == Some(q.target) && AllDone(q) && !HasFindingUnit(q)
  }

  ghost predicate SaveOk(p: Packet, q: Packet, id: int, now: Time) {
    SafeSave(p, q, id, now) && PromotesOnly(p, q) && q.release == p.release && Rotates(p, q)
  }

  /** Moving to another head starts afresh, one unit further on; nothing else moves the start. */
  predicate Rotates(p: Packet, q: Packet) {
    if q.target == p.target then q.fairStart == p.fairStart
    else q.fairStart == (p.fairStart + 1) % |Queue(p.release)| && q.completed == map[]
  }

  lemma PlanDelta(p: Packet, head: Sha, id: int, now: Time)
    requires Sound(p) && p.target != head && !(p.status.InSlice? && p.claim.Some? && GenuinelyLive(p.claim.value, now))
    ensures SaveOk(p, StartDelta(p, head), id, now)
  {
  }

  lemma PlanClaimOk(p: Packet, head: Sha, id: int, now: Time)
    requires Sound(p) && !Audited(p) && p.target == head && SelectNext(p).Some?
    requires p.claim.Some? ==> !p.claim.value.state.Executing?
    ensures PlanOk(p, head, id, now, PlanClaim(p, SelectNext(p).value, id, now))
  {
    SelectNextFinds(p);
    if now >= 0 {
      ClaimSound(p, id, now);
    }
  }

  lemma PlanReclaim(p: Packet, head: Sha, id: int, now: Time)
    requires Sound(p) && !Audited(p) && p.target == head && p.claim.Some?
    requires p.claim.value.state.Executing? ==> now - p.claim.value.claimedAt >= LEASE
    ensures PlanOk(p, head, id, now, Continue(WithClaimState(p, TimedOut)))
  {
    ClaimStateSound(p, TimedOut);
  }

  lemma PlanFinish(p: Packet, head: Sha, id: int, now: Time)
    requires Sound(p) && !Audited(p) && p.target == head && SelectNext(p).None?
    ensures PlanOk(p, head, id, now, End(Finalize(p)))
  {
    FinalizeSound(p);
    SameUnits(p, Finalize(p));
    SelectNextFinds(p);
  }

  lemma PlanAudited(p: Packet, head: Sha, id: int, now: Time, explicitPass: bool)
    requires Sound(p) && Audited(p) && p.target == head
    ensures PlanOk(p, head, id, now, End(NoChange(p, explicitPass)))
  {
    NoChangeSound(p, explicitPass);
  }

  /** Every save that a call plans is safe, and the gate refuses it exactly for a head that is
      already audited. */
  lemma PlanSound(p: Packet, head: Sha, id: int, now: Time, explicitPass: bool)
    requires Sound(p)
    ensures PlanOk(p, head, id, now, PlanStep(p, head, id, now, explicitPass))
  {
    if p.target != head {
      DeltaAccepted(p, head);
      if !PlanStep(p, head, id, now, explicitPass).Refuse? {
        PlanDelta(p, head, id, now);
      }
    } else if Audited(p) {
      PlanAudited(p, head, id, now, explicitPass);
    } else if p.status.InSlice? {
      if p.claim.value.state.TimedOut? || p.claim.value.state.AwaitingEvidence? {
        PlanClaimOk(p, head, id, now);
      } else if !PlanStep(p, head, id, now, explicitPass).Refuse? {
        PlanReclaim(p, head, id, now);
      }
    } else if SelectNext(p).None? {
      PlanFinish(p, head, id, now);
    } else {
      PlanClaimOk(p, head, id, now);
    }
  }

  // ---- Results and failures -----------------------------------------------------------------

  /** A committed result that still holds its claim is one that reconciliation recognises. */
  predicate Recognisable(q: Packet, id: int) {
    Holds(q, id) ==> Replayed(q, id, q.claim.value.unit)
  }

  ghost predicate ResultOk(p: Packet, q: Packet, id: int) {
    Sound(q) && SaveOk(p, q, id, 0) && Recognisable(q, id)
  }

  lemma ApplySafe(p: Packet, id: int, r: SliceResult, handoff: Handoff)
    requires Sound(p) && Holds(p, id) && Apply(p, r, handoff).Commit? && !IsDone(p, p.unit.value)
    ensures ResultOk(p, Apply(p, r, handoff).draft, id)
  {
    ApplySound(p, r, handoff);
    ApplyShape(p, r, handoff);
    ApplyRecognisable(p, id, r, handoff);
  }

  lemma ApplyRecognisable(p: Packet, id: int, r: SliceResult, handoff: Handoff)
    requires p.claim.Some? && p.unit == Some(p.claim.value.unit) && Holds(p, id) && Apply(p, r, handoff).Commit?
    ensures Recognisable(Apply(p, r, handoff).draft, id)
  {
  }

  ghost predicate FailOk(p: Packet, q: Packet, id: int) {
    Sound(q) && SaveOk(p, q, id, 0)
  }

  lemma FailSafe(p: Packet, id: int, unit: Unit)
    requires Sound(p) && Holds(p, id) && Accepts(FailDraft(p, unit))
    ensures FailOk(p, FailDraft(p, unit), id) && unit == p.claim.value.unit
  {
    FailDraftAccepted(p, unit);
  }

  // ---- The world and one call ---------------------------------------------------------------

  ghost predicate WorldOk(w: World) {
    w.packet.Some? ==> Sound(w.packet.value)
  }

  ghost predicate Fresh(w: World, id: int) {
    !(w.packet.Some? && Holds(w.packet.value, id)) && id !in w.committed && id !in w.failed
  }

  ghost predicate CallOk(w: World, id: int, c: Call) {
    match c.pc
    case Load => Fresh(w, id)
    case Planning(base, v) => Fresh(w, id) && v <= w.version && (v == w.version ==> base == w.packet)
                              && (base.Some? ==> Sound(base.value) && !Holds(base.value, id))
    case Running(_) => id !in w.committed && id !in w.failed
    case LoadForResult(_, _) => id !in w.committed && id !in w.failed
    case SaveResult(_, q, v, _) =>
      && id !in w.committed && id !in w.failed && v <= w.version && Recognisable(q, id)
      && (v == w.version ==>
            w.packet.Some? && Holds(w.packet.value, id) && ResultOk(w.packet.value, q, id))
    case LoadForReconcile(_, _) => true
    case SaveFailed(unit, q, v, _) =>
      && v <= w.version && Holds(q, id) && q.claim.value.state.Failed?
      && (v == w.version ==>
            w.packet.Some? && Reconcile(w.packet.value, id, unit) == Fail(q))
    case Ended => true
  }

  predicate FirstStored(q: Packet) { q.claim.None? && q.lastAudited.None? && q.fairStart == 0 }

  /** What one step of call `id` at `now` does to the world. */
  ghost predicate StepSafe(a: World, b: World, id: int, now: Time) {
    && a.version <= b.version && (b.version == a.version ==> b.packet == a.packet)
    && (b.version != a.version ==>
          b.packet.Some? && (a.packet.Some? ==> SaveOk(a.packet.value, b.packet.value, id, now)))
    && (a.packet.None? && b.packet.Some? ==> FirstStored(b.packet.value))
    && a.committed <= b.committed <= a.committed + {id} && a.failed <= b.failed <= a.failed + {id}
  }

  ghost predicate Good(w: World, id: int, now: Time, m: Move) {
    WorldOk(m.world) && CallOk(m.world, id, m.call) && StepSafe(w, m.world, id, now)
  }

  /** What a call may store over a packet, or may find stored. */
  ghost predicate Storable(w: World, q: Packet, id: int, now: Time) {
    Sound(q) && (if w.packet.Some? then SaveOk(w.packet.value, q, id, now) else FirstStored(q))
  }

  /** One save of a packet that is fit to be stored if the base still stands. */
  lemma SaveIsSafe(cfg: Config, w: World, version: int, q: Packet, id: int, x: Input)
    requires WorldOk(w) && version <= w.version && (version == w.version && Accepts(q) ==> Storable(w, q, id, x.now))
    ensures WorldOk(Save(cfg, w, version, q, x).world) && StepSafe(w, Save(cfg, w, version, q, x).world, id, x.now)
    ensures Save(cfg, w, version, q, x).there ==> Save(cfg, w, version, q, x).world.packet == Some(q) && Sound(q)
    ensures Save(cfg, w, version, q, x).world.committed == w.committed
      && Save(cfg, w, version, q, x).world.failed == w.failed
  {
  }

  lemma PlanStorable(w: World, id: int, c: Call, base: Option<Packet>, x: Input)
    requires WorldOk(w) && base == w.packet && !PlanFor(c, base, id, x).Refuse?
      && Accepts(PlanFor(c, base, id, x).packet)
    ensures Storable(w, PlanFor(c, base, id, x).packet, id, x.now)
  {
    if base.Some? {
      PlanSound(base.value, c.head, id, x.now, x.explicitPass);
    } else {
      InitialSound(c.head, c.release);
    }
  }

  lemma DoPlanGood(cfg: Config, w: World, id: int, c: Call, base: Option<Packet>, version: int, x: Input)
    requires WorldOk(w) && CallOk(w, id, c) && c.pc == Planning(base, version)
    ensures Good(w, id, x.now, DoPlan(cfg, w, id, c, base, version, x))
  {
    var plan := PlanFor(c, base, id, x);
    if !plan.Refuse? {
      if version == w.version && Accepts(plan.packet) {
        PlanStorable(w, id, c, base, x);
      }
      SaveIsSafe(cfg, w, version, plan.packet, id, x);
      PlannedCall(cfg, w, id, c, base, version, x);
    }
  }

  /** After a planned save that is there, the call knows the packet, and its claim is its own. */
  lemma PlannedCall(cfg: Config, w: World, id: int, c: Call, base: Option<Packet>, version: int, x: Input)
    requires CallOk(w, id, c) && c.pc == Planning(base, version) && !PlanFor(c, base, id, x).Refuse?
    requires var s := Save(cfg, w, version, PlanFor(c, base, id, x).packet, x);
             s.there ==> s.world.packet == Some(PlanFor(c, base, id, x).packet) && Sound(PlanFor(c, base, id, x).packet)
    ensures CallOk(DoPlan(cfg, w, id, c, base, version, x).world, id, DoPlan(cfg, w, id, c, base, version, x).call)
  {
    PlanClaims(c, base, id, x);
  }

  /** Only the last save before the executor brings a claim of the call's own. */
  lemma PlanClaims(c: Call, base: Option<Packet>, id: int, x: Input)
    requires base.Some? ==> !Holds(base.value, id)
    ensures PlanFor(c, base, id, x).Continue? ==> !Holds(PlanFor(c, base, id, x).packet, id)
    ensures PlanFor(c, base, id, x).Execute? ==> Holds(PlanFor(c, base, id, x).packet, id)
  {
  }

  lemma DoSaveResultGood(cfg: Config, w: World, id: int, c: Call, unit: Unit, q: Packet, version: int, claimed: Unit,
      x: Input)
    requires WorldOk(w) && CallOk(w, id, c) && c.pc == SaveResult(unit, q, version, claimed)
    ensures Good(w, id, x.now, DoSaveResult(cfg, w, id, c, unit, q, version, claimed, x))
  {
    if version == w.version {
      OwnSave(w.packet.value, q, id, x.now);
    }
    SaveIsSafe(cfg, w, version, q, id, x);
  }

  /** The clock matters only to those who store over another call's claim. */
  lemma OwnSave(p: Packet, q: Packet, id: int, now: Time)
    requires SaveOk(p, q, id, 0) && Holds(p, id)
    ensures SaveOk(p, q, id, now)
  {
  }

  lemma DoSaveFailedGood(cfg: Config, w: World, id: int, c: Call, unit: Unit, q: Packet, version: int,
      again: Option<Unit>, x: Input)
    requires WorldOk(w) && CallOk(w, id, c) && c.pc == SaveFailed(unit, q, version, again)
    ensures Good(w, id, x.now, DoSaveFailed(cfg, w, id, c, q, version, again, x))
  {
    if version == w.version && Accepts(q) {
      FailSafe(w.packet.value, id, unit);
      OwnSave(w.packet.value, q, id, x.now);
    }
    SaveIsSafe(cfg, w, version, q, id, x);
  }

  lemma DoLoadForResultGood(w: World, id: int, c: Call, unit: Unit, r: SliceResult, x: Input)
    requires WorldOk(w) && CallOk(w, id, c) && c.pc == LoadForResult(unit, r)
    ensures CallOk(w, id, DoLoadForResult(w, id, c, unit, r, x))
  {
    if w.packet.Some? && Holds(w.packet.value, id) && Apply(w.packet.value, r, x.handoff).Commit? {
      SelectNextFinds(w.packet.value);
      ApplySafe(w.packet.value, id, r, x.handoff);
    }
  }

  lemma StepGood(cfg: Config, w: World, id: int, c: Call, x: Input)
    requires WorldOk(w) && CallOk(w, id, c)
    ensures Good(w, id, x.now, Step(cfg, w, id, c, x))
  {
    match c.pc
    case Planning(base, version) => DoPlanGood(cfg, w, id, c, base, version, x);
    case SaveResult(unit, q, version, claimed) => DoSaveResultGood(cfg, w, id, c, unit, q, version, claimed, x);
    case SaveFailed(unit, q, version, again) => DoSaveFailedGood(cfg, w, id, c, unit, q, version, again, x);
    case LoadForResult(unit, r) => DoLoadForResultGood(w, id, c, unit, r, x);
    case _ => ReadingGood(cfg, w, id, c, x);
  }

  lemma ReadingGood(cfg: Config, w: World, id: int, c: Call, x: Input)
    requires WorldOk(w) && CallOk(w, id, c) && (c.pc.Load? || c.pc.Running? || c.pc.LoadForReconcile? || c.pc.Ended?)
    ensures Good(w, id, x.now, Step(cfg, w, id, c, x))
  {
  }

  /** Enough for every other call: no version is reused and only claim `id` may appear. */
  ghost predicate Moved(a: World, b: World, id: int) {
    && a.version <= b.version && (b.version == a.version ==> b.packet == a.packet)
    && (b.packet.Some? && b.packet.value.claim.Some? ==>
          b.packet.value.claim.value.id == id
              || (a.packet.Some? && Holds(a.packet.value, b.packet.value.claim.value.id)))
    && a.committed <= b.committed <= a.committed + {id} && a.failed <= b.failed <= a.failed + {id}
  }

  lemma OtherCallOk(a: World, b: World, id: int, other: int, c: Call)
    requires Moved(a, b, id) && other != id && CallOk(a, other, c)
    ensures CallOk(b, other, c)
  {
  }
}
