/** What happens to a result whose save raised: replayed, lost, or failed. */
module ChatReconcile {
  import opened Common
  import opened ChatPacket
  import opened ChatGate
  import opened ChatRuns
  import opened ChatSafety
  import opened ChatTheorems

  // ---- One call -----------------------------------------------------------------------------

  /** A rejection that the executor returned together with passable evidence. */
  predicate RejectedPassable(r: SliceResult) {
    r.outcome.REJECTED? && r.evidence.Some? && r.evidence.value.passable
  }

  lemma CommittedOnce(p: Packet, id: int, r: SliceResult, handoff: Handoff, unit: Unit)
    requires p.claim.Some? && p.unit == Some(p.claim.value.unit) && Holds(p, id)
    requires Apply(p, r, handoff).Commit? && !Apply(p, r, handoff).draft.status.SliceComplete?
    ensures Replayed(Apply(p, r, handoff).draft, id, unit)
       <==> unit == p.claim.value.unit
            && (r.outcome.TIMEOUT? || r.outcome.AWAITING? || (EndsIn(r.unit, unit) && !RejectedPassable(r)))
  {
  }

  /** A committed result whose save then raised comes back as a replay, exactly unless it was a
      rejection with passable evidence, or one that named another unit, unfinished and not ending in
      the claimed one's name. */
  lemma CommittedComesBack(p: Packet, id: int, r: SliceResult, handoff: Handoff)
    requires Sound(p) && Holds(p, id) && Apply(p, r, handoff).Commit?
    ensures Twice(Apply(p, r, handoff).draft, id, r.unit, p.claim.value.unit).Replays?
       <==> IsDone(Apply(p, r, handoff).draft, r.unit) || r.outcome.TIMEOUT? || r.outcome.AWAITING?
            || (EndsIn(r.unit, p.claim.value.unit) && !RejectedPassable(r))
  {
    ApplyShape(p, r, handoff);
    SelectNextFinds(p);
    var q := Apply(p, r, handoff).draft;
    if !q.status.SliceComplete? {
      CommittedOnce(p, id, r, handoff, r.unit);
      CommittedOnce(p, id, r, handoff, p.claim.value.unit);
      NamedElsewhere(p, q, id, r);
    }
  }

  /** Under a unit that is not the claimed one, reconciliation never stores anything. */
  lemma NamedElsewhere(p: Packet, q: Packet, id: int, r: SliceResult)
    requires Sound(p) && Holds(p, id) && Undecided(p, q)
    ensures q.completed == p.completed && !IsDone(q, p.claim.value.unit)
    ensures r.unit != p.claim.value.unit ==> !Once(q, id, r.unit).Fails?
  {
    SelectNextFinds(p);
    UndecidedSound(p, q);
    if Holds(q, id) {
      FailDraftAccepted(q, r.unit);
    }
  }

  /** And it is never stored as a failed claim, in either reconciliation. */
  lemma CommittedIsNotFailed(p: Packet, id: int, r: SliceResult, handoff: Handoff)
    requires Sound(p) && Holds(p, id) && Apply(p, r, handoff).Commit?
    ensures !Twice(Apply(p, r, handoff).draft, id, r.unit, p.claim.value.unit).Fails?
  {
    var q := Apply(p, r, handoff).draft;
    ApplyRecognisable(p, id, r, handoff);
    ApplySound(p, r, handoff);
    if Holds(q, id) {
      FailDraftAccepted(q, r.unit);
    }
  }

  /** A result that did not commit leaves the call's own executing claim, which fails closed at once
      whatever unit the result named, exactly unless that unit is already finished: then the finished
      unit's outcome is reported as a replay and the claim is left to its lease. */
  lemma UncommittedFailsClosed(p: Packet, id: int, named: Unit)
    requires Sound(p) && Holds(p, id) && p.claim.value.state.Executing?
    ensures Twice(p, id, named, p.claim.value.unit).Fails? <==> !IsDone(p, named)
    ensures IsDone(p, named) ==> Twice(p, id, named, p.claim.value.unit).Replays?
    ensures Twice(p, id, named, p.claim.value.unit).Fails? ==>
              OwnClaim(Twice(p, id, named, p.claim.value.unit).draft, id, p.claim.value.unit, Failed)
  {
    ClaimedIsUnfinished(p);
    UncommittedOnce(p, id, named);
    UncommittedOnce(p, id, p.claim.value.unit);
    FailedClaim(p, id);
  }

  lemma ClaimedIsUnfinished(p: Packet)
    requires Sound(p) && p.claim.Some?
    ensures !IsDone(p, p.claim.value.unit)
  {
    SelectNextFinds(p);
  }

  lemma UncommittedOnce(p: Packet, id: int, unit: Unit)
    requires Sound(p) && Holds(p, id) && p.claim.value.state.Executing?
    ensures Once(p, id, unit) ==
            if IsDone(p, unit) then Replays
            else if unit == p.claim.value.unit then Fails(FailDraft(p, unit))
            else Raises
  {
    NotReplayed(p, id, unit);
    FailDraftAccepted(p, unit);
  }

  lemma NotReplayed(p: Packet, id: int, unit: Unit)
    requires Sound(p) && Holds(p, id) && p.claim.value.state.Executing?
    ensures !Replayed(p, id, unit)
  {
  }

  lemma FailedClaim(p: Packet, id: int)
    requires Holds(p, id)
    ensures OwnClaim(FailDraft(p, p.claim.value.unit), id, p.claim.value.unit, Failed)
  {
  }

  // ---- The steps of a call --------------------------------------------------------------------

  /** Some steps of a call with nobody else about. */
  function Undisturbed(cfg: Config, w: World, id: int, c: Call, x: Input, n: nat): Move
    decreases n
  {
    if n == 0 then Move(w, c) else var m := Step(cfg, w, id, c, x); Undisturbed(cfg, m.world, id, m.call, x, n - 1)
  }

  lemma EndedStays(cfg: Config, w: World, id: int, c: Call, x: Input, n: nat)
    requires c.pc.Ended?
    ensures Undisturbed(cfg, w, id, c, x, n) == Move(w, c)
    decreases n
  {
  }

  lemma ReloadStep(cfg: Config, w: World, id: int, c: Call, unit: Unit, again: Option<Unit>, x: Input)
    requires c.pc == LoadForReconcile(unit, again) && w.packet.Some? && AcceptsAt(w.packet.value, x.now)
    ensures Step(cfg, w, id, c, x)
         == Move(w, c.(pc := match Reconcile(w.packet.value, id, unit)
                             case Replay => Ended
                             case Lost => Raised(again)
                             case Fail(q) => SaveFailed(unit, q, w.version, again)))
  {
  }

  lemma SaveFailedStep(cfg: Config, w: World, id: int, c: Call, unit: Unit, again: Option<Unit>, x: Input)
    requires w.packet.Some? && AcceptsAt(w.packet.value, x.now) && x.fault.NoFault?
    requires c.pc == SaveFailed(unit, FailDraft(w.packet.value, unit), w.version, again) && w.packet.value.claim.Some?
    ensures var q := FailDraft(w.packet.value, unit);
            Step(cfg, w, id, c, x)
              == if Accepts(q) then Move(Replace(w, q).(failed := w.failed + {id}), c.(pc := Ended))
                 else Move(w, c.(pc := Raised(again)))
  {
  }

  /** A reconciliation under one unit: two steps, or one if it stores nothing. */
  lemma OnceSteps(cfg: Config, w: World, id: int, c: Call, unit: Unit, again: Option<Unit>, x: Input)
    requires c.pc == LoadForReconcile(unit, again) && w.packet.Some? && AcceptsAt(w.packet.value, x.now)
      && x.fault.NoFault?
    ensures var p := w.packet.value;
            match Once(p, id, unit)
            case Replays => Undisturbed(cfg, w, id, c, x, 1) == Move(w, c.(pc := Ended))
            case Fails(q) =>
                Undisturbed(cfg, w, id, c, x, 2) == Move(Replace(w, q).(failed := w.failed + {id}), c.(pc := Ended))
            case Raises =>
                Undisturbed(cfg, w, id, c, x, if Holds(p, id) then 2 else 1) == Move(w, c.(pc := Raised(again)))
  {
    var first := Step(cfg, w, id, c, x);
    assert Undisturbed(cfg, w, id, c, x, 1) == Undisturbed(cfg, first.world, id, first.call, x, 0);
    assert Undisturbed(cfg, w, id, c, x, 2) == Undisturbed(cfg, first.world, id, first.call, x, 1);
    ReloadStep(cfg, w, id, c, unit, again, x);
    if first.call.pc.SaveFailed? {
      SaveFailedStep(cfg, w, id, first.call, unit, again, x);
      var second := Step(cfg, first.world, id, first.call, x);
      assert Undisturbed(cfg, first.world, id, first.call, x, 1)
          == Undisturbed(cfg, second.world, id, second.call, x, 0);
    }
  }

  lemma MoreSteps(cfg: Config, w: World, id: int, c: Call, x: Input, n: nat, m: nat)
    ensures Undisturbed(cfg, w, id, c, x, n + m)
         == Undisturbed(cfg, Undisturbed(cfg, w, id, c, x, n).world, id, Undisturbed(cfg, w, id, c, x, n).call, x, m)
    decreases n
  {
    if n > 0 {
      var s := Step(cfg, w, id, c, x);
      MoreSteps(cfg, s.world, id, s.call, x, n - 1, m);
    }
  }

  /** The call's own steps do what `Twice` says: four of them at most end it, and what they store is
      the failed claim or nothing. */
  lemma StepsReconcileTwice(cfg: Config, w: World, id: int, c: Call, named: Unit, claimed: Unit, x: Input)
    requires c.pc == LoadForReconcile(named, Some(claimed)) && w.packet.Some? && AcceptsAt(w.packet.value, x.now)
      && x.fault.NoFault?
    ensures var settled := Twice(w.packet.value, id, named, claimed);
            Undisturbed(cfg, w, id, c, x, 4)
              == Move(if settled.Fails? then Replace(w, settled.draft).(failed := w.failed + {id})
                  else w, c.(pc := Ended))
  {
    OnceSteps(cfg, w, id, c, named, Some(claimed), x);
    var used := if Once(w.packet.value, id, named).Replays? then 1
                else if Once(w.packet.value, id, named).Fails? || Holds(w.packet.value, id) then 2 else 1;
    var m := Undisturbed(cfg, w, id, c, x, used);
    MoreSteps(cfg, w, id, c, x, used, 4 - used);
    if m.call.pc.Ended? {
      EndedStays(cfg, m.world, id, m.call, x, 4 - used);
    } else {
      OnceSteps(cfg, w, id, m.call, claimed, None, x);
      var more := if Once(w.packet.value, id, claimed).Replays? then 1
                  else if Once(w.packet.value, id, claimed).Fails? || Holds(w.packet.value, id) then 2 else 1;
      var last := Undisturbed(cfg, m.world, id, m.call, x, more);
      MoreSteps(cfg, m.world, id, m.call, x, more, 4 - used - more);
      EndedStays(cfg, last.world, id, last.call, x, 4 - used - more);
    }
  }

  // ---- Every run ------------------------------------------------------------------------

  ghost predicate Recognised(w: World) {
    && (w.packet.Some? && w.packet.value.claim.Some? && w.packet.value.claim.value.id in w.committed ==>
          Replayed(w.packet.value, w.packet.value.claim.value.id, w.packet.value.claim.value.unit))
    && w.committed !! w.failed
  }

  /** A plan replaces a claim by its own, drops it, or reclaims one that carries no result. */
  predicate Reclaims(p: Packet, q: Packet, id: int) {
    q.claim.Some? ==> q.claim.value.id == id
                      || (p.claim.Some? && q.claim == Some(p.claim.value.(state := TimedOut))
                          && (p.claim.value.state.Executing? || p.claim.value.state.Failed?))
  }

  lemma PlanReclaims(p: Packet, head: Sha, id: int, now: Time, explicitPass: bool)
    requires Sound(p)
    ensures !PlanStep(p, head, id, now, explicitPass).Refuse?
      ==> Reclaims(p, PlanStep(p, head, id, now, explicitPass).packet, id)
  {
  }

  /** Storing a packet over one in which no committed claim is reopened. */
  lemma StoredRecognised(w: World, q: Packet, id: int)
    requires Recognised(w) && w.packet.Some? && id !in w.committed && Reclaims(w.packet.value, q, id)
    ensures Recognised(Replace(w, q))
  {
  }

  lemma PlanKeepsRecognised(cfg: Config, w: World, id: int, c: Call, base: Option<Packet>, version: int, x: Input)
    requires WorldOk(w) && CallOk(w, id, c) && c.pc == Planning(base, version) && Recognised(w)
    ensures Recognised(DoPlan(cfg, w, id, c, base, version, x).world)
  {
    var plan := PlanFor(c, base, id, x);
    if version == w.version && !plan.Refuse? {
      if base.Some? {
        PlanReclaims(base.value, c.head, id, x.now, x.explicitPass);
        StoredRecognised(w, plan.packet, id);
      }
    }
  }

  lemma ResultKeepsRecognised(cfg: Config, w: World, id: int, c: Call, unit: Unit, q: Packet, version: int,
      claimed: Unit, x: Input)
    requires CallOk(w, id, c) && c.pc == SaveResult(unit, q, version, claimed) && Recognised(w)
    ensures Recognised(DoSaveResult(cfg, w, id, c, unit, q, version, claimed, x).world)
  {
  }

  lemma FailureKeepsRecognised(cfg: Config, w: World, id: int, c: Call, unit: Unit, q: Packet, version: int,
      again: Option<Unit>, x: Input)
    requires WorldOk(w) && CallOk(w, id, c) && c.pc == SaveFailed(unit, q, version, again) && Recognised(w)
    ensures Recognised(DoSaveFailed(cfg, w, id, c, q, version, again, x).world)
  {
    if version == w.version && Accepts(q) {
      FailSafe(w.packet.value, id, unit);
    }
  }

  lemma StepKeepsRecognised(cfg: Config, w: World, id: int, c: Call, x: Input)
    requires WorldOk(w) && CallOk(w, id, c) && Recognised(w)
    ensures Recognised(Step(cfg, w, id, c, x).world)
  {
    match c.pc
    case Planning(base, version) => PlanKeepsRecognised(cfg, w, id, c, base, version, x);
    case SaveResult(unit, q, version, claimed) => ResultKeepsRecognised(cfg, w, id, c, unit, q, version, claimed, x);
    case SaveFailed(unit, q, version, again) => FailureKeepsRecognised(cfg, w, id, c, unit, q, version, again, x);
    case _ =>
  }

  lemma {:induction false} RunsKeepRecognised(cfg: Config, events: seq<Event>)
    requires !cfg.operators
    ensures Recognised(Exec(cfg, events).world)
  {
    if events != [] {
      var init := events[..|events| - 1];
      var e := events[|events| - 1];
      RunsKeepRecognised(cfg, init);
      RunsKeepInvariant(cfg, init);
      var s := Exec(cfg, init);
      if e.Run? && e.id in s.calls {
        StepKeepsRecognised(cfg, s.world, e.id, s.calls[e.id], e.x);
      }
    }
  }

  // ---- The operator's part --------------------------------------------------------------------

  lemma Then(cfg: Config, past: seq<Event>, e: Event) returns (events: seq<Event>)
    ensures Exec(cfg, events) == Next(cfg, Exec(cfg, past), e)
  {
    events := past + [e];
    assert events[..|events| - 1] == past;
  }

  const TIMED_OUT := SliceResult(ChangedCode, 7, TIMEOUT, [], None)

  function Plain(fault: Fault): Event { Run(1, Input(0, false, fault, Returned(TIMED_OUT), HandedOff)) }
  function First(): Packet { Initial(7, false) }
  function Claimed(): Packet { ClaimUnit(First(), ChangedCode, 1, 0) }
  function TimeoutStored(): Packet {
    WithClaimState(Claimed().(session := TIMEDOUT, next := ResumeUnit(ChangedCode)), TimedOut)
  }
  function One(pc: Pc): map<int, Call> { map[1 := Call(7, false, pc)] }

  lemma FirstAccepted()
    ensures AcceptsAt(First(), 0) && SelectNext(First()) == Some(ChangedCode)
    ensures AcceptsAt(Claimed(), 0) && AcceptsAt(TimeoutStored(), 0)
    ensures Sound(Claimed()) && Sound(TimeoutStored())
  {
    InitialSound(7, false);
    assert Rotated(First(), 0) == ChangedCode;
    ClaimSound(First(), 1, 0);
    RestatedSound(Claimed(), TimeoutStored());
  }

  lemma CallClaims(cfg: Config) returns (events: seq<Event>)
    ensures Exec(cfg, events) == System(World(Some(Claimed()), 2, {}, {}), One(Pc.Running(ChangedCode)))
  {
    FirstAccepted();
    events := Then(cfg, [], Begin(1, 7, false));
    events := Then(cfg, events, Plain(NoFault));
    assert Exec(cfg, events) == System(INITIAL.world, One(Planning(None, 0)));
    events := Then(cfg, events, Plain(NoFault));
    assert Exec(cfg, events) == System(World(Some(First()), 1, {}, {}), One(Planning(Some(First()), 1)));
    ClaimsStep(cfg);
    events := Then(cfg, events, Plain(NoFault));
  }

  lemma ClaimsStep(cfg: Config)
    ensures Next(cfg, System(World(Some(First()), 1, {}, {}), One(Planning(Some(First()), 1))), Plain(NoFault))
         == System(World(Some(Claimed()), 2, {}, {}), One(Pc.Running(ChangedCode)))
  {
    FirstAccepted();
  }

  /** The first call, with the checkpoint it claimed, standing at pc. */
  function AtClaimed(pc: Pc): System { System(World(Some(Claimed()), 2, {}, {}), One(pc)) }

  lemma ReturnsStep(cfg: Config)
    ensures Next(cfg, AtClaimed(Pc.Running(ChangedCode)), Plain(NoFault))
      == AtClaimed(LoadForResult(ChangedCode, TIMED_OUT))
  {
  }

  lemma AppliesStep(cfg: Config)
    ensures Next(cfg, AtClaimed(LoadForResult(ChangedCode, TIMED_OUT)), Plain(NoFault))
         == AtClaimed(SaveResult(ChangedCode, TimeoutStored(), 2, ChangedCode))
  {
    FirstAccepted();
  }

  lemma StoresStep(cfg: Config)
    ensures Next(cfg, AtClaimed(SaveResult(ChangedCode, TimeoutStored(), 2, ChangedCode)), Plain(After))
         == System(World(Some(TimeoutStored()), 3, {1}, {}), One(LoadForReconcile(ChangedCode, Some(ChangedCode))))
  {
    FirstAccepted();
  }

  lemma CallTimesOut(cfg: Config) returns (events: seq<Event>)
    ensures Exec(cfg, events)
      == System(World(Some(TimeoutStored()), 3, {1}, {}), One(LoadForReconcile(ChangedCode, Some(ChangedCode))))
  {
    events := CallClaims(cfg);
    events := Then(cfg, events, Plain(NoFault));
    ReturnsStep(cfg);
    events := Then(cfg, events, Plain(NoFault));
    AppliesStep(cfg);
    events := Then(cfg, events, Plain(After));
    StoresStep(cfg);
  }

  function Marked(): Packet { TimeoutStored().(session := ACTIVE) }

  /** The first call, with its committed timeout marked, standing at pc. */
  function AtMarked(pc: Pc): System { System(World(Some(Marked()), 4, {1}, {}), One(pc)) }

  lemma MarksStep(cfg: Config)
    requires cfg.operators
    ensures Next(cfg,
      System(World(Some(TimeoutStored()), 3, {1}, {}), One(LoadForReconcile(ChangedCode, Some(ChangedCode)))),
                 MarkSession(7, ACTIVE, 0))
         == AtMarked(LoadForReconcile(ChangedCode, Some(ChangedCode)))
  {
    FirstAccepted();
  }

  lemma MissesStep(cfg: Config)
    ensures Next(cfg, AtMarked(LoadForReconcile(ChangedCode, Some(ChangedCode))), Plain(NoFault))
         == AtMarked(SaveFailed(ChangedCode, FailDraft(Marked(), ChangedCode), 4, Some(ChangedCode)))
  {
    FirstAccepted();
    MarkSound(TimeoutStored(), ACTIVE);
  }

  lemma FailsStep(cfg: Config)
    ensures var failing := SaveFailed(ChangedCode, FailDraft(Marked(), ChangedCode), 4, Some(ChangedCode));
            var w := Next(cfg, AtMarked(failing), Plain(NoFault)).world;
            1 in w.committed && 1 in w.failed
  {
    FirstAccepted();
    MarkSound(TimeoutStored(), ACTIVE);
    FailDraftAccepted(Marked(), ChangedCode);
  }

  /** The timeout was stored; an operator marks the session active; the late reconciliation no
      longer recognises its own result and stores a failure over it. */
  lemma OperatorHidesResult(cfg: Config) returns (events: seq<Event>)
    requires cfg.operators
    ensures 1 in Exec(cfg, events).world.committed && 1 in Exec(cfg, events).world.failed
  {
    events := CallTimesOut(cfg);
    events := Then(cfg, events, MarkSession(7, ACTIVE, 0));
    MarksStep(cfg);
    events := Then(cfg, events, Plain(NoFault));
    MissesStep(cfg);
    events := Then(cfg, events, Plain(NoFault));
    FailsStep(cfg);
  }

  /** In every run no committed result is ever turned into a failed claim, exactly when operators
      issue no session command while calls are in progress. */
  lemma ResultsNeverFail(cfg: Config)
    ensures (forall events :: Exec(cfg, events).world.committed !! Exec(cfg, events).world.failed) <==> !cfg.operators
  {
    if cfg.operators {
      var events := OperatorHidesResult(cfg);
    } else {
      forall events ensures Exec(cfg, events).world.committed !! Exec(cfg, events).world.failed {
        RunsKeepRecognised(cfg, events);
      }
    }
  }
}
