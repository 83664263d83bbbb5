/** The checkpoint store and one controller call over it, as they run: the call is one of the
    protocol's, and other controllers and operators may act between any two store accesses. */
module ChatController {
  import opened Common
  import opened ChatPacket
  import opened ChatRuns
  import opened ChatFirst
  import opened ChatSecond
  import opened ChatGate
  import ChatTheorems

  class CheckpointStore {
    var packet: Option<Packet>
    var version: int
    ghost const shared: bool      // other controllers and operators use the store as well
    ghost var events: seq<Event>

    constructor (ghost shared: bool)
      ensures Valid() && Now() == INITIAL && this.shared == shared
    {
      packet, version, events := None, 0, [];
      this.shared := shared;
    }

    ghost function Settings(): Config { Config(true, false) }

    ghost function Now(): System
      reads this
    {
      Exec(Settings(), events)
    }

    ghost predicate Shows(w: World)
      reads this
    {
      packet == w.packet && version == w.version
    }

    ghost predicate Valid()
      reads this
    {
      Shows(Now().world)
    }

    ghost predicate At(id: int, c: Call)
      reads this
    {
      id in Now().calls && Now().calls[id] == c
    }

    /** Gate, then compare-and-set; `fault` cuts it short before or after the write. */
    method Save(q: Packet, expected: int, now: Time, fault: Fault) returns (how: Saved)
      modifies this`packet, this`version
      ensures how.Stored? <==> AcceptsAt(q, now) && fault.NoFault? && old(version) == expected
      ensures how.Clash? <==> AcceptsAt(q, now) && !fault.Before? && old(version) != expected
      ensures if AcceptsAt(q, now) && !fault.Before? && old(version) == expected
              then packet == Some(q) && version == old(version) + 1
              else packet == old(packet) && version == old(version)
    {
      if !AcceptsAt(q, now) || fault.Before? {
        return Broke;
      }
      if version != expected {
        return Clash;
      }
      packet, version := Some(q), version + 1;
      how := if fault.After? then Broke else Stored;
    }

    ghost method Record(e: Event)
      requires Shows(Next(Settings(), Now(), e).world)
      modifies this`events
      ensures Valid() && Now() == Next(Settings(), old(Now()), e) && events == old(events) + [e]
    {
      events := events + [e];
      assert events[..|events| - 1] == old(events);
    }

    /** Whatever other controllers and operators do meanwhile. */
    method Others(ghost id: int)
      requires Valid()
      modifies this
      ensures Valid() && old(events) <= events
      ensures id in old(Now()).calls ==> At(id, old(Now()).calls[id])
      ensures !shared ==> packet == old(packet) && version == old(version)
    {
    }

    /** Nobody else moves, nothing fails, and the store is as the call has last seen or left it. */
    ghost predicate Undisturbed(x: Input, y: Input) {
      !shared && Plain(x) && Plain(y)
    }

    ghost predicate Quiet(x: Input, base: Option<Packet>, from: int)
      reads this
    {
      !shared && Plain(x) && packet == base && version == from
    }
  }

  ghost predicate Over(store: CheckpointStore, id: int)
    reads store
  {
    id in store.Now().calls && store.Now().calls[id].pc.Ended?
  }

  /** Saves a packet on the way to a claim; afterwards the call goes on from it, or is over. */
  method SaveAndGoOn(store: CheckpointStore, ghost id: int, c: Call, base: Option<Packet>, version: int, q: Packet,
      x: Input)
    returns (ok: bool)
    requires store.Valid() && store.At(id, c.(pc := Planning(base, version))) && PlanFor(c, base, id, x) == Continue(q)
    modifies store
    ensures store.Valid() && old(store.events) <= store.events
    ensures ok ==> store.At(id, c.(pc := Planning(Some(q), version + 1)))
    ensures !ok ==> Over(store, id)
    ensures old(store.Quiet(x, base, version)) ==>
              if AcceptsAt(q, x.now) then ok && store.Quiet(x, Some(q), version + 1)
              else !ok && store.Quiet(x, base, version)
  {
    store.Others(id);
    var how := store.Save(q, version, x.now, x.fault);
    store.Record(Run(id, x));
    ok := how.Stored?;
  }

  /** Up to the executor: initialize, follow HEAD, reclaim, then a verdict or a claim. */
  method ClaimNextUnit(store: CheckpointStore, id: int, c: Call, x: Input) returns (answer: Answer)
    requires store.Valid() && store.At(id, c.(pc := Load))
    modifies store
    ensures store.Valid() && old(store.events) <= store.events
    ensures answer.Claimed? ==> store.At(id, c.(pc := Pc.Running(answer.unit)))
    ensures !answer.Claimed? ==> Over(store, id) && (answer.NothingStored? || answer.Verdict?)
    ensures !store.shared && Plain(x) ==> FirstSection(old(store.packet), store.packet, id, c, x, answer)
  {
    store.Others(id);
    var base, version := store.packet, store.version;
    StoredIsSound(store.events);
    store.Record(Run(id, x));
    if base.Some? && !AcceptsAt(base.value, x.now) {
      return NothingStored;
    }
    if base.None? {
      InitialSound(c.head, c.release);
      var ok := SaveAndGoOn(store, id, c, base, version, Initial(c.head, c.release), x);
      if !ok {
        return NothingStored;
      }
      base, version := Some(Initial(c.head, c.release)), version + 1;
      StoredIsSound(store.events);
    }
    answer := FollowHead(store, id, c, base.value, version, x);
  }

  /** What the first section does to the checkpoint if nobody disturbs it: it initializes an empty one,
      refuses to go on from one the gate does not accept now, and else does what it should. */
  ghost predicate FirstSection(before: Option<Packet>, after: Option<Packet>, id: int, c: Call, x: Input,
      answer: Answer)
  {
    match before
    case None =>
      after.Some? &&
      exists first ::
        Begins(first, c.head, c.release) && Decides(first, after.value, id, x.now, x.explicitPass, answer)
    case Some(p) =>
      if AcceptsAt(p, x.now) then
        after.Some? && FirstDoes(p, after.value, c.head, id, x.now, x.explicitPass, answer)
      else answer.NothingStored? && after == before
  }

  lemma StoredIsSound(events: seq<Event>)
    ensures Exec(Config(true, false), events).world.packet.Some? ==>
              Sound(Exec(Config(true, false), events).world.packet.value)
  {
    ChatTheorems.RunsKeepInvariant(Config(true, false), events);
  }

  /** A checkpoint at another head is rotated to a new delta run, unless its claim is live. */
  method FollowHead(store: CheckpointStore, id: int, c: Call, base: Packet, from: int, x: Input)
      returns (answer: Answer)
    requires store.Valid() && store.At(id, c.(pc := Planning(Some(base), from)))
    modifies store
    ensures store.Valid() && old(store.events) <= store.events
    ensures answer.Claimed? ==> store.At(id, c.(pc := Pc.Running(answer.unit)))
    ensures !answer.Claimed? ==> Over(store, id) && (answer.NothingStored? || answer.Verdict?)
    ensures old(store.Quiet(x, Some(base), from)) && Sound(base) && AcceptsAt(base, x.now) ==>
              store.packet.Some? && FirstDoes(base, store.packet.value, c.head, id, x.now, x.explicitPass, answer)
  {
    if base.target == c.head {
      answer := ResumeOrDecide(store, id, c, base, from, x);
      return;
    }
    if base.status.InSlice? && base.claim.Some? && GenuinelyLive(base.claim.value, x.now) {
      store.Record(Run(id, x));
      return NothingStored;
    }
    answer := Rotate(store, id, c, base, from, x);
  }

  /** A new delta run on the call's head, and on from there. */
  method Rotate(store: CheckpointStore, id: int, c: Call, base: Packet, from: int, x: Input) returns (answer: Answer)
    requires store.Valid() && store.At(id, c.(pc := Planning(Some(base), from))) && base.target != c.head
    requires PlanStep(base, c.head, id, x.now, x.explicitPass) == Continue(StartDelta(base, c.head))
    modifies store
    ensures store.Valid() && old(store.events) <= store.events
    ensures answer.Claimed? ==> store.At(id, c.(pc := Pc.Running(answer.unit)))
    ensures !answer.Claimed? ==> Over(store, id) && (answer.NothingStored? || answer.Verdict?)
    ensures old(store.Quiet(x, Some(base), from)) && Sound(base) ==>
              store.packet.Some? &&
              if base.lastAudited == Some(c.head) then answer.NothingStored? && store.packet == Some(base)
              else exists anew ::
                     Restarts(base, anew, c.head)
                     && Decides(anew, store.packet.value, id, x.now, x.explicitPass, answer)
  {
    var p := StartDelta(base, c.head);
    if Sound(base) {
      DeltaAccepted(base, c.head);
      DeltaRestarts(base, c.head);
    }
    var ok := SaveAndGoOn(store, id, c, Some(base), from, p, x);
    if !ok {
      return NothingStored;
    }
    answer := ResumeOrDecide(store, id, c, p, from + 1, x);
  }

  /** A held claim refuses the call; an expired or failed one is reclaimed first. */
  method ResumeOrDecide(store: CheckpointStore, id: int, c: Call, base: Packet, from: int, x: Input)
      returns (answer: Answer)
    requires store.Valid() && store.At(id, c.(pc := Planning(Some(base), from))) && base.target == c.head
    modifies store
    ensures store.Valid() && old(store.events) <= store.events
    ensures answer.Claimed? ==> store.At(id, c.(pc := Pc.Running(answer.unit)))
    ensures !answer.Claimed? ==> Over(store, id) && (answer.NothingStored? || answer.Verdict?)
    ensures old(store.Quiet(x, Some(base), from)) && Sound(base) && AcceptsAt(base, x.now) ==>
              store.packet.Some? &&
              if Refused(base, c.head, x.now) then answer.NothingStored? && store.packet == Some(base)
              else Decides(base, store.packet.value, id, x.now, x.explicitPass, answer)
  {
    if !Audited(base) && base.status.InSlice? && base.unit.Some? && base.claim.Some? {
      var claim := base.claim.value;
      if claim.state.Executing? && x.now - claim.claimedAt < LEASE {
        store.Record(Run(id, x));
        return NothingStored;
      }
      if claim.state.Executing? || claim.state.Failed? {
        answer := Reclaim(store, id, c, base, from, x);
        return;
      }
    }
    answer := Decide(store, id, c, base, from, x);
  }

  /** An expired or failed claim is given up before anything else is stored. */
  method Reclaim(store: CheckpointStore, id: int, c: Call, base: Packet, from: int, x: Input) returns (answer: Answer)
    requires store.Valid() && store.At(id, c.(pc := Planning(Some(base), from))) && base.target == c.head
    requires !Audited(base) && base.claim.Some?
    requires PlanStep(base, c.head, id, x.now, x.explicitPass) == Continue(WithClaimState(base, TimedOut))
    modifies store
    ensures store.Valid() && old(store.events) <= store.events
    ensures answer.Claimed? ==> store.At(id, c.(pc := Pc.Running(answer.unit)))
    ensures !answer.Claimed? ==> Over(store, id) && (answer.NothingStored? || answer.Verdict?)
    ensures old(store.Quiet(x, Some(base), from)) && Sound(base) && AcceptsAt(base, x.now) ==>
              store.packet.Some? && Decides(base, store.packet.value, id, x.now, x.explicitPass, answer)
  {
    var p := WithClaimState(base, TimedOut);
    if Sound(base) {
      ClaimStateSound(base, TimedOut);
    }
    var ok := SaveAndGoOn(store, id, c, Some(base), from, p, x);
    if !ok {
      return NothingStored;
    }
    answer := Decide(store, id, c, p, from + 1, x);
    if Sound(base) && store.packet.Some? && Decides(p, store.packet.value, id, x.now, x.explicitPass, answer) {
      SelectNextFinds(base);
      DecidesSame(base, store.packet.value, id, x.now, x.explicitPass, answer);
    }
  }

  /** The last save of the first section: a verdict, a coordination refresh, or the claim. */
  method Decide(store: CheckpointStore, id: int, c: Call, p: Packet, version: int, x: Input) returns (answer: Answer)
    requires store.Valid() && store.At(id, c.(pc := Planning(Some(p), version))) && p.target == c.head
    requires Audited(p) || !(p.status.InSlice? && p.unit.Some? && p.claim.Some?) || p.claim.value.state.TimedOut?
      || p.claim.value.state.AwaitingEvidence?
    modifies store
    ensures store.Valid() && old(store.events) <= store.events
    ensures answer.Claimed? ==> store.At(id, c.(pc := Pc.Running(answer.unit)))
    ensures !answer.Claimed? ==> Over(store, id) && (answer.NothingStored? || answer.Verdict?)
    ensures old(store.Quiet(x, Some(p), version)) && Sound(p) ==>
              store.packet.Some? && Decides(p, store.packet.value, id, x.now, x.explicitPass, answer)
  {
    if Sound(p) && x.now >= 0 {
      Decisions(p, id, x.now, x.explicitPass);
    }
    if Audited(p) {
      answer := Finish(store, id, c, p, version, NoChange(p, x.explicitPass), x);
      return;
    }
    var selected := if p.status.InSlice? && p.unit.Some? && p.claim.Some? then p.unit else SelectNext(p);
    if selected.None? {
      answer := Finish(store, id, c, p, version, Finalize(p), x);
      return;
    }
    if IsDone(p, selected.value) {
      store.Record(Run(id, x));
      return NothingStored;
    }
    answer := SaveClaim(store, id, c, p, version, selected.value, x);
  }

  /** What each of the three decisions stores, and that the gate accepts it. */
  lemma Decisions(p: Packet, id: int, now: Time, explicitPass: bool)
    requires Sound(p) && now >= 0
    ensures Audited(p) ==> Refreshes(p, NoChange(p, explicitPass), explicitPass)
                           && AcceptsAt(NoChange(p, explicitPass), now)
    ensures !Audited(p) && SelectNext(p).None? ==> AllDone(p) && Concludes(p, Finalize(p))
                                                   && AcceptsAt(Finalize(p), now)
    ensures !Audited(p) && SelectNext(p).Some? ==>
              var u := SelectNext(p).value;
              && u in p.queue && !IsDone(p, u) && Leads(p, u) && Claims(p, ClaimUnit(p, u, id, now), u, id, now)
              && AcceptsAt(ClaimUnit(p, u, id, now), now)
  {
    SelectNextFinds(p);
    if Audited(p) {
      NoChangeRefreshes(p, explicitPass);
    } else if SelectNext(p).None? {
      FinalizeConcludes(p);
    } else {
      ClaimClaims(p, id, now);
    }
  }

  method SaveClaim(store: CheckpointStore, id: int, c: Call, p: Packet, version: int, unit: Unit, x: Input)
      returns (answer: Answer)
    requires store.Valid() && store.At(id, c.(pc := Planning(Some(p), version)))
    requires PlanStep(p, c.head, id, x.now, x.explicitPass) == Execute(ClaimUnit(p, unit, id, x.now), unit)
    modifies store
    ensures store.Valid() && old(store.events) <= store.events
    ensures answer == Claimed(unit) ==> store.At(id, c.(pc := Pc.Running(unit)))
    ensures answer == Claimed(unit) || (Over(store, id) && answer.NothingStored?)
    ensures old(store.Quiet(x, Some(p), version)) && AcceptsAt(ClaimUnit(p, unit, id, x.now), x.now) ==>
              answer == Claimed(unit) && store.packet == Some(ClaimUnit(p, unit, id, x.now))
  {
    store.Others(id);
    var how := store.Save(ClaimUnit(p, unit, id, x.now), version, x.now, x.fault);
    store.Record(Run(id, x));
    answer := if how.Stored? then Claimed(unit) else NothingStored;
  }

  method Finish(store: CheckpointStore, ghost id: int, c: Call, p: Packet, version: int, q: Packet, x: Input)
      returns (answer: Answer)
    requires store.Valid() && store.At(id, c.(pc := Planning(Some(p), version)))
      && PlanStep(p, c.head, id, x.now, x.explicitPass) == End(q)
    modifies store
    ensures store.Valid() && old(store.events) <= store.events && Over(store, id)
    ensures answer.NothingStored? || answer.Verdict?
    ensures old(store.Quiet(x, Some(p), version)) && AcceptsAt(q, x.now) ==>
              answer.Verdict? && store.packet == Some(q)
  {
    store.Others(id);
    var how := store.Save(q, version, x.now, x.fault);
    store.Record(Run(id, x));
    answer := if how.Stored? then Verdict else NothingStored;
  }

  /** The second section: what the executor returned is applied to the checkpoint as it is now. Every
      exception but a lost compare-and-set is reconciled, once more if reconciling raises; `y` and `z`
      are what clock and store answer then. */
  method StoreResult(store: CheckpointStore, id: int, c: Call, unit: Unit, x: Input, y: Input, z: Input)
      returns (answer: Answer)
    requires x.execution.Returned? && store.Valid() && store.At(id, c.(pc := LoadForResult(unit, x.execution.result)))
    modifies store
    ensures store.Valid() && old(store.events) <= store.events && Over(store, id)
    ensures answer.ResultStored? ==> id in store.Now().world.committed
    ensures answer.FailureStored? ==> id in store.Now().world.failed
    ensures answer.ResultStored? || answer.ReplayReturned? || answer.FailureStored? || answer.NothingStored?
    ensures store.Undisturbed(x, y) && old(store.packet).Some? && AcceptsAt(old(store.packet).value, x.now)
            && AcceptsAt(old(store.packet).value, y.now) && Holds(old(store.packet).value, id)
            && Ready(old(store.packet).value, unit) ==>
              store.packet.Some? && ResultDoes(old(store.packet).value, store.packet.value, unit, x.execution.result,
                                               x.handoff, answer)
    ensures !store.shared && !(old(store.packet).Some? && Holds(old(store.packet).value, id)) ==>
              answer.NothingStored? && store.packet == old(store.packet)
  {
    store.Others(id);
    var base, version := store.packet, store.version;
    store.Record(Run(id, x));
    if base.None? || !AcceptsAt(base.value, x.now) || !Holds(base.value, id) || IsDone(base.value, unit) {
      if base.Some? && Ready(base.value, unit) {
        ReadyUnit(base.value, unit);
      }
      return NothingStored;
    }
    answer := ApplyResult(store, id, c, base.value, version, unit, x, y, z);
  }

  /** Where the call stands once the result has been applied to the loaded packet. */
  ghost function Applying(p: Packet, version: int, unit: Unit, x: Input): Pc
    requires x.execution.Returned?
  {
    match Apply(p, x.execution.result, x.handoff)
    case Commit(q) => Pc.SaveResult(x.execution.result.unit, q, version, unit)
    case Invalid => LoadForReconcile(if p.unit.Some? then p.unit.value else x.execution.result.unit, Some(unit))
    case Raise => LoadForReconcile(unit, None)
    case Abandon => Pc.Ended
  }

  /** `_apply_slice_result`, and the reconciliation of what it raises. */
  method ApplyResult(store: CheckpointStore, id: int, c: Call, p: Packet, version: int, unit: Unit, x: Input, y: Input,
      z: Input)
      returns (answer: Answer)
    requires x.execution.Returned? && store.Valid() && store.At(id, c.(pc := Applying(p, version, unit, x)))
    modifies store
    ensures store.Valid() && old(store.events) <= store.events && Over(store, id)
    ensures answer.ResultStored? ==> id in store.Now().world.committed
    ensures answer.FailureStored? ==> id in store.Now().world.failed
    ensures answer.ResultStored? || answer.ReplayReturned? || answer.FailureStored? || answer.NothingStored?
    ensures store.Undisturbed(x, y) && old(store.packet) == Some(p) && old(store.version) == version
            && AcceptsAt(p, x.now) && AcceptsAt(p, y.now) && Holds(p, id) && Ready(p, unit) ==>
              store.packet.Some? && ResultDoes(p, store.packet.value, unit, x.execution.result, x.handoff, answer)
  {
    if Ready(p, unit) && AcceptsAt(p, x.now) {
      ReadyUnit(p, unit);
      ApplyYields(p, unit, x.execution.result, x.handoff);
      DraftTimes(p, x.execution.result, x.handoff, x.now);
    }
    var applied := Apply(p, x.execution.result, x.handoff);
    match applied {
      case Abandon =>
        answer := NothingStored;
      case Raise =>
        answer := ReconcileFrom(store, id, c, unit, None, y, z);
      case Invalid =>
        var named := if p.unit.Some? then p.unit.value else x.execution.result.unit;
        answer := ReconcileFrom(store, id, c, named, Some(unit), y, z);
      case Commit(draft) =>
        answer := SaveApplied(store, id, c, draft, version, unit, x, y, z);
    }
  }

  lemma DraftTimes(p: Packet, r: SliceResult, handoff: Handoff, now: Time)
    requires AcceptsAt(p, now) && Apply(p, r, handoff).Commit? ==> Sound(Apply(p, r, handoff).draft)
    ensures AcceptsAt(p, now) && Apply(p, r, handoff).Commit? ==> AcceptsAt(Apply(p, r, handoff).draft, now)
  {
    if AcceptsAt(p, now) && Apply(p, r, handoff).Commit? {
      DraftClaim(p, r, handoff);
    }
  }

  /** A draft's claim is the packet's own, in another state, if it has one. */
  lemma DraftClaim(p: Packet, r: SliceResult, handoff: Handoff)
    requires Apply(p, r, handoff).Commit?
    ensures var c := Apply(p, r, handoff).draft.claim;
            c.Some? ==> p.claim.Some? && c.value.claimedAt == p.claim.value.claimedAt
  {
  }

  /** `_persist_applied_packet`: the save, and the reconciliation of a save that raised. */
  method SaveApplied(store: CheckpointStore, id: int, c: Call, draft: Packet, version: int, unit: Unit, x: Input,
      y: Input, z: Input)
      returns (answer: Answer)
    requires x.execution.Returned? && store.Valid()
    requires store.At(id, c.(pc := Pc.SaveResult(x.execution.result.unit, draft, version, unit)))
    modifies store
    ensures store.Valid() && old(store.events) <= store.events && Over(store, id)
    ensures answer.ResultStored? ==> id in store.Now().world.committed
    ensures answer.FailureStored? ==> id in store.Now().world.failed
    ensures answer.ResultStored? || answer.ReplayReturned? || answer.FailureStored? || answer.NothingStored?
    ensures !store.shared && Plain(x) && old(store.version) == version && AcceptsAt(draft, x.now) ==>
              answer.ResultStored? && store.packet == Some(draft)
  {
    store.Others(id);
    var how := store.Save(draft, version, x.now, x.fault);
    store.Record(Run(id, x));
    if how.Broke? {
      answer := ReconcileFrom(store, id, c, x.execution.result.unit, Some(unit), y, z);
    } else {
      answer := if how.Stored? then ResultStored else NothingStored;
    }
  }

  /** Reconciles under the named unit and, if that raises, under the claimed one. */
  method ReconcileFrom(store: CheckpointStore, id: int, c: Call, unit: Unit, again: Option<Unit>, y: Input,
      z: Input)
      returns (answer: Answer)
    requires store.Valid() && store.At(id, c.(pc := LoadForReconcile(unit, again)))
    modifies store
    ensures store.Valid() && old(store.events) <= store.events && Over(store, id)
    ensures answer.FailureStored? ==> id in store.Now().world.failed
    ensures answer.ReplayReturned? || answer.FailureStored? || answer.NothingStored?
    ensures !store.shared && Plain(y) && old(store.packet).Some?
            && Failable(old(store.packet).value, id, unit, y.now) ==>
              store.packet.Some? && answer.FailureStored?
              && FailsClosed(old(store.packet).value, store.packet.value, unit)
  {
    var raised;
    answer, raised := ReconcileException(store, id, c, unit, again, y);
    if raised && again.Some? {
      answer, raised := ReconcileException(store, id, c, again.value, None, z);
    }
  }

  /** Reloads; replays a committed result, or fails the call's own claim closed, or raises. */
  method ReconcileException(store: CheckpointStore, id: int, c: Call, unit: Unit, again: Option<Unit>, x: Input)
    returns (answer: Answer, raised: bool)
    requires store.Valid() && store.At(id, c.(pc := LoadForReconcile(unit, again)))
    modifies store
    ensures store.Valid() && old(store.events) <= store.events
    ensures if raised then store.At(id, c.(pc := Raised(again))) && answer.NothingStored? else Over(store, id)
    ensures answer.FailureStored? ==> id in store.Now().world.failed
    ensures answer.ReplayReturned? || answer.FailureStored? || answer.NothingStored?
    ensures !store.shared && Plain(x) && old(store.packet).Some?
            && Failable(old(store.packet).value, id, unit, x.now) ==>
              store.packet.Some? && answer.FailureStored? && !raised
              && FailsClosed(old(store.packet).value, store.packet.value, unit)
  {
    store.Others(id);
    var base, version := store.packet, store.version;
    store.Record(Run(id, x));
    if base.None? || !AcceptsAt(base.value, x.now) {
      return NothingStored, true;
    }
    answer, raised := ReconcileLoaded(store, id, c, base.value, version, unit, again, x);
  }

  /** Where the call stands once it has looked at the reloaded packet. */
  ghost function Reconciling(p: Packet, version: int, id: int, unit: Unit, again: Option<Unit>): Pc {
    match Reconcile(p, id, unit)
    case Fail(q) => SaveFailed(unit, q, version, again)
    case Lost => Raised(again)
    case Replay => Pc.Ended
  }

  method ReconcileLoaded(store: CheckpointStore, id: int, c: Call, p: Packet, version: int, unit: Unit,
      again: Option<Unit>, x: Input)
    returns (answer: Answer, raised: bool)
    requires store.Valid() && store.At(id, c.(pc := Reconciling(p, version, id, unit, again)))
    modifies store
    ensures store.Valid() && old(store.events) <= store.events
    ensures if raised then store.At(id, c.(pc := Raised(again))) && answer.NothingStored? else Over(store, id)
    ensures answer.FailureStored? ==> id in store.Now().world.failed
    ensures answer.ReplayReturned? || answer.FailureStored? || answer.NothingStored?
    ensures !store.shared && Plain(x) && old(store.version) == version && Failable(p, id, unit, x.now) ==>
              store.packet.Some? && answer.FailureStored? && !raised && FailsClosed(p, store.packet.value, unit)
  {
    if Failable(p, id, unit, x.now) {
      FailingReconciles(p, id, unit, x.now);
    }
    var reconciled := Reconcile(p, id, unit);
    match reconciled {
      case Replay => return ReplayReturned, false;
      case Lost => return NothingStored, true;
      case Fail(draft) => answer, raised := SaveFailure(store, id, c, unit, draft, version, again, x);
    }
  }

  method SaveFailure(store: CheckpointStore, id: int, c: Call, unit: Unit, draft: Packet, version: int,
      again: Option<Unit>, x: Input)
    returns (answer: Answer, raised: bool)
    requires store.Valid() && store.At(id, c.(pc := SaveFailed(unit, draft, version, again)))
    modifies store
    ensures store.Valid() && old(store.events) <= store.events
    ensures if raised then store.At(id, c.(pc := Raised(again))) && answer.NothingStored? else Over(store, id)
    ensures answer.FailureStored? ==> id in store.Now().world.failed
    ensures answer.FailureStored? || answer.NothingStored?
    ensures !store.shared && Plain(x) && old(store.version) == version && AcceptsAt(draft, x.now) ==>
              answer.FailureStored? && !raised && store.packet == Some(draft)
  {
    store.Others(id);
    var how := store.Save(draft, version, x.now, x.fault);
    store.Record(Run(id, x));
    answer, raised := if how.Stored? then FailureStored else NothingStored, how.Broke?;
  }

  /** One call of `run_slice`: `first` is what clock, refresher and store answer before the
      executor, `second` what executor, handoff and store answer after, `third` and `fourth` what they
      answer to a reconciliation and to its repetition. */
  method RunSlice(store: CheckpointStore, id: int, head: Sha, release: bool, first: Input, second: Input,
      third: Input, fourth: Input)
      returns (answer: Answer)
    requires store.Valid() && id !in store.Now().calls
    modifies store
    ensures store.Valid() && old(store.events) <= store.events && Over(store, id)
    ensures answer.ResultStored? ==> id in store.Now().world.committed
    ensures answer.FailureStored? ==> id in store.Now().world.failed
    ensures !store.shared && Plain(first) && Plain(second) && Plain(third)
            && first.now <= second.now && first.now <= third.now ==>
              exists mid, a ::
                FirstSection(old(store.packet), mid, id, Call(head, release, Load), first, a)
                && SecondSection(mid, store.packet, second, a, answer)
  {
    var c := Call(head, release, Load);
    store.Record(Begin(id, head, release));
    answer := ClaimNextUnit(store, id, c, first);
    ghost var mid, a := store.packet, answer;
    if answer.Claimed? {
      StoredIsSound(store.events);
      ClaimedIsReady(old(store.packet), mid, id, c, first, answer.unit);
      answer := ExecuteSlice(store, id, c, answer.unit, second, third, fourth);
    }
    assert !store.shared && Plain(first) && Plain(second) && Plain(third)
           && first.now <= second.now && first.now <= third.now ==>
             SecondSection(mid, store.packet, second, a, answer);
  }

  /** The executor, and what its result or its exception does. */
  method ExecuteSlice(store: CheckpointStore, id: int, c: Call, unit: Unit, second: Input, third: Input, fourth: Input)
      returns (answer: Answer)
    requires store.Valid() && store.At(id, c.(pc := Pc.Running(unit)))
    modifies store
    ensures store.Valid() && old(store.events) <= store.events && Over(store, id)
    ensures answer.ResultStored? ==> id in store.Now().world.committed
    ensures answer.FailureStored? ==> id in store.Now().world.failed
    ensures store.Undisturbed(second, third) && old(store.packet).Some?
            && Failable(old(store.packet).value, id, unit, second.now)
            && Failable(old(store.packet).value, id, unit, third.now) ==>
              SecondSection(old(store.packet), store.packet, second, Claimed(unit), answer)
  {
    store.Record(Run(id, second));
    if second.execution.Threw? {
      answer := ReconcileFrom(store, id, c, unit, None, third, fourth);
    } else {
      answer := StoreResult(store, id, c, unit, second, third, fourth);
    }
  }

  /** What follows the first section: nothing, unless it claimed a unit; then the result's effect on the
      claim, or, if the executor threw, a failed claim. */
  ghost predicate SecondSection(mid: Option<Packet>, after: Option<Packet>, x: Input, first: Answer, answer: Answer) {
    if !first.Claimed? then answer == first && after == mid
    else
      && mid.Some? && mid.value.claim.Some? && after.Some?
      && match x.execution
         case Threw => answer.FailureStored? && FailsClosed(mid.value, after.value, first.unit)
         case Returned(r) => ResultDoes(mid.value, after.value, first.unit, r, x.handoff, answer)
  }

  lemma ClaimedIsReady(before: Option<Packet>, mid: Option<Packet>, id: int, c: Call, x: Input, unit: Unit)
    requires mid.Some? ==> Sound(mid.value)
    ensures FirstSection(before, mid, id, c, x, Claimed(unit)) ==>
              && mid.Some? && Ready(mid.value, unit) && Holds(mid.value, id)
              && (forall now :: x.now <= now ==> AcceptsAt(mid.value, now))
  {
    if FirstSection(before, mid, id, c, x, Claimed(unit)) {
      SectionClaims(before, mid, id, c, x, unit);
    }
  }

  predicate NewClaim(q: Packet, id: int, unit: Unit, now: Time) {
    q.claim.Some? && q.claim.value == Claim(id, unit, q.claim.value.run, q.claim.value.sha, Executing, now)
  }

  lemma SectionClaims(before: Option<Packet>, mid: Option<Packet>, id: int, c: Call, x: Input, unit: Unit)
    requires FirstSection(before, mid, id, c, x, Claimed(unit))
    ensures mid.Some? && NewClaim(mid.value, id, unit, x.now)
  {
    if before.None? {
      var first :| Begins(first, c.head, c.release)
                   && Decides(first, mid.value, id, x.now, x.explicitPass, Claimed(unit));
      DecidedClaims(first, mid.value, id, x.now, x.explicitPass, unit);
    } else if before.value.target == c.head {
      DecidedClaims(before.value, mid.value, id, x.now, x.explicitPass, unit);
    } else {
      var anew :| Restarts(before.value, anew, c.head)
                  && Decides(anew, mid.value, id, x.now, x.explicitPass, Claimed(unit));
      DecidedClaims(anew, mid.value, id, x.now, x.explicitPass, unit);
    }
  }

  lemma DecidedClaims(p: Packet, q: Packet, id: int, now: Time, explicitPass: bool, unit: Unit)
    requires Decides(p, q, id, now, explicitPass, Claimed(unit))
    ensures NewClaim(q, id, unit, now)
  {
  }
}
