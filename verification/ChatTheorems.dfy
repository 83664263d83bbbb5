/** What holds in every run of the chat-audit supervisor. */
module ChatTheorems {
  import opened Common
  import opened ChatPacket
  import opened ChatGate
  import opened ChatRuns
  import opened ChatSafety

  ghost predicate Invariant(sys: System) {
    && WorldOk(sys.world)
    && (forall id :: id in sys.calls ==> CallOk(sys.world, id, sys.calls[id]))
    && (sys.world.packet.Some? && sys.world.packet.value.claim.Some? ==>
          sys.world.packet.value.claim.value.id in sys.calls)
    && sys.world.committed <= sys.calls.Keys && sys.world.failed <= sys.calls.Keys
  }

  /** An operator changes the session, the next action and at most the claim's state. */
  ghost predicate OperatorSave(p: Packet, q: Packet) {
    && q == p.(session := q.session, next := q.next, claim := q.claim)
    && (q.claim != p.claim ==> p.claim.Some? && q.claim == Some(p.claim.value.(state := TimedOut)))
  }

  lemma MarkOk(p: Packet, state: Session)
    requires Sound(p)
    ensures Sound(Mark(p, state)) && OperatorSave(p, Mark(p, state))
  {
    MarkSound(p, state);
  }

  lemma ResumedOk(p: Packet)
    requires Sound(p)
    ensures Sound(p.(session := RESUMED)) && OperatorSave(p, p.(session := RESUMED))
  {
    RestatedSound(p, p.(session := RESUMED));
  }

  lemma OperatedOk(w: World, e: Event)
    requires WorldOk(w) && Operated(w, e).Some?
    ensures Sound(Operated(w, e).value) && OperatorSave(w.packet.value, Operated(w, e).value)
  {
    if e.MarkSession? {
      MarkOk(w.packet.value, e.state);
    } else {
      ResumedOk(w.packet.value);
    }
  }

  /** The event that the packets before and after are explained by. */
  ghost predicate Explained(a: World, b: World, e: Event) {
    b.packet != a.packet ==>
      && b.packet.Some?
      && (a.packet.Some? && e.Run? ==> SaveOk(a.packet.value, b.packet.value, e.id, e.x.now))
      && (a.packet.Some? && !e.Run? ==> OperatorSave(a.packet.value, b.packet.value))
      && (a.packet.None? ==> FirstStored(b.packet.value))
  }

  lemma NextOk(cfg: Config, sys: System, e: Event)
    requires Invariant(sys)
    ensures Invariant(Next(cfg, sys, e)) && Explained(sys.world, Next(cfg, sys, e).world, e)
  {
    var t := Next(cfg, sys, e);
    if e.Run? && e.id in sys.calls {
      StepGood(cfg, sys.world, e.id, sys.calls[e.id], e.x);
      forall id | id in t.calls && id != e.id ensures CallOk(t.world, id, t.calls[id]) {
        OtherCallOk(sys.world, t.world, e.id, id, sys.calls[id]);
      }
    } else if (e.MarkSession? || e.Rollover?) && t != sys {
      OperatedOk(sys.world, e);
      forall id | id in t.calls ensures CallOk(t.world, id, t.calls[id]) {
        OtherCallOk(sys.world, t.world, id + 1, id, sys.calls[id]);
      }
    }
  }

  lemma {:induction false} RunsKeepInvariant(cfg: Config, events: seq<Event>)
    ensures Invariant(Exec(cfg, events))
  {
    if events != [] {
      RunsKeepInvariant(cfg, events[..|events| - 1]);
      NextOk(cfg, Exec(cfg, events[..|events| - 1]), events[|events| - 1]);
    }
  }

  function PacketAfter(cfg: Config, events: seq<Event>): Option<Packet> { Exec(cfg, events).world.packet }

  /** Every save of a call in every run: completed units of a head are kept, a result is stored only
      by the call whose claim is stored, and an executing claim is given up only by its own call,
      after its lease, or to a moved HEAD when it lies in the future. An operator's save keeps all of
      it, but may time the claim out. */
  lemma EverySaveIsSafe(cfg: Config, events: seq<Event>, e: Event)
    requires PacketAfter(cfg, events).Some?
    ensures PacketAfter(cfg, events + [e]).Some?
    ensures e.Run? ==> PacketAfter(cfg, events + [e]) == PacketAfter(cfg, events)
                       || SafeSave(PacketAfter(cfg, events).value, PacketAfter(cfg, events + [e]).value, e.id, e.x.now)
    ensures !e.Run? ==> OperatorSave(PacketAfter(cfg, events).value, PacketAfter(cfg, events + [e]).value)
  {
    RunsKeepInvariant(cfg, events);
    assert (events + [e])[..|events|] == events;
    NextOk(cfg, Exec(cfg, events), e);
  }

  // ---- Promotion --------------------------------------------------------------------------

  /** A COMPLETE PASS entry keyed to this unit, run and head. */
  predicate PassedUnit(m: map<UnitKey, SliceResult>, u: Unit, sha: Sha) {
    var k := UnitKey(RunKey(sha), u, sha);
    k in m && m[k].outcome.PASS? && m[k].evidence == Some(Evidence(u, sha, true))
  }

  ghost predicate PassedAll(p: Packet, sha: Sha) {
    forall u :: u in Queue(p.release) ==> PassedUnit(p.completed, u, sha)
  }

  lemma DoneIsPassed(q: Packet)
    requires Accepts(q) && AllDone(q) && !HasFindingUnit(q)
    ensures PassedAll(q, q.target)
  {
    forall u | u in q.queue ensures PassedUnit(q.completed, u, q.target) {
      assert IsDone(q, u) && EntryOk(q, KeyOf(q, u), q.completed[KeyOf(q, u)]);
    }
  }

  /** If a head is the last audited one, then at some earlier moment it was the target and every
      queued unit had a COMPLETE PASS entry for it. */
  lemma {:induction false} PromotionWasEarned(cfg: Config, events: seq<Event>) returns (n: nat)
    requires PacketAfter(cfg, events).Some? && PacketAfter(cfg, events).value.lastAudited.Some?
    ensures n <= |events| && PacketAfter(cfg, events[..n]).Some?
    ensures PacketAfter(cfg, events[..n]).value.target == PacketAfter(cfg, events).value.lastAudited.value
    ensures PassedAll(PacketAfter(cfg, events[..n]).value, PacketAfter(cfg, events).value.lastAudited.value)
  {
    var init := events[..|events| - 1];
    var e := events[|events| - 1];
    RunsKeepInvariant(cfg, init);
    NextOk(cfg, Exec(cfg, init), e);
    RunsKeepInvariant(cfg, events);
    if PacketAfter(cfg, init).Some?
        && PacketAfter(cfg, init).value.lastAudited == PacketAfter(cfg, events).value.lastAudited {
      n := PromotionWasEarned(cfg, init);
      assert init[..n] == events[..n];
    } else {
      n := |events|;
      assert events[..n] == events;
      DoneIsPassed(PacketAfter(cfg, events).value);
    }
  }

  // ---- Completed units over a stay at one head --------------------------------------------

  /** While the target does not move, no completed entry is removed or overwritten. */
  lemma {:induction false} CompletedIsKept(cfg: Config, events: seq<Event>, n: nat)
    requires n <= |events| && PacketAfter(cfg, events[..n]).Some?
    requires forall i :: n <= i <= |events| ==> PacketAfter(cfg, events[..i]).Some?
                                                && PacketAfter(cfg, events[..i]).value.target
                                                    == PacketAfter(cfg, events[..n]).value.target
    ensures PacketAfter(cfg, events).Some? && Kept(PacketAfter(cfg, events[..n]).value, PacketAfter(cfg, events).value)
    decreases |events|
  {
    assert events[..|events|] == events;
    if n < |events| {
      var init := events[..|events| - 1];
      assert forall i :: n <= i <= |init| ==> init[..i] == events[..i];
      CompletedIsKept(cfg, init, n);
      assert init + [events[|events| - 1]] == events;
      assert PacketAfter(cfg, events[..|init|]).Some?;
      EverySaveIsSafe(cfg, init, events[|events| - 1]);
    }
  }
}
