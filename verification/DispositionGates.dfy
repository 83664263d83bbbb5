/** Whose gates a checkpoint rests on: every body mutation and every recorded disposition in every run,
    traced to the pass that made it. */
module DispositionGates {
  import opened Common
  import opened AuditLedger
  import opened AuditDisposition
  import opened DispositionRuns

  /** Tests pass, CI is fine for this head, the review is fine, governance is current for this head. */
  predicate AllGates(gates: Option<Gates>, head: int) {
    && gates.Some? && gates.value.testsPass && gates.value.ciOk && gates.value.ciHead == head
    && gates.value.reviewOk && gates.value.governanceCurrent && gates.value.governanceHead == head
  }

  /** A pass on its way to a checkpoint has all its gates. */
  predicate GatesHeld(p: Pass) {
    match p.pc
    case Reload(_, _, m) => m.Checkpoint? ==> AllGates(p.gates, p.key.sha)
    case CasPacket(_, _, m) => m.Checkpoint? ==> AllGates(p.gates, p.key.sha)
    case SaveLedger(_, action) => action.PassCheckpoint? ==> AllGates(p.gates, p.key.sha)
    case _ => true
  }

  lemma StepHoldsGates(cfg: Config, w: World, p: Pass, refused: bool)
    requires GatesHeld(p)
    ensures GatesHeld(Step(cfg, w, p, refused).pass)
  {
  }

  lemma {:induction false} RunsHoldGates(cfg: Config, head: int, events: seq<Event>)
    ensures forall id :: id in Exec(cfg, head, events).passes ==> GatesHeld(Exec(cfg, head, events).passes[id])
  {
    if events != [] {
      var past, e := events[..|events| - 1], events[|events| - 1];
      RunsHoldGates(cfg, head, past);
      var sys := Exec(cfg, head, past);
      if e.Run? && e.id in sys.passes {
        StepHoldsGates(cfg, sys.world, sys.passes[e.id], e.refused);
      }
    }
  }

  /** The body has been changed once more, by this pass: a handoff for a rework, or, with all its gates, a
      checkpoint for a pass, at its own head. */
  ghost predicate MutatedBy(w: World, more: seq<Evidence>, p: Pass) {
    && ClaimOf(w, p.key).Some?
    && (|| (more == w.mutated + [Evidence(p.key.sha, Handoff)] && ClaimOf(w, p.key).value.verdict == Some(Rework))
        || (more == w.mutated + [Evidence(p.key.sha, Checkpoint)] && AllGates(p.gates, p.key.sha)
            && ClaimOf(w, p.key).value.verdict == Some(Verdict.Pass)))
  }

  lemma StepMutates(cfg: Config, w: World, p: Pass, refused: bool)
    requires PassOk(cfg.issue, w, p) && GatesHeld(p)
    ensures Step(cfg, w, p, refused).world.mutated == w.mutated
            || MutatedBy(w, Step(cfg, w, p, refused).world.mutated, p)
  {
  }

  lemma OnlyPassesMutate(cfg: Config, sys: System, e: Event)
    requires !e.Run? || e.id !in sys.passes
    ensures Next(cfg, sys, e).world.mutated == sys.world.mutated
  {
  }

  lemma StepRecords(cfg: Config, w: World, p: Pass, refused: bool, k: Key)
    requires PassOk(cfg.issue, w, p) && GatesHeld(p)
    requires DispositionOf(Step(cfg, w, p, refused).world, k) != DispositionOf(w, k)
    ensures p.key == k && p.pc.SaveLedger? && 1 <= p.attempt <= 100
    ensures DispositionOf(Step(cfg, w, p, refused).world, k) == Some(Disposition(p.pc.action, p.attempt))
    ensures p.pc.action.PassCheckpoint? ==> AllGates(p.gates, p.key.sha)
  {
  }

  /** Every mutation of the body in every run is made by one pass, for its own head and the verdict its
      claim was completed with; a checkpoint only by a pass whose own gates all hold for that head. */
  lemma CheckpointsNeedGates(cfg: Config, head: int, events: seq<Event>, e: Event)
    requires Exec(cfg, head, events + [e]).world.mutated != Exec(cfg, head, events).world.mutated
    ensures e.Run? && e.id in Exec(cfg, head, events).passes
    ensures MutatedBy(Exec(cfg, head, events).world, Exec(cfg, head, events + [e]).world.mutated,
                      Exec(cfg, head, events).passes[e.id])
  {
    assert (events + [e])[..|events|] == events;
    var sys := Exec(cfg, head, events);
    if e.Run? && e.id in sys.passes {
      assert PassOk(cfg.issue, sys.world, sys.passes[e.id]) && GatesHeld(sys.passes[e.id]) by {
        RunsKeepInvariant(cfg, head, events);
        RunsHoldGates(cfg, head, events);
      }
      StepMutates(cfg, sys.world, sys.passes[e.id], e.refused);
    } else {
      OnlyPassesMutate(cfg, sys, e);
    }
  }

  /** Every disposition recorded by a pass in any run is for its own key and attempt, 1..100; a
      checkpoint only by a pass whose own gates all hold for that head. */
  lemma RecordedCheckpointsNeedGates(cfg: Config, head: int, events: seq<Event>, id: int, refused: bool, k: Key)
    requires id in Exec(cfg, head, events).passes
    requires DispositionOf(Exec(cfg, head, events + [Run(id, refused)]).world, k)
          != DispositionOf(Exec(cfg, head, events).world, k)
    ensures var p := Exec(cfg, head, events).passes[id];
            var d := DispositionOf(Exec(cfg, head, events + [Run(id, refused)]).world, k);
            && p.key == k && 1 <= p.attempt <= 100 && d.Some? && d.value.attempt == p.attempt
            && (d.value.action.PassCheckpoint? ==> AllGates(p.gates, k.sha))
  {
    assert (events + [Run(id, refused)])[..|events|] == events;
    RunsKeepInvariant(cfg, head, events);
    RunsHoldGates(cfg, head, events);
    StepRecords(cfg, Exec(cfg, head, events).world, Exec(cfg, head, events).passes[id], refused, k);
  }

  /** Nothing but a pass ever records a terminal disposition. */
  lemma OnlyPassesRecord(cfg: Config, head: int, events: seq<Event>, e: Event, k: Key)
    requires !Done(Exec(cfg, head, events).world, k) && Done(Exec(cfg, head, events + [e]).world, k)
    ensures e.Run? && e.id in Exec(cfg, head, events).passes
  {
    assert (events + [e])[..|events|] == events;
  }

  /** A pass that finds its completed PASS claim, its head, nothing refused and no checkpoint in the
      body ends without advancement exactly if one of its gates fails. */
  lemma NoAdvancementExactly(cfg: Config, head: int, events: seq<Event>, id: int)
    requires id in Exec(cfg, head, events).passes && Exec(cfg, head, events).passes[id].pc.LoadPacket?
    requires var w, p := Exec(cfg, head, events).world, Exec(cfg, head, events).passes[id];
             && w.packet.head == p.key.sha && ClaimOf(w, p.key).Some?
             && ClaimOf(w, p.key).value.verdict == Some(Verdict.Pass)
             && (w.packet.evidence.Some? ==> !w.packet.evidence.value.mutation.Checkpoint?)
    ensures var p := Exec(cfg, head, events).passes[id];
            var q := Exec(cfg, head, events + [Run(id, false)]).passes[id];
            && (q.pc == Ended(NoAdvancement) <==> !AllGates(p.gates, p.key.sha))
            && (q.pc.Reload? <==> AllGates(p.gates, p.key.sha))
  {
    assert (events + [Run(id, false)])[..|events|] == events;
    RunsKeepInvariant(cfg, head, events);
    assert PassOk(cfg.issue, Exec(cfg, head, events).world, Exec(cfg, head, events).passes[id]);
  }
}
