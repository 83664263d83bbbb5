/** A run in which HEAD returns to the commit that was audited last, and the gate refuses it. */
module ChatReset {
  import opened Common
  import opened ChatPacket
  import opened ChatGate
  import opened ChatRuns
  import opened ChatProgress

  function PassUnit(u: Unit): SliceResult { SliceResult(u, 7, PASS, [], Some(Evidence(u, 7, true))) }

  lemma PassUnitCompletes()
    ensures Completing(PassUnit, 7)
  {
  }

  function Plain(id: int, r: SliceResult): Event { Run(id, Input(0, true, NoFault, Returned(r), HandedOff)) }

  lemma Then(cfg: Config, past: seq<Event>, a: Event, b: Event) returns (events: seq<Event>)
    ensures Exec(cfg, events) == Next(cfg, Next(cfg, Exec(cfg, past), a), b)
  {
    var one := past + [a];
    events := one + [b];
    assert one[..|one| - 1] == past && events[..|events| - 1] == one;
    assert Exec(cfg, one) == Next(cfg, Exec(cfg, past), a);
  }

  /** All calls so far have smaller ids. */
  predicate Before(sys: System, id: int) {
    forall k | k in sys.calls :: k < id
  }

  /** A packet is stored that nobody holds a claim on, and the next call id is free. */
  predicate Stands(sys: System, p: Packet, id: int) {
    sys.world.packet == Some(p) && Before(sys, id)
  }

  /** A new call loads the packet. */
  lemma CallLoads(cfg: Config, past: seq<Event>, p: Packet, id: int, head: Sha) returns (events: seq<Event>)
    requires Stands(Exec(cfg, past), p, id) && AcceptsAt(p, 0)
    ensures Exec(cfg, events) == System(Exec(cfg, past).world,
              Exec(cfg, past).calls[id := Call(head, false, Planning(Some(p), Exec(cfg, past).world.version))])
  {
    events := Then(cfg, past, Begin(id, head, false), Plain(id, PassUnit(ChangedCode)));
  }

  /** One more save of a call that has loaded the packet as it stands. */
  lemma CallSaves(cfg: Config, past: seq<Event>, p: Packet, id: int, head: Sha) returns (events: seq<Event>)
    requires id in Exec(cfg, past).calls && Exec(cfg, past).world.packet == Some(p)
    requires Exec(cfg, past).calls[id] == Call(head, false, Planning(Some(p), Exec(cfg, past).world.version))
    requires !PlanStep(p, head, id, 0, true).Refuse? && AcceptsAt(PlanStep(p, head, id, 0, true).packet, 0)
    ensures Exec(cfg, events).world == Replace(Exec(cfg, past).world, PlanStep(p, head, id, 0, true).packet)
    ensures Exec(cfg, events).calls.Keys == Exec(cfg, past).calls.Keys
    ensures PlanStep(p, head, id, 0, true).Execute? ==>
              Exec(cfg, events).calls[id] == Call(head, false, Pc.Running(PlanStep(p, head, id, 0, true).unit))
  {
    var e := Plain(id, PassUnit(ChangedCode));
    events := past + [e];
    assert events[..|events| - 1] == past;
  }

  /** The executor passes the claimed unit, and the result is stored. */
  lemma CallCompletes(cfg: Config, past: seq<Event>, q: Packet, id: int, u: Unit, done: Packet)
      returns (events: seq<Event>)
    requires id in Exec(cfg, past).calls && Exec(cfg, past).world.packet == Some(q)
    requires Exec(cfg, past).calls[id] == Call(7, false, Pc.Running(u))
    requires AcceptsAt(q, 0) && Holds(q, id) && !IsDone(q, u) && Apply(q, PassUnit(u), HandedOff) == Commit(done)
      && AcceptsAt(done, 0)
    ensures Exec(cfg, events).world.packet == Some(done) && Exec(cfg, events).calls.Keys == Exec(cfg, past).calls.Keys
  {
    var w := Exec(cfg, past).world;
    var calls := Exec(cfg, past).calls;
    events := Then(cfg, past, Plain(id, PassUnit(u)), Plain(id, PassUnit(u)));
    assert Exec(cfg, events) == System(w, calls[id := Call(7, false, SaveResult(u, done, w.version, u))]);
    var e := Plain(id, PassUnit(u));
    var more := events + [e];
    assert more[..|more| - 1] == events;
    events := more;
  }

  lemma SliceRuns(cfg: Config, past: seq<Event>, p: Packet, id: int) returns (events: seq<Event>, done: Packet)
    requires Stands(Exec(cfg, past), p, id) && Between(p, PassUnit) && p.target == 7 && SelectNext(p).Some?
    ensures Stands(Exec(cfg, events), done, id + 1) && Between(done, PassUnit) && done.target == 7
      && done.queue == p.queue
    ensures Unfinished(done, p.queue) == Unfinished(p, p.queue) - 1
  {
    PassUnitCompletes();
    var u := SelectNext(p).value;
    var q := ClaimUnit(p, u, id, 0);
    done := Slice(p, PassUnit, id, 0);
    SelectNextFinds(p);
    ClaimSound(p, id, 0);
    SliceCompletes(p, PassUnit, id, 0);
    SliceBetween(p, PassUnit, id, 0);
    SlicePlan(p, id);
    events := CallLoads(cfg, past, p, id, 7);
    events := CallSaves(cfg, events, p, id, 7);
    events := CallCompletes(cfg, events, q, id, u, done);
  }

  lemma SlicePlan(p: Packet, id: int)
    requires Between(p, PassUnit) && p.target == 7 && SelectNext(p).Some? && !IsDone(p, SelectNext(p).value)
    requires Completes(ClaimUnit(p, SelectNext(p).value, id, 0), Slice(p, PassUnit, id, 0),
      PassUnit(SelectNext(p).value))
    ensures forall b ::
      PlanStep(p, 7, id, 0, b) == Execute(ClaimUnit(p, SelectNext(p).value, id, 0), SelectNext(p).value)
    ensures Apply(ClaimUnit(p, SelectNext(p).value, id, 0), PassUnit(SelectNext(p).value), HandedOff)
      == Commit(Slice(p, PassUnit, id, 0))
    ensures !IsDone(ClaimUnit(p, SelectNext(p).value, id, 0), SelectNext(p).value)
  {
  }

  /** Slices until no unit is left. */
  lemma QueueRuns(cfg: Config, past: seq<Event>, p: Packet, id: int)
      returns (events: seq<Event>, done: Packet, next: int)
    requires Stands(Exec(cfg, past), p, id) && Between(p, PassUnit) && p.target == 7
    ensures Stands(Exec(cfg, events), done, next) && Between(done, PassUnit) && done.target == 7
      && SelectNext(done).None?
    decreases Unfinished(p, p.queue)
  {
    events, done, next := past, p, id;
    if SelectNext(p).Some? {
      NothingLeft(p);
      events, done := SliceRuns(cfg, past, p, id);
      events, done, next := QueueRuns(cfg, events, done, id + 1);
    }
  }

  lemma FirstPacketStands(cfg: Config) returns (events: seq<Event>)
    ensures Stands(Exec(cfg, events), Initial(7, false), 2) && Between(Initial(7, false), PassUnit)
  {
    InitialSound(7, false);
    events := Then(cfg, [], Begin(1, 7, false), Plain(1, PassUnit(ChangedCode)));
    assert Exec(cfg, events) == System(INITIAL.world, map[1 := Call(7, false, Planning(None, 0))]);
    events := Then(cfg, events, Plain(1, PassUnit(ChangedCode)), Crash(1));
  }

  /** The head is audited. */
  lemma HeadIsAudited(cfg: Config) returns (events: seq<Event>, p: Packet, id: int)
    ensures Stands(Exec(cfg, events), p, id) && Sound(p) && p.target == 7 && Audited(p)
  {
    events := FirstPacketStands(cfg);
    var last;
    events, last, id := QueueRuns(cfg, events, Initial(7, false), 2);
    PassUnitCompletes();
    FinalizeSound(last);
    FinalVerdict(last, PassUnit);
    p := Finalize(last);
    events := CallLoads(cfg, events, last, id, 7);
    events := CallSaves(cfg, events, last, id, 7);
    id := id + 1;
  }

  /** The worktree moves on to another commit and back again: the call that finds it back cannot store
      its delta run, and the checkpoint stays at the other commit. */
  lemma HeadReturns(cfg: Config) returns (events: seq<Event>, id: int)
    ensures id in Exec(cfg, events).calls && Exec(cfg, events).world.packet.Some?
    ensures var p := Exec(cfg, events).world.packet.value;
            && p.target == 8 && p.lastAudited == Some(7)
            && Exec(cfg, events).calls[id] == Call(7, false, Planning(Some(p), Exec(cfg, events).world.version))
            && PlanStep(p, 7, id, 0, true) == Continue(StartDelta(p, 7)) && !Accepts(StartDelta(p, 7))
    ensures forall x :: Next(cfg, Exec(cfg, events), Run(id, x)).world == Exec(cfg, events).world
  {
    var p;
    events, p, id := HeadIsAudited(cfg);
    var away := StartDelta(p, 8);
    DeltaAccepted(p, 8);
    events := CallLoads(cfg, events, p, id, 8);
    events := CallSaves(cfg, events, p, id, 8);
    id := id + 1;
    events := CallLoads(cfg, events, away, id, 7);
    DeltaAccepted(away, 7);
  }
}
