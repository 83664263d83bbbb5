/** Slices make progress, a retry resumes the same unit, and HEAD advances rotate the first unit. */
module ChatProgress {
  import opened Common
  import opened ChatPacket
  import opened ChatGate
  import opened ChatRuns
  import opened ChatSafety
  import opened ChatTheorems

  // ---- Fair rotation ----------------------------------------------------------------------

  /** How often the target has moved. */
  function Moves(cfg: Config, events: seq<Event>): nat {
    if events == [] then 0
    else
      var before := PacketAfter(cfg, events[..|events| - 1]);
      var now := PacketAfter(cfg, events);
      Moves(cfg, events[..|events| - 1]) + if before.Some? && now.Some?
          && before.value.target != now.value.target then 1 else 0
  }

  function Length(release: bool): int { if release then 6 else 5 }

  lemma QueueLength(release: bool)
    ensures |Queue(release)| == Length(release)
  {
  }

  lemma MovesOn(p: Packet, q: Packet, m: nat)
    requires p.fairStart == m % Length(p.release) && q.release == p.release && Rotates(p, q)
    ensures q.fairStart == (if q.target == p.target then m else m + 1) % Length(q.release)
  {
    QueueLength(p.release);
  }

  lemma EventRotates(cfg: Config, sys: System, e: Event)
    requires Invariant(sys) && sys.world.packet.Some?
    ensures var t := Next(cfg, sys, e).world.packet;
        t.Some? && Rotates(sys.world.packet.value, t.value) && t.value.release == sys.world.packet.value.release
  {
    NextOk(cfg, sys, e);
  }

  lemma FirstPacket(cfg: Config, sys: System, e: Event)
    requires Invariant(sys) && sys.world.packet.None? && Next(cfg, sys, e).world.packet.Some?
    ensures Next(cfg, sys, e).world.packet.value.fairStart == 0
  {
    NextOk(cfg, sys, e);
  }

  /** In every run the rotation counts exactly the HEAD advances. */
  lemma {:induction false} StartCountsMoves(cfg: Config, events: seq<Event>)
    ensures PacketAfter(cfg, events).Some? ==>
            PacketAfter(cfg, events).value.fairStart
                == Moves(cfg, events) % Length(PacketAfter(cfg, events).value.release)
    ensures PacketAfter(cfg, events).None? ==> Moves(cfg, events) == 0
  {
    if events != [] {
      var init := events[..|events| - 1];
      var e := events[|events| - 1];
      StartCountsMoves(cfg, init);
      RunsKeepInvariant(cfg, init);
      CountedMove(cfg, Exec(cfg, init), e, Moves(cfg, init));
    }
  }

  lemma CountedMove(cfg: Config, sys: System, e: Event, m: nat)
    requires Invariant(sys)
    requires if sys.world.packet.Some? then
      sys.world.packet.value.fairStart == m % Length(sys.world.packet.value.release) else m == 0
    ensures var p := sys.world.packet; var q := Next(cfg, sys, e).world.packet;
            if q.Some? then
                q.value.fairStart
                == (if p.Some? && p.value.target != q.value.target then m + 1 else m) % Length(q.value.release)
            else p.None?
  {
    if sys.world.packet.Some? {
      EventRotates(cfg, sys, e);
      MovesOn(sys.world.packet.value, Next(cfg, sys, e).world.packet.value, m);
    } else if Next(cfg, sys, e).world.packet.Some? {
      FirstPacket(cfg, sys, e);
    }
  }

  /** The unit that the m-th advance begins with. */
  function LeadOf(release: bool, m: nat): Unit {
    QueueLength(release);
    Queue(release)[m % Length(release)]
  }

  lemma FirstSelected(p: Packet)
    requires Sound(p) && p.completed == map[]
    ensures SelectNext(p) == Some(p.queue[p.fairStart])
  {
    ModOnce(p.fairStart, |p.queue|);
    assert Rotated(p, 0) == p.queue[p.fairStart] && !IsDone(p, Rotated(p, 0));
  }

  /** A run on a new head begins with the unit that the number of advances points to. */
  lemma HeadBeginsAt(cfg: Config, events: seq<Event>)
    requires PacketAfter(cfg, events).Some? && PacketAfter(cfg, events).value.completed == map[]
    ensures SelectNext(PacketAfter(cfg, events).value)
      == Some(LeadOf(PacketAfter(cfg, events).value.release, Moves(cfg, events)))
  {
    RunsKeepInvariant(cfg, events);
    StartCountsMoves(cfg, events);
    FirstSelected(PacketAfter(cfg, events).value);
  }

  /** Among any |queue| consecutive advances, every unit leads exactly once. */
  lemma EveryUnitLeadsOnce(release: bool, m: nat, u: Unit) returns (k: nat)
    requires u in Queue(release)
    ensures m <= k < m + |Queue(release)| && LeadOf(release, k) == u
    ensures forall j: nat :: m <= j < m + |Queue(release)| && LeadOf(release, j) == u ==> j == k
  {
    QueueLength(release);
    var n := Length(release);
    var i := IndexIn(Queue(release), u);
    IndexInFinds(Queue(release), u);
    k := Slot(m, i, release);
    forall j: nat | m <= j < m + n && LeadOf(release, j) == u ensures j == k {
      QueueDistinct(release, j % n, i);
      SlotUnique(m, i, j, release);
    }
  }

  /** The one number from m on, within a round, that is i modulo the queue's length. */
  function Slot(m: nat, i: nat, release: bool): (k: nat)
    requires i < Length(release)
    ensures m <= k < m + Length(release) && k % Length(release) == i
  {
    if release then SlotOf6(m, i) else SlotOf5(m, i)
  }

  function SlotOf5(m: nat, i: nat): (k: nat)
    requires i < 5
    ensures m <= k < m + 5 && k % 5 == i
  {
    m + (i - m) % 5
  }

  function SlotOf6(m: nat, i: nat): (k: nat)
    requires i < 6
    ensures m <= k < m + 6 && k % 6 == i
  {
    m + (i - m) % 6
  }

  lemma SlotUnique(m: nat, i: nat, j: nat, release: bool)
    requires i < Length(release) && m <= j < m + Length(release) && j % Length(release) == i
    ensures j == Slot(m, i, release)
  {
    if release {
      Slot6Unique(m, i, j);
    } else {
      Slot5Unique(m, i, j);
    }
  }

  lemma Slot5Unique(m: nat, i: nat, j: nat)
    requires i < 5 && m <= j < m + 5 && j % 5 == i
    ensures j == SlotOf5(m, i)
  {
  }

  lemma Slot6Unique(m: nat, i: nat, j: nat)
    requires i < 6 && m <= j < m + 6 && j % 6 == i
    ensures j == SlotOf6(m, i)
  {
  }

  lemma QueueDistinct(release: bool, i: int, j: int)
    requires 0 <= i < |Queue(release)| && 0 <= j < |Queue(release)| && Queue(release)[i] == Queue(release)[j]
    ensures i == j
  {
  }

  // ---- Retries --------------------------------------------------------------------------

  /** After a timeout, missing evidence or a rejection the same unit is selected again. */
  lemma RetryResumesUnit(p: Packet, r: SliceResult, handoff: Handoff)
    requires Sound(p) && p.claim.Some? && Apply(p, r, handoff).Commit?
    requires !Apply(p, r, handoff).draft.status.SliceComplete?
    ensures SelectNext(Apply(p, r, handoff).draft) == p.unit
  {
    ApplyShape(p, r, handoff);
    ApplySound(p, r, handoff);
  }

  // ---- Progress -------------------------------------------------------------------------

  /** The units among `units` without a completed entry. */
  function Unfinished(p: Packet, units: seq<Unit>): nat {
    if units == [] then 0 else (if IsDone(p, units[0]) then 0 else 1) + Unfinished(p, units[1..])
  }

  predicate Distinct(units: seq<Unit>) {
    forall i, j | 0 <= i < j < |units| :: units[i] != units[j]
  }

  lemma {:induction false} OneMoreDone(p: Packet, q: Packet, u: Unit, units: seq<Unit>)
    requires Distinct(units) && !IsDone(p, u)
    requires forall v :: IsDone(q, v) <==> v == u || IsDone(p, v)
    ensures Unfinished(q, units) == Unfinished(p, units) - if u in units then 1 else 0
  {
    if units != [] {
      OneMoreDone(p, q, u, units[1..]);
      assert units == [units[0]] + units[1..];
    }
  }

  lemma {:induction false} NoneUnfinished(p: Packet, units: seq<Unit>)
    ensures Unfinished(p, units) == 0 <==> forall u :: u in units ==> IsDone(p, u)
  {
    if units != [] {
      NoneUnfinished(p, units[1..]);
      assert units == [units[0]] + units[1..];
    }
  }

  /** Every completing slice lowers the number of unfinished units by exactly one. */
  lemma CompletionLowers(p: Packet, r: SliceResult, handoff: Handoff)
    requires Sound(p) && p.claim.Some? && Apply(p, r, handoff).Commit?
    requires Apply(p, r, handoff).draft.status.SliceComplete?
    ensures Unfinished(Apply(p, r, handoff).draft, p.queue) == Unfinished(p, p.queue) - 1
  {
    ApplyShape(p, r, handoff);
    SelectNextFinds(p);
    CompletesOne(p, Apply(p, r, handoff).draft, r);
  }

  lemma CompletesOne(p: Packet, q: Packet, r: SliceResult)
    requires p.queue == Queue(p.release) && Completes(p, q, r) && r.unit in p.queue && !IsDone(p, r.unit)
    ensures Unfinished(q, p.queue) == Unfinished(p, p.queue) - 1
    ensures forall v :: IsDone(q, v) <==> v == r.unit || IsDone(p, v)
  {
    QueueIsDistinct(p.release);
    forall v ensures IsDone(q, v) <==> v == r.unit || IsDone(p, v) {
      assert KeyOf(q, v) == KeyOf(p, v);
    }
    OneMoreDone(p, q, r.unit, p.queue);
  }

  lemma QueueIsDistinct(release: bool)
    ensures Distinct(Queue(release))
  {
  }

  // ---- A whole queue ----------------------------------------------------------------------

  /** An executor that completes any unit of a head, with findings of its own. */
  ghost predicate Completing(exec: Unit -> SliceResult, sha: Sha) {
    && (forall u :: CompletesUnit(exec(u), u, sha))
    && (forall u, v, f, g :: f in exec(u).findings && g in exec(v).findings && f.id == g.id ==> u == v)
  }

  ghost predicate CompletesUnit(r: SliceResult, u: Unit, sha: Sha) {
    && r.unit == u && r.sha == sha && r.evidence == Some(Evidence(u, sha, true))
    && (r.outcome.PASS? || r.outcome.FINDING?) && (r.outcome.FINDING? <==> r.findings != [])
    && (forall f | f in r.findings :: f.unit == u)
    && (forall i, j | 0 <= i < j < |r.findings| :: r.findings[i].id != r.findings[j].id)
  }

  /** A packet between slices, all of whose entries and findings come from the executor. */
  ghost predicate Between(p: Packet, exec: Unit -> SliceResult) {
    && Sound(p) && !Audited(p) && p.claim.None? && !p.status.InSlice?
    && (forall k :: k in p.completed ==> p.completed[k] == exec(k.unit))
    && (forall f :: f in p.findings ==> exists u :: IsDone(p, u) && f in exec(u).findings)
  }

  function Slice(p: Packet, exec: Unit -> SliceResult, id: int, now: Time): Packet {
    match PlanStep(p, p.target, id, now, false)
    case Execute(q, u) => (match Apply(q, exec(u), HandedOff) case Commit(done) => done case _ => q)
    case _ => p
  }

  lemma IdsAreFresh(p: Packet, exec: Unit -> SliceResult, u: Unit)
    requires Between(p, exec) && Completing(exec, p.target) && !IsDone(p, u)
    ensures FreshIds(p, exec(u).findings)
  {
    assert CompletesUnit(exec(u), u, p.target);
    forall f | f in exec(u).findings ensures f.id !in BoundIds(p) {
      assert forall g :: g in p.findings ==> g.id != f.id;
      forall k, g | k in p.completed && g in p.completed[k].findings ensures g.id != f.id {
        assert EntryOk(p, k, p.completed[k]) && IsDone(p, k.unit);
      }
    }
  }

  lemma SliceCompletes(p: Packet, exec: Unit -> SliceResult, id: int, now: Time)
    requires Between(p, exec) && Completing(exec, p.target) && now >= 0 && SelectNext(p).Some?
    ensures Completes(ClaimUnit(p, SelectNext(p).value, id, now), Slice(p, exec, id, now), exec(SelectNext(p).value))
  {
    var u := SelectNext(p).value;
    SelectNextFinds(p);
    assert CompletesUnit(exec(u), u, p.target);
    IdsAreFresh(p, exec, u);
    FreshUnderClaim(p, u, id, now, exec(u).findings);
    SlicePlans(p, exec, id, now);
    ResultCompletes(p, ClaimUnit(p, u, id, now), exec(u));
  }

  lemma FreshUnderClaim(p: Packet, u: Unit, id: int, now: Time, fs: seq<Finding>)
    requires FreshIds(p, fs)
    ensures FreshIds(ClaimUnit(p, u, id, now), fs)
  {
    assert BoundIds(ClaimUnit(p, u, id, now)) == BoundIds(p);
  }

  lemma SlicePlans(p: Packet, exec: Unit -> SliceResult, id: int, now: Time)
    requires Between(p, exec) && SelectNext(p).Some? && !IsDone(p, SelectNext(p).value)
    ensures PlanStep(p, p.target, id, now, false)
      == Execute(ClaimUnit(p, SelectNext(p).value, id, now), SelectNext(p).value)
  {
  }

  /** A complete result for the claimed unit is committed as its entry. */
  lemma ResultCompletes(p: Packet, q: Packet, r: SliceResult)
    requires q.unit == Some(r.unit) && q.run == RunKey(q.target) && CompletesUnit(r, r.unit, q.target)
      && FreshIds(q, r.findings)
    ensures Apply(q, r, HandedOff).Commit? && Completes(q, Apply(q, r, HandedOff).draft, r)
  {
  }

  lemma SliceBetween(p: Packet, exec: Unit -> SliceResult, id: int, now: Time)
    requires Between(p, exec) && Completing(exec, p.target) && now >= 0 && SelectNext(p).Some?
    ensures Between(Slice(p, exec, id, now), exec) && Slice(p, exec, id, now).target == p.target
      && Slice(p, exec, id, now).queue == p.queue
    ensures Unfinished(Slice(p, exec, id, now), p.queue) == Unfinished(p, p.queue) - 1
  {
    var u := SelectNext(p).value;
    var q := ClaimUnit(p, u, id, now);
    var done := Slice(p, exec, id, now);
    SliceCompletes(p, exec, id, now);
    ClaimSound(p, id, now);
    CompleteSound(q, done, exec(u));
    SelectNextFinds(p);
    SameUnfinished(p, q, p.queue);
    CompletesOne(q, done, exec(u));
    forall v ensures IsDone(done, v) <==> v == u || IsDone(p, v) {
      assert IsDone(q, v) == IsDone(p, v);
    }
    FindingsStem(p, done, exec, u);
  }

  lemma {:induction false} SameUnfinished(p: Packet, q: Packet, units: seq<Unit>)
    requires q.run == p.run && q.target == p.target && q.completed == p.completed
    ensures Unfinished(q, units) == Unfinished(p, units)
  {
    if units != [] {
      SameUnfinished(p, q, units[1..]);
    }
  }

  lemma FindingsStem(p: Packet, done: Packet, exec: Unit -> SliceResult, u: Unit)
    requires forall f :: f in p.findings ==> exists v :: IsDone(p, v) && f in exec(v).findings
    requires done.findings == p.findings + exec(u).findings && forall v :: IsDone(done, v) <==> v == u || IsDone(p, v)
    ensures forall f :: f in done.findings ==> exists v :: IsDone(done, v) && f in exec(v).findings
  {
    forall f | f in done.findings ensures exists v :: IsDone(done, v) && f in exec(v).findings {
      if f in p.findings {
        var v :| IsDone(p, v) && f in exec(v).findings;
        assert IsDone(done, v);
      } else {
        assert IsDone(done, u) && f in exec(u).findings;
      }
    }
  }

  function Slices(p: Packet, exec: Unit -> SliceResult, id: int, now: Time, n: nat): Packet
    decreases n
  {
    if n == 0 then p else Slices(Slice(p, exec, id, now), exec, id, now, n - 1)
  }

  /** The packet after as many completing slices as there are unfinished units. */
  function AfterQueue(p: Packet, exec: Unit -> SliceResult, id: int, now: Time): Packet {
    Slices(p, exec, id, now, Unfinished(p, p.queue))
  }

  lemma OneSliceOn(p: Packet, exec: Unit -> SliceResult, id: int, now: Time)
    requires Unfinished(p, p.queue) > 0
      && Unfinished(Slice(p, exec, id, now), Slice(p, exec, id, now).queue) == Unfinished(p, p.queue) - 1
    ensures AfterQueue(p, exec, id, now) == AfterQueue(Slice(p, exec, id, now), exec, id, now)
  {
    OneSliceOff(p, exec, id, now, Unfinished(p, p.queue));
  }

  lemma OneSliceOff(p: Packet, exec: Unit -> SliceResult, id: int, now: Time, n: nat)
    requires n > 0
    ensures Slices(p, exec, id, now, n) == Slices(Slice(p, exec, id, now), exec, id, now, n - 1)
  {
  }

  /** The next run then ends with the queue's verdict: PASSED, with the head promoted, exactly when
      the executor passed every unit. */
  lemma {:induction false} QueueReachesVerdict(p: Packet, exec: Unit -> SliceResult, id: int, now: Time)
    requires Between(p, exec) && Completing(exec, p.target) && now >= 0
    ensures PlanStep(AfterQueue(p, exec, id, now), p.target, id, now, false).End?
    ensures Verdict(p, exec, PlanStep(AfterQueue(p, exec, id, now), p.target, id, now, false).packet)
    decreases Unfinished(p, p.queue)
  {
    NothingLeft(p);
    if SelectNext(p).None? {
      FinalVerdict(p, exec);
      FinalPlan(p, id, now);
    } else {
      var s := Slice(p, exec, id, now);
      SliceBetween(p, exec, id, now);
      OneSliceOn(p, exec, id, now);
      QueueReachesVerdict(s, exec, id, now);
      SameVerdict(p, s, exec, PlanStep(AfterQueue(s, exec, id, now), s.target, id, now, false).packet);
    }
  }

  lemma FinalPlan(p: Packet, id: int, now: Time)
    requires !Audited(p) && !p.status.InSlice? && SelectNext(p).None?
    ensures PlanStep(p, p.target, id, now, false) == End(Finalize(p))
  {
  }

  lemma SameVerdict(p: Packet, s: Packet, exec: Unit -> SliceResult, q: Packet)
    requires s.target == p.target && s.queue == p.queue && Verdict(s, exec, q)
    ensures Verdict(p, exec, q)
  {
  }

  lemma NothingLeft(p: Packet)
    requires 0 <= p.fairStart < |p.queue|
    ensures SelectNext(p).None? <==> Unfinished(p, p.queue) == 0
  {
    SelectNextFinds(p);
    NoneUnfinished(p, p.queue);
  }

  ghost predicate Verdict(p: Packet, exec: Unit -> SliceResult, q: Packet) {
    && Sound(q) && q.target == p.target && (q.status.Passed? || q.status.WithFindings?)
    && (q.status.Passed? <==> forall u :: u in p.queue ==> exec(u).outcome.PASS?)
    && (q.status.Passed? <==> q.lastAudited == Some(p.target))
  }

  lemma FinalVerdict(p: Packet, exec: Unit -> SliceResult)
    requires Between(p, exec) && Completing(exec, p.target) && SelectNext(p).None?
    ensures Verdict(p, exec, Finalize(p))
  {
    FinalizeSound(p);
    SelectNextFinds(p);
    forall u | u in p.queue ensures p.completed[KeyOf(p, u)].outcome.FINDING? <==> !exec(u).outcome.PASS? {
      assert IsDone(p, u) && CompletesUnit(exec(u), u, p.target);
    }
  }
}
