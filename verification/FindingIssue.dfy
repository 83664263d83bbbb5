/** The issue behind one audit finding: a claim file under compare-and-set, a marker search, and any
    number of workers that may stop anywhere. */
module FindingIssue {
  import opened Common

  type Time = int
  const LEASE: int := 120

  /** A pending claim has no issue number; a number makes it final. Tokens are the workers' own. */
  datatype Claim = Claim(token: int, number: Option<int>, head: int, claimedAt: Time)

  datatype World = World(claim: Option<Claim>, issues: set<int>, clock: Time)

  datatype Pc =
    | ReadClaim
    | Search(base: Option<Claim>)
    | PutFound(base: Option<Claim>, number: int)
    | RereadFound(base: Option<Claim>)
    | CheckPending(base: Option<Claim>)
    | Poll
    | PutPending(base: Option<Claim>, pending: Claim)
    | SearchAgain(pending: Claim)
    | Create(pending: Claim)
    | SearchCreated(pending: Claim)
    | PutFinal(pending: Claim, number: int)
    | RereadFinal(pending: Claim, number: int)
    | PutOver(base: Option<Claim>, final: Claim)
    | Update(claim: Claim, sha: Option<Claim>)
    | PutRefresh(claim: Claim, sha: Option<Claim>)
    | Stopped(reported: Option<int>)

  datatype Worker = Worker(head: int, pc: Pc)

  /** `found` and `missed` are what a search answers, `created` the number the server gives an issue,
      `replied` whether the create's reply arrives, `again` whether polling goes on. */
  datatype Input = Input(now: Time, found: int, missed: bool, created: int, replied: bool, again: bool)

  /** `timely`: an owner creates within its lease or not at all; `exact`: the search misses nothing. */
  datatype Config = Config(timely: bool, exact: bool)

  datatype Move = Move(world: World, worker: Worker)

  predicate Numbered(c: Option<Claim>) { c.Some? && c.value.number.Some? }

  predicate Live(c: Claim, now: Time) { now - c.claimedAt < LEASE }

  datatype Found = One(number: int) | Nothing | Many

  /** The open issues that carry the marker. */
  function FindByMarker(cfg: Config, w: World, x: Input): Found {
    if w.issues == {} || (x.missed && !cfg.exact) then Nothing
    else if w.issues == {x.found} then One(x.found)
    else Many
  }

  function Put(w: World, base: Option<Claim>, intended: Claim): World {
    if Cas(true, w.claim, base, intended).Written? then w.(claim := Some(intended)) else w
  }

  predicate Stored(w: World, base: Option<Claim>, intended: Claim) {
    !Cas(true, w.claim, base, intended).Conflict?
  }

  function GoOn(w: World, k: Worker, otherwise: Pc): Worker {
    k.(pc := if Numbered(w.claim) then Update(w.claim.value, w.claim) else otherwise)
  }

  function DoSearch(cfg: Config, w: World, k: Worker, base: Option<Claim>, x: Input): Worker {
    match FindByMarker(cfg, w, x)
    case One(n) => k.(pc := PutFound(base, n))
    case Nothing => k.(pc := CheckPending(base))
    case Many => k.(pc := Stopped(None))
  }

  function Reconciled(id: int, k: Worker, base: Option<Claim>, n: int): Claim {
    Claim(if base.Some? then base.value.token else id, Some(n), k.head, 0)
  }

  function DoPutFound(w: World, id: int, k: Worker, base: Option<Claim>, n: int): Move {
    var intended := Reconciled(id, k, base, n);
    Move(Put(w, base, intended), k.(pc := if Stored(w, base, intended) then Stopped(Some(n)) else RereadFound(base)))
  }

  /** After a lost write the worker keeps its old token: only an absent one is fetched again. */
  function DoRereadFound(w: World, k: Worker, base: Option<Claim>): Worker {
    k.(pc := if Numbered(w.claim) then Update(w.claim.value, base) else Stopped(None))
  }

  function DoCheckPending(w: World, id: int, k: Worker, base: Option<Claim>): Worker {
    if base.Some? && Live(base.value, w.clock) then k.(pc := Poll)
    else k.(pc := PutPending(base, Claim(id, None, k.head, w.clock)))
  }

  function DoPutPending(w: World, k: Worker, base: Option<Claim>, pending: Claim): Move {
    Move(Put(w, base, pending), k.(pc := if Stored(w, base, pending) then SearchAgain(pending) else Poll))
  }

  function DoSearchAgain(cfg: Config, w: World, k: Worker, pending: Claim, x: Input): Worker {
    match FindByMarker(cfg, w, x)
    case One(n) => k.(pc := PutFinal(pending, n))
    case Nothing => k.(pc := Create(pending))
    case Many => k.(pc := Stopped(None))
  }

  function DoCreate(cfg: Config, w: World, k: Worker, pending: Claim, x: Input): Move {
    if x.created in w.issues || (cfg.timely && !Live(pending, w.clock)) then Move(w, k)
    else Move(w.(issues := w.issues + {x.created}),
        k.(pc := if x.replied then PutFinal(pending, x.created) else SearchCreated(pending)))
  }

  function DoSearchCreated(cfg: Config, w: World, k: Worker, pending: Claim, x: Input): Worker {
    match FindByMarker(cfg, w, x)
    case One(n) => k.(pc := PutFinal(pending, n))
    case _ => k.(pc := Stopped(None))
  }

  function DoPutFinal(w: World, k: Worker, pending: Claim, n: int): Move {
    var final := pending.(number := Some(n));
    Move(Put(w, Some(pending), final),
        k.(pc := if Stored(w, Some(pending), final) then Stopped(Some(n)) else RereadFinal(pending, n)))
  }

  function DoRereadFinal(w: World, k: Worker, pending: Claim, n: int): Worker {
    if Numbered(w.claim) then k.(pc := Stopped(if w.claim.value.number == Some(n) then Some(n) else None))
    else k.(pc := PutOver(w.claim, pending.(number := Some(n))))
  }

  function DoPutOver(w: World, k: Worker, base: Option<Claim>, final: Claim): Move {
    Move(Put(w, base, final), k.(pc := Stopped(if Stored(w, base, final) then final.number else None)))
  }

  function DoUpdate(w: World, k: Worker, claim: Claim, sha: Option<Claim>): Worker {
    k.(pc := PutRefresh(claim.(head := k.head), if sha.None? then w.claim else sha))
  }

  function Step(cfg: Config, w: World, id: int, k: Worker, x: Input): Move {
    match k.pc
    case ReadClaim => Move(w, GoOn(w, k, Search(w.claim)))
    case Search(base) => Move(w, DoSearch(cfg, w, k, base, x))
    case PutFound(base, n) => DoPutFound(w, id, k, base, n)
    case RereadFound(base) => Move(w, DoRereadFound(w, k, base))
    case CheckPending(base) => Move(w, DoCheckPending(w, id, k, base))
    case Poll => Move(w, GoOn(w, k, if x.again then Poll else Stopped(None)))
    case PutPending(base, pending) => DoPutPending(w, k, base, pending)
    case SearchAgain(pending) => Move(w, DoSearchAgain(cfg, w, k, pending, x))
    case Create(pending) => DoCreate(cfg, w, k, pending, x)
    case SearchCreated(pending) => Move(w, DoSearchCreated(cfg, w, k, pending, x))
    case PutFinal(pending, n) => DoPutFinal(w, k, pending, n)
    case RereadFinal(pending, n) => Move(w, DoRereadFinal(w, k, pending, n))
    case PutOver(base, final) => DoPutOver(w, k, base, final)
    case Update(claim, sha) => Move(w, DoUpdate(w, k, claim, sha))
    case PutRefresh(claim, sha) => Move(Put(w, sha, claim), k.(pc := Stopped(claim.number)))
    case Stopped(_) => Move(w, k)
  }

  // ---- Runs -----------------------------------------------------------------------------

  datatype Event = Begin(id: int, head: int) | Run(id: int, x: Input) | Crash(id: int)
  datatype System = System(world: World, workers: map<int, Worker>)

  const INITIAL := System(World(None, {}, 1), map[])

  /** One clock for all, and it does not run backwards. */
  function Next(cfg: Config, sys: System, e: Event): System {
    match e
    case Begin(id, head) =>
      if id in sys.workers then sys else sys.(workers := sys.workers[id := Worker(head, ReadClaim)])
    case Run(id, x) =>
      if id !in sys.workers || x.now < sys.world.clock then sys
      else
        var m := Step(cfg, sys.world.(clock := x.now), id, sys.workers[id], x);
        System(m.world, sys.workers[id := m.worker])
    case Crash(id) =>
      if id !in sys.workers then sys else sys.(workers := sys.workers[id := sys.workers[id].(pc := Stopped(None))])
  }

  function Exec(cfg: Config, events: seq<Event>): System {
    if events == [] then INITIAL else Next(cfg, Exec(cfg, events[..|events| - 1]), events[|events| - 1])
  }

  // ---- The number never changes ----------------------------------------------------------------

  /** A worker never holds a numbered claim as the thing to overwrite, except to write its number. */
  predicate WorkerOk(w: World, id: int, k: Worker) {
    match k.pc
    case Search(base) => !Numbered(base)
    case PutFound(base, n) => !Numbered(base) && n in w.issues
    case RereadFound(base) => !Numbered(base)
    case CheckPending(base) => !Numbered(base)
    case PutPending(base, pending) => !Numbered(base) && pending.number.None? && pending.token == id
                                      && (base.Some? ==> !Live(base.value, w.clock))
    case SearchAgain(pending) => pending.number.None? && pending.token == id
    case Create(pending) => pending.number.None? && pending.token == id
    case SearchCreated(pending) => pending.number.None?
    case PutFinal(pending, n) => pending.number.None? && n in w.issues
    case RereadFinal(pending, n) => pending.number.None? && n in w.issues
    case PutOver(base, final) => !Numbered(base) && final.number.Some? && final.number.value in w.issues
    case Update(claim, sha) => Names(w, claim) && (Numbered(sha) ==> sha.value.number == claim.number)
    case PutRefresh(claim, sha) => Names(w, claim) && (Numbered(sha) ==> sha.value.number == claim.number)
    case Stopped(reported) => reported.Some? ==> IsTheIssue(w, reported.value)
    case _ => true
  }

  /** The number of an existing issue of the finding, and the one its claim holds. */
  predicate IsTheIssue(w: World, n: int) {
    n in w.issues && w.claim.Some? && w.claim.value.number == Some(n)
  }

  /** The stored claim has this claim's number. */
  predicate Names(w: World, claim: Claim) {
    claim.number.Some? && w.claim.Some? && w.claim.value.number == claim.number
  }

  predicate ClaimOk(w: World) {
    Numbered(w.claim) ==> w.claim.value.number.value in w.issues
  }

  /** Numbers stay, issues stay, time passes. */
  predicate Grows(a: World, b: World) {
    (Numbered(a.claim) ==> b.claim.Some? && b.claim.value.number == a.claim.value.number) && a.issues <= b.issues
        && a.clock <= b.clock
  }

  lemma StepOk(cfg: Config, w: World, id: int, k: Worker, x: Input)
    requires ClaimOk(w) && WorkerOk(w, id, k)
    ensures ClaimOk(Step(cfg, w, id, k, x).world) && Grows(w, Step(cfg, w, id, k, x).world)
    ensures WorkerOk(Step(cfg, w, id, k, x).world, id, Step(cfg, w, id, k, x).worker)
  {
  }

  lemma OtherOk(a: World, b: World, id: int, k: Worker)
    requires Grows(a, b) && WorkerOk(a, id, k)
    ensures WorkerOk(b, id, k)
  {
  }

  ghost predicate Invariant(sys: System) {
    ClaimOk(sys.world) && forall id :: id in sys.workers ==> WorkerOk(sys.world, id, sys.workers[id])
  }

  lemma NextOk(cfg: Config, sys: System, e: Event)
    requires Invariant(sys)
    ensures Invariant(Next(cfg, sys, e)) && Grows(sys.world, Next(cfg, sys, e).world)
  {
    if e.Run? && e.id in sys.workers && sys.world.clock <= e.x.now {
      var later := sys.world.(clock := e.x.now);
      var t := Next(cfg, sys, e);
      OtherOk(sys.world, later, e.id, sys.workers[e.id]);
      StepOk(cfg, later, e.id, sys.workers[e.id], e.x);
      forall id | id in t.workers && id != e.id ensures WorkerOk(t.world, id, t.workers[id]) {
        OtherOk(sys.world, t.world, id, sys.workers[id]);
      }
    }
  }

  lemma {:induction false} RunsKeepInvariant(cfg: Config, events: seq<Event>)
    ensures Invariant(Exec(cfg, events))
  {
    if events != [] {
      RunsKeepInvariant(cfg, events[..|events| - 1]);
      NextOk(cfg, Exec(cfg, events[..|events| - 1]), events[|events| - 1]);
    }
  }

  /** Once the finding's claim holds an issue number, no later step of any worker changes it,
      whatever the clock, the search or the leases do. */
  lemma {:induction false} NumberIsFinal(cfg: Config, events: seq<Event>, n: nat)
    requires n <= |events|
    ensures Grows(Exec(cfg, events[..n]).world, Exec(cfg, events).world)
    decreases |events|
  {
    if n == |events| {
      assert events[..n] == events;
    } else {
      var init := events[..|events| - 1];
      assert init[..n] == events[..n];
      NumberIsFinal(cfg, init, n);
      RunsKeepInvariant(cfg, init);
      NextOk(cfg, Exec(cfg, init), events[|events| - 1]);
    }
  }

  /** Every number any worker ever reported is an existing issue of the finding, and the claim holds it. */
  lemma ReportedIsTheIssue(cfg: Config, events: seq<Event>, id: int, n: int)
    requires id in Exec(cfg, events).workers && Exec(cfg, events).workers[id].pc == Stopped(Some(n))
    ensures IsTheIssue(Exec(cfg, events).world, n)
  {
    RunsKeepInvariant(cfg, events);
    assert WorkerOk(Exec(cfg, events).world, id, Exec(cfg, events).workers[id]);
  }

  // ---- At most one issue ---------------------------------------------------------------------

  predicate AtMostOne(issues: set<int>) {
    forall a, b | a in issues && b in issues :: a == b
  }

  /** While an owner's lease runs and nothing is created, the stored claim is the owner's; an owner
      about to create within its lease knows that nothing is. */
  predicate OwnerOk(w: World, k: Worker) {
    match k.pc
    case SearchAgain(pending) => Live(pending, w.clock) && w.issues == {} ==> w.claim == Some(pending)
    case Create(pending) => Live(pending, w.clock) ==> w.issues == {} && w.claim == Some(pending)
    case _ => true
  }

  lemma StepOwner(cfg: Config, w: World, id: int, k: Worker, x: Input)
    requires cfg.timely && cfg.exact && WorkerOk(w, id, k) && OwnerOk(w, k) && AtMostOne(w.issues)
    ensures AtMostOne(Step(cfg, w, id, k, x).world.issues)
      && OwnerOk(Step(cfg, w, id, k, x).world, Step(cfg, w, id, k, x).worker)
  {
  }

  lemma OtherOwner(cfg: Config, w: World, id: int, k: Worker, x: Input, other: int, o: Worker)
    requires cfg.timely && cfg.exact && WorkerOk(w, id, k) && OwnerOk(w, k) && WorkerOk(w, other, o) && OwnerOk(w, o)
      && other != id
    requires ClaimOk(w)
    ensures OwnerOk(Step(cfg, w, id, k, x).world, o)
  {
  }

  ghost predicate OwnersOk(sys: System) {
    AtMostOne(sys.world.issues) && forall id :: id in sys.workers ==> OwnerOk(sys.world, sys.workers[id])
  }

  lemma NextOwners(cfg: Config, sys: System, e: Event)
    requires cfg.timely && cfg.exact && Invariant(sys) && OwnersOk(sys)
    ensures OwnersOk(Next(cfg, sys, e))
  {
    if e.Run? && e.id in sys.workers && sys.world.clock <= e.x.now {
      var later := sys.world.(clock := e.x.now);
      var t := Next(cfg, sys, e);
      OtherOk(sys.world, later, e.id, sys.workers[e.id]);
      StepOwner(cfg, later, e.id, sys.workers[e.id], e.x);
      forall id | id in t.workers && id != e.id ensures OwnerOk(t.world, t.workers[id]) {
        OtherOk(sys.world, later, id, sys.workers[id]);
        OtherOwner(cfg, later, e.id, sys.workers[e.id], e.x, id, sys.workers[id]);
      }
    }
  }

  lemma {:induction false} RunsKeepOwners(cfg: Config, events: seq<Event>)
    requires cfg.timely && cfg.exact
    ensures OwnersOk(Exec(cfg, events))
  {
    if events != [] {
      RunsKeepOwners(cfg, events[..|events| - 1]);
      RunsKeepInvariant(cfg, events[..|events| - 1]);
      NextOwners(cfg, Exec(cfg, events[..|events| - 1]), events[|events| - 1]);
    }
  }

  // ---- Two issues -------------------------------------------------------------------------

  lemma Then(cfg: Config, past: seq<Event>, e: Event) returns (events: seq<Event>)
    ensures Exec(cfg, events) == Next(cfg, Exec(cfg, past), e)
  {
    events := past + [e];
    assert events[..|events| - 1] == past;
  }

  function At(id: int, now: Time): Event { Run(id, Input(now, 0, true, id, true, false)) }

  /** From the claim as it stands to just before the second search. */
  lemma ClaimIssue(cfg: Config, past: seq<Event>, id: int, now: Time) returns (events: seq<Event>)
    requires id !in Exec(cfg, past).workers && now >= Exec(cfg, past).world.clock
      && (Exec(cfg, past).world.issues == {} || !cfg.exact)
    requires var c := Exec(cfg, past).world.claim; c.Some? ==> c.value.number.None? && !Live(c.value, now)
    ensures Exec(cfg, events) == System(Exec(cfg, past).world.(clock := now, claim := Some(Claim(id, None, 0, now))),
                                        Exec(cfg, past).workers[id := Worker(0, SearchAgain(Claim(id, None, 0, now)))])
  {
    var s := Exec(cfg, past);
    var w := s.world.(clock := now);
    events := Then(cfg, past, Begin(id, 0));
    events := Then(cfg, events, At(id, now));
    assert Exec(cfg, events) == System(w, s.workers[id := Worker(0, Search(w.claim))]);
    events := Then(cfg, events, At(id, now));
    assert Exec(cfg, events) == System(w, s.workers[id := Worker(0, CheckPending(w.claim))]);
    events := Then(cfg, events, At(id, now));
    assert Exec(cfg, events) == System(w, s.workers[id := Worker(0, PutPending(w.claim, Claim(id, None, 0, now)))]);
    events := Then(cfg, events, At(id, now));
  }

  function Pending(id: int, now: Time): Claim { Claim(id, None, 0, now) }

  /** The first owner is about to create, within its lease. */
  lemma FirstOwner(cfg: Config) returns (events: seq<Event>)
    ensures Exec(cfg, events) == System(World(Some(Pending(1, 1)), {}, 1), map[1 := Worker(0, Create(Pending(1, 1)))])
  {
    events := ClaimIssue(cfg, [], 1, 1);
    events := Then(cfg, events, At(1, 1));
  }

  /** Two owners are about to create, and both do. */
  lemma LateOwner(cfg: Config) returns (events: seq<Event>)
    requires !cfg.timely && cfg.exact
    ensures Exec(cfg, events).world.issues == {1, 2}
  {
    events := FirstOwner(cfg);
    events := ClaimIssue(cfg, events, 2, 200);
    events := Then(cfg, events, At(2, 200));
    var both := map[1 := Worker(0, Create(Pending(1, 1))), 2 := Worker(0, Create(Pending(2, 200)))];
    assert Exec(cfg, events) == System(World(Some(Pending(2, 200)), {}, 200), both);
    events := Then(cfg, events, At(1, 200));
    events := Then(cfg, events, At(2, 200));
  }

  /** The first owner creates and crashes; the second one's searches miss its issue. */
  lemma MissedIssue(cfg: Config) returns (events: seq<Event>)
    requires !cfg.exact
    ensures Exec(cfg, events).world.issues == {1, 2}
  {
    events := FirstOwner(cfg);
    events := Then(cfg, events, At(1, 1));
    events := Then(cfg, events, Crash(1));
    assert Exec(cfg, events) == System(World(Some(Pending(1, 1)), {1}, 1), map[1 := Worker(0, Stopped(None))]);
    events := ClaimIssue(cfg, events, 2, 200);
    events := Then(cfg, events, At(2, 200));
    events := Then(cfg, events, At(2, 200));
  }

  /** A late owner creates beside its successor, or a search misses what a crashed owner created. */
  lemma TwoIssues(cfg: Config) returns (events: seq<Event>)
    requires !cfg.timely || !cfg.exact
    ensures !AtMostOne(Exec(cfg, events).world.issues)
  {
    if cfg.exact {
      events := LateOwner(cfg);
    } else {
      events := MissedIssue(cfg);
    }
    assert 1 in Exec(cfg, events).world.issues && 2 in Exec(cfg, events).world.issues;
  }

  /** At most one issue is created for a finding in every run, exactly when owners create within
      their leases and the marker search is exact. */
  lemma OneIssuePerFinding(cfg: Config)
    ensures (forall events :: AtMostOne(Exec(cfg, events).world.issues)) <==> cfg.timely && cfg.exact
  {
    if cfg.timely && cfg.exact {
      forall events ensures AtMostOne(Exec(cfg, events).world.issues) {
        RunsKeepOwners(cfg, events);
      }
    } else {
      var events := TwoIssues(cfg);
    }
  }
}
