/** What follows a completed audit: the work-packet body is changed by compare-and-set, then the
    disposition is recorded in the claim ledger. One issue; passes crash and interleave anywhere,
    and the issue's own editors may change the body between any two accesses. */
module AuditDisposition {
  import opened Common
  import opened AuditLedger

  /** The two mutations: an authorized rework handoff, and a governance checkpoint. */
  datatype Mutation = Handoff | Checkpoint

  /** The body, as far as the protocol reads it: LAST_VERIFIED_HEAD, and the HEAD and marker of the
      last rendered evidence section. The token changes with every write. */
  datatype Evidence = Evidence(head: int, mutation: Mutation)
  datatype Packet = Packet(head: int, evidence: Option<Evidence>, token: int)

  datatype Gates = Gates(testsPass: bool, ciOk: bool, ciHead: int, reviewOk: bool, governanceCurrent: bool,
      governanceHead: int)

  predicate GatesAreCurrent(gates: Option<Gates>, head: int) {
    gates.Some? && gates.value == Gates(true, true, head, true, true, head)
  }

  /** `HEAD=h` occurs in a body whose LAST_VERIFIED_HEAD is h as well as in evidence for h. */
  predicate PacketMarker(p: Packet, head: int, m: Mutation) {
    p.evidence.Some? && (p.head == head || p.evidence.value.head == head) && p.evidence.value.mutation == m
  }

  function Rendered(p: Packet, head: int, m: Mutation): Packet {
    Packet(head, Some(Evidence(head, m)), p.token + 1)
  }

  function ActionOf(m: Mutation): Action {
    if m.Handoff? then ReworkHandoff else PassCheckpoint
  }

  // ---- One pass -------------------------------------------------------------------------

  datatype Result = Stale | Duplicate | Refused | NoAdvancement | PacketConflict | Recorded | Raised

  datatype Pc =
    | LoadLedger
    | LoadPacket(ledger: Ledger)
    | Reload(ledger: Ledger, seen: Packet, m: Mutation)
    | CasPacket(ledger: Ledger, seen: Packet, m: Mutation)
    | SaveLedger(ledger: Ledger, action: Action)
    | Ended(result: Result)

  /** One call of `apply_exact_head_disposition` for an ACTIVE packet of this repository and branch. */
  datatype Pass = Pass(key: Key, attempt: int, gates: Option<Gates>, pc: Pc)

  /** `mutated` lists the packet mutations in order; `heads` every head the packet has shown. */
  datatype World = World(ledger: Option<Ledger>, packet: Packet, mutated: seq<Evidence>, heads: set<int>)

  /** `keepsEvidence`: editors who leave the head alone leave the evidence alone; `freshHeads`: a
      head, once left, never comes back. */
  datatype Config = Config(issue: int, adopting: bool, keepsEvidence: bool, freshHeads: bool)

  datatype Move = Move(world: World, pass: Pass)

  predicate IsReady(l: Ledger, key: Key) {
    key in l.claims && l.claims[key].state == ClaimState.Completed && l.claims[key].verdict.Some?
  }

  function DoLoadLedger(w: World, p: Pass): Pass {
    if w.ledger.None? || !IsReady(w.ledger.value, p.key) then p.(pc := Ended(Stale))
    else if p.key in w.ledger.value.dispositions && Terminal(w.ledger.value.dispositions[p.key]) then
        p.(pc := Ended(Duplicate))
    else p.(pc := LoadPacket(w.ledger.value))
  }

  /** `refused`: packet metadata, implementer, worktree identity or findings were refused. */
  function DoLoadPacket(w: World, p: Pass, ledger: Ledger, refused: bool): Pass {
    if w.packet.head != p.key.sha then p.(pc := Ended(Stale))
    else if refused || !IsReady(ledger, p.key) then p.(pc := Ended(Refused))
    else
      match ledger.claims[p.key].verdict.value
      case HumanRequired => p.(pc := SaveLedger(ledger, HumanRequiredAction))
      case Rework =>
        if PacketMarker(w.packet, p.key.sha, Handoff) then p.(pc := Ended(Duplicate))
        else p.(pc := Reload(ledger, w.packet, Handoff))
      case Pass =>
        if PacketMarker(w.packet, p.key.sha, Checkpoint) then p.(pc := Ended(Duplicate))
        else if !GatesAreCurrent(p.gates, p.key.sha) then p.(pc := Ended(NoAdvancement))
        else p.(pc := Reload(ledger, w.packet, Checkpoint))
  }

  function DoReload(w: World, p: Pass, ledger: Ledger, seen: Packet, m: Mutation): Pass {
    p.(pc := if w.packet == seen then CasPacket(ledger, seen, m) else Ended(PacketConflict))
  }

  function DoCasPacket(w: World, p: Pass, ledger: Ledger, seen: Packet, m: Mutation): Move {
    if w.packet != seen then Move(w, p.(pc := Ended(Raised)))
    else Move(w.(packet := Rendered(seen, p.key.sha, m), mutated := w.mutated + [Evidence(p.key.sha, m)]),
              p.(pc := SaveLedger(ledger, ActionOf(m))))
  }

  function Remember(l: Ledger, p: Pass, action: Action): Ledger {
    l.(dispositions := l.dispositions[p.key := Disposition(action, p.attempt)])
  }

  function DoSaveLedger(cfg: Config, w: World, p: Pass, ledger: Ledger, action: Action): Move {
    if !(1 <= p.attempt <= 100) then Move(w, p.(pc := Ended(Raised)))
    else
      match Cas(cfg.adopting, w.ledger, Some(ledger), Remember(ledger, p, action))
      case Written => Move(w.(ledger := Some(Remember(ledger, p, action))), p.(pc := Ended(Recorded)))
      case Adopted => Move(w, p.(pc := Ended(Recorded)))
      case Conflict => Move(w, p.(pc := Ended(Raised)))
  }

  function Step(cfg: Config, w: World, p: Pass, refused: bool): Move {
    match p.pc
    case LoadLedger => Move(w, DoLoadLedger(w, p))
    case LoadPacket(ledger) => Move(w, DoLoadPacket(w, p, ledger, refused))
    case Reload(ledger, seen, m) => Move(w, DoReload(w, p, ledger, seen, m))
    case CasPacket(ledger, seen, m) => DoCasPacket(w, p, ledger, seen, m)
    case SaveLedger(ledger, action) => DoSaveLedger(cfg, w, p, ledger, action)
    case Ended(_) => Move(w, p)
  }

  // ---- Runs -----------------------------------------------------------------------------

  datatype Event =
    | Begin(id: int, sha: int, attempt: int, gates: Option<Gates>)
    | Run(id: int, refused: bool)
    | Crash(id: int)
    | Audit(ledger: Ledger)
    | Edit(head: int, evidence: Option<Evidence>)

  datatype System = System(world: World, passes: map<int, Pass>)

  function Initial(head: int): System {
    System(World(None, Packet(head, None, 0), [], {head}), map[])
  }

  /** What writes of the audit protocol can do to a ledger: its claims go on and new ones appear, and
      the month changes only with a new claim. A ledger first seen may hold notes of dispatches started
      by earlier versions. */
  predicate AuditWrite(a: Option<Ledger>, b: Ledger) {
    && ClaimsGoOn(ClaimsOf(a), b.claims)
    && (if a.Some?
        then b.dispositions == a.value.dispositions
          && (b.claims.Keys == a.value.claims.Keys ==> b.month == a.value.month)
        else forall k | k in b.dispositions :: !Terminal(b.dispositions[k]))
  }

  predicate EditAllowed(cfg: Config, w: World, head: int, evidence: Option<Evidence>) {
    if head == w.packet.head then cfg.keepsEvidence ==> evidence == w.packet.evidence
    else cfg.freshHeads ==> head !in w.heads
  }

  function Next(cfg: Config, sys: System, e: Event): System {
    match e
    case Begin(id, sha, attempt, gates) =>
      if id in sys.passes then sys
      else sys.(passes := sys.passes[id := Pass.Pass(Key(cfg.issue, sha), attempt, gates, LoadLedger)])
    case Run(id, refused) =>
      if id !in sys.passes then sys
      else var m := Step(cfg, sys.world, sys.passes[id], refused); System(m.world, sys.passes[id := m.pass])
    case Crash(id) =>
      if id !in sys.passes then sys else sys.(passes := sys.passes[id := sys.passes[id].(pc := Ended(Raised))])
    case Audit(ledger) =>
      if AuditWrite(sys.world.ledger, ledger) then sys.(world := sys.world.(ledger := Some(ledger))) else sys
    case Edit(head, evidence) =>
      if !EditAllowed(cfg, sys.world, head, evidence) then sys
      else sys.(world := sys.world.(packet := Packet(head, evidence, sys.world.packet.token + 1),
          heads := sys.world.heads + {head}))
  }

  function Exec(cfg: Config, head: int, events: seq<Event>): System {
    if events == [] then Initial(head)
    else Next(cfg, Exec(cfg, head, events[..|events| - 1]), events[|events| - 1])
  }
}
