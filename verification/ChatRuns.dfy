/** Concurrent chat-audit controllers over one compare-and-set checkpoint: any interleaving at every
    store access, crashes, saves that fail before or after they commit, and operator commands. */
module ChatRuns {
  import opened Common
  import opened ChatPacket

  /** `committed` and `failed`: the claims whose result, or whose failure, was stored. */
  datatype World = World(packet: Option<Packet>, version: int, committed: set<int>, failed: set<int>)

  /** One call of `run_slice` on a worktree at `head`; its claim id is the call's own. A
      reconciliation that raises gives way to one under `again`, the claimed unit, if there is one. */
  datatype Pc =
    | Load
    | Planning(base: Option<Packet>, version: int)
    | Running(unit: Unit)
    | LoadForResult(unit: Unit, result: SliceResult)
    | SaveResult(unit: Unit, draft: Packet, version: int, claimed: Unit)
    | LoadForReconcile(unit: Unit, again: Option<Unit>)
    | SaveFailed(unit: Unit, draft: Packet, version: int, again: Option<Unit>)
    | Ended
  datatype Call = Call(head: Sha, release: bool, pc: Pc)

  datatype Fault = NoFault | Before | After
  datatype Execution = Threw | Returned(result: SliceResult)
  datatype Input = Input(now: Time, explicitPass: bool, fault: Fault, execution: Execution, handoff: Handoff)

  /** `operators`: session commands may run while calls are in progress; `adopting`: a save that finds
      exactly its own bytes stored, revision included, succeeds without writing. */
  datatype Config = Config(operators: bool, adopting: bool)

  /** How a save ends for its caller, and whether its packet was stored or found stored. */
  datatype Saved = Stored | Clash | Broke
  datatype Saving = Saving(world: World, how: Saved, there: bool)
  datatype Move = Move(world: World, call: Call)

  function Replace(w: World, q: Packet): World {
    w.(packet := Some(q), version := w.version + 1)
  }

  /** The stored bytes are those of this save: the same packet, one revision after its base. */
  predicate Finds(cfg: Config, w: World, version: int, q: Packet) {
    cfg.adopting && w.packet == Some(q) && w.version == version + 1
  }

  /** A save: the gate, then the compare-and-set, either of which may be cut short. */
  function Save(cfg: Config, w: World, version: int, q: Packet, x: Input): Saving {
    if !AcceptsAt(q, x.now) || x.fault.Before? then Saving(w, Broke, false)
    else if w.version != version && !Finds(cfg, w, version, q) then Saving(w, Clash, false)
    else Saving(if w.version == version then Replace(w, q) else w, if x.fault.After? then Broke else Stored, true)
  }

  /** A load: the gate again, then whatever is stored. */
  predicate Loads(w: World, now: Time) {
    w.packet.Some? ==> AcceptsAt(w.packet.value, now)
  }

  function DoLoad(w: World, c: Call, x: Input): Call {
    c.(pc := if Loads(w, x.now) then Planning(w.packet, w.version) else Ended)
  }

  function PlanFor(c: Call, base: Option<Packet>, id: int, x: Input): Plan {
    if base.None? then Continue(Initial(c.head, c.release)) else PlanStep(base.value, c.head, id, x.now, x.explicitPass)
  }

  function DoPlan(cfg: Config, w: World, id: int, c: Call, base: Option<Packet>, version: int, x: Input): Move {
    match PlanFor(c, base, id, x)
    case Refuse => Move(w, c.(pc := Ended))
    case Continue(q) =>
      var s := Save(cfg, w, version, q, x);
      Move(s.world, c.(pc := if s.how.Stored? then Planning(Some(q), s.world.version) else Ended))
    case End(q) => Move(Save(cfg, w, version, q, x).world, c.(pc := Ended))
    case Execute(q, unit) =>
      var s := Save(cfg, w, version, q, x);
      Move(s.world, c.(pc := if s.how.Stored? then Running(unit) else Ended))
  }

  function DoExecute(c: Call, unit: Unit, x: Input): Call {
    c.(pc := if x.execution.Threw? then LoadForReconcile(unit, None) else LoadForResult(unit, x.execution.result))
  }

  function DoLoadForResult(w: World, id: int, c: Call, unit: Unit, r: SliceResult, x: Input): Call {
    if w.packet.None? || !Loads(w, x.now) || !Holds(w.packet.value, id) || IsDone(w.packet.value, unit) then
        c.(pc := Ended)
    else
      match Apply(w.packet.value, r, x.handoff)
      case Commit(q) => c.(pc := SaveResult(r.unit, q, w.version, unit))
      case Invalid =>
        var named := if w.packet.value.unit.Some? then w.packet.value.unit.value else r.unit;
        c.(pc := LoadForReconcile(named, Some(unit)))
      case Raise => c.(pc := LoadForReconcile(unit, None))
      case Abandon => c.(pc := Ended)
  }

  function DoSaveResult(cfg: Config, w: World, id: int, c: Call, unit: Unit, q: Packet, version: int, claimed: Unit,
      x: Input): Move {
    var s := Save(cfg, w, version, q, x);
    Move(if s.there then s.world.(committed := w.committed + {id}) else w,
         c.(pc := if s.how.Broke? then LoadForReconcile(unit, Some(claimed)) else Ended))
  }

  /** A reconciliation that raised anything but a lost compare-and-set. */
  function Raised(again: Option<Unit>): Pc {
    if again.Some? then LoadForReconcile(again.value, None) else Ended
  }

  function DoLoadForReconcile(w: World, id: int, c: Call, unit: Unit, again: Option<Unit>, x: Input): Call {
    if w.packet.None? || !Loads(w, x.now) then c.(pc := Raised(again))
    else
      match Reconcile(w.packet.value, id, unit)
      case Fail(q) => c.(pc := SaveFailed(unit, q, w.version, again))
      case Lost => c.(pc := Raised(again))
      case Replay => c.(pc := Ended)
  }

  function DoSaveFailed(cfg: Config, w: World, id: int, c: Call, q: Packet, version: int, again: Option<Unit>,
      x: Input): Move {
    var s := Save(cfg, w, version, q, x);
    Move(if s.there then s.world.(failed := w.failed + {id})
        else w, c.(pc := if s.how.Broke? then Raised(again) else Ended))
  }

  function Step(cfg: Config, w: World, id: int, c: Call, x: Input): Move {
    match c.pc
    case Load => Move(w, DoLoad(w, c, x))
    case Planning(base, version) => DoPlan(cfg, w, id, c, base, version, x)
    case Running(unit) => Move(w, DoExecute(c, unit, x))
    case LoadForResult(unit, r) => Move(w, DoLoadForResult(w, id, c, unit, r, x))
    case SaveResult(unit, q, version, claimed) => DoSaveResult(cfg, w, id, c, unit, q, version, claimed, x)
    case LoadForReconcile(unit, again) => Move(w, DoLoadForReconcile(w, id, c, unit, again, x))
    case SaveFailed(_, q, version, again) => DoSaveFailed(cfg, w, id, c, q, version, again, x)
    case Ended => Move(w, c)
  }

  // ---- Runs -----------------------------------------------------------------------------

  datatype Event = Begin(id: int, head: Sha, release: bool) | Run(id: int, x: Input) | Crash(id: int)
                 | MarkSession(head: Sha, state: Session, now: Time) | Rollover(head: Sha, now: Time)

  datatype System = System(world: World, calls: map<int, Call>)

  const INITIAL := System(World(None, 0, {}, {}), map[])

  /** The packet an operator command stores, if it is accepted. */
  function Operated(w: World, e: Event): Option<Packet> {
    if w.packet.None? then None
    else
      match e
      case MarkSession(head, state, now) =>
        if head == w.packet.value.target && Loads(w, now) then Some(Mark(w.packet.value, state)) else None
      case Rollover(head, now) =>
        var session := w.packet.value.session;
        if head == w.packet.value.target && Loads(w, now)
            && (session.ROLLOVER? || session.TIMEDOUT? || session.STALLED?)
        then Some(w.packet.value.(session := RESUMED)) else None
      case _ => None
  }

  function Next(cfg: Config, sys: System, e: Event): System {
    match e
    case Begin(id, head, release) =>
      if id in sys.calls then sys else sys.(calls := sys.calls[id := Call(head, release, Load)])
    case Run(id, x) =>
      if id !in sys.calls then sys
      else var m := Step(cfg, sys.world, id, sys.calls[id], x); System(m.world, sys.calls[id := m.call])
    case Crash(id) =>
      if id !in sys.calls then sys else sys.(calls := sys.calls[id := sys.calls[id].(pc := Ended)])
    case _ =>
      if !cfg.operators || Operated(sys.world, e).None? then sys
      else sys.(world := Replace(sys.world, Operated(sys.world, e).value))
  }

  function Exec(cfg: Config, events: seq<Event>): System {
    if events == [] then INITIAL
    else Next(cfg, Exec(cfg, events[..|events| - 1]), events[|events| - 1])
  }
}
