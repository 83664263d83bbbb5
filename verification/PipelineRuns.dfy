/** The pipeline as it runs: many callers over one data root, each ledger update under the root's
    lock, anything else between two updates, and crashes anywhere. */
module PipelineRuns {
  import opened Common
  import opened Pipeline
  import opened PipelineBuild

  /** The ledgers of a data root, and the history the theorems speak of: port calls made, and the
      caller that reserved each authorization. */
  datatype World = World(plan: Plan, published: Option<Authorization>,
                         effects: seq<Effect>, records: seq<Record>, joins: seq<Join>,
                         handoffs: seq<Handoff>, claims: seq<Claim>, claimJoins: seq<ClaimJoin>,
                         calls: multiset<ReplayKey>, owner: map<Authorization, int>)

  /** Where a caller stands. `cycle` is absent for a dispatch that bypasses the execution ledger. */
  datatype Pc =
    | Built(auth: Authorization, cycle: Id, effect: Id)
    | RecordReserved(auth: Authorization, cycle: Id, effect: Id)
    | Ready(auth: Authorization, cycle: Id, effect: Id)
    | Calling(auth: Authorization, cycleOf: Option<Id>, effect: Id, items: map<int, Item>)
    | EffectDone(auth: Authorization, cycle: Id, effect: Id, receipt: Receipt)
    | JoinBuilt(join: Join)
    | ClaimReserved(claim: Id, handoff: Handoff)
    | ClaimJoinBuilt(claimJoin: ClaimJoin)
    | Over

  /** What a port does with a call: emit a durable handoff, or answer anything at all. */
  datatype PortAnswer = Emit(facts: int) | Foreign(raw: Raw)

  /** `viaStart`: dispatch goes only through `start_concurrency_execution`. */
  datatype Config = Config(viaStart: bool)

  datatype Move = Move(world: World, pc: Pc)

  // ---- Execution --------------------------------------------------------------------------

  function DoReserveRecord(w: World, auth: Authorization, cycle: Id, effect: Id): Move {
    var r := Record(cycle, auth, effect, None, None);
    if !RecordsOk(w.records) || |w.records| >= MAX_RECORDS
        || (exists i | 0 <= i < |w.records| :: SameReplay(w.records[i], r)) then Move(w, Over)
    else Move(w.(records := w.records + [r]), RecordReserved(auth, cycle, effect))
  }

  /** The authorization is rebuilt from the current plan, stored, and compared. */
  function DoPublish(w: World, auth: Authorization, cycle: Id, effect: Id): Move {
    var again := auth.(plan := w.plan);
    if !AuthorizationOk(again) then Move(w, Over)
    else Move(w.(published := Some(again)), if again == auth then Ready(auth, cycle, effect) else Over)
  }

  predicate CurrentAuthorization(w: World, auth: Authorization) {
    w.published == Some(auth) && w.plan == auth.plan && AuthorizationOk(auth)
  }

  /** One reservation per effect id and per authorization, before any port call. */
  function DoReserveEffect(w: World, t: int, auth: Authorization, cycle: Option<Id>, effect: Id, valid: bool): Move {
    if !CurrentAuthorization(w, auth) || !valid || !EffectsOk(w.effects) || |w.effects| >= MAX_EFFECTS
        || ReplaysEffect(w.effects, effect, auth)
    then Move(w, Over)
    else Move(w.(effects := w.effects + [Effect(effect, auth, None)], owner := w.owner[auth := t]),
        Calling(auth, cycle, effect, map[]))
  }

  function HandoffFor(auth: Authorization, effect: Id, a: Assignment, facts: int): Handoff {
    Handoff(effect, auth, ReplayKey(auth, a.node), a.node, a.repo, a.issue, a.who, facts)
  }

  predicate Emits(w: World, h: Handoff) { |w.handoffs| < MAX_HANDOFFS && h !in w.handoffs }

  /** One port call for the i-th assignment; calls overlap in any order. */
  function DoCall(w: World, auth: Authorization, cycle: Option<Id>, effect: Id, items: map<int, Item>, i: int,
      answer: PortAnswer): Move {
    if !(0 <= i < |auth.plan.assignments|) || i in items then Move(w, Calling(auth, cycle, effect, items))
    else
      var a := auth.plan.assignments[i];
      var h := HandoffFor(auth, effect, a, if answer.Emit? then answer.facts else 0);
      var emits := answer.Emit? && Emits(w, h);
      var raw := if answer.Foreign? then answer.raw else if emits then Answer(DISPATCHED, Some(HandoffDigest(h)))
          else Answer(HUMAN_REQUIRED, None);
      Move(w.(calls := w.calls + multiset{ReplayKey(auth, a.node)}, handoffs := if emits then w.handoffs + [h]
          else w.handoffs),
           Calling(auth, cycle, effect, items[i := Normalize(a, auth, raw)]))
  }

  predicate AllAnswered(auth: Authorization, items: map<int, Item>) {
    forall i | 0 <= i < |auth.plan.assignments| :: i in items
  }

  /** The items in assignment order, whatever the order of completion. */
  function InOrder(auth: Authorization, items: map<int, Item>): (s: seq<Item>)
    requires AllAnswered(auth, items)
    ensures |s| == |auth.plan.assignments|
  {
    seq(|auth.plan.assignments|, i requires 0 <= i < |auth.plan.assignments| => items[i])
  }

  function DoFinishEffect(w: World, auth: Authorization, cycle: Option<Id>, effect: Id, items: map<int, Item>): Move {
    if !AllAnswered(auth, items) then Move(w, Calling(auth, cycle, effect, items))
    else
      var r := ReceiptFor(effect, auth, InOrder(auth, items));
      var e := FindEffect(w.effects, effect);
      if !EffectsOk(w.effects) || !ReceiptOk(r) || e.None? || e.value.receipt.Some? then Move(w, Over)
      else Move(w.(effects := Finalized(w.effects, effect, r)),
                if cycle.Some? then EffectDone(auth, cycle.value, effect, r) else Over)
  }

  predicate Reserved(rs: seq<Record>, auth: Authorization, cycle: Id, effect: Id) {
    Record(cycle, auth, effect, None, None) in rs
  }

  function DoFinishRecord(w: World, auth: Authorization, cycle: Id, effect: Id, r: Receipt): Move {
    var open := Record(cycle, auth, effect, None, None);
    var done := Record(cycle, auth, effect, Some(r), Some(r.overall));
    if !RecordsOk(w.records) || !Reserved(w.records, auth, cycle, effect) then Move(w, Over)
    else Move(w.(records := Replaced(w.records, open, done)), Over)
  }

  function Replaced(rs: seq<Record>, open: Record, done: Record): seq<Record> {
    seq(|rs|, i requires 0 <= i < |rs| => if rs[i] == open then done else rs[i])
  }

  // ---- Joins and claims ---------------------------------------------------------------------

  function InsertJoin(js: seq<Join>, j: Join): seq<Join> {
    if js == [] || !Before(js[0], j) then [j] + js else [js[0]] + InsertJoin(js[1..], j)
  }

  /** Loading the join ledger re-validates every join against the effect ledger. */
  predicate JoinsLoad(es: seq<Effect>, js: seq<Join>) {
    EffectsOk(es) && JoinsOk(js) && forall i | 0 <= i < |js| :: JoinBound(es, js[i])
  }

  /** Appending and stably sorting a sorted ledger is inserting. */
  function DoRecordJoin(w: World, j: Join): Move {
    if !JoinsLoad(w.effects, w.joins) || |w.joins| >= MAX_JOINS || ReplaysJoin(w.joins, j) then Move(w, Over)
    else Move(w.(joins := InsertJoin(w.joins, j)), Over)
  }

  predicate Claimable(w: World, h: Handoff) {
    h in w.handoffs && HandoffsOk(w.handoffs) && EffectsOk(w.effects)
    && TerminalReceipt(w.effects, h.effect).Some?
        && SourceEffect(w.effects, h, TerminalReceipt(w.effects, h.effect).value)
  }

  /** `current`: packet and worktree facts still hold. */
  function DoReserveClaim(w: World, claim: Id, h: Handoff, current: bool): Move {
    if !current || !Claimable(w, h) || !ClaimsOk(w.claims) || |w.claims| >= MAX_CLAIMS
        || ReplaysClaim(w.claims, claim, h) then Move(w, Over)
    else Move(w.(claims := w.claims + [Claim(claim, h, None)]), ClaimReserved(claim, h))
  }

  function DoFinishClaim(w: World, claim: Id, h: Handoff, current: bool): Move {
    if !current || !Claimable(w, h) || !ClaimsOk(w.claims) || Claim(claim, h, None) !in w.claims then Move(w, Over)
    else Move(w.(claims := Settled(w.claims, claim,
        ClaimReceipt(claim, h, h, TerminalReceipt(w.effects, h.effect).value))), Over)
  }

  function Settled(cs: seq<Claim>, claim: Id, r: ClaimReceipt): seq<Claim> {
    seq(|cs|, i requires 0 <= i < |cs| => if cs[i].claim == claim then Claim(claim, r.handoff, Some(r)) else cs[i])
  }

  predicate Refers(w: World, j: Join, refs: map<Id, ClaimReceipt>) {
    && (forall k | 0 <= k < |j.outcomes| :: j.outcomes[k].node in refs
          && ClaimBinding(w.effects, w.handoffs, w.claims, j, Bind(j.outcomes[k], refs[j.outcomes[k].node])))
    && (forall i, k | 0 <= i < k < |j.outcomes| :: refs[j.outcomes[i].node] != refs[j.outcomes[k].node])
    && (forall n | n in refs :: HasOutcome(j.outcomes, n))
  }

  function Bind(o: NodeOutcome, c: ClaimReceipt): Binding {
    Binding(o.node, c, c.handoff, o.who, o.outcome, o.duration, o.evidence)
  }

  function Bindings(os: seq<NodeOutcome>, refs: map<Id, ClaimReceipt>): seq<Binding>
    requires forall k :: 0 <= k < |os| ==> os[k].node in refs
  {
    seq(|os|, k requires 0 <= k < |os| => Bind(os[k], refs[os[k].node]))
  }

  /** One claim per dispatched outcome, in node order. */
  function BuildClaimJoin(w: World, id: Id, j: Join, refs: map<Id, ClaimReceipt>): Option<ClaimJoin> {
    if j !in w.joins || !JoinsLoad(w.effects, w.joins) || !Refers(w, j, refs) then None
    else Some(ClaimJoin(id, j, j.result, j.complete, j.failed, j.human, Bindings(j.outcomes, refs), j.omissions))
  }

  function InsertClaimJoin(cs: seq<ClaimJoin>, c: ClaimJoin): seq<ClaimJoin> {
    if cs == [] || !ClaimJoinBefore(cs[0], c) then [c] + cs else [cs[0]] + InsertClaimJoin(cs[1..], c)
  }

  predicate ClaimJoinBefore(a: ClaimJoin, b: ClaimJoin) {
    a.join.observedAt < b.join.observedAt || (a.join.observedAt == b.join.observedAt && a.id <= b.id)
  }

  /** Loading the claim-bound ledger re-validates every entry against all four others. */
  predicate ClaimJoinsLoad(w: World) {
    ClaimJoinsOk(w.claimJoins)
        && forall i | 0 <= i < |w.claimJoins| ::
        ClaimJoinBound(w.effects, w.handoffs, w.claims, w.joins, w.claimJoins[i])
  }

  function DoRecordClaimJoin(w: World, c: ClaimJoin): Move {
    if !ClaimJoinsLoad(w) || !ClaimJoinBound(w.effects, w.handoffs, w.claims, w.joins, c) || |w.claimJoins| >= MAX_JOINS
       || (exists i | 0 <= i < |w.claimJoins| :: SameClaimReplay(w.claimJoins[i], c))
    then Move(w, Over)
    else Move(w.(claimJoins := InsertClaimJoin(w.claimJoins, c)), Over)
  }

  // ---- Runs -----------------------------------------------------------------------------

  datatype Event =
    | SetPlan(plan: Plan)
    | Publish(authId: Id, at: int)
    | Start(t: int, authId: Id, at: int, cycle: Id, effect: Id)
    | Direct(t: int, auth: Authorization, effect: Id, valid: bool)
    | StartJoin(t: int, observation: Observation)
    | StartClaim(t: int, claim: Id, handoff: Handoff, current: bool)
    | StartClaimJoin(t: int, id: Id, join: Join, refs: map<Id, ClaimReceipt>)
    | Run(t: int, index: int, answer: PortAnswer, valid: bool, finish: bool)
    | Crash(t: int)

  datatype System = System(world: World, threads: map<int, Pc>)

  const INITIAL := System(World(Plan(0, []), None, [], [], [], [], [], [], multiset{}, map[]), map[])

  /** The next ledger update, or port call, of a caller. */
  function Step(w: World, t: int, pc: Pc, e: Event): Move
    requires e.Run?
  {
    match pc
    case Built(auth, cycle, effect) => DoReserveRecord(w, auth, cycle, effect)
    case RecordReserved(auth, cycle, effect) => DoPublish(w, auth, cycle, effect)
    case Ready(auth, cycle, effect) => DoReserveEffect(w, t, auth, Some(cycle), effect, e.valid)
    case Calling(auth, cycle, effect, items) =>
      if e.finish then DoFinishEffect(w, auth, cycle, effect, items)
          else DoCall(w, auth, cycle, effect, items, e.index, e.answer)
    case EffectDone(auth, cycle, effect, r) => DoFinishRecord(w, auth, cycle, effect, r)
    case JoinBuilt(j) => DoRecordJoin(w, j)
    case ClaimReserved(claim, h) => DoFinishClaim(w, claim, h, e.valid)
    case ClaimJoinBuilt(c) => DoRecordClaimJoin(w, c)
    case Over => Move(w, Over)
  }

  /** What a new caller does first. */
  function Enter(cfg: Config, w: World, t: int, e: Event): Move {
    match e
    case Start(_, authId, at, cycle, effect) =>
      var auth := Authorization(authId, at, w.plan);
      Move(w, if AuthorizationOk(auth) then Built(auth, cycle, effect) else Over)
    case Direct(_, auth, effect, valid) => if cfg.viaStart then Move(w, Over)
        else DoReserveEffect(w, t, auth, None, effect, valid)
    case StartJoin(_, o) =>
        Move(w, if BuildJoin(w.effects, o).Some? then JoinBuilt(BuildJoin(w.effects, o).value) else Over)
    case StartClaim(_, claim, h, current) => DoReserveClaim(w, claim, h, current)
    case StartClaimJoin(_, id, j, refs) =>
        Move(w, if BuildClaimJoin(w, id, j, refs).Some? then ClaimJoinBuilt(BuildClaimJoin(w, id, j, refs).value)
        else Over)
    case _ => Move(w, Over)
  }

  function Next(cfg: Config, sys: System, e: Event): System {
    match e
    case SetPlan(plan) => sys.(world := sys.world.(plan := plan))
    case Publish(authId, at) =>
      var auth := Authorization(authId, at, sys.world.plan);
      if AuthorizationOk(auth) then sys.(world := sys.world.(published := Some(auth))) else sys
    case Run(t, _, _, _, _) =>
      if t !in sys.threads then sys
          else var m := Step(sys.world, t, sys.threads[t], e); System(m.world, sys.threads[t := m.pc])
    case Crash(t) => if t in sys.threads then sys.(threads := sys.threads[t := Over]) else sys
    case _ => if e.t in sys.threads then sys
        else var m := Enter(cfg, sys.world, e.t, e); System(m.world, sys.threads[e.t := m.pc])
  }

  function Exec(cfg: Config, events: seq<Event>): System {
    if events == [] then INITIAL else Next(cfg, Exec(cfg, events[..|events| - 1]), events[|events| - 1])
  }
}
