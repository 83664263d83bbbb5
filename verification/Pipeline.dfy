/** The documents of the concurrency pipeline and the validators that bind each to the ones before
    it. A content digest is represented by the content itself: digests are injective. */
module Pipeline {
  import opened Common

  type Id = int

  // ---- Plan and authorization ---------------------------------------------------------------

  /** Who executes a node: slot, worker, provider, runtime, route, at which head. */
  datatype Attribution = Attribution(slot: Id, worker: Id, provider: Id, runtime: Id, route: Option<Id>, head: Id)
  datatype Assignment = Assignment(node: Id, repo: Id, issue: int, who: Attribution)
  datatype Plan = Plan(observedAt: int, assignments: seq<Assignment>)
  datatype Authorization = Authorization(id: Id, evaluatedAt: int, plan: Plan)

  predicate AuthorizationOk(a: Authorization) {
    var s := a.plan.assignments;
    2 <= |s| <= 64 &&
    forall i, j | 0 <= i < j < |s| :: s[i].node != s[j].node && s[i].who.slot != s[j].who.slot
        && s[i].who.worker != s[j].who.worker
  }

  // ---- Dispatch effect ----------------------------------------------------------------------

  datatype ReplayKey = ReplayKey(auth: Authorization, node: Id)

  /** A handoff authorization; `facts` stands for packet, worktree and risk facts. */
  datatype Handoff = Handoff(effect: Id, auth: Authorization, replay: ReplayKey, node: Id, repo: Id, issue: int,
      who: Attribution, facts: int)

  datatype Ref = HandoffDigest(handoff: Handoff) | ForeignRef(id: Id)

  datatype PortResult = DISPATCHED | REFUSED | HUMAN_REQUIRED | ERROR
  datatype Item = Item(node: Id, who: Attribution, replay: ReplayKey, result: PortResult, ref: Option<Ref>)

  /** What a port call comes to: an exception or a malformed answer, or a result with a reference. */
  datatype Raw = Broken | Answer(result: PortResult, ref: Option<Ref>)

  function Normalize(a: Assignment, auth: Authorization, raw: Raw): Item {
    var ok := raw.Answer? && !raw.result.ERROR? && (raw.result.DISPATCHED? <==> raw.ref.Some?);
    Item(a.node, a.who, ReplayKey(auth, a.node), if ok then raw.result else ERROR, if ok then raw.ref else None)
  }

  datatype Counts = Counts(dispatched: int, refused: int, human: int, errors: int)

  function CountOf(items: seq<Item>, result: PortResult): nat {
    if items == [] then 0 else (if items[0].result == result then 1 else 0) + CountOf(items[1..], result)
  }

  function CountsOf(items: seq<Item>): Counts {
    Counts(CountOf(items, DISPATCHED), CountOf(items, REFUSED), CountOf(items, HUMAN_REQUIRED), CountOf(items, ERROR))
  }

  datatype Overall = AllDispatched | Partial | Failed | NeedsHuman

  function OverallOf(c: Counts, n: int): Overall {
    if c.human != 0 then NeedsHuman else if c.dispatched == n then AllDispatched
        else if c.dispatched != 0 then Partial else Failed
  }

  datatype Receipt = Receipt(effect: Id, auth: Authorization, overall: Overall, counts: Counts, items: seq<Item>)

  function ReceiptFor(effect: Id, auth: Authorization, items: seq<Item>): Receipt {
    Receipt(effect, auth, OverallOf(CountsOf(items), |items|), CountsOf(items), items)
  }

  predicate DistinctItems(items: seq<Item>) {
    forall i, j | 0 <= i < j < |items| :: items[i].node != items[j].node
  }

  /** `validate_concurrency_effect_receipt`. */
  predicate ReceiptOk(r: Receipt) {
    && |r.items| >= 2 && DistinctItems(r.items)
    && (forall i | 0 <= i < |r.items| :: r.items[i].result.DISPATCHED? <==> r.items[i].ref.Some?)
    && r.counts == CountsOf(r.items) && r.overall == OverallOf(r.counts, |r.items|)
  }

  /** IN_PROGRESS while there is no receipt, TERMINAL afterwards. */
  datatype Effect = Effect(effect: Id, auth: Authorization, receipt: Option<Receipt>)

  const MAX_EFFECTS := 500
  const MAX_RECORDS := 500
  const MAX_JOINS := 500
  const MAX_HANDOFFS := 512
  const MAX_CLAIMS := 512

  predicate EffectOk(e: Effect) {
    && 2 <= |e.auth.plan.assignments| <= 64
    && (e.receipt.Some? ==>
          ReceiptOk(e.receipt.value) && e.receipt.value.effect == e.effect && e.receipt.value.auth == e.auth
                            && |e.receipt.value.items| == |e.auth.plan.assignments|)
  }

  /** `validate_concurrency_effect_ledger`. */
  predicate EffectsOk(es: seq<Effect>) {
    && |es| <= MAX_EFFECTS && (forall i | 0 <= i < |es| :: EffectOk(es[i]))
    && (forall i, j | 0 <= i < j < |es| :: es[i].effect != es[j].effect && es[i].auth != es[j].auth)
  }

  function FindEffect(es: seq<Effect>, effect: Id): Option<Effect> {
    if es == [] then None else if es[0].effect == effect then Some(es[0]) else FindEffect(es[1..], effect)
  }

  /** The terminal receipt of an effect. */
  function TerminalReceipt(es: seq<Effect>, effect: Id): Option<Receipt> {
    var e := FindEffect(es, effect);
    if e.Some? then e.value.receipt else None
  }

  predicate ReplaysEffect(es: seq<Effect>, effect: Id, auth: Authorization) {
    exists i | 0 <= i < |es| :: es[i].effect == effect || es[i].auth == auth
  }

  function Finalized(es: seq<Effect>, effect: Id, r: Receipt): seq<Effect> {
    seq(|es|, i requires 0 <= i < |es| => if es[i].effect == effect then Effect(effect, r.auth, Some(r)) else es[i])
  }

  // ---- Execution records -----------------------------------------------------------------------

  datatype Record = Record(cycle: Id, auth: Authorization, effect: Id, receipt: Option<Receipt>,
      result: Option<Overall>)

  predicate SameReplay(a: Record, b: Record) {
    a.cycle == b.cycle || a.auth.plan == b.auth.plan || a.auth == b.auth || a.effect == b.effect
  }

  /** `validate_concurrency_execution_ledger`. */
  predicate RecordsOk(rs: seq<Record>) {
    && |rs| <= MAX_RECORDS && (forall i | 0 <= i < |rs| :: rs[i].receipt.Some? <==> rs[i].result.Some?)
    && (forall i, j | 0 <= i < j < |rs| :: !SameReplay(rs[i], rs[j]))
  }

  /** `_validate_terminal_binding`. */
  predicate RecordBound(es: seq<Effect>, r: Record) {
    r.receipt.Some? ==>
      && TerminalReceipt(es, r.effect) == r.receipt && r.receipt.value.auth == r.auth
      && r.receipt.value.effect == r.effect && r.result == Some(r.receipt.value.overall)
  }

  // ---- Joins ------------------------------------------------------------------------------

  datatype Outcome = COMPLETE | FAILED | HUMAN
  datatype NodeOutcome = NodeOutcome(node: Id, who: Attribution, outcome: Outcome, duration: int, evidence: Id)
  datatype Omission = Omission(node: Id, who: Attribution, result: PortResult)
  datatype JoinResult = PASS | PARTIAL | FAIL | NEEDS_HUMAN

  datatype Join = Join(id: Id, effect: Id, receipt: Receipt, auth: Authorization, observedAt: int,
      effectResult: Overall,
                       result: JoinResult, dispatched: int, omitted: int, complete: int, failed: int, human: int,
                       outcomes: seq<NodeOutcome>, omissions: seq<Omission>)

  function CountOutcome(os: seq<NodeOutcome>, outcome: Outcome): nat {
    if os == [] then 0 else (if os[0].outcome == outcome then 1 else 0) + CountOutcome(os[1..], outcome)
  }

  function JoinResultOf(os: seq<NodeOutcome>): JoinResult {
    if CountOutcome(os, HUMAN) != 0 then NEEDS_HUMAN
    else if CountOutcome(os, COMPLETE) == |os| then PASS
    else if CountOutcome(os, COMPLETE) != 0 then PARTIAL else FAIL
  }

  predicate DistinctOutcomes(os: seq<NodeOutcome>) {
    forall i, j | 0 <= i < j < |os| :: os[i].node != os[j].node
  }

  /** `validate_concurrency_dispatch_join`. */
  predicate JoinOk(j: Join) {
    && (j.effectResult.AllDispatched? || j.effectResult.Partial?)
    && j.outcomes != [] && DistinctOutcomes(j.outcomes)
    && (forall i, k | 0 <= i < k < |j.omissions| :: j.omissions[i].node != j.omissions[k].node)
    && (forall i, k | 0 <= i < |j.outcomes| && 0 <= k < |j.omissions| :: j.outcomes[i].node != j.omissions[k].node)
    && (forall k | 0 <= k < |j.omissions| :: !j.omissions[k].result.DISPATCHED?)
    && j.complete == CountOutcome(j.outcomes, COMPLETE) && j.failed == CountOutcome(j.outcomes, FAILED)
        && j.human == CountOutcome(j.outcomes, HUMAN)
    && j.dispatched == |j.outcomes| && j.omitted == |j.omissions| && j.result == JoinResultOf(j.outcomes)
  }

  function OmissionsOf(items: seq<Item>): seq<Omission> {
    if items == [] then
      []
    else
      (if items[0].result.DISPATCHED? then [] else [Omission(items[0].node, items[0].who, items[0].result)])
      + OmissionsOf(items[1..])
  }

  predicate DispatchedAs(items: seq<Item>, node: Id, who: Attribution) {
    exists i | 0 <= i < |items| :: items[i].node == node && items[i].result.DISPATCHED? && items[i].who == who
  }

  predicate HasOutcome(os: seq<NodeOutcome>, node: Id) {
    exists k | 0 <= k < |os| :: os[k].node == node
  }

  /** The outcomes are exactly those of the dispatched items, attributed alike. */
  predicate OutcomesMatch(items: seq<Item>, os: seq<NodeOutcome>) {
    && (forall k | 0 <= k < |os| :: DispatchedAs(items, os[k].node, os[k].who))
    && (forall i | 0 <= i < |items| :: items[i].result.DISPATCHED? ==> HasOutcome(os, items[i].node))
  }

  predicate Joinable(es: seq<Effect>, effect: Id, r: Receipt, auth: Authorization) {
    TerminalReceipt(es, effect) == Some(r) && r.auth == auth && (r.overall.AllDispatched? || r.overall.Partial?)
  }

  /** `_validate_join_binding`. */
  predicate JoinBound(es: seq<Effect>, j: Join) {
    && Joinable(es, j.effect, j.receipt, j.auth) && j.receipt.effect == j.effect
    && j.effectResult == j.receipt.overall && j.dispatched == j.receipt.counts.dispatched
    && j.omitted == |j.receipt.items| - j.receipt.counts.dispatched
    && OutcomesMatch(j.receipt.items, j.outcomes) && j.omissions == OmissionsOf(j.receipt.items)
  }

  /** Ledger order: by observation time, then by id. */
  predicate Before(a: Join, b: Join) {
    a.observedAt < b.observedAt || (a.observedAt == b.observedAt && a.id <= b.id)
  }

  predicate Sorted(js: seq<Join>) {
    forall i, k | 0 <= i < k < |js| :: Before(js[i], js[k])
  }

  predicate JoinsOk(js: seq<Join>) {
    && |js| <= MAX_JOINS && Sorted(js)
    && (forall i | 0 <= i < |js| :: JoinOk(js[i]))
    && (forall i, k | 0 <= i < k < |js| :: js[i].id != js[k].id && js[i].receipt != js[k].receipt)
  }

  predicate ReplaysJoin(js: seq<Join>, j: Join) {
    exists i | 0 <= i < |js| :: js[i].id == j.id || js[i].receipt == j.receipt
  }

  // ---- Handoffs and claims --------------------------------------------------------------------

  /** `validate_concurrency_handoff_ledger`. */
  predicate HandoffsOk(hs: seq<Handoff>) {
    forall i, j | 0 <= i < j < |hs| ::
      hs[i] != hs[j] && hs[i].replay != hs[j].replay && !(hs[i].effect == hs[j].effect && hs[i].node == hs[j].node)
  }

  /** A claim receipt names its handoff by digest and copies its fields. */
  datatype ClaimReceipt = ClaimReceipt(claim: Id, handoff: Handoff, copied: Handoff, receipt: Receipt)
  datatype Claim = Claim(claim: Id, handoff: Handoff, receipt: Option<ClaimReceipt>)

  predicate ClaimOk(c: Claim) {
    c.receipt.Some? ==> c.receipt.value.claim == c.claim && c.receipt.value.handoff == c.handoff
  }

  /** `validate_concurrency_claim_ledger`. */
  predicate ClaimsOk(cs: seq<Claim>) {
    && (forall i | 0 <= i < |cs| :: ClaimOk(cs[i]))
    && (forall i, j | 0 <= i < j < |cs| :: cs[i].claim != cs[j].claim && cs[i].handoff != cs[j].handoff)
  }

  predicate ReplaysClaim(cs: seq<Claim>, claim: Id, h: Handoff) {
    exists i | 0 <= i < |cs| :: cs[i].claim == claim || cs[i].handoff == h
  }

  predicate ItemFor(items: seq<Item>, h: Handoff) {
    exists i | 0 <= i < |items| :: items[i] == Item(h.node, h.who, h.replay, DISPATCHED, Some(HandoffDigest(h)))
  }

  /** `_validate_source_effect`: the receipt that dispatched this very handoff. */
  predicate SourceEffect(es: seq<Effect>, h: Handoff, r: Receipt) {
    && TerminalReceipt(es, h.effect) == Some(r) && r.effect == h.effect && r.auth == h.auth && ItemFor(r.items, h)
  }

  /** `get_concurrency_handoff_claim`: a terminal receipt rebound to its sources. */
  predicate ReceiptBound(es: seq<Effect>, hs: seq<Handoff>, c: ClaimReceipt) {
    c.handoff in hs && c.copied == c.handoff && SourceEffect(es, c.handoff, c.receipt)
  }

  predicate ClaimLoads(es: seq<Effect>, hs: seq<Handoff>, cs: seq<Claim>, c: ClaimReceipt) {
    (exists i | 0 <= i < |cs| :: cs[i].receipt == Some(c)) && ReceiptBound(es, hs, c)
  }

  // ---- Claim-bound joins ------------------------------------------------------------------------

  datatype Binding = Binding(node: Id, claim: ClaimReceipt, handoff: Handoff, who: Attribution, outcome: Outcome,
      duration: int, evidence: Id)
  datatype ClaimJoin = ClaimJoin(id: Id, join: Join, result: JoinResult, complete: int, failed: int, human: int,
                                 bindings: seq<Binding>, omissions: seq<Omission>)

  function OutcomeOf(b: Binding): NodeOutcome {
    NodeOutcome(b.node, b.who, b.outcome, b.duration, b.evidence)
  }

  function OutcomesOf(bs: seq<Binding>): (os: seq<NodeOutcome>)
    ensures |os| == |bs|
  {
    seq(|bs|, i requires 0 <= i < |bs| => OutcomeOf(bs[i]))
  }

  /** The claim of a binding loads, is for this join's dispatch, and is attributed alike. */
  predicate ClaimBinding(es: seq<Effect>, hs: seq<Handoff>, cs: seq<Claim>, j: Join, b: Binding) {
    && ClaimLoads(es, hs, cs, b.claim) && b.claim.receipt == j.receipt && b.handoff == b.claim.handoff
    && b.handoff.effect == j.effect && b.handoff.auth == j.auth && b.handoff.node == b.node && b.handoff.who == b.who
  }

  predicate HasBinding(bs: seq<Binding>, node: Id) {
    exists k | 0 <= k < |bs| :: bs[k].node == node
  }

  predicate BindingsMatch(j: Join, bs: seq<Binding>) {
    && (forall k | 0 <= k < |bs| :: OutcomeOf(bs[k]) in j.outcomes)
    && (forall i | 0 <= i < |j.outcomes| :: HasBinding(bs, j.outcomes[i].node))
  }

  /** `validate_concurrency_claim_bound_join_evidence`. */
  predicate ClaimJoinOk(c: ClaimJoin) {
    && c.bindings != []
        && (forall i, k | 0 <= i < k < |c.bindings| ::
              c.bindings[i].node != c.bindings[k].node && c.bindings[i].claim != c.bindings[k].claim)
    && (forall i, k | 0 <= i < |c.bindings| && 0 <= k < |c.omissions| :: c.bindings[i].node != c.omissions[k].node)
    && (forall i, k | 0 <= i < k < |c.omissions| :: c.omissions[i].node != c.omissions[k].node)
    && c.complete == CountOutcome(OutcomesOf(c.bindings), COMPLETE)
        && c.failed == CountOutcome(OutcomesOf(c.bindings), FAILED)
    && c.human == CountOutcome(OutcomesOf(c.bindings), HUMAN) && c.result == JoinResultOf(OutcomesOf(c.bindings))
  }

  /** `_validate_binding`. */
  predicate ClaimJoinBound(es: seq<Effect>, hs: seq<Handoff>, cs: seq<Claim>, js: seq<Join>, c: ClaimJoin) {
    && c.join in js && c.result == c.join.result && c.complete == c.join.complete && c.failed == c.join.failed
        && c.human == c.join.human
    && c.omissions == c.join.omissions && BindingsMatch(c.join, c.bindings)
    && (forall k | 0 <= k < |c.bindings| :: ClaimBinding(es, hs, cs, c.join, c.bindings[k]))
  }

  predicate SharesClaim(a: ClaimJoin, b: ClaimJoin) {
    exists i, k | 0 <= i < |a.bindings| && 0 <= k < |b.bindings| :: a.bindings[i].claim == b.bindings[k].claim
  }

  predicate SameClaimReplay(a: ClaimJoin, b: ClaimJoin) {
    a.id == b.id || a.join == b.join || SharesClaim(a, b)
  }

  predicate ClaimJoinsOk(cs: seq<ClaimJoin>) {
    && |cs| <= MAX_JOINS && (forall i | 0 <= i < |cs| :: ClaimJoinOk(cs[i]))
    && (forall i, k | 0 <= i < k < |cs| :: !SameClaimReplay(cs[i], cs[k]))
  }
}
