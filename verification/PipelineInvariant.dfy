/** What every ledger satisfies in every run, and what no step ever undoes. */
module PipelineInvariant {
  import opened Common
  import opened Pipeline
  import opened PipelineBuild
  import opened PipelineStable
  import opened PipelineRuns

  // ---- The invariant, ledger by ledger --------------------------------------------------------

  /** The effect ledger is valid and its receipts follow their assignments. */
  ghost predicate EffectsInv(es: seq<Effect>) {
    EffectsOk(es) && forall i ::
          0 <= i < |es| ==> AuthorizationOk(es[i].auth) && (es[i].receipt.Some? ==> Follows(es[i].receipt.value))
  }

  /** At most one port call per assignment of an authorization, only for reserved authorizations,
      and exactly one once the receipt is there. */
  ghost predicate CallsInv(es: seq<Effect>, owner: map<Authorization, int>, calls: multiset<ReplayKey>) {
    && (forall k :: calls[k] <= 1 && (calls[k] > 0 ==> k.auth in owner))
    && (forall i :: 0 <= i < |es| ==> es[i].auth in owner)
    && (forall a :: a in owner ==> HasAuth(es, a))
    && (forall i :: 0 <= i < |es| && es[i].receipt.Some? ==> AllCalled(calls, es[i].auth))
  }

  predicate HasAuth(es: seq<Effect>, a: Authorization) { exists i | 0 <= i < |es| :: es[i].auth == a }

  predicate AllCalled(calls: multiset<ReplayKey>, a: Authorization) {
    forall i | 0 <= i < |a.plan.assignments| :: calls[ReplayKey(a, a.plan.assignments[i].node)] == 1
  }

  ghost predicate RecordsInv(es: seq<Effect>, rs: seq<Record>) {
    RecordsOk(rs) && forall i :: 0 <= i < |rs| ==> RecordBound(es, rs[i])
  }

  ghost predicate JoinsInv(es: seq<Effect>, js: seq<Join>) {
    JoinsOk(js) && forall i :: 0 <= i < |js| ==> JoinBound(es, js[i]) && ByNode(js[i].outcomes)
  }

  /** Every handoff stems from its own port call under its own effect. */
  ghost predicate HandoffsInv(es: seq<Effect>, calls: multiset<ReplayKey>, hs: seq<Handoff>) {
    && HandoffsOk(hs)
    && forall i :: 0 <= i < |hs|
        ==> hs[i].replay == ReplayKey(hs[i].auth, hs[i].node) && calls[hs[i].replay] > 0 && UnderEffect(es, hs[i])
  }

  predicate UnderEffect(es: seq<Effect>, h: Handoff) { exists i | 0 <= i < |es| ::
        es[i].effect == h.effect && es[i].auth == h.auth }

  ghost predicate ClaimsInv(es: seq<Effect>, hs: seq<Handoff>, cs: seq<Claim>) {
    ClaimsOk(cs) && forall i :: 0 <= i < |cs| && cs[i].receipt.Some? ==> ReceiptBound(es, hs, cs[i].receipt.value)
  }

  ghost predicate ClaimJoinsInv(w: World) { ClaimJoinsLoad(w) }

  ghost predicate WorldInv(w: World) {
    && EffectsInv(w.effects) && CallsInv(w.effects, w.owner, w.calls) && RecordsInv(w.effects, w.records)
    && JoinsInv(w.effects, w.joins) && HandoffsInv(w.effects, w.calls, w.handoffs)
        && ClaimsInv(w.effects, w.handoffs, w.claims)
    && ClaimJoinsInv(w)
  }

  // ---- A caller -------------------------------------------------------------------------------

  predicate ItemOk(a: Assignment, auth: Authorization, x: Item) {
    x == Item(a.node, a.who, ReplayKey(auth, a.node), x.result, x.ref) && (x.result.DISPATCHED? <==> x.ref.Some?)
  }

  predicate ItemsOk(auth: Authorization, items: map<int, Item>) {
    forall i | i in items :: 0 <= i < |auth.plan.assignments| && ItemOk(auth.plan.assignments[i], auth, items[i])
  }

  /** Exactly the answered assignments have been called. */
  predicate CalledSoFar(calls: multiset<ReplayKey>, auth: Authorization, items: map<int, Item>) {
    forall i | 0 <= i < |auth.plan.assignments| ::
        calls[ReplayKey(auth, auth.plan.assignments[i].node)] == if i in items then 1 else 0
  }

  ghost predicate ThreadInv(w: World, t: int, pc: Pc) {
    match pc
    case Calling(auth, _, effect, items) =>
      && Get(w.owner, auth) == Some(t) && Effect(effect, auth, None) in w.effects && AuthorizationOk(auth)
      && ItemsOk(auth, items) && CalledSoFar(w.calls, auth, items)
    case EffectDone(auth, _, effect, r) =>
        TerminalReceipt(w.effects, effect) == Some(r) && r.auth == auth && r.effect == effect
    case JoinBuilt(j) => JoinOk(j) && JoinBound(w.effects, j) && ByNode(j.outcomes)
    case ClaimJoinBuilt(c) => ClaimJoinOk(c)
    case _ => true
  }

  // ---- What never goes back ---------------------------------------------------------------------

  ghost predicate Grows(a: World, b: World) {
    && EffectsGrow(a.effects, b.effects) && a.handoffs <= b.handoffs && ClaimsGrow(a.claims, b.claims)
    && (forall j :: j in a.joins ==> j in b.joins) && (forall c :: c in a.claimJoins ==> c in b.claimJoins)
    && RecordsGrow(a.records, b.records)
    && (forall k :: a.calls[k] <= b.calls[k]) && (forall x :: x in a.owner ==> Get(b.owner, x) == Some(a.owner[x]))
  }

  predicate RecordsGrow(a: seq<Record>, b: seq<Record>) {
    |a| <= |b| && forall i | 0 <= i < |a| ::
          b[i] == a[i] || (a[i].receipt.None? && b[i] == a[i].(receipt := b[i].receipt, result := b[i].result))
  }

  /** A step of caller t leaves the calls and entries of other callers' authorizations alone. */
  ghost predicate Respects(a: World, b: World, t: int) {
    forall x :: x in a.owner && a.owner[x] != t ==>
      && (forall n :: b.calls[ReplayKey(x, n)] == a.calls[ReplayKey(x, n)])
      && (forall f :: Effect(f, x, None) in a.effects ==> Effect(f, x, None) in b.effects)
  }

  lemma OtherThread(a: World, b: World, t: int, other: int, pc: Pc)
    requires Grows(a, b) && Respects(a, b, t) && EffectsOk(b.effects) && other != t && ThreadInv(a, other, pc)
    ensures ThreadInv(b, other, pc)
  {
    match pc
    case Calling(auth, _, effect, items) =>
      assert CalledSoFar(a.calls, auth, items);
    case EffectDone(_, _, effect, _) => TerminalStays(a.effects, b.effects, effect);
    case JoinBuilt(j) => JoinStaysBound(a.effects, b.effects, j);
    case _ =>
  }

  /** Growth of what a ledger rests on keeps the ledger. */
  lemma RecordsStay(es: seq<Effect>, fs: seq<Effect>, rs: seq<Record>)
    requires EffectsGrow(es, fs) && EffectsOk(fs) && RecordsInv(es, rs)
    ensures RecordsInv(fs, rs)
  {
    forall i | 0 <= i < |rs| ensures RecordBound(fs, rs[i]) {
      RecordStaysBound(es, fs, rs[i]);
    }
  }

  lemma JoinsStay(es: seq<Effect>, fs: seq<Effect>, js: seq<Join>)
    requires EffectsGrow(es, fs) && EffectsOk(fs) && JoinsInv(es, js)
    ensures JoinsInv(fs, js)
  {
    forall i | 0 <= i < |js| ensures JoinBound(fs, js[i]) {
      JoinStaysBound(es, fs, js[i]);
    }
  }

  lemma ClaimsStay(es: seq<Effect>, fs: seq<Effect>, hs: seq<Handoff>, hs': seq<Handoff>, cs: seq<Claim>)
    requires EffectsGrow(es, fs) && EffectsOk(fs) && hs <= hs' && ClaimsInv(es, hs, cs)
    ensures ClaimsInv(fs, hs', cs)
  {
    forall i | 0 <= i < |cs| && cs[i].receipt.Some? ensures ReceiptBound(fs, hs', cs[i].receipt.value) {
      SourceStays(es, fs, cs[i].receipt.value.handoff, cs[i].receipt.value.receipt);
    }
  }

  lemma ClaimJoinsStay(a: World, b: World)
    requires EffectsGrow(a.effects, b.effects) && EffectsOk(b.effects) && a.handoffs <= b.handoffs
      && ClaimsGrow(a.claims, b.claims)
    requires (forall j :: j in a.joins ==> j in b.joins) && b.claimJoins == a.claimJoins && ClaimJoinsInv(a)
    ensures ClaimJoinsInv(b)
  {
    forall i | 0 <= i < |b.claimJoins|
        ensures ClaimJoinBound(b.effects, b.handoffs, b.claims, b.joins, b.claimJoins[i]) {
      ClaimJoinStaysBound(a.effects, b.effects, a.handoffs, b.handoffs, a.claims, b.claims, a.joins, b.joins,
          b.claimJoins[i]);
    }
  }

  lemma UnderStays(es: seq<Effect>, fs: seq<Effect>, calls: multiset<ReplayKey>, more: multiset<ReplayKey>,
      hs: seq<Handoff>)
    requires EffectsGrow(es, fs) && HandoffsInv(es, calls, hs) && forall k :: calls[k] <= more[k]
    ensures HandoffsInv(fs, more, hs)
  {
    forall i | 0 <= i < |hs| ensures UnderEffect(fs, hs[i]) && more[hs[i].replay] > 0 {
      var k :| 0 <= k < |es| && es[k].effect == hs[i].effect && es[k].auth == hs[i].auth;
      assert fs[k].effect == hs[i].effect;
      assert calls[hs[i].replay] > 0;
    }
  }

  /** A change of the effect ledger that is a growth carries the whole rest along. */
  lemma EffectsChange(w: World, v: World)
    requires WorldInv(w) && v == w.(effects := v.effects, owner := v.owner) && EffectsGrow(w.effects, v.effects)
      && EffectsInv(v.effects)
    requires CallsInv(v.effects, v.owner, v.calls)
    ensures WorldInv(v)
  {
    RecordsStay(w.effects, v.effects, w.records);
    JoinsStay(w.effects, v.effects, w.joins);
    ClaimsStay(w.effects, v.effects, w.handoffs, w.handoffs, w.claims);
    UnderStays(w.effects, v.effects, w.calls, w.calls, w.handoffs);
    ClaimJoinsStay(w, v);
  }
}
