/** Whatever loads and passes re-validation once does so for ever: the source ledgers only grow, and
    an entry changes at most once, from in progress to terminal. */
module PipelineStable {
  import opened Common
  import opened Pipeline

  // ---- Effects ----------------------------------------------------------------------------

  /** Append-only, except that an entry without a receipt may get one. */
  predicate EffectsGrow(a: seq<Effect>, b: seq<Effect>) {
    |a| <= |b| && forall i | 0 <= i < |a| ::
          b[i] == a[i] || (a[i].receipt.None? && b[i].effect == a[i].effect && b[i].auth == a[i].auth)
  }

  lemma {:induction false} FindEffectAt(es: seq<Effect>, i: int)
    requires 0 <= i < |es| && forall j, k :: 0 <= j < k < |es| ==> es[j].effect != es[k].effect
    ensures FindEffect(es, es[i].effect) == Some(es[i])
  {
    if i > 0 {
      assert es[0].effect != es[i].effect;
      FindEffectAt(es[1..], i - 1);
    }
  }

  lemma {:induction false} FoundEffect(es: seq<Effect>, effect: Id) returns (i: int)
    requires FindEffect(es, effect).Some?
    ensures 0 <= i < |es| && es[i] == FindEffect(es, effect).value && es[i].effect == effect
  {
    if es[0].effect == effect {
      i := 0;
    } else {
      i := FoundEffect(es[1..], effect);
      i := i + 1;
    }
  }

  /** A terminal receipt is found for ever. */
  lemma TerminalStays(a: seq<Effect>, b: seq<Effect>, effect: Id)
    requires EffectsGrow(a, b) && EffectsOk(b) && TerminalReceipt(a, effect).Some?
    ensures TerminalReceipt(b, effect) == TerminalReceipt(a, effect)
  {
    var i := FoundEffect(a, effect);
    FindEffectAt(b, i);
  }

  lemma JoinStaysBound(a: seq<Effect>, b: seq<Effect>, j: Join)
    requires EffectsGrow(a, b) && EffectsOk(b) && JoinBound(a, j)
    ensures JoinBound(b, j)
  {
    TerminalStays(a, b, j.effect);
  }

  lemma RecordStaysBound(a: seq<Effect>, b: seq<Effect>, r: Record)
    requires EffectsGrow(a, b) && EffectsOk(b) && RecordBound(a, r)
    ensures RecordBound(b, r)
  {
    if r.receipt.Some? {
      TerminalStays(a, b, r.effect);
    }
  }

  lemma SourceStays(a: seq<Effect>, b: seq<Effect>, h: Handoff, r: Receipt)
    requires EffectsGrow(a, b) && EffectsOk(b) && SourceEffect(a, h, r)
    ensures SourceEffect(b, h, r)
  {
    TerminalStays(a, b, h.effect);
  }

  // ---- Claims ---------------------------------------------------------------------------

  predicate ClaimsGrow(a: seq<Claim>, b: seq<Claim>) {
    |a| <= |b| && forall i | 0 <= i < |a| :: b[i] == a[i] || a[i].receipt.None?
  }

  lemma ClaimStaysLoadable(e: seq<Effect>, f: seq<Effect>, hs: seq<Handoff>, hs': seq<Handoff>, cs: seq<Claim>,
      cs': seq<Claim>, c: ClaimReceipt)
    requires EffectsGrow(e, f) && EffectsOk(f) && hs <= hs' && ClaimsGrow(cs, cs') && ClaimLoads(e, hs, cs, c)
    ensures ClaimLoads(f, hs', cs', c)
  {
    var i :| 0 <= i < |cs| && cs[i].receipt == Some(c);
    assert cs'[i].receipt == Some(c);
    SourceStays(e, f, c.handoff, c.receipt);
  }

  /** A claim-bound join survives any growth of all four ledgers it rests on; the join ledger may
      even be re-sorted. */
  lemma ClaimJoinStaysBound(e: seq<Effect>, f: seq<Effect>, hs: seq<Handoff>, hs': seq<Handoff>, cs: seq<Claim>,
      cs': seq<Claim>,
                            js: seq<Join>, js': seq<Join>, c: ClaimJoin)
    requires EffectsGrow(e, f) && EffectsOk(f) && hs <= hs' && ClaimsGrow(cs, cs') && (forall j :: j in js ==> j in js')
    requires ClaimJoinBound(e, hs, cs, js, c)
    ensures ClaimJoinBound(f, hs', cs', js', c)
  {
    forall k | 0 <= k < |c.bindings| ensures ClaimBinding(f, hs', cs', c.join, c.bindings[k]) {
      ClaimStaysLoadable(e, f, hs, hs', cs, cs', c.bindings[k].claim);
    }
  }
}
