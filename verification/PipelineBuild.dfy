/** What the pipeline builds always passes the validators it is checked against. */
module PipelineBuild {
  import opened Common
  import opened Pipeline

  // ---- Receipts ---------------------------------------------------------------------------

  /** One item per assignment, in the assignments' order, attributed as assigned. */
  predicate Follows(r: Receipt) {
    && |r.items| == |r.auth.plan.assignments|
    && forall i | 0 <= i < |r.items| ::
         r.items[i].node == r.auth.plan.assignments[i].node && r.items[i].who == r.auth.plan.assignments[i].who
         && r.items[i].replay == ReplayKey(r.auth, r.items[i].node)
  }

  predicate Normalized(auth: Authorization, items: seq<Item>, raws: seq<Raw>) {
    |items| == |raws| == |auth.plan.assignments|
    && forall i | 0 <= i < |items| :: items[i] == Normalize(auth.plan.assignments[i], auth, raws[i])
  }

  /** Whatever the port answered, the receipt is valid and follows the assignments. */
  lemma ReceiptIsValid(effect: Id, auth: Authorization, items: seq<Item>, raws: seq<Raw>)
    requires AuthorizationOk(auth) && Normalized(auth, items, raws)
    ensures ReceiptOk(ReceiptFor(effect, auth, items)) && Follows(ReceiptFor(effect, auth, items))
  {
  }

  /** Every item has one of the four results. */
  lemma {:induction false} CountsAddUp(items: seq<Item>)
    ensures var c := CountsOf(items); c.dispatched + c.refused + c.human + c.errors == |items|
  {
    if items != [] {
      CountsAddUp(items[1..]);
    }
  }

  predicate SomeItem(items: seq<Item>, result: PortResult) {
    exists i | 0 <= i < |items| :: items[i].result == result
  }

  function ItemsWith(items: seq<Item>, result: PortResult): set<Item> {
    set x | x in items && x.result == result
  }

  /** The counts are the numbers of items with each result. */
  lemma {:induction false} CountIsSize(items: seq<Item>, result: PortResult)
    requires DistinctItems(items)
    ensures CountOf(items, result) == |ItemsWith(items, result)|
  {
    if items != [] {
      CountIsSize(items[1..], result);
      FirstItemIsNew(items);
      WithCons(items[0], items[1..], result);
      assert [items[0]] + items[1..] == items;
    }
  }

  lemma FirstItemIsNew(items: seq<Item>)
    requires items != [] && DistinctItems(items)
    ensures items[0] !in items[1..]
  {
    forall k | 0 <= k < |items[1..]| ensures items[1..][k] != items[0] {
      assert items[1..][k] == items[k + 1];
    }
  }

  lemma WithCons(x: Item, rest: seq<Item>, result: PortResult)
    requires x !in rest
    ensures |ItemsWith([x] + rest, result)| == |ItemsWith(rest, result)| + if x.result == result then 1 else 0
  {
    forall y ensures y in [x] + rest <==> y == x || y in rest {}
    assert ItemsWith([x] + rest, result) == ItemsWith(rest, result) + if x.result == result then {x} else {};
  }

  /** None, and all. */
  lemma {:induction false} CountBounds(items: seq<Item>, result: PortResult)
    ensures 0 <= CountOf(items, result) <= |items|
    ensures CountOf(items, result) == 0 <==> !SomeItem(items, result)
    ensures CountOf(items, result) == |items| <==> forall i | 0 <= i < |items| :: items[i].result == result
  {
    if items != [] {
      var rest := items[1..];
      CountBounds(rest, result);
      assert forall i | 0 <= i < |rest| :: rest[i] == items[i + 1];
      if SomeItem(rest, result) {
        var i :| 0 <= i < |rest| && rest[i].result == result;
        assert items[i + 1].result == result;
      }
      if SomeItem(items, result) && items[0].result != result {
        var i :| 0 <= i < |items| && items[i].result == result;
        assert rest[i - 1].result == result;
      }
    }
  }

  /** What the overall result of a receipt says of its items. */
  ghost predicate OverallSays(overall: Overall, items: seq<Item>) {
    && (overall.NeedsHuman? <==> exists i :: 0 <= i < |items| && items[i].result == HUMAN_REQUIRED)
    && (overall.AllDispatched? <==> forall i :: 0 <= i < |items| ==> items[i].result == DISPATCHED)
    && (overall.Failed? <==>
          forall i :: 0 <= i < |items| ==> items[i].result != DISPATCHED && items[i].result != HUMAN_REQUIRED)
    && (overall.Partial? <==>
          && (exists i :: 0 <= i < |items| && items[i].result == DISPATCHED)
          && (exists i :: 0 <= i < |items| && items[i].result != DISPATCHED)
          && (forall i :: 0 <= i < |items| ==> items[i].result != HUMAN_REQUIRED))
  }

  ghost predicate CountsSay(c: Counts, items: seq<Item>) {
    && c.dispatched == |ItemsWith(items, DISPATCHED)| && c.refused == |ItemsWith(items, REFUSED)|
    && c.human == |ItemsWith(items, HUMAN_REQUIRED)| && c.errors == |ItemsWith(items, ERROR)|
  }

  /** A valid receipt's result and counts say exactly what its items are. */
  lemma ReceiptSays(r: Receipt)
    requires ReceiptOk(r)
    ensures OverallSays(r.overall, r.items) && CountsSay(r.counts, r.items)
  {
    ResultSays(r.overall, r.items);
    CountIsSize(r.items, DISPATCHED);
    CountIsSize(r.items, REFUSED);
    CountIsSize(r.items, HUMAN_REQUIRED);
    CountIsSize(r.items, ERROR);
  }

  lemma ResultSays(overall: Overall, items: seq<Item>)
    requires items != [] && overall == OverallOf(CountsOf(items), |items|)
    ensures OverallSays(overall, items)
  {
    CountBounds(items, DISPATCHED);
    CountBounds(items, HUMAN_REQUIRED);
    assert items[0].result == DISPATCHED || items[0].result != DISPATCHED;
  }

  // ---- Joins ------------------------------------------------------------------------------

  datatype Observation = Observation(id: Id, effect: Id, receipt: Receipt, auth: Authorization, observedAt: int,
      outcomes: seq<NodeOutcome>)

  function InsertNode(o: NodeOutcome, os: seq<NodeOutcome>): seq<NodeOutcome> {
    if os == [] || o.node < os[0].node then [o] + os else [os[0]] + InsertNode(o, os[1..])
  }

  /** The outcomes by node. */
  function SortNodes(os: seq<NodeOutcome>): seq<NodeOutcome> {
    if os == [] then [] else InsertNode(os[0], SortNodes(os[1..]))
  }

  predicate ByNode(os: seq<NodeOutcome>) {
    forall i, j | 0 <= i < j < |os| :: os[i].node < os[j].node
  }

  lemma {:induction false} InsertNodeOk(o: NodeOutcome, os: seq<NodeOutcome>)
    requires ByNode(os) && forall k :: 0 <= k < |os| ==> os[k].node != o.node
    ensures ByNode(InsertNode(o, os)) && |InsertNode(o, os)| == |os| + 1
    ensures forall x :: x in InsertNode(o, os) <==> x == o || x in os
  {
    if os != [] && o.node >= os[0].node {
      var rest := InsertNode(o, os[1..]);
      InsertNodeOk(o, os[1..]);
      forall k | 0 <= k < |rest| ensures os[0].node < rest[k].node {
        assert rest[k] in rest;
      }
      assert os == [os[0]] + os[1..];
    }
  }

  /** Sorting keeps the outcomes and puts them in strictly increasing node order. */
  lemma {:induction false} SortNodesOk(os: seq<NodeOutcome>)
    requires DistinctOutcomes(os)
    ensures ByNode(SortNodes(os)) && |SortNodes(os)| == |os| && forall x :: x in SortNodes(os) <==> x in os
  {
    if os != [] {
      SortNodesOk(os[1..]);
      var rest := SortNodes(os[1..]);
      forall k | 0 <= k < |rest| ensures rest[k].node != os[0].node {
        assert rest[k] in os[1..];
      }
      InsertNodeOk(os[0], rest);
      assert os == [os[0]] + os[1..];
    }
  }

  /** One attributed outcome per dispatched item: the checks `build_concurrency_dispatch_join` makes. */
  predicate Answers(items: seq<Item>, os: seq<NodeOutcome>) {
    && |os| == CountOf(items, DISPATCHED) && DistinctOutcomes(os)
    && forall k | 0 <= k < |os| :: DispatchedAs(items, os[k].node, os[k].who)
  }

  function BuildJoin(es: seq<Effect>, o: Observation): Option<Join> {
    if !EffectsOk(es) || !Joinable(es, o.effect, o.receipt, o.auth) || !Answers(o.receipt.items, o.outcomes) then None
    else
      var os := SortNodes(o.outcomes);
      var omissions := OmissionsOf(o.receipt.items);
      Some(Join(o.id, o.effect, o.receipt, o.auth, o.observedAt, o.receipt.overall, JoinResultOf(os), |os|, |omissions|,
                CountOutcome(os, COMPLETE), CountOutcome(os, FAILED), CountOutcome(os, HUMAN), os, omissions))
  }

  function Nodes(os: seq<NodeOutcome>): set<Id> { set o | o in os :: o.node }

  function DispatchedNodes(items: seq<Item>): set<Id> { set x | x in items && x.result.DISPATCHED? :: x.node }

  lemma {:induction false} NodesCount(os: seq<NodeOutcome>)
    requires DistinctOutcomes(os)
    ensures |Nodes(os)| == |os|
  {
    if os != [] {
      NodesCount(os[1..]);
      assert os == [os[0]] + os[1..];
      assert Nodes(os) == Nodes(os[1..]) + {os[0].node};
      assert os[0].node !in Nodes(os[1..]);
    }
  }

  lemma {:induction false} DispatchedCount(items: seq<Item>)
    requires DistinctItems(items)
    ensures |DispatchedNodes(items)| == CountOf(items, DISPATCHED)
  {
    if items != [] {
      DispatchedCount(items[1..]);
      assert items == [items[0]] + items[1..];
      assert DispatchedNodes(items) ==
        DispatchedNodes(items[1..]) + if items[0].result.DISPATCHED? then {items[0].node} else {};
      assert items[0].node !in DispatchedNodes(items[1..]);
    }
  }

  lemma EqualCardinality(a: set<Id>, b: set<Id>)
    requires a <= b && |a| == |b|
    ensures a == b
  {
    assert |b - a| == 0;
  }

  /** As many distinct outcomes as dispatched nodes, all of them dispatched: none is left out. */
  lemma AnswersCover(items: seq<Item>, os: seq<NodeOutcome>)
    requires DistinctItems(items) && Answers(items, os)
    ensures OutcomesMatch(items, os)
  {
    NodesCount(os);
    DispatchedCount(items);
    forall n | n in Nodes(os) ensures n in DispatchedNodes(items) {
      var o :| o in os && o.node == n;
      var k :| 0 <= k < |os| && os[k] == o;
      assert DispatchedAs(items, os[k].node, os[k].who);
    }
    EqualCardinality(Nodes(os), DispatchedNodes(items));
    forall i | 0 <= i < |items| && items[i].result.DISPATCHED? ensures HasOutcome(os, items[i].node) {
      assert items[i] in items;
      assert items[i].node in Nodes(os);
    }
  }

  /** What is omitted: every item not dispatched, in order. */
  lemma OmissionsCount(items: seq<Item>)
    requires DistinctItems(items)
    ensures |OmissionsOf(items)| == |items| - CountOf(items, DISPATCHED)
    ensures forall k ::
        0 <= k < |OmissionsOf(items)| ==>
          !OmissionsOf(items)[k].result.DISPATCHED? && Omits(items, OmissionsOf(items)[k])
    ensures forall i, k ::
        0 <= i < k < |OmissionsOf(items)| ==> OmissionsOf(items)[i].node != OmissionsOf(items)[k].node
  {
    OmissionsLength(items);
    OmissionsStem(items);
    OmissionsDiffer(items);
  }

  lemma {:induction false} OmissionsLength(items: seq<Item>)
    ensures |OmissionsOf(items)| == |items| - CountOf(items, DISPATCHED)
  {
    if items != [] {
      OmissionsLength(items[1..]);
    }
  }

  lemma {:induction false} OmissionsStem(items: seq<Item>)
    ensures forall k ::
        0 <= k < |OmissionsOf(items)| ==>
          !OmissionsOf(items)[k].result.DISPATCHED? && Omits(items, OmissionsOf(items)[k])
  {
    if items != [] {
      OmissionsStem(items[1..]);
      var rest := OmissionsOf(items[1..]);
      forall k | 0 <= k < |rest| ensures Omits(items, rest[k]) {
        var i :| 0 <= i < |items[1..]| && items[1..][i].node == rest[k].node && items[1..][i].who == rest[k].who
            && items[1..][i].result == rest[k].result;
        assert items[i + 1] == items[1..][i];
      }
      assert items[0].result.DISPATCHED? || Omits(items, Omission(items[0].node, items[0].who, items[0].result));
    }
  }

  lemma {:induction false} OmissionsDiffer(items: seq<Item>)
    requires DistinctItems(items)
    ensures forall i, k ::
        0 <= i < k < |OmissionsOf(items)| ==> OmissionsOf(items)[i].node != OmissionsOf(items)[k].node
  {
    if items != [] {
      OmissionsDiffer(items[1..]);
      OmissionsStem(items[1..]);
      var rest := OmissionsOf(items[1..]);
      forall k | 0 <= k < |rest| ensures rest[k].node != items[0].node {
        assert Omits(items[1..], rest[k]);
      }
    }
  }

  predicate Omits(items: seq<Item>, o: Omission) {
    exists i | 0 <= i < |items| :: items[i].node == o.node && items[i].who == o.who && items[i].result == o.result
  }

  lemma AnswersAlike(items: seq<Item>, os: seq<NodeOutcome>, sorted: seq<NodeOutcome>)
    requires Answers(items, os) && ByNode(sorted) && |sorted| == |os| && forall x :: x in sorted <==> x in os
    ensures Answers(items, sorted)
  {
    forall k | 0 <= k < |sorted| ensures DispatchedAs(items, sorted[k].node, sorted[k].who) {
      assert sorted[k] in os;
      var i :| 0 <= i < |os| && os[i] == sorted[k];
    }
  }

  lemma OutcomesAndOmissionsDiffer(items: seq<Item>, os: seq<NodeOutcome>)
    requires DistinctItems(items) && Answers(items, os)
    ensures forall i, k :: 0 <= i < |os| && 0 <= k < |OmissionsOf(items)| ==> os[i].node != OmissionsOf(items)[k].node
  {
    OmissionsCount(items);
    forall i, k | 0 <= i < |os| && 0 <= k < |OmissionsOf(items)| ensures os[i].node != OmissionsOf(items)[k].node {
      assert DispatchedAs(items, os[i].node, os[i].who) && Omits(items, OmissionsOf(items)[k]);
    }
  }

  predicate SomeOutcome(os: seq<NodeOutcome>, outcome: Outcome) {
    exists i | 0 <= i < |os| :: os[i].outcome == outcome
  }

  lemma {:induction false} OutcomeBounds(os: seq<NodeOutcome>, outcome: Outcome)
    ensures 0 <= CountOutcome(os, outcome) <= |os|
    ensures CountOutcome(os, outcome) == 0 <==> !SomeOutcome(os, outcome)
    ensures CountOutcome(os, outcome) == |os| <==> forall i | 0 <= i < |os| :: os[i].outcome == outcome
  {
    if os != [] {
      var rest := os[1..];
      OutcomeBounds(rest, outcome);
      assert forall i | 0 <= i < |rest| :: rest[i] == os[i + 1];
      if SomeOutcome(rest, outcome) {
        var i :| 0 <= i < |rest| && rest[i].outcome == outcome;
        assert os[i + 1].outcome == outcome;
      }
      if SomeOutcome(os, outcome) && os[0].outcome != outcome {
        var i :| 0 <= i < |os| && os[i].outcome == outcome;
        assert rest[i - 1].outcome == outcome;
      }
    }
  }

  function OutcomesWith(os: seq<NodeOutcome>, outcome: Outcome): set<NodeOutcome> {
    set o | o in os && o.outcome == outcome
  }

  lemma {:induction false} OutcomeIsSize(os: seq<NodeOutcome>, outcome: Outcome)
    requires DistinctOutcomes(os)
    ensures CountOutcome(os, outcome) == |OutcomesWith(os, outcome)|
  {
    if os != [] {
      OutcomeIsSize(os[1..], outcome);
      FirstOutcomeIsNew(os);
      OutcomesCons(os[0], os[1..], outcome);
      assert [os[0]] + os[1..] == os;
    }
  }

  lemma FirstOutcomeIsNew(os: seq<NodeOutcome>)
    requires os != [] && DistinctOutcomes(os)
    ensures os[0] !in os[1..]
  {
    forall k | 0 <= k < |os[1..]| ensures os[1..][k] != os[0] {
      assert os[1..][k] == os[k + 1];
    }
  }

  lemma OutcomesCons(o: NodeOutcome, rest: seq<NodeOutcome>, outcome: Outcome)
    requires o !in rest
    ensures |OutcomesWith([o] + rest, outcome)| == |OutcomesWith(rest, outcome)| + if o.outcome == outcome then 1 else 0
  {
    forall y ensures y in [o] + rest <==> y == o || y in rest {}
    assert OutcomesWith([o] + rest, outcome) == OutcomesWith(rest, outcome) + if o.outcome == outcome then {o} else {};
  }

  /** What a join's result says of its outcomes. */
  ghost predicate JoinSays(result: JoinResult, os: seq<NodeOutcome>) {
    && (result.NEEDS_HUMAN? <==> exists i :: 0 <= i < |os| && os[i].outcome == HUMAN)
    && (result.PASS? <==> forall i :: 0 <= i < |os| ==> os[i].outcome == COMPLETE)
    && (result.FAIL? <==> forall i :: 0 <= i < |os| ==> os[i].outcome == FAILED)
    && (result.PARTIAL? <==>
          && (exists i :: 0 <= i < |os| && os[i].outcome == COMPLETE)
          && (exists i :: 0 <= i < |os| && os[i].outcome == FAILED)
          && (forall i :: 0 <= i < |os| ==> os[i].outcome != HUMAN))
  }

  lemma JoinResultSays(result: JoinResult, os: seq<NodeOutcome>)
    requires os != [] && result == JoinResultOf(os)
    ensures JoinSays(result, os)
  {
    OutcomeBounds(os, HUMAN);
    OutcomeBounds(os, COMPLETE);
    assert forall i | 0 <= i < |os| ::
        os[i].outcome == COMPLETE || os[i].outcome == FAILED || os[i].outcome == HUMAN;
    assert os[0].outcome == os[0].outcome;
  }

  /** A valid join's result and counts say exactly what its outcomes are. */
  lemma JoinSaysRight(j: Join)
    requires JoinOk(j)
    ensures JoinSays(j.result, j.outcomes)
    ensures j.complete == |OutcomesWith(j.outcomes, COMPLETE)| && j.failed == |OutcomesWith(j.outcomes, FAILED)|
    ensures j.human == |OutcomesWith(j.outcomes, HUMAN)|
  {
    JoinResultSays(j.result, j.outcomes);
    OutcomeIsSize(j.outcomes, COMPLETE);
    OutcomeIsSize(j.outcomes, FAILED);
    OutcomeIsSize(j.outcomes, HUMAN);
  }

  /** What a join can be built for: the effect's own terminal receipt, under its authorization, with
      something dispatched, nobody asked for, and one attributed outcome per dispatched item. */
  ghost predicate Joins(es: seq<Effect>, o: Observation) {
    && (exists i | 0 <= i < |es| :: es[i].effect == o.effect && es[i].receipt == Some(o.receipt))
    && o.receipt.auth == o.auth
    && SomeItem(o.receipt.items, DISPATCHED) && !SomeItem(o.receipt.items, HUMAN_REQUIRED)
    && DistinctOutcomes(o.outcomes) && OutcomesMatch(o.receipt.items, o.outcomes)
  }

  /** A join is built exactly for such an observation. */
  lemma BuiltExactly(es: seq<Effect>, o: Observation)
    requires EffectsOk(es)
    ensures BuildJoin(es, o).Some? <==> Joins(es, o)
  {
    FoundExactly(es, o.effect, o.receipt);
    if i :| 0 <= i < |es| && es[i].effect == o.effect && es[i].receipt == Some(o.receipt) {
      assert EffectOk(es[i]);
      JoinableResult(o.receipt);
      AnswersExactly(o.receipt.items, o.outcomes);
    }
  }

  lemma JoinableResult(r: Receipt)
    requires ReceiptOk(r)
    ensures r.overall.AllDispatched? || r.overall.Partial?
       <==> SomeItem(r.items, DISPATCHED) && !SomeItem(r.items, HUMAN_REQUIRED)
  {
    ReceiptSays(r);
  }

  lemma AnswersExactly(items: seq<Item>, os: seq<NodeOutcome>)
    requires DistinctItems(items)
    ensures Answers(items, os) <==> DistinctOutcomes(os) && OutcomesMatch(items, os)
  {
    if DistinctOutcomes(os) && OutcomesMatch(items, os) {
      MatchCounts(items, os);
    }
    if Answers(items, os) {
      AnswersCover(items, os);
    }
  }

  lemma {:induction false} FoundExactly(es: seq<Effect>, effect: Id, r: Receipt)
    requires forall i, j | 0 <= i < j < |es| :: es[i].effect != es[j].effect
    ensures TerminalReceipt(es, effect) == Some(r)
      <==> exists i | 0 <= i < |es| :: es[i].effect == effect && es[i].receipt == Some(r)
  {
    if es != [] {
      FoundExactly(es[1..], effect, r);
      assert forall i | 0 <= i < |es[1..]| :: es[1..][i] == es[i + 1];
      if TerminalReceipt(es, effect) == Some(r) && es[0].effect != effect {
        var i :| 0 <= i < |es[1..]| && es[1..][i].effect == effect && es[1..][i].receipt == Some(r);
        assert es[i + 1].effect == effect;
      }
      if i :| 0 <= i < |es| && es[i].effect == effect && es[i].receipt == Some(r) {
        assert i > 0 ==> es[1..][i - 1].effect == effect && es[1..][i - 1].receipt == Some(r);
      }
    }
  }

  lemma MatchCounts(items: seq<Item>, os: seq<NodeOutcome>)
    requires DistinctItems(items) && DistinctOutcomes(os) && OutcomesMatch(items, os)
    ensures |os| == CountOf(items, DISPATCHED)
  {
    NodesCount(os);
    DispatchedCount(items);
    forall n ensures n in Nodes(os) <==> n in DispatchedNodes(items) {
      if n in Nodes(os) {
        var o :| o in os && o.node == n;
        var k :| 0 <= k < |os| && os[k] == o;
        assert DispatchedAs(items, os[k].node, os[k].who);
      }
      if n in DispatchedNodes(items) {
        var x :| x in items && x.result.DISPATCHED? && x.node == n;
        var i :| 0 <= i < |items| && items[i] == x;
        assert HasOutcome(os, items[i].node);
      }
    }
    assert Nodes(os) == DispatchedNodes(items);
  }

  /** A built join passes its validator and its binding check, with outcomes in node order. */
  lemma BuiltJoinIsValid(es: seq<Effect>, o: Observation)
    requires BuildJoin(es, o).Some? && o.receipt.effect == o.effect && ReceiptOk(o.receipt)
    ensures JoinOk(BuildJoin(es, o).value) && JoinBound(es, BuildJoin(es, o).value)
      && ByNode(BuildJoin(es, o).value.outcomes)
  {
    var items := o.receipt.items;
    var os := SortNodes(o.outcomes);
    SortNodesOk(o.outcomes);
    AnswersAlike(items, o.outcomes, os);
    AnswersCover(items, os);
    OmissionsCount(items);
    OutcomesAndOmissionsDiffer(items, os);
  }
}
