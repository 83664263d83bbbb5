/** Concurrency admission: the greedy planner, its optimality, and the authorizer's checks. */
module Admission {
  import opened Common

  type Id = nat        // node, slot, worker, repository, provider ... names
  type Time = int      // seconds

  datatype SlotState = Available | Busy | Unavailable | Unknown
  datatype Gate = Allow | Deny | GateUnknown

  /** Gates in the order of SLOT_GATES: trust, budget, rate, quota, blast radius. */
  datatype Slot = Slot(slotId: Id, worker: Id, provider: Id, runtime: Id, route: Option<Id>,
                       state: SlotState, gates: seq<Gate>, evidence: Id, observedAt: Time)

  datatype Node = Node(id: Id, repo: Id, issue: nat, branch: Id, head: Id, active: bool)

  datatype Assignment = Assignment(node: Node, slot: Slot)

  datatype SlotReason = SlotNotAvailable(state: SlotState) | GateNotAllowed(gate: nat, answer: Gate)
                      | EvidenceFuture | EvidenceStale

  datatype Limit = MaxParallel | ProjectWip | NoSlot

  datatype Blocked = Blocked(node: Node, reasons: seq<Limit>)

  /** The normalised snapshot; `selected` is what the readiness planner chose from the graph. */
  datatype Snapshot = Snapshot(observedAt: Time, nodes: seq<Node>, limits: map<Id, nat>, maxParallel: nat,
                               maxAge: nat, slots: seq<Slot>, selected: seq<Node>)

  datatype Plan = Plan(admitted: seq<Assignment>, blocked: seq<Blocked>, eligible: seq<Slot>, ineligible: seq<Slot>)

  /** The policy's project limits cover every repository. */
  predicate LimitsCover(s: Snapshot) {
    (forall n | n in s.nodes :: n.repo in s.limits) && (forall n | n in s.selected :: n.repo in s.limits)
  }

  /** The readiness planner selects each node once. */
  ghost predicate SelectionDistinct(s: Snapshot) {
    forall i, j | 0 <= i < j < |s.selected| :: s.selected[i].id != s.selected[j].id
  }

  /** The snapshot validator refuses repeated slot and worker names. */
  ghost predicate SlotsDistinct(slots: seq<Slot>) {
    forall i, j | 0 <= i < j < |slots| :: slots[i].slotId != slots[j].slotId && slots[i].worker != slots[j].worker
  }

  // ---- Slot eligibility -------------------------------------------------------------

  function GateReasons(gates: seq<Gate>, from: nat): seq<SlotReason>
    requires from <= |gates|
    decreases |gates| - from
  {
    if from == |gates| then []
    else (if gates[from] != Allow then [GateNotAllowed(from, gates[from])] else []) + GateReasons(gates, from + 1)
  }

  function SlotReasons(slot: Slot, now: Time, maxAge: nat): seq<SlotReason> {
    (if slot.state != Available then [SlotNotAvailable(slot.state)] else [])
    + GateReasons(slot.gates, 0)
    + (if slot.observedAt > now then [EvidenceFuture]
       else if now - slot.observedAt > maxAge then [EvidenceStale] else [])
  }

  lemma {:induction false} NoGateReason(gates: seq<Gate>, from: nat)
    requires from <= |gates|
    ensures GateReasons(gates, from) == [] <==> forall k | from <= k < |gates| :: gates[k] == Allow
    decreases |gates| - from
  {
    if from < |gates| {
      NoGateReason(gates, from + 1);
    }
  }

  /** No reason against a slot exactly when it is available, every gate allows it and its
      evidence is neither from the future nor older than the policy's age. */
  lemma EligibleSlot(slot: Slot, now: Time, maxAge: nat)
    ensures SlotReasons(slot, now, maxAge) == [] <==>
            slot.state == Available && (forall g | g in slot.gates :: g == Allow) &&
            now - maxAge <= slot.observedAt <= now
  {
    NoGateReason(slot.gates, 0);
    assert forall k | 0 <= k < |slot.gates| :: slot.gates[k] in slot.gates;
  }

  // ---- The greedy plan ----------------------------------------------------------------

  function ActiveIn(nodes: seq<Node>, repo: Id): nat {
    if nodes == [] then 0
    else ActiveIn(nodes[..|nodes| - 1], repo)
         + if nodes[|nodes| - 1].active && nodes[|nodes| - 1].repo == repo then 1 else 0
  }

  function AdmittedIn(admitted: seq<Assignment>, repo: Id): nat {
    if admitted == [] then 0
    else AdmittedIn(admitted[..|admitted| - 1], repo) + if admitted[|admitted| - 1].node.repo == repo then 1 else 0
  }

  /** The limits that refuse one more node of `repo` once `admitted` holds. */
  function Reasons(s: Snapshot, slots: nat, admitted: seq<Assignment>, repo: Id): seq<Limit>
    requires repo in s.limits
  {
    (if |admitted| >= s.maxParallel then [MaxParallel] else [])
    + (if ActiveIn(s.nodes, repo) + AdmittedIn(admitted, repo) >= s.limits[repo] then [ProjectWip] else [])
    + (if |admitted| >= slots then [NoSlot] else [])
  }

  datatype Outcome = Outcome(admitted: seq<Assignment>, blocked: seq<Blocked>)

  /** Admit `node` on the next free slot, or block it with every limit that refuses it. */
  function Consider(s: Snapshot, eligible: seq<Slot>, before: Outcome, node: Node): (r: Outcome)
    requires node.repo in s.limits
  {
    var reasons := Reasons(s, |eligible|, before.admitted, node.repo);
    if reasons != [] then before.(blocked := before.blocked + [Blocked(node, reasons)])
    else before.(admitted := before.admitted + [Assignment(node, eligible[|before.admitted|])])
  }

  /** First come, first served over the first `upTo` selected nodes. */
  function Greedy(s: Snapshot, eligible: seq<Slot>, upTo: nat): Outcome
    requires LimitsCover(s) && upTo <= |s.selected|
  {
    if upTo == 0 then Outcome([], [])
    else Consider(s, eligible, Greedy(s, eligible, upTo - 1), s.selected[upTo - 1])
  }

  function EligibleSlots(slots: seq<Slot>, now: Time, maxAge: nat, want: bool): seq<Slot> {
    if slots == [] then []
    else EligibleSlots(slots[..|slots| - 1], now, maxAge, want)
         + if (SlotReasons(slots[|slots| - 1], now, maxAge) == []) == want then [slots[|slots| - 1]] else []
  }

  method SplitSlots(s: Snapshot) returns (eligible: seq<Slot>, ineligible: seq<Slot>)
    ensures eligible == EligibleSlots(s.slots, s.observedAt, s.maxAge, true)
    ensures ineligible == EligibleSlots(s.slots, s.observedAt, s.maxAge, false)
  {
    eligible, ineligible := [], [];
    for i := 0 to |s.slots|
      invariant eligible == EligibleSlots(s.slots[..i], s.observedAt, s.maxAge, true)
      invariant ineligible == EligibleSlots(s.slots[..i], s.observedAt, s.maxAge, false)
    {
      assert s.slots[..i + 1][..i] == s.slots[..i];
      if SlotReasons(s.slots[i], s.observedAt, s.maxAge) == [] {
        eligible := eligible + [s.slots[i]];
      } else {
        ineligible := ineligible + [s.slots[i]];
      }
    }
    assert s.slots[..|s.slots|] == s.slots;
  }

  /** The planner: split the slots, count the active nodes, admit what the limits allow. */
  method PlanAdmission(s: Snapshot) returns (plan: Plan)
    requires LimitsCover(s)
    ensures plan.eligible == EligibleSlots(s.slots, s.observedAt, s.maxAge, true)
    ensures plan.ineligible == EligibleSlots(s.slots, s.observedAt, s.maxAge, false)
    ensures Outcome(plan.admitted, plan.blocked) == Greedy(s, plan.eligible, |s.selected|)
  {
    var eligible, ineligible := SplitSlots(s);
    var projectActive := CountActive(s);
    var admitted, blocked := AdmitSelected(s, eligible, projectActive);
    plan := Plan(admitted, blocked, eligible, ineligible);
  }

  /** The admission loop: it pops slots and counts admissions per project. */
  method AdmitSelected(s: Snapshot, eligible: seq<Slot>, projectActive: map<Id, int>)
      returns (admitted: seq<Assignment>, blocked: seq<Blocked>)
    requires LimitsCover(s) && ActiveMatch(s, projectActive, s.nodes)
    ensures Outcome(admitted, blocked) == Greedy(s, eligible, |s.selected|)
  {
    var admittedByProject: map<Id, int> := map repo | repo in s.limits :: 0;
    var availableSlots := eligible;
    admitted, blocked := [], [];
    for i := 0 to |s.selected|
      invariant Outcome(admitted, blocked) == Greedy(s, eligible, i)
      invariant |admitted| <= |eligible| && availableSlots == eligible[|admitted|..]
      invariant CountsMatch(s, admittedByProject, admitted)
    {
      var node := s.selected[i];
      var reasons := ListReasons(s, |eligible|, admitted, availableSlots, node.repo,
                                 projectActive[node.repo] + admittedByProject[node.repo]);
      assert Greedy(s, eligible, i + 1) == Consider(s, eligible, Outcome(admitted, blocked), node);
      if reasons != [] {
        blocked := blocked + [Blocked(node, reasons)];
      } else {
        CountOneMore(s, admittedByProject, admitted, Assignment(node, availableSlots[0]));
        admitted := admitted + [Assignment(node, availableSlots[0])];
        availableSlots := availableSlots[1..];
        admittedByProject := admittedByProject[node.repo := admittedByProject[node.repo] + 1];
      }
    }
  }

  ghost predicate ActiveMatch(s: Snapshot, active: map<Id, int>, nodes: seq<Node>) {
    active.Keys == s.limits.Keys && forall repo | repo in s.limits :: active[repo] == ActiveIn(nodes, repo)
  }

  ghost predicate CountsMatch(s: Snapshot, byProject: map<Id, int>, admitted: seq<Assignment>) {
    byProject.Keys == s.limits.Keys && forall repo | repo in s.limits :: byProject[repo] == AdmittedIn(admitted, repo)
  }

  lemma CountOneMore(s: Snapshot, byProject: map<Id, int>, admitted: seq<Assignment>, a: Assignment)
    requires CountsMatch(s, byProject, admitted) && a.node.repo in s.limits
    ensures CountsMatch(s, byProject[a.node.repo := byProject[a.node.repo] + 1], admitted + [a])
  {
    AdmittedCount(admitted, a);
  }

  lemma AdmittedCount(admitted: seq<Assignment>, a: Assignment)
    ensures forall repo ::
      AdmittedIn(admitted + [a], repo) == AdmittedIn(admitted, repo) + if a.node.repo == repo then 1 else 0
  {
    assert (admitted + [a])[..|admitted|] == admitted;
  }

  method ListReasons(s: Snapshot, slots: nat, admitted: seq<Assignment>, available: seq<Slot>,
                     repo: Id, inProject: nat) returns (reasons: seq<Limit>)
    requires |admitted| <= slots && |available| == slots - |admitted|
    requires repo in s.limits && inProject == ActiveIn(s.nodes, repo) + AdmittedIn(admitted, repo)
    ensures reasons == Reasons(s, slots, admitted, repo)
  {
    reasons := [];
    if |admitted| >= s.maxParallel { reasons := reasons + [MaxParallel]; }
    if inProject >= s.limits[repo] { reasons := reasons + [ProjectWip]; }
    if available == [] { reasons := reasons + [NoSlot]; }
  }

  method CountActive(s: Snapshot) returns (active: map<Id, int>)
    requires LimitsCover(s)
    ensures ActiveMatch(s, active, s.nodes)
  {
    active := map repo | repo in s.limits :: 0;
    for i := 0 to |s.nodes|
      invariant ActiveMatch(s, active, s.nodes[..i])
    {
      assert s.nodes[..i + 1][..i] == s.nodes[..i];
      if s.nodes[i].active {
        active := active[s.nodes[i].repo := active[s.nodes[i].repo] + 1];
      }
    }
    assert s.nodes[..|s.nodes|] == s.nodes;
  }

  // ---- What the plan promises ---------------------------------------------------------

  ghost function InRepo(nodes: set<Node>, repo: Id): set<Node> {
    set n | n in nodes && n.repo == repo
  }

  ghost function AdmittedNodes(admitted: seq<Assignment>): set<Node> {
    set a | a in admitted :: a.node
  }

  ghost function BlockedNodes(blocked: seq<Blocked>): set<Node> {
    set b | b in blocked :: b.node
  }

  ghost function Selected(s: Snapshot, upTo: nat): set<Node>
    requires upTo <= |s.selected|
  {
    set n | n in s.selected[..upTo]
  }

  /** A set of nodes that the limits allow to run together. */
  ghost predicate Feasible(s: Snapshot, slots: nat, chosen: set<Node>) {
    && chosen <= Selected(s, |s.selected|)
    && |chosen| <= s.maxParallel
    && |chosen| <= slots
    && (forall repo | repo in s.limits && InRepo(chosen, repo) != {} ::
          ActiveIn(s.nodes, repo) + |InRepo(chosen, repo)| <= s.limits[repo])
  }

  lemma SelectedSnoc(s: Snapshot, upTo: nat)
    requires SelectionDistinct(s) && upTo < |s.selected|
    ensures Selected(s, upTo + 1) == Selected(s, upTo) + {s.selected[upTo]}
    ensures s.selected[upTo] !in Selected(s, upTo)
  {
    assert s.selected[..upTo + 1] == s.selected[..upTo] + [s.selected[upTo]];
  }

  lemma AdmittedSnoc(admitted: seq<Assignment>, a: Assignment)
    ensures AdmittedNodes(admitted + [a]) == AdmittedNodes(admitted) + {a.node}
  {
    assert forall x | x in admitted + [a] :: x in admitted || x == a;
    assert a in admitted + [a];
    forall x | x in admitted ensures x in admitted + [a] {}
  }

  lemma BlockedSnoc(blocked: seq<Blocked>, b: Blocked)
    ensures BlockedNodes(blocked + [b]) == BlockedNodes(blocked) + {b.node}
  {
    assert forall x | x in blocked + [b] :: x in blocked || x == b;
    assert b in blocked + [b];
    forall x | x in blocked ensures x in blocked + [b] {}
  }

  /** The outcome for the nodes seen so far accounts for each of them once. */
  ghost predicate Partitions(eligible: seq<Slot>, seen: set<Node>, r: Outcome) {
    && AdmittedNodes(r.admitted) + BlockedNodes(r.blocked) == seen
    && AdmittedNodes(r.admitted) * BlockedNodes(r.blocked) == {}
    && |AdmittedNodes(r.admitted)| == |r.admitted|
    && SlotsInOrder(eligible, r.admitted)
  }

  ghost predicate SlotsInOrder(eligible: seq<Slot>, admitted: seq<Assignment>) {
    |admitted| <= |eligible| && forall k | 0 <= k < |admitted| :: admitted[k].slot == eligible[k]
  }

  lemma NextSlot(eligible: seq<Slot>, admitted: seq<Assignment>, a: Assignment)
    requires SlotsInOrder(eligible, admitted)
    requires |admitted| < |eligible| && a.slot == eligible[|admitted|]
    ensures SlotsInOrder(eligible, admitted + [a])
  {
  }

  /** Every admission respects the limits, and every limit that blocked a node is still tight. */
  ghost predicate RespectsLimits(s: Snapshot, eligible: seq<Slot>, r: Outcome) {
    && |r.admitted| <= s.maxParallel
    && (forall repo | repo in s.limits ::
          var n := AdmittedIn(r.admitted, repo);
          n > 0 ==> ActiveIn(s.nodes, repo) + n <= s.limits[repo])
    && (forall b | b in r.blocked :: b.node.repo in s.limits && b.reasons != [] &&
          forall l | l in b.reasons :: l in Reasons(s, |eligible|, r.admitted, b.node.repo))
  }

  lemma BlockPartitions(eligible: seq<Slot>, seen: set<Node>, r: Outcome, b: Blocked)
    requires b.node !in seen && Partitions(eligible, seen, r)
    ensures Partitions(eligible, seen + {b.node}, Outcome(r.admitted, r.blocked + [b]))
  {
    BlockedSnoc(r.blocked, b);
  }

  lemma AdmitPartitions(eligible: seq<Slot>, seen: set<Node>, r: Outcome, a: Assignment)
    requires a.node !in seen && Partitions(eligible, seen, r)
    requires |r.admitted| < |eligible| && a.slot == eligible[|r.admitted|]
    ensures Partitions(eligible, seen + {a.node}, Outcome(r.admitted + [a], r.blocked))
  {
    AdmittedSnoc(r.admitted, a);
    NextSlot(eligible, r.admitted, a);
    DisjointInsert(AdmittedNodes(r.admitted), BlockedNodes(r.blocked), seen, a.node);
  }

  lemma DisjointInsert(a: set<Node>, b: set<Node>, seen: set<Node>, n: Node)
    requires a + b == seen && a * b == {} && n !in seen
    ensures (a + {n}) + b == seen + {n} && (a + {n}) * b == {} && |a + {n}| == |a| + 1
  {
    assert n !in a && n !in b;
  }

  lemma ConsiderPartitions(s: Snapshot, eligible: seq<Slot>, seen: set<Node>, before: Outcome, node: Node)
    requires node.repo in s.limits && node !in seen && Partitions(eligible, seen, before)
    ensures Partitions(eligible, seen + {node}, Consider(s, eligible, before, node))
  {
    var reasons := Reasons(s, |eligible|, before.admitted, node.repo);
    if reasons != [] {
      BlockPartitions(eligible, seen, before, Blocked(node, reasons));
    } else {
      AdmitPartitions(eligible, seen, before, Assignment(node, eligible[|before.admitted|]));
    }
  }

  lemma MoreReasons(s: Snapshot, slots: nat, admitted: seq<Assignment>, a: Assignment, repo: Id)
    requires repo in s.limits
    ensures forall l | l in Reasons(s, slots, admitted, repo) :: l in Reasons(s, slots, admitted + [a], repo)
  {
    AdmittedCount(admitted, a);
  }

  lemma ConsiderRespectsLimits(s: Snapshot, eligible: seq<Slot>, before: Outcome, node: Node)
    requires node.repo in s.limits && RespectsLimits(s, eligible, before)
    ensures RespectsLimits(s, eligible, Consider(s, eligible, before, node))
  {
    var r := Consider(s, eligible, before, node);
    if r.admitted != before.admitted {
      var a := r.admitted[|before.admitted|];
      AdmittedCount(before.admitted, a);
      forall b | b in before.blocked
          ensures forall l | l in b.reasons :: l in Reasons(s, |eligible|, r.admitted, b.node.repo) {
        MoreReasons(s, |eligible|, before.admitted, a, b.node.repo);
      }
    }
  }

  lemma GreedySnoc(s: Snapshot, eligible: seq<Slot>, upTo: nat)
    requires LimitsCover(s) && 0 < upTo <= |s.selected|
    ensures Greedy(s, eligible, upTo) == Consider(s, eligible, Greedy(s, eligible, upTo - 1), s.selected[upTo - 1])
  {
  }

  lemma PartitionStep(s: Snapshot, eligible: seq<Slot>, upTo: nat)
    requires LimitsCover(s) && SelectionDistinct(s) && 0 < upTo <= |s.selected|
    requires Partitions(eligible, Selected(s, upTo - 1), Greedy(s, eligible, upTo - 1))
    ensures Partitions(eligible, Selected(s, upTo), Greedy(s, eligible, upTo))
  {
    var seen, before, node := Selected(s, upTo - 1), Greedy(s, eligible, upTo - 1), s.selected[upTo - 1];
    assert Selected(s, upTo) == seen + {node} && node !in seen by {
      SelectedSnoc(s, upTo - 1);
    }
    assert Greedy(s, eligible, upTo) == Consider(s, eligible, before, node) by {
      GreedySnoc(s, eligible, upTo);
    }
    ConsiderPartitions(s, eligible, seen, before, node);
  }

  /** Admitted and blocked nodes partition the selected ones, each once, and the k-th admitted
      node sits on the k-th eligible slot. */
  lemma {:induction false} PlanPartitions(s: Snapshot, eligible: seq<Slot>, upTo: nat)
    requires LimitsCover(s) && SelectionDistinct(s) && upTo <= |s.selected|
    ensures Partitions(eligible, Selected(s, upTo), Greedy(s, eligible, upTo))
  {
    if upTo == 0 {
      NothingConsidered(s, eligible);
    } else {
      PlanPartitions(s, eligible, upTo - 1);
      PartitionStep(s, eligible, upTo);
    }
  }

  /** The plan stays within every limit, and each limit that blocked a node is still tight in it. */
  lemma {:induction false} PlanRespectsLimits(s: Snapshot, eligible: seq<Slot>, upTo: nat)
    requires LimitsCover(s) && upTo <= |s.selected|
    ensures RespectsLimits(s, eligible, Greedy(s, eligible, upTo))
  {
    if upTo == 0 {
      NothingConsidered(s, eligible);
    } else {
      PlanRespectsLimits(s, eligible, upTo - 1);
      ConsiderRespectsLimits(s, eligible, Greedy(s, eligible, upTo - 1), s.selected[upTo - 1]);
      assert Greedy(s, eligible, upTo) == Consider(s, eligible, Greedy(s, eligible, upTo - 1), s.selected[upTo - 1]);
    }
  }

  lemma NothingConsidered(s: Snapshot, eligible: seq<Slot>)
    ensures Partitions(eligible, Selected(s, 0), Outcome([], [])) && RespectsLimits(s, eligible, Outcome([], []))
  {
    assert AdmittedNodes([]) == {} && BlockedNodes([]) == {} && Selected(s, 0) == {};
  }

  lemma {:induction false} CountsAgree(admitted: seq<Assignment>, repo: Id)
    requires |AdmittedNodes(admitted)| == |admitted|
    ensures AdmittedIn(admitted, repo) == |InRepo(AdmittedNodes(admitted), repo)|
  {
    if admitted != [] {
      var init, a := admitted[..|admitted| - 1], admitted[|admitted| - 1];
      assert admitted == init + [a];
      AdmittedSnoc(init, a);
      AdmittedAtMost(init);
      CountsAgree(init, repo);
      OneMoreInRepo(AdmittedNodes(init), a.node, repo);
      CountOneIn(init, a, repo);
    } else {
      assert InRepo(AdmittedNodes(admitted), repo) == {};
    }
  }

  lemma CountOneIn(init: seq<Assignment>, a: Assignment, repo: Id)
    ensures AdmittedIn(init + [a], repo) == AdmittedIn(init, repo) + if a.node.repo == repo then 1 else 0
  {
    AdmittedCount(init, a);
  }

  lemma OneMoreInRepo(nodes: set<Node>, n: Node, repo: Id)
    requires n !in nodes
    ensures |InRepo(nodes + {n}, repo)| == |InRepo(nodes, repo)| + if n.repo == repo then 1 else 0
  {
    assert InRepo(nodes + {n}, repo) == InRepo(nodes, repo) + if n.repo == repo then {n} else {};
  }

  lemma {:induction false} AdmittedAtMost(admitted: seq<Assignment>)
    ensures |AdmittedNodes(admitted)| <= |admitted|
  {
    if admitted != [] {
      var init, a := admitted[..|admitted| - 1], admitted[|admitted| - 1];
      assert admitted == init + [a];
      AdmittedSnoc(init, a);
      AdmittedAtMost(init);
    }
  }

  /** The admitted nodes are themselves a feasible choice. */
  lemma PlanIsFeasible(s: Snapshot, eligible: seq<Slot>)
    requires LimitsCover(s) && SelectionDistinct(s)
    ensures Feasible(s, |eligible|, AdmittedNodes(Greedy(s, eligible, |s.selected|).admitted))
  {
    PlanPartitions(s, eligible, |s.selected|);
    PlanRespectsLimits(s, eligible, |s.selected|);
    var r := Greedy(s, eligible, |s.selected|);
    forall repo | repo in s.limits && InRepo(AdmittedNodes(r.admitted), repo) != {}
      ensures ActiveIn(s.nodes, repo) + |InRepo(AdmittedNodes(r.admitted), repo)| <= s.limits[repo]
    {
      CountsAgree(r.admitted, repo);
    }
  }

  /** A set that is no larger than another in every repository is no larger. */
  lemma {:induction false} SmallerPerRepository(a: set<Node>, b: set<Node>)
    requires forall repo :: |InRepo(a, repo)| <= |InRepo(b, repo)|
    ensures |a| <= |b|
    decreases a
  {
    if a != {} {
      var n :| n in a;
      var a', b' := a - InRepo(a, n.repo), b - InRepo(b, n.repo);
      assert n in InRepo(a, n.repo);
      forall repo ensures |InRepo(a', repo)| <= |InRepo(b', repo)| {
        if repo == n.repo {
          assert InRepo(a', repo) == {};
        } else {
          assert InRepo(a', repo) == InRepo(a, repo) && InRepo(b', repo) == InRepo(b, repo);
        }
      }
      SmallerPerRepository(a', b');
      assert |a| == |a'| + |InRepo(a, n.repo)| && |b| == |b'| + |InRepo(b, n.repo)|;
    }
  }

  /** No feasible choice admits more nodes than the greedy plan. */
  lemma GreedyIsOptimal(s: Snapshot, eligible: seq<Slot>, chosen: set<Node>)
    requires LimitsCover(s) && SelectionDistinct(s) && Feasible(s, |eligible|, chosen)
    ensures |chosen| <= |Greedy(s, eligible, |s.selected|).admitted|
  {
    var r := Greedy(s, eligible, |s.selected|);
    PlanPartitions(s, eligible, |s.selected|);
    PlanRespectsLimits(s, eligible, |s.selected|);
    if |r.admitted| < s.maxParallel && |r.admitted| < |eligible| {
      forall repo ensures |InRepo(chosen, repo)| <= |InRepo(AdmittedNodes(r.admitted), repo)| {
        RepositoryIsSaturated(s, eligible, chosen, r, repo);
      }
      SmallerPerRepository(chosen, AdmittedNodes(r.admitted));
    }
  }

  lemma SubsetSize(a: set<Node>, b: set<Node>)
    requires a <= b
    ensures |a| <= |b|
  {
    assert |b| == |a| + |b - a|;
  }

  lemma RepositoryIsSaturated(s: Snapshot, eligible: seq<Slot>, chosen: set<Node>, r: Outcome, repo: Id)
    requires Feasible(s, |eligible|, chosen)
    requires Partitions(eligible, Selected(s, |s.selected|), r) && RespectsLimits(s, eligible, r)
    requires |r.admitted| < s.maxParallel && |r.admitted| < |eligible|
    ensures |InRepo(chosen, repo)| <= |InRepo(AdmittedNodes(r.admitted), repo)|
  {
    var admitted := AdmittedNodes(r.admitted);
    if InRepo(chosen, repo) <= admitted {
      SubsetSize(InRepo(chosen, repo), InRepo(admitted, repo));
    } else {
      var n :| n in InRepo(chosen, repo) && n !in admitted;
      assert n in BlockedNodes(r.blocked);
      var b :| b in r.blocked && b.node == n;
      assert b.reasons[0] in b.reasons;
      CountsAgree(r.admitted, repo);
    }
  }

  // ---- The authorizer -----------------------------------------------------------------

  /** The authorizer's structural checks on a plan. */
  ghost predicate NodesMatchSelection(s: Snapshot, admitted: seq<Assignment>) {
    && |admitted| == |s.selected|
    && (forall i, j | 0 <= i < j < |admitted| :: admitted[i].node.id != admitted[j].node.id)
    && AdmittedNodes(admitted) == Selected(s, |s.selected|)
  }

  ghost predicate SlotsAndWorkersDistinct(admitted: seq<Assignment>) {
    forall i, j | 0 <= i < j < |admitted| ::
      admitted[i].slot.slotId != admitted[j].slot.slotId && admitted[i].slot.worker != admitted[j].slot.worker
  }

  ghost predicate SlotsStillGood(s: Snapshot, admitted: seq<Assignment>) {
    forall a | a in admitted :: a.slot in s.slots && SlotReasons(a.slot, s.observedAt, s.maxAge) == []
  }

  /** The authorizer's evidence checks, made when it evaluates: the snapshot and every assigned slot
      are neither from the future nor too old by then. */
  ghost predicate EvidenceCurrent(s: Snapshot, evaluated: Time, admitted: seq<Assignment>) {
    && s.observedAt <= evaluated && evaluated - s.observedAt <= s.maxAge
    && forall a | a in admitted :: a.slot.observedAt <= evaluated && evaluated - a.slot.observedAt <= s.maxAge
  }

  ghost predicate ProjectWipRespected(s: Snapshot, admitted: seq<Assignment>) {
    forall repo | repo in s.limits :: ActiveIn(s.nodes, repo) + AdmittedIn(admitted, repo) <= s.limits[repo]
  }

  lemma LastIsNew(slots: seq<Slot>)
    requires SlotsDistinct(slots) && slots != []
    ensures SlotsDistinct(slots[..|slots| - 1])
    ensures forall x | x in slots[..|slots| - 1] ::
        x.slotId != slots[|slots| - 1].slotId && x.worker != slots[|slots| - 1].worker
  {
    var init := slots[..|slots| - 1];
    forall x | x in init ensures x.slotId != slots[|slots| - 1].slotId && x.worker != slots[|slots| - 1].worker {
      var k :| 0 <= k < |init| && init[k] == x;
      assert slots[k] == x;
    }
  }

  lemma ExtendDistinct(some: seq<Slot>, last: Slot, init: seq<Slot>)
    requires SlotsDistinct(some) && (forall x | x in some :: x in init)
    requires forall x | x in init :: x.slotId != last.slotId && x.worker != last.worker
    ensures SlotsDistinct(some + [last])
  {
  }

  lemma {:induction false} EligibleAreSlots(slots: seq<Slot>, now: Time, maxAge: nat)
    requires SlotsDistinct(slots)
    ensures forall x | x in EligibleSlots(slots, now, maxAge, true) :: x in slots && SlotReasons(x, now, maxAge) == []
    ensures SlotsDistinct(EligibleSlots(slots, now, maxAge, true))
  {
    if slots != [] {
      var init := slots[..|slots| - 1];
      EligibleAreSlots(init, now, maxAge);
      LastIsNew(slots);
      ExtendDistinct(EligibleSlots(init, now, maxAge, true), slots[|slots| - 1], init);
    }
  }

  lemma ConsiderUnblocked(s: Snapshot, eligible: seq<Slot>, before: Outcome, node: Node)
    requires node.repo in s.limits && Consider(s, eligible, before, node).blocked == []
    ensures before.blocked == [] && |Consider(s, eligible, before, node).admitted| == |before.admitted| + 1
    ensures Consider(s, eligible, before, node).admitted[..|before.admitted|] == before.admitted
    ensures Consider(s, eligible, before, node).admitted[|before.admitted|].node == node
  {
  }

  lemma {:induction false} UnblockedKeepsOrder(s: Snapshot, eligible: seq<Slot>, upTo: nat)
    requires LimitsCover(s) && upTo <= |s.selected|
    requires Greedy(s, eligible, upTo).blocked == []
    ensures var admitted := Greedy(s, eligible, upTo).admitted;
            |admitted| == upTo && forall i | 0 <= i < upTo :: admitted[i].node == s.selected[i]
  {
    if upTo != 0 {
      UnblockedStep(s, eligible, upTo);
      var before, after := Greedy(s, eligible, upTo - 1), Greedy(s, eligible, upTo);
      assert before.blocked == [];
      UnblockedKeepsOrder(s, eligible, upTo - 1);
      OrderSnoc(before.admitted, after.admitted, s.selected);
    }
  }

  lemma OrderSnoc(before: seq<Assignment>, after: seq<Assignment>, nodes: seq<Node>)
    requires after != [] && before == after[..|after| - 1] && |before| < |nodes|
    requires forall i | 0 <= i < |before| :: before[i].node == nodes[i]
    requires after[|after| - 1].node == nodes[|before|]
    ensures |after| == |before| + 1
    ensures forall i | 0 <= i < |after| :: after[i].node == nodes[i]
  {
    forall i | 0 <= i < |before| ensures after[i] == before[i] {}
  }

  lemma UnblockedStep(s: Snapshot, eligible: seq<Slot>, upTo: nat)
    requires LimitsCover(s) && 0 < upTo <= |s.selected| && Greedy(s, eligible, upTo).blocked == []
    ensures Greedy(s, eligible, upTo - 1).blocked == []
    ensures Greedy(s, eligible, upTo).admitted != []
    ensures Greedy(s, eligible, upTo - 1).admitted
      == Greedy(s, eligible, upTo).admitted[..|Greedy(s, eligible, upTo).admitted| - 1]
    ensures Greedy(s, eligible, upTo).admitted[|Greedy(s, eligible, upTo).admitted| - 1].node == s.selected[upTo - 1]
  {
    GreedySnoc(s, eligible, upTo);
    ConsiderUnblocked(s, eligible, Greedy(s, eligible, upTo - 1), s.selected[upTo - 1]);
  }

  lemma SlotsOfPlan(slots: seq<Slot>, admitted: seq<Assignment>)
    requires SlotsDistinct(slots) && |admitted| <= |slots|
    requires forall k | 0 <= k < |admitted| :: admitted[k].slot == slots[k]
    ensures SlotsAndWorkersDistinct(admitted)
    ensures forall a | a in admitted :: a.slot in slots
  {
  }

  lemma NodesOfPlan(s: Snapshot, admitted: seq<Assignment>)
    requires SelectionDistinct(s) && |admitted| == |s.selected|
    requires forall k | 0 <= k < |admitted| :: admitted[k].node == s.selected[k]
    ensures forall i, j | 0 <= i < j < |admitted| :: admitted[i].node.id != admitted[j].node.id
  {
  }

  /** An eligible slot was observed no later than the snapshot, so only age can stand in the way. */
  lemma EvidenceWindow(s: Snapshot, evaluated: Time, admitted: seq<Assignment>)
    requires SlotsStillGood(s, admitted) && admitted != []
    ensures EvidenceCurrent(s, evaluated, admitted)
       <==> s.observedAt <= evaluated && forall a | a in admitted :: evaluated <= a.slot.observedAt + s.maxAge
  {
    forall a | a in admitted ensures a.slot.observedAt <= s.observedAt {
      EligibleSlot(a.slot, s.observedAt, s.maxAge);
    }
    assert admitted[0] in admitted;
  }

  /** A plan with nothing blocked passes the authorizer's node, slot, worker and parallelism checks; its
      evidence checks pass exactly if it evaluates after the snapshot and before the oldest assigned
      slot's evidence has expired. */
  lemma AuthorizerAccepts(s: Snapshot, eligible: seq<Slot>, r: Outcome, evaluated: Time)
    requires LimitsCover(s) && SelectionDistinct(s) && SlotsDistinct(s.slots)
    requires eligible == EligibleSlots(s.slots, s.observedAt, s.maxAge, true)
    requires r == Greedy(s, eligible, |s.selected|) && r.blocked == []
    ensures NodesMatchSelection(s, r.admitted)
    ensures SlotsAndWorkersDistinct(r.admitted) && SlotsStillGood(s, r.admitted)
    ensures |r.admitted| <= s.maxParallel
    ensures r.admitted != [] ==>
              (EvidenceCurrent(s, evaluated, r.admitted) <==>
                     s.observedAt <= evaluated
                         && forall a | a in r.admitted :: evaluated <= a.slot.observedAt + s.maxAge)
  {
    assert NodesMatchSelection(s, r.admitted) by {
      UnblockedKeepsOrder(s, eligible, |s.selected|);
      PlanPartitions(s, eligible, |s.selected|);
      assert BlockedNodes(r.blocked) == {};
      NodesOfPlan(s, r.admitted);
    }
    assert |r.admitted| <= s.maxParallel by {
      PlanRespectsLimits(s, eligible, |s.selected|);
    }
    assert SlotsAndWorkersDistinct(r.admitted) && SlotsStillGood(s, r.admitted) by {
      PlanPartitions(s, eligible, |s.selected|);
      EligibleAreSlots(s.slots, s.observedAt, s.maxAge);
      SlotsOfPlan(eligible, r.admitted);
    }
    if r.admitted != [] {
      EvidenceWindow(s, evaluated, r.admitted);
    }
  }

  /** Its project-WIP check refuses a plan exactly when some repository was over its limit before. */
  lemma ProjectWipRefusal(s: Snapshot, eligible: seq<Slot>)
    requires LimitsCover(s)
    ensures !ProjectWipRespected(s, Greedy(s, eligible, |s.selected|).admitted) <==>
            exists repo :: repo in s.limits && ActiveIn(s.nodes, repo) > s.limits[repo]
  {
    PlanRespectsLimits(s, eligible, |s.selected|);
    var r := Greedy(s, eligible, |s.selected|);
    if repo :| repo in s.limits && ActiveIn(s.nodes, repo) > s.limits[repo] {
      assert ActiveIn(s.nodes, repo) + AdmittedIn(r.admitted, repo) > s.limits[repo];
    }
  }
}
