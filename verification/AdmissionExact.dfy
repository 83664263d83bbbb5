/** The parts of an admission plan told without the code that makes them: which slots are eligible, what
    each reason for a block means, and what is decided at each node's turn. */
module AdmissionExact {
  import opened Common
  import opened Admission

  // ---- Slots ------------------------------------------------------------------------------------

  predicate Usable(slot: Slot, now: Time, maxAge: nat) {
    && slot.state == Available && (forall g | g in slot.gates :: g == Allow)
    && slot.observedAt <= now && now - slot.observedAt <= maxAge
  }

  /** The list holds exactly the slots of the wanted kind. */
  ghost predicate Picks(slots: seq<Slot>, now: Time, maxAge: nat, want: bool, picked: seq<Slot>) {
    forall x :: x in picked <==> x in slots && Usable(x, now, maxAge) == want
  }

  /** It lists them in the order of the slots. */
  ghost predicate InOrder(slots: seq<Slot>, picked: seq<Slot>) {
    forall i, j | 0 <= i < j < |picked| :: Earlier(slots, picked[i], picked[j])
  }

  predicate Earlier(slots: seq<Slot>, x: Slot, y: Slot) {
    exists k, l | 0 <= k < l < |slots| :: slots[k] == x && slots[l] == y
  }

  lemma EarlierInMore(init: seq<Slot>, last: Slot, x: Slot, y: Slot)
    requires Earlier(init, x, y) || (x in init && y == last)
    ensures Earlier(init + [last], x, y)
  {
    var more := init + [last];
    if Earlier(init, x, y) {
      var k, l :| 0 <= k < l < |init| && init[k] == x && init[l] == y;
      assert more[k] == x && more[l] == y;
    } else {
      var k :| 0 <= k < |init| && init[k] == x;
      assert more[k] == x && more[|init|] == y;
    }
  }

  /** Eligible are exactly the usable slots, ineligible exactly the others, both in the snapshot's order. */
  lemma {:induction false} EligibleExactly(slots: seq<Slot>, now: Time, maxAge: nat, want: bool)
    ensures Picks(slots, now, maxAge, want, EligibleSlots(slots, now, maxAge, want))
    ensures InOrder(slots, EligibleSlots(slots, now, maxAge, want))
  {
    if slots != [] {
      var init, last := slots[..|slots| - 1], slots[|slots| - 1];
      var some := EligibleSlots(init, now, maxAge, want);
      assert slots == init + [last];
      EligibleExactly(init, now, maxAge, want);
      EligibleSlot(last, now, maxAge);
      var picked := EligibleSlots(slots, now, maxAge, want);
      assert picked == some || picked == some + [last];
      forall i, j | 0 <= i < j < |picked| ensures Earlier(slots, picked[i], picked[j]) {
        assert picked[i] == some[i] && some[i] in init;
        assert j < |some| ==> Earlier(init, some[i], some[j]);
        EarlierInMore(init, last, picked[i], picked[j]);
      }
    }
  }

  // ---- Limits -----------------------------------------------------------------------------------

  ghost function ActiveOf(nodes: seq<Node>, repo: Id): set<nat> {
    set i: nat | i < |nodes| && nodes[i].active && nodes[i].repo == repo
  }

  ghost function AdmittedOf(admitted: seq<Assignment>, repo: Id): set<nat> {
    set i: nat | i < |admitted| && admitted[i].node.repo == repo
  }

  lemma {:induction false} ActiveIsSize(nodes: seq<Node>, repo: Id)
    ensures ActiveIn(nodes, repo) == |ActiveOf(nodes, repo)|
  {
    if nodes != [] {
      var n := |nodes| - 1;
      ActiveIsSize(nodes[..n], repo);
      assert ActiveOf(nodes, repo)
          == ActiveOf(nodes[..n], repo) + if nodes[n].active && nodes[n].repo == repo then {n} else {};
    }
  }

  lemma {:induction false} AdmittedIsSize(admitted: seq<Assignment>, repo: Id)
    ensures AdmittedIn(admitted, repo) == |AdmittedOf(admitted, repo)|
  {
    if admitted != [] {
      var n := |admitted| - 1;
      AdmittedIsSize(admitted[..n], repo);
      assert AdmittedOf(admitted, repo)
          == AdmittedOf(admitted[..n], repo) + if admitted[n].node.repo == repo then {n} else {};
    }
  }

  /** The limit leaves no room for one more node of the repository. */
  ghost predicate Tight(s: Snapshot, slots: nat, admitted: seq<Assignment>, repo: Id, l: Limit)
    requires repo in s.limits
  {
    match l
    case MaxParallel => |admitted| >= s.maxParallel
    case ProjectWip => |ActiveOf(s.nodes, repo)| + |AdmittedOf(admitted, repo)| >= s.limits[repo]
    case NoSlot => |admitted| >= slots
  }

  lemma ReasonsAreTight(s: Snapshot, slots: nat, admitted: seq<Assignment>, repo: Id)
    requires repo in s.limits
    ensures forall l :: l in Reasons(s, slots, admitted, repo) <==> Tight(s, slots, admitted, repo, l)
    ensures Reasons(s, slots, admitted, repo) != [] <==> exists l :: Tight(s, slots, admitted, repo, l)
  {
    ActiveIsSize(s.nodes, repo);
    AdmittedIsSize(admitted, repo);
    var reasons := Reasons(s, slots, admitted, repo);
    forall l ensures l in reasons <==> Tight(s, slots, admitted, repo, l) {
      assert l == MaxParallel || l == ProjectWip || l == NoSlot;
    }
    assert reasons != [] ==> reasons[0] in reasons;
  }

  /** At each node's turn: it is blocked, with exactly the limits that are tight then, if any is;
      otherwise it is admitted on the next eligible slot. Nothing decided before changes. */
  lemma DecidedInTurn(s: Snapshot, eligible: seq<Slot>, i: nat)
    requires LimitsCover(s) && i < |s.selected|
    ensures var node := s.selected[i];
            var before, after := Greedy(s, eligible, i), Greedy(s, eligible, i + 1);
            if exists l :: Tight(s, |eligible|, before.admitted, node.repo, l)
            then after.admitted == before.admitted
                 && |after.blocked| == |before.blocked| + 1 && before.blocked == after.blocked[..|before.blocked|]
                 && after.blocked[|before.blocked|].node == node
                 && forall l ::
                      l in after.blocked[|before.blocked|].reasons <==>
                        Tight(s, |eligible|, before.admitted, node.repo, l)
            else after.blocked == before.blocked && |before.admitted| < |eligible|
                 && after.admitted == before.admitted + [Assignment(node, eligible[|before.admitted|])]
  {
    ReasonsAreTight(s, |eligible|, Greedy(s, eligible, i).admitted, s.selected[i].repo);
    GreedySnoc(s, eligible, i + 1);
    var before := Greedy(s, eligible, i);
    assert !Tight(s, |eligible|, before.admitted, s.selected[i].repo, NoSlot) ==> |before.admitted| < |eligible|;
  }

  /** In the final plan each limit that blocked a node is still tight, and each repository with an
      admitted node is within its limit. */
  lemma LimitsInThePlan(s: Snapshot, eligible: seq<Slot>)
    requires LimitsCover(s)
    ensures var r := Greedy(s, eligible, |s.selected|);
            && |r.admitted| <= s.maxParallel
            && (forall b | b in r.blocked :: b.node.repo in s.limits && b.reasons != []
                  && forall l | l in b.reasons :: Tight(s, |eligible|, r.admitted, b.node.repo, l))
            && (forall repo | repo in s.limits && AdmittedOf(r.admitted, repo) != {} ::
                  |ActiveOf(s.nodes, repo)| + |AdmittedOf(r.admitted, repo)| <= s.limits[repo])
  {
    var r := Greedy(s, eligible, |s.selected|);
    PlanRespectsLimits(s, eligible, |s.selected|);
    forall b | b in r.blocked
      ensures forall l | l in b.reasons :: Tight(s, |eligible|, r.admitted, b.node.repo, l)
    {
      ReasonsAreTight(s, |eligible|, r.admitted, b.node.repo);
    }
    forall repo | repo in s.limits && AdmittedOf(r.admitted, repo) != {}
      ensures |ActiveOf(s.nodes, repo)| + |AdmittedOf(r.admitted, repo)| <= s.limits[repo]
    {
      ActiveIsSize(s.nodes, repo);
      AdmittedIsSize(r.admitted, repo);
    }
  }
}
