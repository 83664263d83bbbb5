/** Executing claims and their leases over whole runs. */
module ChatLeases {
  import opened Common
  import opened ChatPacket
  import opened ChatRuns
  import opened ChatTheorems
  import opened ChatReconcile
  import ChatGate

  function ClaimAfter(cfg: Config, events: seq<Event>, n: nat): Option<Claim>
    requires n <= |events|
  {
    var p := PacketAfter(cfg, events[..n]);
    if p.Some? then p.value.claim else None
  }

  /** After the first n events the stored claim is c, executing. */
  predicate ExecutesAt(cfg: Config, events: seq<Event>, n: nat, c: Claim) {
    n <= |events| && ClaimAfter(cfg, events, n) == Some(c) && c.state.Executing?
  }

  /** No call that runs between i and j reads a clock at which the lease of c is over. */
  predicate WithinLease(events: seq<Event>, i: nat, j: nat, c: Claim) {
    forall k: nat | i <= k < j && k < |events| :: events[k].Run? ==> events[k].x.now - c.claimedAt < LEASE
  }

  /** Event k gives c up: by its own call, or because HEAD moved while c lies in the future. */
  predicate RightlyGivenUp(cfg: Config, events: seq<Event>, k: nat, c: Claim) {
    && k < |events| && ClaimAfter(cfg, events, k) == Some(c) && ClaimAfter(cfg, events, k + 1) != Some(c)
    && events[k].Run? && (events[k].id == c.id || (HeadMoves(cfg, events, k) && events[k].x.now < c.claimedAt))
  }

  predicate HeadMoves(cfg: Config, events: seq<Event>, k: nat)
    requires k < |events|
  {
    var p, q := PacketAfter(cfg, events[..k]), PacketAfter(cfg, events[..k + 1]);
    p.Some? && q.Some? && p.value.target != q.value.target
  }

  predicate GivenUpBetween(cfg: Config, events: seq<Event>, i: nat, j: nat, c: Claim) {
    exists k: nat | i <= k < j :: RightlyGivenUp(cfg, events, k, c)
  }

  ghost predicate LeasesRespected(cfg: Config) {
    forall events, i, j, c, d ::
      i <= j && ExecutesAt(cfg, events, i, c) && ExecutesAt(cfg, events, j, d) && c.id != d.id
          && WithinLease(events, i, j, c) ==>
        GivenUpBetween(cfg, events, i, j, c)
  }

  lemma OneEvent(cfg: Config, events: seq<Event>, k: nat, c: Claim)
    requires !cfg.operators && k < |events| && ExecutesAt(cfg, events, k, c)
      && ClaimAfter(cfg, events, k + 1) != Some(c)
    requires events[k].Run? ==> events[k].x.now - c.claimedAt < LEASE
    ensures RightlyGivenUp(cfg, events, k, c)
  {
    var past, e := events[..k], events[k];
    assert events[..k + 1] == past + [e] && (past + [e])[..|past|] == past;
    EverySaveIsSafe(cfg, past, e);
  }

  lemma {:induction false} FindEvent(cfg: Config, events: seq<Event>, i: nat, j: nat, c: Claim, d: Claim)
    requires !cfg.operators && i <= j && ExecutesAt(cfg, events, i, c) && ExecutesAt(cfg, events, j, d)
    requires c.id != d.id && WithinLease(events, i, j, c)
    ensures GivenUpBetween(cfg, events, i, j, c)
    decreases j - i
  {
    if ClaimAfter(cfg, events, i + 1) == Some(c) {
      FindEvent(cfg, events, i + 1, j, c, d);
    } else {
      OneEvent(cfg, events, i, c);
    }
  }

  // ---- The operator's part --------------------------------------------------------------------

  function TimedOutClaim(): Packet { Mark(Claimed(), TIMEDOUT) }

  lemma MarkedThenClaimed()
    ensures AcceptsAt(TimedOutClaim(), 0) && AcceptsAt(ClaimUnit(TimedOutClaim(), ChangedCode, 2, 0), 0)
    ensures PlanStep(TimedOutClaim(), 7, 2, 0, false)
      == Execute(ClaimUnit(TimedOutClaim(), ChangedCode, 2, 0), ChangedCode)
  {
    FirstAccepted();
    ChatGate.MarkSound(Claimed(), TIMEDOUT);
    assert !IsDone(TimedOutClaim(), ChangedCode);
    var p := TimedOutClaim();
    assert p.claim == Some(Claimed().claim.value.(state := TimedOut));
    ChatGate.SelectFromSame(Claimed(), p, 0);
    ChatGate.ClaimSound(p, 2, 0);
  }

  const PLAIN: Input := Input(0, false, NoFault, Threw, HandedOff)

  /** The operator's command, and the three events of the next call up to its claim. */
  function After(past: seq<Event>, n: nat): seq<Event>
    requires n <= 4
  {
    past + [MarkSession(7, TIMEDOUT, 0), Begin(2, 7, false), Run(2, PLAIN), Run(2, PLAIN)][..n]
  }

  lemma OneMore(cfg: Config, past: seq<Event>, n: nat)
    requires n < 4
    ensures Exec(cfg, After(past, n + 1)) == Next(cfg, Exec(cfg, After(past, n)), After(past, 4)[|past| + n])
    ensures After(past, 4)[..|past| + n] == After(past, n)
  {
    var s := After(past, n + 1);
    assert s[..|s| - 1] == After(past, n);
  }

  /** The system after the command, with the second call standing at pc. */
  function Commanded(pc: Pc): System {
    System(World(Some(TimedOutClaim()), 3, {}, {}), One(Pc.Running(ChangedCode))[2 := Call(7, false, pc)])
  }

  lemma CommandStep(cfg: Config)
    requires cfg.operators
    ensures var s := System(World(Some(Claimed()), 2, {}, {}), One(Pc.Running(ChangedCode)));
            Next(cfg, Next(cfg, s, MarkSession(7, TIMEDOUT, 0)), Begin(2, 7, false)) == Commanded(Load)
            && Next(cfg, s, MarkSession(7, TIMEDOUT, 0)).world.packet == Some(TimedOutClaim())
  {
    FirstAccepted();
  }

  lemma LoadStep(cfg: Config)
    ensures Next(cfg, Commanded(Load), Run(2, PLAIN)) == Commanded(Planning(Some(TimedOutClaim()), 3))
  {
    MarkedThenClaimed();
  }

  lemma ClaimStep(cfg: Config)
    ensures Next(cfg, Commanded(Planning(Some(TimedOutClaim()), 3)), Run(2, PLAIN)).world.packet
         == Some(ClaimUnit(TimedOutClaim(), ChangedCode, 2, 0))
  {
    MarkedThenClaimed();
  }

  lemma CommandThenClaim(cfg: Config) returns (past: seq<Event>)
    requires cfg.operators
    ensures PacketAfter(cfg, After(past, 0)) == Some(Claimed())
    ensures forall n: nat | 1 <= n <= 3 :: PacketAfter(cfg, After(past, n)) == Some(TimedOutClaim())
    ensures PacketAfter(cfg, After(past, 4)) == Some(ClaimUnit(TimedOutClaim(), ChangedCode, 2, 0))
  {
    past := CallClaims(cfg);
    assert After(past, 0) == past;
    OneMore(cfg, past, 0);
    OneMore(cfg, past, 1);
    CommandStep(cfg);
    OneMore(cfg, past, 2);
    LoadStep(cfg);
    OneMore(cfg, past, 3);
    ClaimStep(cfg);
    forall n: nat | 1 <= n <= 3 ensures PacketAfter(cfg, After(past, n)) == Some(TimedOutClaim()) {
      assert n == 1 || n == 2 || n == 3;
    }
  }

  /** An operator times the claim out, and the next call executes the same unit within the lease. */
  lemma OperatorBreaksLease(cfg: Config) returns (events: seq<Event>, i: nat)
    requires cfg.operators
    ensures i <= |events| && ExecutesAt(cfg, events, i, Claimed().claim.value)
    ensures ExecutesAt(cfg, events, |events|, ClaimUnit(TimedOutClaim(), ChangedCode, 2, 0).claim.value)
    ensures WithinLease(events, i, |events|, Claimed().claim.value)
    ensures !GivenUpBetween(cfg, events, i, |events|, Claimed().claim.value)
  {
    var past := CommandThenClaim(cfg);
    i, events := |past|, After(past, 4);
    Prefixes(cfg, past);
    forall k: nat | i <= k < |events| ensures !RightlyGivenUp(cfg, events, k, Claimed().claim.value) {
      NotGivenUp(cfg, past, k - i);
    }
  }

  lemma Prefixes(cfg: Config, past: seq<Event>)
    ensures forall n: nat | n <= 4 :: After(past, 4)[..|past| + n] == After(past, n)
  {
  }

  /** None of the four events gives the first claim up rightly: the first is the operator's, and the
      claim is gone before the others. */
  lemma NotGivenUp(cfg: Config, past: seq<Event>, n: nat)
    requires n < 4
    requires forall m: nat | 1 <= m <= 3 :: PacketAfter(cfg, After(past, m)) == Some(TimedOutClaim())
    ensures !RightlyGivenUp(cfg, After(past, 4), |past| + n, Claimed().claim.value)
  {
    Prefixes(cfg, past);
    assert After(past, 4)[..|past| + n] == After(past, n);
    if n == 0 {
      assert After(past, 4)[|past|] == MarkSession(7, TIMEDOUT, 0);
    } else {
      assert ClaimAfter(cfg, After(past, 4), |past| + n) == TimedOutClaim().claim;
    }
  }

  /** Of two executing claims of different calls stored within one lease, the first was given up by
      its own call, or because HEAD moved while it lay in the future; in every run, exactly when
      operators issue no session command while calls are in progress. */
  lemma ExecutingClaimsKeepTheirLease(cfg: Config)
    ensures LeasesRespected(cfg) <==> !cfg.operators
  {
    if cfg.operators {
      var events, i := OperatorBreaksLease(cfg);
    } else {
      forall events, i: nat, j: nat, c, d
        | i <= j && ExecutesAt(cfg, events, i, c) && ExecutesAt(cfg, events, j, d) && c.id != d.id
            && WithinLease(events, i, j, c)
        ensures GivenUpBetween(cfg, events, i, j, c)
      {
        FindEvent(cfg, events, i, j, c, d);
      }
    }
  }
}
