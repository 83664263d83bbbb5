/** The handoff of one finding as it runs: its calls are steps of the finding's protocol, and other
    workers may act between any two accesses to the claim file or the issue tracker. */
module FindingHandoff {
  import opened Common
  import opened FindingIssue

  lemma HasMember(s: set<int>)
    requires s != {}
    ensures exists n :: n in s
  {
    assert (forall n :: n !in s) ==> s == {};
  }

  class ClaimFile {
    var claim: Option<Claim>
    var issues: set<int>
    var clock: Time
    const cfg: Config
    ghost const shared: bool      // other workers use the file and the tracker as well
    ghost var events: seq<Event>

    constructor (cfg: Config, ghost shared: bool)
      ensures Valid() && Now() == INITIAL && this.cfg == cfg && this.shared == shared
    {
      this.shared := shared;
      claim, issues, clock, this.cfg, events := None, {}, 1, cfg, [];
    }

    ghost function Now(): System
      reads this
    {
      Exec(cfg, events)
    }

    ghost predicate Valid()
      reads this
    {
      Now().world == World(claim, issues, clock)
    }

    ghost predicate At(id: int, k: Worker)
      reads this
    {
      id in Now().workers && Now().workers[id] == k
    }

    ghost method Note(e: Event)
      requires Next(cfg, Now(), e).world == World(claim, issues, clock)
      modifies this`events
      ensures Valid() && Now() == Next(cfg, old(Now()), e) && events == old(events) + [e]
    {
      events := events + [e];
      assert events[..|events| - 1] == old(events);
    }

    /** Whatever other workers do meanwhile; time passes. */
    method Others(ghost id: int) returns (now: Time)
      requires Valid()
      modifies this
      ensures Valid() && old(events) <= events && now == clock >= old(clock)
      ensures id in old(Now()).workers ==> At(id, old(Now()).workers[id])
      ensures !shared ==> Are(old(claim), old(issues), old(clock))
    {
      now := clock;
    }

    predicate Are(claim: Option<Claim>, issues: set<int>, clock: Time)
      reads this
    {
      this.claim == claim && this.issues == issues && this.clock == clock
    }

    /** The server-side search for the finding's marker; only an inexact one misses anything. */
    method Search(missed: bool) returns (found: Found, n: int)
      requires missed ==> !cfg.exact
      ensures found == FindByMarker(cfg, World(claim, issues, clock), Input(clock, n, missed, 0, true, true))
      ensures !missed ==> Finds(issues, found)
    {
      found, n := Nothing, 0;
      if missed {
        return;
      }
      if issues != {} {
        HasMember(issues);
        n :| n in issues;
        found := if issues == {n} then One(n) else Many;
      }
    }

    /** A PUT bound to the bytes last seen, adopting equal bytes. */
    method PutClaim(intended: Claim, expected: Option<Claim>) returns (ok: bool)
      modifies this`claim
      ensures ok <==> old(claim) == expected || old(claim) == Some(intended)
      ensures claim == if old(claim) == expected then Some(intended) else old(claim)
    {
      ok := claim == expected || claim == Some(intended);
      if claim == expected {
        claim := Some(intended);
      }
    }
  }

  ghost predicate Done(f: ClaimFile, id: int, number: Option<int>)
    reads f
  {
    id in f.Now().workers && f.Now().workers[id].pc == Stopped(number)
  }

  /** An exact search finds the one issue there is, none, or too many. */
  predicate Finds(issues: set<int>, found: Found) {
    match found
    case One(n) => issues == {n}
    case Nothing => issues == {}
    case Many => issues != {} && forall n | n in issues :: issues != {n}
  }

  /** One call alone: a number is kept and its claim refreshed; the one issue there is becomes the claim's;
      too many, or another owner still within its lease, are left alone; otherwise the call claims the
      finding and creates its issue. */
  ghost predicate AloneDoes(f: ClaimFile, claim: Option<Claim>, issues: set<int>, clock: Time, id: int, head: int,
      created: int, number: Option<int>)
    reads f
  {
    if claim.Some? && claim.value.number.Some? then
      number == claim.value.number && f.Are(Some(claim.value.(head := head)), issues, clock)
    else if issues == {} then
      if claim.Some? && clock - claim.value.claimedAt < 120 then number.None? && f.Are(claim, issues, clock)
      else number == Some(created) && f.Are(Some(Claim(id, Some(created), head, clock)), {created}, clock)
    else if exists n :: issues == {n} then
      && number.Some? && issues == {number.value}
      && f.Are(Some(Claim(if claim.Some? then claim.value.token else id, number, head, 0)), issues, clock)
    else number.None? && f.Are(claim, issues, clock)
  }

  /** What the environment answers in one step. */
  function Plain(now: Time): Input { Input(now, 0, false, 0, true, true) }

  /** `_update_existing_claim`: the issue is edited, the claim refreshed if nobody else did. */
  method UpdateExistingClaim(f: ClaimFile, id: int, k: Worker, claim: Claim, sha: Option<Claim>)
      returns (number: Option<int>)
    requires f.Valid() && f.At(id, k.(pc := Update(claim, sha)))
    modifies f
    ensures f.Valid() && old(f.events) <= f.events && Done(f, id, number) && number == claim.number
    ensures !f.shared && sha.Some? && old(f.claim) == sha ==>
              f.Are(Some(claim.(head := k.head)), old(f.issues), old(f.clock))
  {
    var now := f.Others(id);
    var token := if sha.None? then f.claim else sha;
    f.Note(Run(id, Plain(now)));
    RefreshClaim(f, id, k, claim.(head := k.head), token);
    number := claim.number;
  }

  method RefreshClaim(f: ClaimFile, id: int, k: Worker, claim: Claim, token: Option<Claim>)
    requires f.Valid() && f.At(id, k.(pc := PutRefresh(claim, token)))
    modifies f
    ensures f.Valid() && old(f.events) <= f.events && Done(f, id, claim.number)
    ensures !f.shared && old(f.claim) == token ==> f.Are(Some(claim), old(f.issues), old(f.clock))
  {
    var now := f.Others(id);
    var ok := f.PutClaim(claim, token);
    f.Note(Run(id, Plain(now)));
  }

  /** Waits for another owner's issue number. */
  method PollForNumber(f: ClaimFile, id: int, k: Worker) returns (number: Option<int>)
    requires f.Valid() && f.At(id, k.(pc := Poll))
    modifies f
    ensures f.Valid() && old(f.events) <= f.events && Done(f, id, number)
    ensures !f.shared && !Numbered(old(f.claim)) ==>
              number.None? && f.Are(old(f.claim), old(f.issues), old(f.clock))
  {
    var i := 0;
    while i < 40
      invariant !f.shared ==> f.Are(old(f.claim), old(f.issues), old(f.clock))
      invariant 0 <= i <= 40 && f.Valid() && old(f.events) <= f.events
      invariant if i < 40 then f.At(id, k.(pc := Poll)) else Done(f, id, None)
    {
      var now := f.Others(id);
      var seen := f.claim;
      f.Note(Run(id, Plain(now).(again := i < 39)));
      if Numbered(seen) {
        number := UpdateExistingClaim(f, id, k, seen.value, seen);
        return;
      }
      i := i + 1;
    }
    number := None;
  }

  /** The marker search before any create has found the issue. */
  method ReconcileFound(f: ClaimFile, id: int, k: Worker, base: Option<Claim>, n: int) returns (number: Option<int>)
    requires f.Valid() && f.At(id, k.(pc := PutFound(base, n)))
    modifies f
    ensures f.Valid() && old(f.events) <= f.events && Done(f, id, number)
    ensures !f.shared && old(f.claim) == base ==>
              && number == Some(n)
              && f.Are(Some(Claim(if base.Some? then base.value.token else id, Some(n), k.head, 0)), old(f.issues),
                       old(f.clock))
  {
    var now := f.Others(id);
    var ok := f.PutClaim(Reconciled(id, k, base, n), base);
    f.Note(Run(id, Plain(now)));
    if ok {
      return Some(n);
    }
    now := f.Others(id);
    var latest := f.claim;
    f.Note(Run(id, Plain(now)));
    if !Numbered(latest) {
      return None;
    }
    number := UpdateExistingClaim(f, id, k, latest.value, base);
  }

  /** The final write, once more over a claim that somebody replaced without a number. */
  method FinalizeClaim(f: ClaimFile, id: int, k: Worker, pending: Claim, n: int) returns (number: Option<int>)
    requires f.Valid() && f.At(id, k.(pc := PutFinal(pending, n)))
    modifies f
    ensures f.Valid() && old(f.events) <= f.events && Done(f, id, number)
    ensures number.Some? ==> number == Some(n)
    ensures !f.shared && old(f.claim) == Some(pending) ==>
              number == Some(n) && f.Are(Some(pending.(number := Some(n))), old(f.issues), old(f.clock))
  {
    var final := pending.(number := Some(n));
    var now := f.Others(id);
    var ok := f.PutClaim(final, Some(pending));
    f.Note(Run(id, Plain(now)));
    if ok {
      return Some(n);
    }
    number := FinalizeOver(f, id, k, pending, n);
  }

  method FinalizeOver(f: ClaimFile, id: int, k: Worker, pending: Claim, n: int) returns (number: Option<int>)
    requires f.Valid() && f.At(id, k.(pc := RereadFinal(pending, n)))
    modifies f
    ensures f.Valid() && old(f.events) <= f.events && Done(f, id, number)
    ensures number.Some? ==> number == Some(n)
  {
    var now := f.Others(id);
    var latest := f.claim;
    f.Note(Run(id, Plain(now)));
    if Numbered(latest) {
      return if latest.value.number == Some(n) then Some(n) else None;
    }
    now := f.Others(id);
    var ok := f.PutClaim(pending.(number := Some(n)), latest);
    f.Note(Run(id, Plain(now)));
    number := if ok then Some(n) else None;
  }

  /** The create; an owner that must be timely and is late gives up. */
  method CreateIssue(f: ClaimFile, id: int, k: Worker, pending: Claim, created: int) returns (ok: bool)
    requires f.Valid() && f.At(id, k.(pc := Create(pending)))
    modifies f
    ensures f.Valid() && old(f.events) <= f.events
    ensures if ok then f.At(id, k.(pc := PutFinal(pending, created))) else Done(f, id, None)
    ensures !f.shared && created !in old(f.issues) && Live(pending, old(f.clock)) ==>
              ok && f.Are(old(f.claim), old(f.issues) + {created}, old(f.clock))
  {
    var now := f.Others(id);
    ok := created !in f.issues && (!f.cfg.timely || Live(pending, now));
    if ok {
      f.issues := f.issues + {created};
      f.Note(Run(id, Plain(now).(created := created)));
    } else {
      f.Note(Crash(id));
    }
  }

  /** The owner's second search. */
  method SearchAsOwner(f: ClaimFile, id: int, k: Worker, pending: Claim, missed: bool) returns (found: Found)
    requires f.Valid() && f.At(id, k.(pc := SearchAgain(pending))) && (missed ==> !f.cfg.exact)
    modifies f
    ensures f.Valid() && old(f.events) <= f.events
    ensures f.At(id,
      k.(pc := match found
               case One(n) => PutFinal(pending, n)
               case Nothing => Create(pending)
               case Many => Stopped(None)))
    ensures !f.shared && !missed ==> Finds(old(f.issues), found) && f.Are(old(f.claim), old(f.issues), old(f.clock))
  {
    var now := f.Others(id);
    var n;
    found, n := f.Search(missed);
    f.Note(Run(id, Plain(now).(found := n, missed := missed)));
  }

  method CreateOnce(f: ClaimFile, id: int, k: Worker, pending: Claim, missed: bool, created: int)
      returns (number: Option<int>)
    requires f.Valid() && f.At(id, k.(pc := SearchAgain(pending))) && (missed ==> !f.cfg.exact)
    modifies f
    ensures f.Valid() && old(f.events) <= f.events && Done(f, id, number)
    ensures !f.shared && !missed && old(f.issues) == {} && old(f.claim) == Some(pending)
            && Live(pending, old(f.clock)) ==>
              number == Some(created) && f.Are(Some(pending.(number := Some(created))), {created}, old(f.clock))
  {
    var found := SearchAsOwner(f, id, k, pending, missed);
    match found {
      case Many => number := None;
      case One(n) => number := FinalizeClaim(f, id, k, pending, n);
      case Nothing =>
        var ok := CreateIssue(f, id, k, pending, created);
        if ok {
          number := FinalizeClaim(f, id, k, pending, created);
        } else {
          number := None;
        }
    }
  }

  /** The pending claim is put, or another owner's number awaited. */
  method PutPendingClaim(f: ClaimFile, id: int, k: Worker, base: Option<Claim>) returns (pending: Option<Claim>)
    requires f.Valid() && f.At(id, k.(pc := CheckPending(base)))
    modifies f
    ensures f.Valid() && old(f.events) <= f.events
    ensures f.At(id, k.(pc := if pending.Some? then SearchAgain(pending.value) else Poll))
    ensures !f.shared && old(f.claim) == base ==>
              if base.Some? && old(f.clock) - base.value.claimedAt < 120
              then pending.None? && f.Are(base, old(f.issues), old(f.clock))
              else pending == Some(Claim(id, None, k.head, old(f.clock))) && f.Are(pending, old(f.issues), old(f.clock))
  {
    var now := f.Others(id);
    f.Note(Run(id, Plain(now)));
    if base.Some? && Live(base.value, now) {
      return None;
    }
    var mine := Claim(id, None, k.head, now);
    now := f.Others(id);
    var ok := f.PutClaim(mine, base);
    f.Note(Run(id, Plain(now)));
    pending := if ok then Some(mine) else None;
  }

  /** Claims the finding, unless a live owner holds it, and creates its issue. */
  method ClaimAndCreate(f: ClaimFile, id: int, k: Worker, base: Option<Claim>, missed: bool, created: int)
      returns (number: Option<int>)
    requires f.Valid() && f.At(id, k.(pc := CheckPending(base))) && (missed ==> !f.cfg.exact)
    modifies f
    ensures f.Valid() && old(f.events) <= f.events && Done(f, id, number)
    ensures !f.shared && !missed && old(f.claim) == base && !Numbered(base) && old(f.issues) == {} ==>
              AloneDoes(f, base, {}, old(f.clock), id, k.head, created, number)
  {
    var pending := PutPendingClaim(f, id, k, base);
    if pending.Some? {
      number := CreateOnce(f, id, k, pending.value, missed, created);
    } else {
      number := PollForNumber(f, id, k);
    }
  }

  /** The first search, before any claim. */
  method SearchFirst(f: ClaimFile, id: int, k: Worker, base: Option<Claim>, missed: bool) returns (found: Found)
    requires f.Valid() && f.At(id, k.(pc := FindingIssue.Search(base))) && (missed ==> !f.cfg.exact)
    modifies f
    ensures f.Valid() && old(f.events) <= f.events
    ensures f.At(id,
      k.(pc := match found
               case One(n) => PutFound(base, n)
               case Nothing => CheckPending(base)
               case Many => Stopped(None)))
    ensures !f.shared && !missed ==> Finds(old(f.issues), found) && f.Are(old(f.claim), old(f.issues), old(f.clock))
  {
    var now := f.Others(id);
    var n;
    found, n := f.Search(missed);
    f.Note(Run(id, Plain(now).(found := n, missed := missed)));
  }

  method ReadClaimFile(f: ClaimFile, id: int, k: Worker) returns (base: Option<Claim>)
    requires f.Valid() && f.At(id, k.(pc := ReadClaim))
    modifies f
    ensures f.Valid() && old(f.events) <= f.events
    ensures f.At(id, k.(pc := if Numbered(base) then Update(base.value, base) else FindingIssue.Search(base)))
    ensures !f.shared ==> base == old(f.claim) && f.Are(old(f.claim), old(f.issues), old(f.clock))
  {
    var now := f.Others(id);
    base := f.claim;
    f.Note(Run(id, Plain(now)));
  }

  /** `upsert_implementation_packet`: a number it reports is that of an existing issue of the finding,
      and the one its claim holds. */
  method UpsertImplementationPacket(f: ClaimFile, id: int, head: int, missed: bool, created: int)
      returns (number: Option<int>)
    requires f.Valid() && id !in f.Now().workers && (missed ==> !f.cfg.exact)
    modifies f
    ensures f.Valid() && old(f.events) <= f.events && Done(f, id, number)
    ensures number.Some? ==> IsTheIssue(World(f.claim, f.issues, f.clock), number.value)
    ensures !f.shared && !missed ==>
              AloneDoes(f, old(f.claim), old(f.issues), old(f.clock), id, head, created, number)
  {
    f.Note(Begin(id, head));
    number := ReadAndHandOff(f, id, Worker(head, ReadClaim), missed, created);
    if number.Some? {
      ReportedIsTheIssue(f.cfg, f.events, id, number.value);
    }
  }

  /** From the claim file's load on. */
  method ReadAndHandOff(f: ClaimFile, id: int, k: Worker, missed: bool, created: int) returns (number: Option<int>)
    requires f.Valid() && f.At(id, k.(pc := ReadClaim)) && (missed ==> !f.cfg.exact)
    modifies f
    ensures f.Valid() && old(f.events) <= f.events && Done(f, id, number)
    ensures !f.shared && !missed ==>
              AloneDoes(f, old(f.claim), old(f.issues), old(f.clock), id, k.head, created, number)
  {
    var base := ReadClaimFile(f, id, k);
    if Numbered(base) {
      number := UpdateExistingClaim(f, id, k, base.value, base);
      return;
    }
    var found := SearchFirst(f, id, k, base, missed);
    match found {
      case One(n) => number := ReconcileFound(f, id, k, base, n);
      case Nothing => number := ClaimAndCreate(f, id, k, base, missed, created);
      case Many => number := None;
    }
  }
}
