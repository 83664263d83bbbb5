/** The in-memory work-packet store and one disposition pass over it, as they run. */
module PacketStore {
  import opened Common
  import opened AuditLedger
  import opened AuditDisposition
  import opened DispositionRuns
  import opened DispositionGates

  /** The packet store, and the claim ledger of the same issue beside it. */
  class MemoryStores {
    var packet: Packet
    var mutations: int
    var ledger: Option<Ledger>
    ghost const cfg: Config
    ghost const first: int
    ghost const shared: bool      // other passes, audits and editors use the stores as well
    ghost var events: seq<Event>

    constructor (issue: int, head: int, ghost shared: bool)
      ensures Valid() && Now() == Initial(head) && this.shared == shared
    {
      this.shared := shared;
      packet, mutations, ledger := Packet(head, None, 0), 0, None;
      cfg, first, events := Config(issue, false, false, false), head, [];
    }

    ghost function Now(): System
      reads this
    {
      Exec(cfg, first, events)
    }

    ghost predicate Holds(w: World)
      reads this
    {
      packet == w.packet && ledger == w.ledger && mutations == |w.mutated|
    }

    ghost predicate Valid()
      reads this
    {
      Holds(Now().world) && !cfg.adopting
    }

    ghost predicate At(id: int, p: Pass)
      reads this
    {
      id in Now().passes && Now().passes[id] == p
    }

    /** Replaces the body only if body and token are still those the caller read. */
    method CasSave(head: int, evidence: Option<Evidence>, expected: Packet) returns (ok: bool)
      modifies this`packet, this`mutations
      ensures ok == (old(packet) == expected)
      ensures packet == if ok then Packet(head, evidence, old(packet).token + 1) else old(packet)
      ensures mutations == old(mutations) + if ok then 1 else 0
    {
      ok := packet == expected;
      if ok {
        packet := Packet(head, evidence, packet.token + 1);
        mutations := mutations + 1;
      }
    }

    method SaveLedger(next: Ledger, expected: Ledger) returns (ok: bool)
      modifies this`ledger
      ensures ok == (old(ledger) == Some(expected))
      ensures ledger == if ok then Some(next) else old(ledger)
    {
      ok := ledger == Some(expected);
      if ok {
        ledger := Some(next);
      }
    }

    ghost method Record(e: Event)
      requires Holds(Next(cfg, Now(), e).world) && !cfg.adopting
      modifies this`events
      ensures Valid() && Now() == Next(cfg, old(Now()), e) && events == old(events) + [e]
    {
      events := events + [e];
      assert events[..|events| - 1] == old(events);
    }

    /** Whatever other passes, audits and editors do meanwhile. */
    method Others(ghost id: int)
      requires Valid()
      modifies this
      ensures Valid() && old(events) <= events
      ensures id in old(Now()).passes ==> At(id, old(Now()).passes[id])
      ensures !shared ==> Are(old(ledger), old(packet), old(mutations))
    {
    }

    predicate Are(ledger: Option<Ledger>, packet: Packet, mutations: int)
      reads this
    {
      this.ledger == ledger && this.packet == packet && this.mutations == mutations
    }
  }

  // ---- What one pass alone does -----------------------------------------------------------------

  /** The disposition is recorded, unless the attempt number is out of range. */
  ghost predicate Records(before: Ledger, after: Option<Ledger>, key: Key, action: Action, attempt: int,
      result: Result)
  {
    if 1 <= attempt <= 100 then
      && result == Recorded
      && after == Some(before.(dispositions := before.dispositions[key := Disposition(action, attempt)]))
    else result == Raised && after == Some(before)
  }

  /** The body now shows the head and the mutation; then the disposition is recorded. */
  ghost predicate Mutates(held: Ledger, body: Packet, count: int, stores: MemoryStores, key: Key, m: Mutation,
      attempt: int, result: Result)
    reads stores
  {
    && stores.packet == Packet(key.sha, Some(Evidence(key.sha, m)), body.token + 1) && stores.mutations == count + 1
    && Records(held, stores.ledger, key, if m.Handoff? then ReworkHandoff else PassCheckpoint, attempt, result)
  }

  ghost predicate Shows(body: Packet, m: Mutation) {
    body.evidence.Some? && body.evidence.value.mutation == m
  }

  /** What follows from a completed claim at the body's own head, nothing refused. */
  ghost predicate Follows(held: Ledger, body: Packet, count: int, stores: MemoryStores, p: Pass, verdict: Verdict,
      result: Result)
    reads stores
  {
    match verdict
    case HumanRequired =>
      && stores.packet == body && stores.mutations == count
      && Records(held, stores.ledger, p.key, HumanRequiredAction, p.attempt, result)
    case Rework =>
      if Shows(body, Handoff) then result == Duplicate && stores.Are(Some(held), body, count)
      else Mutates(held, body, count, stores, p.key, Handoff, p.attempt, result)
    case Pass =>
      if Shows(body, Checkpoint) then result == Duplicate && stores.Are(Some(held), body, count)
      else if !AllGates(p.gates, p.key.sha) then result == NoAdvancement && stores.Are(Some(held), body, count)
      else Mutates(held, body, count, stores, p.key, Checkpoint, p.attempt, result)
  }

  ghost predicate FromBody(held: Ledger, body: Packet, count: int, stores: MemoryStores, p: Pass, refused: bool,
      result: Result)
    requires p.key in held.claims && held.claims[p.key].verdict.Some?
    reads stores
  {
    if body.head != p.key.sha then result == Stale && stores.Are(Some(held), body, count)
    else if refused then result == Refused && stores.Are(Some(held), body, count)
    else Follows(held, body, count, stores, p, held.claims[p.key].verdict.value, result)
  }

  /** One pass alone, from the stores as it finds them: no completed claim, or a body that has moved on, is
      stale; a disposition already there is a duplicate; otherwise the verdict is followed. */
  ghost predicate AloneDoes(ledger: Option<Ledger>, body: Packet, count: int, stores: MemoryStores, p: Pass,
      refused: bool, result: Result)
    reads stores
  {
    var completed := ledger.Some? && p.key in ledger.value.claims
      && ledger.value.claims[p.key].state == ClaimState.Completed && ledger.value.claims[p.key].verdict.Some?;
    if !completed then result == Stale && stores.Are(ledger, body, count)
    else if p.key in ledger.value.dispositions && ledger.value.dispositions[p.key].action != DispatchStarted then
      result == Duplicate && stores.Are(ledger, body, count)
    else FromBody(ledger.value, body, count, stores, p, refused, result)
  }

  /** Records the disposition, last. */
  method Remembering(stores: MemoryStores, ghost id: int, p: Pass, held: Ledger, action: Action)
      returns (result: Result)
    requires stores.Valid() && stores.At(id, p.(pc := Pc.SaveLedger(held, action)))
    modifies stores
    ensures stores.Valid() && old(stores.events) <= stores.events
    ensures stores.At(id, p.(pc := Ended(result)))
    ensures result == Recorded ==> DispositionOf(stores.Now().world, p.key) == Some(Disposition(action, p.attempt))
    ensures !stores.shared && old(stores.ledger) == Some(held) ==>
              && stores.packet == old(stores.packet) && stores.mutations == old(stores.mutations)
              && Records(held, stores.ledger, p.key, action, p.attempt, result)
  {
    stores.Others(id);
    if !(1 <= p.attempt <= 100) {
      stores.Record(Run(id, false));
      return Raised;
    }
    var ok := stores.SaveLedger(Remember(held, p, action), held);
    stores.Record(Run(id, false));
    result := if ok then Recorded else Raised;
  }

  /** The compare-and-set of the body. */
  method ChangeBody(stores: MemoryStores, ghost id: int, p: Pass, ghost held: Ledger, seen: Packet, m: Mutation)
      returns (ok: bool)
    requires stores.Valid() && stores.At(id, p.(pc := CasPacket(held, seen, m)))
    modifies stores
    ensures stores.Valid() && old(stores.events) <= stores.events
    ensures stores.At(id, p.(pc := if ok then Pc.SaveLedger(held, ActionOf(m)) else Ended(Raised)))
    ensures !stores.shared && old(stores.packet) == seen ==>
              ok && stores.Are(old(stores.ledger), Packet(p.key.sha, Some(Evidence(p.key.sha, m)), seen.token + 1),
                               old(stores.mutations) + 1)
  {
    stores.Others(id);
    ok := stores.CasSave(p.key.sha, Some(Evidence(p.key.sha, m)), seen);
    stores.Record(Run(id, false));
  }

  /** Re-reads the body, changes it by compare-and-set, then records. */
  method MutateAndRemember(stores: MemoryStores, ghost id: int, p: Pass, held: Ledger, seen: Packet, m: Mutation)
      returns (result: Result)
    requires stores.Valid() && stores.At(id, p.(pc := Reload(held, seen, m)))
    modifies stores
    ensures stores.Valid() && old(stores.events) <= stores.events
    ensures stores.At(id, p.(pc := Ended(result)))
    ensures result == Recorded ==> DispositionOf(stores.Now().world, p.key) == Some(Disposition(ActionOf(m), p.attempt))
    ensures !stores.shared && old(stores.ledger) == Some(held) && old(stores.packet) == seen ==>
              Mutates(held, seen, old(stores.mutations), stores, p.key, m, p.attempt, result)
  {
    stores.Others(id);
    var again := stores.packet;
    stores.Record(Run(id, false));
    if again != seen {
      return PacketConflict;
    }
    var ok := ChangeBody(stores, id, p, held, seen, m);
    if !ok {
      return Raised;
    }
    result := Remembering(stores, id, p, held, ActionOf(m));
  }

  /** One call. Its pass is one of the protocol's, so what is proved of all runs holds of the stores. */
  method ApplyExactHeadDisposition(stores: MemoryStores, ghost id: int, sha: int, issue: int, attempt: int,
      gates: Option<Gates>, refused: bool)
    returns (result: Result)
    requires stores.Valid() && id !in stores.Now().passes && issue == stores.cfg.issue
    modifies stores
    ensures stores.Valid() && old(stores.events) <= stores.events
    ensures id in stores.Now().passes && stores.Now().passes[id].pc == Ended(result)
    ensures result == Recorded ==> Done(stores.Now().world, Key(issue, sha))
    ensures !stores.shared ==>
              AloneDoes(old(stores.ledger), old(stores.packet), old(stores.mutations), stores,
                        Pass.Pass(Key(issue, sha), attempt, gates, LoadLedger), refused, result)
  {
    var p := Pass.Pass(Key(issue, sha), attempt, gates, LoadLedger);
    stores.Record(Begin(id, sha, attempt, gates));
    stores.Others(id);
    var loaded := stores.ledger;
    stores.Record(Run(id, refused));
    if loaded.None? || !IsReady(loaded.value, p.key) {
      return Stale;
    }
    var held := loaded.value;
    if p.key in held.dispositions && Terminal(held.dispositions[p.key]) {
      return Duplicate;
    }
    result := ReadAndApply(stores, id, p, held, refused);
  }

  /** From the body's load on, for a completed claim without a terminal disposition. */
  method ReadAndApply(stores: MemoryStores, ghost id: int, p: Pass, held: Ledger, refused: bool)
      returns (result: Result)
    requires stores.Valid() && stores.At(id, p.(pc := LoadPacket(held))) && IsReady(held, p.key)
    modifies stores
    ensures stores.Valid() && old(stores.events) <= stores.events
    ensures id in stores.Now().passes && stores.Now().passes[id].pc == Ended(result)
    ensures result == Recorded ==> Done(stores.Now().world, p.key)
    ensures !stores.shared && old(stores.ledger) == Some(held) ==>
              FromBody(held, old(stores.packet), old(stores.mutations), stores, p, refused, result)
  {
    stores.Others(id);
    var seen := stores.packet;
    stores.Record(Run(id, refused));
    if seen.head != p.key.sha {
      return Stale;
    }
    if refused {
      return Refused;
    }
    var verdict := held.claims[p.key].verdict.value;
    if verdict == HumanRequired {
      result := Remembering(stores, id, p, held, HumanRequiredAction);
      return;
    }
    var m := if verdict == Rework then Handoff else Checkpoint;
    if PacketMarker(seen, p.key.sha, m) {
      return Duplicate;
    }
    if m == Checkpoint && !GatesAreCurrent(p.gates, p.key.sha) {
      return NoAdvancement;
    }
    result := MutateAndRemember(stores, id, p, held, seen, m);
  }
}
