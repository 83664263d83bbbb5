/** The canonical checkpoint behind the Contents API: every PUT is bound to the blob SHA of the last
    load or save, replies can be lost or malformed, and any number of clients write. A blob SHA is
    the digest of the bytes, so a SHA stands for the document itself. */
module Contents {
  import opened Common

  datatype Doc = Doc(revision: int, body: int)

  /** What the caller sees of a PUT: a SHA; a success without one (or no JSON); a refusal; another
      failure; or nothing, when the command times out. */
  datatype Reply = Confirmed | Unconfirmed | Refused | Failed | TimedOut

  /** A PUT whose outcome is being looked for: how long the history was when it arrived or was lost,
      and whether it was committed. */
  datatype Pc = Idle | Putting(intended: Doc) | Observing(intended: Doc, reply: Reply, place: int, committed: bool)

  /** A conflict reported after a PUT: what was looked for, and the history's length at the re-read. */
  datatype Report = Report(intended: Doc, reply: Reply, place: int, committed: bool, seen: int)

  /** `token` is the CAS token, `held` the revision of the packet at hand; `returned` and `reports` are
      what its saves came to. */
  datatype Client = Client(pc: Pc, loaded: bool, token: Option<Doc>, held: int, returned: seq<Doc>,
      reports: seq<Report>)

  /** `history`: every document that was ever canonical, in order. `mine`: who wrote each. */
  datatype World = World(history: seq<Doc>, writers: seq<int>, clients: map<int, Client>)

  /** `faithful`: a packet is saved with the revision it was loaded or last saved with; `clear`: a PUT
      whose reply is a failure was not committed. */
  datatype Config = Config(faithful: bool, clear: bool)

  const NEW_CLIENT := Client(Idle, false, None, 0, [], [])
  const INITIAL := World([], [], map[])

  function Current(history: seq<Doc>): Option<Doc> {
    if history == [] then None else Some(history[|history| - 1])
  }

  datatype Event =
    | Load(id: int, answered: bool)
    | Save(id: int, body: int, revision: int)
    | Put(id: int, arrives: bool, reply: Reply)
    | Observe(id: int, answered: bool)

  function ClientOf(w: World, id: int): Client {
    if id in w.clients then w.clients[id] else NEW_CLIENT
  }

  function SetClient(w: World, id: int, c: Client): World {
    w.(clients := w.clients[id := c])
  }

  function DoLoad(w: World, c: Client): Client {
    var now := Current(w.history);
    c.(loaded := true, token := now, held := if now.Some? then now.value.revision else 0)
  }

  /** A save without a token must create revision 1; otherwise it is the next revision. */
  function DoSave(c: Client, body: int, revision: int): Client {
    if c.token.None? && revision != 0 then c
    else c.(pc := Putting(Doc(if c.token.None? then 1 else revision + 1, body)))
  }

  predicate Commits(w: World, c: Client, arrives: bool) {
    arrives && Current(w.history) == c.token
  }

  /** The server tells the truth: success only for what it committed, refusal only for what it did not. */
  predicate Honest(cfg: Config, committed: bool, reply: Reply) {
    match reply
    case Confirmed => committed
    case Unconfirmed => committed
    case Refused => !committed
    case Failed => cfg.clear ==> !committed
    case TimedOut => true
  }

  function Adopt(c: Client, doc: Doc): Client {
    c.(pc := Idle, token := Some(doc), held := doc.revision, returned := c.returned + [doc])
  }

  function AfterPut(c: Client, intended: Doc, reply: Reply, place: int, committed: bool): Client {
    match reply
    case Confirmed => Adopt(c, intended)
    case TimedOut => c.(pc := Idle)
    case _ => c.(pc := Observing(intended, reply, place, committed))
  }

  /** The re-read adopts exactly the intended bytes; else it raises, a conflict when refused or when
      other bytes are canonical. */
  function AfterObserve(w: World, c: Client, answered: bool): Client
    requires c.pc.Observing?
  {
    if answered && Current(w.history) == Some(c.pc.intended) then Adopt(c, c.pc.intended)
    else if c.pc.reply.Refused? || (c.pc.reply.Failed? && answered && Current(w.history).Some?) then
      c.(pc := Idle, reports := c.reports
          + [Report(c.pc.intended, c.pc.reply, c.pc.place, c.pc.committed, |w.history|)])
    else c.(pc := Idle)
  }

  function Next(cfg: Config, w: World, e: Event): World {
    var c := ClientOf(w, e.id);
    match e
    case Load(id, answered) => if c.pc.Idle? && answered then SetClient(w, id, DoLoad(w, c)) else w
    case Save(id, body, revision) =>
      if c.pc.Idle? && c.loaded && (cfg.faithful ==> revision == c.held) then
          SetClient(w, id, DoSave(c, body, revision)) else w
    case Put(id, arrives, reply) =>
      if !c.pc.Putting? || !Honest(cfg, Commits(w, c, arrives), reply) then w
      else
        var v := SetClient(w, id, AfterPut(c, c.pc.intended, reply, |w.history|, Commits(w, c, arrives)));
        if Commits(w, c, arrives) then v.(history := w.history + [c.pc.intended], writers := w.writers + [id]) else v
    case Observe(id, answered) =>
      if !c.pc.Observing? then w else SetClient(w, id, AfterObserve(w, c, answered))
  }

  function Exec(cfg: Config, events: seq<Event>): World {
    if events == [] then INITIAL else Next(cfg, Exec(cfg, events[..|events| - 1]), events[|events| - 1])
  }

  // ---- A returned SHA is the SHA of canonical bytes ------------------------------------------

  ghost predicate ReturnsWereCanonical(w: World) {
    forall id, d :: id in w.clients && d in w.clients[id].returned ==> d in w.history
  }

  /** Whatever replies are lost or malformed and whoever interferes: a save that returns a SHA
      returns that of its intended bytes, and those bytes were canonical. */
  lemma {:induction false} ReturnedWasCanonical(cfg: Config, events: seq<Event>)
    ensures ReturnsWereCanonical(Exec(cfg, events))
  {
    if events != [] {
      ReturnedWasCanonical(cfg, events[..|events| - 1]);
      ReturnStep(cfg, Exec(cfg, events[..|events| - 1]), events[|events| - 1]);
    }
  }

  lemma ReturnStep(cfg: Config, w: World, e: Event)
    requires ReturnsWereCanonical(w)
    ensures ReturnsWereCanonical(Next(cfg, w, e))
  {
    var t := Next(cfg, w, e);
    assert w.history <= t.history;
    forall id, d | id in t.clients && d in t.clients[id].returned ensures d in t.history {
      if id in w.clients && d in w.clients[id].returned {
        assert d in w.history;
      } else if e.Observe? {
        assert Current(w.history) == Some(d);
      } else {
        assert t.history == w.history + [d];
      }
    }
  }

  // ---- One chain ------------------------------------------------------------------------

  predicate Chain(history: seq<Doc>) {
    forall i | 0 <= i < |history| :: history[i].revision == i + 1
  }

  predicate ClientFollows(c: Client) {
    && c.held == (if c.token.Some? then c.token.value.revision else 0)
    && (c.pc.Putting? ==> c.pc.intended.revision == c.held + 1)
    && (c.pc.Observing? ==> c.pc.intended.revision == c.held + 1)
  }

  ghost predicate Follows(w: World) {
    Chain(w.history) && |w.writers| == |w.history| && forall id :: id in w.clients ==> ClientFollows(w.clients[id])
  }

  lemma FollowStep(cfg: Config, w: World, e: Event)
    requires cfg.faithful && Follows(w)
    ensures Follows(Next(cfg, w, e))
  {
    assert ClientFollows(ClientOf(w, e.id));
  }

  lemma {:induction false} FaithfulChain(cfg: Config, events: seq<Event>)
    requires cfg.faithful
    ensures Follows(Exec(cfg, events))
  {
    if events != [] {
      FaithfulChain(cfg, events[..|events| - 1]);
      FollowStep(cfg, Exec(cfg, events[..|events| - 1]), events[|events| - 1]);
    }
  }

  lemma Then(cfg: Config, past: seq<Event>, a: Event, b: Event, c: Event) returns (events: seq<Event>)
    ensures Exec(cfg, events) == Next(cfg, Next(cfg, Next(cfg, Exec(cfg, past), a), b), c)
  {
    var one := past + [a];
    var two := one + [b];
    events := two + [c];
    assert one[..|one| - 1] == past && two[..|two| - 1] == one && events[..|events| - 1] == two;
    assert Exec(cfg, one) == Next(cfg, Exec(cfg, past), a);
    assert Exec(cfg, two) == Next(cfg, Exec(cfg, one), b);
  }

  /** The revisions of the committed history are 1, 2, 3, ... in every run, exactly when packets are
      saved with the revision they were loaded with. */
  lemma HistoryIsOneChain(cfg: Config)
    ensures (forall events :: Chain(Exec(cfg, events).history)) <==> cfg.faithful
  {
    if cfg.faithful {
      forall events ensures Chain(Exec(cfg, events).history) {
        FaithfulChain(cfg, events);
      }
    } else {
      var events := Then(cfg, [], Load(1, true), Save(1, 0, 0), Put(1, true, Confirmed));
      assert Exec(cfg, events).history == [Doc(1, 0)];
      events := Then(cfg, events, Load(1, true), Save(1, 0, 7), Put(1, true, Confirmed));
      assert Exec(cfg, events).history[1] == Doc(8, 0);
    }
  }

  // ---- What a reported conflict means ----------------------------------------------------------

  /** The client's own write stands at that place of the history, with another write after it. */
  predicate OwnAndSucceeded(w: World, id: int, intended: Doc, place: int, seen: int) {
    0 <= place && place + 1 < seen <= |w.history| && |w.writers| == |w.history|
    && w.writers[place] == id && w.history[place] == intended
  }

  /** What a client that looks for its PUT can rely on: its own write is at `place` if it was
      committed, and nothing of its own is there if it was not. */
  predicate Looking(w: World, id: int, c: Client) {
    c.pc.Observing? ==>
      && 0 <= c.pc.place <= |w.history| && |w.writers| == |w.history| && (c.pc.reply.Refused? ==> !c.pc.committed)
      && (if c.pc.committed
          then c.pc.place < |w.history| && w.history[c.pc.place] == c.pc.intended && w.writers[c.pc.place] == id
          else c.pc.place < |w.history| ==> w.writers[c.pc.place] != id)
  }

  predicate ReportOk(w: World, id: int, r: Report) {
    r.committed <==> r.reply.Failed? && OwnAndSucceeded(w, id, r.intended, r.place, r.seen)
  }

  predicate ReportKnown(w: World, r: Report) { 0 <= r.place <= r.seen <= |w.history| == |w.writers| }

  predicate ClientTells(w: World, id: int, c: Client) {
    Looking(w, id, c) && forall i | 0 <= i < |c.reports| ::
          ReportOk(w, id, c.reports[i]) && ReportKnown(w, c.reports[i])
  }

  ghost predicate Tells(w: World) {
    |w.writers| == |w.history| && forall id :: id in w.clients ==> ClientTells(w, id, w.clients[id])
  }

  /** Somebody else's write, or none. */
  lemma OthersTell(w: World, v: World, id: int, c: Client)
    requires ClientTells(w, id, c) && |w.writers| == |w.history| && |v.writers| == |v.history|
    requires w.history <= v.history && w.writers <= v.writers
    requires v.history == w.history || (|v.history| == |w.history| + 1 && v.writers[|w.history|] != id)
    ensures ClientTells(v, id, c)
  {
    forall i | 0 <= i < |c.reports| ensures ReportOk(v, id, c.reports[i]) && ReportKnown(v, c.reports[i]) {
      var r := c.reports[i];
      assert ReportOk(w, id, r) && ReportKnown(w, r);
      assert r.place + 1 < r.seen
          ==> v.writers[r.place] == w.writers[r.place] && v.history[r.place] == w.history[r.place];
    }
  }

  lemma PutTells(cfg: Config, w: World, e: Event)
    requires Tells(w) && e.Put?
    ensures Tells(Next(cfg, w, e))
  {
    var v := Next(cfg, w, e);
    var c := ClientOf(w, e.id);
    if c.pc.Putting? && Honest(cfg, Commits(w, c, e.arrives), e.reply) {
      forall id | id in v.clients && id != e.id ensures ClientTells(v, id, v.clients[id]) {
        OthersTell(w, v, id, w.clients[id]);
      }
      OwnPutTells(w, v, e.id, c, v.clients[e.id]);
    }
  }

  lemma OwnPutTells(w: World, v: World, id: int, c: Client, d: Client)
    requires |w.writers| == |w.history| && |v.writers| == |v.history| && w.history <= v.history
      && w.writers <= v.writers
    requires ClientTells(w, id, c) && d.reports == c.reports && Looking(v, id, d)
    ensures ClientTells(v, id, d)
  {
    forall i | 0 <= i < |d.reports| ensures ReportOk(v, id, d.reports[i]) && ReportKnown(v, d.reports[i]) {
      var r := c.reports[i];
      assert ReportOk(w, id, r) && ReportKnown(w, r);
      assert r.place + 1 < r.seen
          ==> v.writers[r.place] == w.writers[r.place] && v.history[r.place] == w.history[r.place];
    }
  }

  lemma ObserveTells(cfg: Config, w: World, e: Event)
    requires Tells(w) && e.Observe?
    ensures Tells(Next(cfg, w, e))
  {
    var v := Next(cfg, w, e);
    var c := ClientOf(w, e.id);
    forall id | id in v.clients && id != e.id ensures ClientTells(v, id, v.clients[id]) {
      OthersTell(w, v, id, w.clients[id]);
    }
    if c.pc.Observing? && v.clients[e.id].reports != c.reports {
      ReportTells(w, e.id, c, v.clients[e.id].reports[|c.reports|]);
    }
  }

  /** The bytes are no longer canonical: either they were never committed, or another write followed. */
  lemma ReportTells(w: World, id: int, c: Client, r: Report)
    requires c.pc.Observing? && Looking(w, id, c)
      && (c.pc.reply.Refused? || (c.pc.reply.Failed? && Current(w.history) != Some(c.pc.intended)))
    requires r == Report(c.pc.intended, c.pc.reply, c.pc.place, c.pc.committed, |w.history|)
    ensures ReportOk(w, id, r) && ReportKnown(w, r)
  {
  }

  lemma RestTells(cfg: Config, w: World, e: Event)
    requires Tells(w) && !e.Put? && !e.Observe?
    ensures Tells(Next(cfg, w, e))
  {
    var v := Next(cfg, w, e);
    forall id | id in v.clients ensures ClientTells(v, id, v.clients[id]) {
      OthersTell(w, v, id, ClientOf(w, id));
    }
  }

  lemma {:induction false} RunsTell(cfg: Config, events: seq<Event>)
    ensures Tells(Exec(cfg, events))
  {
    if events != [] {
      var init, e := events[..|events| - 1], events[|events| - 1];
      RunsTell(cfg, init);
      if e.Put? {
        PutTells(cfg, Exec(cfg, init), e);
      } else if e.Observe? {
        ObserveTells(cfg, Exec(cfg, init), e);
      } else {
        RestTells(cfg, Exec(cfg, init), e);
      }
    }
  }

  /** For every conflict reported in every run: its PUT was committed exactly when the reply was a
      failure and, in the history as it was at the re-read, the client's own write stands where the PUT
      met it, with another write after it. */
  lemma ConflictTellsCommit(cfg: Config, events: seq<Event>, id: int, i: int)
    requires id in Exec(cfg, events).clients && 0 <= i < |Exec(cfg, events).clients[id].reports|
    ensures var r := Exec(cfg, events).clients[id].reports[i];
            r.committed <==> r.reply.Failed? && OwnAndSucceeded(Exec(cfg, events), id, r.intended, r.place, r.seen)
  {
    RunsTell(cfg, events);
    assert ReportOk(Exec(cfg, events), id, Exec(cfg, events).clients[id].reports[i]);
  }

  // ---- Without interference -----------------------------------------------------------------

  lemma {:induction false} OthersKeepClient(cfg: Config, past: seq<Event>, between: seq<Event>, id: int)
    requires forall i :: 0 <= i < |between| ==> between[i].id != id
    ensures ClientOf(Exec(cfg, past + between), id) == ClientOf(Exec(cfg, past), id)
    decreases |between|
  {
    if between == [] {
      assert past + between == past;
    } else {
      var init := between[..|between| - 1];
      OthersKeepClient(cfg, past, init, id);
      assert (past + between)[..|past + between| - 1] == past + init;
    }
  }

  /** If the canonical bytes have not moved between a PUT and its answered re-read, whatever other
      clients have tried meanwhile, the save tells exactly what happened: it returns a SHA if and only
      if its bytes were committed. */
  lemma UndisturbedPutIsResolved(cfg: Config, past: seq<Event>, id: int, arrives: bool, reply: Reply,
      between: seq<Event>)
    requires var w := Exec(cfg, past); var c := ClientOf(w, id);
             c.pc.Putting? && Honest(cfg, Commits(w, c, arrives), reply) && Current(w.history) != Some(c.pc.intended)
    requires !reply.TimedOut? && forall i :: 0 <= i < |between| ==> between[i].id != id
    requires Current(Exec(cfg, past + [Put(id, arrives, reply)] + between).history)
          == Current(Exec(cfg, past + [Put(id, arrives, reply)]).history)
    ensures var c := ClientOf(Exec(cfg, past), id);
            var d := ClientOf(Exec(cfg, past + [Put(id, arrives, reply)] + between + [Observe(id, true)]), id);
            d.pc.Idle? && d.returned == c.returned + if Commits(Exec(cfg, past), c, arrives) then [c.pc.intended]
                else []
  {
    var put := past + [Put(id, arrives, reply)];
    var met := put + between;
    var seen := met + [Observe(id, true)];
    assert put[..|put| - 1] == past && seen[..|seen| - 1] == met;
    assert Exec(cfg, put) == Next(cfg, Exec(cfg, past), Put(id, arrives, reply));
    OthersKeepClient(cfg, put, between, id);
    assert Exec(cfg, seen) == Next(cfg, Exec(cfg, met), Observe(id, true));
  }

  // ---- When a conflict means that nothing was written --------------------------------------------

  /** A reported conflict does not mean that nothing was written: a write whose reply failed can be
      committed, read and succeeded by another client before it is looked for. */
  lemma ConflictAfterCommit(cfg: Config) returns (events: seq<Event>)
    requires !cfg.clear
    ensures Exec(cfg, events).history == [Doc(1, 4), Doc(2, 5)] && Exec(cfg, events).writers == [1, 2]
    ensures ClientOf(Exec(cfg, events), 1).reports == [Report(Doc(1, 4), Failed, 0, true, 2)]
    ensures ClientOf(Exec(cfg, events), 1).returned == [] && 1 in Exec(cfg, events).clients
  {
    events := FirstFails(cfg);
    events := SecondFollows(cfg, events);
    events := Then(cfg, events, Load(2, true), Load(2, true), Observe(1, true));
  }

  /** The first client's write is committed, its reply is lost. */
  lemma FirstFails(cfg: Config) returns (events: seq<Event>)
    requires !cfg.clear
    ensures Exec(cfg, events).history == [Doc(1, 4)] && Exec(cfg, events).writers == [1]
    ensures Exec(cfg, events).clients
         == map[1 := Client(Observing(Doc(1, 4), Failed, 0, true), true, None, 0, [], [])]
  {
    events := Then(cfg, [], Load(1, true), Save(1, 4, 0), Put(1, true, Failed));
  }

  /** The second client reads it and writes the next revision. */
  lemma SecondFollows(cfg: Config, past: seq<Event>) returns (events: seq<Event>)
    requires Exec(cfg, past).history == [Doc(1, 4)] && Exec(cfg, past).writers == [1]
    requires Exec(cfg, past).clients
          == map[1 := Client(Observing(Doc(1, 4), Failed, 0, true), true, None, 0, [], [])]
    ensures Exec(cfg, events).history == [Doc(1, 4), Doc(2, 5)] && Exec(cfg, events).writers == [1, 2]
    ensures 1 in Exec(cfg, events).clients
         && Exec(cfg, events).clients[1] == Client(Observing(Doc(1, 4), Failed, 0, true), true, None, 0, [], [])
    ensures 2 in Exec(cfg, events).clients && Exec(cfg, events).clients[2].pc.Idle?
  {
    events := Then(cfg, past, Load(2, true), Save(2, 5, 1), Put(2, true, Confirmed));
  }

  ghost predicate ConflictsWroteNothing(w: World) {
    forall id, i :: id in w.clients && 0 <= i < |w.clients[id].reports| ==> !w.clients[id].reports[i].committed
  }

  lemma ClearStep(cfg: Config, w: World, e: Event)
    requires cfg.clear && ConflictsWroteNothing(w) && LookingUncommitted(w)
    ensures ConflictsWroteNothing(Next(cfg, w, e)) && LookingUncommitted(Next(cfg, w, e))
  {
    var v := Next(cfg, w, e);
    var c := ClientOf(w, e.id);
    forall id, i | id in v.clients && 0 <= i < |v.clients[id].reports| ensures !v.clients[id].reports[i].committed {
      assert id in w.clients && i < |w.clients[id].reports| ==> v.clients[id].reports[i] == w.clients[id].reports[i];
    }
  }

  ghost predicate LookingUncommitted(w: World) {
    forall id ::
          id in w.clients && w.clients[id].pc.Observing? && (w.clients[id].pc.reply.Failed?
              || w.clients[id].pc.reply.Refused?) ==>
      !w.clients[id].pc.committed
  }

  lemma {:induction false} ClearRuns(cfg: Config, events: seq<Event>)
    requires cfg.clear
    ensures ConflictsWroteNothing(Exec(cfg, events)) && LookingUncommitted(Exec(cfg, events))
  {
    if events != [] {
      ClearRuns(cfg, events[..|events| - 1]);
      ClearStep(cfg, Exec(cfg, events[..|events| - 1]), events[|events| - 1]);
    }
  }

  /** In every run a reported conflict means that nothing was committed, exactly when failed replies do. */
  lemma ConflictMeansNothing(cfg: Config)
    ensures (forall events :: ConflictsWroteNothing(Exec(cfg, events))) <==> cfg.clear
  {
    if cfg.clear {
      forall events ensures ConflictsWroteNothing(Exec(cfg, events)) {
        ClearRuns(cfg, events);
      }
    } else {
      var events := ConflictAfterCommit(cfg);
      var c := Exec(cfg, events).clients[1];
      assert c.reports[0].committed;
    }
  }
}
