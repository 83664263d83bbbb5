/** The work-packet handoff port: dispatch threads activate issues under one lock per repository, so
    the sections of one repository follow each other in some order. */
module HandoffPort {
  import opened Common

  type Repo = int
  type Issue = int

  /** What the port knows once its effect context is fixed. */
  datatype Context = Context(effect: int, limits: map<Repo, int>, preexisting: map<Repo, set<Issue>>)

  /** One dispatch: `admitted` covers every check before the lock, `activated` whether the packet
      adapter activated the issue, `confirmed` every check after that. */
  datatype Request = Request(effect: int, repo: Repo, issue: Issue, admitted: bool, activated: bool, confirmed: bool)

  datatype Result = Dispatched | HumanRequired

  function Preexisting(c: Context, repo: Repo): set<Issue> {
    if repo in c.preexisting then c.preexisting[repo] else {}
  }

  function ActiveIn(active: map<Repo, set<Issue>>, repo: Repo): set<Issue> {
    if repo in active then active[repo] else {}
  }

  function Total(c: Context, active: map<Repo, set<Issue>>, repo: Repo): set<Issue> {
    Preexisting(c, repo) + ActiveIn(active, repo)
  }

  predicate Admitted(c: Context, r: Request) {
    r.effect == c.effect && r.admitted && r.repo in c.limits
  }

  predicate Exhausted(c: Context, active: map<Repo, set<Issue>>, repo: Repo)
    requires repo in c.limits
  {
    |Total(c, active, repo)| >= c.limits[repo]
  }

  /** The activated issues after one dispatch: an activation stays even if a later check fails. */
  function AfterDispatch(c: Context, active: map<Repo, set<Issue>>, r: Request): map<Repo, set<Issue>> {
    if !Admitted(c, r) || Exhausted(c, active, r.repo) || !r.activated then active
    else active[r.repo := ActiveIn(active, r.repo) + {r.issue}]
  }

  function Answered(c: Context, active: map<Repo, set<Issue>>, r: Request): Result {
    if !Admitted(c, r) || Exhausted(c, active, r.repo) || !r.activated || !r.confirmed then HumanRequired
        else Dispatched
  }

  /** After any sequence of dispatches, which is any interleaving of the threads. */
  function AfterAll(c: Context, requests: seq<Request>): map<Repo, set<Issue>> {
    if requests == [] then map[]
        else AfterDispatch(c, AfterAll(c, requests[..|requests| - 1]), requests[|requests| - 1])
  }

  predicate WithinOrUntouched(c: Context, active: map<Repo, set<Issue>>, repo: Repo) {
    repo in c.limits ==> |Total(c, active, repo)| <= c.limits[repo] || ActiveIn(active, repo) == {}
  }

  lemma AddOne(s: set<Issue>, x: Issue)
    ensures |s + {x}| <= |s| + 1
  {
    if x in s {
      assert s + {x} == s;
    }
  }

  lemma DispatchKeepsWip(c: Context, active: map<Repo, set<Issue>>, r: Request, repo: Repo)
    requires WithinOrUntouched(c, active, repo)
    ensures WithinOrUntouched(c, AfterDispatch(c, active, r), repo)
  {
    var after := AfterDispatch(c, active, r);
    if repo == r.repo && after != active {
      AddOne(Total(c, active, repo), r.issue);
      assert Total(c, after, repo) == Total(c, active, repo) + {r.issue};
    } else {
      assert ActiveIn(after, repo) == ActiveIn(active, repo);
    }
  }

  lemma {:induction false} DispatchesKeepWip(c: Context, requests: seq<Request>, repo: Repo)
    ensures WithinOrUntouched(c, AfterAll(c, requests), repo)
  {
    if requests != [] {
      DispatchesKeepWip(c, requests[..|requests| - 1], repo);
      DispatchKeepsWip(c, AfterAll(c, requests[..|requests| - 1]), requests[|requests| - 1], repo);
    }
  }

  lemma TotalIsLarger(c: Context, active: map<Repo, set<Issue>>, repo: Repo)
    ensures |Preexisting(c, repo)| <= |Total(c, active, repo)|
    ensures ActiveIn(active, repo) == {} ==> Total(c, active, repo) == Preexisting(c, repo)
  {
    var a, b := Preexisting(c, repo), ActiveIn(active, repo);
    assert Total(c, active, repo) == a + (b - a);
    assert |a + (b - a)| == |a| + |b - a|;
  }

  // ---- What the adapter activated --------------------------------------------------------------

  /** The request passed every check before the lock, met a total below the limit, and the adapter
      activated its issue. */
  predicate Activates(c: Context, active: map<Repo, set<Issue>>, r: Request) {
    && r.effect == c.effect && r.admitted && r.activated
    && r.repo in c.limits && |Total(c, active, r.repo)| < c.limits[r.repo]
  }

  /** At the k-th request the adapter activated the issue. */
  predicate ActivatedAt(c: Context, requests: seq<Request>, k: nat, repo: Repo, issue: Issue)
    requires k < |requests|
  {
    requests[k].repo == repo && requests[k].issue == issue && Activates(c, AfterAll(c, requests[..k]), requests[k])
  }

  /** Every issue of the repository that the adapter has activated, confirmed or not. */
  function Activated(c: Context, requests: seq<Request>, repo: Repo): set<Issue> {
    if requests == [] then {}
    else
      var past, r := requests[..|requests| - 1], requests[|requests| - 1];
      Activated(c, past, repo) + if r.repo == repo && Activates(c, AfterAll(c, past), r) then {r.issue} else {}
  }

  /** What the port records is what the adapter has activated. */
  lemma {:induction false} RecordsActivations(c: Context, requests: seq<Request>, repo: Repo)
    ensures ActiveIn(AfterAll(c, requests), repo) == Activated(c, requests, repo)
  {
    if requests != [] {
      RecordsActivations(c, requests[..|requests| - 1], repo);
    }
  }

  /** After any sequence of requests an issue is recorded as activated exactly if at some request the
      adapter activated it. */
  lemma {:induction false} RecordedExactly(c: Context, requests: seq<Request>, repo: Repo, issue: Issue)
    ensures issue in ActiveIn(AfterAll(c, requests), repo)
      <==> exists k: nat :: k < |requests| && ActivatedAt(c, requests, k, repo, issue)
  {
    if requests != [] {
      var past := requests[..|requests| - 1];
      RecordedExactly(c, past, repo, issue);
      forall k: nat | k < |past|
        ensures ActivatedAt(c, requests, k, repo, issue) <==> ActivatedAt(c, past, k, repo, issue)
      {
        assert past[..k] == requests[..k];
      }
      assert issue in ActiveIn(AfterAll(c, requests), repo)
        <==> issue in ActiveIn(AfterAll(c, past), repo) || ActivatedAt(c, requests, |past|, repo, issue);
      if k: nat :| k < |past| && ActivatedAt(c, past, k, repo, issue) {
        assert ActivatedAt(c, requests, k, repo, issue);
      }
    }
  }

  lemma {:induction false} RecordedStays(c: Context, requests: seq<Request>, n: nat, repo: Repo)
    requires n <= |requests|
    ensures ActiveIn(AfterAll(c, requests[..n]), repo) <= ActiveIn(AfterAll(c, requests), repo)
    decreases |requests|
  {
    if n < |requests| {
      var init := requests[..|requests| - 1];
      assert init[..n] == requests[..n];
      RecordedStays(c, init, n, repo);
    } else {
      assert requests[..n] == requests;
    }
  }

  /** An issue answered DISPATCHED is recorded as activated from then on. */
  lemma DispatchedIsRecorded(c: Context, requests: seq<Request>, k: nat, n: nat)
    requires k < n <= |requests|
    requires Answered(c, AfterAll(c, requests[..k]), requests[k]) == Dispatched
    ensures requests[k].issue in ActiveIn(AfterAll(c, requests[..n]), requests[k].repo)
  {
    var repo := requests[k].repo;
    assert requests[..k + 1][..k] == requests[..k];
    assert requests[k].issue in ActiveIn(AfterAll(c, requests[..k + 1]), repo);
    assert requests[..n][..k + 1] == requests[..k + 1];
    RecordedStays(c, requests[..n], k + 1, repo);
  }

  /** However the threads interleave, a repository's preexisting issues and all that the adapter has
      activated stay within its limit, exactly unless it was over the limit before; then nothing is
      activated. */
  lemma WipHolds(c: Context, repo: Repo)
    requires repo in c.limits
    ensures (forall requests :: |Preexisting(c, repo) + Activated(c, requests, repo)| <= c.limits[repo])
      <==> |Preexisting(c, repo)| <= c.limits[repo]
    ensures |Preexisting(c, repo)| > c.limits[repo] ==> forall requests :: Activated(c, requests, repo) == {}
  {
    forall requests
      ensures |Preexisting(c, repo)| <= c.limits[repo] ==>
                |Preexisting(c, repo) + Activated(c, requests, repo)| <= c.limits[repo]
      ensures |Preexisting(c, repo)| > c.limits[repo] ==> Activated(c, requests, repo) == {}
    {
      DispatchesKeepWip(c, requests, repo);
      TotalIsLarger(c, AfterAll(c, requests), repo);
      RecordsActivations(c, requests, repo);
    }
    assert Preexisting(c, repo) + Activated(c, [], repo) == Preexisting(c, repo);
  }

  lemma OneMore(c: Context, requests: seq<Request>, r: Request)
    ensures AfterAll(c, requests + [r]) == AfterDispatch(c, AfterAll(c, requests), r)
  {
    assert (requests + [r])[..|requests|] == requests;
  }

  /** The port object: its context is fixed by the first dispatch, its activated sets only grow. */
  class ConcurrencyWorkPacketHandoffPort {
    var context: Option<Context>
    var activated: map<Repo, set<Issue>>
    ghost var requests: seq<Request>

    ghost predicate Valid()
      reads this
    {
      if context.None? then requests == [] && activated == map[] else activated == AfterAll(context.value, requests)
    }

    constructor ()
      ensures Valid() && context.None?
    {
      context, activated, requests := None, map[], [];
    }

    /** `current` is the context that the current authorization would give. */
    method Dispatch(r: Request, current: Option<Context>) returns (result: Result)
      requires Valid()
      modifies this
      ensures Valid()
      ensures context == if old(context).Some? then old(context) else current
      ensures context.None? ==> result == HumanRequired && activated == old(activated)
      ensures context.Some? ==> requests == old(requests) + [r]
      ensures result == Dispatched <==>
              context.Some? && Activates(context.value, old(activated), r) && r.confirmed
      ensures context.Some? ==> forall repo :: ActiveIn(activated, repo) == Activated(context.value, requests, repo)
      ensures result == Dispatched ==> r.issue in ActiveIn(activated, r.repo)
    {
      if context.None? {
        context := current;
      }
      if context.None? {
        return HumanRequired;
      }
      var c := context.value;
      OneMore(c, requests, r);
      forall repo ensures ActiveIn(AfterAll(c, requests + [r]), repo) == Activated(c, requests + [r], repo) {
        RecordsActivations(c, requests + [r], repo);
      }
      requests := requests + [r];
      if r.effect != c.effect || !r.admitted || r.repo !in c.limits {
        return HumanRequired;
      }
      if |Total(c, activated, r.repo)| >= c.limits[r.repo] || !r.activated {
        return HumanRequired;
      }
      activated := activated[r.repo := ActiveIn(activated, r.repo) + {r.issue}];
      result := if r.confirmed then Dispatched else HumanRequired;
    }
  }
}
