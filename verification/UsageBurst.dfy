/** The burst-window scan of `summarize_usage`: a two-pointer loop over usage events
    sorted by time, proved equal to summing every window from scratch. */
module UsageBurst {
  import opened Common

  const BURST_WINDOW: int := 600_000_000   // 600 seconds, in microseconds
  const HEAVY_EVENT_TOKENS: int := 5_000_000

  /** One usage event; normalised UTC timestamps sort like the instants they denote. */
  datatype Event = Event(time: int, tokens: nat)

  /** The `max_burst` record: indices of the first and last event, event count and total. */
  datatype Burst = Burst(start: nat, end: nat, eventCount: nat, totalTokens: int)

  ghost predicate Ordered(events: seq<Event>) {
    forall i, j | 0 <= i < j < |events| :: events[i].time <= events[j].time
  }

  /** Tokens of all the events whose time lies in [from, from + BURST_WINDOW). */
  ghost function WindowTokens(events: seq<Event>, from: int): nat {
    if events == [] then 0
    else (if from <= events[0].time < from + BURST_WINDOW then events[0].tokens else 0)
         + WindowTokens(events[1..], from)
  }

  /** The window that event `left` opens: that event and the later ones, filtered by time. */
  ghost function OpenedBy(events: seq<Event>, left: nat): nat
    requires left < |events|
  {
    WindowTokens(events[left..], events[left].time)
  }

  ghost function HeavyWindows(events: seq<Event>, upTo: nat): nat
    requires upTo <= |events|
  {
    if upTo == 0 then 0
    else HeavyWindows(events, upTo - 1) + if OpenedBy(events, upTo - 1) >= HEAVY_EVENT_TOKENS then 1 else 0
  }

  /** `burst` describes the earliest of the windows opened before `upTo` that is largest. */
  ghost predicate EarliestMaximum(events: seq<Event>, upTo: nat, burst: Burst)
    requires upTo <= |events|
  {
    && burst.start < upTo
    && burst.totalTokens == OpenedBy(events, burst.start)
    && (forall left | 0 <= left < burst.start :: OpenedBy(events, left) < burst.totalTokens)
    && (forall left | burst.start <= left < upTo :: OpenedBy(events, left) <= burst.totalTokens)
    && burst.start <= burst.end < |events|
    && burst.eventCount == burst.end - burst.start + 1
    && (forall k | burst.start <= k < |events| ::
          events[k].time < events[burst.start].time + BURST_WINDOW <==> k <= burst.end)
  }

  ghost function Sum(events: seq<Event>): nat {
    if events == [] then 0 else events[0].tokens + Sum(events[1..])
  }

  lemma {:induction false} SumSnoc(events: seq<Event>, e: Event)
    ensures Sum(events + [e]) == Sum(events) + e.tokens
  {
    if events == [] {
      assert events + [e] == [e];
    } else {
      SumSnoc(events[1..], e);
      assert (events + [e])[1..] == events[1..] + [e];
    }
  }

  /** A window over sorted events is a contiguous run of them. */
  lemma {:induction false} WindowIsRun(events: seq<Event>, from: int, right: nat)
    requires Ordered(events) && right <= |events|
    requires forall k | 0 <= k < |events| :: from <= events[k].time
    requires forall k | 0 <= k < |events| :: events[k].time < from + BURST_WINDOW <==> k < right
    ensures WindowTokens(events, from) == Sum(events[..right])
  {
    if events != [] {
      var rest := if right == 0 then 0 else right - 1;
      assert forall k | 0 <= k < |events[1..]| :: events[1..][k] == events[k + 1];
      WindowIsRun(events[1..], from, rest);
      if right != 0 {
        assert events[..right][1..] == events[1..][..rest];
      }
    }
  }

  /** The running total between the two pointers is the total of the window `left` opens. */
  lemma RunningIsWindow(events: seq<Event>, left: nat, right: nat)
    requires Ordered(events) && left < right <= |events|
    requires events[right - 1].time < events[left].time + BURST_WINDOW
    requires right < |events| ==> events[right].time >= events[left].time + BURST_WINDOW
    ensures Sum(events[left..right]) == OpenedBy(events, left)
    ensures forall k | left <= k < |events| :: events[k].time < events[left].time + BURST_WINDOW <==> k < right
  {
    assert forall k | left <= k < |events| :: events[left..][k - left] == events[k];
    assert forall k | 0 <= k < |events[left..]| :: events[left..][k] == events[left + k];
    WindowIsRun(events[left..], events[left].time, right - left);
    assert events[left..][..right - left] == events[left..right];
  }

  ghost predicate BestSoFar(events: seq<Event>, upTo: nat, best: Option<Burst>)
    requires upTo <= |events|
  {
    match best
    case None => upTo == 0
    case Some(burst) => EarliestMaximum(events, upTo, burst)
  }

  function Better(best: Option<Burst>, running: int, left: nat, right: nat): Option<Burst>
    requires left < right
  {
    if best.None? || running > best.value.totalTokens
    then Some(Burst(left, right - 1, right - left, running)) else best
  }

  lemma LeftWindowEnds(events: seq<Event>, left: nat, right: nat)
    requires Ordered(events) && left < right <= |events|
    requires events[right - 1].time < events[left].time + BURST_WINDOW
    requires right < |events| ==> events[right].time >= events[left].time + BURST_WINDOW
    ensures forall k | left <= k < |events| :: events[k].time < events[left].time + BURST_WINDOW <==> k <= right - 1
  {
  }

  lemma KeepBest(events: seq<Event>, left: nat, burst: Burst)
    requires left < |events| && EarliestMaximum(events, left, burst) && OpenedBy(events, left) <= burst.totalTokens
    ensures EarliestMaximum(events, left + 1, burst)
  {
  }

  lemma NewBest(events: seq<Event>, left: nat, right: nat, best: Option<Burst>, running: int)
    requires left < right <= |events| && BestSoFar(events, left, best) && running == OpenedBy(events, left)
    requires best.None? || running > best.value.totalTokens
    requires forall k | left <= k < |events| :: events[k].time < events[left].time + BURST_WINDOW <==> k <= right - 1
    ensures EarliestMaximum(events, left + 1, Burst(left, right - 1, right - left, running))
  {
  }

  lemma ConsiderWindow(events: seq<Event>, left: nat, right: nat, best: Option<Burst>, running: int)
    requires Ordered(events) && left < right <= |events|
    requires events[right - 1].time < events[left].time + BURST_WINDOW
    requires right < |events| ==> events[right].time >= events[left].time + BURST_WINDOW
    requires running == OpenedBy(events, left)
    requires BestSoFar(events, left, best)
    ensures BestSoFar(events, left + 1, Better(best, running, left, right))
  {
    if best.None? || running > best.value.totalTokens {
      LeftWindowEnds(events, left, right);
      NewBest(events, left, right, best, running);
    } else {
      KeepBest(events, left, best.value);
    }
  }

  lemma DropLeft(events: seq<Event>, left: nat, right: nat)
    requires left < right <= |events|
    ensures Sum(events[left..right]) == events[left].tokens + Sum(events[left + 1..right])
  {
    assert events[left..right][1..] == events[left + 1..right];
  }

  /** The scan, step by step as the source runs it. */
  method ScanBursts(events: seq<Event>) returns (maxBurst: Option<Burst>, heavyWindows: nat)
    requires Ordered(events)
    ensures heavyWindows == HeavyWindows(events, |events|)
    ensures BestSoFar(events, |events|, maxBurst)
  {
    maxBurst, heavyWindows := None, 0;
    var right, running := 0, 0;
    for left := 0 to |events|
      invariant left <= right <= |events|
      invariant running == Sum(events[left..right])
      invariant left < right ==> events[right - 1].time < events[left].time + BURST_WINDOW
      invariant heavyWindows == HeavyWindows(events, left)
      invariant BestSoFar(events, left, maxBurst)
    {
      var limit := events[left].time + BURST_WINDOW;
      right, running := AdvanceRight(events, left, right, running, limit);
      RunningIsWindow(events, left, right);
      if running >= HEAVY_EVENT_TOKENS {
        heavyWindows := heavyWindows + 1;
      }
      ConsiderWindow(events, left, right, maxBurst, running);
      maxBurst := Better(maxBurst, running, left, right);
      DropLeft(events, left, right);
      running := running - events[left].tokens;
    }
  }

  /** The inner loop: take in every event before the limit. */
  method AdvanceRight(events: seq<Event>, left: nat, from: nat, total: int, limit: int)
      returns (right: nat, running: int)
    requires Ordered(events) && left <= from <= |events| && left < |events|
    requires limit == events[left].time + BURST_WINDOW
    requires total == Sum(events[left..from])
    requires left < from ==> events[from - 1].time < limit
    ensures left < right <= |events| && running == Sum(events[left..right])
    ensures events[right - 1].time < limit
    ensures right < |events| ==> events[right].time >= limit
  {
    right, running := from, total;
    while right < |events| && events[right].time < limit
      invariant left <= right <= |events|
      invariant running == Sum(events[left..right])
      invariant left < right ==> events[right - 1].time < limit
    {
      SumSnoc(events[left..right], events[right]);
      assert events[left..right] + [events[right]] == events[left..right + 1];
      running := running + events[right].tokens;
      right := right + 1;
    }
  }

  lemma {:induction false} WindowMonotone(events: seq<Event>, from: int, to: int)
    requires from <= to
    requires forall k | 0 <= k < |events| :: to <= events[k].time
    ensures WindowTokens(events, from) <= WindowTokens(events, to)
  {
    if events != [] {
      assert forall k | 0 <= k < |events[1..]| :: events[1..][k] == events[k + 1];
      WindowMonotone(events[1..], from, to);
    }
  }

  lemma {:induction false} SkipEarlier(events: seq<Event>, from: int, n: nat)
    requires n <= |events|
    requires forall k | 0 <= k < n :: events[k].time < from
    ensures WindowTokens(events, from) == WindowTokens(events[n..], from)
  {
    if n == 0 {
      assert events[0..] == events;
    } else {
      SkipEarlier(events[1..], from, n - 1);
      assert events[1..][n - 1..] == events[n..];
    }
  }

  lemma {:induction false} EmptyWindow(events: seq<Event>, from: int)
    requires forall k | 0 <= k < |events| :: events[k].time < from
    ensures WindowTokens(events, from) == 0
  {
    SkipEarlier(events, from, |events|);
  }

  /** Wherever a window starts, it holds no more tokens than the window some event opens. */
  lemma AnyWindowIsCovered(events: seq<Event>, from: int) returns (left: nat)
    requires Ordered(events) && events != []
    ensures left < |events| && WindowTokens(events, from) <= OpenedBy(events, left)
  {
    left := 0;
    while left < |events| && events[left].time < from
      invariant left <= |events|
      invariant forall k | 0 <= k < left :: events[k].time < from
    {
      left := left + 1;
    }
    if left == |events| {
      EmptyWindow(events, from);
      left := 0;
    } else {
      SkipEarlier(events, from, left);
      WindowMonotone(events[left..], from, events[left].time);
    }
  }

  /** The reported maximum bounds every 600-second window, including those no event starts. */
  lemma BurstBoundsEveryWindow(events: seq<Event>, burst: Burst, from: int)
    requires Ordered(events) && EarliestMaximum(events, |events|, burst)
    ensures WindowTokens(events, from) <= burst.totalTokens
  {
    var left := AnyWindowIsCovered(events, from);
  }

  /** The scan's answer is determined: two such bursts are the same burst. */
  lemma BurstIsUnique(events: seq<Event>, b1: Burst, b2: Burst)
    requires Ordered(events)
    requires EarliestMaximum(events, |events|, b1) && EarliestMaximum(events, |events|, b2)
    ensures b1 == b2
  {
    assert b1.start == b2.start;
    assert events[b2.end].time < events[b1.start].time + BURST_WINDOW;
    assert events[b1.end].time < events[b2.start].time + BURST_WINDOW;
  }
}
