/**
 * The per-target limit on inbound messages.
 *
 * `rateLimitDelay` is asked before a send spends anything and `noteInbound` is told
 * only after the send has been enqueued and committed, so several sends to one target can
 * be admitted before any of them is noted.
 */
module RateLimit {
  import opened Common

  type Time = int
  const WINDOW := 60000

  /** `inboundPerMinute`, a positive integer by its schema. */
  type Rate = n: nat | n >= 1 witness 1

  predicate Fresh(now: Time, at: Time) { now - at < WINDOW }

  /** What is left of the remembered times at `now`. */
  function Prune(times: seq<Time>, now: Time): seq<Time> {
    Filter(times, (at: Time) => Fresh(now, at))
  }

  function Delay(times: seq<Time>, perMinute: Rate, now: Time): int {
    var recent := Prune(times, now);
    if |recent| < perMinute then 0
    else Max(1000, WINDOW - (now - recent[0]))
  }

  /**
   * One target: the remembered times; the admitted sends still under way, and which of them are in its queue by now;
   * and when every noted send was noted and every delivered one enqueued.
   */
  datatype Target = Target(times: seq<Time>, open: set<nat>, sent: set<nat>, noted: seq<Time>, delivered: seq<Time>,
      clock: Time)

  datatype Event = Ask(id: nat, now: Time) | Enqueue(id: nat, now: Time) | Note(id: nat, now: Time)
      | Fail(id: nat, now: Time)

  /** At most `overlap` sends are under way at once, and the clock never goes back. */
  function Next(t: Target, e: Event, perMinute: Rate, overlap: nat): Target {
    if e.now < t.clock then t
    else
      var u := t.(clock := e.now);
      match e
      case Ask(id, now) =>
        if |t.open| >= overlap || id in t.open then u
        else u.(times := Prune(t.times, now), open := if Delay(t.times, perMinute, now) == 0 then t.open + {id}
            else t.open)
      case Enqueue(id, now) =>
        if id !in t.open || id in t.sent then u
        else u.(sent := t.sent + {id}, delivered := t.delivered + [now])
      case Note(id, now) =>
        if id !in t.open || id !in t.sent then u
        else u.(times := Prune(t.times, now) + [now], open := t.open - {id}, sent := t.sent - {id},
                noted := t.noted + [now])
      case Fail(id, now) => if id in t.sent then u else u.(open := t.open - {id})
  }

  function Run(t: Target, events: seq<Event>, perMinute: Rate, overlap: nat): Target
    decreases |events|
  {
    if events == [] then t
        else Next(Run(t, events[..|events| - 1], perMinute, overlap), events[|events| - 1], perMinute, overlap)
  }

  // ------------------------------------------------------------------ pruning forgets nothing that matters

  lemma {:induction false} PruneTwice(times: seq<Time>, a: Time, b: Time)
    requires a <= b
    ensures Prune(Prune(times, a), b) == Prune(times, b)
  {
    if times != [] {
      PruneTwice(times[1..], a, b);
      if Fresh(a, times[0]) {
        assert ([times[0]] + Prune(times[1..], a))[1..] == Prune(times[1..], a);
      }
    }
  }

  lemma {:induction false} FilterShorter(s: seq<Time>, p: Time -> bool, q: Time -> bool)
    requires forall x :: p(x) ==> q(x)
    ensures |Filter(s, p)| <= |Filter(s, q)|
  {
    if s != [] { FilterShorter(s[1..], p, q); }
  }

  ghost predicate Sorted(s: seq<Time>) { forall i, j :: 0 <= i < j < |s| ==> s[i] <= s[j] }

  /** Deliveries in the 60 seconds up to and including `end`. */
  function InWindow(delivered: seq<Time>, end: Time): nat {
    |Filter(delivered, (at: Time) => end - WINDOW < at <= end)|
  }

  /** Times in order, none later than the clock, and no window up to one of them too full. */
  ghost predicate History(times: seq<Time>, clock: Time, bound: int) {
    && Sorted(times) && (forall at :: at in times ==> at <= clock)
    && forall j :: 0 <= j < |times| ==> |Prune(times[..j + 1], times[j])| <= bound
  }

  /**
   * The remembered times are the noted ones, as far as any later look goes; and of the enqueued ones a later look
   * would find no more than of the noted ones, but for those that are still to be noted.
   */
  ghost predicate Inv(t: Target, perMinute: Rate, overlap: nat) {
    && History(t.noted, t.clock, perMinute + overlap - 1)
    && (forall now :: now >= t.clock ==> Prune(t.times, now) == Prune(t.noted, now))
    && |Prune(t.noted, t.clock)| + |t.open| <= perMinute + overlap - 1
    && t.sent <= t.open && History(t.delivered, t.clock, perMinute + overlap - 1)
    && (forall now :: now >= t.clock ==> |Prune(t.delivered, now)| <= |Prune(t.noted, now)| + |t.sent|)
  }

  lemma {:induction false} TickKeeps(t: Target, now: Time, perMinute: Rate, overlap: nat)
    requires Inv(t, perMinute, overlap) && now >= t.clock
    ensures Inv(t.(clock := now), perMinute, overlap)
  {
    FilterShorter(t.noted, (at: Time) => Fresh(now, at), (at: Time) => Fresh(t.clock, at));
  }

  lemma {:induction false} PruneAppend(s: seq<Time>, at: Time, now: Time)
    ensures Prune(s + [at], now) == Prune(s, now) + if Fresh(now, at) then [at] else []
  {
    FilterConcat(s, [at], (x: Time) => Fresh(now, x));
  }

  /** Another time at the end of a history. */
  lemma {:induction false} HistorySnoc(times: seq<Time>, now: Time, bound: int)
    requires History(times, now, bound) && |Prune(times, now)| < bound
    ensures History(times + [now], now, bound)
  {
    var d := times + [now];
    forall i | 0 <= i < |times| ensures times[i] <= now { assert times[i] in times; }
    forall j | 0 <= j < |d| ensures |Prune(d[..j + 1], d[j])| <= bound {
      if j < |times| {
        assert d[..j + 1] == times[..j + 1];
      } else {
        assert d[..j + 1] == d;
        PruneAppend(times, now, now);
      }
    }
  }

  /** What is noted is remembered by every later look, and enqueued before that. */
  lemma {:induction false} NotedLater(t: Target, now: Time, b: Time)
    requires b >= now && Prune(t.times, b) == Prune(t.noted, b) && forall at :: at in t.delivered ==> at <= now
    requires |Prune(t.delivered, b)| <= |Prune(t.noted, b)| + |t.sent| && |t.sent| >= 1
    ensures Prune(Prune(t.times, now) + [now], b) == Prune(t.noted + [now], b)
    ensures |Prune(t.delivered, b)| <= |Prune(t.noted + [now], b)| + |t.sent| - 1
  {
    PruneAppend(Prune(t.times, now), now, b);
    PruneAppend(t.noted, now, b);
    PruneTwice(t.times, now, b);
    if !Fresh(b, now) { FilterNone(t.delivered, (at: Time) => Fresh(b, at)); }
  }

  lemma {:induction false} NoteKeeps(t: Target, id: nat, now: Time, perMinute: Rate, overlap: nat)
    requires Inv(t, perMinute, overlap) && t.clock == now && id in t.open && id in t.sent
    ensures Inv(Next(t, Note(id, now), perMinute, overlap), perMinute, overlap)
  {
    var u := Next(t, Note(id, now), perMinute, overlap);
    assert |u.open| == |t.open| - 1 && |u.sent| == |t.sent| - 1;
    HistorySnoc(t.noted, now, perMinute + overlap - 1);
    PruneAppend(t.noted, now, now);
    forall b | b >= now
      ensures Prune(u.times, b) == Prune(u.noted, b) && |Prune(u.delivered, b)| <= |Prune(u.noted, b)| + |u.sent|
    {
      NotedLater(t, now, b);
    }
  }

  lemma SmallerSet(a: set<nat>, b: set<nat>, x: nat)
    requires a <= b && x in b && x !in a
    ensures |a| < |b|
  {
    assert a + (b - a) == b && x in b - a;
    assert |b| == |a| + |b - a|;
  }

  lemma {:induction false} EnqueueKeeps(t: Target, id: nat, now: Time, perMinute: Rate, overlap: nat)
    requires Inv(t, perMinute, overlap) && t.clock == now && id in t.open && id !in t.sent
    ensures Inv(Next(t, Enqueue(id, now), perMinute, overlap), perMinute, overlap)
  {
    var u := Next(t, Enqueue(id, now), perMinute, overlap);
    SmallerSet(t.sent, t.open, id);
    HistorySnoc(t.delivered, now, perMinute + overlap - 1);
    forall b | b >= now ensures |Prune(u.delivered, b)| <= |Prune(u.noted, b)| + |u.sent| {
      PruneAppend(t.delivered, now, b);
    }
  }

  lemma {:induction false} AskKeeps(t: Target, id: nat, now: Time, perMinute: Rate, overlap: nat)
    requires Inv(t, perMinute, overlap) && t.clock == now
    ensures Inv(Next(t, Ask(id, now), perMinute, overlap), perMinute, overlap)
  {
    forall b | b >= now ensures Prune(Prune(t.times, now), b) == Prune(t.noted, b) {
      PruneTwice(t.times, now, b);
    }
  }

  lemma {:induction false} NextKeeps(t: Target, e: Event, perMinute: Rate, overlap: nat)
    requires Inv(t, perMinute, overlap)
    ensures Inv(Next(t, e, perMinute, overlap), perMinute, overlap)
  {
    if e.now >= t.clock {
      var u := t.(clock := e.now);
      TickKeeps(t, e.now, perMinute, overlap);
      match e
      case Ask(id, now) => AskKeeps(u, id, now, perMinute, overlap);
      case Enqueue(id, now) => if id in t.open && id !in t.sent { EnqueueKeeps(u, id, now, perMinute, overlap); }
      case Note(id, now) => if id in t.open && id in t.sent { NoteKeeps(u, id, now, perMinute, overlap); }
      case Fail(id, now) =>
        if id !in t.open { assert t.open - {id} == t.open; }
    }
  }

  ghost predicate Initial(t: Target) {
    t.times == [] && t.open == {} && t.sent == {} && t.noted == [] && t.delivered == []
  }

  lemma {:induction false} RunKeeps(t: Target, events: seq<Event>, perMinute: Rate, overlap: nat)
    requires Initial(t)
    ensures Inv(Run(t, events, perMinute, overlap), perMinute, overlap)
    decreases |events|
  {
    if events != [] {
      RunKeeps(t, events[..|events| - 1], perMinute, overlap);
      NextKeeps(Run(t, events[..|events| - 1], perMinute, overlap), events[|events| - 1], perMinute, overlap);
    }
  }

  // ------------------------------------------------------------------ results

  lemma {:induction false} LastUpTo(s: seq<Time>, end: Time) returns (n: nat)
    requires Sorted(s)
    ensures n <= |s|
    ensures forall i :: 0 <= i < n ==> s[i] <= end
    ensures forall i :: n <= i < |s| ==> s[i] > end
  {
    n := |s|;
    while n > 0 && s[n - 1] > end
      invariant 0 <= n <= |s|
      invariant forall i :: n <= i < |s| ==> s[i] > end
    {
      n := n - 1;
    }
    if n > 0 {
      assert forall i :: 0 <= i < n ==> s[i] <= s[n - 1];
    }
  }

  /**
   * Over an unbounded run, despite pruning, and although a delivery is noted only later, every 60-second window of
   * a target holds at most `perMinute` deliveries plus one for each further send that may overlap.
   */
  lemma {:induction false} SlidingWindow(t: Target, events: seq<Event>, perMinute: Rate, overlap: nat, end: Time)
    requires Initial(t)
    ensures InWindow(Run(t, events, perMinute, overlap).delivered, end) <= perMinute + overlap - 1
    ensures InWindow(Run(t, events, perMinute, overlap).noted, end) <= perMinute + overlap - 1
  {
    RunKeeps(t, events, perMinute, overlap);
    WindowOf(Run(t, events, perMinute, overlap).delivered, perMinute + overlap - 1, end);
    WindowOf(Run(t, events, perMinute, overlap).noted, perMinute + overlap - 1, end);
  }

  /** Any window is no fuller than the one that ends at its last delivery. */
  lemma {:induction false} WindowOf(d: seq<Time>, bound: int, end: Time)
    requires Sorted(d) && bound >= 0
    requires forall j :: 0 <= j < |d| ==> |Prune(d[..j + 1], d[j])| <= bound
    ensures InWindow(d, end) <= bound
  {
    var n := LastUpTo(d, end);
    var inside := (at: Time) => end - WINDOW < at <= end;
    assert d == d[..n] + d[n..];
    FilterConcat(d[..n], d[n..], inside);
    FilterNone(d[n..], inside);
    if n == 0 {
      assert d[..n] == [];
    } else {
      FilterShorter(d[..n], inside, (at: Time) => Fresh(d[n - 1], at));
      assert d[..(n - 1) + 1] == d[..n];
    }
  }
}
