/**
 * Whether the limit is really the limit, and whether the delay is long enough: both exactly when no
 * two sends to the target overlap.
 */
module RateLimitBounds {
  import opened Common
  import opened RateLimit

  // ------------------------------------------------------------------ the bound is met

  const EMPTY := Target([], {}, {}, [], [], 0)

  function Same(n: nat, at: Time): seq<Time> { seq(n, i requires 0 <= i < n => at) }

  lemma SameSnoc(n: nat, at: Time)
    ensures Same(n, at) + [at] == Same(n + 1, at)
  {
  }

  function Ids(from: nat, to: nat): (r: set<nat>)
    ensures |r| == (if from <= to then to - from else 0) && forall x :: x in r <==> from <= x < to
  {
    if from < to then Ids(from, to - 1) + {to - 1} else {}
  }

  /** Some run from the beginning leads to `u`. */
  ghost predicate Reachable(u: Target, perMinute: Rate, overlap: nat) {
    exists events :: Run(EMPTY, events, perMinute, overlap) == u
  }

  lemma {:induction false} ReachEmpty(perMinute: Rate, overlap: nat)
    ensures Reachable(EMPTY, perMinute, overlap)
  {
    assert Run(EMPTY, [], perMinute, overlap) == EMPTY;
  }

  /** A set of targets that no event leaves; what can be reached is the least one. */
  ghost predicate Kept(reach: Target -> bool, perMinute: Rate, overlap: nat) {
    forall u, e :: reach(u) ==> reach(Next(u, e, perMinute, overlap))
  }

  lemma {:induction false} ReachableIsKept(perMinute: Rate, overlap: nat)
    ensures Kept(u => Reachable(u, perMinute, overlap), perMinute, overlap)
  {
    forall u, e | Reachable(u, perMinute, overlap)
      ensures Reachable(Next(u, e, perMinute, overlap), perMinute, overlap)
    {
      var events :| Run(EMPTY, events, perMinute, overlap) == u;
      assert (events + [e])[..|events|] == events;
      assert Run(EMPTY, events + [e], perMinute, overlap) == Next(u, e, perMinute, overlap);
    }
  }

  lemma {:induction false} AllFresh(times: seq<Time>, now: Time)
    requires forall at :: at in times ==> Fresh(now, at)
    ensures Prune(times, now) == times
  {
    FilterEvery(times, (at: Time) => Fresh(now, at));
  }

  /** A send enqueued and noted at one time. */
  function Send(u: Target, id: nat, at: Time, perMinute: Rate, overlap: nat): Target {
    Next(Next(u, Enqueue(id, at), perMinute, overlap), Note(id, at), perMinute, overlap)
  }

  /** One more in all three. */
  function Later(u: Target, at: Time): Target {
    u.(times := u.times + [at], noted := u.noted + [at], delivered := u.delivered + [at], clock := at)
  }

  lemma {:induction false} AskAndSend(u: Target, at: Time, perMinute: Rate, overlap: nat)
    requires u.clock <= at && 0 !in u.open && 0 !in u.sent && |u.open| < overlap && |u.times| < perMinute
        && Prune(u.times, at) == u.times
    ensures Send(Next(u, Ask(0, at), perMinute, overlap), 0, at, perMinute, overlap) == Later(u, at)
  {
    assert u.open + {0} - {0} == u.open && u.sent + {0} - {0} == u.sent;
  }

  /** The target after `n` deliveries at `at`. */
  function Filled(t: Target, n: nat, at: Time): Target {
    t.(times := t.times + Same(n, at), noted := t.noted + Same(n, at), delivered := t.delivered + Same(n, at),
       clock := if n == 0 then t.clock else at)
  }

  lemma FilledSnoc(t: Target, n: nat, at: Time)
    ensures Later(Filled(t, n, at), at) == Filled(t, n + 1, at)
  {
    SameSnoc(n, at);
    Assoc(t.times, Same(n, at), [at]);
    Assoc(t.noted, Same(n, at), [at]);
    Assoc(t.delivered, Same(n, at), [at]);
  }

  lemma {:induction false} FilledIsFresh(t: Target, n: nat, at: Time)
    requires forall x :: x in t.times ==> Fresh(at, x)
    ensures Prune(Filled(t, n, at).times, at) == Filled(t, n, at).times && |Filled(t, n, at).times| == |t.times| + n
  {
    AllFresh(Filled(t, n, at).times, at);
  }

  /** As long as there is room and nothing expires, sends asked and noted one after the other are delivered. */
  lemma {:induction false} ReachFilled(reach: Target -> bool, t: Target, n: nat, at: Time, perMinute: Rate,
      overlap: nat)
    requires Kept(reach, perMinute, overlap) && reach(t)
    requires t.clock <= at && 0 !in t.open && 0 !in t.sent && |t.open| < overlap && |t.times| + n <= perMinute
    requires forall x :: x in t.times ==> Fresh(at, x)
    ensures reach(Filled(t, n, at))
  {
    if n == 0 {
      assert t.times + [] == t.times && t.noted + [] == t.noted && t.delivered + [] == t.delivered;
      assert Filled(t, 0, at) == t;
    } else {
      ReachFilled(reach, t, n - 1, at, perMinute, overlap);
      FilledIsFresh(t, n - 1, at);
      ReachOneMore(reach, Filled(t, n - 1, at), at, perMinute, overlap);
      FilledSnoc(t, n - 1, at);
    }
  }

  lemma {:induction false} ReachOneMore(reach: Target -> bool, u: Target, at: Time, perMinute: Rate, overlap: nat)
    requires Kept(reach, perMinute, overlap) && reach(u)
    requires u.clock <= at && 0 !in u.open && 0 !in u.sent && |u.open| < overlap && |u.times| < perMinute
        && Prune(u.times, at) == u.times
    ensures reach(Later(u, at))
  {
    AskAndSend(u, at, perMinute, overlap);
    ReachSent(reach, Next(u, Ask(0, at), perMinute, overlap), 0, at, perMinute, overlap);
  }

  lemma {:induction false} ReachSent(reach: Target -> bool, u: Target, id: nat, at: Time, perMinute: Rate, overlap: nat)
    requires Kept(reach, perMinute, overlap) && reach(u)
    ensures reach(Send(u, id, at, perMinute, overlap))
  {
    assert reach(Next(u, Enqueue(id, at), perMinute, overlap));
  }

  lemma {:induction false} AskOnly(u: Target, id: nat, perMinute: Rate, overlap: nat)
    requires u.clock == 0 && id !in u.open && |u.open| < overlap && |u.times| < perMinute
        && Prune(u.times, 0) == u.times
    ensures Next(u, Ask(id, 0), perMinute, overlap) == u.(open := u.open + {id})
  {
  }

  /** With room for one more, any number of sends that may overlap are admitted. */
  lemma {:induction false} ReachAsked(reach: Target -> bool, n: nat, times: seq<Time>, perMinute: Rate, overlap: nat)
    requires Kept(reach, perMinute, overlap) && reach(Target(times, {}, {}, times, times, 0))
    requires n <= overlap && |times| < perMinute && Prune(times, 0) == times
    ensures reach(Target(times, Ids(0, n), {}, times, times, 0))
  {
    if n > 0 {
      ReachAsked(reach, n - 1, times, perMinute, overlap);
      var u := Target(times, Ids(0, n - 1), {}, times, times, 0);
      AskOnly(u, n - 1, perMinute, overlap);
      assert reach(Next(u, Ask(n - 1, 0), perMinute, overlap));
    }
  }

  lemma {:induction false} SendOnly(u: Target, id: nat, perMinute: Rate, overlap: nat)
    requires u.clock == 0 && id in u.open && u.sent == {} && Prune(u.times, 0) == u.times
    ensures Send(u, id, 0, perMinute, overlap) == Later(u, 0).(open := u.open - {id})
  {
    assert {} + {id} - {id} == {};
  }

  /** `n` of the sends `0` to `all - 1` delivered, after `room` others. */
  function Crowd(n: nat, all: nat, room: nat): Target {
    var times := Same(room + n, 0);
    Target(times, Ids(n, all), {}, times, times, 0)
  }

  lemma {:induction false} NextOfCrowd(n: nat, all: nat, room: nat, perMinute: Rate, overlap: nat)
    requires n < all
    ensures Send(Crowd(n, all, room), n, 0, perMinute, overlap) == Crowd(n + 1, all, room)
  {
    AllFresh(Crowd(n, all, room).times, 0);
    SendOnly(Crowd(n, all, room), n, perMinute, overlap);
    SameSnoc(room + n, 0);
    assert Ids(n, all) - {n} == Ids(n + 1, all);
  }

  /** ... and all are delivered. */
  lemma {:induction false} ReachDelivered(reach: Target -> bool, n: nat, all: nat, room: nat, perMinute: Rate,
      overlap: nat)
    requires n <= all && Kept(reach, perMinute, overlap) && reach(Crowd(0, all, room))
    ensures reach(Crowd(n, all, room))
  {
    if n > 0 {
      ReachDelivered(reach, n - 1, all, room, perMinute, overlap);
      NextOfCrowd(n - 1, all, room, perMinute, overlap);
      ReachSent(reach, Crowd(n - 1, all, room), n - 1, 0, perMinute, overlap);
    }
  }

  lemma {:induction false} FilledFromEmpty(n: nat)
    ensures Filled(EMPTY, n, 0) == Target(Same(n, 0), {}, {}, Same(n, 0), Same(n, 0), 0)
  {
    assert [] + Same(n, 0) == Same(n, 0);
  }

  lemma {:induction false} ReachCrowd(perMinute: Rate, overlap: nat)
    requires overlap >= 1
    ensures Reachable(Crowd(overlap, overlap, perMinute - 1), perMinute, overlap)
  {
    var room := perMinute - 1;
    var reach := (u: Target) => Reachable(u, perMinute, overlap);
    ReachEmpty(perMinute, overlap);
    ReachableIsKept(perMinute, overlap);
    CrowdIn(reach, perMinute, overlap);
  }

  lemma {:induction false} CrowdIn(reach: Target -> bool, perMinute: Rate, overlap: nat)
    requires overlap >= 1 && Kept(reach, perMinute, overlap) && reach(EMPTY)
    ensures reach(Crowd(overlap, overlap, perMinute - 1))
  {
    var room := perMinute - 1;
    ReachFilled(reach, EMPTY, room, 0, perMinute, overlap);
    FilledFromEmpty(room);
    AllFresh(Same(room, 0), 0);
    ReachAsked(reach, overlap, Same(room, 0), perMinute, overlap);
    assert Crowd(0, overlap, room).times == Same(room, 0);
    ReachDelivered(reach, overlap, overlap, room, perMinute, overlap);
  }

  /** The bound is met for every limit and every overlap: fill up to one below the limit, and ask together. */
  lemma {:induction false} OverlapCounts(perMinute: Rate, overlap: nat)
    requires overlap >= 1
    ensures exists events :: InWindow(Run(EMPTY, events, perMinute, overlap).delivered, 0) == perMinute + overlap - 1
  {
    ReachCrowd(perMinute, overlap);
    var all := Same(perMinute - 1 + overlap, 0);
    var events :| Run(EMPTY, events, perMinute, overlap) == Crowd(overlap, overlap, perMinute - 1);
    FilterEvery(all, (at: Time) => 0 - WINDOW < at <= 0);
  }

  ghost predicate LimitHolds(perMinute: Rate, overlap: nat) {
    forall t, events, end :: Initial(t) ==> InWindow(Run(t, events, perMinute, overlap).delivered, end) <= perMinute
  }

  /** `perMinute` is never exceeded, in any run, if and only if no two sends to the target overlap. */
  lemma {:induction false} OneAtATime(perMinute: Rate, overlap: nat)
    ensures LimitHolds(perMinute, overlap) <==> overlap <= 1
  {
    if overlap <= 1 {
      forall t, events, end | Initial(t)
        ensures InWindow(Run(t, events, perMinute, overlap).delivered, end) <= perMinute
      {
        SlidingWindow(t, events, perMinute, overlap, end);
      }
    } else {
      OverlapCounts(perMinute, overlap);
      assert Initial(EMPTY);
    }
  }

  // ------------------------------------------------------------------ waiting

  lemma {:induction false} PruneSorted(times: seq<Time>, now: Time)
    requires Sorted(times)
    ensures Sorted(Prune(times, now))
  {
    if times != [] {
      assert Sorted(times[1..]);
      PruneSorted(times[1..], now);
      forall x | x in times[1..] ensures times[0] <= x {
        var i :| 0 <= i < |times[1..]| && times[1..][i] == x;
        assert times[i + 1] == x;
      }
      if Fresh(now, times[0]) {
        var rest := Prune(times[1..], now);
        forall j | 0 <= j < |rest| ensures times[0] <= rest[j] { assert rest[j] in times[1..]; }
      }
    }
  }

  /** Of times in order the fresh ones are the last. */
  lemma {:induction false} FreshAreLast(times: seq<Time>, m: nat, now: Time)
    requires Sorted(times) && 1 <= m
    ensures |Prune(times, now)| >= m <==> m <= |times| && Fresh(now, times[|times| - m])
  {
    if times != [] {
      assert Sorted(times[1..]);
      FreshAreLast(times[1..], m, now);
      if m == |times| {
        if Fresh(now, times[0]) { AllFresh(times, now); }
      }
    }
  }

  lemma {:induction false} Again(times: seq<Time>, perMinute: Rate, now: Time, later: Time)
    requires later >= now && Sorted(Prune(times, now)) && |Prune(times, now)| >= perMinute
    ensures var recent := Prune(times, now);
      Delay(times, perMinute, later) == 0 <==> later >= recent[|recent| - perMinute] + WINDOW
  {
    PruneTwice(times, now, later);
    FreshAreLast(Prune(times, now), perMinute, later);
  }

  lemma {:induction false} RecentInOrder(u: Target, perMinute: Rate, overlap: nat, now: Time)
    requires Inv(u, perMinute, overlap) && now >= u.clock
    ensures Sorted(Prune(u.times, now)) && forall at :: at in Prune(u.times, now) ==> at <= now
  {
    PruneSorted(u.noted, now);
  }

  lemma {:induction false} RunInOrder(t: Target, events: seq<Event>, perMinute: Rate, overlap: nat, now: Time)
    requires Initial(t) && now >= Run(t, events, perMinute, overlap).clock
    ensures var recent := Prune(Run(t, events, perMinute, overlap).times, now);
      Sorted(recent) && forall at :: at in recent ==> at <= now
  {
    RunKeeps(t, events, perMinute, overlap);
    RecentInOrder(Run(t, events, perMinute, overlap), perMinute, overlap, now);
  }

  /**
   * A refused sender who asks again later, nothing having been delivered meanwhile, is admitted if and
   * only if the recent time that is `perMinute` from the end has expired by then.
   */
  lemma {:induction false} AskAgain(t: Target, events: seq<Event>, perMinute: Rate, overlap: nat, now: Time,
      later: Time)
    requires Initial(t)
    requires var u := Run(t, events, perMinute, overlap);
      now >= u.clock && later >= now && Delay(u.times, perMinute, now) > 0
    ensures
      var times := Run(t, events, perMinute, overlap).times;
      var recent := Prune(times, now);
      |recent| >= perMinute && (Delay(times, perMinute, later) == 0 <==> later >= recent[|recent| - perMinute] + WINDOW)
  {
    RunInOrder(t, events, perMinute, overlap, now);
    Again(Run(t, events, perMinute, overlap).times, perMinute, now, later);
  }

  /**
   * A sender is refused exactly if the window is full, and is not kept waiting: with just `perMinute` recent times
   * nobody who asks before the told delay is admitted, unless it was rounded up to a second.
   */
  lemma {:induction false} DelayIsNeeded(t: Target, events: seq<Event>, perMinute: Rate, overlap: nat, now: Time,
      later: Time)
    requires Initial(t) && now >= Run(t, events, perMinute, overlap).clock && later >= now
    ensures
      var times := Run(t, events, perMinute, overlap).times;
      && (Delay(times, perMinute, now) == 0 <==> |Prune(times, now)| < perMinute)
      && (|Prune(times, now)| == perMinute && Delay(times, perMinute, now) > 1000 ==>
            (Delay(times, perMinute, later) == 0 <==> later >= now + Delay(times, perMinute, now)))
      && (|Prune(times, now)| >= perMinute ==> 1000 <= Delay(times, perMinute, now) <= WINDOW)
  {
    var u := Run(t, events, perMinute, overlap);
    if |Prune(u.times, now)| >= perMinute {
      AskAgain(t, events, perMinute, overlap, now, later);
      assert Prune(u.times, now)[0] in Prune(u.times, now);
      RunInOrder(t, events, perMinute, overlap, now);
    }
  }

  /** The delay is counted from the oldest recent time, so it suffices if there are just `perMinute` of them. */
  ghost predicate WaitingSuffices(perMinute: Rate, overlap: nat) {
    forall t, events, now, later :: Initial(t) ==>
      Admits(Run(t, events, perMinute, overlap), perMinute, now, later)
  }

  /** Asking again after the delay told at `now`, or later, is admitted. */
  predicate Admits(u: Target, perMinute: Rate, now: Time, later: Time) {
    now >= u.clock && later >= now + Delay(u.times, perMinute, now) ==> Delay(u.times, perMinute, later) == 0
  }

  lemma {:induction false} RecentFit(t: Target, events: seq<Event>, perMinute: Rate, overlap: nat, now: Time)
    requires Initial(t) && overlap <= 1 && now >= Run(t, events, perMinute, overlap).clock
    ensures |Prune(Run(t, events, perMinute, overlap).times, now)| <= perMinute
  {
    RunKeeps(t, events, perMinute, overlap);
    TickKeeps(Run(t, events, perMinute, overlap), now, perMinute, overlap);
  }

  lemma {:induction false} WaitingAlone(t: Target, events: seq<Event>, perMinute: Rate, overlap: nat, now: Time,
      later: Time)
    requires Initial(t) && overlap <= 1
    ensures Admits(Run(t, events, perMinute, overlap), perMinute, now, later)
  {
    var u := Run(t, events, perMinute, overlap);
    if now >= u.clock && later >= now + Delay(u.times, perMinute, now) {
      RecentFit(t, events, perMinute, overlap, now);
      if Delay(u.times, perMinute, now) == 0 {
        FilterShorter(u.times, (at: Time) => Fresh(later, at), (at: Time) => Fresh(now, at));
      } else {
        AskAgain(t, events, perMinute, overlap, now, later);
      }
    }
  }

  lemma {:induction false} StartedIn(reach: Target -> bool, perMinute: Rate, overlap: nat)
    requires overlap >= 2 && Kept(reach, perMinute, overlap) && reach(EMPTY)
    ensures reach(Target([0], {2}, {}, [0], [0], 0))
  {
    assert {} + {1} == {1} && {1} + {2} == {1, 2} && {1, 2} - {1} == {2};
    var one, two := EMPTY.(open := {1}), EMPTY.(open := {1, 2});
    AskOnly(EMPTY, 1, perMinute, overlap);
    assert reach(Next(EMPTY, Ask(1, 0), perMinute, overlap));
    AskOnly(one, 2, perMinute, overlap);
    assert reach(Next(one, Ask(2, 0), perMinute, overlap));
    SendOnly(two, 1, perMinute, overlap);
    ReachSent(reach, two, 1, 0, perMinute, overlap);
    assert [] + [0] == [0];
  }

  lemma {:induction false} LastNoted(u: Target, n: nat, perMinute: Rate, overlap: nat)
    requires u.times == [0] + Same(n, 30000) && u.open == {2} && u.sent == {} && u.clock <= 30000
    ensures var v := Send(u, 2, 30000, perMinute, overlap);
      v.times == [0] + Same(n + 1, 30000) && v.clock == 30000 && v.open == {}
  {
    AllFresh(u.times, 30000);
    SameSnoc(n, 30000);
    Assoc([0], Same(n, 30000), [30000]);
  }

  /** Two sends asked together, the first delivered at once; then others, and half a window later the second. */
  lemma {:induction false} StragglerIn(reach: Target -> bool, perMinute: Rate, overlap: nat) returns (u: Target)
    requires overlap >= 2 && Kept(reach, perMinute, overlap) && reach(EMPTY)
    ensures reach(u) && u.times == [0] + Same(perMinute, 30000) && u.clock == 30000 && u.open == {}
  {
    var n := perMinute - 1;
    var t := Target([0], {2}, {}, [0], [0], 0);
    StartedIn(reach, perMinute, overlap);
    ReachFilled(reach, t, n, 30000, perMinute, overlap);
    var v := Filled(t, n, 30000);
    LastNoted(v, n, perMinute, overlap);
    u := Send(v, 2, 30000, perMinute, overlap);
    ReachSent(reach, v, 2, 30000, perMinute, overlap);
  }

  /** Then the oldest time expires first, and all the others still fill the window when the delay has passed. */
  lemma {:induction false} DelayIsTooShort(u: Target, perMinute: Rate)
    requires u.times == [0] + Same(perMinute, 30000) && u.clock == 30000
    ensures Delay(u.times, perMinute, 30000) == 30000 && !Admits(u, perMinute, 30000, 60000)
  {
    AllFresh(u.times, 30000);
    assert u.times[1..] == Same(perMinute, 30000);
    AllFresh(u.times[1..], 60000);
    assert !Fresh(60000, u.times[0]);
  }

  /** Waiting the returned delay always suffices if and only if no two sends to the target overlap. */
  lemma {:induction false} WaitingSufficesAlone(perMinute: Rate, overlap: nat)
    ensures WaitingSuffices(perMinute, overlap) <==> overlap <= 1
  {
    if overlap <= 1 {
      forall t, events, now, later | Initial(t)
        ensures Admits(Run(t, events, perMinute, overlap), perMinute, now, later)
      {
        WaitingAlone(t, events, perMinute, overlap, now, later);
      }
    } else {
      ReachEmpty(perMinute, overlap);
      ReachableIsKept(perMinute, overlap);
      var u := StragglerIn(u => Reachable(u, perMinute, overlap), perMinute, overlap);
      DelayIsTooShort(u, perMinute);
      var events :| Run(EMPTY, events, perMinute, overlap) == u;
      assert Initial(EMPTY);
    }
  }
}
