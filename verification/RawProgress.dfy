/** What a raw panel takes of the messages it gets, and that its writer gets to the end of its queue. */
module RawProgress {
  import opened Common
  import opened DocumentChunks
  import opened RawTerminal
  import opened RawRuns

  // ------------------------------------------------------------------ messages

  /**
   * What is known of the stream before a message is looked at: the cursor's offset, or the message's start after a
   * reset.
   */
  function At(p: Panel, m: Output): nat
    requires WellFormed(m)
  {
    if Resets(p, m) then m.start else p.cursor.value.offset
  }

  /**
   * A message that says so, is the first, or is of another generation leaves an empty terminal and a new epoch at its
   * start; otherwise everything is as it was.
   */
  lemma ResetOutcome(p: Panel, m: Output)
    requires WellFormed(m)
    ensures
      var q := AfterReset(p, m);
      if m.reset || p.cursor.None? || p.cursor.value.generation != m.generation
      then q == p.(epoch := p.epoch + 1, cursor := Some(Mark(m.generation, m.start)), content := [],
                   painted := Some(Mark(m.generation, m.start)), origin := Origin([], m.start), queued := [])
      else q == p
  {
  }

  /**
   * A message across a gap has the stream asked for again and changes nothing else. Any other moves the cursor to its
   * end, if that is later, and queues exactly the bytes of the stream in between, to be painted up to there.
   */
  lemma {:induction false} MessageOutcome(stream: Stream, p: Panel, m: Output)
    requires Inv(stream, p) && Honest(stream, m) && !m.exceeded && m.generation != "" && 0 <= m.start <= m.end
    ensures
      var q, v, next := AfterReset(p, m), Received(p, m), At(p, m);
      if m.start > next then v == q.(syncs := p.syncs + 1)
      else if m.end <= next then v == q
      else
        var mark, news := Mark(m.generation, m.end), Slice(stream, m.generation, next, m.end);
        v == q.(cursor := Some(mark), queued := q.queued + news, queue := p.queue + [Job(news, q.epoch, mark)])
  {
    var next := At(p, m);
    if m.start <= next < m.end { assert Fresh(m, next) == Slice(stream, m.generation, next, m.end); }
  }

  /**
   * So the cursor stands still exactly at a gap or when there is nothing new, and a sync is asked for exactly at a
   * gap.
   */
  lemma {:induction false} CursorMoves(stream: Stream, p: Panel, m: Output)
    requires Inv(stream, p) && Honest(stream, m) && !m.exceeded && m.generation != "" && 0 <= m.start <= m.end
    requires !Resets(p, m)
    ensures
      var v, next := Received(p, m), p.cursor.value.offset;
      && (v.cursor == p.cursor <==> m.start > next || m.end <= next)
      && (v.syncs == p.syncs + 1 <==> m.start > next) && (v.syncs == p.syncs <==> m.start <= next)
      && (m.start <= next ==> v.cursor == Some(Mark(m.generation, Max(next, m.end))))
  {
    MessageOutcome(stream, p, m);
  }

  /** A message that cannot be read changes nothing; one that says too much is missing has a screen asked for. */
  lemma OddMessages(p: Panel, m: Output)
    ensures m.exceeded ==> Received(p, m) == p.(awaiting := true)
    ensures !m.exceeded && (m.generation == "" || m.start < 0 || m.end < m.start) ==> Received(p, m) == p
  {
  }

  /** The screen that was asked for starts everything over; one that was not is passed over. */
  lemma ScreenOutcome(p: Panel, mark: Mark, printed: Bytes)
    ensures
      var v := ReceivedScreen(p, mark, printed);
      if p.awaiting
      then v == p.(awaiting := false, epoch := p.epoch + 1, cursor := Some(mark), content := [], painted := None,
                   origin := Origin(printed, mark.offset), queued := printed,
                   queue := p.queue + [Job(printed, p.epoch + 1, mark)])
      else v == p
  {
  }

  // ------------------------------------------------------------------ the writer

  /** What is left to write: every byte and every job of the queue, without what the terminal has been handed. */
  function Left(queue: seq<Job>): nat {
    if queue == [] then 0 else Left(queue[..|queue| - 1]) + |queue[|queue| - 1].bytes| + 1
  }

  lemma {:induction false} LeftHead(queue: seq<Job>)
    requires queue != []
    ensures Left(queue) == |queue[0].bytes| + 1 + Left(queue[1..])
  {
    var n := |queue| - 1;
    if n > 0 {
      LeftHead(queue[..n]);
      assert queue[..n][1..] == queue[1..][..n - 1];
    }
  }

  function Handed(p: Panel): nat { if p.worker.Some? then p.worker.value.handed else 0 }

  /** Rounds that are needed: one for each step the head can take, and one more while the terminal owes something. */
  function Work(p: Panel): int {
    2 * (Left(p.queue) - Handed(p)) + if p.worker.Some? && p.worker.value.waiting then 1 else 0
  }

  /** The loop goes on, the terminal paints all it owes, and its callback runs. */
  function Round(p: Panel): Panel {
    var a := Advanced(p);
    Resumed(Painted(a, |a.pending|))
  }

  function Rounds(p: Panel, n: nat): Panel { if n == 0 then p else Round(Rounds(p, n - 1)) }

  /** The head has been begun, and is of an epoch that is over. */
  predicate HalfStale(p: Panel) { p.worker.Some? && p.queue != [] && Dropped(p, p.queue[0]) }

  /** Everything but the writer's own part is as it was. */
  ghost predicate SameStream(p: Panel, v: Panel) {
    v.cursor == p.cursor && v.epoch == p.epoch && v.origin == p.origin && v.queued == p.queued
    && v.disposed == p.disposed && v.syncs == p.syncs && v.awaiting == p.awaiting
  }

  lemma WorkLeft(stream: Stream, p: Panel)
    requires Inv(stream, p)
    ensures Work(p) >= 0 && (Work(p) == 0 <==> p.queue == []) && (p.queue == [] ==> p.worker.None? && Round(p) == p)
  {
    if p.queue != [] { LeftHead(p.queue); } else { assert p.pending == [] && p.content + [] == p.content; }
  }

  lemma RoundInv(stream: Stream, p: Panel)
    requires Inv(stream, p)
    ensures Inv(stream, Round(p))
  {
    var a := Advanced(p);
    AdvancedInv(stream, p);
    PaintedInv(stream, a, |a.pending|);
    ResumedInv(stream, Painted(a, |a.pending|));
  }

  /** What the terminal owes is part of a chunk the writer waits for, and no more has been handed over than there is. */
  predicate InHand(p: Panel) {
    && (p.pending != [] ==> p.worker.Some? && p.worker.value.waiting)
    && (p.worker.Some? ==> p.queue != [] && p.worker.value.handed <= |p.queue[0].bytes|)
  }

  lemma AdvancedSame(p: Panel) ensures SameStream(p, Advanced(p)) {}

  lemma ResumedSame(p: Panel) ensures SameStream(p, Resumed(p)) {}

  lemma PaintedAll(p: Panel)
    ensures Painted(p, |p.pending|) == p.(content := p.content + p.pending, pending := [])
  {
    assert p.pending[..|p.pending|] == p.pending && p.pending[|p.pending|..] == [];
  }

  lemma RoundSame(p: Panel)
    ensures SameStream(p, Round(p))
  {
    AdvancedSame(p);
    PaintedAll(Advanced(p));
    ResumedSame(Painted(Advanced(p), |Advanced(p).pending|));
  }

  /** The loop goes on: it waits as before, has got rid of the head, or hands over more of it. */
  lemma AdvanceOutcome(p: Panel)
    requires InHand(p) && p.queue != []
    ensures
      var a := Advanced(p);
      if p.worker.Some? && p.worker.value.waiting then a == p
      else if Dropped(p, p.queue[0]) || Handed(p) == |p.queue[0].bytes|
      then
        a.queue == p.queue[1..] && a.worker.None? && (a.valid <==> p.valid && !HalfStale(p)) && a.pending == p.pending
      else
        a.queue == p.queue && a.worker == Some(Worker(Handed(a), true)) && Handed(p) < Handed(a) <= |p.queue[0].bytes|
        && (a.valid <==> p.valid) && !HalfStale(p) && !HalfStale(a)
  {
  }

  /** All that was owed is painted, and the loop has got rid of the head or will go on with it. */
  lemma ResumeOutcome(a: Panel)
    requires a.queue != [] && a.worker.Some? && a.worker.value.waiting && Handed(a) <= |a.queue[0].bytes|
    ensures
      var v := Resumed(a.(content := a.content + a.pending, pending := []));
      && (v.valid <==> a.valid && !HalfStale(a)) && !HalfStale(v)
      && ((v.queue == a.queue[1..] && v.worker.None?)
          || (v.queue == a.queue && v.worker == Some(Worker(Handed(a), false))))
  {
  }

  /** A round gets the writer on, and gives the checkpoint up exactly if the head was begun in an epoch that is over. */
  lemma {:induction false} RoundDecreases(p: Panel)
    requires InHand(p) && p.queue != []
    ensures Work(Round(p)) < Work(p)
    ensures (Round(p).valid <==> p.valid && !HalfStale(p)) && !HalfStale(Round(p))
  {
    LeftHead(p.queue);
    var a := Advanced(p);
    AdvanceOutcome(p);
    PaintedAll(a);
    if a.worker.Some? { ResumeOutcome(a); } else { assert Round(p).queue == a.queue && Round(p).worker.None?; }
  }

  /** From `p` the writer has come to `v` in `n` rounds. */
  ghost predicate Drained(stream: Stream, p: Panel, n: nat, v: Panel) {
    && Inv(stream, v) && SameStream(p, v)
    && 0 <= Work(v) <= Max(0, Work(p) - n) && (Work(v) == 0 <==> v.queue == [])
    && (if n == 0 then v == p else !HalfStale(v) && (v.valid <==> p.valid && !HalfStale(p)))
  }

  /** One round more. */
  lemma {:induction false} OneRound(stream: Stream, u: Panel)
    requires Inv(stream, u)
    ensures Drained(stream, u, 1, Round(u))
  {
    RoundInv(stream, u);
    RoundSame(u);
    WorkLeft(stream, u);
    WorkLeft(stream, Round(u));
    if u.queue != [] { RoundDecreases(u); }
  }

  lemma DrainedMore(stream: Stream, p: Panel, n: nat, u: Panel, v: Panel)
    requires Drained(stream, p, n, u) && Drained(stream, u, 1, v)
    ensures Drained(stream, p, n + 1, v)
  {
  }

  /** Whatever is in the queue, as many rounds as there is work for empty it. */
  lemma {:induction false} WriterDrains(stream: Stream, p: Panel, n: nat)
    requires Inv(stream, p)
    ensures Drained(stream, p, n, Rounds(p, n))
  {
    if n == 0 {
      WorkLeft(stream, p);
    } else {
      WriterDrains(stream, p, n - 1);
      OneRound(stream, Rounds(p, n - 1));
      DrainedMore(stream, p, n - 1, Rounds(p, n - 1), Rounds(p, n));
    }
  }

  /** When nothing is left to write, what has been painted is all there is up to the cursor. */
  lemma {:induction false} DrainedMark(stream: Stream, p: Panel)
    requires Inv(stream, p) && p.queue == [] && p.valid && !p.disposed
    ensures p.content == p.queued && (p.painted.Some? ==> p.painted == p.cursor) && (p.queued != [] ==> p.painted.Some?)
  {
    assert Start(stream, p.origin, p.painted, p.queue, p.epoch, 0) == p.queued;
    if p.painted.Some? {
      assert |Full(stream, p.origin, p.painted.value)| == |Full(stream, p.origin, p.cursor.value)|;
    }
  }

  /**
   * Whatever messages a live panel got, its writer comes to the end of its queue. Unless the checkpoint was given up,
   * the terminal then shows everything queued up to the cursor, and that is what is saved when the panel goes away.
   * It is given up on the way exactly if the head was begun in an epoch that is over.
   */
  lemma {:induction false} EverythingIsShown(stream: Stream, cached: Option<(Mark, Bytes)>, steps: seq<Step>, n: nat)
    requires forall k :: 0 <= k < |steps| && steps[k].Message? ==> Honest(stream, steps[k].m)
    requires !Run(cached, steps).disposed && n >= Work(Run(cached, steps))
    ensures
      var p := Run(cached, steps);
      var v := Rounds(p, n);
      && v.queue == [] && v.worker.None? && SameStream(p, v)
      && (v.valid <==> p.valid && !HalfStale(p))
      && (v.valid ==> v.content == p.queued && (p.queued != [] ==> v.painted.Some?))
      && (v.valid && v.painted.Some? ==>
            p.cursor.Some? && Saved(Disposed(v)) == Some(Checkpoint(p.cursor.value, p.queued)))
  {
    var p := Run(cached, steps);
    InvAlways(stream, cached, steps);
    WriterDrains(stream, p, n);
    WorkLeft(stream, p);
    WorkLeft(stream, Rounds(p, n));
    if Rounds(p, n).valid { DrainedMark(stream, Rounds(p, n)); }
  }

  /** A checkpoint is given up by a write that throws and by nothing else than dropping a job that has been begun. */
  lemma GivenUpBy(p: Panel, step: Step)
    ensures
      var idle := p.queue == [] || (p.worker.Some? && p.worker.value.waiting);
      && (step.Fail? ==> (Apply(p, step).valid <==> p.valid && idle))
      && (step.Advance? ==> (Apply(p, step).valid <==> p.valid && (idle || !HalfStale(p))))
      && (step.Resume? ==> (Apply(p, step).valid <==> p.valid && (p.pending != [] || !idle || !HalfStale(p))))
      && (!step.Fail? && !step.Advance? && !step.Resume? ==> (Apply(p, step).valid <==> p.valid))
  {
  }

  /**
   * What is handed to the terminal at a time: the next 32 KiB of a long job, or what is left of it, and a short job
   * all at once.
   */
  lemma HandsInSlices(p: Panel)
    requires InHand(p) && p.queue != [] && !Dropped(p, p.queue[0]) && Handed(p) < |p.queue[0].bytes|
    requires !(p.worker.Some? && p.worker.value.waiting)
    ensures
      var bytes := p.queue[0].bytes;
      var n := if |bytes| >= 65536 then Min(32768, |bytes| - Handed(p)) else |bytes|;
      Handed(p) == 0 || |bytes| >= 65536 ==>
        Advanced(p) == p.(pending := bytes[Handed(p)..Handed(p) + n], worker := Some(Worker(Handed(p) + n, true)))
  {
    assert p.pending == [];
  }

  /** A job is done as soon as the last of it is painted, without waiting for another frame. */
  lemma FinishesWithItsLastByte(p: Panel)
    requires p.queue != [] && !Dropped(p, p.queue[0]) && p.worker == Some(Worker(|p.queue[0].bytes|, true))
    requires p.pending == []
    ensures
      var v := Resumed(p);
      v == p.(queue := p.queue[1..], worker := None, painted := Some(p.queue[0].mark))
  {
  }

  /** A panel that opens shows nothing yet, and paints what was cached if there is any of it. */
  lemma OpenedOutcome(cached: Option<(Mark, Bytes)>)
    ensures
      var p := Opened(cached);
      && p.worker.None? && p.content == [] && p.pending == [] && p.painted.None? && p.valid && !p.disposed
      && !p.awaiting && p.cursor == (if cached.Some? then Some(cached.value.0) else None)
      && p.queue == (if cached.None? || cached.value.1 == [] then []
                     else [Job(cached.value.1, p.epoch, cached.value.0)])
  {
  }

  /** Nothing is queued that has no bytes. */
  lemma NoEmptyJob(p: Panel, m: Output)
    requires !m.exceeded
    ensures
      var v := Received(p, m);
      v.queue == p.queue
      || (|v.queue| == |p.queue| + 1 && v.queue[..|p.queue|] == p.queue && v.queue[|p.queue|].bytes != [])
  {
  }

  /** Nothing is saved of a panel that is still there, while its writer works, or once its checkpoint is given up. */
  lemma SavedOnlyThen(p: Panel)
    ensures Saved(p).Some? <==> p.disposed && p.worker.None? && p.valid && p.painted.Some?
    ensures Saved(p).Some? ==> Saved(p).value.content == p.content && Some(Saved(p).value.mark) == p.painted
  {
  }

  /** Messages of one generation, each starting no later than what has come before it ends. */
  ghost predicate InOrder(stream: Stream, ms: seq<Output>, generation: string, at: nat) {
    ms == [] || (var m := ms[0];
      && m.generation == generation != "" && 0 <= m.start <= m.end && !m.exceeded && !m.reset && Honest(stream, m)
      && m.start <= at
      && InOrder(stream, ms[1..], generation, Max(at, m.end)))
  }

  function Reached(ms: seq<Output>, at: int): int { if ms == [] then at else Reached(ms[1..], Max(at, ms[0].end)) }

  function Messages(p: Panel, ms: seq<Output>): Panel
    decreases |ms|
  {
    if ms == [] then p else Messages(Received(p, ms[0]), ms[1..])
  }

  /** One message that leaves no gap: the bytes between the cursor and its end are queued, if there are any. */
  lemma {:induction false} NextMessage(stream: Stream, p: Panel, m: Output)
    requires Inv(stream, p) && p.cursor.Some? && Honest(stream, m) && m.generation != "" && 0 <= m.start <= m.end
    requires !m.exceeded && !m.reset
    requires m.generation == p.cursor.value.generation && m.start <= p.cursor.value.offset
    ensures
      var at := p.cursor.value.offset;
      var v := Received(p, m);
      && Inv(stream, v) && v.cursor == Some(Mark(m.generation, Max(at, m.end)))
      && v.queued == p.queued + Slice(stream, m.generation, at, Max(at, m.end))
      && v.epoch == p.epoch && v.syncs == p.syncs && v.valid == p.valid && v.disposed == p.disposed
  {
    ReceivedInv(stream, p, m);
    MessageOutcome(stream, p, m);
    if m.end <= p.cursor.value.offset {
      assert Slice(stream, m.generation, p.cursor.value.offset, p.cursor.value.offset) == [];
    }
  }

  lemma SliceOn(stream: Stream, generation: string, a: nat, b: nat, c: nat)
    requires a <= b <= c
    ensures Slice(stream, generation, a, b) + Slice(stream, generation, b, c) == Slice(stream, generation, a, c)
  {
  }

  /**
   * Messages that leave no gap, in any overlap and with any repetition, bring the cursor to the furthest end among
   * them and queue every byte of the stream on the way, once, without asking for the stream again.
   */
  lemma {:induction false} NoGapLosesNothing(stream: Stream, p: Panel, ms: seq<Output>)
    requires Inv(stream, p) && p.cursor.Some?
    requires InOrder(stream, ms, p.cursor.value.generation, p.cursor.value.offset)
    ensures
      var mark := p.cursor.value;
      var v := Messages(p, ms);
      && Inv(stream, v) && mark.offset <= Reached(ms, mark.offset)
      && v.cursor == Some(Mark(mark.generation, Reached(ms, mark.offset)))
      && v.queued == p.queued + Slice(stream, mark.generation, mark.offset, Reached(ms, mark.offset))
      && v.epoch == p.epoch && v.syncs == p.syncs && v.valid == p.valid && v.disposed == p.disposed
    decreases |ms|
  {
    var mark := p.cursor.value;
    if ms == [] {
      assert p.queued + Slice(stream, mark.generation, mark.offset, mark.offset) == p.queued;
    } else {
      var at := Max(mark.offset, ms[0].end);
      var q := Received(p, ms[0]);
      NextMessage(stream, p, ms[0]);
      NoGapLosesNothing(stream, q, ms[1..]);
      SliceOn(stream, mark.generation, mark.offset, at, Reached(ms, mark.offset));
      Assoc(p.queued, Slice(stream, mark.generation, mark.offset, at),
          Slice(stream, mark.generation, at, Reached(ms, mark.offset)));
    }
  }
}
