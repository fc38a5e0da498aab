/** What any run of messages, painting, resets and disposal keeps, and what a saved checkpoint means. */
module RawRuns {
  import opened Common
  import opened DocumentChunks
  import opened RawTerminal

  /** Every generation's bytes, by offset. */
  type Stream = (string, nat) -> byte

  function Slice(stream: Stream, generation: string, a: nat, b: nat): (r: Bytes)
    requires a <= b
    ensures |r| == b - a
  {
    seq(b - a, i requires 0 <= i < b - a => stream(generation, a + i))
  }

  /** A message carries the stream's own bytes. */
  predicate Honest(stream: Stream, m: Output)
  {
    WellFormed(m) && !m.exceeded ==> m.data == Slice(stream, m.generation, m.start, m.end)
  }

  /** What the terminal shows when the stream has been painted from the epoch's start up to `mark`. */
  function Full(stream: Stream, origin: Origin, mark: Mark): Bytes
    requires origin.offset <= mark.offset
  {
    origin.prefix + Slice(stream, mark.generation, origin.offset, mark.offset)
  }

  predicate Within(origin: Origin, cursor: Option<Mark>, mark: Mark) {
    cursor.Some? && mark.generation == cursor.value.generation && origin.offset <= mark.offset <= cursor.value.offset
  }

  /** What finished jobs of this epoch have painted. */
  function Done(stream: Stream, origin: Origin, painted: Option<Mark>): Bytes
    requires painted.Some? ==> origin.offset <= painted.value.offset
  {
    if painted.Some? then Full(stream, origin, painted.value) else []
  }

  /** Everything queued in this epoch is one slice of the present generation, ending at the cursor. */
  ghost predicate Contiguous(stream: Stream, origin: Origin, cursor: Option<Mark>, painted: Option<Mark>, queued: Bytes)
  {
    && (cursor.None? ==> queued == [] && painted.None?)
    && (cursor.Some? ==> origin.offset <= cursor.value.offset && queued == Full(stream, origin, cursor.value))
    && (painted.Some? ==> Within(origin, cursor, painted.value))
  }

  ghost predicate Ordered(queue: seq<Job>, epoch: nat) {
    && (forall i :: 0 <= i < |queue| ==> queue[i].epoch <= epoch)
    && (forall i, j :: 0 <= i <= j < |queue| ==> queue[i].epoch <= queue[j].epoch)
  }

  ghost predicate MarksWithin(origin: Origin, cursor: Option<Mark>, queue: seq<Job>, epoch: nat) {
    forall i :: 0 <= i < |queue| && queue[i].epoch == epoch ==> Within(origin, cursor, queue[i].mark)
  }

  /** What is painted when job `i` starts, if it and those before it are painted. */
  function Start(stream: Stream, origin: Origin, painted: Option<Mark>, queue: seq<Job>, epoch: nat, i: nat): Bytes
    requires i <= |queue| && (painted.Some? ==> origin.offset <= painted.value.offset)
    requires i > 0 && queue[i - 1].epoch == epoch ==> origin.offset <= queue[i - 1].mark.offset
  {
    if i > 0 && queue[i - 1].epoch == epoch then Full(stream, origin, queue[i - 1].mark)
        else Done(stream, origin, painted)
  }

  /** Each job of this epoch goes on where the one before it ends, and the last ends where the queued bytes do. */
  ghost predicate Chained(stream: Stream, origin: Origin, cursor: Option<Mark>, painted: Option<Mark>, queue: seq<Job>,
      epoch: nat, queued: Bytes)
    requires painted.Some? ==> origin.offset <= painted.value.offset
    requires MarksWithin(origin, cursor, queue, epoch)
  {
    && (forall i :: 0 <= i < |queue| && queue[i].epoch == epoch ==>
          Start(stream, origin, painted, queue, epoch, i) + queue[i].bytes == Full(stream, origin, queue[i].mark))
    && Start(stream, origin, painted, queue, epoch, |queue|) == queued
  }

  /**
   * The terminal shows what finished jobs painted, and what of the present job it has been handed and no
   * longer owes.
   */
  ghost predicate Shown(stream: Stream, p: Panel)
    requires p.painted.Some? ==> p.origin.offset <= p.painted.value.offset
  {
    && (p.pending != [] ==> p.worker.Some? && p.worker.value.waiting)
    && (p.worker.Some? ==> p.queue != [] && p.worker.value.handed <= |p.queue[0].bytes|)
    && (p.valid && p.worker.None? ==> p.content == Done(stream, p.origin, p.painted))
    && (p.valid && p.worker.Some? && p.queue[0].epoch == p.epoch ==>
          p.content + p.pending == Done(stream, p.origin, p.painted) + p.queue[0].bytes[..p.worker.value.handed])
  }

  ghost predicate Inv(stream: Stream, p: Panel) {
    && Contiguous(stream, p.origin, p.cursor, p.painted, p.queued)
    && Ordered(p.queue, p.epoch)
    && MarksWithin(p.origin, p.cursor, p.queue, p.epoch)
    && (p.disposed || !p.valid || Chained(stream, p.origin, p.cursor, p.painted, p.queue, p.epoch, p.queued))
    && Shown(stream, p)
  }

  /** A queue of earlier epochs asks nothing of this one. */
  lemma {:induction false} EarlierQueue(stream: Stream, origin: Origin, cursor: Option<Mark>, painted: Option<Mark>,
                                        queue: seq<Job>,
                                        epoch: nat, queued: Bytes)
    requires forall i :: 0 <= i < |queue| ==> queue[i].epoch < epoch
    requires (painted.Some? ==> origin.offset <= painted.value.offset) && Done(stream, origin, painted) == queued
    ensures MarksWithin(origin, cursor, queue, epoch) && Chained(stream, origin, cursor, painted, queue, epoch, queued)
  {
  }

  /** One more job, going on where the queued bytes end. */
  lemma {:induction false} LaterJob(stream: Stream, origin: Origin, cursor: Option<Mark>, cursor': Option<Mark>,
                                    painted: Option<Mark>,
                                    queue: seq<Job>, epoch: nat, queued: Bytes, job: Job)
    requires painted.Some? ==> origin.offset <= painted.value.offset
    requires MarksWithin(origin, cursor, queue, epoch) && Chained(stream, origin, cursor, painted, queue, epoch, queued)
    requires MarksWithin(origin, cursor', queue + [job], epoch)
    requires job.epoch == epoch && origin.offset <= job.mark.offset
        && queued + job.bytes == Full(stream, origin, job.mark)
    ensures Chained(stream, origin, cursor', painted, queue + [job], epoch, queued + job.bytes)
  {
    var more := queue + [job];
    forall i | 0 <= i < |more| && more[i].epoch == epoch
      ensures Start(stream, origin, painted, more, epoch, i) + more[i].bytes == Full(stream, origin, more[i].mark)
    {
      if i < |queue| { assert more[i] == queue[i]; }
    }
  }

  lemma FullAtOrigin(stream: Stream, origin: Origin, mark: Mark)
    requires mark.offset == origin.offset
    ensures Full(stream, origin, mark) == origin.prefix
  {
    assert Slice(stream, mark.generation, origin.offset, mark.offset) == [];
  }

  /** A new epoch: what is in the queue belongs to earlier ones. */
  lemma {:induction false} StartOverInv(stream: Stream, p: Panel, mark: Mark)
    requires Inv(stream, p)
    ensures Inv(stream, StartOver(p, mark, []).(painted := Some(mark)))
  {
    FullAtOrigin(stream, Origin([], mark.offset), mark);
    EarlierQueue(stream, Origin([], mark.offset), Some(mark), Some(mark), p.queue, p.epoch + 1, []);
  }

  lemma {:induction false} AppendChained(stream: Stream, p: Panel, mark: Mark, bytes: Bytes)
    requires Inv(stream, p) && p.cursor.Some? && mark.generation == p.cursor.value.generation
        && mark.offset >= p.cursor.value.offset
    requires p.queued + bytes == Full(stream, p.origin, mark)
    ensures Inv(stream, Queue(p.(cursor := Some(mark), queued := p.queued + bytes), bytes, mark))
  {
    var job := Job(bytes, p.epoch, mark);
    var more := p.queue + [job];
    assert MarksWithin(p.origin, Some(mark), more, p.epoch) by {
      forall i | 0 <= i < |more| && more[i].epoch == p.epoch ensures Within(p.origin, Some(mark), more[i].mark) {
        if i < |p.queue| { assert more[i] == p.queue[i]; }
      }
    }
    if !p.disposed && p.valid {
      LaterJob(stream, p.origin, p.cursor, Some(mark), p.painted, p.queue, p.epoch, p.queued, job);
    }
    assert p.worker.Some? ==> more[0] == p.queue[0];
  }

  lemma {:induction false} ReceivedInv(stream: Stream, p: Panel, m: Output)
    requires Inv(stream, p) && Honest(stream, m)
    ensures Inv(stream, Received(p, m))
  {
    if !m.exceeded && WellFormed(m) {
      if Resets(p, m) { StartOverInv(stream, p, Mark(m.generation, m.start)); }
      AcceptedInv(stream, AfterReset(p, m), m);
    }
  }

  lemma {:induction false} AcceptedInv(stream: Stream, q: Panel, m: Output)
    requires Inv(stream, q) && Honest(stream, m) && WellFormed(m) && !m.exceeded
    requires q.cursor.Some? && q.cursor.value.generation == m.generation
    ensures Inv(stream, Accepted(q, m))
  {
    var next := q.cursor.value.offset;
    if m.start <= next < m.end {
      var news := Fresh(m, next);
      assert news == Slice(stream, m.generation, next, m.end);
      Assoc(q.origin.prefix, Slice(stream, m.generation, q.origin.offset, next), news);
      AppendChained(stream, q, Mark(m.generation, m.end), news);
    }
  }

  /** The first job of a new epoch, behind jobs of earlier ones. */
  lemma {:induction false} FirstJob(stream: Stream, origin: Origin, mark: Mark, queue: seq<Job>, before: nat,
      epoch: nat)
    requires Ordered(queue, before) && before <= epoch && (before < epoch || queue == [])
        && mark.offset == origin.offset
    ensures var more := queue + [Job(origin.prefix, epoch, mark)];
      && Ordered(more, epoch) && MarksWithin(origin, Some(mark), more, epoch)
      && Chained(stream, origin, Some(mark), None, more, epoch, origin.prefix)
  {
    FullAtOrigin(stream, origin, mark);
    EarlierQueue(stream, origin, Some(mark), None, queue, epoch, []);
    assert [] + origin.prefix == origin.prefix;
    LaterJob(stream, origin, Some(mark), Some(mark), None, queue, epoch, [], Job(origin.prefix, epoch, mark));
  }

  lemma {:induction false} ReceivedScreenInv(stream: Stream, p: Panel, mark: Mark, printed: Bytes)
    requires Inv(stream, p)
    ensures Inv(stream, ReceivedScreen(p, mark, printed))
  {
    if p.awaiting {
      FirstJob(stream, Origin(printed, mark.offset), mark, p.queue, p.epoch, p.epoch + 1);
      FullAtOrigin(stream, Origin(printed, mark.offset), mark);
      assert p.worker.Some? ==> (p.queue + [Job(printed, p.epoch + 1, mark)])[0] == p.queue[0];
    }
  }

  /** What is painted when a job starts does not depend on the head being in the queue or painted. */
  lemma {:induction false} StartShift(stream: Stream, origin: Origin, cursor: Option<Mark>, painted: Option<Mark>,
                                      queue: seq<Job>, epoch: nat, painted': Option<Mark>, i: nat)
    requires painted.Some? ==> origin.offset <= painted.value.offset
    requires i < |queue| && MarksWithin(origin, cursor, queue, epoch) && Ordered(queue, epoch)
    requires painted' == if queue[0].epoch == epoch then Some(queue[0].mark) else painted
    ensures painted'.Some? ==> origin.offset <= painted'.value.offset
    ensures i > 0 && queue[1..][i - 1].epoch == epoch ==> origin.offset <= queue[1..][i - 1].mark.offset
    ensures queue[i].epoch == epoch ==> origin.offset <= queue[i].mark.offset
    ensures Start(stream, origin, painted', queue[1..], epoch, i) == Start(stream, origin, painted, queue, epoch, i + 1)
  {
    if i > 0 { assert queue[1..][i - 1] == queue[i]; }
  }

  /** The queue without its head, whose end is what is painted now if it belongs to this epoch. */
  lemma {:induction false} ShiftChained(stream: Stream, origin: Origin, cursor: Option<Mark>, painted: Option<Mark>,
                                        queue: seq<Job>, epoch: nat, queued: Bytes, painted': Option<Mark>)
    requires painted.Some? ==> origin.offset <= painted.value.offset
    requires queue != [] && MarksWithin(origin, cursor, queue, epoch)
    requires Chained(stream, origin, cursor, painted, queue, epoch, queued) && Ordered(queue, epoch)
    requires painted' == if queue[0].epoch == epoch then Some(queue[0].mark) else painted
    ensures MarksWithin(origin, cursor, queue[1..], epoch)
    ensures Chained(stream, origin, cursor, painted', queue[1..], epoch, queued)
  {
    var rest := queue[1..];
    forall i | 0 <= i < |rest| && rest[i].epoch == epoch
      ensures Start(stream, origin, painted', rest, epoch, i) + rest[i].bytes == Full(stream, origin, rest[i].mark)
    {
      assert rest[i] == queue[i + 1];
      StartShift(stream, origin, cursor, painted, queue, epoch, painted', i);
    }
    StartShift(stream, origin, cursor, painted, queue, epoch, painted', |rest|);
  }

  /** The head job leaves the queue painted. */
  lemma {:induction false} FinishedInv(stream: Stream, p: Panel)
    requires Inv(stream, p) && p.queue != [] && !Dropped(p, p.queue[0]) && p.pending == []
    requires if p.worker.Some? then p.worker.value.handed >= |p.queue[0].bytes| else p.queue[0].bytes == []
    ensures Inv(stream, Finished(p))
  {
    var head := p.queue[0];
    if p.valid {
      assert Start(stream, p.origin, p.painted, p.queue, p.epoch, 0) + head.bytes == Full(stream, p.origin, head.mark);
      ShiftChained(stream, p.origin, p.cursor, p.painted, p.queue, p.epoch, p.queued, Some(head.mark));
      assert p.worker.Some? ==> head.bytes[..p.worker.value.handed] == head.bytes;
      assert p.content + [] == p.content;
    }
  }

  /**
   * The head job leaves the queue unpainted, being of an earlier epoch, or the panel being gone, or the
   * checkpoint given up.
   */
  lemma {:induction false} PoppedInv(stream: Stream, p: Panel, valid: bool)
    requires Inv(stream, p) && p.queue != [] && p.pending == []
    requires valid ==> p.valid && p.worker.None? && Dropped(p, p.queue[0])
    ensures Inv(stream, Popped(p.(valid := valid)))
  {
    if !p.disposed && valid {
      ShiftChained(stream, p.origin, p.cursor, p.painted, p.queue, p.epoch, p.queued, p.painted);
    }
  }

  predicate CanAdvance(p: Panel) { p.queue != [] && !(p.worker.Some? && p.worker.value.waiting) }

  lemma {:induction false} AdvancedDrops(stream: Stream, p: Panel)
    requires Inv(stream, p) && CanAdvance(p) && Dropped(p, p.queue[0])
    ensures Inv(stream, Advanced(p))
  {
    PoppedInv(stream, p, p.valid && p.worker.None?);
  }

  lemma {:induction false} AdvancedFinishes(stream: Stream, p: Panel)
    requires Inv(stream, p) && CanAdvance(p) && !Dropped(p, p.queue[0])
    requires (if p.worker.Some? then p.worker.value.handed else 0) >= |p.queue[0].bytes|
    ensures Inv(stream, Advanced(p))
  {
    FinishedInv(stream, p);
  }

  lemma {:induction false} AdvancedHands(stream: Stream, p: Panel)
    requires Inv(stream, p) && CanAdvance(p) && !Dropped(p, p.queue[0])
    requires (if p.worker.Some? then p.worker.value.handed else 0) < |p.queue[0].bytes|
    ensures Inv(stream, Advanced(p))
  {
    var job := p.queue[0];
    var handed := if p.worker.Some? then p.worker.value.handed else 0;
    HandedInv(stream, p, handed, Min(|job.bytes|, handed + ChunkBytes(job)));
  }

  lemma {:induction false} AdvancedInv(stream: Stream, p: Panel)
    requires Inv(stream, p)
    ensures Inv(stream, Advanced(p))
  {
    if CanAdvance(p) {
      if Dropped(p, p.queue[0]) {
        AdvancedDrops(stream, p);
      } else if (if p.worker.Some? then p.worker.value.handed else 0) >= |p.queue[0].bytes| {
        AdvancedFinishes(stream, p);
      } else {
        AdvancedHands(stream, p);
      }
    }
  }

  lemma {:induction false} HandedInv(stream: Stream, p: Panel, handed: nat, end: nat)
    requires Inv(stream, p) && p.queue != [] && p.queue[0].epoch == p.epoch
        && !(p.worker.Some? && p.worker.value.waiting)
    requires handed == (if p.worker.Some? then p.worker.value.handed else 0) && handed < end <= |p.queue[0].bytes|
    ensures Inv(stream, p.(pending := p.pending + p.queue[0].bytes[handed..end], worker := Some(Worker(end, true))))
  {
    var bytes := p.queue[0].bytes;
    assert p.pending == [] && p.pending + bytes[handed..end] == bytes[handed..end];
    SliceJoin(bytes, handed, end);
    if p.valid {
      var done := Done(stream, p.origin, p.painted);
      assert p.content == done + bytes[..handed] by {
        if p.worker.None? { assert bytes[..0] == [] && done + [] == done; } else { assert p.content + [] == p.content; }
      }
      Assoc(done, bytes[..handed], bytes[handed..end]);
    }
  }

  lemma {:induction false} PaintedInv(stream: Stream, p: Panel, n: nat)
    requires Inv(stream, p)
    ensures Inv(stream, Painted(p, n))
  {
    var k := Min(n, |p.pending|);
    assert p.content + p.pending[..k] + p.pending[k..] == p.content + p.pending;
    if p.pending == [] { assert p.content + p.pending[..k] == p.content; }
  }

  lemma {:induction false} ResumedInv(stream: Stream, p: Panel)
    requires Inv(stream, p)
    ensures Inv(stream, Resumed(p))
  {
    if p.queue != [] && p.worker.Some? && p.worker.value.waiting && p.pending == [] {
      if Dropped(p, p.queue[0]) { PoppedInv(stream, p, false); }
      else if p.worker.value.handed >= |p.queue[0].bytes| { FinishedInv(stream, p); }
    }
  }

  // ------------------------------------------------------------------ runs

  datatype Step =
    | Message(m: Output)
    | Screen(mark: Mark, printed: Bytes)
    | Advance
    | Paint(n: nat)
    | Resume
    | Fail
    | Dispose

  function Apply(p: Panel, step: Step): Panel {
    match step
    case Message(m) => Received(p, m)
    case Screen(mark, printed) => ReceivedScreen(p, mark, printed)
    case Advance => Advanced(p)
    case Paint(n) => Painted(p, n)
    case Resume => Resumed(p)
    case Fail => Failed(p)
    case Dispose => Disposed(p)
  }

  function Run(cached: Option<(Mark, Bytes)>, steps: seq<Step>): Panel {
    if steps == [] then Opened(cached) else Apply(Run(cached, steps[..|steps| - 1]), steps[|steps| - 1])
  }

  lemma {:induction false} StepInv(stream: Stream, p: Panel, step: Step)
    requires Inv(stream, p) && (step.Message? ==> Honest(stream, step.m))
    ensures Inv(stream, Apply(p, step))
  {
    match step
    case Message(m) => ReceivedInv(stream, p, m);
    case Screen(mark, printed) => ReceivedScreenInv(stream, p, mark, printed);
    case Advance => AdvancedInv(stream, p);
    case Paint(n) => PaintedInv(stream, p, n);
    case Resume => ResumedInv(stream, p);
    case Fail => if p.queue != [] && !(p.worker.Some? && p.worker.value.waiting) { PoppedInv(stream, p, false); }
    case Dispose =>
  }

  lemma {:induction false} OpenedBlank(stream: Stream, cached: Option<(Mark, Bytes)>)
    requires cached.None? || cached.value.1 == []
    ensures Inv(stream, Opened(cached))
  {
    if cached.Some? { FullAtOrigin(stream, Origin([], cached.value.0.offset), cached.value.0); }
  }

  lemma {:induction false} OpenedPainting(stream: Stream, mark: Mark, bytes: Bytes)
    requires bytes != []
    ensures Inv(stream, Opened(Some((mark, bytes))))
  {
    FullAtOrigin(stream, Origin(bytes, mark.offset), mark);
    FirstJob(stream, Origin(bytes, mark.offset), mark, [], 0, 0);
    assert [] + [Job(bytes, 0, mark)] == [Job(bytes, 0, mark)];
  }

  /** A panel opened on cached bytes is about to paint them. */
  lemma {:induction false} OpenedInv(stream: Stream, cached: Option<(Mark, Bytes)>)
    ensures Inv(stream, Opened(cached))
  {
    if cached.None? || cached.value.1 == [] {
      OpenedBlank(stream, cached);
    } else {
      OpenedPainting(stream, cached.value.0, cached.value.1);
    }
  }

  lemma {:induction false} InvAlways(stream: Stream, cached: Option<(Mark, Bytes)>, steps: seq<Step>)
    requires forall k :: 0 <= k < |steps| && steps[k].Message? ==> Honest(stream, steps[k].m)
    ensures Inv(stream, Run(cached, steps))
  {
    if steps == [] {
      OpenedInv(stream, cached);
    } else {
      InvAlways(stream, cached, steps[..|steps| - 1]);
      StepInv(stream, Run(cached, steps[..|steps| - 1]), steps[|steps| - 1]);
    }
  }

  /**
   * For any loss, repetition, overlap or reordering of correct stream slices, the bytes queued since
   * the last reset are what that reset started from and one contiguous slice of the present
   * generation, from there to the cursor.
   */
  lemma {:induction false} QueuedIsOneSlice(stream: Stream, cached: Option<(Mark, Bytes)>, steps: seq<Step>)
    requires forall k :: 0 <= k < |steps| && steps[k].Message? ==> Honest(stream, steps[k].m)
    requires Run(cached, steps).cursor.Some?
    ensures
      var p := Run(cached, steps);
      && p.origin.offset <= p.cursor.value.offset
      && p.queued == p.origin.prefix + Slice(stream, p.cursor.value.generation, p.origin.offset, p.cursor.value.offset)
  {
    InvAlways(stream, cached, steps);
  }

  /**
   * A checkpoint that is saved describes the stream painted up to its offset: the terminal shows
   * what the epoch started from and then every byte up to there, once, and nothing else.
   */
  lemma {:induction false} CheckpointIsTrue(stream: Stream, cached: Option<(Mark, Bytes)>, steps: seq<Step>)
    requires forall k :: 0 <= k < |steps| && steps[k].Message? ==> Honest(stream, steps[k].m)
    requires Saved(Run(cached, steps)).Some?
    ensures
      var p, c := Run(cached, steps), Saved(Run(cached, steps)).value;
      && p.cursor.Some? && c.mark.generation == p.cursor.value.generation
      && p.origin.offset <= c.mark.offset <= p.cursor.value.offset
      && c.content == p.origin.prefix + Slice(stream, c.mark.generation, p.origin.offset, c.mark.offset)
  {
    InvAlways(stream, cached, steps);
  }

  /** When the queue of a live panel has run dry, the terminal shows everything that was queued. */
  lemma {:induction false} DrainedShowsAll(stream: Stream, cached: Option<(Mark, Bytes)>, steps: seq<Step>)
    requires forall k :: 0 <= k < |steps| && steps[k].Message? ==> Honest(stream, steps[k].m)
    requires Run(cached, steps).queue == [] && Run(cached, steps).valid && !Run(cached, steps).disposed
    ensures Run(cached, steps).content == Run(cached, steps).queued
  {
    InvAlways(stream, cached, steps);
    var p := Run(cached, steps);
    assert Start(stream, p.origin, p.painted, p.queue, p.epoch, 0) == p.queued;
  }

  /** What follows from any panel. */
  function RunOn(p: Panel, steps: seq<Step>): Panel
    decreases |steps|
  {
    if steps == [] then p else Apply(RunOn(p, steps[..|steps| - 1]), steps[|steps| - 1])
  }

  lemma {:induction false} InvalidStays(p: Panel, step: Step)
    requires !p.valid
    ensures !Apply(p, step).valid
  {
  }

  /** A checkpoint given up stays given up. */
  lemma {:induction false} InvalidForEver(p: Panel, steps: seq<Step>)
    requires !p.valid
    ensures !RunOn(p, steps).valid && Saved(RunOn(p, steps)).None?
    decreases |steps|
  {
    if steps != [] {
      var n := |steps| - 1;
      InvalidForEver(p, steps[..n]);
      InvalidStays(RunOn(p, steps[..n]), steps[n]);
    }
  }

  /**
   * Why a checkpoint must be given up: a chunk the terminal still owes when it is reset is painted
   * after the reset, on top of the new epoch's content. The writer notices when it resumes, before
   * any job of the new epoch is painted, and no checkpoint is saved after that.
   */
  lemma {:induction false} StaleChunkIsNoticed(p: Panel, m: Output, later: seq<Step>)
    requires p.worker.Some? && p.queue != [] && p.worker.value.waiting && WellFormed(m) && !m.exceeded && m.reset
    requires p.queue[0].epoch == p.epoch
    ensures
      var q := Painted(Received(p, m), |p.pending|);
      && q.content == p.pending && q.pending == [] && q.queue != [] && q.queue[0] == p.queue[0]
      && Advanced(q) == q
      && Saved(RunOn(Resumed(q), later)).None?
  {
    var r := Received(p, m);
    WholePending(r);
    InvalidForEver(Resumed(Painted(r, |p.pending|)), later);
  }

  lemma WholePending(r: Panel)
    requires r.content == []
    ensures Painted(r, |r.pending|) == r.(content := r.pending, pending := [])
  {
    assert r.pending[..|r.pending|] == r.pending && [] + r.pending == r.pending && r.pending[|r.pending|..] == [];
  }
}
