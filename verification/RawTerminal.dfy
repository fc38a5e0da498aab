/**
 * One raw terminal panel: the stream cursor, the write queue with its epochs, the terminal that
 * paints what it is given some time later, and the checkpoint saved when the panel goes away.
 * A job of the queue runs in steps, cut where it waits: for the terminal to finish a chunk, or
 * for the next animation frame.
 */
module RawTerminal {
  import opened Common
  import opened DocumentChunks

  type Bytes = seq<byte>

  datatype Mark = Mark(generation: string, offset: nat)
  datatype Job = Job(bytes: Bytes, epoch: nat, mark: Mark)

  datatype Output = Output(exceeded: bool, generation: string, start: int, end: int, data: Bytes, reset: bool)

  /**
   * `None` between jobs; else how much of the head job has been handed over, and whether the terminal still
   * owes it.
   */
  datatype Worker = Worker(handed: nat, waiting: bool)

  datatype Panel = Panel(
    cursor: Option<Mark>, epoch: nat, queue: seq<Job>, worker: Option<Worker>,
    content: Bytes, pending: Bytes, painted: Option<Mark>, valid: bool, disposed: bool, awaiting: bool,
    /* how often the stream has been asked for again */
    syncs: nat,
    /* what the present epoch started from, and everything queued in it */
    origin: Origin, queued: Bytes)

  /**
   * An epoch starts with some bytes that stand for the stream up to `offset`: none, a snapshot's, or a cached
   * checkpoint's.
   */
  datatype Origin = Origin(prefix: Bytes, offset: nat)

  const BIG: nat := 64 * 1024
  const SLICE: nat := 32 * 1024

  function ChunkBytes(job: Job): nat { if |job.bytes| >= BIG then SLICE else Max(1, |job.bytes|) }

  /** A panel at rest: nothing cached, or a cached checkpoint or raw tail queued to be painted. */
  function Opened(cached: Option<(Mark, Bytes)>): Panel {
    var blank := Panel(None, 0, [], None, [], [], None, true, false, false, 0, Origin([], 0), []);
    if cached.None? then blank
    else
      var (mark, bytes) := cached.value;
      var p := blank.(cursor := Some(mark), origin := Origin(bytes, mark.offset), queued := bytes);
      if bytes == [] then p else p.(queue := [Job(bytes, 0, mark)])
  }

  // ------------------------------------------------------------------ messages

  function StartOver(p: Panel, mark: Mark, prefix: Bytes): Panel {
    p.(epoch := p.epoch + 1, cursor := Some(mark), content := [], origin := Origin(prefix, mark.offset),
        queued := prefix)
  }

  predicate WellFormed(m: Output) { m.generation != "" && m.end >= m.start >= 0 }

  predicate Resets(p: Panel, m: Output) { m.reset || p.cursor.None? || p.cursor.value.generation != m.generation }

  function Queue(p: Panel, bytes: Bytes, mark: Mark): Panel {
    p.(queue := p.queue + [Job(bytes, p.epoch, mark)])
  }

  function AfterReset(p: Panel, m: Output): Panel
    requires WellFormed(m)
  {
    if Resets(p, m) then
      StartOver(p, Mark(m.generation, m.start), []).(painted := Some(Mark(m.generation, m.start)))
    else p
  }

  /** What of the message is new to the cursor. */
  function Fresh(m: Output, next: nat): Bytes
    requires m.start <= next
  {
    m.data[Min(next - m.start, |m.data|)..]
  }

  /**
   * What the cursor takes of a message: nothing across a gap, which has the stream asked for again, nothing it
   * already has, and the rest once.
   */
  function Accepted(p: Panel, m: Output): Panel
    requires WellFormed(m) && p.cursor.Some?
  {
    var next := p.cursor.value.offset;
    if m.start > next then p.(syncs := p.syncs + 1)
    else if m.end <= next then p
    else
      var news := Fresh(m, next);
      var q := p.(cursor := Some(Mark(m.generation, m.end)), queued := p.queued + news);
      if |news| > 0 then Queue(q, news, Mark(m.generation, m.end)) else q
  }

  function Received(p: Panel, m: Output): Panel {
    if m.exceeded then p.(awaiting := true) else if !WellFormed(m) then p else Accepted(AfterReset(p, m), m)
  }

  /** A one-shot screen, printed, replaces the terminal's content and carries the stream offset it stands for. */
  function ReceivedScreen(p: Panel, mark: Mark, printed: Bytes): Panel {
    if !p.awaiting then p
    else Queue(StartOver(p.(awaiting := false), mark, printed).(painted := None), printed, mark)
  }

  // ------------------------------------------------------------------ the queue

  predicate Dropped(p: Panel, job: Job) { p.disposed || job.epoch != p.epoch }

  function Popped(p: Panel): Panel
    requires p.queue != []
  {
    p.(queue := p.queue[1..], worker := None)
  }

  function Finished(p: Panel): Panel
    requires p.queue != []
  {
    Popped(p).(painted := Some(p.queue[0].mark))
  }

  /** The head of the loop: give up, finish, or hand the next chunk to the terminal. */
  function Advanced(p: Panel): Panel {
    if p.queue == [] || (p.worker.Some? && p.worker.value.waiting) then p
    else
      var job := p.queue[0];
      var handed := if p.worker.Some? then p.worker.value.handed else 0;
      if Dropped(p, job) then Popped(p.(valid := p.valid && p.worker.None?))
      else if handed >= |job.bytes| then Finished(p)
      else
        var end := Min(|job.bytes|, handed + ChunkBytes(job));
        p.(pending := p.pending + job.bytes[handed..end], worker := Some(Worker(end, true)))
  }

  /** The terminal paints the first `n` bytes it still owes. */
  function Painted(p: Panel, n: nat): Panel {
    var k := Min(n, |p.pending|);
    p.(content := p.content + p.pending[..k], pending := p.pending[k..])
  }

  /** The terminal has finished the chunk and its callback runs. */
  function Resumed(p: Panel): Panel {
    if p.queue == [] || p.worker.None? || !p.worker.value.waiting || p.pending != [] then p
    else if Dropped(p, p.queue[0]) then Popped(p.(valid := false))
    else if p.worker.value.handed >= |p.queue[0].bytes| then Finished(p)
    else p.(worker := Some(p.worker.value.(waiting := false)))
  }

  /** Writing throws instead. */
  function Failed(p: Panel): Panel {
    if p.queue == [] || (p.worker.Some? && p.worker.value.waiting) then p else Popped(p.(valid := false))
  }

  function Disposed(p: Panel): Panel { p.(disposed := true) }

  datatype Checkpoint = Checkpoint(mark: Mark, content: Bytes)

  /** What the cleanup saves once the queue it waits for has run dry. */
  function Saved(p: Panel): Option<Checkpoint> {
    if p.disposed && p.worker.None? && p.valid && p.painted.Some? then Some(Checkpoint(p.painted.value, p.content))
        else None
  }

  // ------------------------------------------------------------------ as the client does it

  class TerminalPanel {
    var cursor: Option<Mark>
    var terminalWriteEpoch: nat
    var terminalWriteQueue: seq<Job>
    var worker: Option<Worker>
    var content: Bytes
    var pending: Bytes
    var paintedMark: Option<Mark>
    var checkpointValid: bool
    var disposed: bool
    var awaitingRawOneShot: bool
    var syncRequests: nat
    ghost var origin: Origin
    ghost var queued: Bytes

    ghost function Now(): Panel
      reads this
    {
      Panel(cursor, terminalWriteEpoch, terminalWriteQueue, worker, content, pending, paintedMark, checkpointValid,
          disposed, awaitingRawOneShot, syncRequests, origin, queued)
    }

    constructor (cached: Option<(Mark, Bytes)>)
      ensures Now() == Opened(cached)
    {
      terminalWriteEpoch, worker, content, pending, paintedMark, checkpointValid := 0, None, [], [], None, true;
      disposed, awaitingRawOneShot, syncRequests := false, false, 0;
      if cached.None? {
        cursor, terminalWriteQueue, origin, queued := None, [], Origin([], 0), [];
      } else {
        var (mark, bytes) := cached.value;
        cursor := Some(mark);
        terminalWriteQueue := if |bytes| == 0 then [] else [Job(bytes, 0, mark)];
        origin, queued := Origin(bytes, mark.offset), bytes;
      }
    }

    /** A copy of the bytes is queued under the present epoch. */
    method QueueTerminalWrite(bytes: Bytes, mark: Mark)
      modifies this
      ensures Now() == Queue(old(Now()), bytes, mark)
    {
      terminalWriteQueue := terminalWriteQueue + [Job(bytes, terminalWriteEpoch, mark)];
    }

    /**
     * What every reset of the terminal does: a new epoch, an empty terminal, the cursor where the new content
     * stands.
     */
    method ResetTo(mark: Mark, ghost prefix: Bytes)
      modifies this
      ensures Now() == StartOver(old(Now()), mark, prefix)
    {
      terminalWriteEpoch := terminalWriteEpoch + 1;
      content := [];
      cursor := Some(mark);
      origin, queued := Origin(prefix, mark.offset), prefix;
    }

    method HandleOutput(m: Output)
      modifies this
      ensures Now() == Received(old(Now()), m)
    {
      if m.exceeded { awaitingRawOneShot := true; return; }
      if !WellFormed(m) { return; }
      if m.reset || cursor.None? || cursor.value.generation != m.generation {
        ResetTo(Mark(m.generation, m.start), []);
        paintedMark := Some(Mark(m.generation, m.start));
      }
      Accept(m);
    }

    /** The second half of `handleOutput`. */
    method Accept(m: Output)
      requires WellFormed(m) && cursor.Some?
      modifies this
      ensures Now() == Accepted(old(Now()), m)
    {
      if m.start > cursor.value.offset {
        syncRequests := syncRequests + 1;
        return;
      }
      if m.end <= cursor.value.offset { return; }
      var overlap := Max(0, cursor.value.offset - m.start);
      var news := m.data[Min(overlap, |m.data|)..];
      cursor := Some(Mark(m.generation, m.end));
      queued := queued + news;
      if |news| > 0 { QueueTerminalWrite(news, Mark(m.generation, m.end)); }
    }

    method HandleRawOneShot(mark: Mark, printed: Bytes)
      modifies this
      ensures Now() == ReceivedScreen(old(Now()), mark, printed)
    {
      if !awaitingRawOneShot { return; }
      awaitingRawOneShot := false;
      ResetTo(mark, printed);
      paintedMark := None;
      QueueTerminalWrite(printed, mark);
    }

    /** The head of the chunk loop, entered anew after each animation frame. */
    method AdvanceWriter()
      modifies this
      ensures Now() == Advanced(old(Now()))
    {
      if |terminalWriteQueue| == 0 || (worker.Some? && worker.value.waiting) { return; }
      var job := terminalWriteQueue[0];
      var offset := if worker.Some? then worker.value.handed else 0;
      var wroteChunk := worker.Some?;
      if disposed || job.epoch != terminalWriteEpoch {
        if wroteChunk { checkpointValid := false; }
        terminalWriteQueue, worker := terminalWriteQueue[1..], None;
        return;
      }
      if offset >= |job.bytes| {
        paintedMark := Some(job.mark);
        terminalWriteQueue, worker := terminalWriteQueue[1..], None;
        return;
      }
      var chunkBytes := if |job.bytes| >= BIG then SLICE else Max(1, |job.bytes|);
      var end := Min(|job.bytes|, offset + chunkBytes);
      pending := pending + job.bytes[offset..end];
      worker := Some(Worker(end, true));
    }

    method ResumeWriter()
      modifies this
      ensures Now() == Resumed(old(Now()))
    {
      if |terminalWriteQueue| == 0 || worker.None? || !worker.value.waiting || |pending| != 0 { return; }
      var job := terminalWriteQueue[0];
      if disposed || job.epoch != terminalWriteEpoch {
        checkpointValid := false;
        terminalWriteQueue, worker := terminalWriteQueue[1..], None;
      } else if worker.value.handed >= |job.bytes| {
        paintedMark := Some(job.mark);
        terminalWriteQueue, worker := terminalWriteQueue[1..], None;
      } else {
        worker := Some(worker.value.(waiting := false));
      }
    }

    method SaveCheckpoint() returns (saved: Option<Checkpoint>)
      ensures saved == Saved(Now())
    {
      saved := None;
      if disposed && worker.None? && checkpointValid && paintedMark.Some? {
        saved := Some(Checkpoint(paintedMark.value, content));
      }
    }
  }
}
