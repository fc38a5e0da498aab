/**
 * The replica is right: whatever frames of honest streams reach the client, in whatever
 * order and however often, the state it holds is the server's screen of that number.
 */
module ScreenReplica {
  import opened Common
  import opened Screen
  import opened ScreenProjection
  import opened ScreenDiff

  function CleanRows(rows: seq<Row>): seq<Row> {
    seq(|rows|, i requires 0 <= i < |rows| => CleanRow(rows[i]))
  }

  /** The state labelled (`streamId`, `n`) that shows exactly the screen `s`, cleaned. */
  function ReplicaOf(streamId: string, n: int, s: Snapshot): State {
    State(streamId, s.generation, n, s.revision, s.sizeEpoch, s.cols, s.totalRows, s.viewportTop, s.viewportRows,
          s.alternate, s.modes, s.cursor, CleanRows(s.rows))
  }

  predicate Describes(f: Frame, s: Snapshot) {
    f.generation == s.generation && f.revision == s.revision && f.sizeEpoch == s.sizeEpoch && f.cols == s.cols
    && f.totalRows == s.totalRows && f.viewportTop == s.viewportTop && f.viewportRows == s.viewportRows
    && f.alternate == s.alternate && f.modes == s.modes && f.cursor == s.cursor
  }

  predicate Listed(f: Frame, i: int) { exists k :: 0 <= k < |f.rows| && f.rows[k].row == i }

  /** What row `i` shows before the listed rows are written. */
  function Carried(previous: Option<Snapshot>, f: Frame, i: nat): Row
    requires !f.full ==> previous.Some? && i < |previous.value.rows|
    requires !f.full && f.scroll.Some? ==> ValidScroll(f.scroll.value, |previous.value.rows|)
  {
    if f.full then BlankRow(i)
    else if f.scroll.Some? then ScrolledRow(previous.value.rows, f.scroll.value, i)
    else previous.value.rows[i]
  }

  /**
   * An honest frame lists rows of the screen it describes, and every row that differs from
   * what the client already shows there: a blank line for a full frame, the previous screen
   * (scrolled, if it announces a scroll) for an increment.
   */
  ghost predicate Honest(previous: Option<Snapshot>, next: Snapshot, f: Frame) {
    && Describes(f, next)
    && (forall k :: 0 <= k < |f.rows| ==> 0 <= f.rows[k].row < |next.rows| && f.rows[k] == next.rows[f.rows[k].row])
    && (!f.full ==>
          && previous.Some? && SameStructure(previous.value, next) && |previous.value.rows| == |next.rows|
          && (f.scroll.Some? ==> ValidScroll(f.scroll.value, |next.rows|)))
    && (forall i :: 0 <= i < |next.rows| && !Listed(f, i) ==> HashOf(next.rows[i]) == HashOf(Carried(previous, f, i)))
  }

  // ------------------------------------------------------------------ the server is honest

  lemma {:induction false} DifferingRows(next: seq<Row>, expected: seq<Option<Hash>>)
    requires |next| == |expected| && forall i :: 0 <= i < |next| ==> next[i].row == i
    ensures forall k :: 0 <= k < |Differing(next, expected, 0)| ==>
      0 <= Differing(next, expected, 0)[k].row < |next| && Differing(next, expected, 0)[k]
          == next[Differing(next, expected, 0)[k].row]
    ensures forall i :: 0 <= i < |next| && expected[i] != Some(HashOf(next[i])) ==>
      exists k :: 0 <= k < |Differing(next, expected, 0)| && Differing(next, expected, 0)[k].row == i
  {
    var d := Differing(next, expected, 0);
    forall i | 0 <= i < |next| && expected[i] != Some(HashOf(next[i]))
      ensures exists k :: 0 <= k < |d| && d[k].row == i
    {
      assert next[i] in d;
    }
  }

  /** Every frame the server builds from a diff is honest. */
  lemma {:induction false} DifferingExactly(next: seq<Row>, expected: seq<Option<Hash>>, from: nat, i: nat)
    requires from <= i < |next| == |expected| && forall k :: 0 <= k < |next| ==> next[k].row == k
    ensures next[i] in Differing(next, expected, from) <==> expected[i] != Some(HashOf(next[i]))
    ensures forall k :: 0 <= k < from ==> next[k] !in Differing(next, expected, from)
    decreases |next| - from
  {
    if from < i {
      DifferingExactly(next, expected, from + 1, i);
    } else if from + 1 < |next| {
      DifferingExactly(next, expected, from + 1, from + 1);
    }
  }

  /**
   * After a scroll a row is sent exactly if nothing comes to stand there, or what does is not what it shows now; rows
   * outside the scroll come from where they are.
   */
  lemma {:induction false} SentAfterScroll(previous: seq<Row>, next: seq<Row>, s: Scroll, i: nat)
    requires i < |previous| == |next| && ValidScroll(s, |previous|)
    requires forall k :: 0 <= k < |next| ==> next[k].row == k
    ensures
      var from := if s.top <= i <= s.bottom then i + s.lines else i;
      var left := s.top <= i <= s.bottom && !(s.top <= from <= s.bottom);
      next[i] in DirtyAfter(previous, next, s) <==> left || HashOf(previous[from]) != HashOf(next[i])
  {
    DifferingExactly(next, MovedHashes(previous, s), 0, i);
  }

  lemma {:induction false} DiffsAreHonest(previous: Option<Snapshot>, next: Snapshot, d: Diff, f: Frame)
    requires WellFormed(next) && (previous.Some? ==> WellFormed(previous.value))
    requires Exact(previous, next, d)
    requires Describes(f, next) && f.full == d.full && f.rows == d.rows && f.scroll == d.scroll
    ensures Honest(previous, next, f)
  {
    if d.full {
      forall i | 0 <= i < |next.rows| ensures Listed(f, i) { assert f.rows[i].row == i; }
    } else {
      var was := previous.value.rows;
      var expected := if d.scroll.None? then Hashes(was) else MovedHashes(was, d.scroll.value);
      DifferingRows(next.rows, expected);
      forall i | 0 <= i < |next.rows| && !Listed(f, i) ensures HashOf(next.rows[i]) == HashOf(Carried(previous, f, i)) {
        assert expected[i] != Some(HashOf(next.rows[i])) ==> Listed(f, i);
      }
    }
  }

  // ------------------------------------------------------------------ applying an honest frame

  /** `x` is what every update of row `i` writes, and there is one. */
  ghost predicate Only(updates: seq<Row>, i: int, x: Row) {
    && (forall k :: 0 <= k < |updates| && updates[k].row == i ==> updates[k] == x)
    && (exists k :: 0 <= k < |updates| && updates[k].row == i)
  }

  lemma {:induction false} PatchedRow(rows: seq<Row>, updates: seq<Row>, i: nat)
    requires forall k :: 0 <= k < |updates| ==> 0 <= updates[k].row < |rows|
    requires i < |rows|
    ensures forall x :: Only(updates, i, x) ==> Patched(rows, updates)[i] == CleanRow(x)
    ensures (forall k :: 0 <= k < |updates| ==> updates[k].row != i) ==> Patched(rows, updates)[i] == rows[i]
  {
    if updates != [] {
      var n := |updates| - 1;
      PatchedRow(rows, updates[..n], i);
      forall x | Only(updates, i, x) ensures Patched(rows, updates)[i] == CleanRow(x) {
        if updates[n].row != i {
          var k :| 0 <= k < |updates| && updates[k].row == i;
          assert updates[..n][k].row == i;
          assert Only(updates[..n], i, x);
        }
      }
    }
  }

  lemma {:induction false} BaseIsClean(current: Option<State>, previous: Option<Snapshot>, next: Snapshot, f: Frame,
      i: nat)
    requires Honest(previous, next, f) && WellFormed(next) && ValidShape(f) && i < |next.rows|
    requires current.Some? ==> Shaped(current.value)
    requires Refused(current, f).None?
    requires !f.full ==> WellFormed(previous.value) && current.value.rows == CleanRows(previous.value.rows)
    ensures Base(current, f)[i] == CleanRow(Carried(previous, f, i))
  {
  }

  lemma {:induction false} HonestFrameGivesScreen(current: Option<State>, previous: Option<Snapshot>, next: Snapshot,
      f: Frame)
    requires Honest(previous, next, f) && WellFormed(next)
    requires current.Some? ==> Shaped(current.value)
    requires Applied(current, f).applied
    requires !f.full ==> WellFormed(previous.value) && current.value.rows == CleanRows(previous.value.rows)
    ensures Applied(current, f).state == Some(ReplicaOf(f.streamId, f.sequence, next))
  {
    var rows := Patched(Base(current, f), f.rows);
    forall i | 0 <= i < |next.rows| ensures rows[i] == CleanRow(next.rows[i]) {
      PatchedRow(Base(current, f), f.rows, i);
      BaseIsClean(current, previous, next, f, i);
      if Listed(f, i) {
        assert Only(f.rows, i, next.rows[i]);
      } else {
        assert HashOf(next.rows[i]) == HashOf(Carried(previous, f, i));
      }
    }
    assert rows == CleanRows(next.rows);
  }

  // ------------------------------------------------------------------ any history of frames

  type Streams = map<string, seq<Snapshot>>

  /** Frame `n` of a stream takes its reader from screen `n - 1` to screen `n`, counting from one. */
  ghost predicate OfStream(streams: Streams, f: Frame) {
    && f.streamId in streams && 1 <= f.sequence <= |streams[f.streamId]|
    && Honest(if f.sequence >= 2 then Some(streams[f.streamId][f.sequence - 2])
        else None, streams[f.streamId][f.sequence - 1], f)
  }

  ghost predicate Sound(streams: Streams) {
    forall id, n :: id in streams && 0 <= n < |streams[id]| ==> WellFormed(streams[id][n])
  }

  ghost predicate Faithful(streams: Streams, s: Option<State>) {
    s.Some? ==>
      && s.value.streamId in streams && 1 <= s.value.sequence <= |streams[s.value.streamId]|
      && s.value == ReplicaOf(s.value.streamId, s.value.sequence, streams[s.value.streamId][s.value.sequence - 1])
  }

  lemma {:induction false} FrameKeepsFaith(streams: Streams, current: Option<State>, f: Frame)
    requires Sound(streams) && Faithful(streams, current) && OfStream(streams, f)
    requires current.Some? ==> Shaped(current.value)
    ensures Faithful(streams, Applied(current, f).state)
  {
    if Applied(current, f).applied {
      var next := streams[f.streamId][f.sequence - 1];
      var previous := if f.sequence >= 2 then Some(streams[f.streamId][f.sequence - 2]) else None;
      assert WellFormed(next);
      if !f.full {
        assert current.value.sequence == f.sequence - 1;
        assert WellFormed(streams[f.streamId][f.sequence - 2]);
      }
      HonestFrameGivesScreen(current, previous, next, f);
    }
  }

  function Receive(frames: seq<Frame>): (s: Option<State>)
    ensures s.Some? ==> Shaped(s.value)
  {
    if frames == [] then None else Applied(Receive(frames[..|frames| - 1]), frames[|frames| - 1]).state
  }

  /**
   * Replica correctness: after any sequence of honest frames, lost, repeated or reordered at
   * will and from any number of streams, the state labelled (stream, n) is screen n of that
   * stream, cleaned, and row i carries index i.
   */
  lemma {:induction false} ReplicaIsCorrect(streams: Streams, frames: seq<Frame>)
    requires Sound(streams) && forall k :: 0 <= k < |frames| ==> OfStream(streams, frames[k])
    ensures Faithful(streams, Receive(frames))
    ensures Receive(frames).Some? ==> forall i :: 0 <= i < |Receive(frames).value.rows|
                                                  ==> Receive(frames).value.rows[i].row == i
  {
    if frames != [] {
      var n := |frames| - 1;
      ReplicaIsCorrect(streams, frames[..n]);
      FrameKeepsFaith(streams, Receive(frames[..n]), frames[n]);
    }
  }

  /** Within one stream and generation an applied frame only moves forward, and a repeated frame changes nothing. */
  lemma {:induction false} SequenceAdvances(current: Option<State>, f: Frame)
    requires current.Some? ==> Shaped(current.value)
    requires Applied(current, f).applied
    ensures current.Some? && !StreamChanged(current, f)
        ==> current.value.sequence < Applied(current, f).state.value.sequence
    ensures Applied(Applied(current, f).state, f) == Result(Applied(current, f).state, false, false)
  {
  }

  lemma FullOutcome(current: Option<State>, f: Frame)
    requires current.Some? ==> Shaped(current.value)
    requires ValidShape(f) && f.full && forall k :: 0 <= k < |f.rows| ==> ValidRow(f.rows[k], f.viewportRows)
    ensures
      var r := Applied(current, f);
      if StreamChanged(current, f) || f.sequence > current.value.sequence
      then r.state.Some? && r.state.value.streamId == f.streamId && r.state.value.sequence == f.sequence
      else r.state == current
  {
  }

  /**
   * A missed frame is never fatal: whatever has happened, a well-formed full frame is applied exactly
   * if its stream is new or its number is later, and then the client shows its screen.
   */
  lemma {:induction false} FullFrameHeals(streams: Streams, frames: seq<Frame>, f: Frame)
    requires Sound(streams) && OfStream(streams, f) && forall k :: 0 <= k < |frames| ==> OfStream(streams, frames[k])
    requires ValidShape(f) && f.full && forall k :: 0 <= k < |f.rows| ==> ValidRow(f.rows[k], f.viewportRows)
    ensures var current, after := Receive(frames), Receive(frames + [f]);
      after == if StreamChanged(current, f) || f.sequence > current.value.sequence
               then Some(ReplicaOf(f.streamId, f.sequence, streams[f.streamId][f.sequence - 1])) else current
  {
    assert (frames + [f])[..|frames|] == frames;
    ReplicaIsCorrect(streams, frames);
    FrameKeepsFaith(streams, Receive(frames), f);
    FullOutcome(Receive(frames), f);
  }
}
