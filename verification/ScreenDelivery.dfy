/** Which frames a client applies, and that frames which come in order bring it up to date. */
module ScreenDelivery {
  import opened Common
  import opened Screen
  import opened ScreenProjection
  import opened ScreenDiff
  import opened ScreenReplica

  /** Of the present stream, and not newer than what is shown. */
  predicate Stale(current: Option<State>, f: Frame) {
    current.Some? && !StreamChanged(current, f) && f.sequence <= current.value.sequence
  }

  /** An increment goes on from exactly what is shown: the same stream and structure, and the number before. */
  predicate Continues(current: Option<State>, f: Frame) {
    && current.Some? && !StreamChanged(current, f) && !StructureChanged(current.value, f)
    && current.value.sequence + 1 == f.sequence
    && (f.scroll.Some? ==> ProperScroll(f.scroll.value, f.viewportRows))
  }

  /** A scroll of at least two rows of the screen, by some lines but no more than it has rows. */
  predicate ProperScroll(s: Scroll, rows: int) {
    var height := s.bottom - s.top + 1;
    0 <= s.top && 2 <= height && s.bottom + 1 <= rows && s.lines != 0 && -height <= s.lines <= height
  }

  /** A frame of a named stream and generation, of 20 to 500 columns, with all its screen and cursor in place. */
  predicate ProperShape(f: Frame) {
    && f.streamId != "" && f.generation != "" && 1 <= f.sequence <= MAX_SAFE && 0 <= f.revision <= MAX_SAFE
    && 0 <= f.sizeEpoch && 20 <= f.cols <= 500 && 5 <= f.viewportRows <= 60 && f.totalRows <= 200
    && 0 <= f.viewportTop <= f.totalRows - f.viewportRows
    && 0 <= f.cursor.row <= f.viewportRows - 1 && 0 <= f.cursor.col <= f.cols - 1
    && f.modes.mouse in {NoMouse, X10, Vt200, Drag, AnyMotion}
  }

  predicate HexLike(c: char) { '0' <= c <= '9' || 'A' <= c <= 'F' || 'a' <= c <= 'f' }

  predicate ProperColor(c: Color) {
    match c
    case Default => true
    case Palette(index) => 0 <= index < 256
    case Text(s) => |s| == 7 && s[0] == '#' && forall c :: c in s[1..] ==> HexLike(c)
  }

  predicate ProperStyle(s: Style) {
    ProperColor(s.fg) && ProperColor(s.bg) && forall f :: f in s.flags ==> !f.OtherFlag?
  }

  /** A whole row of the screen, in at most a thousand runs of at most twenty thousand characters. */
  predicate ProperRow(r: Row, viewportRows: int) {
    && 0 <= r.row <= viewportRows - 1 && r.clearToEnd && |r.runs| <= 1000
    && forall run :: run in r.runs ==> |run.text| <= 20000 && ProperStyle(run.style)
  }

  predicate Proper(f: Frame) { ProperShape(f) && forall r :: r in f.rows ==> ProperRow(r, f.viewportRows) }

  lemma HexIs(s: string)
    ensures IsHexColor(s) <==> |s| == 7 && s[0] == '#' && forall c :: c in s[1..] ==> HexLike(c)
  {
    if |s| == 7 {
      var tail := s[1..];
      forall i | 1 <= i < 7 ensures s[i] in tail { assert s[i] == tail[i - 1]; }
      forall c | c in tail ensures exists i :: 1 <= i < 7 && s[i] == c {
        var k :| 0 <= k < |tail| && tail[k] == c;
        assert s[k + 1] == c;
      }
    }
  }

  lemma ColorIs(c: Color)
    ensures ValidColor(c) <==> ProperColor(c)
  {
    if c.Text? { HexIs(c.text); }
  }

  lemma StyleIs(s: Style)
    ensures ValidStyle(s) <==> ProperStyle(s)
  {
    ColorIs(s.fg);
    ColorIs(s.bg);
    if ProperStyle(s) {
      forall i | 0 <= i < |s.flags| ensures !s.flags[i].OtherFlag? { assert s.flags[i] in s.flags; }
    }
  }

  lemma RowIs(r: Row, viewportRows: int)
    ensures ValidRow(r, viewportRows) <==> ProperRow(r, viewportRows)
  {
    forall i | 0 <= i < |r.runs| ensures ValidStyle(r.runs[i].style) <==> ProperStyle(r.runs[i].style) {
      StyleIs(r.runs[i].style);
    }
    if ProperRow(r, viewportRows) {
      forall i | 0 <= i < |r.runs| ensures |r.runs[i].text| <= 20000 && ValidStyle(r.runs[i].style) {
        assert r.runs[i] in r.runs;
      }
    }
  }

  /** The checks a client makes let through exactly the proper frames. */
  lemma ProperIs(f: Frame)
    ensures ValidShape(f) <==> ProperShape(f)
    ensures Proper(f) <==> ValidShape(f) && forall k :: 0 <= k < |f.rows| ==> ValidRow(f.rows[k], f.viewportRows)
  {
    forall k | 0 <= k < |f.rows| ensures ValidRow(f.rows[k], f.viewportRows) <==> ProperRow(f.rows[k], f.viewportRows) {
      RowIs(f.rows[k], f.viewportRows);
    }
    if ValidShape(f) && forall k :: 0 <= k < |f.rows| ==> ValidRow(f.rows[k], f.viewportRows) {
      forall r | r in f.rows ensures ProperRow(r, f.viewportRows) {
        var k :| 0 <= k < |f.rows| && f.rows[k] == r;
      }
    }
    if Proper(f) {
      forall k | 0 <= k < |f.rows| ensures ValidRow(f.rows[k], f.viewportRows) { assert f.rows[k] in f.rows; }
    }
  }


  /**
   * A frame is applied exactly if it is proper and full and not stale, or proper and continues what is shown. Of the
   * others, only well-shaped stale ones that would fit are passed over; all the rest ask for a snapshot.
   */
  lemma FrameOutcome(current: Option<State>, f: Frame)
    requires current.Some? ==> Shaped(current.value)
    ensures
      var r := Applied(current, f);
      && (r.applied <==> Proper(f) && if f.full then !Stale(current, f) else Continues(current, f))
      && (r.needsSnapshot <==>
            !r.applied
            && !(ProperShape(f) && Stale(current, f) && (f.full || !StructureChanged(current.value, f))))
      && (r.applied ==> r.state.Some? && r.state.value.streamId == f.streamId && r.state.value.sequence == f.sequence)
  {
    ProperIs(f);
  }

  /** Two screens have one structure exactly if they differ in no more than what an increment can carry. */
  lemma SameStructureIs(a: Snapshot, b: Snapshot)
    ensures SameStructure(a, b)
      <==> b.(revision := a.revision, modes := a.modes, cursor := a.cursor, rows := a.rows) == a
  {
  }

  /** The client shows screen `n` of that stream. */
  predicate Shows(current: Option<State>, streamId: string, n: int) {
    current.Some? && current.value.streamId == streamId && current.value.sequence == n
  }

  lemma {:induction false} HonestContinues(streams: Streams, current: Option<State>, f: Frame)
    requires Sound(streams) && Faithful(streams, current) && OfStream(streams, f) && !f.full
    ensures Continues(current, f) <==> Shows(current, f.streamId, f.sequence - 1)
  {
    if Shows(current, f.streamId, f.sequence - 1) {
      assert WellFormed(streams[f.streamId][f.sequence - 1]);
    }
  }

  /**
   * Of honest streams, whatever has come before, a proper increment is applied exactly if the client shows the screen
   * before it; then it shows the increment's own. If it shows that or a later one already, nothing happens; in every
   * other case it asks for a snapshot.
   */
  lemma {:induction false} IncrementApplies(streams: Streams, frames: seq<Frame>, f: Frame)
    requires Sound(streams) && OfStream(streams, f) && forall k :: 0 <= k < |frames| ==> OfStream(streams, frames[k])
    requires Proper(f) && !f.full
    ensures
      var current := Receive(frames);
      var r := Applied(current, f);
      && (r.applied <==> Shows(current, f.streamId, f.sequence - 1))
      && (r.applied ==>
            Receive(frames + [f]) == Some(ReplicaOf(f.streamId, f.sequence, streams[f.streamId][f.sequence - 1])))
      && (!r.applied ==> Receive(frames + [f]) == current)
      && (r.needsSnapshot <==> !r.applied && !(Stale(current, f) && !StructureChanged(current.value, f)))
  {
    assert (frames + [f])[..|frames|] == frames;
    ReplicaIsCorrect(streams, frames);
    HonestContinues(streams, Receive(frames), f);
    FrameOutcome(Receive(frames), f);
    FrameKeepsFaith(streams, Receive(frames), f);
  }

  /** Frames `n + 1`, `n + 2`, ... of one stream, each of them an increment or full. */
  ghost predicate InOrder(streams: Streams, id: string, n: int, frames: seq<Frame>) {
    forall k :: 0 <= k < |frames| ==>
      OfStream(streams, frames[k]) && Proper(frames[k]) && frames[k].streamId == id && frames[k].sequence == n + 1 + k
  }

  ghost predicate Honestly(streams: Streams, frames: seq<Frame>) {
    forall k :: 0 <= k < |frames| ==> OfStream(streams, frames[k])
  }

  lemma HonestlySnoc(streams: Streams, before: seq<Frame>, f: Frame)
    requires Honestly(streams, before) && OfStream(streams, f)
    ensures Honestly(streams, before + [f])
  {
  }

  lemma InOrderInit(streams: Streams, id: string, n: int, frames: seq<Frame>)
    requires InOrder(streams, id, n, frames) && frames != []
    ensures var k := |frames| - 1;
      && InOrder(streams, id, n, frames[..k]) && OfStream(streams, frames[k]) && Proper(frames[k])
      && frames[k].streamId == id && frames[k].sequence == n + 1 + k
  {
  }

  /** One more frame in order. */
  lemma {:induction false} NextInOrder(streams: Streams, before: seq<Frame>, f: Frame)
    requires Sound(streams) && OfStream(streams, f) && Honestly(streams, before)
    requires Proper(f) && Shows(Receive(before), f.streamId, f.sequence - 1)
    ensures Shows(Receive(before + [f]), f.streamId, f.sequence) && Honestly(streams, before + [f])
  {
    HonestlySnoc(streams, before, f);
    if f.full {
      assert (before + [f])[..|before|] == before;
      FrameOutcome(Receive(before), f);
    } else {
      IncrementApplies(streams, before, f);
    }
  }

  lemma LastApart(before: seq<Frame>, rest: seq<Frame>)
    requires rest != []
    ensures before + rest == before + rest[..|rest| - 1] + [rest[|rest| - 1]]
  {
  }

  lemma {:induction false} InOrderMovesOn(streams: Streams, before: seq<Frame>, id: string, n: int, rest: seq<Frame>)
    requires Sound(streams) && Honestly(streams, before) && Shows(Receive(before), id, n)
    requires InOrder(streams, id, n, rest)
    ensures Shows(Receive(before + rest), id, n + |rest|) && Honestly(streams, before + rest)
  {
    if rest == [] {
      assert before + rest == before;
    } else {
      var k := |rest| - 1;
      InOrderInit(streams, id, n, rest);
      InOrderMovesOn(streams, before, id, n, rest[..k]);
      LastApart(before, rest);
      NextInOrder(streams, before + rest[..k], rest[k]);
    }
  }

  lemma {:induction false} StartShows(streams: Streams, before: seq<Frame>, start: Frame)
    requires Honestly(streams, before) && OfStream(streams, start) && Proper(start) && start.full
    requires !Stale(Receive(before), start)
    ensures Shows(Receive(before + [start]), start.streamId, start.sequence) && Honestly(streams, before + [start])
  {
    assert (before + [start])[..|before|] == before;
    FrameOutcome(Receive(before), start);
  }

  lemma {:induction false} ShownIsScreen(streams: Streams, frames: seq<Frame>, id: string, n: int)
    requires Sound(streams) && Honestly(streams, frames) && Shows(Receive(frames), id, n)
    ensures id in streams && 1 <= n <= |streams[id]| && Receive(frames) == Some(ReplicaOf(id, n, streams[id][n - 1]))
  {
    ReplicaIsCorrect(streams, frames);
  }

  /**
   * Catching up: whatever has been lost before, once a full frame of a new stream, or of a later number, arrives and
   * the frames after it come in order, the client shows the last of them, cleaned.
   */
  lemma {:induction false} InOrderIsCurrent(streams: Streams, before: seq<Frame>, start: Frame, rest: seq<Frame>)
    requires Sound(streams) && Honestly(streams, before)
    requires OfStream(streams, start) && Proper(start) && start.full && !Stale(Receive(before), start)
    requires InOrder(streams, start.streamId, start.sequence, rest)
    ensures
      var n := start.sequence + |rest|;
      && n <= |streams[start.streamId]|
      && Receive(before + [start] + rest) == Some(ReplicaOf(start.streamId, n, streams[start.streamId][n - 1]))
  {
    StartShows(streams, before, start);
    InOrderMovesOn(streams, before + [start], start.streamId, start.sequence, rest);
    ShownIsScreen(streams, before + [start] + rest, start.streamId, start.sequence + |rest|);
  }
}
