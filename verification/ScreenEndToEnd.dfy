/** From the server's screen to the user's: frames in, characters out, cells shown. */
module ScreenEndToEnd {
  import opened Common
  import opened Screen
  import opened ScreenProjection
  import opened ScreenDiff
  import opened ScreenReplica
  import opened ScreenPrinter
  import opened ScreenReader
  import opened ScreenTerminal

  /** What the checks of every applied frame leave behind. */
  predicate Checked(s: State) {
    && Shaped(s) && s.viewportRows >= 5 && s.cols >= 20
    && ValidCursor(s.cursor, s.viewportRows, s.cols) && !s.modes.mouse.OtherMouse?
    && ValidRows(s.rows, s.viewportRows)
  }

  predicate ValidRows(rows: seq<Row>, n: int)
  {
    forall i :: 0 <= i < |rows| ==> rows[i].row == i && ValidRow(rows[i], n)
  }

  lemma {:induction false} PatchedIsValid(rows: seq<Row>, updates: seq<Row>)
    requires ValidRows(rows, |rows|)
    requires forall k :: 0 <= k < |updates| ==> ValidRow(updates[k], |rows|) && 0 <= updates[k].row < |rows|
    ensures ValidRows(Patched(rows, updates), |rows|)
  {
    if updates != [] {
      PatchedIsValid(rows, updates[..|updates| - 1]);
    }
  }

  /** Whatever a frame holds, a state that passed the checks is followed by one that passes them. */
  lemma {:induction false} AppliedIsChecked(current: Option<State>, f: Frame)
    requires current.Some? ==> Checked(current.value)
    ensures Applied(current, f).state.Some? ==> Checked(Applied(current, f).state.value)
  {
    if Applied(current, f).applied {
      var base := Base(current, f);
      assert ValidRows(base, |base|);
      PatchedIsValid(base, f.rows);
    }
  }

  lemma {:induction false} ReceivedIsChecked(frames: seq<Frame>)
    ensures Receive(frames).Some? ==> Checked(Receive(frames).value)
  {
    if frames != [] {
      ReceivedIsChecked(frames[..|frames| - 1]);
      AppliedIsChecked(Receive(frames[..|frames| - 1]), frames[|frames| - 1]);
    }
  }

  /**
   * `u` shows every cell of the server's rows, control characters replaced, and the cursor exactly where the
   * server has it.
   */
  predicate Displays(u: Terminal, screen: Snapshot) {
    && |u.cells| == |screen.rows|
    && (forall i :: 0 <= i < |u.cells| ==> DisplaysRow(u.cells[i], screen.rows[i], screen.cols))
    && u.modes * DECIDED == WantedModes(screen.modes)
    && (25 in u.modes <==> screen.cursor.visible)
    && (screen.cursor.visible ==> u.row == screen.cursor.row && u.col == screen.cursor.col)
  }

  predicate DisplaysRow(line: seq<Cell>, row: Row, cols: int) {
    var runs := CleanRow(row).runs;
    |RowCells(runs)| <= cols && line == LineCells(runs, cols)
  }

  lemma {:induction false} PrintedIsDisplayed(t: Terminal, s: State, screen: Snapshot, u: Terminal)
    requires Checked(s) && Fits(s) && Sized(t, s) && s == ReplicaOf(s.streamId, s.sequence, screen)
    requires u == ObeyAll(t, Parse(Render(ScreenTokens(s))))
    ensures Displays(u, screen)
  {
    PrintReadRoundTrip(t, s);
  }

  lemma ReceivedScreen(streams: Streams, frames: seq<Frame>, s: State) returns (screen: Snapshot)
    requires Sound(streams) && Receive(frames) == Some(s)
    requires forall k :: 0 <= k < |frames| ==> OfStream(streams, frames[k])
    ensures s.streamId in streams && 1 <= s.sequence <= |streams[s.streamId]|
    ensures screen == streams[s.streamId][s.sequence - 1]
    ensures s == ReplicaOf(s.streamId, s.sequence, screen) && Checked(s)
  {
    ReplicaIsCorrect(streams, frames);
    ReceivedIsChecked(frames);
    screen := streams[s.streamId][s.sequence - 1];
  }

  /**
   * After any honest frames, in any order, printing the state on any terminal of its size
   * displays the screen the state is labelled with.
   */
  lemma {:induction false} UserSeesServerScreen(streams: Streams, frames: seq<Frame>, t: Terminal, s: State,
      u: Terminal)
    requires Sound(streams) && forall k :: 0 <= k < |frames| ==> OfStream(streams, frames[k])
    requires Receive(frames) == Some(s) && Fits(s) && Sized(t, s)
    requires u == ObeyAll(t, Parse(Render(ScreenTokens(s))))
    ensures s.streamId in streams && 1 <= s.sequence <= |streams[s.streamId]|
    ensures Displays(u, streams[s.streamId][s.sequence - 1])
  {
    var screen := ReceivedScreen(streams, frames, s);
    PrintedIsDisplayed(t, s, screen, u);
  }
}
