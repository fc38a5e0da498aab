/** From the server's terminal to the user's: every cell of its grid, through runs, frames and control sequences. */
module ScreenGrid {
  import opened Common
  import opened Screen
  import opened ScreenProjection
  import opened ScreenDiff
  import opened ScreenReplica
  import opened ScreenPrinter
  import opened ScreenReader
  import opened ScreenTerminal
  import opened ScreenEndToEnd
  import opened ScreenSource
  import Delivery = ScreenDelivery

  // ------------------------------------------------------------------ what a cell of the grid shows

  function ShadeOfInk(ink: Ink): Shade {
    match ink
    case NoInk => Plain
    case PaletteInk(index) => Indexed(index)
    case RgbInk(value) => Rgb(value / 0x1_0000, value / 0x100 % 0x100, value % 0x100)
  }

  function SquareCell(s: Square): Cell {
    Cell(CleanChar(if s.chars == "" then ' ' else s.chars[0]),
         Look(ShadeOfInk(s.fg), ShadeOfInk(s.bg), s.attributes))
  }

  predicate SimpleInk(ink: Ink) {
    match ink
    case NoInk => true
    case PaletteInk(index) => index <= 255
    case RgbInk(value) => value < 0x100_0000
  }

  /** One cell wide, of one character at most; without any attribute if it says so. */
  predicate Simple(s: Square) {
    && s.width == 1 && |s.chars| <= 1 && SimpleInk(s.fg) && SimpleInk(s.bg)
    && (forall f :: f in s.attributes ==> !f.OtherFlag?)
    && (s.untouched ==> s.fg == NoInk && s.bg == NoInk && s.attributes == {})
  }

  predicate AllSimple(squares: seq<Square>) { forall i :: 0 <= i < |squares| ==> Simple(squares[i]) }

  /** A grid as the server keeps them: of a size a terminal may have. */
  ghost predicate SimpleGrid(g: Grid) {
    && g.generation != "" && g.revision <= MAX_SAFE && 20 <= g.cols <= 500 && 5 <= |g.lines| <= 200
    && !g.modes.mouse.OtherMouse? && forall i :: 0 <= i < |g.lines| ==> AllSimple(g.lines[i].squares)
  }

  /** A row of the grid, blank where its line has no cell. */
  function Shown(line: Line, cols: nat): (cells: seq<Cell>)
    ensures |cells| == cols
  {
    seq(cols, i requires 0 <= i < cols =>
          if i < |line.squares| then SquareCell(line.squares[i]) else Cell(' ', PLAIN))
  }

  // ------------------------------------------------------------------ colours and flags

  lemma HexDigitIs(d: nat)
    requires d < 16
    ensures HexDigitValue(HexDigit(d)) == d
  {
  }

  lemma HexPairIs(n: nat, m: nat)
    requires m == n % 0x100
    ensures HexPair(HexDigit(n / 0x10 % 16), HexDigit(n % 16)) == m
  {
    HexDigitIs(n / 0x10 % 16);
    HexDigitIs(n % 16);
    assert n == 0x10 * (n / 0x10) + n % 16 && n / 0x10 == 16 * (n / 0x10 / 16) + n / 0x10 % 16;
  }

  /** Its six digits say again which colour it is. */
  lemma {:induction false} InkIsRead(ink: Ink)
    requires SimpleInk(ink)
    ensures ShadeOf(ReadColor(ink)) == ShadeOfInk(ink) && ValidColor(ReadColor(ink))
  {
    if ink.RgbInk? {
      var v := ink.value;
      var s := "#" + Hex6(v);
      HexPairIs(v / 0x1_0000, v / 0x1_0000);
      HexPairIs(v / 0x100, v / 0x100 % 0x100);
      HexPairIs(v, v % 0x100);
      assert v / 0x10_0000 == v / 0x1_0000 / 0x10 && v / 0x1000 == v / 0x100 / 0x10;
      assert forall i :: 1 <= i < 7 ==> s[i] == Hex6(v)[i - 1];
    }
  }

  lemma TextFlagsAre(a: set<Flag>, f: Flag)
    ensures f in TextFlags(a) <==> f in a && (f.Bold? || f.Dim? || f.Italic? || f.Underline? || f.Blink?)
  {
  }

  lemma OtherFlagsAre(a: set<Flag>, f: Flag)
    ensures f in OtherFlags(a) <==> f in a && (f.Inverse? || f.Invisible? || f.Strikethrough? || f.Overline?)
  {
  }

  lemma ReadFlagsAre(a: set<Flag>, f: Flag)
    ensures f in ReadFlags(a) <==> f in a && !f.OtherFlag?
  {
    TextFlagsAre(a, f);
    OtherFlagsAre(a, f);
  }

  lemma {:induction false} FlagsAreRead(s: Square)
    requires forall f :: f in s.attributes ==> !f.OtherFlag?
    ensures FlagSet(CellStyle(s).flags) == s.attributes
    ensures forall i :: 0 <= i < |CellStyle(s).flags| ==> !CellStyle(s).flags[i].OtherFlag?
  {
    var flags := ReadFlags(s.attributes);
    forall f ensures f in flags <==> f in s.attributes { ReadFlagsAre(s.attributes, f); }
    forall i | 0 <= i < |flags| ensures !flags[i].OtherFlag? { assert flags[i] in flags; }
  }

  lemma StyleIsRead(s: Square)
    requires Simple(s)
    ensures LookOf(CellStyle(s)) == SquareCell(s).look && ValidStyle(CellStyle(s))
  {
    InkIsRead(s.fg);
    InkIsRead(s.bg);
    FlagsAreRead(s);
  }

  // ------------------------------------------------------------------ runs

  function PieceCells(p: Piece): seq<Cell> { RunCells(StyledRun(p.text, p.style)) }

  /** What pieces show, one after the other. */
  function Expanded(pieces: seq<Piece>): seq<Cell> {
    if pieces == [] then [] else Expanded(pieces[..|pieces| - 1]) + PieceCells(pieces[|pieces| - 1])
  }

  lemma RowCellsSnoc(runs: seq<StyledRun>, run: StyledRun)
    ensures RowCells(runs + [run]) == RowCells(runs) + RunCells(run)
  {
    assert (runs + [run])[..|runs|] == runs;
  }

  lemma TextJoins(a: string, b: string, style: Style)
    ensures RunCells(StyledRun(a + b, style)) == RunCells(StyledRun(a, style)) + RunCells(StyledRun(b, style))
  {
  }

  /** Joining a piece to the last run or not, the row shows it next. */
  lemma {:induction false} JoinedShows(runs: seq<StyledRun>, p: Piece)
    ensures RowCells(Joined(runs, p)) == RowCells(runs) + PieceCells(p)
  {
    if runs != [] && runs[|runs| - 1].style == p.style {
      var n := |runs| - 1;
      var longer := StyledRun(runs[n].text + p.text, p.style);
      assert runs[n := longer] == runs[..n] + [longer];
      RowCellsSnoc(runs[..n], longer);
      TextJoins(runs[n].text, p.text, p.style);
      Assoc(RowCells(runs[..n]), RunCells(runs[n]), PieceCells(p));
    } else {
      RowCellsSnoc(runs, StyledRun(p.text, p.style));
    }
  }

  lemma {:induction false} RunsShow(pieces: seq<Piece>)
    ensures RowCells(Runs(pieces)) == Expanded(pieces)
  {
    if pieces != [] {
      var n := |pieces| - 1;
      RunsShow(pieces[..n]);
      JoinedShows(Runs(pieces[..n]), pieces[n]);
    }
  }

  /** No two neighbours look the same, so no row could be said in fewer runs. */
  predicate Maximal(runs: seq<StyledRun>) {
    && (forall i :: 0 <= i < |runs| ==> runs[i].text != "")
    && (forall i :: 0 <= i < |runs| - 1 ==> runs[i].style != runs[i + 1].style)
  }

  lemma {:induction false} RunsAreMaximal(pieces: seq<Piece>)
    requires forall i :: 0 <= i < |pieces| ==> pieces[i].text != ""
    ensures Maximal(Runs(pieces)) && |Runs(pieces)| <= |pieces|
  {
    if pieces != [] {
      var n := |pieces| - 1;
      RunsAreMaximal(pieces[..n]);
    }
  }

  // ------------------------------------------------------------------ one row

  lemma PieceShows(s: Square)
    requires Simple(s)
    ensures PieceCells(PieceOf(s)) == [SquareCell(s)] && |PieceOf(s).text| == 1
    ensures !PieceOf(s).meaningful ==> SquareCell(s) == Cell(' ', PLAIN)
  {
    StyleIsRead(s);
  }

  function SquareCells(squares: seq<Square>): (cells: seq<Cell>)
    ensures |cells| == |squares| && forall i :: 0 <= i < |cells| ==> cells[i] == SquareCell(squares[i])
  {
    if squares == [] then []
    else SquareCells(squares[..|squares| - 1]) + [SquareCell(squares[|squares| - 1])]
  }

  function PieceMap(squares: seq<Square>): (pieces: seq<Piece>)
    ensures |pieces| == |squares| && forall i :: 0 <= i < |pieces| ==> pieces[i] == PieceOf(squares[i])
  {
    if squares == [] then [] else PieceMap(squares[..|squares| - 1]) + [PieceOf(squares[|squares| - 1])]
  }

  lemma {:induction false} PiecesAre(squares: seq<Square>)
    requires AllSimple(squares)
    ensures Pieces(squares) == PieceMap(squares)
  {
    if squares != [] {
      PiecesAre(squares[..|squares| - 1]);
      PiecesEnd(squares);
    }
  }

  lemma PiecesEnd(squares: seq<Square>)
    requires squares != [] && squares[|squares| - 1].width != 0
    ensures Pieces(squares) == Pieces(squares[..|squares| - 1]) + [PieceOf(squares[|squares| - 1])]
  {
  }

  lemma ExpandedEnd(pieces: seq<Piece>, p: Piece)
    ensures Expanded(pieces + [p]) == Expanded(pieces) + PieceCells(p)
  {
    assert (pieces + [p])[..|pieces|] == pieces;
  }

  lemma {:induction false} PiecesShow(squares: seq<Square>)
    requires AllSimple(squares)
    ensures Expanded(Pieces(squares)) == SquareCells(squares)
  {
    if squares != [] {
      var n := |squares| - 1;
      PiecesShow(squares[..n]);
      PiecesEnd(squares);
      ExpandedEnd(Pieces(squares[..n]), PieceOf(squares[n]));
      PieceShows(squares[n]);
    }
  }

  lemma {:induction false} ExpandedPrefix(pieces: seq<Piece>, n: nat)
    requires n <= |pieces| == |Expanded(pieces)| && forall i :: 0 <= i < |pieces| ==> |pieces[i].text| == 1
    ensures Expanded(pieces[..n]) == Expanded(pieces)[..n]
  {
    if n < |pieces| {
      var last := |pieces| - 1;
      assert pieces[..last][..n] == pieces[..n];
      ExpandedPrefix(pieces[..last], n);
    } else {
      assert pieces[..n] == pieces;
    }
  }

  /** The kept pieces show the row up to where only blanks follow. */
  lemma {:induction false} KeptShow(squares: seq<Square>)
    requires AllSimple(squares)
    ensures
      var kept := Trimmed(Pieces(squares));
      && |kept| <= |squares| && Expanded(kept) == SquareCells(squares)[..|kept|]
      && forall i :: |kept| <= i < |squares| ==> SquareCell(squares[i]) == Cell(' ', PLAIN)
  {
    var pieces := Pieces(squares);
    var kept := Trimmed(pieces);
    PiecesAre(squares);
    PiecesShow(squares);
    forall i | 0 <= i < |squares|
      ensures |pieces[i].text| == 1 && (!pieces[i].meaningful ==> SquareCell(squares[i]) == Cell(' ', PLAIN))
    {
      PieceShows(squares[i]);
    }
    ExpandedPrefix(pieces, |kept|);
  }

  lemma {:induction false} KeptRowShows(line: Line, cols: nat, squares: seq<Square>, kept: seq<Piece>)
    requires AllSimple(squares) && squares == Visible(line.squares, cols) && kept == Trimmed(Pieces(squares))
    ensures |Expanded(kept)| <= cols && Expanded(kept) + Blank(cols - |Expanded(kept)|) == Shown(line, cols)
  {
    KeptShow(squares);
    LineIsShown(line, cols, squares, |kept|, Expanded(kept));
  }

  /** A row of the server's screen shows its line cell by cell, and blanks where the line has none. */
  lemma {:induction false} RowShows(line: Line, row: nat, cols: nat)
    requires AllSimple(line.squares)
    ensures
      var runs := RowOf(line, row, cols).runs;
      |RowCells(runs)| <= cols && LineCells(runs, cols) == Shown(line, cols)
  {
    var kept := Trimmed(Pieces(Visible(line.squares, cols)));
    KeptRowShows(line, cols, Visible(line.squares, cols), kept);
    RunsShow(kept);
  }

  /** It does so in as few runs as can be, none of them empty. */
  lemma {:induction false} RowIsMaximal(line: Line, row: nat, cols: nat)
    requires AllSimple(line.squares)
    ensures var runs := RowOf(line, row, cols).runs; Maximal(runs) && |runs| <= cols
  {
    var squares := Visible(line.squares, cols);
    var kept := Trimmed(Pieces(squares));
    PiecesAre(squares);
    forall i | 0 <= i < |kept| ensures kept[i].text != "" { PieceShows(squares[i]); }
    RunsAreMaximal(kept);
  }

  lemma ShownAt(line: Line, cols: nat, n: nat, i: nat)
    requires n <= Min(cols, |line.squares|) && i < cols
    requires forall i :: n <= i < Min(cols, |line.squares|) ==> SquareCell(line.squares[i]) == Cell(' ', PLAIN)
    ensures Shown(line, cols)[i] == if i < n then SquareCell(line.squares[i]) else Cell(' ', PLAIN)
  {
  }

  lemma PaddedAt(cells: seq<Cell>, cols: nat, i: nat)
    requires |cells| <= cols && i < cols
    ensures (cells + Blank(cols - |cells|))[i] == if i < |cells| then cells[i] else Cell(' ', PLAIN)
  {
  }

  lemma LineIsShown(line: Line, cols: nat, squares: seq<Square>, n: nat, cells: seq<Cell>)
    requires squares == Visible(line.squares, cols) && n <= |squares| && cells == SquareCells(squares)[..n]
    requires forall i :: n <= i < |squares| ==> SquareCell(squares[i]) == Cell(' ', PLAIN)
    ensures |cells| <= cols && cells + Blank(cols - |cells|) == Shown(line, cols)
  {
    var all := cells + Blank(cols - |cells|);
    forall i | 0 <= i < cols ensures all[i] == Shown(line, cols)[i] {
      PaddedAt(cells, cols, i);
      ShownAt(line, cols, n, i);
    }
  }

  // ------------------------------------------------------------------ what the client accepts

  lemma {:induction false} CleanShows(runs: seq<StyledRun>)
    ensures RowCells(CleanRuns(runs)) == RowCells(runs)
  {
    if runs != [] {
      var n := |runs| - 1;
      CleanShows(runs[..n]);
      assert CleanRuns(runs)[..n] == CleanRuns(runs[..n]);
      assert RunCells(CleanRuns(runs)[n]) == RunCells(runs[n]);
    }
  }

  lemma {:induction false} TextFits(runs: seq<StyledRun>, i: nat)
    requires i < |runs|
    ensures |runs[i].text| <= |RowCells(runs)|
  {
    var n := |runs| - 1;
    if i < n { TextFits(runs[..n], i); }
  }

  lemma {:induction false} RunsAreStyled(pieces: seq<Piece>)
    requires forall i :: 0 <= i < |pieces| ==> Delivery.ProperStyle(pieces[i].style)
    ensures forall i :: 0 <= i < |Runs(pieces)| ==> Delivery.ProperStyle(Runs(pieces)[i].style)
  {
    if pieces != [] { RunsAreStyled(pieces[..|pieces| - 1]); }
  }

  lemma {:induction false} RowIsStyled(line: Line, row: nat, cols: nat)
    requires AllSimple(line.squares)
    ensures var runs := RowOf(line, row, cols).runs;
      forall i :: 0 <= i < |runs| ==> Delivery.ProperStyle(runs[i].style)
  {
    var squares := Visible(line.squares, cols);
    var kept := Trimmed(Pieces(squares));
    PiecesAre(squares);
    forall i | 0 <= i < |kept| ensures Delivery.ProperStyle(kept[i].style) {
      StyleIsRead(squares[i]);
      Delivery.StyleIs(CellStyle(squares[i]));
    }
    RunsAreStyled(kept);
  }

  /** A row of the server's screen passes the client's checks. */
  lemma {:induction false} RowIsProper(line: Line, row: nat, cols: nat, viewportRows: nat)
    requires AllSimple(line.squares) && row < viewportRows && cols <= 500
    ensures Delivery.ProperRow(RowOf(line, row, cols), viewportRows)
  {
    var r := RowOf(line, row, cols);
    RowShows(line, row, cols);
    RowIsMaximal(line, row, cols);
    RowIsStyled(line, row, cols);
    forall run | run in r.runs ensures |run.text| <= 20000 && Delivery.ProperStyle(run.style) {
      var i :| 0 <= i < |r.runs| && r.runs[i] == run;
      TextFits(r.runs, i);
    }
  }

  lemma SnapshotIsSound(g: Grid, requested: nat)
    ensures WellFormed(SnapshotOf(g, requested))
  {
  }

  /** Every honest frame of a screen of the server's passes the client's checks. */
  lemma {:induction false} FramesAreProper(g: Grid, requested: nat, previous: Option<Snapshot>, f: Frame)
    requires SimpleGrid(g) && Honest(previous, SnapshotOf(g, requested), f)
    requires f.streamId != "" && 1 <= f.sequence <= MAX_SAFE
    ensures Delivery.Proper(f)
  {
    var s := SnapshotOf(g, requested);
    forall r | r in f.rows ensures Delivery.ProperRow(r, f.viewportRows) {
      var k :| 0 <= k < |f.rows| && f.rows[k] == r;
      RowIsProper(LineAt(g, s.viewportTop + r.row), r.row, g.cols, s.viewportRows);
    }
  }

  // ------------------------------------------------------------------ from grid to grid

  /** The grids a stream was made from, one for each number, and how many rows its reader asked for. */
  datatype Source = Source(grids: seq<Grid>, requested: nat)

  type Sources = map<string, Source>

  function ScreensOf(sources: Sources): Streams {
    map id | id in sources ::
      seq(|sources[id].grids|, n requires 0 <= n < |sources[id].grids| =>
            SnapshotOf(sources[id].grids[n], sources[id].requested))
  }

  ghost predicate AllSimpleGrids(sources: Sources) {
    forall id, n :: id in sources && 0 <= n < |sources[id].grids| ==> SimpleGrid(sources[id].grids[n])
  }

  lemma ScreensAreSound(sources: Sources)
    ensures Sound(ScreensOf(sources))
  {
  }

  /** `u` shows the last rows of the grid, as many as it has, cell by cell, with its modes and its cursor. */
  ghost predicate ShowsGrid(u: Terminal, g: Grid, requested: nat) {
    var n, top := ViewportRows(g, requested), ViewportTop(g, requested);
    && |u.cells| == n && top + n == |g.lines|
    && (forall i :: 0 <= i < n ==> u.cells[i] == Shown(g.lines[top + i], g.cols))
    && u.modes * DECIDED == WantedModes(g.modes)
    && (25 in u.modes <==> g.cursorVisible && top <= g.cursorRow < top + n)
    && (25 in u.modes ==> u.row == g.cursorRow - top && u.col == Min(g.cursorCol, g.cols - 1))
  }

  lemma CleanedRowShows(line: Line, row: nat, cols: nat, cleaned: Row)
    requires AllSimple(line.squares) && cleaned == CleanRow(RowOf(line, row, cols))
    ensures |RowCells(cleaned.runs)| <= cols && LineCells(cleaned.runs, cols) == Shown(line, cols)
  {
    RowShows(line, row, cols);
    CleanShows(RowOf(line, row, cols).runs);
  }

  lemma RowAt(g: Grid, requested: nat, screen: Snapshot, i: nat)
    requires screen == SnapshotOf(g, requested) && i < |screen.rows|
    ensures screen.rows[i] == RowOf(LineAt(g, ViewportTop(g, requested) + i), i, g.cols)
  {
  }

  lemma LinesAreSimple(g: Grid, i: nat)
    requires SimpleGrid(g)
    ensures AllSimple(LineAt(g, i).squares)
  {
  }

  /** Row `i` of the screen, cleaned, shows its line of the grid. */
  lemma {:induction false} RowDisplayed(g: Grid, requested: nat, screen: Snapshot, i: nat)
    requires SimpleGrid(g) && screen == SnapshotOf(g, requested) && i < |screen.rows|
    ensures
      var runs := CleanRow(screen.rows[i]).runs;
      && |RowCells(runs)| <= g.cols
      && LineCells(runs, g.cols) == Shown(LineAt(g, ViewportTop(g, requested) + i), g.cols)
  {
    RowAt(g, requested, screen, i);
    LinesAreSimple(g, ViewportTop(g, requested) + i);
    CleanedRowShows(LineAt(g, ViewportTop(g, requested) + i), i, g.cols, CleanRow(screen.rows[i]));
  }

  lemma {:induction false} ReplicaFits(g: Grid, requested: nat, screen: Snapshot, s: State)
    requires SimpleGrid(g) && screen == SnapshotOf(g, requested) && s == ReplicaOf(s.streamId, s.sequence, screen)
    ensures Fits(s)
  {
    forall i | 0 <= i < s.viewportRows ensures |RowCells(RowRuns(s, i))| <= s.cols {
      RowDisplayed(g, requested, screen, i);
    }
  }

  lemma {:induction false} DisplayedLine(u: Terminal, g: Grid, requested: nat, screen: Snapshot, i: nat)
    requires SimpleGrid(g) && screen == SnapshotOf(g, requested) && Displays(u, screen) && i < |u.cells|
    ensures ViewportTop(g, requested) + i < |g.lines|
    ensures u.cells[i] == Shown(g.lines[ViewportTop(g, requested) + i], g.cols)
  {
    RowDisplayed(g, requested, screen, i);
    assert DisplaysRow(u.cells[i], screen.rows[i], screen.cols);
  }

  lemma CursorIsOf(g: Grid, requested: nat, c: Cursor)
    requires c == CursorOf(g, requested) && g.cols > 0
    ensures
      var n, top := ViewportRows(g, requested), ViewportTop(g, requested);
      && (c.visible <==> g.cursorVisible && top <= g.cursorRow < top + n)
      && (c.visible ==> c.row == g.cursorRow - top && c.col == Min(g.cursorCol, g.cols - 1))
  {
  }

  lemma SnapshotParts(g: Grid, requested: nat, screen: Snapshot)
    requires screen == SnapshotOf(g, requested)
    ensures |screen.rows| == ViewportRows(g, requested) && screen.modes == g.modes && screen.cols == g.cols
    ensures screen.cursor == CursorOf(g, requested)
  {
  }

  lemma {:induction false} DisplayedIsShown(u: Terminal, g: Grid, requested: nat, screen: Snapshot)
    requires SimpleGrid(g) && screen == SnapshotOf(g, requested) && Displays(u, screen)
    ensures ShowsGrid(u, g, requested)
  {
    SnapshotParts(g, requested, screen);
    CursorIsOf(g, requested, screen.cursor);
    forall i | 0 <= i < |u.cells| ensures u.cells[i] == Shown(g.lines[ViewportTop(g, requested) + i], g.cols) {
      DisplayedLine(u, g, requested, screen, i);
    }
  }

  /** The screens the streams hold are those of the grids. */
  ghost predicate Taken(sources: Sources, streams: Streams) {
    && streams.Keys == sources.Keys
    && forall id, n :: id in sources && 0 <= n < |sources[id].grids| ==>
         |streams[id]| == |sources[id].grids|
         && streams[id][n] == SnapshotOf(sources[id].grids[n], sources[id].requested)
  }

  lemma ScreensAreTaken(sources: Sources)
    ensures Taken(sources, ScreensOf(sources)) && Sound(ScreensOf(sources))
    ensures forall id :: id in sources ==> |ScreensOf(sources)[id]| == |sources[id].grids|
  {
    ScreensAreSound(sources);
  }

  /** A state that is a screen of one of these streams fits. */
  lemma {:induction false} FaithfulFits(sources: Sources, streams: Streams, s: State)
    requires AllSimpleGrids(sources) && Taken(sources, streams) && Faithful(streams, Some(s))
    requires forall id :: id in sources ==> |streams[id]| == |sources[id].grids|
    ensures s.streamId in sources && 1 <= s.sequence <= |sources[s.streamId].grids| && Fits(s)
  {
    var source := sources[s.streamId];
    var g := source.grids[s.sequence - 1];
    assert streams[s.streamId][s.sequence - 1] == SnapshotOf(g, source.requested);
    ReplicaFits(g, source.requested, streams[s.streamId][s.sequence - 1], s);
  }

  lemma {:induction false} StreamIsShown(sources: Sources, streams: Streams, id: string, n: nat, u: Terminal)
    requires AllSimpleGrids(sources) && Taken(sources, streams) && id in sources && n < |sources[id].grids|
    requires n < |streams[id]| && Displays(u, streams[id][n])
    ensures ShowsGrid(u, sources[id].grids[n], sources[id].requested)
  {
    DisplayedIsShown(u, sources[id].grids[n], sources[id].requested, streams[id][n]);
  }

  /** The client's state is a screen taken of the server's grid of its number, and fits. */
  lemma {:induction false} ReceivedFits(sources: Sources, frames: seq<Frame>, s: State)
    requires AllSimpleGrids(sources) && forall k :: 0 <= k < |frames| ==> OfStream(ScreensOf(sources), frames[k])
    requires Receive(frames) == Some(s)
    ensures s.streamId in sources && 1 <= s.sequence <= |sources[s.streamId].grids| && Fits(s)
  {
    ScreensAreTaken(sources);
    ReplicaIsCorrect(ScreensOf(sources), frames);
    FaithfulFits(sources, ScreensOf(sources), s);
  }

  lemma {:induction false} PrintedShowsGrid(sources: Sources, streams: Streams, s: State, u: Terminal)
    requires AllSimpleGrids(sources) && Taken(sources, streams) && s.streamId in sources
    requires 1 <= s.sequence <= |sources[s.streamId].grids| && s.sequence <= |streams[s.streamId]|
    requires Displays(u, streams[s.streamId][s.sequence - 1])
    ensures ShowsGrid(u, sources[s.streamId].grids[s.sequence - 1], sources[s.streamId].requested)
  {
    StreamIsShown(sources, streams, s.streamId, s.sequence - 1, u);
  }

  /**
   * From grid to grid: after any honest frames of screens taken of the server's terminals, in any order, printing the
   * state on any terminal of its size shows the grid it was taken of, cell by cell, as far as it was asked for.
   */
  lemma {:induction false} UserSeesServerGrid(sources: Sources, frames: seq<Frame>, t: Terminal, s: State, u: Terminal)
    requires AllSimpleGrids(sources) && forall k :: 0 <= k < |frames| ==> OfStream(ScreensOf(sources), frames[k])
    requires Receive(frames) == Some(s) && Sized(t, s) && s.viewportRows >= 1 && s.cols >= 1
    requires u == ObeyAll(t, Parse(Render(ScreenTokens(s))))
    ensures s.streamId in sources && 1 <= s.sequence <= |sources[s.streamId].grids|
    ensures ShowsGrid(u, sources[s.streamId].grids[s.sequence - 1], sources[s.streamId].requested)
  {
    ReceivedFits(sources, frames, s);
    ScreensAreTaken(sources);
    UserSeesServerScreen(ScreensOf(sources), frames, t, s, u);
    PrintedShowsGrid(sources, ScreensOf(sources), s, u);
  }

  /** The state printed there is of some size: every screen taken of such a grid is. */
  lemma {:induction false} ReceivedHasSize(sources: Sources, frames: seq<Frame>)
    requires AllSimpleGrids(sources) && forall k :: 0 <= k < |frames| ==> OfStream(ScreensOf(sources), frames[k])
    requires Receive(frames).Some?
    ensures Receive(frames).value.viewportRows >= 5 && Receive(frames).value.cols >= 20
  {
    ReceivedIsChecked(frames);
  }
}
