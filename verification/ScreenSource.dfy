/**
 * Where the server's screens come from: the grid of its own terminal, row by row, with equal neighbours joined into
 * runs and what is empty at the end of a row left out.
 */
module ScreenSource {
  import opened Common
  import opened Screen
  import opened ScreenDiff

  /** A colour as the terminal keeps it: its own, one of the palette, or red, green and blue in one number. */
  datatype Ink = NoInk | PaletteInk(index: nat) | RgbInk(value: nat)

  /**
   * One cell. A wide character is followed by a cell of no width. `untouched` is what the terminal says of a cell
   * none of whose attributes was ever set.
   */
  datatype Square = Square(width: nat, chars: string, fg: Ink, bg: Ink, attributes: set<Flag>, untouched: bool)

  datatype Line = Line(wrapped: bool, squares: seq<Square>)

  datatype Grid = Grid(
    generation: string, revision: nat, sizeEpoch: nat, cols: nat, lines: seq<Line>, alternate: bool, modes: Modes,
    cursorRow: nat, cursorCol: nat, cursorVisible: bool)

  // ------------------------------------------------------------------ cells

  function HexDigit(d: nat): (c: char)
    requires d < 16
    ensures IsHexDigit(c)
  {
    if d < 10 then ('0' as int + d) as char else ('a' as int + d - 10) as char
  }

  /** A number below 2 to the 24th in six hexadecimal digits, most significant first. */
  function Hex6(n: nat): (s: string)
    ensures |s| == 6 && forall i :: 0 <= i < 6 ==> IsHexDigit(s[i])
  {
    [HexDigit(n / 0x10_0000 % 16), HexDigit(n / 0x1_0000 % 16), HexDigit(n / 0x1000 % 16), HexDigit(n / 0x100 % 16),
     HexDigit(n / 0x10 % 16), HexDigit(n % 16)]
  }

  function ReadColor(ink: Ink): Color {
    match ink
    case NoInk => Default
    case PaletteInk(index) => Palette(index)
    case RgbInk(value) => Text("#" + Hex6(value))
  }

  function Given(attributes: set<Flag>, f: Flag): seq<Flag> { if f in attributes then [f] else [] }

  function TextFlags(a: set<Flag>): seq<Flag>
  {
    Given(a, Bold) + Given(a, Dim) + Given(a, Italic) + Given(a, Underline) + Given(a, Blink)
  }

  function OtherFlags(a: set<Flag>): seq<Flag>
  {
    Given(a, Inverse) + Given(a, Invisible) + Given(a, Strikethrough) + Given(a, Overline)
  }

  function ReadFlags(a: set<Flag>): seq<Flag> { TextFlags(a) + OtherFlags(a) }

  function CellStyle(s: Square): Style { Style(ReadColor(s.fg), ReadColor(s.bg), ReadFlags(s.attributes)) }

  /** What is kept of a cell, and whether it may not be left out. */
  datatype Piece = Piece(text: string, style: Style, meaningful: bool)

  function PieceOf(s: Square): Piece {
    Piece(if s.chars == "" then " " else s.chars, CellStyle(s), s.chars != "" || !s.untouched)
  }

  /** The cells that have a width. */
  function Pieces(squares: seq<Square>): seq<Piece> {
    if squares == [] then []
    else
      var n := |squares| - 1;
      Pieces(squares[..n]) + if squares[n].width == 0 then [] else [PieceOf(squares[n])]
  }

  lemma PiecesSnoc(squares: seq<Square>, n: nat)
    requires n < |squares|
    ensures Pieces(squares[..n + 1])
      == Pieces(squares[..n]) + if squares[n].width == 0 then [] else [PieceOf(squares[n])]
  {
    assert squares[..n + 1][..n] == squares[..n];
  }

  /** ... up to the last meaningful one. */
  function Trimmed(pieces: seq<Piece>): (r: seq<Piece>)
    ensures |r| <= |pieces| && r == pieces[..|r|] && (r != [] ==> r[|r| - 1].meaningful)
    ensures forall i :: |r| <= i < |pieces| ==> !pieces[i].meaningful
  {
    if pieces == [] || pieces[|pieces| - 1].meaningful then pieces else Trimmed(pieces[..|pieces| - 1])
  }

  /** One more piece: part of the last run if it looks the same, else a run of its own. */
  function Joined(runs: seq<StyledRun>, p: Piece): seq<StyledRun> {
    if runs != [] && runs[|runs| - 1].style == p.style
    then runs[|runs| - 1 := StyledRun(runs[|runs| - 1].text + p.text, p.style)]
    else runs + [StyledRun(p.text, p.style)]
  }

  function Runs(pieces: seq<Piece>): seq<StyledRun> {
    if pieces == [] then [] else Joined(Runs(pieces[..|pieces| - 1]), pieces[|pieces| - 1])
  }

  function Visible(squares: seq<Square>, cols: nat): (r: seq<Square>)
    ensures |r| == Min(cols, |squares|) && forall i :: 0 <= i < |r| ==> r[i] == squares[i]
  {
    squares[..Min(cols, |squares|)]
  }

  function RowOf(line: Line, row: nat, cols: nat): Row {
    Row(row, true, line.wrapped, Runs(Trimmed(Pieces(Visible(line.squares, cols)))))
  }

  // ------------------------------------------------------------------ the screen

  /** As many of the last rows as were asked for, from 5 to 60, and never more than there are. */
  function ViewportRows(g: Grid, requested: nat): nat { Max(5, Min(Min(60, |g.lines|), requested)) }

  function ViewportTop(g: Grid, requested: nat): nat { Max(0, |g.lines| - ViewportRows(g, requested)) }

  function CursorOf(g: Grid, requested: nat): Cursor {
    var row, rows := g.cursorRow - ViewportTop(g, requested), ViewportRows(g, requested);
    Cursor(Max(0, Min(rows - 1, row)), Max(0, Min(g.cols - 1, g.cursorCol)), g.cursorVisible && 0 <= row < rows)
  }

  const NO_LINE := Line(false, [])

  function LineAt(g: Grid, i: nat): Line { if i < |g.lines| then g.lines[i] else NO_LINE }

  function RowsFrom(g: Grid, top: nat, n: nat): (rows: seq<Row>)
    ensures |rows| == n && forall i :: 0 <= i < n ==> rows[i] == RowOf(LineAt(g, top + i), i, g.cols)
  {
    if n == 0 then [] else RowsFrom(g, top, n - 1) + [RowOf(LineAt(g, top + n - 1), n - 1, g.cols)]
  }

  function SnapshotOf(g: Grid, requested: nat): Snapshot {
    var n, top := ViewportRows(g, requested), ViewportTop(g, requested);
    Snapshot(g.generation, g.revision, g.sizeEpoch, g.cols, |g.lines|, top, n, g.alternate, g.modes,
             CursorOf(g, requested), RowsFrom(g, top, n))
  }

  // ------------------------------------------------------------------ as the server does it

  /** The cells that are read: those of the columns there are, as far as the line goes. */
  method ReadCells(squares: seq<Square>, cols: nat) returns (cells: seq<Piece>)
    ensures cells == Pieces(Visible(squares, cols))
  {
    ghost var visible := Visible(squares, cols);
    cells := [];
    var col := 0;
    while col < cols && col < |squares|
      invariant 0 <= col <= |visible| && cells == Pieces(visible[..col])
    {
      PiecesSnoc(visible, col);
      if squares[col].width != 0 { cells := cells + [PieceOf(squares[col])]; }
      col := col + 1;
    }
    assert visible[..col] == visible;
  }

  method LengthToKeep(cells: seq<Piece>) returns (length: nat)
    ensures length <= |cells| && cells[..length] == Trimmed(cells)
  {
    length := |cells|;
    assert cells[..length] == cells;
    while length > 0 && !cells[length - 1].meaningful
      invariant 0 <= length <= |cells| && Trimmed(cells[..length]) == Trimmed(cells)
    {
      assert cells[..length][..length - 1] == cells[..length - 1];
      length := length - 1;
    }
  }

  method JoinRuns(kept: seq<Piece>) returns (runs: seq<StyledRun>)
    ensures runs == Runs(kept)
  {
    runs := [];
    for k := 0 to |kept|
      invariant runs == Runs(kept[..k])
    {
      assert kept[..k + 1][..k] == kept[..k];
      var last := |runs| - 1;
      if last >= 0 && runs[last].style == kept[k].style {
        runs := runs[last := StyledRun(runs[last].text + kept[k].text, kept[k].style)];
      } else {
        runs := runs + [StyledRun(kept[k].text, kept[k].style)];
      }
    }
    assert kept[..|kept|] == kept;
  }

  method ExtractRow(line: Line, row: nat, cols: nat) returns (r: Row)
    ensures r == RowOf(line, row, cols)
  {
    var cells := ReadCells(line.squares, cols);
    var length := LengthToKeep(cells);
    var runs := JoinRuns(cells[..length]);
    return Row(row, true, line.wrapped, runs);
  }

  method TakeRows(g: Grid, viewportTop: nat, viewportRows: nat) returns (rows: seq<Row>)
    ensures rows == RowsFrom(g, viewportTop, viewportRows)
  {
    rows := [];
    for row := 0 to viewportRows
      invariant rows == RowsFrom(g, viewportTop, row)
    {
      var next := ExtractRow(LineAt(g, viewportTop + row), row, g.cols);
      rows := rows + [next];
    }
  }

  method TakeSnapshot(g: Grid, requested: nat) returns (s: Snapshot)
    ensures s == SnapshotOf(g, requested)
  {
    var viewportRows := ViewportRows(g, requested);
    var viewportTop := ViewportTop(g, requested);
    var rows := TakeRows(g, viewportTop, viewportRows);
    s := Snapshot(g.generation, g.revision, g.sizeEpoch, g.cols, |g.lines|, viewportTop, viewportRows, g.alternate,
                  g.modes, CursorOf(g, requested), rows);
  }
}
