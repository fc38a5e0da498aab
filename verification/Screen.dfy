/** Structured terminal screens as they cross the wire, and the checks a client makes of them. */
module Screen {
  import opened Common

  datatype Flag =
    | Bold | Dim | Italic | Underline | Blink | Inverse | Invisible | Strikethrough | Overline
    | OtherFlag(name: string)

  /** `"default"`, a JSON number, or any other string. */
  datatype Color = Default | Palette(index: int) | Text(text: string)

  datatype Style = Style(fg: Color, bg: Color, flags: seq<Flag>)
  datatype StyledRun = StyledRun(text: string, style: Style)
  datatype Row = Row(row: int, clearToEnd: bool, wrapped: bool, runs: seq<StyledRun>)

  datatype Mouse = NoMouse | X10 | Vt200 | Drag | AnyMotion | OtherMouse(name: string)
  datatype Modes = Modes(cursorKeys: bool, keypad: bool, paste: bool, mouse: Mouse, focus: bool)
  datatype Cursor = Cursor(row: int, col: int, visible: bool)

  /** Positive `lines` move existing content upward. */
  datatype Scroll = Scroll(top: int, bottom: int, lines: int)

  datatype Frame = Frame(
    streamId: string, generation: string, sequence: int, revision: int, full: bool,
    cols: int, totalRows: int, viewportTop: int, viewportRows: int, alternate: bool, sizeEpoch: int,
    modes: Modes, cursor: Cursor, rows: seq<Row>, scroll: Option<Scroll>)

  datatype State = State(
    streamId: string, generation: string, sequence: int, revision: int, sizeEpoch: int,
    cols: int, totalRows: int, viewportTop: int, viewportRows: int, alternate: bool,
    modes: Modes, cursor: Cursor, rows: seq<Row>)

  datatype Result = Result(state: Option<State>, applied: bool, needsSnapshot: bool)

  const MAX_SAFE := 0x1F_FFFF_FFFF_FFFF

  predicate SafeInteger(n: int) { -MAX_SAFE <= n <= MAX_SAFE }

  predicate ValidCursor(c: Cursor, rows: int, cols: int) { 0 <= c.row < rows && 0 <= c.col < cols }

  predicate ValidShape(f: Frame) {
    && f.streamId != "" && f.generation != ""
    && SafeInteger(f.sequence) && f.sequence > 0
    && SafeInteger(f.revision) && f.revision >= 0
    && f.sizeEpoch >= 0
    && 20 <= f.cols <= 500
    && 5 <= f.totalRows <= 200
    && 5 <= f.viewportRows <= 60
    && f.viewportTop >= 0 && f.viewportTop + f.viewportRows <= f.totalRows
    && ValidCursor(f.cursor, f.viewportRows, f.cols)
    && !f.modes.mouse.OtherMouse?
  }

  predicate IsHexDigit(c: char) { '0' <= c <= '9' || 'a' <= c <= 'f' || 'A' <= c <= 'F' }

  /** `#rrggbb`. */
  predicate IsHexColor(s: string) { |s| == 7 && s[0] == '#' && forall i :: 1 <= i < 7 ==> IsHexDigit(s[i]) }

  predicate ValidColor(c: Color) {
    match c
    case Default => true
    case Palette(index) => 0 <= index <= 255
    case Text(text) => IsHexColor(text)
  }

  predicate ValidStyle(s: Style) {
    ValidColor(s.fg) && ValidColor(s.bg) && forall i :: 0 <= i < |s.flags| ==> !s.flags[i].OtherFlag?
  }

  predicate ValidRow(r: Row, viewportRows: int) {
    && 0 <= r.row < viewportRows && r.clearToEnd
    && |r.runs| <= 1000
    && forall i :: 0 <= i < |r.runs| ==> |r.runs[i].text| <= 20000 && ValidStyle(r.runs[i].style)
  }

  predicate ValidScroll(s: Scroll, rows: int) {
    0 <= s.top < s.bottom < rows && s.lines != 0 && (if s.lines < 0 then -s.lines else s.lines) <= s.bottom - s.top + 1
  }

  function BlankRow(i: int): Row { Row(i, true, false, []) }

  // ------------------------------------------------------------------ sanitizing

  predicate IsControl(c: char) { c < ' ' || '\U{7F}' <= c <= '\U{9F}' }

  function CleanChar(c: char): (r: char)
    ensures !IsControl(r)
    ensures !IsControl(c) ==> r == c
  {
    if IsControl(c) then '\U{FFFD}' else c
  }

  function CleanText(s: string): (r: string)
    ensures |r| == |s|
    ensures forall i :: 0 <= i < |s| ==> r[i] == CleanChar(s[i])
  {
    seq(|s|, i requires 0 <= i < |s| => CleanChar(s[i]))
  }

  function CleanRuns(runs: seq<StyledRun>): seq<StyledRun> {
    seq(|runs|, i requires 0 <= i < |runs| => StyledRun(CleanText(runs[i].text), runs[i].style))
  }

  function CleanRow(r: Row): Row { Row(r.row, true, r.wrapped, CleanRuns(r.runs)) }
}
