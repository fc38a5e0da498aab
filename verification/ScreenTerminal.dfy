/**
 * A small terminal that obeys what `ScreenPrinter` prints, and the round trip: CUP, EL and SGR
 * as in sections 8.3.21, 8.3.41 and 8.3.117 of ECMA-48, and the DEC private modes. EL leaves a
 * line in the plain erased state, characters are one cell wide, and a character past the last
 * column is dropped.
 */
module ScreenTerminal {
  import opened Common
  import opened Screen
  import opened ScreenPrinter
  import opened ScreenReader

  datatype Shade = Plain | Indexed(index: nat) | Rgb(red: nat, green: nat, blue: nat)
  datatype Look = Look(fg: Shade, bg: Shade, flags: set<Flag>)
  datatype Cell = Cell(c: char, look: Look)
  datatype Terminal = Terminal(cells: seq<seq<Cell>>, row: nat, col: nat, pen: Look, modes: set<nat>)

  const PLAIN := Look(Plain, Plain, {})

  function Blank(n: nat): seq<Cell> { seq(n, _ => Cell(' ', PLAIN)) }

  function Shaded(look: Look, background: bool, s: Shade): Look
  {
    if background then look.(bg := s) else look.(fg := s)
  }

  /** One selector of SGR other than the extended colours. */
  function Select(code: nat, look: Look): Look {
    match code
    case 0 => PLAIN
    case 1 => look.(flags := look.flags + {Bold})
    case 2 => look.(flags := look.flags + {Dim})
    case 3 => look.(flags := look.flags + {Italic})
    case 4 => look.(flags := look.flags + {Underline})
    case 5 => look.(flags := look.flags + {Blink})
    case 7 => look.(flags := look.flags + {Inverse})
    case 8 => look.(flags := look.flags + {Invisible})
    case 9 => look.(flags := look.flags + {Strikethrough})
    case 53 => look.(flags := look.flags + {Overline})
    case 39 => look.(fg := Plain)
    case 49 => look.(bg := Plain)
    case _ =>
      if 30 <= code <= 37 then look.(fg := Indexed(code - 30))
      else if 40 <= code <= 47 then look.(bg := Indexed(code - 40))
      else if 90 <= code <= 97 then look.(fg := Indexed(code - 82))
      else if 100 <= code <= 107 then look.(bg := Indexed(code - 92))
      else look
  }

  predicate Extended(code: nat) { code == 38 || code == 48 }

  function Sgr(codes: seq<nat>, look: Look): Look {
    if codes == [] then look
    else if Extended(codes[0]) && |codes| >= 3 && codes[1] == 5
        then Sgr(codes[3..], Shaded(look, codes[0] == 48, Indexed(codes[2])))
    else if Extended(codes[0]) && |codes| >= 5 && codes[1] == 2 then
      Sgr(codes[5..], Shaded(look, codes[0] == 48, Rgb(codes[2], codes[3], codes[4])))
    else Sgr(codes[1..], Select(codes[0], look))
  }

  /** A one-based coordinate, kept on the screen; zero means one. */
  function Place(n: nat, size: nat): nat
    requires size >= 1
  {
    Min(Max(n, 1), size) - 1
  }

  function Obey(t: Terminal, token: Token): Terminal {
    match token
    case Print(c) =>
      if t.row < |t.cells| && t.col < |t.cells[t.row]| then
        t.(cells := t.cells[t.row := t.cells[t.row][t.col := Cell(c, t.pen)]], col := t.col + 1)
      else t
    // What a control character by itself does is left open; here it loses the place and the rendition.
    case Control(c) => t.(row := 0, col := 0, pen := PLAIN)
    case Csi(private, params, final) =>
      if private && final == 'h' && |params| == 1 then t.(modes := t.modes + {params[0]})
      else if private && final == 'l' && |params| == 1 then t.(modes := t.modes - {params[0]})
      else if !private && final == 'm' then t.(pen := Sgr(params, t.pen))
      else if !private && final == 'H' && |params| == 2 && |t.cells| >= 1 && |t.cells[0]| >= 1 then
        t.(row := Place(params[0], |t.cells|), col := Place(params[1], |t.cells[0]|))
      else if !private && final == 'K' && params == [2] && t.row < |t.cells| then
        t.(cells := t.cells[t.row := Blank(|t.cells[t.row]|)])
      else t
  }

  function ObeyAll(t: Terminal, ts: seq<Token>): Terminal {
    if ts == [] then t else Obey(ObeyAll(t, ts[..|ts| - 1]), ts[|ts| - 1])
  }

  lemma ObeySnoc(t: Terminal, a: seq<Token>, last: Token)
    ensures ObeyAll(t, a + [last]) == Obey(ObeyAll(t, a), last)
  {
    assert (a + [last])[..|a|] == a;
  }

  lemma {:induction false} ObeyConcat(t: Terminal, a: seq<Token>, b: seq<Token>)
    ensures ObeyAll(t, a + b) == ObeyAll(ObeyAll(t, a), b)
  {
    if b == [] {
      assert a + b == a;
    } else {
      var n := |b| - 1;
      ObeyConcat(t, a, b[..n]);
      Assoc(a, b[..n], [b[n]]);
      assert b == b[..n] + [b[n]];
      ObeySnoc(t, a + b[..n], b[n]);
    }
  }

  // ------------------------------------------------------------------ what a state means

  function ShadeOf(c: Color): Shade {
    match c
    case Default => Plain
    case Palette(index) => Indexed(Clamp(index, 0, 255))
    case Text(s) =>
      if IsHexColor(s) then Rgb(HexPair(s[1], s[2]), HexPair(s[3], s[4]), HexPair(s[5], s[6])) else Plain
  }

  function HexPair(a: char, b: char): nat
    requires IsHexDigit(a) && IsHexDigit(b)
  {
    16 * HexDigitValue(a) + HexDigitValue(b)
  }

  function FlagSet(flags: seq<Flag>): set<Flag> { set f | f in flags && !f.OtherFlag? }

  function LookOf(s: Style): Look { Look(ShadeOf(s.fg), ShadeOf(s.bg), FlagSet(s.flags)) }

  function RunCells(run: StyledRun): seq<Cell> {
    seq(|run.text|, i requires 0 <= i < |run.text| => Cell(CleanChar(run.text[i]), LookOf(run.style)))
  }

  function RowCells(runs: seq<StyledRun>): seq<Cell> {
    if runs == [] then [] else RowCells(runs[..|runs| - 1]) + RunCells(runs[|runs| - 1])
  }

  function LineCells(runs: seq<StyledRun>, cols: nat): seq<Cell>
    requires |RowCells(runs)| <= cols
  {
    RowCells(runs) + Blank(cols - |RowCells(runs)|)
  }

  predicate Fits(s: State) {
    s.viewportRows >= 1 && s.cols >= 1 && forall i :: 0 <= i < s.viewportRows ==> |RowCells(RowRuns(s, i))| <= s.cols
  }

  predicate Sized(t: Terminal, s: State) {
    |t.cells| == s.viewportRows && forall i :: 0 <= i < |t.cells| ==> |t.cells[i]| == s.cols
  }

  /** The private modes a state decides, and which of them it wants set. */
  const DECIDED: set<nat> := {1, 66, 2004, 9, 1000, 1002, 1003, 1006, 1004}

  function WantedModes(m: Modes): set<nat> {
    (if m.cursorKeys then {1} else {}) + (if m.keypad then {66} else {}) + (if m.paste then {2004} else {})
    + (if MouseMode(m.mouse).Some? then {MouseMode(m.mouse).value} else {})
    + (if m.mouse != NoMouse then {1006} else {}) + (if m.focus then {1004} else {})
  }

  // ------------------------------------------------------------------ SGR says what the style says

  lemma {:induction false} SgrConcat(a: seq<nat>, b: seq<nat>, look: Look)
    requires forall i :: 0 <= i < |a| ==> !Extended(a[i])
    ensures Sgr(a + b, look) == Sgr(b, Sgr(a, look))
  {
    if a == [] {
      assert a + b == b;
    } else {
      assert (a + b)[1..] == a[1..] + b;
      SgrConcat(a[1..], b, Select(a[0], look));
    }
  }

  lemma SgrFlag(f: Flag, look: Look)
    ensures Sgr(if FlagCode(f) != 0 then [FlagCode(f)] else [], look) == look.(flags := look.flags + if f.OtherFlag?
        then {} else {f})
  {
    if FlagCode(f) != 0 { assert [FlagCode(f)][1..] == []; }
  }

  lemma {:induction false} SgrFlags(flags: seq<Flag>, look: Look)
    ensures forall i :: 0 <= i < |FlagCodes(flags)| ==> !Extended(FlagCodes(flags)[i])
    ensures Sgr(FlagCodes(flags), look) == look.(flags := look.flags + FlagSet(flags))
  {
    if flags == [] {
      assert FlagSet(flags) == {};
    } else {
      var n := |flags| - 1;
      var last := if FlagCode(flags[n]) != 0 then [FlagCode(flags[n])] else [];
      SgrFlags(flags[..n], look);
      SgrConcat(FlagCodes(flags[..n]), last, look);
      FlagSetSnoc(flags);
      SgrFlag(flags[n], Sgr(FlagCodes(flags[..n]), look));
    }
  }

  lemma FlagSetSnoc(flags: seq<Flag>)
    requires flags != []
    ensures FlagSet(flags) == FlagSet(flags[..|flags| - 1]) + if flags[|flags| - 1].OtherFlag? then {}
        else {flags[|flags| - 1]}
  {
    var n := |flags| - 1;
    assert flags == flags[..n] + [flags[n]];
  }

  lemma HexStep(s: string, n: nat)
    requires n < |s| && forall i :: 0 <= i < |s| ==> IsHexDigit(s[i])
    ensures HexValue(s[..n + 1]) == 16 * HexValue(s[..n]) + HexDigitValue(s[n])
  {
    assert s[..n + 1][..n] == s[..n];
  }

  lemma {:induction false} HexSplit(s: string)
    requires |s| == 6 && forall i :: 0 <= i < 6 ==> IsHexDigit(s[i])
    ensures HexValue(s) == 0x10000 * HexPair(s[0], s[1]) + 0x100 * HexPair(s[2], s[3]) + HexPair(s[4], s[5])
  {
    HexStep(s, 0);
    HexStep(s, 1);
    HexStep(s, 2);
    HexStep(s, 3);
    HexStep(s, 4);
    HexStep(s, 5);
    assert s[..0] == "" && s[..6] == s;
  }

  lemma Bytes(r: nat, g: nat, b: nat)
    requires r < 256 && g < 256 && b < 256
    ensures var v := 0x10000 * r + 0x100 * g + b; v / 0x10000 % 256 == r && v / 0x100 % 256 == g && v % 256 == b
  {
    var v := 0x10000 * r + 0x100 * g + b;
    assert v / 0x100 == 0x100 * r + g;
  }

  lemma {:induction false} HexCodes(s: string, background: bool)
    requires IsHexColor(s)
    ensures ColorCodes(Text(s), background)
      == [if background then 48 else 38, 2, HexPair(s[1], s[2]), HexPair(s[3], s[4]), HexPair(s[5], s[6])]
  {
    HexSplit(s[1..]);
    Bytes(HexPair(s[1], s[2]), HexPair(s[3], s[4]), HexPair(s[5], s[6]));
  }

  lemma {:induction false} SgrColor(c: Color, background: bool, rest: seq<nat>, look: Look)
    ensures Sgr(ColorCodes(c, background) + rest, look) == Sgr(rest, Shaded(look, background, ShadeOf(c)))
  {
    var codes := ColorCodes(c, background);
    assert (codes + rest)[|codes|..] == rest;
    if c.Text? && IsHexColor(c.text) {
      HexCodes(c.text, background);
    } else if |codes| == 1 {
      assert Select(codes[0], look) == Shaded(look, background, ShadeOf(c));
    } else {
      assert |codes| == 3 && codes[1] == 5;
    }
  }

  lemma {:induction false} SgrStyle(s: Style, look: Look)
    ensures Sgr(StyleToken(s).params, look) == LookOf(s)
  {
    var flags, fg, bg := FlagCodes(s.flags), ColorCodes(s.fg, false), ColorCodes(s.bg, true);
    SgrFlags(s.flags, PLAIN);
    assert [0] + flags + fg + bg == [0] + (flags + (fg + bg));
    SgrConcat([0], flags + (fg + bg), look);
    assert [0][1..] == [];
    SgrConcat(flags, fg + bg, PLAIN);
    assert {} + FlagSet(s.flags) == FlagSet(s.flags);
    SgrColor(s.fg, false, bg, PLAIN.(flags := FlagSet(s.flags)));
    assert bg + [] == bg;
    SgrColor(s.bg, true, [], PLAIN.(flags := FlagSet(s.flags), fg := ShadeOf(s.fg)));
  }

  // ------------------------------------------------------------------ lines

  /** `t` with `line` written on its row from the left, the rest of the row blank. */
  predicate Written(t: Terminal, line: seq<Cell>, cols: nat) {
    && t.row < |t.cells| && t.col == |line| <= cols
    && t.cells[t.row] == line + Blank(cols - |line|)
  }

  function WriteOn(t: Terminal, line: seq<Cell>, cols: nat): Terminal
    requires t.row < |t.cells| && |line| <= cols
  {
    t.(cells := t.cells[t.row := line + Blank(cols - |line|)], col := |line|)
  }

  lemma {:induction false} ObeyPrints(t: Terminal, s: string, line: seq<Cell>, cols: nat)
    requires Written(t, line, cols) && |line| + |s| <= cols
    ensures ObeyAll(t, Prints(s)) == WriteOn(t, line + Painted(s, t.pen), cols)
  {
    if s == "" {
      assert line + [] == line;
      assert t.cells[t.row := t.cells[t.row]] == t.cells;
    } else {
      var n := |s| - 1;
      assert Prints(s) == Prints(s[..n]) + [Print(s[n])];
      ObeySnoc(t, Prints(s[..n]), Print(s[n]));
      ObeyPrints(t, s[..n], line, cols);
      PrintOne(t, line + Painted(s[..n], t.pen), Cell(s[n], t.pen), cols);
      assert line + Painted(s, t.pen) == line + Painted(s[..n], t.pen) + [Cell(s[n], t.pen)];
    }
  }

  function Painted(s: string, look: Look): seq<Cell> { seq(|s|, i requires 0 <= i < |s| => Cell(s[i], look)) }

  lemma PrintOne(t: Terminal, line: seq<Cell>, cell: Cell, cols: nat)
    requires t.row < |t.cells| && |line| < cols && cell.look == t.pen
    ensures Obey(WriteOn(t, line, cols), Print(cell.c)) == WriteOn(t, line + [cell], cols)
  {
    var row := line + Blank(cols - |line|);
    assert row[|line| := cell] == line + [cell] + Blank(cols - |line| - 1);
    var now := t.cells[t.row := row];
    assert now[t.row := line + [cell] + Blank(cols - |line| - 1)]
        == t.cells[t.row := line + [cell] + Blank(cols - |line| - 1)];
  }

  /** The rendition after `runs`. */
  function PenAfter(pen: Look, runs: seq<StyledRun>): Look {
    if runs == [] then pen else LookOf(runs[|runs| - 1].style)
  }

  lemma {:induction false} ObeyRun(t: Terminal, run: StyledRun, line: seq<Cell>, cols: nat)
    requires Written(t, line, cols) && |line| + |run.text| <= cols
    ensures ObeyAll(t, RunTokens(run)) == WriteOn(t, line + RunCells(run), cols).(pen := LookOf(run.style))
  {
    var text := CleanText(run.text);
    ObeyConcat(t, [StyleToken(run.style)], Prints(text));
    StyleRead(t, run.style);
    ObeyPrints(t.(pen := LookOf(run.style)), text, line, cols);
    assert Painted(text, LookOf(run.style)) == RunCells(run);
  }

  lemma {:induction false} StyleRead(t: Terminal, style: Style)
    ensures ObeyAll(t, [StyleToken(style)]) == t.(pen := LookOf(style))
  {
    ObeyOne(t, StyleToken(style));
    SgrStyle(style, t.pen);
  }

  lemma {:induction false} ObeyRuns(t: Terminal, runs: seq<StyledRun>, cols: nat)
    requires Written(t, [], cols) && |RowCells(runs)| <= cols
    ensures ObeyAll(t, RunsTokens(runs)) == WriteOn(t, RowCells(runs), cols).(pen := PenAfter(t.pen, runs))
  {
    if runs == [] {
      assert [] + Blank(cols) == Blank(cols);
      assert t.cells[t.row := t.cells[t.row]] == t.cells;
    } else {
      var n := |runs| - 1;
      var before := RowCells(runs[..n]);
      ObeyConcat(t, RunsTokens(runs[..n]), RunTokens(runs[n]));
      ObeyRuns(t, runs[..n], cols);
      var u := WriteOn(t, before, cols).(pen := PenAfter(t.pen, runs[..n]));
      ObeyRun(u, runs[n], before, cols);
      var now := before + RunCells(runs[n]) + Blank(cols - |RowCells(runs)|);
      assert u.cells[t.row := now] == t.cells[t.row := now];
    }
  }

  // ------------------------------------------------------------------ the whole screen

  /** The rows above `rows` show `s`, the others what they showed before. */
  function Drawn(cells: seq<seq<Cell>>, s: State, rows: nat): (r: seq<seq<Cell>>)
    requires Fits(s) && rows <= |cells| == s.viewportRows
    ensures |r| == |cells|
  {
    seq(|cells|, i requires 0 <= i < |cells| => if i < rows then LineCells(RowRuns(s, i), s.cols) else cells[i])
  }

  lemma {:induction false} ObeyHead(t: Terminal, row: nat, cols: nat)
    requires cols >= 1 && row < |t.cells| && forall i :: 0 <= i < |t.cells| ==> |t.cells[i]| == cols
    ensures ObeyAll(t, HeadTokens(row)) == t.(cells := t.cells[row := Blank(cols)], row := row, col := 0)
  {
    var head := HeadTokens(row);
    assert head == [] + [head[0]] + [head[1]];
    ObeySnoc(t, [], head[0]);
    ObeySnoc(t, [head[0]], head[1]);
    assert [] + [head[0]] == [head[0]];
  }

  lemma {:induction false} ObeyLine(t: Terminal, row: nat, runs: seq<StyledRun>, cols: nat)
    requires cols >= 1 && row < |t.cells| && forall i :: 0 <= i < |t.cells| ==> |t.cells[i]| == cols
    requires |RowCells(runs)| <= cols
    ensures ObeyAll(t, LineTokens(row, runs)).cells == t.cells[row := LineCells(runs, cols)]
    ensures ObeyAll(t, LineTokens(row, runs)).modes == t.modes
  {
    ObeyConcat(t, HeadTokens(row), RunsTokens(runs));
    ObeyHead(t, row, cols);
    var u := t.(cells := t.cells[row := Blank(cols)], row := row, col := 0);
    assert [] + Blank(cols) == Blank(cols);
    ObeyRuns(u, runs, cols);
    assert u.cells[row := LineCells(runs, cols)] == t.cells[row := LineCells(runs, cols)];
  }

  lemma DrawnStep(cells: seq<seq<Cell>>, s: State, rows: nat)
    requires Fits(s) && 1 <= rows <= |cells| == s.viewportRows
    ensures Drawn(cells, s, rows - 1)[rows - 1 := LineCells(RowRuns(s, rows - 1), s.cols)] == Drawn(cells, s, rows)
  {
  }

  lemma {:induction false} ObeyNextLine(t: Terminal, sofar: seq<Token>, s: State, rows: nat)
    requires Fits(s) && Sized(t, s) && 1 <= rows <= s.viewportRows
    requires ObeyAll(t, sofar).cells == Drawn(t.cells, s, rows - 1) && ObeyAll(t, sofar).modes == t.modes
    ensures ObeyAll(t, sofar + LineTokens(rows - 1, RowRuns(s, rows - 1))).cells == Drawn(t.cells, s, rows)
    ensures ObeyAll(t, sofar + LineTokens(rows - 1, RowRuns(s, rows - 1))).modes == t.modes
  {
    ObeyConcat(t, sofar, LineTokens(rows - 1, RowRuns(s, rows - 1)));
    DrawnStep(t.cells, s, rows);
    ObeyLine(ObeyAll(t, sofar), rows - 1, RowRuns(s, rows - 1), s.cols);
  }

  lemma {:induction false} ObeyLines(t: Terminal, s: State, rows: nat)
    requires Fits(s) && Sized(t, s) && rows <= s.viewportRows
    ensures ObeyAll(t, LinesTokens(s, rows)).cells == Drawn(t.cells, s, rows)
    ensures ObeyAll(t, LinesTokens(s, rows)).modes == t.modes
  {
    if rows == 0 {
      assert Drawn(t.cells, s, 0) == t.cells;
    } else {
      var sofar := LinesTokens(s, rows - 1);
      ObeyLines(t, s, rows - 1);
      ObeyNextLine(t, sofar, s, rows);
    }
  }

  /** What a run of mode switches does to the set of modes. */
  function Switched(modes: set<nat>, ts: seq<Token>): set<nat> {
    if ts == [] then modes
    else
      var m := Switched(modes, ts[..|ts| - 1]);
      var last := ts[|ts| - 1];
      if !last.Csi? || |last.params| != 1 then m
      else if last.final == 'h' then m + {last.params[0]}
      else m - {last.params[0]}
  }

  predicate Switches(ts: seq<Token>) {
    forall i :: 0 <= i < |ts| ==> ts[i].Csi? && ts[i].private && |ts[i].params| == 1
                                  && (ts[i].final == 'h' || ts[i].final == 'l')
  }

  lemma {:induction false} ObeySwitches(t: Terminal, ts: seq<Token>)
    requires Switches(ts)
    ensures ObeyAll(t, ts) == t.(modes := Switched(t.modes, ts))
  {
    if ts != [] { ObeySwitches(t, ts[..|ts| - 1]); }
  }

  lemma SwitchedSnoc(modes: set<nat>, a: seq<Token>, mode: nat, on: bool)
    ensures Switched(modes, a + [Switch(mode, on)]) == if on then Switched(modes, a) + {mode}
        else Switched(modes, a) - {mode}
  {
    assert (a + [Switch(mode, on)])[..|a|] == a;
  }

  lemma {:induction false} SwitchedConcat(modes: set<nat>, a: seq<Token>, b: seq<Token>)
    ensures Switched(modes, a + b) == Switched(Switched(modes, a), b)
  {
    if b == [] {
      assert a + b == a;
    } else {
      SwitchedConcat(modes, a, b[..|b| - 1]);
      assert (a + b)[..|a + b| - 1] == a + b[..|b| - 1];
    }
  }

  function Chosen(on: bool, mode: nat): set<nat> { if on then {mode} else {} }

  lemma {:induction false} KeysSwitched(modes: set<nat>, m: Modes)
    ensures Switched(modes, KeyTokens(m)) == modes - {1, 66, 2004} + Chosen(m.cursorKeys, 1) + Chosen(m.keypad, 66)
        + Chosen(m.paste, 2004)
  {
    var a, b := [Switch(1, m.cursorKeys)], [Switch(1, m.cursorKeys), Switch(66, m.keypad)];
    SwitchedSnoc(modes, [], 1, m.cursorKeys);
    SwitchedSnoc(modes, a, 66, m.keypad);
    SwitchedSnoc(modes, b, 2004, m.paste);
    assert [] + a == a && a + [Switch(66, m.keypad)] == b && b + [Switch(2004, m.paste)] == KeyTokens(m);
  }

  lemma {:induction false} MouseSwitched(modes: set<nat>, m: Mouse)
    ensures Switched(modes, MOUSE_OFF + MouseTokens(m)) ==
      modes - {9, 1000, 1002, 1003} + if MouseMode(m).Some? then {MouseMode(m).value} else {}
  {
    var a, b, c := [Switch(9, false)], [Switch(9, false), Switch(1000, false)],
        [Switch(9, false), Switch(1000, false), Switch(1002, false)];
    SwitchedSnoc(modes, [], 9, false);
    SwitchedSnoc(modes, a, 1000, false);
    SwitchedSnoc(modes, b, 1002, false);
    SwitchedSnoc(modes, c, 1003, false);
    assert [] + a == a && a + [Switch(1000, false)] == b && b + [Switch(1002, false)] == c
        && c + [Switch(1003, false)] == MOUSE_OFF;
    if MouseMode(m).Some? {
      SwitchedSnoc(modes, MOUSE_OFF, MouseMode(m).value, true);
    } else {
      assert MOUSE_OFF + [] == MOUSE_OFF;
    }
  }

  lemma {:induction false} ReportSwitched(modes: set<nat>, m: Modes)
    ensures Switched(modes, ReportTokens(m)) == modes - {1006, 1004} + Chosen(m.mouse != NoMouse, 1006)
        + Chosen(m.focus, 1004)
  {
    var a := [Switch(1006, m.mouse != NoMouse)];
    SwitchedSnoc(modes, [], 1006, m.mouse != NoMouse);
    SwitchedSnoc(modes, a, 1004, m.focus);
    assert [] + a == a && a + [Switch(1004, m.focus)] == ReportTokens(m);
  }

  /** The modes a state decides end up as it wants them; no other mode moves. */
  lemma {:induction false} ModesRead(t: Terminal, m: Modes)
    ensures ObeyAll(t, ModesTokens(m)) == t.(modes := t.modes - DECIDED + WantedModes(m))
  {
    var keys, mouse, report := KeyTokens(m), MOUSE_OFF + MouseTokens(m.mouse), ReportTokens(m);
    assert ModesTokens(m) == keys + mouse + report;
    ObeySwitches(t, ModesTokens(m));
    SwitchedConcat(t.modes, keys + mouse, report);
    SwitchedConcat(t.modes, keys, mouse);
    var m1 := Switched(t.modes, keys);
    KeysSwitched(t.modes, m);
    var m2 := Switched(m1, mouse);
    MouseSwitched(m1, m.mouse);
    ReportSwitched(m2, m);
    ModeSets(t.modes, m);
  }

  lemma {:induction false} ModeSets(modes: set<nat>, m: Modes)
    ensures
      var m1 := modes - {1, 66, 2004} + Chosen(m.cursorKeys, 1) + Chosen(m.keypad, 66) + Chosen(m.paste, 2004);
      var m2 := m1 - {9, 1000, 1002, 1003} + if MouseMode(m.mouse).Some? then {MouseMode(m.mouse).value} else {};
      m2 - {1006, 1004} + Chosen(m.mouse != NoMouse, 1006) + Chosen(m.focus, 1004) == modes - DECIDED + WantedModes(m)
  {
  }

  /** `t` shows exactly `s`: every cell, the input modes, and the cursor where there is one to see. */
  predicate Shows(t: Terminal, s: State)
    requires Fits(s)
  {
    && |t.cells| == s.viewportRows
    && (forall i :: 0 <= i < s.viewportRows ==> t.cells[i] == LineCells(RowRuns(s, i), s.cols))
    && t.modes * DECIDED == WantedModes(s.modes)
    && (25 in t.modes <==> s.cursor.visible)
    && (s.cursor.visible ==> t.row == Clamp(s.cursor.row, 0, s.viewportRows - 1)
                             && t.col == Clamp(s.cursor.col, 0, s.cols - 1))
  }

  lemma {:induction false} CursorRead(t: Terminal, s: State)
    requires Fits(s) && Sized(t, s)
    ensures var u := ObeyAll(t, CursorTokens(s));
      && u.cells == t.cells && u.modes == (if s.cursor.visible then t.modes + {25} else t.modes - {25})
      && (s.cursor.visible ==> u.row == Clamp(s.cursor.row, 0, s.viewportRows - 1)
                               && u.col == Clamp(s.cursor.col, 0, s.cols - 1))
  {
    if s.cursor.visible {
      VisibleCursorRead(t, s);
    } else {
      ObeyOne(t, Switch(25, false));
    }
  }

  lemma ObeyOne(t: Terminal, token: Token)
    ensures ObeyAll(t, [token]) == Obey(t, token)
  {
    ObeySnoc(t, [], token);
    assert [] + [token] == [token];
  }

  lemma {:induction false} VisibleCursorRead(t: Terminal, s: State)
    requires Fits(s) && Sized(t, s) && s.cursor.visible
    ensures ObeyAll(t, CursorTokens(s)) ==
      t.(row := Clamp(s.cursor.row, 0, s.viewportRows - 1), col := Clamp(s.cursor.col, 0, s.cols - 1),
          modes := t.modes + {25})
  {
    var ts := CursorTokens(s);
    ObeyOne(t, ts[0]);
    ObeySnoc(t, [ts[0]], ts[1]);
    assert ts == [ts[0]] + [ts[1]];
    assert |t.cells[0]| == s.cols;
  }

  lemma {:induction false} ObeyOpening(t: Terminal)
    ensures ObeyAll(t, OPENING).cells == t.cells && ObeyAll(t, OPENING).modes == t.modes - {25}
  {
    ObeySnoc(t, [], OPENING[0]);
    ObeySnoc(t, [OPENING[0]], OPENING[1]);
    assert [] + [OPENING[0]] == [OPENING[0]] && [OPENING[0]] + [OPENING[1]] == OPENING;
  }

  lemma {:induction false} ObeyReset(t: Terminal)
    ensures ObeyAll(t, [RESET]) == t.(pen := PLAIN)
  {
    ObeySnoc(t, [], RESET);
    assert [] + [RESET] == [RESET];
    assert RESET.params[1..] == [];
    assert Sgr(RESET.params, t.pen) == Sgr([], PLAIN);
  }

  lemma {:induction false} OpeningAndLines(t: Terminal, s: State)
    requires Fits(s) && Sized(t, s)
    ensures var u := ObeyAll(t, OPENING + LinesTokens(s, s.viewportRows));
      u.cells == Drawn(t.cells, s, s.viewportRows) && u.modes == t.modes - {25}
  {
    ObeyConcat(t, OPENING, LinesTokens(s, s.viewportRows));
    ObeyOpening(t);
    ObeyLines(ObeyAll(t, OPENING), s, s.viewportRows);
  }

  lemma {:induction false} ResetAndModes(t: Terminal, m: Modes)
    ensures var u := ObeyAll(t, [RESET] + ModesTokens(m)); u.cells == t.cells
                                                           && u.modes == t.modes - DECIDED + WantedModes(m)
  {
    ObeyConcat(t, [RESET], ModesTokens(m));
    ObeyReset(t);
    ModesRead(t.(pen := PLAIN), m);
  }

  /** Every cell of `t` is painted anew, whatever was there before. */
  lemma {:induction false} PrintedScreen(t: Terminal, s: State)
    requires Fits(s) && Sized(t, s)
    ensures Shows(ObeyAll(t, ScreenTokens(s)), s)
    ensures ObeyAll(t, ScreenTokens(s)).modes - DECIDED - {25} == t.modes - DECIDED - {25}
  {
    var lines := OPENING + LinesTokens(s, s.viewportRows);
    var middle := [RESET] + ModesTokens(s.modes);
    ObeyConcat(t, lines + middle, CursorTokens(s));
    ObeyConcat(t, lines, middle);
    OpeningAndLines(t, s);
    ResetAndModes(ObeyAll(t, lines), s.modes);
    var u := ObeyAll(t, lines + middle);
    assert Sized(u, s);
    CursorRead(u, s);
    SettledModes(t.modes, s.modes, s.cursor.visible);
  }

  lemma SettledModes(modes: set<nat>, m: Modes, visible: bool)
    ensures
      var u := modes - {25} - DECIDED + WantedModes(m);
      var v := if visible then u + {25} else u - {25};
      v * DECIDED == WantedModes(m) && (25 in v <==> visible) && v - DECIDED - {25} == modes - DECIDED - {25}
  {
  }

  /**
   * Print/read round trip: reading the printed characters on any terminal of the state's size
   * shows exactly the state, and no other private mode has moved.
   */
  lemma {:induction false} PrintReadRoundTrip(t: Terminal, s: State)
    requires Fits(s) && Sized(t, s)
    ensures Shows(ObeyAll(t, Parse(Render(ScreenTokens(s)))), s)
    ensures ObeyAll(t, Parse(Render(ScreenTokens(s)))).modes - DECIDED - {25} == t.modes - DECIDED - {25}
  {
    NothingForeign(s);
    PrintedScreen(t, s);
  }
}
