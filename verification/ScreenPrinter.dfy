/** Printing a screen as control sequences: what is printed, and how the client builds the string. */
module ScreenPrinter {
  import opened Common
  import opened Numerals
  import opened Screen

  /** A graphic character, a control sequence `CSI ? n1;n2... final`, or a control character by itself. */
  datatype Token = Print(c: char) | Csi(private: bool, params: seq<nat>, final: char) | Control(c: char)

  const ESC: char := '\U{1B}'

  function Join(ps: seq<nat>): string {
    if ps == [] then "" else if |ps| == 1 then Dec(ps[0]) else Dec(ps[0]) + ";" + Join(ps[1..])
  }

  function RenderToken(t: Token): string {
    match t
    case Print(c) => [c]
    case Control(c) => [c]
    case Csi(private, params, final) => [ESC, '['] + (if private then "?" else "") + Join(params) + [final]
  }

  function Texts(ts: seq<Token>): seq<string> { seq(|ts|, i requires 0 <= i < |ts| => RenderToken(ts[i])) }

  function Render(ts: seq<Token>): string { Flat(Texts(ts)) }

  lemma RenderSnoc(a: seq<Token>, t: Token)
    ensures Render(a + [t]) == Render(a) + RenderToken(t)
  {
    assert Texts(a + [t]) == Texts(a) + [RenderToken(t)];
  }

  lemma RenderConcat(a: seq<Token>, b: seq<Token>)
    ensures Render(a + b) == Render(a) + Render(b)
  {
    assert Texts(a + b) == Texts(a) + Texts(b);
    FlatConcat(Texts(a), Texts(b));
  }

  // ------------------------------------------------------------------ the sequences a screen is printed as

  function FlagCode(f: Flag): nat {
    match f
    case Bold => 1
    case Dim => 2
    case Italic => 3
    case Underline => 4
    case Blink => 5
    case Inverse => 7
    case Invisible => 8
    case Strikethrough => 9
    case Overline => 53
    case OtherFlag(_) => 0
  }

  function FlagCodes(flags: seq<Flag>): seq<nat> {
    if flags == [] then []
    else
      var last := flags[|flags| - 1];
      FlagCodes(flags[..|flags| - 1]) + if FlagCode(last) != 0 then [FlagCode(last)] else []
  }

  function HexDigitValue(c: char): nat
    requires IsHexDigit(c)
  {
    if '0' <= c <= '9' then c as int - '0' as int else if 'a' <= c <= 'f' then c as int - 'a' as int + 10
        else c as int - 'A' as int + 10
  }

  function HexValue(s: string): nat
    requires forall i :: 0 <= i < |s| ==> IsHexDigit(s[i])
  {
    if s == [] then 0 else 16 * HexValue(s[..|s| - 1]) + HexDigitValue(s[|s| - 1])
  }

  function Clamp(value: int, min: int, max: int): int { Max(min, Min(max, value)) }

  function ColorCodes(color: Color, background: bool): (r: seq<nat>)
    ensures r != []
  {
    match color
    case Default => [if background then 49 else 39]
    case Palette(number) =>
      var index := Clamp(number, 0, 255);
      if index < 8 then [(if background then 40 else 30) + index]
      else if index < 16 then [(if background then 100 else 90) + index - 8]
      else [if background then 48 else 38, 5, index]
    case Text(text) =>
      if !IsHexColor(text) then [if background then 49 else 39]
      else
        var value := HexValue(text[1..]);
        [if background then 48 else 38, 2, value / 0x10000 % 256, value / 0x100 % 256, value % 256]
  }

  function StyleToken(s: Style): Token {
    Csi(false, [0] + FlagCodes(s.flags) + ColorCodes(s.fg, false) + ColorCodes(s.bg, true), 'm')
  }

  function Prints(s: string): seq<Token> { seq(|s|, i requires 0 <= i < |s| => Print(s[i])) }

  function RunTokens(run: StyledRun): seq<Token> { [StyleToken(run.style)] + Prints(CleanText(run.text)) }

  function RunsTokens(runs: seq<StyledRun>): seq<Token> {
    if runs == [] then [] else RunsTokens(runs[..|runs| - 1]) + RunTokens(runs[|runs| - 1])
  }

  function RowRuns(s: State, row: nat): seq<StyledRun> { if row < |s.rows| then s.rows[row].runs else [] }

  function HeadTokens(row: nat): seq<Token> { [Csi(false, [row + 1, 1], 'H'), Csi(false, [2], 'K')] }

  function LineTokens(row: nat, runs: seq<StyledRun>): seq<Token> { HeadTokens(row) + RunsTokens(runs) }

  function LineOf(s: State): nat -> seq<Token> { (k: nat) => LineTokens(k, RowRuns(s, k)) }

  function LinesTokens(s: State, rows: nat): seq<Token> { Chain(LineOf(s), rows) }

  function Switch(mode: nat, on: bool): Token { Csi(true, [mode], if on then 'h' else 'l') }

  /** The private mode that selects a mouse protocol. */
  function MouseMode(m: Mouse): Option<nat> {
    match m
    case X10 => Some(9)
    case Vt200 => Some(1000)
    case Drag => Some(1002)
    case AnyMotion => Some(1003)
    case NoMouse => None
    case OtherMouse(_) => None
  }

  function KeyTokens(m: Modes): seq<Token> { [Switch(1, m.cursorKeys), Switch(66, m.keypad), Switch(2004, m.paste)] }

  const MOUSE_OFF: seq<Token> := [Switch(9, false), Switch(1000, false), Switch(1002, false), Switch(1003, false)]

  function MouseTokens(m: Mouse): seq<Token> {
    if MouseMode(m).Some? then [Switch(MouseMode(m).value, true)] else []
  }

  function ReportTokens(m: Modes): seq<Token> { [Switch(1006, m.mouse != NoMouse), Switch(1004, m.focus)] }

  function ModesTokens(m: Modes): seq<Token> { KeyTokens(m) + MOUSE_OFF + MouseTokens(m.mouse) + ReportTokens(m) }

  function CursorTokens(s: State): seq<Token>
    requires s.viewportRows >= 1 && s.cols >= 1
  {
    if s.cursor.visible then
      [Csi(false, [Clamp(s.cursor.row, 0, s.viewportRows - 1) + 1, Clamp(s.cursor.col, 0, s.cols - 1) + 1], 'H'),
          Switch(25, true)]
    else [Switch(25, false)]
  }

  const RESET := Csi(false, [0], 'm')
  const OPENING: seq<Token> := [Switch(25, false), RESET]

  function ScreenTokens(s: State): seq<Token>
    requires s.viewportRows >= 1 && s.cols >= 1
  {
    OPENING + LinesTokens(s, s.viewportRows) + ([RESET] + ModesTokens(s.modes)) + CursorTokens(s)
  }

  // ------------------------------------------------------------------ as the client builds the string

  function SwitchText(mode: nat, on: bool): string { RenderToken(Switch(mode, on)) }

  function MouseText(m: Mouse): string { if MouseMode(m).Some? then SwitchText(MouseMode(m).value, true) else "" }

  function KeyText(m: Modes): string
  {
    SwitchText(1, m.cursorKeys) + SwitchText(66, m.keypad) + SwitchText(2004, m.paste)
  }

  const MOUSE_OFF_TEXT := SwitchText(9, false) + SwitchText(1000, false) + SwitchText(1002, false)
      + SwitchText(1003, false)

  function ModesText(m: Modes): string {
    KeyText(m) + MOUSE_OFF_TEXT + MouseText(m.mouse) + SwitchText(1006, m.mouse != NoMouse) + SwitchText(1004, m.focus)
  }

  function RunsOnto(output: string, runs: seq<StyledRun>): string {
    if runs == [] then output
    else
      var last := runs[|runs| - 1];
      RunsOnto(output, runs[..|runs| - 1]) + (RenderToken(StyleToken(last.style)) + CleanText(last.text))
  }

  function LineHead(row: nat): string { RenderToken(Csi(false, [row + 1, 1], 'H')) + RenderToken(Csi(false, [2], 'K')) }

  function LineOnto(s: State): (string, nat) -> string {
    (output: string, k: nat) => RunsOnto(output + LineHead(k), RowRuns(s, k))
  }

  function LinesOnto(output: string, s: State, rows: nat): string { Repeat(LineOnto(s), output, rows) }

  function CursorText(s: State): string
    requires s.viewportRows >= 1 && s.cols >= 1
  {
    if s.cursor.visible then
      RenderToken(Csi(false, [Clamp(s.cursor.row, 0, s.viewportRows - 1) + 1, Clamp(s.cursor.col, 0, s.cols - 1) + 1],
          'H'))
      + SwitchText(25, true)
    else SwitchText(25, false)
  }

  const RESET_TEXT := RenderToken(RESET)
  const OPENING_TEXT := SwitchText(25, false) + RESET_TEXT

  method StyleToSgr(style: Style) returns (r: string)
    ensures r == RenderToken(StyleToken(style))
  {
    var codes: seq<nat> := [0];
    var k := 0;
    while k < |style.flags|
      invariant 0 <= k <= |style.flags|
      invariant codes == [0] + FlagCodes(style.flags[..k])
    {
      var code := FlagCode(style.flags[k]);
      assert style.flags[..k + 1][..k] == style.flags[..k];
      if code != 0 { codes := codes + [code]; }
      k := k + 1;
    }
    assert style.flags[..k] == style.flags;
    codes := codes + (ColorCodes(style.fg, false) + ColorCodes(style.bg, true));
    assert codes == StyleToken(style).params;
    return [ESC, '['] + Join(codes) + "m";
  }

  method InputModesToAnsi(modes: Modes) returns (output: string)
    ensures output == ModesText(modes)
  {
    output := KeyText(modes);
    output := output + MOUSE_OFF_TEXT;
    var mouse := MouseOnText(modes.mouse);
    output := output + mouse;
    output := output + SwitchText(1006, modes.mouse != NoMouse);
    output := output + SwitchText(1004, modes.focus);
  }

  method MouseOnText(m: Mouse) returns (text: string)
    ensures text == MouseText(m)
  {
    if m == X10 { text := SwitchText(9, true); }
    else if m == Vt200 { text := SwitchText(1000, true); }
    else if m == Drag { text := SwitchText(1002, true); }
    else if m == AnyMotion { text := SwitchText(1003, true); }
    else { text := ""; }
  }

  method AppendRuns(start: string, runs: seq<StyledRun>) returns (output: string)
    ensures output == RunsOnto(start, runs)
  {
    output := start;
    var k := 0;
    while k < |runs|
      invariant 0 <= k <= |runs|
      invariant output == RunsOnto(start, runs[..k])
    {
      var sgr := StyleToSgr(runs[k].style);
      output := output + (sgr + CleanText(runs[k].text));
      assert runs[..k + 1][..k] == runs[..k];
      k := k + 1;
    }
    assert runs[..k] == runs;
  }

  method AppendLines(start: string, s: State) returns (output: string)
    requires s.viewportRows >= 0
    ensures output == LinesOnto(start, s, s.viewportRows)
  {
    output := start;
    var row := 0;
    while row < s.viewportRows
      invariant 0 <= row <= s.viewportRows
      invariant output == LinesOnto(start, s, row)
    {
      output := AppendRuns(output + LineHead(row), RowRuns(s, row));
      row := row + 1;
    }
  }

  method ProjectionScreenToAnsi(s: State) returns (output: string)
    requires s.viewportRows >= 1 && s.cols >= 1
    ensures output == Render(ScreenTokens(s))
  {
    output := AppendLines(OPENING_TEXT, s);
    var modes := InputModesToAnsi(s.modes);
    output := output + (RESET_TEXT + modes);
    output := output + CursorText(s);
    ScreenSpells(s);
  }

  // ------------------------------------------------------------------ both are the same string

  lemma RenderOne(t: Token)
    ensures Render([t]) == RenderToken(t)
  {
    assert [t] == [] + [t];
    RenderSnoc([], t);
  }

  lemma RenderTwo(x: Token, y: Token)
    ensures Render([x, y]) == RenderToken(x) + RenderToken(y)
  {
    assert [x, y] == [x] + [y];
    RenderOne(x);
    RenderSnoc([x], y);
  }

  lemma RenderThree(x: Token, y: Token, z: Token)
    ensures Render([x, y, z]) == RenderToken(x) + RenderToken(y) + RenderToken(z)
  {
    assert [x, y, z] == [x, y] + [z];
    RenderTwo(x, y);
    RenderSnoc([x, y], z);
  }

  lemma MouseOffSpells()
    ensures MOUSE_OFF_TEXT == Render(MOUSE_OFF)
  {
    var ts := [Switch(9, false), Switch(1000, false), Switch(1002, false)];
    RenderThree(ts[0], ts[1], ts[2]);
    RenderSnoc(ts, Switch(1003, false));
    assert MOUSE_OFF == ts + [Switch(1003, false)];
  }

  lemma ModesSpell(m: Modes)
    ensures ModesText(m) == Render(ModesTokens(m))
  {
    RenderThree(Switch(1, m.cursorKeys), Switch(66, m.keypad), Switch(2004, m.paste));
    MouseOffSpells();
    MouseSpells(m.mouse);
    RenderConcat(KeyTokens(m), MOUSE_OFF);
    RenderConcat(KeyTokens(m) + MOUSE_OFF, MouseTokens(m.mouse));
    ReportSpells(KeyTokens(m) + MOUSE_OFF + MouseTokens(m.mouse), m);
  }

  lemma MouseSpells(m: Mouse)
    ensures MouseText(m) == Render(MouseTokens(m))
  {
    if MouseMode(m).Some? { RenderOne(Switch(MouseMode(m).value, true)); }
  }

  lemma ReportSpells(before: seq<Token>, m: Modes)
    ensures Render(before) + SwitchText(1006, m.mouse != NoMouse) + SwitchText(1004, m.focus)
        == Render(before + ReportTokens(m))
  {
    var x, y := Switch(1006, m.mouse != NoMouse), Switch(1004, m.focus);
    RenderSnoc(before, x);
    RenderSnoc(before + [x], y);
    assert before + [x] + [y] == before + ReportTokens(m);
  }

  lemma {:induction false} PrintsSpell(s: string)
    ensures Render(Prints(s)) == s
  {
    if s != [] {
      var n := |s| - 1;
      PrintsSpell(s[..n]);
      assert Prints(s) == Prints(s[..n]) + [Print(s[n])];
      RenderSnoc(Prints(s[..n]), Print(s[n]));
    }
  }

  lemma RunSpells(run: StyledRun)
    ensures Render(RunTokens(run)) == RenderToken(StyleToken(run.style)) + CleanText(run.text)
  {
    RenderOne(StyleToken(run.style));
    PrintsSpell(CleanText(run.text));
    RenderConcat([StyleToken(run.style)], Prints(CleanText(run.text)));
  }

  lemma {:induction false} RunsSpell(before: seq<Token>, runs: seq<StyledRun>)
    ensures RunsOnto(Render(before), runs) == Render(before + RunsTokens(runs))
  {
    if runs == [] {
      assert before + [] == before;
    } else {
      var n := |runs| - 1;
      RunsSpell(before, runs[..n]);
      RunSpells(runs[n]);
      RenderConcat(before + RunsTokens(runs[..n]), RunTokens(runs[n]));
      Assoc(before, RunsTokens(runs[..n]), RunTokens(runs[n]));
    }
  }

  lemma LineSpells(before: seq<Token>, row: nat, runs: seq<StyledRun>)
    ensures RunsOnto(Render(before) + LineHead(row), runs) == Render(before + LineTokens(row, runs))
  {
    var head := HeadTokens(row);
    RenderTwo(head[0], head[1]);
    RenderConcat(before, head);
    RunsSpell(before + head, runs);
    Assoc(before, head, RunsTokens(runs));
  }

  lemma LinesSpell(before: seq<Token>, s: State, rows: nat)
    ensures LinesOnto(Render(before), s, rows) == Render(before + LinesTokens(s, rows))
  {
    forall a: seq<Token>, k: nat ensures Render(a + LineOf(s)(k)) == LineOnto(s)(Render(a), k) {
      LineSpells(a, k, RowRuns(s, k));
    }
    ChainRepeats(Render, LineOf(s), LineOnto(s), before, rows);
  }

  lemma ResetSpells(before: seq<Token>, m: Modes)
    ensures Render(before) + (RESET_TEXT + ModesText(m)) == Render(before + ([RESET] + ModesTokens(m)))
  {
    RenderOne(RESET);
    ModesSpell(m);
    RenderConcat([RESET], ModesTokens(m));
    RenderConcat(before, [RESET] + ModesTokens(m));
  }

  lemma ScreenSpells(s: State)
    requires s.viewportRows >= 1 && s.cols >= 1
    ensures LinesOnto(OPENING_TEXT, s, s.viewportRows) + (RESET_TEXT + ModesText(s.modes)) + CursorText(s)
        == Render(ScreenTokens(s))
  {
    var lines := OPENING + LinesTokens(s, s.viewportRows);
    RenderTwo(Switch(25, false), RESET);
    LinesSpell(OPENING, s, s.viewportRows);
    ResetSpells(lines, s.modes);
    CursorSpells(s);
    RenderConcat(lines + ([RESET] + ModesTokens(s.modes)), CursorTokens(s));
  }

  lemma CursorSpells(s: State)
    requires s.viewportRows >= 1 && s.cols >= 1
    ensures CursorText(s) == Render(CursorTokens(s))
  {
    var ts := CursorTokens(s);
    if |ts| == 2 { RenderTwo(ts[0], ts[1]); } else { RenderOne(ts[0]); }
  }
}
