/**
 * A small terminal that reads what `ScreenPrinter` writes: CUP, EL and SGR as in sections
 * 8.3.21, 8.3.41 and 8.3.117 of ECMA-48, and the DEC private modes. EL leaves lines in the
 * plain erased state, characters are one cell wide, and a character past the last column is
 * dropped.
 */
module ScreenReader {
  import opened Common
  import opened Numerals
  import opened Screen
  import opened ScreenPrinter

  // ------------------------------------------------------------------ from characters back to sequences

  predicate InParams(c: char) { IsDigit(c) || c == ';' }

  /** How many characters of `s` from the start on satisfy `p`. */
  function Span(s: string, p: char -> bool): (n: nat)
    ensures n <= |s| && (forall i :: 0 <= i < n ==> p(s[i])) && (n < |s| ==> !p(s[n]))
  {
    if s == "" || !p(s[0]) then 0 else 1 + Span(s[1..], p)
  }

  function Numbers(s: string): seq<nat>
    requires forall i :: 0 <= i < |s| ==> InParams(s[i])
  {
    var k := Span(s, IsDigit);
    if k == |s| then [Value(s)] else [Value(s[..k])] + Numbers(s[k + 1..])
  }

  function Parse(s: string): seq<Token>
    decreases |s|, 0
  {
    if s == "" then []
    else if s[0] != ESC || |s| < 2 || s[1] != '[' then [if IsControl(s[0]) then Control(s[0])
        else Print(s[0])] + Parse(s[1..])
    else if |s| > 2 && s[2] == '?' then ParseSequence(true, s[3..])
    else ParseSequence(false, s[2..])
  }

  function ParseSequence(private: bool, body: string): seq<Token>
    decreases |body|, 1
  {
    var n := Span(body, InParams);
    if n == |body| then [] else [Csi(private, Numbers(body[..n]), body[n])] + Parse(body[n + 1..])
  }

  /** A graphic character, or a sequence with parameters whose final character ends them. */
  predicate Ordinary(t: Token) {
    match t
    case Print(c) => !IsControl(c)
    case Control(c) => false
    case Csi(_, params, final) => params != [] && !InParams(final) && final != '?'
  }

  predicate AllOrdinary(ts: seq<Token>) { forall i :: 0 <= i < |ts| ==> Ordinary(ts[i]) }

  lemma SpanIs(s: string, p: char -> bool, n: nat)
    requires n <= |s| && (forall i :: 0 <= i < n ==> p(s[i])) && (n < |s| ==> !p(s[n]))
    ensures Span(s, p) == n
  {
  }

  lemma {:induction false} NumbersJoin(ps: seq<nat>)
    requires ps != []
    ensures Join(ps) != "" && (forall i :: 0 <= i < |Join(ps)| ==> InParams(Join(ps)[i])) && IsDigit(Join(ps)[0])
    ensures Numbers(Join(ps)) == ps
  {
    var first := Dec(ps[0]);
    ValueDec(ps[0]);
    if |ps| == 1 {
      SpanIs(first, IsDigit, |first|);
    } else {
      NumbersJoin(ps[1..]);
      var s, rest := Join(ps), Join(ps[1..]);
      assert s == first + ";" + rest;
      SpanIs(s, IsDigit, |first|);
      assert s[..|first|] == first && s[|first| + 1..] == rest;
    }
  }

  lemma {:induction false} SequenceIs(private: bool, numbers: string, final: char, rest: string)
    requires (forall i :: 0 <= i < |numbers| ==> InParams(numbers[i])) && !InParams(final)
    ensures ParseSequence(private, numbers + [final] + rest) == [Csi(private, Numbers(numbers), final)] + Parse(rest)
  {
    var body := numbers + [final] + rest;
    SpanIs(body, InParams, |numbers|);
    assert body[..|numbers|] == numbers && body[|numbers| + 1..] == rest;
  }

  lemma {:induction false} ParseCsi(private: bool, body: string)
    requires body != "" && IsDigit(body[0])
    ensures Parse([ESC, '['] + (if private then "?" else "") + body) == ParseSequence(private, body)
  {
    var s := [ESC, '['] + (if private then "?" else "") + body;
    if private {
      assert s[2] == '?' && s[3..] == body;
    } else {
      assert s[2] == body[0] && s[2..] == body;
    }
  }

  lemma {:induction false} ParseToken(t: Token, rest: string)
    requires Ordinary(t)
    ensures Parse(RenderToken(t) + rest) == [t] + Parse(rest)
  {
    var s := RenderToken(t) + rest;
    match t
    case Print(c) => assert s[1..] == rest;
    case Csi(private, params, final) =>
      NumbersJoin(params);
      var mark, numbers := if private then "?" else "", Join(params);
      Regroup([ESC, '['] + mark, numbers, [final], rest);
      ParseCsi(private, numbers + [final] + rest);
      SequenceIs(private, numbers, final, rest);
  }

  lemma Regroup(a: string, b: string, c: string, d: string)
    ensures a + b + c + d == a + (b + c + d)
  {
  }

  lemma {:induction false} ParsePrefix(ts: seq<Token>, rest: string)
    requires AllOrdinary(ts)
    ensures Parse(Render(ts) + rest) == ts + Parse(rest)
  {
    if ts == [] {
      assert Render(ts) + rest == rest;
    } else {
      var n := |ts| - 1;
      assert ts == ts[..n] + [ts[n]];
      RenderSnoc(ts[..n], ts[n]);
      var last := ts[n];
      Assoc(Render(ts[..n]), RenderToken(last), rest);
      ParsePrefix(ts[..n], RenderToken(last) + rest);
      ParseToken(last, rest);
      Assoc(ts[..n], [last], Parse(rest));
    }
  }

  lemma {:induction false} RunsOrdinary(runs: seq<StyledRun>)
    ensures AllOrdinary(RunsTokens(runs))
  {
    if runs != [] {
      RunsOrdinary(runs[..|runs| - 1]);
      assert AllOrdinary(Prints(CleanText(runs[|runs| - 1].text)));
    }
  }

  lemma {:induction false} ChainOrdinary(part: nat -> seq<Token>, n: nat)
    requires forall k: nat :: AllOrdinary(part(k))
    ensures AllOrdinary(Chain(part, n))
  {
    if n > 0 { ChainOrdinary(part, n - 1); }
  }

  lemma {:induction false} LinesOrdinary(s: State, rows: nat)
    ensures AllOrdinary(LinesTokens(s, rows))
  {
    forall k: nat ensures AllOrdinary(LineOf(s)(k)) { RunsOrdinary(RowRuns(s, k)); }
    ChainOrdinary(LineOf(s), rows);
  }

  /**
   * Whatever text a state holds, no control sequence is printed but the printer's own, and no control
   * character by itself.
   */
  lemma {:induction false} NothingForeign(s: State)
    requires s.viewportRows >= 1 && s.cols >= 1
    ensures Parse(Render(ScreenTokens(s))) == ScreenTokens(s) && AllOrdinary(ScreenTokens(s))
  {
    LinesOrdinary(s, s.viewportRows);
    assert AllOrdinary(OPENING) && AllOrdinary(ModesTokens(s.modes)) && AllOrdinary(CursorTokens(s));
    ParsePrefix(ScreenTokens(s), "");
    assert Render(ScreenTokens(s)) + "" == Render(ScreenTokens(s));
  }
}
