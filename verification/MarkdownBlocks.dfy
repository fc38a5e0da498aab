/**
 * Splitting Markdown that arrives in pieces into blocks that can be rendered one by one.
 * A `char` stands for one of the source's text units; the regular expressions are spelled out.
 */
module MarkdownBlocks {
  import opened Common
  import opened Numerals

  /** White space as regular expressions and `trim` understand it. */
  predicate IsSpace(c: char) {
    || '\t' <= c <= '\r' || c == ' ' || c == '\U{A0}' || c == '\U{1680}' || '\U{2000}' <= c <= '\U{200A}'
    || c == '\U{2028}' || c == '\U{2029}' || c == '\U{202F}' || c == '\U{205F}' || c == '\U{3000}' || c == '\U{FEFF}'
  }

  /** What a dot does not match. */
  predicate IsBreak(c: char) { c == '\n' || c == '\r' || c == '\U{2028}' || c == '\U{2029}' }

  /** How many characters of `s` from `i` on satisfy `p`. */
  function Span(s: string, i: nat, p: char -> bool): (n: nat)
    requires i <= |s|
    ensures i + n <= |s| && (forall k :: i <= k < i + n ==> p(s[k])) && (i + n < |s| ==> !p(s[i + n]))
    decreases |s| - i
  {
    if i == |s| || !p(s[i]) then 0 else 1 + Span(s, i + 1, p)
  }

  predicate Blank(s: string) { forall i :: 0 <= i < |s| ==> IsSpace(s[i]) }
  predicate NonBlank(s: string) { !Blank(s) }

  // ------------------------------------------------------------------ lines

  /** The first text unit that ends a line, or the end of the text. */
  function FirstBreak(s: string): (j: nat)
    ensures j <= |s| && (forall i :: 0 <= i < j ==> !IsBreak(s[i])) && (j < |s| ==> IsBreak(s[j]))
  {
    Span(s, 0, c => !IsBreak(c))
  }

  predicate IsCrLf(s: string, j: nat) { j + 1 < |s| && s[j] == '\r' && s[j + 1] == '\n' }

  /** Everything up to and including the first break. */
  function LineLength(s: string): (n: nat)
    requires s != ""
    ensures 1 <= n <= |s|
  {
    var j := FirstBreak(s);
    if j == |s| then j else if IsCrLf(s, j) then j + 2 else j + 1
  }

  predicate EndsWell(s: string) {
    var j := FirstBreak(s);
    j == |s| || s[j] == '\n' || IsCrLf(s, j)
  }

  /**
   * The non-empty matches of a lazy run of dots up to LF, CRLF or the end of the text. What stands
   * before a break that is neither LF nor CRLF is matched by none of them.
   */
  function Lines(s: string): seq<string> {
    if s == "" then []
    else (if EndsWell(s) then [s[..LineLength(s)]] else []) + Lines(s[LineLength(s)..])
  }

  function Content(line: string): string {
    if line == "" || line[|line| - 1] != '\n' then line
    else if |line| >= 2 && line[|line| - 2] == '\r' then line[..|line| - 2]
    else line[..|line| - 1]
  }

  // ------------------------------------------------------------------ what one line says

  datatype Fence = Fence(marker: char, length: nat)

  function Indent(s: string): nat { Span(s, 0, c => c == ' ') }

  /** Up to three spaces and at least three backticks or three tildes. */
  function FenceOn(content: string): Option<Fence> {
    var k := Indent(content);
    if k > 3 || k == |content| || (content[k] != '`' && content[k] != '~') then None
    else
      var n := Span(content, k, c => c == content[k]);
      if n >= 3 then Some(Fence(content[k], n)) else None
  }

  /** What follows the run of markers. */
  function AfterFence(content: string): string
    requires FenceOn(content).Some?
  {
    content[Indent(content) + FenceOn(content).value.length..]
  }

  /** Up to three spaces, a bullet or a number with `.` or `)`, and white space. */
  predicate IsListItem(content: string) {
    var k := Indent(content);
    var n := Span(content, k, IsDigit);
    && k <= 3
    && (|| (k + 1 < |content| && (content[k] == '-' || content[k] == '+' || content[k] == '*')
        && IsSpace(content[k + 1]))
        || (n > 0 && k + n + 1 < |content| && (content[k + n] == '.' || content[k + n] == ')')
            && IsSpace(content[k + n + 1])))
  }

  predicate ContinuesList(content: string) {
    (|content| >= 2 && IsSpace(content[0]) && IsSpace(content[1])) || IsListItem(content)
  }

  /**
   * A line with what the scanners ask about its content: the fence it could be, whether only white space
   * follows that, and so on.
   */
  datatype Line = Line(text: string, fence: Option<Fence>, bare: bool, item: bool, blank: bool, continues: bool)

  function Classify(text: string): Line {
    var content := Content(text);
    var fence := FenceOn(content);
    Line(text, fence, fence.Some? && Blank(AfterFence(content)), IsListItem(content), Blank(content),
        ContinuesList(content))
  }

  function Classified(texts: seq<string>): seq<Line> { Map(texts, Classify) }

  // ------------------------------------------------------------------ scanning

  function FenceAfter(open: Option<Fence>, line: Line): Option<Fence> {
    if line.fence.None? then open
    else if open.None? then line.fence
    else if line.fence.value.marker == open.value.marker && line.fence.value.length >= open.value.length && line.bare
        then None
    else open
  }

  function NextNonBlank(lines: seq<Line>, start: nat): Option<Line>
    requires start <= |lines|
    decreases |lines| - start
  {
    if start == |lines| then None
    else if !lines[start].blank then Some(lines[start])
    else NextNonBlank(lines, start + 1)
  }

  /** Where a scan stands: the open fence, whether a list may go on, and the pieces up to the last boundary. */
  datatype Scan = Scan(fence: Option<Fence>, list: bool, offset: nat, mark: nat, pieces: seq<string>,
      blocks: seq<string>)

  function Keep(blocks: seq<string>, piece: string): seq<string>
  {
    if NonBlank(piece) then blocks + [piece] else blocks
  }

  predicate IsBoundary(lines: seq<Line>, n: nat, fence: Option<Fence>, list: bool)
    requires n < |lines|
  {
    var next := NextNonBlank(lines, n + 1);
    fence.None? && lines[n].blank && !(list && next.Some? && next.value.continues)
  }

  function Length(lines: seq<Line>, n: nat): nat
    requires n <= |lines|
  {
    if n == 0 then 0 else Length(lines, n - 1) + |lines[n - 1].text|
  }

  lemma {:induction false} LengthGrows(lines: seq<Line>, m: nat, n: nat)
    requires m <= n <= |lines|
    ensures Length(lines, m) <= Length(lines, n)
  {
    if m < n { LengthGrows(lines, m, n - 1); }
  }

  function ScanLine(source: string, lines: seq<Line>, n: nat, s: Scan): (r: Scan)
    requires n < |lines| && s.mark <= s.offset && s.offset + |lines[n].text| <= |source|
    ensures r.mark <= r.offset == s.offset + |lines[n].text|
  {
    var fence := FenceAfter(s.fence, lines[n]);
    var list := s.list || (fence.None? && lines[n].item);
    var offset := s.offset + |lines[n].text|;
    if IsBoundary(lines, n, fence, list) then
      var piece := source[s.mark..offset];
      Scan(fence, false, offset, offset, s.pieces + [piece], Keep(s.blocks, piece))
    else Scan(fence, list, offset, s.mark, s.pieces, s.blocks)
  }

  function ScanLines(source: string, lines: seq<Line>, n: nat): (s: Scan)
    requires n <= |lines| && Length(lines, |lines|) <= |source|
    ensures s.mark <= s.offset == Length(lines, n) <= |source|
  {
    LengthGrows(lines, n, |lines|);
    if n == 0 then Scan(None, false, 0, 0, [], []) else ScanLine(source, lines, n - 1, ScanLines(source, lines, n - 1))
  }

  lemma {:induction false} PiecesCover(source: string, lines: seq<Line>, n: nat)
    requires n <= |lines| && Length(lines, |lines|) <= |source|
    ensures Flat(ScanLines(source, lines, n).pieces) == source[..ScanLines(source, lines, n).mark]
  {
    if n > 0 {
      PiecesCover(source, lines, n - 1);
      LengthGrows(lines, n, |lines|);
    }
  }

  lemma {:induction false} LengthCons(line: Line, rest: seq<Line>, n: nat)
    requires n <= |rest|
    ensures Length([line] + rest, n + 1) == |line.text| + Length(rest, n)
  {
    if n > 0 { LengthCons(line, rest, n - 1); }
  }

  function Total(texts: seq<string>): nat { if texts == [] then 0 else |texts[0]| + Total(texts[1..]) }

  lemma {:induction false} TotalIsLength(texts: seq<string>, classify: string -> Line)
    requires forall t :: classify(t).text == t
    ensures Length(Map(texts, classify), |texts|) == Total(texts)
  {
    if texts != [] {
      TotalIsLength(texts[1..], classify);
      LengthCons(classify(texts[0]), Map(texts[1..], classify), |texts| - 1);
    }
  }

  lemma {:induction false} LinesFit(s: string)
    ensures Total(Lines(s)) <= |s|
  {
    if s != "" {
      var n := LineLength(s);
      LinesFit(s[n..]);
      if EndsWell(s) {
        assert Lines(s)[1..] == Lines(s[n..]);
      } else {
        assert Lines(s) == Lines(s[n..]);
      }
    }
  }

  function LinesOf(source: string): (r: seq<Line>)
    ensures Length(r, |r|) <= |source|
  {
    LinesFit(source);
    TotalIsLength(Lines(source), Classify);
    Classified(Lines(source))
  }

  function ScanAll(source: string): (s: Scan)
    ensures s.mark <= |source|
  {
    ScanLines(source, LinesOf(source), |LinesOf(source)|)
  }

  /** All slices of `source` between boundaries, and what is left after the last one. */
  function PiecesIn(source: string, lines: seq<Line>): seq<string>
    requires Length(lines, |lines|) <= |source|
  {
    var s := ScanLines(source, lines, |lines|);
    if s.mark < |source| then s.pieces + [source[s.mark..]] else s.pieces
  }

  function Pieces(source: string): seq<string> { PiecesIn(source, LinesOf(source)) }

  lemma {:induction false} PiecesInAreAll(source: string, lines: seq<Line>)
    requires Length(lines, |lines|) <= |source|
    ensures Flat(PiecesIn(source, lines)) == source
  {
    var s := ScanLines(source, lines, |lines|);
    PiecesCover(source, lines, |lines|);
  }

  function BlocksIn(source: string, lines: seq<Line>): seq<string>
    requires Length(lines, |lines|) <= |source|
  {
    var s := ScanLines(source, lines, |lines|);
    if s.mark < |source| then Keep(s.blocks, source[s.mark..]) else s.blocks
  }

  function Blocks(source: string): seq<string> { BlocksIn(source, LinesOf(source)) }

  lemma FilterKeep(pieces: seq<string>, piece: string)
    ensures Filter(pieces + [piece], NonBlank) == Keep(Filter(pieces, NonBlank), piece)
  {
    FilterConcat(pieces, [piece], NonBlank);
    assert [piece][1..] == [];
  }

  lemma {:induction false} ScanKeeps(source: string, lines: seq<Line>, n: nat)
    requires n <= |lines| && Length(lines, |lines|) <= |source|
    ensures ScanLines(source, lines, n).blocks == Filter(ScanLines(source, lines, n).pieces, NonBlank)
  {
    if n > 0 {
      var s, r := ScanLines(source, lines, n - 1), ScanLines(source, lines, n);
      ScanKeeps(source, lines, n - 1);
      if r.pieces != s.pieces { FilterKeep(s.pieces, source[s.mark..r.offset]); }
    }
  }

  /** The blocks are the pieces that are not only white space. */
  lemma {:induction false} BlocksAreKept(source: string)
    ensures Blocks(source) == Filter(Pieces(source), NonBlank)
  {
    var lines := LinesOf(source);
    var s := ScanLines(source, lines, |lines|);
    ScanKeeps(source, lines, |lines|);
    if s.mark < |source| { FilterKeep(s.pieces, source[s.mark..]); }
  }

  // ------------------------------------------------------------------ as the client does it

  method FindNextNonBlank(lines: seq<Line>, start: nat) returns (next: Option<Line>)
    requires start <= |lines|
    ensures next == NextNonBlank(lines, start)
  {
    var index := start;
    while index < |lines|
      invariant start <= index <= |lines|
      invariant NextNonBlank(lines, start) == NextNonBlank(lines, index)
    {
      if !lines[index].blank { return Some(lines[index]); }
      index := index + 1;
    }
    return None;
  }

  predicate Agree(s: Scan, fence: Option<Fence>, list: bool, offset: nat, mark: nat) {
    s.fence == fence && s.list == list && s.offset == offset && s.mark == mark
  }

  method LastSafeBoundary(ghost source: string, lines: seq<Line>) returns (safe: nat)
    requires Length(lines, |lines|) <= |source|
    ensures safe == ScanLines(source, lines, |lines|).mark
  {
    var fence: Option<Fence> := None;
    var offset: nat, currentLooksLikeList := 0, false;
    safe := 0;
    var index := 0;
    while index < |lines|
      invariant 0 <= index <= |lines|
      invariant Agree(ScanLines(source, lines, index), fence, currentLooksLikeList, offset, safe)
    {
      var line := lines[index];
      if line.fence.Some? {
        if fence.None? { fence := line.fence; }
        else if line.fence.value.marker == fence.value.marker && line.fence.value.length >= fence.value.length
            && line.bare {
          fence := None;
        }
      }
      if fence.None? && line.item { currentLooksLikeList := true; }
      var end := offset + |line.text|;
      if fence.None? && line.blank {
        var next := FindNextNonBlank(lines, index + 1);
        var continuesList := currentLooksLikeList && next.Some? && next.value.continues;
        if !continuesList { safe, currentLooksLikeList := end, false; }
      }
      offset := end;
      index := index + 1;
    }
  }

  method SplitCommittedBlocks(source: string, lines: seq<Line>) returns (blocks: seq<string>)
    requires Length(lines, |lines|) <= |source|
    ensures blocks == BlocksIn(source, lines)
  {
    blocks := [];
    var cursor: nat, offset: nat, currentLooksLikeList := 0, 0, false;
    var fence: Option<Fence> := None;
    var index := 0;
    while index < |lines|
      invariant 0 <= index <= |lines|
      invariant Agree(ScanLines(source, lines, index), fence, currentLooksLikeList, offset, cursor)
      invariant ScanLines(source, lines, index).blocks == blocks
    {
      var line := lines[index];
      if line.fence.Some? {
        if fence.None? { fence := line.fence; }
        else if line.fence.value.marker == fence.value.marker && line.fence.value.length >= fence.value.length
            && line.bare {
          fence := None;
        }
      }
      if fence.None? && line.item { currentLooksLikeList := true; }
      LengthGrows(lines, index + 1, |lines|);
      offset := offset + |line.text|;
      if fence.None? && line.blank {
        var next := FindNextNonBlank(lines, index + 1);
        if !(currentLooksLikeList && next.Some? && next.value.continues) {
          var value := source[cursor..offset];
          if NonBlank(value) { blocks := blocks + [value]; }
          cursor, currentLooksLikeList := offset, false;
        }
      }
      index := index + 1;
    }
    if cursor < |source| && NonBlank(source[cursor..]) { blocks := blocks + [source[cursor..]]; }
  }

  datatype Appended = Appended(blocks: seq<string>, pending: string)

  function Append(buffer: string, text: string, complete: bool): Appended {
    var all := buffer + text;
    if complete then Appended(if all == "" then [] else [all], "")
    else
      var cut := ScanAll(all).mark;
      Appended(Blocks(all[..cut]), all[cut..])
  }

  class MarkdownBlockAssembler {
    var buffer: string

    constructor ()
      ensures buffer == ""
    {
      buffer := "";
    }

    method AppendText(text: string, complete: bool) returns (r: Appended)
      modifies this
      ensures r == Append(old(buffer), text, complete)
      ensures buffer == r.pending
    {
      buffer := buffer + text;
      if complete {
        var final := buffer;
        buffer := "";
        return Appended(if final != "" then [final] else [], "");
      }
      var cut := LastSafeBoundary(buffer, LinesOf(buffer));
      if cut <= 0 {
        assert buffer[..0] == "" && buffer[0..] == buffer;
        NothingToSplit();
        return Appended([], buffer);
      }
      var committed := buffer[..cut];
      buffer := buffer[cut..];
      var blocks := SplitCommittedBlocks(committed, LinesOf(committed));
      return Appended(blocks, buffer);
    }

    method Reset()
      modifies this
      ensures buffer == ""
    {
      buffer := "";
    }
  }

  lemma NothingToSplit()
    ensures Blocks("") == []
  {
    assert Lines("") == [];
  }
}
