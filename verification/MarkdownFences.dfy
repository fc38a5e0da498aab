/**
 * The scanners' idea of a fence against section 4.5 of CommonMark 0.31, and against the whole
 * text rather than a block of it. Containers, indented code and HTML are not considered.
 */
module MarkdownFences {
  import opened Common
  import opened MarkdownBlocks
  import opened MarkdownTheorems

  // ------------------------------------------------------------------ CommonMark, line by line

  predicate SpacesAndTabs(s: string) { forall i :: 0 <= i < |s| ==> s[i] == ' ' || s[i] == '\t' }

  /**
   * An opening fence of backticks has no backtick in its info string; a closing fence has the
   * marker of the opening one, is at least as long, and is followed by spaces or tabs only.
   */
  function StandardAfter(open: Option<Fence>, content: string): Option<Fence> {
    var found := FenceOn(content);
    if open.None? then
      if found.Some? && found.value.marker == '`' && '`' in AfterFence(content) then None else found
    else if found.Some? && found.value.marker == open.value.marker && found.value.length >= open.value.length
            && SpacesAndTabs(AfterFence(content)) then None
    else open
  }

  /** Inline code that looks like an opening fence, or a closing fence followed by other white space. */
  predicate Disputed(open: Option<Fence>, content: string) {
    var found := FenceOn(content);
    && found.Some?
    && if open.None? then found.value.marker == '`' && '`' in AfterFence(content)
       else found.value.marker == open.value.marker && found.value.length >= open.value.length
            && Blank(AfterFence(content)) && !SpacesAndTabs(AfterFence(content))
  }

  /** A line is read as CommonMark reads it exactly if it is not disputed. */
  lemma LineIsStandard(open: Option<Fence>, text: string)
    ensures FenceAfter(open, Classify(text)) == StandardAfter(open, Content(text)) <==> !Disputed(open, Content(text))
  {
    var content := Content(text);
    if FenceOn(content).Some? {
      assert SpacesAndTabs(AfterFence(content)) ==> Blank(AfterFence(content));
    }
  }

  function StandardFold(open: Option<Fence>, lines: seq<Line>): Option<Fence> {
    if lines == [] then open
        else StandardAfter(StandardFold(open, lines[..|lines| - 1]), Content(lines[|lines| - 1].text))
  }

  ghost predicate Undisputed(open: Option<Fence>, lines: seq<Line>) {
    forall k :: 0 <= k < |lines| ==> lines[k] == Classify(lines[k].text)
                                     && !Disputed(Fold(open, lines[..k]), Content(lines[k].text))
  }

  lemma {:induction false} FoldIsStandard(open: Option<Fence>, lines: seq<Line>)
    requires Undisputed(open, lines)
    ensures Fold(open, lines) == StandardFold(open, lines)
  {
    if lines != [] {
      var n := |lines| - 1;
      forall k | 0 <= k < n
        ensures lines[..n][k] == Classify(lines[..n][k].text)
            && !Disputed(Fold(open, lines[..n][..k]), Content(lines[..n][k].text))
      {
        assert lines[..n][..k] == lines[..k];
      }
      FoldIsStandard(open, lines[..n]);
      LineIsStandard(Fold(open, lines[..n]), lines[n].text);
    }
  }

  /** A committed block without disputed lines leaves no fence of CommonMark open either. */
  lemma {:induction false} BlocksAreStandard(chunks: seq<string>, block: string)
    requires Tidy(Flat(chunks)) && block in Feed(chunks).blocks && Undisputed(None, LinesOf(block))
    ensures StandardFold(None, LinesOf(block)).None?
  {
    BlocksAreClosed(chunks, block);
    FoldIsStandard(None, LinesOf(block));
  }

  // ------------------------------------------------------------------ the whole text

  /** Nothing, or whole lines. */
  predicate WholeLines(s: string) { s == "" || s[|s| - 1] == '\n' }

  lemma {:induction false} LinesConcat(a: string, b: string)
    requires WholeLines(a) && Tidy(a)
    ensures LinesOf(a + b) == LinesOf(a) + LinesOf(b)
  {
    if a == "" {
      assert a + b == b;
      assert LinesOf("") == [];
    } else {
      FirstLineOfWhole(a, b);
      var n := LineLength(a);
      LinesOfCons(a);
      LinesOfCons(a + b);
      LinesConcat(a[n..], b);
      ConcatSlices(a, b, n);
      Assoc([Classify(a[..n])], LinesOf(a[n..]), LinesOf(b));
    }
  }

  lemma ConcatSlices<T>(a: seq<T>, b: seq<T>, n: nat)
    requires n <= |a|
    ensures (a + b)[n..] == a[n..] + b && (a + b)[..n] == a[..n]
  {
  }

  lemma {:induction false} FirstLineOfWhole(a: string, b: string)
    requires a != "" && WholeLines(a) && Tidy(a)
    ensures EndsWell(a) && EndsWell(a + b) && LineLength(a + b) == LineLength(a)
    ensures WholeLines(a[LineLength(a)..]) && Tidy(a[LineLength(a)..])
  {
    var j := FirstBreak(a);
    assert IsBreak(a[|a| - 1]);
    assert TidyAt(a, j);
    FirstBreakIs(a + b, j);
    TidySlice(a, LineLength(a), |a|);
    assert a[LineLength(a)..|a|] == a[LineLength(a)..];
  }

  /** Everything committed so far. */
  function Done(chunks: seq<string>): string { Flat(Feed(chunks).pieces) }

  lemma {:induction false} ClosedThenClosed(a: string, b: string)
    requires WholeLines(a) && Tidy(a) && Closed(a) && Closed(b)
    ensures Closed(a + b)
  {
    LinesConcat(a, b);
    FoldConcat(None, LinesOf(a), LinesOf(b));
  }

  /** After each chunk what has been committed ends a line. */
  ghost predicate EndLines(chunks: seq<string>) {
    WholeLines(Done(chunks)) && (chunks == [] || EndLines(chunks[..|chunks| - 1]))
  }

  /** As long as every commit ends a line, no fence of the whole text is open where the committed text ends. */
  lemma {:induction false} WholeCommitsAreClosed(chunks: seq<string>)
    requires Tidy(Flat(chunks)) && (chunks != [] ==> EndLines(chunks[..|chunks| - 1]))
    ensures Closed(Done(chunks))
  {
    if chunks == [] {
      assert LinesOf("") == [];
    } else {
      var n := |chunks| - 1;
      var before := Feed(chunks[..n]);
      var cut := Committed(before.pending, chunks[n]);
      PendingIsTidy(chunks);
      WholeCommitsAreClosed(chunks[..n]);
      CommittedIsClosed(before.pending + chunks[n]);
      PiecesAreAll(cut);
      FlatConcat(before.pieces, Pieces(cut));
      NothingLost(chunks[..n]);
      TidyParts(Flat(chunks[..n]), Done(chunks[..n]), before.pending);
      ClosedThenClosed(Done(chunks[..n]), cut);
    }
  }

  // ------------------------------------------------------------------ which chunks make every commit end a line

  /** The text after the last LF. */
  function LastLine(s: string): string {
    if s == "" || s[|s| - 1] == '\n' then "" else LastLine(s[..|s| - 1]) + [s[|s| - 1]]
  }

  /** The text stops inside a line of which so far only white space has come, and not inside its break. */
  predicate StopsInBlank(s: string) { LastLine(s) != "" && Blank(LastLine(s)) && s[|s| - 1] != '\r' }

  /** ... and no fence is open there. */
  predicate CutsLine(s: string) { StopsInBlank(s) && OpenFence(s).None? }

  /** The text does so after none of the chunks. */
  ghost predicate NeverCutsLine(chunks: seq<string>) {
    !CutsLine(Flat(chunks)) && (chunks == [] || NeverCutsLine(chunks[..|chunks| - 1]))
  }

  lemma {:induction false} LastLineIs(s: string, i: nat)
    requires i <= |s| && (i == 0 || s[i - 1] == '\n') && forall k :: i <= k < |s| ==> s[k] != '\n'
    ensures LastLine(s) == s[i..]
  {
    if i < |s| {
      LastLineIs(s[..|s| - 1], i);
      assert s[i..] == s[..|s| - 1][i..] + [s[|s| - 1]];
    }
  }

  /**
   * From `i` to `j` there is one line: it starts after an LF or at the beginning, and ends with an LF or with
   * the text.
   */
  predicate LineSpan(s: string, i: nat, j: nat) {
    && i < j <= |s| && (i == 0 || s[i - 1] == '\n')
    && (s[j - 1] == '\n' || (j == |s| && forall x :: i <= x < j ==> s[x] != '\n'))
  }

  lemma SpanShift(s: string, n: nat, i: nat, j: nat)
    requires n <= |s| && LineSpan(s[n..], i, j) && (n == 0 || s[n - 1] == '\n')
    ensures LineSpan(s, n + i, n + j) && s[n + i..n + j] == s[n..][i..j]
  {
    assert forall x :: 0 <= x < |s| - n ==> s[n..][x] == s[n + x];
    if s[n + j - 1] != '\n' {
      forall x | n + i <= x < n + j ensures s[x] != '\n' { assert s[x] == s[n..][x - n]; }
    }
  }

  lemma FirstSpan(s: string)
    requires s != "" && EndsWell(s)
    ensures LineSpan(s, 0, LineLength(s)) && (LineLength(s) < |s| ==> s[LineLength(s) - 1] == '\n')
  {
  }

  /** Line `k` is such a stretch of the text. */
  ghost predicate LineAt(s: string, lines: seq<Line>, k: nat)
    requires k < |lines|
  {
    var i, j := Length(lines, k), Length(lines, k + 1);
    LineSpan(s, i, j) && lines[k].text == s[i..j]
  }

  /** A tidy text with lines is its first line and the rest. */
  lemma {:induction false} FirstLine(s: string, lines: seq<Line>) returns (n: nat, first: Line, rest: seq<Line>)
    requires Tidy(s) && lines == LinesOf(s) && lines != []
    ensures n <= |s| && LineSpan(s, 0, n) && (n < |s| ==> s[n - 1] == '\n') && Tidy(s[n..])
    ensures first.text == s[..n] && rest == LinesOf(s[n..]) && lines == [first] + rest
  {
    TidyLines(s);
    FirstSpan(s);
    n := LineLength(s);
    first, rest := Classify(s[..n]), LinesOf(s[n..]);
  }

  lemma {:induction false} LineEnds(s: string, lines: seq<Line>, k: nat)
    requires Tidy(s) && lines == LinesOf(s) && k < |lines|
    ensures LineAt(s, lines, k)
    decreases k
  {
    var n, first, rest := FirstLine(s, lines);
    if k > 0 { LineEnds(s[n..], rest, k - 1); }
    LaterLine(s, n, first, rest, k);
  }

  lemma {:induction false} LaterLine(s: string, n: nat, first: Line, rest: seq<Line>, k: nat)
    requires n <= |s| && first.text == s[..n] && LineSpan(s, 0, n) && (n < |s| ==> s[n - 1] == '\n')
    requires k <= |rest| && (k > 0 ==> LineAt(s[n..], rest, k - 1))
    ensures LineAt(s, [first] + rest, k)
  {
    if k == 0 {
      assert Length([first] + rest, 1) == n;
      assert s[0..n] == s[..n];
    } else {
      LengthCons(first, rest, k - 1);
      LengthCons(first, rest, k);
      SpanShift(s, n, Length(rest, k - 1), Length(rest, k));
    }
  }

  lemma {:induction false} MapAt<A, B>(s: seq<A>, f: A -> B, k: nat)
    requires k < |s|
    ensures Map(s, f)[k] == f(s[k])
  {
    if k > 0 { MapAt(s[1..], f, k - 1); }
  }

  /** What the scanners see in an unfinished line is its text. */
  lemma UnfinishedIsBlank(text: string)
    requires text != "" && text[|text| - 1] != '\n' && Classify(text).blank
    ensures Blank(text)
  {
    assert Content(text) == text;
  }

  lemma {:induction false} LineIsClassified(s: string, k: nat)
    requires k < |LinesOf(s)|
    ensures LinesOf(s)[k] == Classify(LinesOf(s)[k].text)
  {
    MapAt(Lines(s), Classify, k);
  }

  /** A scan marks the end of a blank line. */
  lemma {:induction false} MarkAfterBlank(source: string, lines: seq<Line>, n: nat) returns (a: nat)
    requires n <= |lines| && Length(lines, |lines|) <= |source|
    ensures a <= n && ScanLines(source, lines, n).mark == Length(lines, a) && (a > 0 ==> lines[a - 1].blank)
  {
    if n == 0 {
      a := 0;
    } else {
      a := MarkAfterBlank(source, lines, n - 1);
      if ScanLines(source, lines, n).mark != ScanLines(source, lines, n - 1).mark { a := n; }
    }
  }

  /** From `i` on there is one line without its LF, and only white space in it. */
  ghost predicate BlankFrom(s: string, i: nat) {
    && i < |s| && (i == 0 || s[i - 1] == '\n')
    && Blank(s[i..]) && forall x :: i <= x < |s| ==> s[x] != '\n'
  }

  /** What is committed of a text ends a line, or it is all of the text, which then stops inside a blank one. */
  lemma {:induction false} CommitEndsLine(all: string) returns (i: nat)
    requires Tidy(all) && !WholeLines(all[..ScanAll(all).mark])
    ensures BlankFrom(all, i) && ScanAll(all).mark == |all|
  {
    var a := MarkedAfterBlank(all, LinesOf(all));
    i := BlankLineAt(all, LinesOf(all), a);
  }

  /** The lines up to `a`, the last of them blank if there is one. */
  ghost predicate EndsBlank(s: string, lines: seq<Line>, a: nat) {
    && a <= |lines| && Length(lines, a) <= |s|
    && (a > 0 ==> LineAt(s, lines, a - 1) && lines[a - 1] == Classify(lines[a - 1].text) && lines[a - 1].blank)
  }

  lemma {:induction false} EndsBlankAt(s: string, lines: seq<Line>, a: nat)
    requires Tidy(s) && lines == LinesOf(s) && 0 < a <= |lines| && lines[a - 1].blank
    ensures EndsBlank(s, lines, a)
  {
    LengthGrows(lines, a, |lines|);
    LineEnds(s, lines, a - 1);
    LineIsClassified(s, a - 1);
  }

  lemma {:induction false} MarkedAfterBlank(all: string, lines: seq<Line>) returns (a: nat)
    requires Tidy(all) && lines == LinesOf(all)
    ensures EndsBlank(all, lines, a) && ScanLines(all, lines, |lines|).mark == Length(lines, a)
  {
    a := MarkAfterBlank(all, lines, |lines|);
    if a > 0 { EndsBlankAt(all, lines, a); }
  }

  lemma {:induction false} BlankLineAt(s: string, lines: seq<Line>, a: nat) returns (i: nat)
    requires EndsBlank(s, lines, a) && !WholeLines(s[..Length(lines, a)])
    ensures BlankFrom(s, i) && Length(lines, a) == |s|
  {
    assert s[..0] == "" && a > 0;
    i := Length(lines, a - 1);
    UnfinishedSpan(s, i, Length(lines, a));
    UnfinishedIsBlank(s[i..]);
  }

  lemma UnfinishedSpan(s: string, i: nat, j: nat)
    requires LineSpan(s, i, j) && !WholeLines(s[..j])
    ensures j == |s| && s[i..j] == s[i..] && s[i..][|s| - i - 1] != '\n' && forall x :: i <= x < |s| ==> s[x] != '\n'
  {
    assert s[..j][j - 1] == s[j - 1];
  }

  /** A line that is the whole text does not end in the middle of its break. */
  lemma {:induction false} LineEndsWell(s: string)
    requires Tidy(s) && s != "" && EndsWell(s)
    ensures LineLength(s) == |s| ==> s[|s| - 1] != '\r'
    ensures LineLength(s) < |s| ==> s[LineLength(s)..][|s| - LineLength(s) - 1] == s[|s| - 1]
    ensures Tidy(s[LineLength(s)..])
  {
    var n := LineLength(s);
    TidySlice(s, n, |s|);
    assert s[n..|s|] == s[n..];
  }

  /** The lines are all of a text, unless its last break lacks its LF. */
  lemma {:induction false} LinesAreAll(s: string)
    requires Tidy(s)
    ensures Length(LinesOf(s), |LinesOf(s)|) == |s| <==> s == "" || s[|s| - 1] != '\r'
  {
    if s == "" {
      assert LinesOf("") == [];
    } else if EndsWell(s) {
      var n := LineLength(s);
      LineEndsWell(s);
      LinesAreAll(s[n..]);
      LinesOfCons(s);
      LengthCons(Classify(s[..n]), LinesOf(s[n..]), |LinesOf(s[n..])|);
    } else {
      CutBreakIsLast(s);
      assert TidyAt(s, FirstBreak(s));
    }
  }

  lemma {:induction false} ScanFence(source: string, lines: seq<Line>, n: nat)
    requires n <= |lines| && Length(lines, |lines|) <= |source|
    ensures ScanLines(source, lines, n).fence == Fold(None, lines[..n])
  {
    if n > 0 {
      ScanFence(source, lines, n - 1);
      assert lines[..n][..n - 1] == lines[..n - 1];
    }
  }

  lemma {:induction false} LastLineIsBlank(s: string)
    requires Tidy(s) && StopsInBlank(s)
    ensures var lines := LinesOf(s); lines != [] && Length(lines, |lines|) == |s| && lines[|lines| - 1].blank
  {
    LinesAreAll(s);
    var lines := LinesOf(s);
    var n := |lines| - 1;
    LineEnds(s, lines, n);
    LineIsClassified(s, n);
    var i := Length(lines, n);
    assert s[|s| - 1] != '\n' && s[i..|s|] == s[i..];
    LastLineIs(s, i);
    assert Content(s[i..]) == s[i..];
  }

  /** A text that stops in a blank line outside a fence is committed to its end. */
  lemma {:induction false} BlankEndIsCommitted(s: string)
    requires Tidy(s) && CutsLine(s)
    ensures ScanAll(s).mark == |s|
  {
    LastLineIsBlank(s);
    var lines := LinesOf(s);
    var n := |lines|;
    ScanFence(s, lines, n);
    assert lines[..n] == lines;
    assert NextNonBlank(lines, n).None?;
    assert ScanLines(s, lines, n) == ScanLine(s, lines, n - 1, ScanLines(s, lines, n - 1));
  }

  lemma {:induction false} CutCommit(all: string)
    requires Tidy(all) && !WholeLines(all[..ScanAll(all).mark])
    ensures CutsLine(all)
  {
    var i := CommitEndsLine(all);
    LastLineIs(all, i);
    LinesAreAll(all);
    CommittedIsClosed(all);
    assert all[..|all|] == all;
  }

  /** A commit ends inside a line exactly where the text stops in a blank one outside a fence. */
  lemma {:induction false} CommitIsWhole(all: string)
    requires Tidy(all)
    ensures WholeLines(all[..ScanAll(all).mark]) <==> !CutsLine(all)
  {
    if CutsLine(all) {
      BlankEndIsCommitted(all);
      assert all[..|all|] == all && all[|all| - 1] == LastLine(all)[|LastLine(all)| - 1];
    } else if !WholeLines(all[..ScanAll(all).mark]) {
      CutCommit(all);
    }
  }

  lemma {:induction false} LastLineOfRest(done: string, rest: string)
    requires WholeLines(done)
    ensures LastLine(done + rest) == LastLine(rest)
  {
    if rest == "" {
      assert done + rest == done;
    } else {
      var n := |rest| - 1;
      assert (done + rest)[..|done + rest| - 1] == done + rest[..n];
      LastLineOfRest(done, rest[..n]);
    }
  }

  lemma {:induction false} CutsSame(done: string, rest: string)
    requires WholeLines(done) && Tidy(done) && Closed(done)
    ensures CutsLine(done + rest) <==> CutsLine(rest)
  {
    LastLineOfRest(done, rest);
    LinesConcat(done, rest);
    FoldConcat(None, LinesOf(done), LinesOf(rest));
  }

  lemma WholeConcat(a: string, b: string)
    requires WholeLines(a)
    ensures WholeLines(a + b) <==> WholeLines(b)
  {
    if b == "" { assert a + b == a; }
  }

  lemma {:induction false} DoneSnoc(chunks: seq<string>)
    requires chunks != []
    ensures var n := |chunks| - 1; Done(chunks) == Done(chunks[..n]) + Committed(Feed(chunks[..n]).pending, chunks[n])
  {
    var n := |chunks| - 1;
    var before := Feed(chunks[..n]);
    var cut := Committed(before.pending, chunks[n]);
    PiecesAreAll(cut);
    FlatConcat(before.pieces, Pieces(cut));
  }

  /**
   * Every commit of a run of chunks ends a line if and only if the text never stops, where a chunk ends, inside a
   * blank line outside its fences.
   */
  lemma {:induction false} CommitsEndLines(chunks: seq<string>)
    requires Tidy(Flat(chunks))
    ensures EndLines(chunks) <==> NeverCutsLine(chunks)
  {
    if chunks != [] {
      var n := |chunks| - 1;
      PendingIsTidy(chunks);
      CommitsEndLines(chunks[..n]);
      if EndLines(chunks[..n]) { LastCommit(chunks); }
    }
  }

  lemma {:induction false} LastCommit(chunks: seq<string>)
    requires chunks != [] && Tidy(Flat(chunks)) && EndLines(chunks[..|chunks| - 1])
    ensures WholeLines(Done(chunks)) <==> !CutsLine(Flat(chunks))
  {
    var n := |chunks| - 1;
    var done, pending := Done(chunks[..n]), Feed(chunks[..n]).pending;
    PendingIsTidy(chunks);
    NothingLost(chunks[..n]);
    TidyParts(Flat(chunks[..n]), done, pending);
    Assoc(done, pending, chunks[n]);
    WholeCommitsAreClosed(chunks[..n]);
    DoneSnoc(chunks);
    CommitIsWhole(pending + chunks[n]);
    WholeConcat(done, Committed(pending, chunks[n]));
    CutsSame(done, pending + chunks[n]);
  }

  /**
   * If between two chunks the text never stops inside a blank line outside its fences, no fence of the whole text is
   * open where the committed text ends, so every block also begins and ends outside the whole text's fences.
   */
  lemma {:induction false} WholeTextIsClosed(chunks: seq<string>)
    requires Tidy(Flat(chunks)) && (chunks != [] ==> NeverCutsLine(chunks[..|chunks| - 1]))
    ensures Closed(Done(chunks))
  {
    if chunks != [] {
      var n := |chunks| - 1;
      PendingIsTidy(chunks);
      CommitsEndLines(chunks[..n]);
    }
    WholeCommitsAreClosed(chunks);
  }

  // ------------------------------------------------------------------ a commit inside a line

  /** One line with its break, and what the scanners see in it. */
  predicate WholeLine(line: string)
  {
    line != "" && line[|line| - 1] == '\n' && forall i :: 0 <= i < |line| - 1 ==> !IsBreak(line[i])
  }

  predicate PartLine(line: string) { line != "" && forall i :: 0 <= i < |line| ==> !IsBreak(line[i]) }

  predicate Plain(line: Line) { line.blank && line.fence == None && !line.item }

  predicate BareFence(line: Line) { line.fence.Some? && line.bare && !line.item && !line.blank }

  lemma LineThen(line: string, rest: string)
    requires WholeLine(line)
    ensures LinesOf(line + rest) == [Classify(line)] + LinesOf(rest)
  {
    FirstBreakIs(line + rest, |line| - 1);
    LinesOfCons(line + rest);
    ConcatSlices(line, rest, |line|);
    assert line[..|line|] == line && line[|line|..] + rest == rest;
  }

  lemma OneLine(line: string)
    requires WholeLine(line) || PartLine(line)
    ensures LinesOf(line) == [Classify(line)]
  {
    if PartLine(line) { FirstBreakIs(line, |line|); } else { FirstBreakIs(line, |line| - 1); }
    LinesOfCons(line);
    assert line[..|line|] == line && line[|line|..] == "";
    assert LinesOf("") == [];
  }

  lemma TwoLines(a: string, b: string)
    requires WholeLine(a) && (WholeLine(b) || PartLine(b))
    ensures LinesOf(a + b) == [Classify(a), Classify(b)]
  {
    LineThen(a, b);
    OneLine(b);
  }

  lemma ThreeLines(a: string, b: string, c: string)
    requires WholeLine(a) && WholeLine(b) && WholeLine(c)
    ensures LinesOf(a + (b + c)) == [Classify(a), Classify(b), Classify(c)]
  {
    LineThen(a, b + c);
    TwoLines(b, c);
  }

  /** Two blank lines: everything is committed. */
  lemma TwoBlankLines(source: string, a: Line, b: Line)
    requires Plain(a) && Plain(b) && |source| == |a.text| + |b.text|
    ensures Length([a, b], 2) == |source| && ScanLines(source, [a, b], 2).mark == |source|
  {
    var lines := [a, b];
    assert Length(lines, 1) == |a.text|;
    var s := ScanLines(source, lines, 1);
    assert s == ScanLine(source, lines, 0, ScanLines(source, lines, 0));
  }

  /** A fence that is opened and closed at once, and a blank line: everything is committed. */
  lemma FenceAndBlankLine(source: string, f: Line, b: Line)
    requires BareFence(f) && Plain(b) && |source| == 2 * |f.text| + |b.text|
    ensures Length([f, f, b], 3) == |source| && ScanLines(source, [f, f, b], 3).mark == |source|
  {
    var lines := [f, f, b];
    assert Length(lines, 1) == |f.text|;
    assert Length(lines, 2) == 2 * |f.text|;
    var s := ScanLines(source, lines, 1);
    assert s == ScanLine(source, lines, 0, ScanLines(source, lines, 0));
    var t := ScanLines(source, lines, 2);
    assert t == ScanLine(source, lines, 1, s);
    assert t.fence == None && !t.list;
  }

  lemma FoldFour(a: Line, b: Line, c: Line, d: Line)
    ensures Fold(None, [a, b, c, d]) == FenceAfter(FenceAfter(FenceAfter(FenceAfter(None, a), b), c), d)
  {
    assert [a, b, c, d][..3] == [a, b, c] && [a, b, c][..2] == [a, b] && [a, b][..1] == [a] && [a][..0] == [];
    assert Fold(None, [a]) == FenceAfter(None, a);
    assert Fold(None, [a, b]) == FenceAfter(Fold(None, [a]), b);
  }

  lemma {:induction false} FeedWhole(chunks: seq<string>, chunk: string)
    requires Feed(chunks).pending == "" && ScanAll(chunk).mark == |chunk|
    ensures Feed(chunks + [chunk]).pending == "" && Done(chunks + [chunk]) == Done(chunks) + chunk
  {
    assert (chunks + [chunk])[..|chunks|] == chunks;
    WholeIsCommitted(chunk);
    PiecesAreAll(chunk);
    FlatConcat(Feed(chunks).pieces, Pieces(chunk));
  }

  lemma WholeIsCommitted(chunk: string)
    requires ScanAll(chunk).mark == |chunk|
    ensures Committed("", chunk) == chunk && Append("", chunk, false).pending == ""
  {
    assert "" + chunk == chunk;
    assert chunk[..|chunk|] == chunk && chunk[|chunk|..] == "";
  }

  lemma {:induction false} FeedTwo(a: string, b: string)
    requires ScanAll(a).mark == |a| && ScanAll(b).mark == |b|
    ensures Done([a, b]) == a + b
  {
    assert [] + [a] == [a] && [a] + [b] == [a, b];
    FeedWhole([], a);
    FeedWhole([a], b);
    assert Done([]) + a == a;
  }

  lemma {:induction false} MarginIsCommitted(e: string, m: string)
    requires WholeLine(e) && Plain(Classify(e)) && PartLine(m) && Plain(Classify(m))
    ensures ScanAll(e + m).mark == |e + m|
  {
    TwoLines(e, m);
    TwoBlankLines(e + m, Classify(e), Classify(m));
  }

  lemma {:induction false} FencesAreCommitted(f: string, e: string)
    requires WholeLine(f) && BareFence(Classify(f)) && WholeLine(e) && Plain(Classify(e))
    ensures ScanAll(f + (f + e)).mark == |f + (f + e)|
  {
    ThreeLines(f, f, e);
    FenceAndBlankLine(f + (f + e), Classify(f), Classify(e));
  }

  lemma LineThenThree(line: string, rest: string, a: Line, b: Line, c: Line)
    requires WholeLine(line) && LinesOf(rest) == [a, b, c]
    ensures LinesOf(line + rest) == [Classify(line), a, b, c]
  {
    LineThen(line, rest);
  }

  lemma {:induction false} WholeTextLines(e: string, mf: string, f: string)
    requires WholeLine(e) && WholeLine(mf) && WholeLine(f)
    ensures LinesOf(e + (mf + (f + e))) == [Classify(e), Classify(mf), Classify(f), Classify(e)]
  {
    ThreeLines(mf, f, e);
    LineThenThree(e, mf + (f + e), Classify(mf), Classify(f), Classify(e));
  }

  lemma FourFences(e: Line, mf: Line, f: Line)
    requires Plain(e) && BareFence(f) && mf.fence == None
    ensures Fold(None, [e, mf, f, e]) == f.fence
  {
    FoldFour(e, mf, f, e);
  }

  lemma {:induction false} WholeTextFence(e: string, m: string, f: string)
    requires WholeLine(e) && Plain(Classify(e)) && WholeLine(f) && BareFence(Classify(f))
    requires PartLine(m) && Classify(m + f).fence == None
    ensures OpenFence(e + m + (f + (f + e))) == Classify(f).fence
  {
    Regrouped(e, m, f);
    PartThenWhole(m, f);
    WholeTextLines(e, m + f, f);
    FourFences(Classify(e), Classify(m + f), Classify(f));
  }

  lemma PartThenWhole(m: string, f: string)
    requires PartLine(m) && WholeLine(f)
    ensures WholeLine(m + f)
  {
  }

  lemma Regrouped(e: string, m: string, f: string)
    ensures e + m + (f + (f + e)) == e + (m + f + (f + e))
  {
  }

  /**
   * When a chunk ends inside a line, after a blank part `m` of it, that part is committed with
   * what is before it and the next chunk starts a line of its own. If `f` is a fence but `m + f`
   * is not, the block after it is cut where the whole text has a fence open.
   */
  lemma {:induction false} CommitInsideALine(e: string, m: string, f: string)
    requires WholeLine(e) && Plain(Classify(e)) && WholeLine(f) && BareFence(Classify(f))
    requires PartLine(m) && Plain(Classify(m)) && Classify(m + f).fence == None
    ensures Done([e + m, f + (f + e)]) == e + m + (f + (f + e))
    ensures !Closed(Done([e + m, f + (f + e)]))
  {
    MarginIsCommitted(e, m);
    FencesAreCommitted(f, e);
    FeedTwo(e + m, f + (f + e));
    WholeTextFence(e, m, f);
  }

  // An empty line, four spaces, and three backticks are such lines.

  lemma TicksLine()
    ensures WholeLine("```\n") && BareFence(Classify("```\n"))
  {
    var content := Content("```\n");
    assert content == "```";
    assert Indent(content) == 0;
    assert Span(content, 3, c => c == content[0]) == 0;
    assert Span(content, 2, c => c == content[0]) == 1;
    assert Span(content, 1, c => c == content[0]) == 2;
    assert Span(content, 0, c => c == content[0]) == 3;
    assert content[3..] == "";
  }

  lemma IndentedLine()
    ensures Classify("    " + "```\n").fence == None
  {
    assert "    " + "```\n" == "    ```\n";
    assert Content("    ```\n") == "    ```";
    FourSpaces("    ```");
  }

  lemma FourSpaces(s: string)
    requires |s| >= 4 && s[0] == ' ' && s[1] == ' ' && s[2] == ' ' && s[3] == ' '
    ensures Indent(s) > 3
  {
  }

  lemma BlankLines()
    ensures WholeLine("\n") && Plain(Classify("\n")) && PartLine("    ") && Plain(Classify("    "))
  {
    FourSpaces("    ");
  }

  lemma {:induction false} SuchLines() returns (e: string, m: string, f: string)
    ensures WholeLine(e) && Plain(Classify(e)) && WholeLine(f) && BareFence(Classify(f))
    ensures PartLine(m) && Plain(Classify(m)) && Classify(m + f).fence == None
  {
    BlankLines();
    TicksLine();
    IndentedLine();
    e, m, f := "\n", "    ", "```\n";
  }

  lemma TidyConcat(a: string, b: string)
    requires Tidy(a) && Tidy(b) && (a == "" || a[|a| - 1] != '\r')
    ensures Tidy(a + b)
  {
    forall i | 0 <= i < |a + b| ensures TidyAt(a + b, i) {
      if i < |a| { assert TidyAt(a, i); } else { assert TidyAt(b, i - |a|); }
    }
  }

  lemma LineIsTidy(line: string)
    requires WholeLine(line) || PartLine(line)
    ensures Tidy(line) && line[|line| - 1] != '\r'
  {
    assert IsBreak('\r');
    forall i | 0 <= i < |line| ensures TidyAt(line, i) { }
  }

  lemma TidyText(e: string, m: string, f: string)
    requires WholeLine(e) && PartLine(m) && WholeLine(f)
    ensures Tidy(e + m + (f + (f + e)))
  {
    LineIsTidy(e);
    LineIsTidy(m);
    LineIsTidy(f);
    TidyConcat(f, e);
    TidyConcat(f, f + e);
    TidyConcat(e, m);
    TidyConcat(e + m, f + (f + e));
  }

  /** So there is a text, with no line breaks but LF, that is cut inside one of its own fences. */
  lemma {:induction false} CutInsideAFence() returns (chunks: seq<string>)
    ensures Tidy(Flat(chunks)) && !Closed(Done(chunks))
  {
    var e, m, f := SuchLines();
    CommitInsideALine(e, m, f);
    chunks := [e + m, f + (f + e)];
    FlatTwo(e + m, f + (f + e));
    TidyText(e, m, f);
  }
}
