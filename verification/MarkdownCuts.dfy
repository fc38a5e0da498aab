/** Where the Markdown splitter cuts, said of the lines themselves, and that it commits all it may. */
module MarkdownCuts {
  import opened Common
  import opened Numerals
  import opened MarkdownBlocks
  import opened MarkdownTheorems

  // ------------------------------------------------------------------ one line

  predicate OnlySpaces(s: string, k: nat)
    requires k <= |s|
  {
    forall i :: 0 <= i < k ==> s[i] == ' '
  }

  /** What begins an item: one of the three bullets, or digits and a full stop or a parenthesis. */
  predicate Marker(s: string) {
    || s == "-" || s == "+" || s == "*"
    || (|s| >= 2 && (s[|s| - 1] == '.' || s[|s| - 1] == ')') && forall i :: 0 <= i < |s| - 1 ==> '0' <= s[i] <= '9')
  }

  /** A list item: at most three spaces, a marker, and white space after it. */
  ghost predicate BeginsItem(s: string) {
    exists k, m :: 0 <= k <= 3 && k < m < |s| && OnlySpaces(s, k) && Marker(s[k..m]) && IsSpace(s[m])
  }

  lemma {:induction false} SpanIs(s: string, i: nat, p: char -> bool, n: nat)
    requires i + n <= |s| && (forall k :: i <= k < i + n ==> p(s[k])) && (i + n < |s| ==> !p(s[i + n]))
    ensures Span(s, i, p) == n
    decreases n
  {
    if n > 0 { SpanIs(s, i + 1, p, n - 1); }
  }

  /** A line is taken for an item exactly if it begins one. */
  lemma {:induction false} ItemIs(s: string)
    ensures IsListItem(s) <==> BeginsItem(s)
  {
    if IsListItem(s) { ItemBegins(s); }
    if BeginsItem(s) {
      var k, m :| 0 <= k <= 3 && k < m < |s| && OnlySpaces(s, k) && Marker(s[k..m]) && IsSpace(s[m]);
      BeginsAt(s, k, m);
    }
  }

  lemma ItemBegins(s: string)
    requires IsListItem(s)
    ensures BeginsItem(s)
  {
    var k := Indent(s);
    var n := Span(s, k, IsDigit);
    assert OnlySpaces(s, k);
    if n > 0 && k + n + 1 < |s| && (s[k + n] == '.' || s[k + n] == ')') && IsSpace(s[k + n + 1]) {
      assert Marker(s[k..k + n + 1]);
    } else {
      assert Marker(s[k..k + 1]);
    }
  }

  lemma BeginsAt(s: string, k: nat, m: nat)
    requires k <= 3 && k < m < |s| && OnlySpaces(s, k) && Marker(s[k..m]) && IsSpace(s[m])
    ensures IsListItem(s)
  {
    assert s[k] == s[k..m][0] && s[m - 1] == s[k..m][m - k - 1];
    assert !(s[k] == ' ');
    SpanIs(s, 0, c => c == ' ', k);
    if m > k + 1 {
      forall i | k <= i < m - 1 ensures IsDigit(s[i]) { assert s[i] == s[k..m][i - k]; }
      SpanIs(s, k, IsDigit, m - 1 - k);
    }
  }

  /** A line goes on with a list exactly if it begins with two characters of white space or begins an item. */
  lemma ContinuesIs(s: string)
    ensures ContinuesList(s) <==> (|s| >= 2 && IsSpace(s[0]) && IsSpace(s[1])) || BeginsItem(s)
  {
    ItemIs(s);
  }

  /** Up to three spaces, and then so many of one marker and no more. */
  ghost predicate HasFence(s: string, k: nat, f: Fence) {
    && k <= 3 && f.length >= 3 && k + f.length <= |s| && OnlySpaces(s, k) && (f.marker == '`' || f.marker == '~')
    && (forall i :: k <= i < k + f.length ==> s[i] == f.marker)
    && (k + f.length < |s| ==> s[k + f.length] != f.marker)
  }

  lemma {:induction false} FenceBegins(s: string, k: nat, f: Fence)
    requires HasFence(s, k, f)
    ensures FenceOn(s) == Some(f) && AfterFence(s) == s[k + f.length..]
  {
    assert s[k] == f.marker;
    SpanIs(s, 0, c => c == ' ', k);
    SpanIs(s, k, c => c == s[k], f.length);
  }

  /** A line looks like a fence exactly if it has one, and what follows is all that stands behind it. */
  lemma {:induction false} FenceIs(s: string, f: Fence)
    ensures FenceOn(s) == Some(f) <==> exists k :: HasFence(s, k, f)
  {
    if FenceOn(s) == Some(f) { assert HasFence(s, Indent(s), f); }
    if k :| HasFence(s, k, f) { FenceBegins(s, k, f); }
  }

  /** The content of a line is the line without its LF or CRLF. */
  lemma ContentIs(line: string)
    ensures
      var content := Content(line);
      && (line == content || line == content + "\n" || line == content + "\r\n")
      && (line == content <==> line == "" || line[|line| - 1] != '\n')
      && (line == content + "\n" ==> content == "" || content[|content| - 1] != '\r')
  {
  }

  /** The white space of ECMAScript: its WhiteSpace and LineTerminator. */
  const WHITE_SPACE := "\t\n\U{B}\U{C}\r \U{A0}\U{1680}\U{2000}\U{2001}\U{2002}\U{2003}\U{2004}\U{2005}\U{2006}"
    + "\U{2007}\U{2008}\U{2009}\U{200A}\U{2028}\U{2029}\U{202F}\U{205F}\U{3000}\U{FEFF}"

  lemma SpaceIs(c: char)
    ensures IsSpace(c) <==> c in WHITE_SPACE
  {
  }

  /** A line is blank exactly if it holds nothing else. */
  lemma BlankIs(s: string)
    ensures Blank(s) <==> forall c :: c in s ==> c in WHITE_SPACE
  {
    forall c | c in s ensures IsSpace(c) <==> c in WHITE_SPACE { SpaceIs(c); }
    forall i | 0 <= i < |s| ensures s[i] in s { }
  }

  // ------------------------------------------------------------------ where a cut may be

  /** No fence is open after the first `n` lines. */
  predicate NoFence(lines: seq<Line>, n: nat)
    requires n <= |lines|
  {
    Fold(None, lines[..n]).None?
  }

  /** The next line after line `n` that is not blank goes on with a list. */
  ghost predicate Continued(lines: seq<Line>, n: nat) {
    exists j :: n < j < |lines| && !lines[j].blank && lines[j].continues && forall i :: n < i < j ==> lines[i].blank
  }

  /** A list item stands outside all fences at or before line `n`, with no cut since. */
  ghost predicate InList(lines: seq<Line>, n: nat)
    requires n < |lines|
    decreases n, 0
  {
    exists k :: 0 <= k <= n && lines[k].item && NoFence(lines, k + 1) && forall m :: k <= m < n ==> !IsCut(lines, m)
  }

  /** The text may be cut after line `n`: it is blank, outside all fences, and does not stand inside a list. */
  ghost predicate IsCut(lines: seq<Line>, n: nat)
    requires n < |lines|
    decreases n, 1
  {
    lines[n].blank && NoFence(lines, n + 1) && !(InList(lines, n) && Continued(lines, n))
  }

  /** How many lines come before the last place to cut of the first `n` lines. */
  ghost function LastCut(lines: seq<Line>, n: nat): (c: nat)
    requires n <= |lines|
    ensures c <= n && (c > 0 ==> IsCut(lines, c - 1)) && forall m :: c <= m < n ==> !IsCut(lines, m)
  {
    if n == 0 then 0 else if IsCut(lines, n - 1) then n else LastCut(lines, n - 1)
  }

  /** The text between one cut and the next. */
  ghost function Slices(source: string, lines: seq<Line>, n: nat): seq<string>
    requires n <= |lines| && Length(lines, |lines|) <= |source|
  {
    if n == 0 then []
    else if !IsCut(lines, n - 1) then Slices(source, lines, n - 1)
    else
      var c := LastCut(lines, n - 1);
      LengthGrows(lines, c, n);
      LengthGrows(lines, n, |lines|);
      Slices(source, lines, n - 1) + [source[Length(lines, c)..Length(lines, n)]]
  }

  lemma {:induction false} NextIs(lines: seq<Line>, start: nat)
    requires start <= |lines|
    ensures
      var next := NextNonBlank(lines, start);
      if next.None? then forall i :: start <= i < |lines| ==> lines[i].blank
      else exists j :: start <= j < |lines| && lines[j] == next.value && !lines[j].blank
                       && forall i :: start <= i < j ==> lines[i].blank
    decreases |lines| - start
  {
    if start < |lines| && lines[start].blank { NextIs(lines, start + 1); }
  }

  lemma {:induction false} ContinuedIs(lines: seq<Line>, n: nat)
    requires n < |lines|
    ensures var next := NextNonBlank(lines, n + 1);
      Continued(lines, n) <==> next.Some? && next.value.continues
  {
    NextIs(lines, n + 1);
  }

  lemma {:induction false} FoldSnoc(lines: seq<Line>, n: nat)
    requires n < |lines|
    ensures Fold(None, lines[..n + 1]) == FenceAfter(Fold(None, lines[..n]), lines[n])
  {
    assert lines[..n + 1] == lines[..n] + [lines[n]];
    FoldConcat(None, lines[..n], [lines[n]]);
    assert [lines[n]][1..] == [];
  }

  /** A list is open after the first `n` lines. */
  ghost predicate ListOpen(lines: seq<Line>, n: nat)
    requires n <= |lines|
  {
    exists k :: 0 <= k < n && lines[k].item && NoFence(lines, k + 1) && forall m :: k <= m < n ==> !IsCut(lines, m)
  }

  lemma {:induction false} ListGoesOn(lines: seq<Line>, n: nat)
    requires n < |lines|
    ensures InList(lines, n) <==> ListOpen(lines, n) || (lines[n].item && NoFence(lines, n + 1))
  {
  }

  lemma {:induction false} ListStaysOpen(lines: seq<Line>, n: nat)
    requires n < |lines|
    ensures ListOpen(lines, n + 1) <==> InList(lines, n) && !IsCut(lines, n)
  {
    if InList(lines, n) && !IsCut(lines, n) {
      var k :| 0 <= k <= n && lines[k].item && NoFence(lines, k + 1) && forall m :: k <= m < n ==> !IsCut(lines, m);
      assert forall m :: k <= m < n + 1 ==> !IsCut(lines, m);
    }
    if ListOpen(lines, n + 1) {
      var k :| 0 <= k < n + 1 && lines[k].item && NoFence(lines, k + 1)
        && forall m :: k <= m < n + 1 ==> !IsCut(lines, m);
      assert !IsCut(lines, n);
    }
  }

  /** The scan stands where the lines say. */
  ghost predicate StandsAt(source: string, lines: seq<Line>, n: nat, s: Scan)
    requires n <= |lines| && Length(lines, |lines|) <= |source|
  {
    && s.fence == Fold(None, lines[..n]) && (s.list <==> ListOpen(lines, n))
    && s.mark == Length(lines, LastCut(lines, n)) && s.pieces == Slices(source, lines, n)
  }

  lemma {:induction false} ScanStands(source: string, lines: seq<Line>, n: nat)
    requires n <= |lines| && Length(lines, |lines|) <= |source|
    ensures StandsAt(source, lines, n, ScanLines(source, lines, n))
  {
    if n > 0 {
      ScanStands(source, lines, n - 1);
      StandsOn(source, lines, n - 1, ScanLines(source, lines, n - 1), ScanLines(source, lines, n));
    }
  }

  lemma {:induction false} StandsOn(source: string, lines: seq<Line>, n: nat, s: Scan, r: Scan)
    requires n < |lines| && Length(lines, |lines|) <= |source| && StandsAt(source, lines, n, s)
    requires s.mark <= s.offset == Length(lines, n) && s.offset + |lines[n].text| <= |source|
    requires r == ScanLine(source, lines, n, s)
    ensures StandsAt(source, lines, n + 1, r)
  {
    FoldSnoc(lines, n);
    ListGoesOn(lines, n);
    ListStaysOpen(lines, n);
    ContinuedIs(lines, n);
  }

  // ------------------------------------------------------------------ theorems

  /** The text is cut at every place where it may be cut, and nowhere else. */
  lemma {:induction false} PiecesAreSlices(source: string)
    ensures
      var lines := LinesOf(source);
      var cut := Length(lines, LastCut(lines, |lines|));
      cut <= |source|
      && Pieces(source) == Slices(source, lines, |lines|) + if cut == |source| then [] else [source[cut..]]
  {
    var lines := LinesOf(source);
    ScanStands(source, lines, |lines|);
    LengthGrows(lines, LastCut(lines, |lines|), |lines|);
    var s := ScanLines(source, lines, |lines|);
    assert s.pieces + [] == s.pieces;
  }

  /**
   * Text that is appended is committed up to the last place where what has not been committed may be cut, and not a
   * character more is kept pending.
   */
  lemma {:induction false} CommitsAllItMay(buffer: string, text: string)
    ensures
      var all := buffer + text;
      var lines, r := LinesOf(all), Append(buffer, text, false);
      var cut := Length(lines, LastCut(lines, |lines|));
      cut <= |all| && r.pending == all[cut..] && r.blocks == Filter(Pieces(all[..cut]), NonBlank)
  {
    var all := buffer + text;
    ScanStands(all, LinesOf(all), |LinesOf(all)|);
    BlocksAreKept(all[..ScanAll(all).mark]);
  }
}
