/** Nothing of a text that arrives in pieces is lost, and no block is cut inside a fence. */
module MarkdownTheorems {
  import opened Common
  import opened MarkdownBlocks

  /** After some appends: the blocks given out, the text still pending, and the slices the blocks were chosen from. */
  datatype Fed = Fed(blocks: seq<string>, pending: string, pieces: seq<string>)

  /** What one append of unfinished text commits. */
  function Committed(buffer: string, text: string): string { (buffer + text)[..ScanAll(buffer + text).mark] }

  function Feed(chunks: seq<string>): Fed {
    if chunks == [] then Fed([], "", [])
    else
      var n := |chunks| - 1;
      var before := Feed(chunks[..n]);
      var a := Append(before.pending, chunks[n], false);
      Fed(before.blocks + a.blocks, a.pending, before.pieces + Pieces(Committed(before.pending, chunks[n])))
  }

  lemma {:induction false} PiecesAreAll(source: string)
    ensures Flat(Pieces(source)) == source
  {
    PiecesInAreAll(source, LinesOf(source));
  }

  lemma Halves<T>(s: seq<T>, n: nat)
    requires n <= |s|
    ensures s[..n] + s[n..] == s
  {
  }

  lemma {:induction false} AppendKeepsAll(buffer: string, text: string)
    ensures Flat(Pieces(Committed(buffer, text))) + Append(buffer, text, false).pending == buffer + text
    ensures Append(buffer, text, false).blocks == Filter(Pieces(Committed(buffer, text)), NonBlank)
  {
    var all := buffer + text;
    PiecesAreAll(Committed(buffer, text));
    BlocksAreKept(Committed(buffer, text));
    Halves(all, ScanAll(all).mark);
  }

  lemma NothingLostStep(done: seq<string>, pending: string, chunk: string, slices: seq<string>, rest: string,
      sofar: string)
    requires Flat(done) + pending == sofar && Flat(slices) + rest == pending + chunk
    ensures Flat(done + slices) + rest == sofar + chunk
  {
    FlatConcat(done, slices);
    Assoc(Flat(done), Flat(slices), rest);
    Assoc(Flat(done), pending, chunk);
  }

  lemma FedStep(before: Fed, a: Appended, slices: seq<string>, chunk: string, sofar: string)
    requires Flat(before.pieces) + before.pending == sofar && before.blocks == Filter(before.pieces, NonBlank)
    requires Flat(slices) + a.pending == before.pending + chunk && a.blocks == Filter(slices, NonBlank)
    ensures Flat(before.pieces + slices) + a.pending == sofar + chunk
    ensures before.blocks + a.blocks == Filter(before.pieces + slices, NonBlank)
  {
    NothingLostStep(before.pieces, before.pending, chunk, slices, a.pending, sofar);
    FilterConcat(before.pieces, slices, NonBlank);
  }

  /**
   * Nothing is lost: the slices and the pending text are, in order, everything appended, and the
   * blocks are those slices without the ones that are only white space.
   */
  lemma {:induction false} NothingLost(chunks: seq<string>)
    ensures Flat(Feed(chunks).pieces) + Feed(chunks).pending == Flat(chunks)
    ensures Feed(chunks).blocks == Filter(Feed(chunks).pieces, NonBlank)
  {
    if chunks != [] {
      var n := |chunks| - 1;
      var before := Feed(chunks[..n]);
      NothingLost(chunks[..n]);
      AppendKeepsAll(before.pending, chunks[n]);
      FedStep(before, Append(before.pending, chunks[n], false), Pieces(Committed(before.pending, chunks[n])), chunks[n],
          Flat(chunks[..n]));
    }
  }

  /** Finishing gives out all that was pending as one last block. */
  lemma {:induction false} NothingLostAtTheEnd(chunks: seq<string>, last: string)
    ensures
      var end := Append(Feed(chunks).pending, last, true);
      Flat(Feed(chunks).pieces) + Flat(end.blocks) == Flat(chunks) + last && end.pending == ""
  {
    var fed := Feed(chunks);
    NothingLost(chunks);
    Assoc(Flat(fed.pieces), fed.pending, last);
    var all := fed.pending + last;
    assert Flat([all]) == all by {
      assert [all] == [] + [all];
    }
  }

  // ------------------------------------------------------------------ lines of a slice

  predicate TidyAt(s: string, i: nat)
    requires i < |s|
  {
    IsBreak(s[i]) ==> s[i] == '\n' || (s[i] == '\r' && (i + 1 == |s| || s[i + 1] == '\n'))
  }

  /** The only line breaks are LF and CRLF, the last of which may still lack its LF. */
  predicate Tidy(s: string) { forall i :: 0 <= i < |s| ==> TidyAt(s, i) }

  lemma TidySlice(s: string, i: nat, j: nat)
    requires Tidy(s) && i <= j <= |s|
    ensures Tidy(s[i..j])
  {
    forall k | 0 <= k < j - i ensures TidyAt(s[i..j], k) {
      assert TidyAt(s, i + k);
    }
  }

  lemma FirstBreakIs(s: string, j: nat)
    requires j <= |s| && (forall i :: 0 <= i < j ==> !IsBreak(s[i])) && (j < |s| ==> IsBreak(s[j]))
    ensures FirstBreak(s) == j
  {
  }

  /** The first line of `s` is the first line of every slice of `s` that holds it. */
  lemma {:induction false} FirstLineOfPrefix(s: string, n: nat)
    requires s != "" && Tidy(s) && EndsWell(s) && LineLength(s) <= n <= |s|
    ensures EndsWell(s[..n]) && LineLength(s[..n]) == LineLength(s)
  {
    var j := FirstBreak(s);
    if j < |s| { FirstBreakIs(s[..n], j); } else { assert s[..n] == s; }
  }

  lemma {:induction false} LinesOfCons(s: string)
    requires s != ""
    ensures EndsWell(s) ==> LinesOf(s) == [Classify(s[..LineLength(s)])] + LinesOf(s[LineLength(s)..])
    ensures !EndsWell(s) ==> LinesOf(s) == LinesOf(s[LineLength(s)..])
  {
    var n := LineLength(s);
    if EndsWell(s) {
      assert Lines(s)[1..] == Lines(s[n..]);
    } else {
      assert Lines(s) == Lines(s[n..]);
    }
  }

  lemma {:induction false} CutBreakIsLast(s: string)
    requires s != "" && Tidy(s) && !EndsWell(s)
    ensures s[LineLength(s)..] == "" && LinesOf(s) == []
  {
    assert TidyAt(s, FirstBreak(s));
    assert s[LineLength(s)..] == "";
    LinesOfCons(s);
    assert Lines("") == [];
  }

  /** The texts of `lines` from the `a`th up to the `b`th are a slice of `s`, which `split` splits into those lines. */
  ghost predicate Splits(split: string -> seq<Line>, s: string, lines: seq<Line>, a: nat, b: nat)
    requires a <= b <= |lines|
  {
    && Length(lines, a) <= Length(lines, b) <= |s|
    && split(s[Length(lines, a)..Length(lines, b)]) == lines[a..b]
  }

  lemma {:induction false} SliceLater(s: string, n: nat, first: Line, rest: seq<Line>, a: nat, b: nat)
    requires n <= |s| && first.text == s[..n] && 1 <= a <= b <= |rest| + 1
    requires Length(rest, a - 1) <= Length(rest, b - 1) <= |s| - n
    ensures Length([first] + rest, a) == n + Length(rest, a - 1) && Length([first] + rest, b) == n + Length(rest, b - 1)
    ensures s[n + Length(rest, a - 1)..n + Length(rest, b - 1)] == s[n..][Length(rest, a - 1)..Length(rest, b - 1)]
  {
    LengthCons(first, rest, a - 1);
    LengthCons(first, rest, b - 1);
  }

  /** From the rest of a text to the text, for a cut after its first line. */
  lemma {:induction false} ResplitLater(split: string -> seq<Line>, s: string, n: nat, first: Line, rest: seq<Line>,
      a: nat, b: nat)
    requires n <= |s| && first.text == s[..n] && 1 <= a <= b <= |rest| + 1
    requires Splits(split, s[n..], rest, a - 1, b - 1)
    ensures Splits(split, s, [first] + rest, a, b)
  {
    SliceLater(s, n, first, rest, a, b);
  }

  /** The same for a cut before it. */
  lemma {:induction false} ResplitFirst(split: string -> seq<Line>, s: string, n: nat, first: Line, rest: seq<Line>,
      b: nat)
    requires n <= |s| && first.text == s[..n] && 1 <= b <= |rest| + 1
    requires Splits(split, s[n..], rest, 0, b - 1)
    requires forall m :: n <= m <= |s| ==> split(s[..m]) == [first] + split(s[..m][n..])
    ensures Splits(split, s, [first] + rest, 0, b)
  {
    LengthCons(first, rest, b - 1);
    var k := Length(rest, b - 1);
    FirstSlices(s, n, k);
    assert split(s[..n + k]) == [first] + split(s[..n + k][n..]);
  }

  lemma FirstSlices(s: string, n: nat, k: nat)
    requires n + k <= |s|
    ensures s[0..n + k] == s[..n + k] && s[..n + k][n..] == s[n..][0..k] && s[..n + k][..n] == s[..n]
  {
  }

  lemma {:induction false} FirstLineStays(s: string)
    requires s != "" && Tidy(s) && EndsWell(s)
    ensures forall m :: LineLength(s) <= m <= |s|
                        ==> LinesOf(s[..m]) == [Classify(s[..LineLength(s)])] + LinesOf(s[..m][LineLength(s)..])
  {
    var n := LineLength(s);
    forall m | n <= m <= |s| ensures LinesOf(s[..m]) == [Classify(s[..n])] + LinesOf(s[..m][n..]) {
      FirstLineOfPrefix(s, m);
      LinesOfCons(s[..m]);
      assert s[..m][..n] == s[..n];
    }
  }

  lemma {:induction false} ResplitStep(split: string -> seq<Line>, s: string, n: nat, first: Line, rest: seq<Line>,
      a: nat, b: nat)
    requires n <= |s| && first.text == s[..n] && a <= b && 1 <= b <= |rest| + 1
    requires Splits(split, s[n..], rest, if a > 0 then a - 1 else 0, b - 1)
    requires forall m :: n <= m <= |s| ==> split(s[..m]) == [first] + split(s[..m][n..])
    ensures Splits(split, s, [first] + rest, a, b)
  {
    if a > 0 { ResplitLater(split, s, n, first, rest, a, b); } else { ResplitFirst(split, s, n, first, rest, b); }
  }

  /** Cutting a tidy text between two of its lines gives texts with exactly those lines. */
  lemma {:induction false} Resplit(s: string, a: nat, b: nat)
    requires Tidy(s) && a <= b <= |LinesOf(s)|
    ensures Splits(LinesOf, s, LinesOf(s), a, b)
  {
    if b == 0 {
      assert s[0..0] == "";
      assert LinesOf("") == [];
    } else {
      TidyLines(s);
      var n := LineLength(s);
      var first, rest := Classify(s[..n]), LinesOf(s[n..]);
      assert |rest| + 1 == |LinesOf(s)|;
      Resplit(s[n..], if a > 0 then a - 1 else 0, b - 1);
      FirstLineStays(s);
      ResplitStep(LinesOf, s, n, first, rest, a, b);
    }
  }

  lemma {:induction false} TidyLines(s: string)
    requires Tidy(s) && |LinesOf(s)| > 0
    ensures s != "" && EndsWell(s) && LinesOf(s) == [Classify(s[..LineLength(s)])] + LinesOf(s[LineLength(s)..])
    ensures Tidy(s[LineLength(s)..])
  {
    if s != "" {
      if !EndsWell(s) { CutBreakIsLast(s); }
      LinesOfCons(s);
      TidySlice(s, LineLength(s), |s|);
      assert s[LineLength(s)..|s|] == s[LineLength(s)..];
    }
  }

  // ------------------------------------------------------------------ fences

  function Fold(open: Option<Fence>, lines: seq<Line>): Option<Fence> {
    if lines == [] then open else FenceAfter(Fold(open, lines[..|lines| - 1]), lines[|lines| - 1])
  }

  /** The fence that is open after `text`, read by itself. */
  function OpenFence(text: string): Option<Fence> { Fold(None, LinesOf(text)) }

  lemma {:induction false} FoldConcat(open: Option<Fence>, a: seq<Line>, b: seq<Line>)
    ensures Fold(open, a + b) == Fold(Fold(open, a), b)
  {
    if b == [] {
      assert a + b == a;
    } else {
      FoldConcat(open, a, b[..|b| - 1]);
      assert (a + b)[..|a + b| - 1] == a + b[..|b| - 1];
    }
  }

  ghost predicate Closed(text: string) { OpenFence(text).None? }

  ghost predicate AllClosed(pieces: seq<string>) { forall k :: 0 <= k < |pieces| ==> Closed(pieces[k]) }

  /** The mark of a scan lies between two lines, where no fence is open. */
  ghost predicate MarkedAt(s: Scan, lines: seq<Line>, a: nat) {
    a <= |lines| && s.mark == Length(lines, a) && Fold(None, lines[..a]).None?
  }

  lemma {:induction false} FoldBetween(lines: seq<Line>, a: nat, b: nat)
    requires a <= b <= |lines| && Fold(None, lines[..a]).None? && Fold(None, lines[..b]).None?
    ensures Fold(None, lines[a..b]).None?
  {
    FoldConcat(None, lines[..a], lines[a..b]);
    assert lines[..a] + lines[a..b] == lines[..b];
  }

  lemma {:induction false} SliceIsClosed(source: string, a: nat, b: nat)
    requires Tidy(source) && a <= b <= |LinesOf(source)|
    requires Fold(None, LinesOf(source)[..a]).None? && Fold(None, LinesOf(source)[..b]).None?
    ensures Length(LinesOf(source), a) <= Length(LinesOf(source), b) <= |source|
    ensures OpenFence(source[Length(LinesOf(source), a)..Length(LinesOf(source), b)]).None?
  {
    Resplit(source, a, b);
    FoldBetween(LinesOf(source), a, b);
  }

  /** Slices of `source` between places where no fence is open satisfy `p`. */
  ghost predicate SlicesAre(source: string, lines: seq<Line>, p: string -> bool)
    requires Length(lines, |lines|) <= |source|
  {
    forall a, b :: 0 <= a <= b <= |lines| && Fold(None, lines[..a]).None? && Fold(None, lines[..b]).None? ==>
      Length(lines, a) <= Length(lines, b) <= |source| && p(source[Length(lines, a)..Length(lines, b)])
  }

  ghost predicate All(pieces: seq<string>, p: string -> bool) { forall k :: 0 <= k < |pieces| ==> p(pieces[k]) }

  /** A line moves the mark to its end, where no fence is open, or leaves it. */
  ghost predicate Moves(source: string, s: Scan, r: Scan, line: Line) {
    && r.fence == FenceAfter(s.fence, line)
    && s.mark <= r.offset <= |source|
    && (|| (r.mark == s.mark && r.pieces == s.pieces)
        || (r.mark == r.offset && r.fence.None? && r.pieces == s.pieces + [source[s.mark..r.offset]]))
  }

  lemma {:induction false} ScanMoves(source: string, lines: seq<Line>, n: nat)
    requires 1 <= n <= |lines| && Length(lines, |lines|) <= |source|
    ensures Moves(source, ScanLines(source, lines, n - 1), ScanLines(source, lines, n), lines[n - 1])
  {
  }

  lemma {:induction false} ScanPiece(source: string, lines: seq<Line>, n: nat, s: Scan, r: Scan, p: string -> bool,
      b: nat) returns (a: nat)
    requires 1 <= n <= |lines| && Length(lines, |lines|) <= |source| && SlicesAre(source, lines, p)
    requires Moves(source, s, r, lines[n - 1]) && r.offset == Length(lines, n)
    requires b < n && s.fence == Fold(None, lines[..n - 1]) && MarkedAt(s, lines, b) && All(s.pieces, p)
    ensures r.fence == Fold(None, lines[..n]) && MarkedAt(r, lines, a) && a <= n && All(r.pieces, p)
  {
    assert lines[..n][..n - 1] == lines[..n - 1];
    if r.mark == s.mark && r.pieces == s.pieces {
      a := b;
    } else {
      a := n;
      assert p(source[Length(lines, b)..Length(lines, n)]);
    }
  }

  lemma {:induction false} ScanPieces(source: string, lines: seq<Line>, n: nat, p: string -> bool) returns (a: nat)
    requires n <= |lines| && Length(lines, |lines|) <= |source| && SlicesAre(source, lines, p)
    ensures var s := ScanLines(source, lines, n);
      s.fence == Fold(None, lines[..n]) && MarkedAt(s, lines, a) && a <= n && All(s.pieces, p)
  {
    if n == 0 {
      assert lines[..0] == [];
      a := 0;
    } else {
      var b := ScanPieces(source, lines, n - 1, p);
      ScanMoves(source, lines, n);
      a := ScanPiece(source, lines, n, ScanLines(source, lines, n - 1), ScanLines(source, lines, n), p, b);
    }
  }

  lemma {:induction false} ScanIsClosed(source: string, lines: seq<Line>) returns (a: nat)
    requires Tidy(source) && lines == LinesOf(source)
    ensures var s := ScanLines(source, lines, |lines|); AllClosed(s.pieces) && MarkedAt(s, lines, a)
  {
    forall a, b | 0 <= a <= b <= |lines| && Fold(None, lines[..a]).None? && Fold(None, lines[..b]).None?
      ensures Length(lines, a) <= Length(lines, b) <= |source| && Closed(source[Length(lines, a)..Length(lines, b)])
    {
      SliceIsClosed(source, a, b);
    }
    a := ScanPieces(source, lines, |lines|, t => Closed(t));
  }

  lemma {:induction false} LengthOfPrefix(lines: seq<Line>, a: nat, n: nat)
    requires n <= a <= |lines|
    ensures Length(lines[..a], n) == Length(lines, n)
  {
    if n > 0 { LengthOfPrefix(lines, a, n - 1); }
  }

  /** A tidy text up to the mark: the same lines, all of it lines, and no fence left open. */
  lemma {:induction false} MarkIsClosed(all: string, lines: seq<Line>, a: nat)
    requires Tidy(all) && lines == LinesOf(all) && MarkedAt(ScanAll(all), lines, a)
    ensures var cut := all[..ScanAll(all).mark]; Tidy(cut) && OpenFence(cut).None?
                                                 && Length(LinesOf(cut), |LinesOf(cut)|) == |cut|
  {
    var m := ScanAll(all).mark;
    Resplit(all, 0, a);
    assert all[0..m] == all[..m] && lines[0..a] == lines[..a];
    LengthOfPrefix(lines, a, a);
    TidySlice(all, 0, m);
  }

  /** What is committed of a tidy text has no open fence at its end, and none at the end of any of its slices. */
  lemma {:induction false} CommittedIsClosed(all: string)
    requires Tidy(all)
    ensures OpenFence(all[..ScanAll(all).mark]).None? && AllClosed(Pieces(all[..ScanAll(all).mark]))
  {
    var a := ScanIsClosed(all, LinesOf(all));
    MarkIsClosed(all, LinesOf(all), a);
    ClosedPieces(all[..ScanAll(all).mark]);
  }

  lemma {:induction false} RestIsClosed(cut: string, lines: seq<Line>, b: nat)
    requires Tidy(cut) && lines == LinesOf(cut) && Fold(None, lines).None? && Length(lines, |lines|) == |cut|
    requires b <= |lines| && Fold(None, lines[..b]).None? && Length(lines, b) <= |cut|
    ensures OpenFence(cut[Length(lines, b)..]).None?
  {
    assert lines[..|lines|] == lines;
    SliceIsClosed(cut, b, |lines|);
    assert cut[Length(lines, b)..] == cut[Length(lines, b)..|cut|];
  }

  lemma {:induction false} ClosedPieces(cut: string)
    requires Tidy(cut) && OpenFence(cut).None? && Length(LinesOf(cut), |LinesOf(cut)|) == |cut|
    ensures AllClosed(Pieces(cut))
  {
    var b := ScanIsClosed(cut, LinesOf(cut));
    RestIsClosed(cut, LinesOf(cut), b);
  }

  lemma TidyParts(text: string, done: string, rest: string)
    requires Tidy(text) && text == done + rest
    ensures Tidy(done) && Tidy(rest)
  {
    TidySlice(text, 0, |done|);
    TidySlice(text, |done|, |text|);
    assert text[0..|done|] == done && text[|done|..|text|] == rest;
  }

  lemma {:induction false} PendingIsTidy(chunks: seq<string>)
    requires chunks != [] && Tidy(Flat(chunks))
    ensures var n := |chunks| - 1; Tidy(Flat(chunks[..n])) && Tidy(Feed(chunks[..n]).pending + chunks[n])
  {
    var n := |chunks| - 1;
    var before := Feed(chunks[..n]);
    NothingLost(chunks[..n]);
    TidyParts(Flat(chunks), Flat(chunks[..n]), chunks[n]);
    Assoc(Flat(before.pieces), before.pending, chunks[n]);
    TidyParts(Flat(chunks), Flat(before.pieces), before.pending + chunks[n]);
  }

  lemma {:induction false} PiecesAreClosed(chunks: seq<string>)
    requires Tidy(Flat(chunks))
    ensures AllClosed(Feed(chunks).pieces)
  {
    if chunks != [] {
      var n := |chunks| - 1;
      PendingIsTidy(chunks);
      PiecesAreClosed(chunks[..n]);
      CommittedIsClosed(Feed(chunks[..n]).pending + chunks[n]);
    }
  }

  /**
   * For text whose only line breaks are LF and CRLF, however it is cut into chunks, every block
   * committed before completion begins and ends with no open fence.
   */
  lemma {:induction false} BlocksAreClosed(chunks: seq<string>, block: string)
    requires Tidy(Flat(chunks)) && block in Feed(chunks).blocks
    ensures OpenFence(block).None?
  {
    NothingLost(chunks);
    PiecesAreClosed(chunks);
  }
}
