/** The server's side: which rows a frame must carry, and the scrolls it may announce. */
module ScreenDiff {
  import opened Common
  import opened Screen

  datatype Snapshot = Snapshot(
    generation: string, revision: int, sizeEpoch: int, cols: int, totalRows: int, viewportTop: int, viewportRows: int,
    alternate: bool, modes: Modes, cursor: Cursor, rows: seq<Row>)

  predicate WellFormed(s: Snapshot) {
    |s.rows| == s.viewportRows && forall i :: 0 <= i < |s.rows| ==> s.rows[i].row == i && s.rows[i].clearToEnd
  }

  predicate SameStructure(a: Snapshot, b: Snapshot) {
    a.generation == b.generation && a.sizeEpoch == b.sizeEpoch && a.cols == b.cols && a.totalRows == b.totalRows
    && a.viewportTop == b.viewportTop && a.viewportRows == b.viewportRows && a.alternate == b.alternate
  }

  /** The row hash is the JSON of these two parts, so equal hashes mean equal parts. */
  datatype Hash = Hash(wrapped: bool, runs: seq<StyledRun>)
  function HashOf(r: Row): Hash { Hash(r.wrapped, r.runs) }

  /** The hash row `i` would have after the scroll; none where the scroll leaves a blank line. */
  function MovedHash(previous: seq<Row>, s: Scroll, i: nat): Option<Hash>
    requires i < |previous| && ValidScroll(s, |previous|)
  {
    if i < s.top || i > s.bottom then Some(HashOf(previous[i]))
    else if s.top <= i + s.lines <= s.bottom then Some(HashOf(previous[i + s.lines]))
    else None
  }

  /** The rows of `next` from `i` on whose hash is not the expected one. */
  function Differing(next: seq<Row>, expected: seq<Option<Hash>>, i: nat): (r: seq<Row>)
    requires i <= |next| == |expected|
    ensures |r| <= |next| - i
    ensures forall k :: 0 <= k < |r| ==> exists j :: i <= j < |next| && r[k] == next[j]
    ensures forall j :: i <= j < |next| && expected[j] != Some(HashOf(next[j])) ==> next[j] in r
    decreases |next| - i
  {
    if i == |next| then []
    else if expected[i] != Some(HashOf(next[i])) then [next[i]] + Differing(next, expected, i + 1)
    else Differing(next, expected, i + 1)
  }

  function Hashes(rows: seq<Row>): seq<Option<Hash>> {
    seq(|rows|, i requires 0 <= i < |rows| => Some(HashOf(rows[i])))
  }

  function MovedHashes(rows: seq<Row>, s: Scroll): seq<Option<Hash>>
    requires ValidScroll(s, |rows|)
  {
    seq(|rows|, i requires 0 <= i < |rows| => MovedHash(rows, s, i))
  }

  function DirtyAfter(previous: seq<Row>, next: seq<Row>, s: Scroll): seq<Row>
    requires |previous| == |next| && ValidScroll(s, |previous|)
  {
    Differing(next, MovedHashes(previous, s), 0)
  }

  // ------------------------------------------------------------------ as the server does it

  method DirtyAfterScroll(previous: seq<Row>, next: seq<Row>, s: Scroll) returns (dirty: seq<Row>)
    requires |previous| == |next| && ValidScroll(s, |previous|)
    ensures dirty == DirtyAfter(previous, next, s)
  {
    var n := |previous|;
    var hashes := new Option<Hash>[n](i requires 0 <= i < n => Some(HashOf(previous[i])));
    if s.lines > 0 { MoveHashesUp(previous, hashes, s); } else { MoveHashesDown(previous, hashes, s); }
    assert hashes[..] == MovedHashes(previous, s);
    return Differing(next, hashes[..], 0);
  }

  method MoveHashesUp(ghost previous: seq<Row>, hashes: array<Option<Hash>>, s: Scroll)
    requires ValidScroll(s, |previous|) && s.lines > 0 && hashes.Length == |previous|
    requires forall i :: 0 <= i < |previous| ==> hashes[i] == Some(HashOf(previous[i]))
    modifies hashes
    ensures forall i :: 0 <= i < |previous| ==> hashes[i] == MovedHash(previous, s, i)
  {
    var row := s.top;
    while row <= s.bottom - s.lines
      invariant s.top <= row <= s.bottom - s.lines + 1
      invariant forall i :: 0 <= i < |previous| ==> hashes[i] == if s.top <= i < row then MovedHash(previous, s, i)
                                                    else Some(HashOf(previous[i]))
    {
      hashes[row] := hashes[row + s.lines];
      row := row + 1;
    }
    row := Max(s.top, s.bottom - s.lines + 1);
    while row <= s.bottom
      invariant s.bottom - s.lines + 1 <= row <= s.bottom + 1
      invariant forall i :: 0 <= i < |previous| ==> hashes[i] == if s.top <= i < row then MovedHash(previous, s, i)
                                                    else Some(HashOf(previous[i]))
    {
      hashes[row] := None;
      row := row + 1;
    }
  }

  method MoveHashesDown(ghost previous: seq<Row>, hashes: array<Option<Hash>>, s: Scroll)
    requires ValidScroll(s, |previous|) && s.lines < 0 && hashes.Length == |previous|
    requires forall i :: 0 <= i < |previous| ==> hashes[i] == Some(HashOf(previous[i]))
    modifies hashes
    ensures forall i :: 0 <= i < |previous| ==> hashes[i] == MovedHash(previous, s, i)
  {
    var amount := -s.lines;
    var row := s.bottom;
    while row >= s.top + amount
      invariant s.top + amount - 1 <= row <= s.bottom
      invariant forall i :: 0 <= i < |previous| ==> hashes[i] == if row < i <= s.bottom then MovedHash(previous, s, i)
                                                    else Some(HashOf(previous[i]))
    {
      hashes[row] := hashes[row - amount];
      row := row - 1;
    }
    row := s.top;
    var end := Min(s.bottom + 1, s.top + amount);
    while row < end
      invariant s.top <= row <= end
      invariant forall i :: 0 <= i < |previous| ==>
        hashes[i] == if s.top <= i < row || end <= i <= s.bottom then MovedHash(previous, s, i)
            else Some(HashOf(previous[i]))
    {
      hashes[row] := None;
      row := row + 1;
    }
  }

  // ------------------------------------------------------------------ which scroll is announced

  /** Row `i` shows what was `offset` rows below it. */
  predicate Matches(previous: seq<Row>, next: seq<Row>, offset: int, i: int)
    requires |previous| == |next|
  {
    0 <= i < |next| && 0 <= i + offset < |previous| && HashOf(next[i]) == HashOf(previous[i + offset])
  }

  /** The rows from `a` to `b` moved by `offset`, and those on both sides of them did not. */
  ghost predicate Shifted(previous: seq<Row>, next: seq<Row>, offset: int, a: nat, b: nat)
    requires |previous| == |next|
  {
    && a < b <= |next| && (forall i :: a <= i < b ==> Matches(previous, next, offset, i))
    && !Matches(previous, next, offset, a - 1) && !Matches(previous, next, offset, b)
  }

  /** Not all of them look as they did. */
  ghost predicate Changed(previous: seq<Row>, next: seq<Row>, offset: int, a: nat, b: nat)
    requires |previous| == |next|
  {
    exists i :: a <= i < b && Matches(previous, next, offset, i) && HashOf(previous[i]) != HashOf(previous[i + offset])
  }

  /** The scroll that moves them. */
  function ShiftOf(count: nat, offset: int, a: nat, b: nat): Scroll {
    if offset > 0 then Scroll(a, Min(count - 1, b + offset - 1), offset)
    else Scroll(Max(0, a + offset), Min(count - 1, b - 1), offset)
  }

  lemma ShiftIsValid(previous: seq<Row>, next: seq<Row>, offset: int, a: nat, b: nat)
    requires |previous| == |next| && offset != 0 && Shifted(previous, next, offset, a, b)
    ensures ValidScroll(ShiftOf(|next|, offset, a, b), |next|)
  {
    assert Matches(previous, next, offset, a) && Matches(previous, next, offset, b - 1);
  }

  /** What a scroll leaves to send, and how many rows it rests on. */
  datatype Best = Best(scroll: Scroll, dirty: nat, matched: nat)

  /** What the shift of such rows costs. */
  ghost function Costs(previous: seq<Row>, next: seq<Row>, offset: int, a: nat, b: nat): Best
    requires |previous| == |next| && offset != 0 && Shifted(previous, next, offset, a, b)
  {
    ShiftIsValid(previous, next, offset, a, b);
    var scroll := ShiftOf(|next|, offset, a, b);
    Best(scroll, |DirtyAfter(previous, next, scroll)|, b - a)
  }

  /** A proven shift: three rows or more that moved, some of them visibly, and two rows or more less to send. */
  ghost predicate Proven(previous: seq<Row>, next: seq<Row>, regular: nat, offset: int, a: nat, b: nat)
    requires |previous| == |next|
  {
    && offset != 0 && Shifted(previous, next, offset, a, b) && b - a >= 3 && Changed(previous, next, offset, a, b)
    && Costs(previous, next, offset, a, b).dirty + 2 <= regular
  }

  type Shifts = (int, nat, nat) -> Option<Best>

  /** The proven shifts: by how many rows, and of which. */
  ghost function ProvenShifts(previous: seq<Row>, next: seq<Row>, regular: nat): Shifts
    requires |previous| == |next|
  {
    (offset: int, a: nat, b: nat) =>
      if Proven(previous, next, regular, offset, a, b) then Some(Costs(previous, next, offset, a, b)) else None
  }

  predicate Better(x: Best, y: Best) { x.dirty < y.dirty || (x.dirty == y.dirty && x.matched > y.matched) }

  ghost predicate Known(shifts: Shifts, limit: int, best: Best) {
    exists offset: int, a: nat, b: nat :: -limit <= offset <= limit && shifts(offset, a, b) == Some(best)
  }

  /** No shift by `offset` of rows that begin before `from` is better than the best. */
  ghost predicate Beats(shifts: Shifts, best: Option<Best>, offset: int, from: nat) {
    forall a: nat, b: nat :: a < from && shifts(offset, a, b).Some? ==>
      best.Some? && !Better(shifts(offset, a, b).value, best.value)
  }

  /** A best one of the shifts by up to `limit` rows, of `count`; none if there are none. */
  ghost predicate BestUpTo(shifts: Shifts, limit: int, count: nat, best: Option<Best>) {
    && (best.Some? ==> Known(shifts, limit, best.value))
    && forall offset: int :: -limit <= offset <= limit ==> Beats(shifts, best, offset, count)
  }

  lemma KnownWider(shifts: Shifts, limit: int, best: Best)
    requires Known(shifts, limit, best)
    ensures Known(shifts, limit + 1, best)
  {
  }

  /** The scroll of such a best shift. */
  ghost predicate IsBest(shifts: Shifts, limit: int, count: nat, scroll: Option<Scroll>) {
    exists best: Option<Best> :: BestUpTo(shifts, limit, count, best)
      && scroll == if best.Some? then Some(best.value.scroll) else None
  }

  /** No worse than before. */
  predicate Improves(known: Option<Best>, best: Option<Best>) {
    known.Some? ==> best.Some? && !Better(known.value, best.value)
  }

  lemma BeatsStill(shifts: Shifts, known: Option<Best>, best: Option<Best>, offset: int, from: nat)
    requires Beats(shifts, known, offset, from) && Improves(known, best)
    ensures Beats(shifts, best, offset, from)
  {
  }

  lemma BestOfBoth(shifts: Shifts, amount: int, count: nat, before: Option<Best>, down: Option<Best>,
      both: Option<Best>)
    requires amount >= 1 && BestUpTo(shifts, amount - 1, count, before)
    requires Improves(before, down) && Improves(down, both)
    requires Beats(shifts, down, amount, count) && Beats(shifts, both, -amount, count)
    requires both.Some? ==> Known(shifts, amount, both.value)
    ensures BestUpTo(shifts, amount, count, both)
  {
    BeatsStill(shifts, down, both, amount, count);
    forall offset: int | -amount < offset < amount ensures Beats(shifts, both, offset, count) {
      BeatsStill(shifts, before, down, offset, count);
      BeatsStill(shifts, down, both, offset, count);
    }
  }

  lemma NoShift(previous: seq<Row>, next: seq<Row>, regular: nat)
    requires |previous| == |next|
    ensures BestUpTo(ProvenShifts(previous, next, regular), 0, |next|, None)
  {
  }

  lemma KnownIsProven(previous: seq<Row>, next: seq<Row>, regular: nat, limit: int, best: Best)
    requires |previous| == |next| && Known(ProvenShifts(previous, next, regular), limit, best)
    ensures ValidScroll(best.scroll, |previous|) && best.dirty == |DirtyAfter(previous, next, best.scroll)|
    ensures best.dirty + 2 <= regular
  {
    var shifts := ProvenShifts(previous, next, regular);
    var offset: int, a: nat, b: nat :| -limit <= offset <= limit && shifts(offset, a, b) == Some(best);
    ShiftIsValid(previous, next, offset, a, b);
  }

  lemma SameRun(previous: seq<Row>, next: seq<Row>, offset: int, start: nat, end: nat, a: nat, b: nat)
    requires |previous| == |next| && Shifted(previous, next, offset, start, end)
    requires Shifted(previous, next, offset, a, b) && start <= a < end
    ensures a == start && b == end
  {
  }

  /** Rows that moved together are looked at together: no other shift begins inside them. */
  lemma BeatsFurther(previous: seq<Row>, next: seq<Row>, regular: nat, known: Option<Best>, best: Option<Best>,
      offset: int, start: nat, end: nat)
    requires |previous| == |next| && Shifted(previous, next, offset, start, end)
    requires var shifts := ProvenShifts(previous, next, regular);
      && Beats(shifts, known, offset, start) && Improves(known, best)
      && (shifts(offset, start, end).Some? ==>
            best.Some? && !Better(shifts(offset, start, end).value, best.value))
    ensures Beats(ProvenShifts(previous, next, regular), best, offset, end)
  {
    var shifts := ProvenShifts(previous, next, regular);
    forall a: nat, b: nat | a < end && shifts(offset, a, b).Some?
      ensures best.Some? && !Better(shifts(offset, a, b).value, best.value)
    {
      if a >= start { SameRun(previous, next, offset, start, end, a, b); }
    }
  }

  /** A row that did not move begins no shift. */
  lemma BeatsNext(previous: seq<Row>, next: seq<Row>, regular: nat, best: Option<Best>, offset: int, start: nat)
    requires |previous| == |next| && !Matches(previous, next, offset, start)
    requires Beats(ProvenShifts(previous, next, regular), best, offset, start)
    ensures Beats(ProvenShifts(previous, next, regular), best, offset, start + 1)
  {
    var shifts := ProvenShifts(previous, next, regular);
    forall a: nat, b: nat | a < start + 1 && shifts(offset, a, b).Some?
      ensures best.Some? && !Better(shifts(offset, a, b).value, best.value)
    {
      assert Matches(previous, next, offset, a);
    }
  }

  lemma ChangedSnoc(previous: seq<Row>, next: seq<Row>, offset: int, a: nat, b: nat)
    requires |previous| == |next| && Matches(previous, next, offset, b) && a <= b
    ensures Changed(previous, next, offset, a, b + 1)
        <==> Changed(previous, next, offset, a, b) || HashOf(previous[b]) != HashOf(previous[b + offset])
  {
  }

  /** How far the rows from `start` on moved together. */
  method EndOfRun(previous: seq<Row>, next: seq<Row>, offset: int, start: nat) returns (end: nat, movedContent: bool)
    requires |previous| == |next| && Matches(previous, next, offset, start)
        && !Matches(previous, next, offset, start - 1)
    ensures Shifted(previous, next, offset, start, end)
    ensures movedContent <==> Changed(previous, next, offset, start, end)
  {
    var count := |previous|;
    end := start + 1;
    movedContent := HashOf(previous[start]) != HashOf(previous[start + offset]);
    while end < count && 0 <= end + offset < count && HashOf(next[end]) == HashOf(previous[end + offset])
      invariant start < end <= count && forall i :: start <= i < end ==> Matches(previous, next, offset, i)
      invariant movedContent <==> Changed(previous, next, offset, start, end)
    {
      ChangedSnoc(previous, next, offset, start, end);
      if HashOf(previous[end]) != HashOf(previous[end + offset]) { movedContent := true; }
      end := end + 1;
    }
  }

  /** A shift, if there is one, has been compared with the best. */
  predicate Considered(shift: Option<Best>, known: Option<Best>, best: Option<Best>) {
    && (best == known || best == shift) && Improves(known, best)
    && (shift.Some? ==> best.Some? && !Better(shift.value, best.value))
  }

  /** One such run: its shift becomes the best if it is proven and better. */
  method Consider(previous: seq<Row>, next: seq<Row>, regular: nat, amount: int, offset: int, start: nat, end: nat,
      movedContent: bool, known: Option<Best>, ghost shifts: Shifts) returns (best: Option<Best>)
    requires |previous| == |next| && amount >= 1 && (offset == amount || offset == -amount)
    requires Shifted(previous, next, offset, start, end) && shifts == ProvenShifts(previous, next, regular)
    requires movedContent <==> Changed(previous, next, offset, start, end)
    ensures Considered(shifts(offset, start, end), known, best)
  {
    best := known;
    var count := |previous|;
    var matched := end - start;
    if matched >= 3 && movedContent {
      var top := if offset > 0 then start else Max(0, start - amount);
      var bottom := if offset > 0 then Min(count - 1, end + amount - 1) else Min(count - 1, end - 1);
      var scroll := Scroll(top, bottom, offset);
      ShiftIsValid(previous, next, offset, start, end);
      assert scroll == ShiftOf(count, offset, start, end);
      var rows := DirtyAfterScroll(previous, next, scroll);
      var dirty := |rows|;
      assert Costs(previous, next, offset, start, end) == Best(scroll, dirty, matched);
      if dirty + 2 <= regular && (known.None? || Better(Best(scroll, dirty, matched), known.value)) {
        best := Some(Best(scroll, dirty, matched));
      }
    }
  }

  /** The shifts by `offset` of rows that begin before `from` have been looked at. */
  ghost predicate Looked(shifts: Shifts, amount: int, offset: int, known: Option<Best>, best: Option<Best>, from: nat) {
    (best.Some? ==> Known(shifts, amount, best.value)) && Improves(known, best) && Beats(shifts, best, offset, from)
  }

  lemma LookedFurther(previous: seq<Row>, next: seq<Row>, regular: nat, amount: int, offset: int, known: Option<Best>,
      best: Option<Best>, better: Option<Best>, start: nat, end: nat, shifts: Shifts)
    requires |previous| == |next| && -amount <= offset <= amount && Shifted(previous, next, offset, start, end)
    requires shifts == ProvenShifts(previous, next, regular) && Looked(shifts, amount, offset, known, best, start)
    requires Considered(shifts(offset, start, end), best, better)
    ensures Looked(shifts, amount, offset, known, better, end)
  {
    BeatsFurther(previous, next, regular, best, better, offset, start, end);
  }

  lemma LookedNext(previous: seq<Row>, next: seq<Row>, regular: nat, amount: int, offset: int, known: Option<Best>,
      best: Option<Best>, start: nat, shifts: Shifts)
    requires |previous| == |next| && !Matches(previous, next, offset, start)
    requires shifts == ProvenShifts(previous, next, regular) && Looked(shifts, amount, offset, known, best, start)
    ensures Looked(shifts, amount, offset, known, best, start + 1)
  {
    BeatsNext(previous, next, regular, best, offset, start);
  }

  /** Every run of rows that moved by `offset`, one after the other. */
  method TryShift(previous: seq<Row>, next: seq<Row>, regular: nat, amount: int, offset: int, known: Option<Best>,
      ghost shifts: Shifts) returns (best: Option<Best>)
    requires |previous| == |next| && amount >= 1 && (offset == amount || offset == -amount)
    requires shifts == ProvenShifts(previous, next, regular)
    requires known.Some? ==> Known(shifts, amount, known.value)
    ensures Looked(shifts, amount, offset, known, best, |next|)
  {
    best := known;
    var start := 0;
    while start < |next|
      invariant 0 <= start <= |next|
      invariant Matches(previous, next, offset, start) ==> !Matches(previous, next, offset, start - 1)
      invariant Looked(shifts, amount, offset, known, best, start)
    {
      best, start := TryFrom(previous, next, regular, amount, offset, known, best, start, shifts);
    }
  }

  method TryRun(previous: seq<Row>, next: seq<Row>, regular: nat, amount: int, offset: int,
      ghost known: Option<Best>, before: Option<Best>, start: nat, ghost shifts: Shifts)
      returns (best: Option<Best>, end: nat)
    requires |previous| == |next| && amount >= 1 && (offset == amount || offset == -amount)
    requires shifts == ProvenShifts(previous, next, regular) && Looked(shifts, amount, offset, known, before, start)
    requires Matches(previous, next, offset, start) && !Matches(previous, next, offset, start - 1)
    ensures start < end <= |next| && Looked(shifts, amount, offset, known, best, end)
    ensures !Matches(previous, next, offset, end)
  {
    var movedContent;
    end, movedContent := EndOfRun(previous, next, offset, start);
    best := Consider(previous, next, regular, amount, offset, start, end, movedContent, before, shifts);
    LookedFurther(previous, next, regular, amount, offset, known, before, best, start, end, shifts);
  }

  /** The row at `start`, or the run that begins there. */
  method TryFrom(previous: seq<Row>, next: seq<Row>, regular: nat, amount: int, offset: int,
      ghost known: Option<Best>, before: Option<Best>, start: nat, ghost shifts: Shifts)
      returns (best: Option<Best>, end: nat)
    requires |previous| == |next| && amount >= 1 && (offset == amount || offset == -amount) && start < |next|
    requires shifts == ProvenShifts(previous, next, regular) && Looked(shifts, amount, offset, known, before, start)
    requires Matches(previous, next, offset, start) ==> !Matches(previous, next, offset, start - 1)
    ensures start < end <= |next| && Looked(shifts, amount, offset, known, best, end)
    ensures Matches(previous, next, offset, end) ==> !Matches(previous, next, offset, end - 1)
  {
    var from := start + offset;
    if from < 0 || from >= |previous| || HashOf(next[start]) != HashOf(previous[from]) {
      LookedNext(previous, next, regular, amount, offset, known, before, start, shifts);
      return before, start + 1;
    }
    best, end := TryRun(previous, next, regular, amount, offset, known, before, start, shifts);
  }

  lemma BestIsKnown(shifts: Shifts, amount: int, count: nat, known: Option<Best>)
    requires BestUpTo(shifts, amount - 1, count, known)
    ensures known.Some? ==> Known(shifts, amount, known.value)
  {
    if known.Some? { KnownWider(shifts, amount - 1, known.value); }
  }

  lemma BothLooked(shifts: Shifts, amount: int, count: nat, known: Option<Best>, down: Option<Best>,
      both: Option<Best>)
    requires amount >= 1 && BestUpTo(shifts, amount - 1, count, known)
    requires Looked(shifts, amount, amount, known, down, count) && Looked(shifts, amount, -amount, down, both, count)
    ensures BestUpTo(shifts, amount, count, both)
  {
    BestOfBoth(shifts, amount, count, known, down, both);
  }

  /** Rows that moved by `amount`, down and up. */
  method TryBoth(previous: seq<Row>, next: seq<Row>, regular: nat, amount: int, known: Option<Best>,
      ghost shifts: Shifts) returns (best: Option<Best>)
    requires |previous| == |next| && amount >= 1 && shifts == ProvenShifts(previous, next, regular)
    requires BestUpTo(shifts, amount - 1, |next|, known)
    ensures BestUpTo(shifts, amount, |next|, best)
  {
    BestIsKnown(shifts, amount, |next|, known);
    var down := TryShift(previous, next, regular, amount, amount, known, shifts);
    best := TryShift(previous, next, regular, amount, -amount, down, shifts);
    BothLooked(shifts, amount, |next|, known, down, best);
  }

  /** The shift announced is a best one, and there is none only if none is proven. */
  method DetectScroll(previous: seq<Row>, next: seq<Row>, regular: nat) returns (scroll: Option<Scroll>)
    requires |previous| == |next|
    ensures |next| < 4 || regular < 3 ==> scroll.None?
    ensures |next| >= 4 && regular >= 3 ==>
      IsBest(ProvenShifts(previous, next, regular), |next| - 3, |next|, scroll)
    ensures scroll.Some? ==> ValidScroll(scroll.value, |previous|)
                             && |DirtyAfter(previous, next, scroll.value)| + 2 <= regular
  {
    if |previous| < 4 || regular < 3 { return None; }
    ghost var shifts := ProvenShifts(previous, next, regular);
    var best: Option<Best> := None;
    var maxShift := Max(1, |previous| - 3);
    var amount := 1;
    NoShift(previous, next, regular);
    while amount <= maxShift
      invariant 1 <= amount <= maxShift + 1
      invariant BestUpTo(shifts, amount - 1, |next|, best)
    {
      best := TryBoth(previous, next, regular, amount, best, shifts);
      amount := amount + 1;
    }
    if best.Some? { KnownIsProven(previous, next, regular, maxShift, best.value); }
    scroll := if best.Some? then Some(best.value.scroll) else None;
  }

  /** Rows `a` to `b` show what was `offset` rows below them, and their neighbours, if they have any, do not. */
  ghost predicate Moved(previous: seq<Row>, next: seq<Row>, offset: int, a: nat, b: nat)
    requires |previous| == |next|
  {
    && a < b <= |next| && 0 <= a + offset && b + offset <= |previous|
    && (forall i :: a <= i < b ==> HashOf(next[i]) == HashOf(previous[i + offset]))
    && (a == 0 || a + offset == 0 || HashOf(next[a - 1]) != HashOf(previous[a - 1 + offset]))
    && (b == |next| || b + offset == |previous| || HashOf(next[b]) != HashOf(previous[b + offset]))
  }

  /** The scroll of such rows takes in exactly where they were and where they are. */
  lemma ShiftTakesIn(previous: seq<Row>, next: seq<Row>, offset: int, a: nat, b: nat)
    requires |previous| == |next| && Moved(previous, next, offset, a, b) && offset != 0
    ensures ShiftOf(|next|, offset, a, b)
      == Scroll(if offset > 0 then a else a + offset, if offset > 0 then b - 1 + offset else b - 1, offset)
  {
  }

  lemma MovedIsShifted(previous: seq<Row>, next: seq<Row>, offset: int, a: nat, b: nat)
    requires |previous| == |next| && Moved(previous, next, offset, a, b)
    ensures Shifted(previous, next, offset, a, b)
  {
  }

  lemma MovedIsProven(previous: seq<Row>, next: seq<Row>, regular: nat, offset: int, a: nat, b: nat, i: nat,
      moved: Scroll, dirty: nat)
    requires |previous| == |next| && offset != 0 && Moved(previous, next, offset, a, b) && b - a >= 3
    requires a <= i < b && HashOf(previous[i]) != HashOf(previous[i + offset])
    requires moved == ShiftOf(|next|, offset, a, b) && ValidScroll(moved, |previous|)
    requires dirty == |DirtyAfter(previous, next, moved)| && dirty + 2 <= regular
    ensures ProvenShifts(previous, next, regular)(offset, a, b) == Some(Best(moved, dirty, b - a))
  {
    MovedIsShifted(previous, next, offset, a, b);
    assert Matches(previous, next, offset, i);
    assert Changed(previous, next, offset, a, b);
    assert Costs(previous, next, offset, a, b) == Best(moved, dirty, b - a);
  }

  lemma BestIsNoWorse(shifts: Shifts, limit: int, count: nat, best: Option<Best>, offset: int, a: nat, b: nat)
    requires BestUpTo(shifts, limit, count, best) && -limit <= offset <= limit && a < count
    requires shifts(offset, a, b).Some?
    ensures best.Some? && best.value.dirty <= shifts(offset, a, b).value.dirty
  {
    assert Beats(shifts, best, offset, count);
  }

  /**
   * A scroll is found: where three rows or more moved together, one of them visibly, and moving them leaves two rows
   * less to send, some scroll is announced, and it leaves no more to send than that one.
   */
  lemma {:induction false} ScrollIsFound(previous: seq<Row>, next: seq<Row>, regular: nat, offset: int, a: nat, b: nat,
      i: nat, moved: Scroll, dirty: nat, scroll: Option<Scroll>)
    requires |previous| == |next| && offset != 0 && Moved(previous, next, offset, a, b) && b - a >= 3
    requires a <= i < b && HashOf(previous[i]) != HashOf(previous[i + offset])
    requires moved == ShiftOf(|next|, offset, a, b) && ValidScroll(moved, |previous|)
    requires dirty == |DirtyAfter(previous, next, moved)| && dirty + 2 <= regular
    requires IsBest(ProvenShifts(previous, next, regular), |next| - 3, |next|, scroll)
    ensures scroll.Some? && ValidScroll(scroll.value, |previous|)
    ensures |DirtyAfter(previous, next, scroll.value)| <= dirty
  {
    MovedIsProven(previous, next, regular, offset, a, b, i, moved, dirty);
    BestIsFound(previous, next, regular, offset, a, b, Best(moved, dirty, b - a), scroll,
        ProvenShifts(previous, next, regular));
  }

  lemma BestIsFound(previous: seq<Row>, next: seq<Row>, regular: nat, offset: int, a: nat, b: nat, cost: Best,
      scroll: Option<Scroll>, shifts: Shifts)
    requires |previous| == |next| && shifts == ProvenShifts(previous, next, regular)
    requires IsBest(shifts, |next| - 3, |next|, scroll) && 3 - |next| <= offset <= |next| - 3 && a < |next|
    requires shifts(offset, a, b) == Some(cost)
    ensures scroll.Some? && ValidScroll(scroll.value, |previous|)
    ensures |DirtyAfter(previous, next, scroll.value)| <= cost.dirty
  {
    var best: Option<Best> :| BestUpTo(shifts, |next| - 3, |next|, best)
      && scroll == if best.Some? then Some(best.value.scroll) else None;
    BestIsNoWorse(shifts, |next| - 3, |next|, best, offset, a, b);
    KnownIsProven(previous, next, regular, |next| - 3, best.value);
  }

  datatype Diff = Diff(full: bool, rows: seq<Row>, scroll: Option<Scroll>)

  /** What a diff may be: everything, or exactly the rows that differ from the (scrolled) previous screen. */
  ghost predicate Exact(previous: Option<Snapshot>, next: Snapshot, d: Diff) {
    if d.full then d.rows == next.rows && d.scroll.None?
    else
      && previous.Some? && SameStructure(previous.value, next) && |previous.value.rows| == |next.rows|
      && if d.scroll.None? then d.rows == Differing(next.rows, Hashes(previous.value.rows), 0)
         else
           && ValidScroll(d.scroll.value, |next.rows|)
           && d.rows == DirtyAfter(previous.value.rows, next.rows, d.scroll.value)
  }

  /** Nothing of the screen differs. */
  ghost predicate Unchanged(a: Snapshot, b: Snapshot) {
    && SameStructure(a, b) && a.modes == b.modes && a.cursor == b.cursor && |a.rows| == |b.rows|
    && forall i :: 0 <= i < |b.rows| ==> HashOf(b.rows[i]) == HashOf(a.rows[i])
  }

  lemma {:induction false} NothingDiffers(next: seq<Row>, expected: seq<Option<Hash>>, i: nat)
    requires i <= |next| == |expected|
    ensures Differing(next, expected, i) == [] <==> forall j :: i <= j < |next| ==> expected[j] == Some(HashOf(next[j]))
    decreases |next| - i
  {
    if i < |next| { NothingDiffers(next, expected, i + 1); }
  }

  /** A scroll is announced if one pays, and then a best one. */
  ghost predicate ScrollIsBest(previous: Option<Snapshot>, next: Snapshot, scroll: Option<Scroll>) {
    && previous.Some? && |previous.value.rows| == |next.rows|
    && var was := previous.value.rows;
       var regular := |Differing(next.rows, Hashes(was), 0)|;
       if |was| < 4 || regular < 3 then scroll.None?
       else IsBest(ProvenShifts(was, next.rows, regular), |was| - 3, |was|, scroll)
  }

  method DiffScreens(previous: Option<Snapshot>, next: Snapshot, forceFull: bool) returns (d: Option<Diff>)
    requires WellFormed(next) && (previous.Some? ==> WellFormed(previous.value))
    ensures d.Some? ==> Exact(previous, next, d.value)
    ensures forceFull || previous.None? || !SameStructure(previous.value, next) ==> d.Some? && d.value.full
    ensures d.None? <==> !forceFull && previous.Some? && Unchanged(previous.value, next)
    ensures d.Some? && d.value.full ==> forceFull || previous.None? || !SameStructure(previous.value, next)
    ensures d.Some? && !d.value.full ==> ScrollIsBest(previous, next, d.value.scroll)
  {
    if forceFull || previous.None? || !SameStructure(previous.value, next) { return Some(Diff(true, next.rows, None)); }
    var was := previous.value;
    var regular := Differing(next.rows, Hashes(was.rows), 0);
    NothingDiffers(next.rows, Hashes(was.rows), 0);
    var scroll := DetectScroll(was.rows, next.rows, |regular|);
    var rows := regular;
    if scroll.Some? { rows := DirtyAfterScroll(was.rows, next.rows, scroll.value); }
    var metadataChanged := was.modes != next.modes || was.cursor != next.cursor;
    if |rows| == 0 && !metadataChanged && scroll.None? { return None; }
    return Some(Diff(false, rows, scroll));
  }
}
