/** The client's replica of a server screen: applying one frame. */
module ScreenProjection {
  import opened Common
  import opened Screen

  predicate Shaped(s: State) { |s.rows| == s.viewportRows }

  predicate StreamChanged(current: Option<State>, f: Frame) {
    current.None? || current.value.streamId != f.streamId || current.value.generation != f.generation
  }

  predicate StructureChanged(s: State, f: Frame) {
    s.sizeEpoch != f.sizeEpoch || s.cols != f.cols || s.viewportTop != f.viewportTop
    || s.viewportRows != f.viewportRows || s.totalRows != f.totalRows
  }

  function Blanks(n: nat): seq<Row> { seq(n, i => BlankRow(i)) }

  /** Row `i` of a scrolled region comes from row `i + lines`, or is blank when that lies outside the region. */
  function ScrolledRow(rows: seq<Row>, s: Scroll, i: nat): Row
    requires i < |rows| && ValidScroll(s, |rows|)
  {
    if i < s.top || i > s.bottom then rows[i]
    else if s.top <= i + s.lines <= s.bottom then rows[i + s.lines].(row := i)
    else BlankRow(i)
  }

  function Scrolled(rows: seq<Row>, s: Scroll): seq<Row>
    requires ValidScroll(s, |rows|)
  {
    seq(|rows|, i requires 0 <= i < |rows| => ScrolledRow(rows, s, i))
  }

  /** Later updates of the same row win. */
  function Patched(rows: seq<Row>, updates: seq<Row>): (r: seq<Row>)
    requires forall k :: 0 <= k < |updates| ==> 0 <= updates[k].row < |rows|
    ensures |r| == |rows|
  {
    if updates == [] then rows
    else
      var last := updates[|updates| - 1];
      Patched(rows, updates[..|updates| - 1])[last.row := CleanRow(last)]
  }

  function StateOf(f: Frame, rows: seq<Row>): State {
    State(f.streamId, f.generation, f.sequence, f.revision, f.sizeEpoch, f.cols, f.totalRows, f.viewportTop,
        f.viewportRows,
          f.alternate, f.modes, f.cursor, rows)
  }

  /** The rows a frame starts from: blank for a full frame, the scrolled present rows for an increment. */
  function Base(current: Option<State>, f: Frame): seq<Row>
    requires current.Some? ==> Shaped(current.value)
    requires ValidShape(f) && !Refused(current, f).Some?
  {
    if f.full then Blanks(f.viewportRows)
    else if f.scroll.Some? then Scrolled(current.value.rows, f.scroll.value)
    else current.value.rows
  }

  /** The refusals made before any row is looked at, and whether a snapshot is asked for. */
  function Refused(current: Option<State>, f: Frame): Option<bool> {
    if !ValidShape(f) then Some(true)
    else if (StreamChanged(current, f) || (current.Some? && StructureChanged(current.value, f))) && !f.full
        then Some(true)
    else if current.Some? && !StreamChanged(current, f) && f.sequence <= current.value.sequence then Some(false)
    else if current.Some? && !StreamChanged(current, f) && !f.full && f.sequence != current.value.sequence + 1
        then Some(true)
    else if f.scroll.Some? && !f.full && !ValidScroll(f.scroll.value, f.viewportRows) then Some(true)
    else None
  }

  function Applied(current: Option<State>, f: Frame): (r: Result)
    requires current.Some? ==> Shaped(current.value)
    ensures !r.applied ==> r.state == current
    ensures r.state.Some? ==> Shaped(r.state.value)
  {
    var refused := Refused(current, f);
    if refused.Some? then Result(current, false, refused.value)
    else if exists k :: 0 <= k < |f.rows| && !ValidRow(f.rows[k], f.viewportRows) then Result(current, false, true)
    else Result(Some(StateOf(f, Patched(Base(current, f), f.rows))), true, false)
  }

  // ------------------------------------------------------------------ as the client does it

  /** `ApplyScroll` for content that moves up. */
  method ScrollUp(rows: array<Row>, next: array<Row>, top: int, bottom: int, lines: int)
    requires ValidScroll(Scroll(top, bottom, lines), rows.Length) && lines > 0
    requires next != rows && next[..] == rows[..]
    modifies next
    ensures next[..] == Scrolled(rows[..], Scroll(top, bottom, lines))
  {
    ghost var s, src := Scroll(top, bottom, lines), rows[..];
    assert forall i :: 0 <= i < rows.Length ==> next[..][i] == src[i];
    var row := top;
    while row <= bottom - lines
      invariant top <= row <= bottom - lines + 1
      invariant forall i :: 0 <= i < rows.Length ==> next[i] == if top <= i < row then ScrolledRow(src, s, i)
                                                     else src[i]
    {
      next[row] := rows[row + lines].(row := row);
      row := row + 1;
    }
    row := Max(top, bottom - lines + 1);
    while row <= bottom
      invariant bottom - lines + 1 <= row <= bottom + 1
      invariant forall i :: 0 <= i < rows.Length ==> next[i] == if top <= i < row then ScrolledRow(src, s, i)
                                                     else src[i]
    {
      next[row] := BlankRow(row);
      row := row + 1;
    }
  }

  /** `ApplyScroll` for content that moves down. */
  method ScrollDown(rows: array<Row>, next: array<Row>, top: int, bottom: int, lines: int)
    requires ValidScroll(Scroll(top, bottom, lines), rows.Length) && lines < 0
    requires next != rows && next[..] == rows[..]
    modifies next
    ensures next[..] == Scrolled(rows[..], Scroll(top, bottom, lines))
  {
    ghost var s, src := Scroll(top, bottom, lines), rows[..];
    assert forall i :: 0 <= i < rows.Length ==> next[..][i] == src[i];
    var amount := -lines;
    var row := bottom;
    while row >= top + amount
      invariant top + amount - 1 <= row <= bottom
      invariant forall i :: 0 <= i < rows.Length ==> next[i] == if row < i <= bottom then ScrolledRow(src, s, i)
                                                     else src[i]
    {
      next[row] := rows[row - amount].(row := row);
      row := row - 1;
    }
    row := top;
    var end := Min(bottom + 1, top + amount);
    while row < end
      invariant top <= row <= end
      invariant forall i :: 0 <= i < rows.Length ==>
        next[i] == if top <= i < row || end <= i <= bottom then ScrolledRow(src, s, i) else src[i]
    {
      next[row] := BlankRow(row);
      row := row + 1;
    }
  }

  /** Into a copy; the given rows are not touched. */
  method ApplyScroll(rows: array<Row>, top: int, bottom: int, lines: int) returns (next: array<Row>)
    requires ValidScroll(Scroll(top, bottom, lines), rows.Length)
    ensures fresh(next)
    ensures next[..] == Scrolled(rows[..], Scroll(top, bottom, lines))
  {
    next := new Row[rows.Length](i requires 0 <= i < rows.Length reads rows => rows[i]);
    assert next[..] == rows[..];
    if lines > 0 { ScrollUp(rows, next, top, bottom, lines); } else { ScrollDown(rows, next, top, bottom, lines); }
  }

  method ApplyProjectionFrame(current: Option<State>, f: Frame) returns (r: Result)
    requires current.Some? ==> Shaped(current.value)
    ensures r == Applied(current, f)
  {
    if !ValidShape(f) { return Result(current, false, true); }
    var streamChanged := current.None? || current.value.streamId != f.streamId
        || current.value.generation != f.generation;
    var structureChanged := current.Some? && StructureChanged(current.value, f);
    if (streamChanged || structureChanged) && !f.full { return Result(current, false, true); }
    if current.Some? && !streamChanged {
      if f.sequence <= current.value.sequence { return Result(current, false, false); }
      if !f.full && f.sequence != current.value.sequence + 1 { return Result(current, false, true); }
    }
    var rows: array<Row>;
    if f.full {
      rows := new Row[f.viewportRows](i => BlankRow(i));
    } else {
      var present := current.value.rows;
      rows := new Row[|present|](i requires 0 <= i < |present| => present[i]);
      assert rows[..] == present;
    }
    if f.scroll.Some? && !f.full {
      var s := f.scroll.value;
      if !ValidScroll(s, f.viewportRows) { return Result(current, false, true); }
      rows := ApplyScroll(rows, s.top, s.bottom, s.lines);
    }
    assert rows[..] == Base(current, f);
    var k := 0;
    while k < |f.rows|
      invariant 0 <= k <= |f.rows|
      invariant fresh(rows) && rows.Length == f.viewportRows
      invariant forall j :: 0 <= j < k ==> ValidRow(f.rows[j], f.viewportRows)
      invariant rows[..] == Patched(Base(current, f), f.rows[..k])
    {
      var row := f.rows[k];
      if !ValidRow(row, f.viewportRows) { return Result(current, false, true); }
      rows[row.row] := CleanRow(row);
      assert f.rows[..k + 1][..k] == f.rows[..k];
      k := k + 1;
    }
    assert f.rows[..k] == f.rows;
    return Result(Some(StateOf(f, rows[..])), true, false);
  }
}
