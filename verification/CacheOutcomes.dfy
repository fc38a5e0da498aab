/** What the terminal cache keeps and what it lets go: entries, bytes and checkpoints. */
module CacheOutcomes {
  import opened Common
  import opened DocumentChunks
  import opened TerminalCache

  // ------------------------------------------------------------------ bytes

  /**
   * `kept` is the longest run of whole chunks at the end of `all` that fits, or the last chunk alone if even that is
   * too long.
   */
  ghost predicate IsLongest(kept: seq<Bytes>, all: seq<Bytes>, byteLimit: nat) {
    && |kept| <= |all| && kept == all[|all| - |kept|..] && (all != [] ==> kept != [])
    && (Size(kept) <= byteLimit || |kept| == 1)
    && forall m :: 0 <= m < |all| - |kept| ==> Size(all[m..]) > byteLimit
  }

  /** A chunk that does not fit in front of the others. */
  lemma {:induction false} LongestHead(t: seq<Bytes>, all: seq<Bytes>, byteLimit: nat)
    requires |all| > 1 && IsLongest(t, all[1..], byteLimit) && Size(all) > byteLimit
    ensures IsLongest(t, all, byteLimit)
  {
    forall m | 0 < m <= |all| ensures all[m..] == all[1..][m - 1..] { }
    assert all[0..] == all;
  }

  lemma LongestWhole(all: seq<Bytes>, byteLimit: nat)
    requires Size(all) <= byteLimit || |all| <= 1
    ensures IsLongest(all, all, byteLimit)
  {
  }

  lemma TrimStep(raw: Raw, byteLimit: nat)
    requires raw.bytes == Size(raw.chunks) && raw.bytes > byteLimit && |raw.chunks| > 1
    ensures Trimmed(raw, byteLimit)
      == Trimmed(raw.(chunks := raw.chunks[1..], bytes := Size(raw.chunks[1..])), byteLimit)
  {
    FlatHead(raw.chunks[0], raw.chunks[1..]);
    assert raw.chunks == [raw.chunks[0]] + raw.chunks[1..];
  }

  /** No chunk is dropped that could have been kept, and none at all while the bytes fit. */
  lemma {:induction false} TrimmedIsLongest(raw: Raw, byteLimit: nat)
    requires raw.bytes == Size(raw.chunks)
    ensures IsLongest(Trimmed(raw, byteLimit).chunks, raw.chunks, byteLimit)
    ensures raw.bytes <= byteLimit ==> Trimmed(raw, byteLimit) == raw
    decreases |raw.chunks|
  {
    if raw.bytes > byteLimit && |raw.chunks| > 1 {
      var rest := raw.chunks[1..];
      TrimStep(raw, byteLimit);
      TrimmedIsLongest(raw.(chunks := rest, bytes := Size(rest)), byteLimit);
      LongestHead(Trimmed(raw, byteLimit).chunks, raw.chunks, byteLimit);
    } else {
      LongestWhole(raw.chunks, byteLimit);
    }
  }

  lemma {:induction false} StillTooLong(all: seq<Bytes>, chunk: Bytes, m: nat, byteLimit: nat)
    requires m <= |all| && Size(all[m..]) > byteLimit
    ensures Size((all + [chunk])[m..]) > byteLimit
  {
    assert (all + [chunk])[m..] == all[m..] + [chunk];
    FlatConcat(all[m..], [chunk]);
  }

  lemma EndsAlike(kept: seq<Bytes>, all: seq<Bytes>, chunk: Bytes, m: nat)
    requires |kept| <= |all| && kept == all[|all| - |kept|..] && |all| - |kept| <= m <= |all| + 1
    ensures (all + [chunk])[m..] == (kept + [chunk])[m - (|all| - |kept|)..]
  {
  }

  /** Keeping the longest end of what was kept before and one more chunk is keeping the longest end of everything. */
  lemma {:induction false} LongestOn(t: seq<Bytes>, kept: seq<Bytes>, all: seq<Bytes>, chunk: Bytes, byteLimit: nat)
    requires IsLongest(kept, all, byteLimit) && IsLongest(t, kept + [chunk], byteLimit)
    ensures IsLongest(t, all + [chunk], byteLimit)
  {
    var more := all + [chunk];
    EndsAlike(kept, all, chunk, |more| - |t|);
    forall m | 0 <= m < |more| - |t| ensures Size(more[m..]) > byteLimit {
      if m < |all| - |kept| { StillTooLong(all, chunk, m, byteLimit); } else { EndsAlike(kept, all, chunk, m); }
    }
  }

  function Tail(bytes: Bytes): seq<Bytes> { if bytes == [] then [] else [bytes] }

  /** The non-empty chunks remembered of `tab` since its last reset, change of generation, or disappearance. */
  function ChunksSince(limit: nat, byteLimit: nat, ops: seq<Op>, tab: string): seq<Bytes> {
    if ops == [] then []
    else
      var n := |ops| - 1;
      var op := ops[n];
      if !op.RememberRaw? || op.tab != tab then ChunksSince(limit, byteLimit, ops[..n], tab)
      else
        var raw := Existing(Run(limit, byteLimit, ops[..n]), tab).raw;
        (if op.reset || raw.None? || raw.value.generation != op.generation then []
         else ChunksSince(limit, byteLimit, ops[..n], tab)) + Tail(op.bytes)
  }

  ghost predicate LongestTails(entries: seq<Slot>, tab: string, since: seq<Bytes>, byteLimit: nat) {
    forall s :: s in entries && s.tab == tab && s.entry.raw.Some? ==>
        IsLongest(s.entry.raw.value.chunks, since, byteLimit)
  }

  /** Other tabs' entries, and a touched entry whose bytes are as they were. */
  lemma {:induction false} PutLongest(entries: seq<Slot>, tab: string, limit: nat, entry: Entry, other: string,
      since: seq<Bytes>, byteLimit: nat)
    requires DistinctTabs(entries) && LongestTails(entries, other, since, byteLimit)
    requires other == tab ==> entry.raw == Existing(entries, tab).raw
    ensures LongestTails(WithLast(Touched(entries, tab, limit), entry), other, since, byteLimit)
  {
    TouchedIs(entries, tab, limit, entry);
    FindIs(entries, tab);
    var r := WithLast(Touched(entries, tab, limit), entry);
    forall s | s in r && s.tab == other && s.entry.raw.Some?
      ensures IsLongest(s.entry.raw.value.chunks, since, byteLimit)
    {
      var k :| 0 <= k < |r| && r[k] == s;
      if k == |r| - 1 { assert Slot(tab, Existing(entries, tab)) in entries; }
    }
  }

  lemma {:induction false} RememberedLongest(raw: Raw, bytes: Bytes, byteLimit: nat, before: seq<Bytes>)
    requires raw.bytes == Size(raw.chunks) && IsLongest(raw.chunks, before, byteLimit)
    ensures IsLongest(Remembered(raw, bytes, byteLimit).chunks, before + Tail(bytes), byteLimit)
  {
    if bytes == [] {
      assert before + [] == before;
    } else {
      FlatConcat(raw.chunks, [bytes]);
      assert [bytes] == [] + [bytes] && [] + bytes == bytes;
      var more := raw.(chunks := raw.chunks + [bytes], bytes := raw.bytes + |bytes|);
      TrimmedIsLongest(more, byteLimit);
      LongestOn(Trimmed(more, byteLimit).chunks, raw.chunks, before, bytes, byteLimit);
    }
  }

  /** What the new bytes are put behind. */
  function Base(e: Entry, op: Op): Raw
    requires op.RememberRaw?
  {
    if Restarts(e, op.generation, op.reset) then Raw(op.generation, op.nextOffset, [], 0)
    else e.raw.value.(nextOffset := op.nextOffset)
  }

  lemma WithRawIs(e: Entry, op: Op, byteLimit: nat)
    requires op.RememberRaw?
    ensures WithRaw(e, op.generation, op.nextOffset, op.bytes, op.reset, byteLimit).raw
      == Some(Remembered(Base(e, op), op.bytes, byteLimit))
  {
  }

  lemma BaseIs(e: Entry, op: Op, byteLimit: nat, since: seq<Bytes>)
    requires op.RememberRaw? && EntryOk(e, byteLimit)
    requires e.raw.Some? ==> IsLongest(e.raw.value.chunks, since, byteLimit)
    ensures var raw := Base(e, op);
      && raw.bytes == Size(raw.chunks)
      && IsLongest(raw.chunks, if Restarts(e, op.generation, op.reset) then [] else since, byteLimit)
  {
  }

  /** A tab's entry after it was put is the one that was put. */
  lemma {:induction false} PutAlone(entries: seq<Slot>, tab: string, limit: nat, entry: Entry, since: seq<Bytes>,
      byteLimit: nat)
    requires DistinctTabs(entries) && (entry.raw.Some? ==> IsLongest(entry.raw.value.chunks, since, byteLimit))
    ensures LongestTails(WithLast(Touched(entries, tab, limit), entry), tab, since, byteLimit)
  {
    TouchedIs(entries, tab, limit, entry);
    var r := WithLast(Touched(entries, tab, limit), entry);
    forall s | s in r && s.tab == tab ensures s == Slot(tab, entry) {
      var k :| 0 <= k < |r| && r[k] == s;
    }
  }

  lemma {:induction false} RawLongest(entries: seq<Slot>, op: Op, limit: nat, byteLimit: nat, since: seq<Bytes>)
    requires Inv(entries, limit, byteLimit) && op.RememberRaw? && LongestTails(entries, op.tab, since, byteLimit)
    ensures LongestTails(Apply(entries, limit, byteLimit, op), op.tab,
      (if Restarts(Existing(entries, op.tab), op.generation, op.reset) then [] else since) + Tail(op.bytes), byteLimit)
  {
    var e := Existing(entries, op.tab);
    var before := if Restarts(e, op.generation, op.reset) then [] else since;
    ExistingOk(entries, op.tab, byteLimit);
    FindIs(entries, op.tab);
    WithRawIs(e, op, byteLimit);
    BaseIs(e, op, byteLimit, since);
    RememberedLongest(Base(e, op), op.bytes, byteLimit, before);
    PutAlone(entries, op.tab, limit, WithRaw(e, op.generation, op.nextOffset, op.bytes, op.reset, byteLimit),
        before + Tail(op.bytes), byteLimit);
  }

  /**
   * After any operations the bytes retained of a tab are the longest run of whole chunks that fits, of all that was
   * remembered of it since its last restart, however they were trimmed on the way.
   */
  lemma {:induction false} RetainedIsLongest(limit: nat, byteLimit: nat, ops: seq<Op>, tab: string)
    ensures LongestTails(Run(limit, byteLimit, ops), tab, ChunksSince(limit, byteLimit, ops, tab), byteLimit)
  {
    if ops != [] {
      var n := |ops| - 1;
      var before, op, since := Run(limit, byteLimit, ops[..n]), ops[n], ChunksSince(limit, byteLimit, ops[..n], tab);
      RetainedIsLongest(limit, byteLimit, ops[..n], tab);
      InvAlways(limit, byteLimit, ops[..n]);
      match op
      case RememberRaw(t, generation, nextOffset, bytes, reset) =>
        if t == tab { RawLongest(before, op, limit, byteLimit, since); }
        else {
          PutLongest(before, t, limit, WithRaw(Existing(before, t), generation, nextOffset, bytes, reset, byteLimit),
              tab, since, byteLimit);
        }
      case RememberRendered(t, rendered) =>
        PutLongest(before, t, limit, WithRendered(Existing(before, t), rendered), tab, since, byteLimit);
      case RememberProjection(t, state) =>
        PutLongest(before, t, limit, Existing(before, t).(projection := Some(state)), tab, since, byteLimit);
      case _ =>
    }
  }

  // ------------------------------------------------------------------ entries

  /** How many other tabs have been touched after the one at `k`. */
  function NewerThan(entries: seq<Slot>, k: nat, tab: string): nat
    requires k < |entries|
  {
    |Others(entries[k + 1..], tab)|
  }

  lemma {:induction false} OthersFrom(entries: seq<Slot>, k: nat, tab: string)
    requires k < |entries| && entries[k].tab != tab
    ensures var all := Others(entries, tab);
      NewerThan(entries, k, tab) < |all| && all[|all| - 1 - NewerThan(entries, k, tab)] == entries[k]
  {
    assert entries == entries[..k] + [entries[k]] + entries[k + 1..];
    FilterConcat(entries[..k] + [entries[k]], entries[k + 1..], NotOf(tab));
    FilterConcat(entries[..k], [entries[k]], NotOf(tab));
    assert [entries[k]][1..] == [];
  }

  lemma {:induction false} OthersAre(entries: seq<Slot>, tab: string, s: Slot)
    ensures s in Others(entries, tab) <==> s in entries && s.tab != tab
  {
  }

  /**
   * Which entries touching a tab leaves: its own, last; and of the others, in their old order, exactly those with fewer
   * than the limit less one touched after them.
   */
  lemma {:induction false} EvictionOutcome(entries: seq<Slot>, tab: string, limit: nat, entry: Entry, k: nat)
    requires DistinctTabs(entries) && k < |entries| && entries[k].tab != tab
    ensures
      var r := WithLast(Touched(entries, tab, limit), entry);
      var newer := NewerThan(entries, k, tab);
      && r[|r| - 1] == Slot(tab, entry)
      && (newer < Max(1, limit) - 1 ==> newer + 1 < |r| && r[|r| - 2 - newer] == entries[k])
      && (entries[k] in r <==> newer < Max(1, limit) - 1)
  {
    OthersFrom(entries, k, tab);
    FilterKeepsTabs(entries, NotOf(tab));
    var all := Others(entries, tab);
    var r := WithLast(Touched(entries, tab, limit), entry);
    var newer := NewerThan(entries, k, tab);
    forall i | 0 <= i < |r| - 1 ensures r[i] == all[|all| - |r| + 1 + i] { }
    forall i | 0 <= i < |r| - 1 && r[i] == entries[k] ensures i == |r| - 2 - newer {
      assert all[|all| - |r| + 1 + i].tab == all[|all| - 1 - newer].tab;
    }
  }

  // ------------------------------------------------------------------ what an operation does to its own entry

  lemma FindLast(entries: seq<Slot>, tab: string, entry: Entry)
    requires DistinctTabs(entries) && entries != [] && entries[|entries| - 1] == Slot(tab, entry)
    ensures Existing(entries, tab) == entry
  {
    FindIs(entries, tab);
    var k :| 0 <= k < |entries| && entries[k] == Slot(tab, Existing(entries, tab));
  }

  /** A checkpoint is kept if and only if it is of the raw bytes' generation, not ahead of them, and not older. */
  lemma {:induction false} RenderedOutcome(entries: seq<Slot>, limit: nat, byteLimit: nat, tab: string, r: Rendered)
    requires Inv(entries, limit, byteLimit)
    ensures
      var e := Existing(entries, tab);
      var f := Existing(Apply(entries, limit, byteLimit, RememberRendered(tab, r)), tab);
      && f.raw == e.raw && f.projection == e.projection
      && f.rendered == (if e.raw.Some? && r.generation == e.raw.value.generation
                           && r.nextOffset <= e.raw.value.nextOffset
                           && !(e.rendered.Some? && e.rendered.value.nextOffset > r.nextOffset)
                        then Some(r) else e.rendered)
  {
    TouchedIs(entries, tab, limit, WithRendered(Existing(entries, tab), r));
    FindLast(Apply(entries, limit, byteLimit, RememberRendered(tab, r)), tab, WithRendered(Existing(entries, tab), r));
  }

  /** Remembering bytes moves the entry to their generation and end; only a checkpoint of another generation goes. */
  lemma {:induction false} RawOutcome(entries: seq<Slot>, limit: nat, byteLimit: nat, op: Op)
    requires Inv(entries, limit, byteLimit) && op.RememberRaw?
    ensures
      var e, f := Existing(entries, op.tab), Existing(Apply(entries, limit, byteLimit, op), op.tab);
      && f.raw.Some? && f.raw.value.generation == op.generation && f.raw.value.nextOffset == op.nextOffset
      && f.projection == e.projection
      && f.rendered == (if e.rendered.Some? && e.rendered.value.generation != op.generation then None else e.rendered)
  {
    var f := WithRaw(Existing(entries, op.tab), op.generation, op.nextOffset, op.bytes, op.reset, byteLimit);
    ExistingOk(entries, op.tab, byteLimit);
    WithRawKeeps(Existing(entries, op.tab), op.generation, op.nextOffset, op.bytes, op.reset, byteLimit);
    TouchedIs(entries, op.tab, limit, f);
    FindLast(Apply(entries, limit, byteLimit, op), op.tab, f);
  }

  /** A remembered screen is kept as it is beside what else there is. */
  lemma {:induction false} ProjectionOutcome(entries: seq<Slot>, limit: nat, byteLimit: nat, op: Op)
    requires Inv(entries, limit, byteLimit) && op.RememberProjection?
    ensures
      var e, f := Existing(entries, op.tab), Existing(Apply(entries, limit, byteLimit, op), op.tab);
      f.projection == Some(op.state) && f.raw == e.raw && f.rendered == e.rendered
  {
    var f := Existing(entries, op.tab).(projection := Some(op.state));
    TouchedIs(entries, op.tab, limit, f);
    FindLast(Apply(entries, limit, byteLimit, op), op.tab, f);
  }

  /** Forgetting drops the one tab, retaining all that are not valid, and neither touches another entry. */
  lemma {:induction false} DroppingOutcome(entries: seq<Slot>, limit: nat, byteLimit: nat, tab: string,
      valid: set<string>, s: Slot)
    ensures s in Apply(entries, limit, byteLimit, Forget(tab)) <==> s in entries && s.tab != tab
    ensures s in Apply(entries, limit, byteLimit, Retain(valid)) <==> s in entries && s.tab in valid
  {
  }
}
