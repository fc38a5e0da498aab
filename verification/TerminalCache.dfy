/** What the browser keeps of each terminal: a bounded, least-recently-used cache of byte tails and checkpoints. */
module TerminalCache {
  import opened Common
  import opened DocumentChunks
  import Screen

  type Bytes = seq<byte>

  datatype Raw = Raw(generation: string, nextOffset: nat, chunks: seq<Bytes>, bytes: nat)
  datatype Rendered = Rendered(generation: string, nextOffset: nat, cols: nat, rows: nat, ansi: string)
  datatype Entry = Entry(raw: Option<Raw>, rendered: Option<Rendered>, projection: Option<Screen.State>)
  datatype Slot = Slot(tab: string, entry: Entry)
  datatype RawMemory = RawMemory(generation: string, nextOffset: nat, data: Bytes)

  const EMPTY := Entry(None, None, None)

  // ------------------------------------------------------------------ entries, oldest first

  function Find(entries: seq<Slot>, tab: string): Option<Entry> {
    if entries == [] then None else if entries[0].tab == tab then Some(entries[0].entry) else Find(entries[1..], tab)
  }

  function NotOf(tab: string): Slot -> bool { (s: Slot) => s.tab != tab }
  function OneOf(valid: set<string>): Slot -> bool { (s: Slot) => s.tab in valid }

  function Others(entries: seq<Slot>, tab: string): seq<Slot> { Filter(entries, NotOf(tab)) }

  function Newest(entries: seq<Slot>, n: nat): seq<Slot>
  {
    if |entries| <= n then entries else entries[|entries| - n..]
  }

  function Existing(entries: seq<Slot>, tab: string): Entry {
    var e := Find(entries, tab);
    if e.Some? then e.value else EMPTY
  }

  /** The entry moves to the end, and the oldest go until the limit is met, but never the last one. */
  function Touched(entries: seq<Slot>, tab: string, limit: nat): (r: seq<Slot>)
    ensures r != [] && r[|r| - 1] == Slot(tab, Existing(entries, tab))
  {
    Newest(Others(entries, tab) + [Slot(tab, Existing(entries, tab))], Max(1, limit))
  }

  function WithLast(entries: seq<Slot>, entry: Entry): seq<Slot>
    requires entries != []
  {
    entries[|entries| - 1 := entries[|entries| - 1].(entry := entry)]
  }

  // ------------------------------------------------------------------ one entry

  function Size(chunks: seq<Bytes>): nat { |Flat(chunks)| }

  /** Whole chunks go from the front while there are too many bytes and more than one chunk. */
  function Trimmed(raw: Raw, byteLimit: nat): Raw
    decreases |raw.chunks|
  {
    if raw.bytes > byteLimit && |raw.chunks| > 1 then
      Trimmed(raw.(chunks := raw.chunks[1..], bytes := Max(0, raw.bytes - |raw.chunks[0]|)), byteLimit)
    else raw
  }

  predicate Restarts(e: Entry, generation: string, reset: bool)
  {
    reset || e.raw.None? || e.raw.value.generation != generation
  }

  function Restarted(e: Entry, generation: string, nextOffset: nat): Entry {
    e.(raw := Some(Raw(generation, nextOffset, [], 0)),
       rendered := if e.rendered.Some? && e.rendered.value.generation == generation then e.rendered else None)
  }

  function WithRaw(e: Entry, generation: string, nextOffset: nat, bytes: Bytes, reset: bool, byteLimit: nat): Entry {
    var f := if Restarts(e, generation, reset) then Restarted(e, generation, nextOffset) else e;
    var raw := f.raw.value.(nextOffset := nextOffset);
    if bytes == [] then f.(raw := Some(raw))
    else f.(raw := Some(Trimmed(raw.(chunks := raw.chunks + [bytes], bytes := raw.bytes + |bytes|), byteLimit)))
  }

  /**
   * A checkpoint is kept if it is of the raw stream's generation, not ahead of it, and not older than the one
   * there is.
   */
  function WithRendered(e: Entry, r: Rendered): Entry {
    if e.raw.Some? && e.raw.value.generation == r.generation && r.nextOffset <= e.raw.value.nextOffset
       && (e.rendered.None? || r.nextOffset >= e.rendered.value.nextOffset)
    then e.(rendered := Some(r)) else e
  }

  datatype Op =
    | RememberRaw(tab: string, generation: string, nextOffset: nat, bytes: Bytes, reset: bool)
    | RememberRendered(tab: string, rendered: Rendered)
    | RememberProjection(tab: string, state: Screen.State)
    | Forget(tab: string)
    | Retain(valid: set<string>)

  function Apply(entries: seq<Slot>, limit: nat, byteLimit: nat, op: Op): seq<Slot> {
    match op
    case RememberRaw(tab, generation, nextOffset, bytes, reset) =>
      var t := Touched(entries, tab, limit);
      WithLast(t, WithRaw(Existing(entries, tab), generation, nextOffset, bytes, reset, byteLimit))
    case RememberRendered(tab, rendered) =>
      WithLast(Touched(entries, tab, limit), WithRendered(Existing(entries, tab), rendered))
    case RememberProjection(tab, state) =>
      WithLast(Touched(entries, tab, limit), Existing(entries, tab).(projection := Some(state)))
    case Forget(tab) => Others(entries, tab)
    case Retain(valid) => Filter(entries, OneOf(valid))
  }

  // ------------------------------------------------------------------ as the client does it

  class Cache {
    var entries: seq<Slot>
    const limit: nat
    const byteLimit: nat

    constructor (limit: nat, byteLimit: nat)
      ensures entries == [] && this.limit == limit && this.byteLimit == byteLimit
    {
      this.limit, this.byteLimit, entries := limit, byteLimit, [];
    }

    method Touch(tab: string)
      modifies this
      ensures entries == Touched(old(entries), tab, limit)
    {
      var existing := Existing(entries, tab);
      entries := Others(entries, tab);
      entries := entries + [Slot(tab, existing)];
      ghost var all := entries;
      while |entries| > Max(1, limit)
        invariant Max(1, limit) <= |entries| || entries == all
        invariant |entries| <= |all| && entries == all[|all| - |entries|..]
      {
        entries := entries[1..];
      }
    }

    method RememberRawBytes(tab: string, generation: string, nextOffset: nat, bytes: Bytes, reset: bool)
      modifies this
      ensures entries == Apply(old(entries), limit, byteLimit, RememberRaw(tab, generation, nextOffset, bytes, reset))
    {
      Touch(tab);
      var last := |entries| - 1;
      var entry := entries[last].entry;
      if reset || entry.raw.None? || entry.raw.value.generation != generation {
        var rendered := entry.rendered;
        if rendered.Some? && rendered.value.generation != generation { rendered := None; }
        entry := entry.(raw := Some(Raw(generation, nextOffset, [], 0)), rendered := rendered);
      }
      var raw := entry.raw.value.(nextOffset := nextOffset);
      if |bytes| > 0 {
        raw := raw.(chunks := raw.chunks + [bytes], bytes := raw.bytes + |bytes|);
        ghost var full := raw;
        while raw.bytes > byteLimit && |raw.chunks| > 1
          invariant Trimmed(raw, byteLimit) == Trimmed(full, byteLimit)
          decreases |raw.chunks|
        {
          raw := raw.(chunks := raw.chunks[1..], bytes := Max(0, raw.bytes - |raw.chunks[0]|));
        }
      }
      entries := WithLast(entries, entry.(raw := Some(raw)));
    }

    method RememberRenderedState(tab: string, r: Rendered)
      modifies this
      ensures entries == Apply(old(entries), limit, byteLimit, RememberRendered(tab, r))
    {
      Touch(tab);
      var entry := entries[|entries| - 1].entry;
      if entry.raw.Some? && entry.raw.value.generation == r.generation && r.nextOffset <= entry.raw.value.nextOffset
         && (entry.rendered.None? || r.nextOffset >= entry.rendered.value.nextOffset) {
        entry := entry.(rendered := Some(r));
      }
      entries := WithLast(entries, entry);
    }

    method ReadRaw(tab: string) returns (memory: Option<RawMemory>)
      ensures
        var e := Find(entries, tab);
        if e.None? || e.value.raw.None? || e.value.raw.value.bytes == 0 then memory.None?
        else memory == Some(RawMemory(e.value.raw.value.generation, e.value.raw.value.nextOffset,
            Flat(e.value.raw.value.chunks)))
    {
      var e := Find(entries, tab);
      if e.None? || e.value.raw.None? || e.value.raw.value.bytes == 0 { return None; }
      var raw := e.value.raw.value;
      var data: Bytes := [];
      for k := 0 to |raw.chunks|
        invariant data == Flat(raw.chunks[..k])
      {
        assert raw.chunks[..k + 1] == raw.chunks[..k] + [raw.chunks[k]];
        data := data + raw.chunks[k];
      }
      assert raw.chunks[..|raw.chunks|] == raw.chunks;
      return Some(RawMemory(raw.generation, raw.nextOffset, data));
    }

    /** Entries of tabs that are gone are deleted one by one. */
    method RetainTabs(valid: set<string>)
      modifies this
      ensures entries == Apply(old(entries), limit, byteLimit, Retain(valid))
    {
      var keys := entries;
      var kept: seq<Slot> := [];
      for k := 0 to |keys|
        invariant kept == Filter(keys[..k], OneOf(valid)) && entries == old(entries)
      {
        assert keys[..k + 1] == keys[..k] + [keys[k]];
        FilterConcat(keys[..k], [keys[k]], OneOf(valid));
        assert [keys[k]][1..] == [];
        if keys[k].tab in valid { kept := kept + [keys[k]]; }
      }
      assert keys[..|keys|] == keys;
      entries := kept;
    }
  }

  // ------------------------------------------------------------------ what every run keeps

  ghost predicate EntryOk(e: Entry, byteLimit: nat) {
    && (e.raw.Some? ==>
          && e.raw.value.bytes == Size(e.raw.value.chunks)
          && (e.raw.value.bytes > byteLimit ==> |e.raw.value.chunks| == 1))
    && (e.rendered.Some? ==> e.raw.Some? && e.raw.value.generation == e.rendered.value.generation)
  }

  predicate DistinctTabs(entries: seq<Slot>)
  {
    forall i, j :: 0 <= i < j < |entries| ==> entries[i].tab != entries[j].tab
  }

  ghost predicate AllOk(entries: seq<Slot>, byteLimit: nat) { forall s :: s in entries ==> EntryOk(s.entry, byteLimit) }

  ghost predicate Inv(entries: seq<Slot>, limit: nat, byteLimit: nat) {
    |entries| <= Max(1, limit) && DistinctTabs(entries) && AllOk(entries, byteLimit)
  }

  predicate IsSuffix(a: Bytes, b: Bytes) { |a| <= |b| && a == b[|b| - |a|..] }

  lemma {:induction false} TrimmedKeeps(raw: Raw, byteLimit: nat)
    requires raw.bytes == Size(raw.chunks)
    ensures var t := Trimmed(raw, byteLimit);
      && t.bytes == Size(t.chunks) && (t.bytes > byteLimit ==> |t.chunks| <= 1)
      && IsSuffix(Flat(t.chunks), Flat(raw.chunks)) && (raw.chunks != [] ==> t.chunks != [])
      && t.generation == raw.generation && t.nextOffset == raw.nextOffset
    decreases |raw.chunks|
  {
    if raw.bytes > byteLimit && |raw.chunks| > 1 {
      var first, rest := raw.chunks[0], raw.chunks[1..];
      FlatHead(first, rest);
      assert raw.chunks == [first] + rest;
      TrimmedKeeps(raw.(chunks := rest, bytes := Max(0, raw.bytes - |first|)), byteLimit);
    }
  }

  lemma {:induction false} FlatHead<T>(first: seq<T>, rest: seq<seq<T>>)
    ensures Flat([first] + rest) == first + Flat(rest)
  {
    FlatConcat([first], rest);
    assert [first] == [] + [first];
    assert Flat<T>([]) + first == first;
  }

  function Remembered(raw: Raw, bytes: Bytes, byteLimit: nat): Raw {
    if bytes == [] then raw else Trimmed(raw.(chunks := raw.chunks + [bytes], bytes := raw.bytes + |bytes|), byteLimit)
  }

  lemma {:induction false} RememberedKeeps(raw: Raw, bytes: Bytes, byteLimit: nat)
    requires raw.bytes == Size(raw.chunks) && (raw.bytes > byteLimit ==> |raw.chunks| == 1)
    ensures var t := Remembered(raw, bytes, byteLimit);
      && t.bytes == Size(t.chunks) && (t.bytes > byteLimit ==> |t.chunks| == 1)
      && IsSuffix(Flat(t.chunks), Flat(raw.chunks) + bytes) && t.generation == raw.generation
          && t.nextOffset == raw.nextOffset
  {
    if bytes == [] {
      assert Flat(raw.chunks) + bytes == Flat(raw.chunks);
    } else {
      TrimmedKeeps(raw.(chunks := raw.chunks + [bytes], bytes := raw.bytes + |bytes|), byteLimit);
    }
  }

  /** The byte tail after remembering is a suffix of what was there before, restarted or not, and the new bytes. */
  lemma {:induction false} WithRawKeeps(e: Entry, generation: string, nextOffset: nat, bytes: Bytes, reset: bool,
      byteLimit: nat)
    requires EntryOk(e, byteLimit)
    ensures
      var f := WithRaw(e, generation, nextOffset, bytes, reset, byteLimit);
      && EntryOk(f, byteLimit) && f.raw.Some? && f.raw.value.generation == generation
          && f.raw.value.nextOffset == nextOffset
      && IsSuffix(Flat(f.raw.value.chunks), (if Restarts(e, generation, reset) then []
          else Flat(e.raw.value.chunks)) + bytes)
  {
    var f := if Restarts(e, generation, reset) then Restarted(e, generation, nextOffset) else e;
    var raw := f.raw.value.(nextOffset := nextOffset);
    RememberedKeeps(raw, bytes, byteLimit);
    assert WithRaw(e, generation, nextOffset, bytes, reset, byteLimit)
        == f.(raw := Some(Remembered(raw, bytes, byteLimit)));
  }

  lemma {:induction false} FilterKeepsTabs(entries: seq<Slot>, keep: Slot -> bool)
    requires DistinctTabs(entries)
    ensures DistinctTabs(Filter(entries, keep))
  {
    if entries != [] {
      var first, rest := entries[0], Filter(entries[1..], keep);
      assert forall i, j :: 0 <= i < j < |entries[1..]| ==> entries[1..][i] == entries[i + 1]
                                                            && entries[1..][j] == entries[j + 1];
      FilterKeepsTabs(entries[1..], keep);
      forall k | 0 <= k < |rest| ensures rest[k].tab != first.tab {
        assert rest[k] in entries[1..];
      }
    }
  }

  lemma {:induction false} FindIs(entries: seq<Slot>, tab: string)
    ensures Find(entries, tab).Some? ==> Slot(tab, Find(entries, tab).value) in entries
    ensures Find(entries, tab).None? <==> forall s :: s in entries ==> s.tab != tab
  {
    if entries != [] { FindIs(entries[1..], tab); }
  }

  lemma {:induction false} ExistingOk(entries: seq<Slot>, tab: string, byteLimit: nat)
    requires AllOk(entries, byteLimit)
    ensures EntryOk(Existing(entries, tab), byteLimit)
  {
    FindIs(entries, tab);
  }

  /** Old entries of other tabs, as many as still fit, and one entry of this tab. */
  lemma {:induction false} TouchedIs(entries: seq<Slot>, tab: string, limit: nat, entry: Entry)
    requires DistinctTabs(entries)
    ensures var r := WithLast(Touched(entries, tab, limit), entry);
      && |r| <= Max(1, limit) && DistinctTabs(r) && r[|r| - 1] == Slot(tab, entry)
      && forall k :: 0 <= k < |r| - 1 ==> r[k] in entries && r[k].tab != tab
  {
    var rest := Others(entries, tab);
    FilterKeepsTabs(entries, NotOf(tab));
    forall k | 0 <= k < |rest| ensures rest[k] in entries && rest[k].tab != tab { assert rest[k] in rest; }
    var all := rest + [Slot(tab, Existing(entries, tab))];
    var t := Touched(entries, tab, limit);
  }

  lemma {:induction false} PutInv(entries: seq<Slot>, tab: string, limit: nat, byteLimit: nat, entry: Entry)
    requires Inv(entries, limit, byteLimit) && EntryOk(entry, byteLimit)
    ensures Inv(WithLast(Touched(entries, tab, limit), entry), limit, byteLimit)
  {
    TouchedIs(entries, tab, limit, entry);
    var r := WithLast(Touched(entries, tab, limit), entry);
    forall s | s in r ensures EntryOk(s.entry, byteLimit) {
      var k :| 0 <= k < |r| && r[k] == s;
    }
  }

  lemma {:induction false} ApplyInv(entries: seq<Slot>, limit: nat, byteLimit: nat, op: Op)
    requires Inv(entries, limit, byteLimit)
    ensures Inv(Apply(entries, limit, byteLimit, op), limit, byteLimit)
  {
    match op
    case RememberRaw(tab, generation, nextOffset, bytes, reset) =>
      ExistingOk(entries, tab, byteLimit);
      WithRawKeeps(Existing(entries, tab), generation, nextOffset, bytes, reset, byteLimit);
      PutInv(entries, tab, limit, byteLimit, WithRaw(Existing(entries, tab), generation, nextOffset, bytes, reset,
          byteLimit));
    case RememberRendered(tab, rendered) =>
      ExistingOk(entries, tab, byteLimit);
      PutInv(entries, tab, limit, byteLimit, WithRendered(Existing(entries, tab), rendered));
    case RememberProjection(tab, state) =>
      ExistingOk(entries, tab, byteLimit);
      PutInv(entries, tab, limit, byteLimit, Existing(entries, tab).(projection := Some(state)));
    case Forget(tab) => FilterKeepsTabs(entries, NotOf(tab));
    case Retain(valid) => FilterKeepsTabs(entries, OneOf(valid));
  }

  function Run(limit: nat, byteLimit: nat, ops: seq<Op>): seq<Slot> {
    if ops == [] then [] else Apply(Run(limit, byteLimit, ops[..|ops| - 1]), limit, byteLimit, ops[|ops| - 1])
  }

  /**
   * After any operations: at most as many entries as the limit (or one), no tab twice, every byte
   * count equal to its chunks' lengths and over the limit only for a single chunk, and every
   * checkpoint of the raw entry's generation.
   */
  lemma {:induction false} InvAlways(limit: nat, byteLimit: nat, ops: seq<Op>)
    ensures Inv(Run(limit, byteLimit, ops), limit, byteLimit)
  {
    if ops != [] {
      InvAlways(limit, byteLimit, ops[..|ops| - 1]);
      ApplyInv(Run(limit, byteLimit, ops[..|ops| - 1]), limit, byteLimit, ops[|ops| - 1]);
    }
  }

  predicate Touches(op: Op) { op.RememberRaw? || op.RememberRendered? || op.RememberProjection? }

  /** The entry just touched survives eviction, as the newest; what is left besides are old entries, unchanged. */
  lemma {:induction false} TouchedSurvives(limit: nat, byteLimit: nat, ops: seq<Op>, op: Op)
    requires Touches(op)
    ensures var before := Run(limit, byteLimit, ops);
      var after := Apply(before, limit, byteLimit, op);
      && after != [] && after[|after| - 1].tab == op.tab
      && (forall k :: 0 <= k < |after| - 1 ==> after[k] in before && after[k].tab != op.tab)
  {
    var before := Run(limit, byteLimit, ops);
    InvAlways(limit, byteLimit, ops);
    match op
    case RememberRaw(tab, generation, nextOffset, bytes, reset) =>
      TouchedIs(before, tab, limit, WithRaw(Existing(before, tab), generation, nextOffset, bytes, reset, byteLimit));
    case RememberRendered(tab, rendered) => TouchedIs(before, tab, limit,
        WithRendered(Existing(before, tab), rendered));
    case RememberProjection(tab, state) => TouchedIs(before, tab, limit,
        Existing(before, tab).(projection := Some(state)));
    case _ =>
  }

  // ------------------------------------------------------------------ retained bytes

  /** Everything remembered of `tab` since its last reset, change of generation, or disappearance from the cache. */
  function Since(limit: nat, byteLimit: nat, ops: seq<Op>, tab: string): Bytes {
    if ops == [] then []
    else
      var n := |ops| - 1;
      var op := ops[n];
      if !op.RememberRaw? || op.tab != tab then Since(limit, byteLimit, ops[..n], tab)
      else
        (if Restarts(Existing(Run(limit, byteLimit, ops[..n]), tab), op.generation, op.reset) then []
         else Since(limit, byteLimit, ops[..n], tab)) + op.bytes
  }

  ghost predicate Tails(entries: seq<Slot>, tab: string, since: Bytes) {
    forall s :: s in entries && s.tab == tab && s.entry.raw.Some? ==> IsSuffix(Flat(s.entry.raw.value.chunks), since)
  }

  lemma SuffixStep(tail: Bytes, a: Bytes, b: Bytes, bytes: Bytes)
    requires IsSuffix(tail, a + bytes) && IsSuffix(a, b)
    ensures IsSuffix(tail, b + bytes)
  {
    assert (b + bytes)[|b| - |a|..] == a + bytes;
  }

  /** Other tabs' entries, and a touched entry whose bytes are as they were, keep their tails. */
  lemma {:induction false} PutTails(entries: seq<Slot>, tab: string, limit: nat, entry: Entry, other: string,
      since: Bytes)
    requires DistinctTabs(entries) && Tails(entries, other, since)
    requires other == tab ==> entry.raw == Existing(entries, tab).raw
    ensures Tails(WithLast(Touched(entries, tab, limit), entry), other, since)
  {
    TouchedIs(entries, tab, limit, entry);
    FindIs(entries, tab);
    var r := WithLast(Touched(entries, tab, limit), entry);
    forall s | s in r && s.tab == other && s.entry.raw.Some? ensures IsSuffix(Flat(s.entry.raw.value.chunks), since) {
      var k :| 0 <= k < |r| && r[k] == s;
      if k == |r| - 1 { assert Slot(tab, Existing(entries, tab)) in entries; }
    }
  }

  lemma {:induction false} RawTails(entries: seq<Slot>, op: Op, limit: nat, byteLimit: nat, since: Bytes)
    requires Inv(entries, limit, byteLimit) && op.RememberRaw? && Tails(entries, op.tab, since)
    ensures Tails(Apply(entries, limit, byteLimit, op), op.tab,
      (if Restarts(Existing(entries, op.tab), op.generation, op.reset) then [] else since) + op.bytes)
  {
    var e := Existing(entries, op.tab);
    var f := WithRaw(e, op.generation, op.nextOffset, op.bytes, op.reset, byteLimit);
    ExistingOk(entries, op.tab, byteLimit);
    FindIs(entries, op.tab);
    WithRawKeeps(e, op.generation, op.nextOffset, op.bytes, op.reset, byteLimit);
    if !Restarts(e, op.generation, op.reset) {
      assert Slot(op.tab, e) in entries;
      SuffixStep(Flat(f.raw.value.chunks), Flat(e.raw.value.chunks), since, op.bytes);
    }
    TouchedIs(entries, op.tab, limit, f);
    var r := Apply(entries, limit, byteLimit, op);
    forall s | s in r && s.tab == op.tab ensures s == Slot(op.tab, f) {
      var k :| 0 <= k < |r| && r[k] == s;
    }
  }

  /** The bytes retained of a tab are always a suffix of everything remembered of it since its last restart. */
  lemma {:induction false} RetainedIsSuffix(limit: nat, byteLimit: nat, ops: seq<Op>, tab: string)
    ensures Tails(Run(limit, byteLimit, ops), tab, Since(limit, byteLimit, ops, tab))
  {
    if ops != [] {
      var n := |ops| - 1;
      var before, op := Run(limit, byteLimit, ops[..n]), ops[n];
      RetainedIsSuffix(limit, byteLimit, ops[..n], tab);
      InvAlways(limit, byteLimit, ops[..n]);
      match op
      case RememberRaw(t, generation, nextOffset, bytes, reset) =>
        if t == tab { RawTails(before, op, limit, byteLimit, Since(limit, byteLimit, ops[..n], tab)); }
        else {
          PutTails(before, t, limit, WithRaw(Existing(before, t), generation, nextOffset, bytes, reset, byteLimit), tab,
              Since(limit, byteLimit, ops[..n], tab));
        }
      case RememberRendered(t, rendered) =>
        PutTails(before, t, limit, WithRendered(Existing(before, t), rendered), tab,
            Since(limit, byteLimit, ops[..n], tab));
      case RememberProjection(t, state) =>
        PutTails(before, t, limit, Existing(before, t).(projection := Some(state)), tab,
            Since(limit, byteLimit, ops[..n], tab));
      case _ =>
    }
  }

  // ------------------------------------------------------------------ checkpoints and raw bytes

  /** The checkpoint is of a later offset than the raw bytes it is kept with. */
  predicate Leads(e: Entry) { e.rendered.Some? && e.raw.Some? && e.rendered.value.nextOffset > e.raw.value.nextOffset }

  predicate NoneLeads(entries: seq<Slot>) { forall k :: 0 <= k < |entries| ==> !Leads(entries[k].entry) }

  /** Raw bytes of the checkpoint's own generation are remembered up to an offset before the checkpoint. */
  predicate Rewinds(entries: seq<Slot>, op: Op) {
    && op.RememberRaw?
    && var rendered := Existing(entries, op.tab).rendered;
       rendered.Some? && rendered.value.generation == op.generation && op.nextOffset < rendered.value.nextOffset
  }

  predicate NeverLeads(limit: nat, byteLimit: nat, ops: seq<Op>) {
    NoneLeads(Run(limit, byteLimit, ops)) && (ops == [] || NeverLeads(limit, byteLimit, ops[..|ops| - 1]))
  }

  predicate NeverRewinds(limit: nat, byteLimit: nat, ops: seq<Op>) {
    ops == [] ||
    var n := |ops| - 1;
    NeverRewinds(limit, byteLimit, ops[..n]) && !Rewinds(Run(limit, byteLimit, ops[..n]), ops[n])
  }

  lemma {:induction false} ExistingFollows(entries: seq<Slot>, tab: string)
    requires NoneLeads(entries)
    ensures !Leads(Existing(entries, tab))
  {
    FindIs(entries, tab);
    if Find(entries, tab).Some? {
      var s := Slot(tab, Existing(entries, tab));
      var k :| 0 <= k < |entries| && entries[k] == s;
    }
  }

  lemma {:induction false} PutLeads(entries: seq<Slot>, tab: string, limit: nat, entry: Entry)
    requires DistinctTabs(entries) && NoneLeads(entries)
    ensures NoneLeads(WithLast(Touched(entries, tab, limit), entry)) <==> !Leads(entry)
  {
    TouchedIs(entries, tab, limit, entry);
    var r := WithLast(Touched(entries, tab, limit), entry);
    forall k | 0 <= k < |r| - 1 ensures !Leads(r[k].entry) { assert r[k] in entries; }
  }

  lemma {:induction false} FilterLeads(entries: seq<Slot>, keep: Slot -> bool)
    requires NoneLeads(entries)
    ensures NoneLeads(Filter(entries, keep))
  {
    var r := Filter(entries, keep);
    forall k | 0 <= k < |r| ensures !Leads(r[k].entry) { assert r[k] in r; }
  }

  lemma {:induction false} RawLeads(entries: seq<Slot>, op: Op, limit: nat, byteLimit: nat)
    requires Inv(entries, limit, byteLimit) && NoneLeads(entries) && op.RememberRaw?
    ensures Leads(WithRaw(Existing(entries, op.tab), op.generation, op.nextOffset, op.bytes, op.reset, byteLimit))
        <==> Rewinds(entries, op)
  {
    ExistingOk(entries, op.tab, byteLimit);
    WithRawKeeps(Existing(entries, op.tab), op.generation, op.nextOffset, op.bytes, op.reset, byteLimit);
  }

  lemma {:induction false} StepLeads(entries: seq<Slot>, limit: nat, byteLimit: nat, op: Op)
    requires Inv(entries, limit, byteLimit) && NoneLeads(entries)
    ensures NoneLeads(Apply(entries, limit, byteLimit, op)) <==> !Rewinds(entries, op)
  {
    match op
    case RememberRaw(tab, generation, nextOffset, bytes, reset) =>
      RawLeads(entries, op, limit, byteLimit);
      PutLeads(entries, tab, limit, WithRaw(Existing(entries, tab), generation, nextOffset, bytes, reset, byteLimit));
    case RememberRendered(tab, rendered) =>
      ExistingFollows(entries, tab);
      PutLeads(entries, tab, limit, WithRendered(Existing(entries, tab), rendered));
    case RememberProjection(tab, state) =>
      ExistingFollows(entries, tab);
      PutLeads(entries, tab, limit, Existing(entries, tab).(projection := Some(state)));
    case Forget(tab) => FilterLeads(entries, NotOf(tab));
    case Retain(valid) => FilterLeads(entries, OneOf(valid));
  }

  /**
   * Over any operations no checkpoint is ever ahead of the raw bytes it is kept with, if and only if raw
   * bytes of a checkpoint's generation are never remembered up to an offset before it, reset or not.
   */
  lemma {:induction false} CheckpointsFollow(limit: nat, byteLimit: nat, ops: seq<Op>)
    ensures NeverLeads(limit, byteLimit, ops) <==> NeverRewinds(limit, byteLimit, ops)
  {
    if ops != [] {
      var n := |ops| - 1;
      CheckpointsFollow(limit, byteLimit, ops[..n]);
      InvAlways(limit, byteLimit, ops[..n]);
      if NeverLeads(limit, byteLimit, ops[..n]) {
        StepLeads(Run(limit, byteLimit, ops[..n]), limit, byteLimit, ops[n]);
      }
    }
  }

  /** And it can be: a reset within one generation moves the raw cursor back and leaves the checkpoint where it is. */
  lemma {:induction false} CheckpointMayLead(tab: string, generation: string, at: nat, back: nat, r: Rendered,
      limit: nat, byteLimit: nat)
    requires back < at && r.generation == generation && r.nextOffset == at
    ensures !NeverLeads(limit, byteLimit, [RememberRaw(tab, generation, at, [], true), RememberRendered(tab, r),
                                           RememberRaw(tab, generation, back, [], true)])
  {
    var a, b, c := RememberRaw(tab, generation, at, [], true), RememberRendered(tab, r),
        RememberRaw(tab, generation, back, [], true);
    assert [a, b, c][..2] == [a, b] && [a, b][..1] == [a] && [a][..0] == [];
    var raw := Some(Raw(generation, at, [], 0));
    assert Run(limit, byteLimit, [a]) == [Slot(tab, Entry(raw, None, None))];
    var second := [Slot(tab, Entry(raw, Some(r), None))];
    assert Others([Slot(tab, Entry(raw, None, None))], tab) == [];
    assert Run(limit, byteLimit, [a, b]) == second;
    assert Rewinds(second, c);
    CheckpointsFollow(limit, byteLimit, [a, b, c]);
  }
}
