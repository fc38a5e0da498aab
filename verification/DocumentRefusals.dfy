/**
 * What follows a chunk that the decoder refuses: it is asked for and read again, after what the refused call has
 * left unread or, if it was the last chunk, after nothing.
 */
module DocumentRefusals {
  import opened Common
  import opened DocumentChunks
  import opened DocumentLoading
  import opened DocumentRuns
  import opened DocumentText
  import opened Utf8

  /** What the next call reads before its own bytes, once this chunk has been refused. */
  function Unread(d: Decoder, bytes: seq<byte>, last: bool): seq<byte> { Decode(d, bytes, last).decoder.queue }

  lemma {:induction false} StuckIsSuffix(s: State, bytes: seq<byte>)
    requires Scanning(s, bytes).Stuck?
    ensures var rest := Scanning(s, bytes).rest; |rest| <= |bytes| && rest == bytes[|bytes| - |rest|..]
    decreases bytes
  {
    match Take(s, bytes[0])
    case Point(c) => StuckIsSuffix(IDLE, bytes[1..]);
    case More(t) => StuckIsSuffix(t, bytes[1..]);
    case Wrong(_) =>
  }

  /** After a refusal the decoder is at the start of a character, with what was not read still queued, or fresh. */
  lemma {:induction false} RefusalLeaves(d: Decoder, bytes: seq<byte>, last: bool)
    requires Decode(d, bytes, last).text.None?
    ensures
      var left, all := Decode(d, bytes, last).decoder, d.queue + bytes;
      if last then left == FRESH
      else left.state == IDLE && |left.queue| <= |all| && left.queue == all[|all| - |left.queue|..]
  {
    if Scanning(d.state, d.queue + bytes).Stuck? { StuckIsSuffix(d.state, d.queue + bytes); }
  }

  /** The reader has loaded again after a refusal. */
  function Asked(w: World, attempt: nat, bytes: seq<byte>): World {
    Apply(Apply(w, Answers(attempt, Bytes(bytes))), UserLoads(true))
  }

  /** Nothing of a refused chunk is shown, and the reader's next load asks for the same chunk again. */
  lemma {:induction false} RefusedChunkIsFedAgain(env: Env, w: World, attempt: nat, bytes: seq<byte>)
    requires Inv(env, w) && attempt in w.requests && w.l.active && Strikes(w, w.requests[attempt], Bytes(bytes))
    ensures
      var asked := Asked(w, attempt, bytes);
      && asked.l.attempt in asked.requests && Feeds(asked, asked.requests[asked.l.attempt], Bytes(bytes))
      && asked.requests[asked.l.attempt].captured.source.Some?
      && SameContent(asked.requests[asked.l.attempt].captured, w.l.view) && SameContent(asked.l.view, w.l.view)
      && asked.l.decoder == Decode(w.l.decoder, bytes, Completes(w.requests[attempt], bytes)).decoder
  {
    assert RequestOk(w.l, attempt, w.requests[attempt]);
  }

  /** The world once the same bytes have come again. */
  function Again(w: World, attempt: nat, bytes: seq<byte>): World {
    Apply(Asked(w, attempt, bytes), Answers(Asked(w, attempt, bytes).l.attempt, Bytes(bytes)))
  }

  /**
   * Reading a refused chunk again shows no error exactly if it reads after what was left unread; the text put out is
   * then that of both, while the chunk counts once.
   */
  lemma {:induction false} RefusedChunkIsReadAgain(env: Env, w: World, attempt: nat, bytes: seq<byte>)
    requires Inv(env, w) && attempt in w.requests && w.l.active && Strikes(w, w.requests[attempt], Bytes(bytes))
    ensures
      var last := Completes(w.requests[attempt], bytes);
      var r := Scanning(IDLE, Unread(w.l.decoder, bytes, last) + bytes);
      var v, x := w.l.view, Again(w, attempt, bytes).l.view;
      && (x.error.None? <==> r.Scanned? && (last ==> r.state == IDLE))
      && (x.error.None? ==>
            && x.segments == v.segments + [Unmarked(!last && w.l.decoder.markSeen, r.text)]
            && x.loaded == v.loaded + |bytes| && x.next == v.next + 1 && x.complete == last && x.status == Open)
      && (x.error.Some? ==> x.error == Some(EncodingUnsupported) && x.segments == v.segments && x.next == v.next)
  {
    RefusedChunkIsFedAgain(env, w, attempt, bytes);
  }

  // ------------------------------------------------------------------ such a document

  function Fill<T>(x: T, n: nat): (r: seq<T>)
    ensures |r| == n && forall i :: 0 <= i < n ==> r[i] == x
  {
    seq(n, _ => x)
  }

  lemma {:induction false} FillReads(b: byte, n: nat)
    requires b < 0x80
    ensures Scanning(IDLE, Fill(b, n)) == Scanned(Fill(b, n), IDLE)
  {
    if n > 0 {
      FillReads(b, n - 1);
      assert Fill(b, n)[1..] == Fill(b, n - 1);
      assert [b] + Fill(b, n - 1) == Fill(b, n);
    }
  }

  const SMALL: byte := 0x61
  const LARGE: byte := 0x41

  /** A character begun and not finished at the end of the first chunk. */
  const FIRST := Fill(SMALL, FIRST_CHUNK - 1) + [0xE4]
  const SECOND := Fill(LARGE, CHUNK)
  const THIRD := [LARGE]
  const BROKEN := FIRST + SECOND + THIRD

  const NAME := "AAAAAAAAAAAAAAAAAAAAAA"
  const META := Meta(NAME, NAME, TextKind, |BROKEN|, NAME, true)
  const SERVER := Env((id, revision) => BROKEN)
  const SOURCE := Source(NAME, None)

  lemma BrokenChunks()
    ensures |BROKEN| == FIRST_CHUNK + CHUNK + 1 && ChunkCount(|BROKEN|) == 3
    ensures Chunk(BROKEN, 0) == FIRST && Chunk(BROKEN, 1) == SECOND && Chunk(BROKEN, 2) == THIRD
  {
  }

  const CUT: State := Variables(4, 2, 0, 0x80, 0xBF)

  /** A letter cannot go on with that character, and is put back. */
  lemma CutOff(rest: seq<byte>)
    requires rest != [] && rest[0] == LARGE
    ensures Scanning(IDLE, [0xE4]) == Scanned([], CUT)
    ensures Scanning(CUT, rest) == Stuck(rest) && Scanning(IDLE, [0xE4] + rest) == Stuck(rest)
  {
    assert [0xE4][1..] == [];
    ScanningMore(IDLE, 0xE4, rest);
  }

  lemma BrokenIsNotUtf8()
    ensures !IsUtf8(BROKEN)
  {
    FillReads(SMALL, FIRST_CHUNK - 1);
    var halves := [0xE4] + (SECOND + THIRD);
    assert BROKEN == Fill(SMALL, FIRST_CHUNK - 1) + halves;
    ScanningJoins(IDLE, Fill(SMALL, FIRST_CHUNK - 1), halves);
    CutOff(SECOND + THIRD);
    if IsUtf8(BROKEN) {
      var text :| BROKEN == EncodeAll(text);
      ReadsItsEncoding(BROKEN, text);
    }
  }

  /** Nothing is on its way and the next chunk can be loaded. */
  ghost predicate Ready(w: World) {
    && w.requests == map[] && w.l.active && !w.l.inFlight && AttemptsOk(w.l)
    && w.l.view.doc == Some(META) && w.l.view.source.Some? && !w.l.view.complete
    && w.l.view.next < 3 == ChunkCount(|BROKEN|) && w.l.view.loaded == Before(|BROKEN|, w.l.view.next)
  }

  function Loads(w: World, bytes: seq<byte>): seq<Step> { [UserLoads(true), Answers(w.l.attempt + 1, Bytes(bytes))] }

  /** The next chunk asked for and arrived. */
  function Loaded(w: World, bytes: seq<byte>): World {
    Apply(Apply(w, UserLoads(true)), Answers(w.l.attempt + 1, Bytes(bytes)))
  }

  function Asking(w: World): Request { ChunkRequest(w.l.attempt + 1, w.l.view.epoch, w.l.view) }

  lemma AskedIs(w: World)
    requires Ready(w)
    ensures
      var a, r := Apply(w, UserLoads(true)), Asking(w);
      && a.requests == map[w.l.attempt + 1 := r] && IsCurrent(a.l, r)
      && a.l == w.l.(inFlight := true, attempt := r.attempt, controller := Some(r.attempt),
                     view := w.l.view.(status := Loading, error := None))
  {
  }

  lemma LoadedIsShown(w: World, bytes: seq<byte>)
    requires Ready(w) && Expected(Asking(w), bytes)
    ensures
      var l := w.l.(attempt := w.l.attempt + 1, controller := None,
                    view := w.l.view.(status := Loading, error := None));
      Loaded(w, bytes).l == Shown(l, Asking(w), bytes) && Loaded(w, bytes).requests == map[]
  {
    AskedIs(w);
  }

  lemma BrokenRange(n: nat)
    requires n < 3
    ensures ChunkCount(|BROKEN|) == 3 && ChunkRange(|BROKEN|, n).value.length == |Chunk(BROKEN, n)|
    ensures Before(|BROKEN|, n) + |Chunk(BROKEN, n)| == Before(|BROKEN|, n + 1)
    ensures Before(|BROKEN|, n + 1) >= |BROKEN| <==> n == 2
  {
    BrokenChunks();
    RangeInside(|BROKEN|, n);
  }

  /** One more load, of the decoder's and of the view's. */
  ghost predicate Decodes(l: Loader, l': Loader) {
    var n := l.view.next;
    n < ChunkCount(|BROKEN|) &&
    var d := Decode(l.decoder, Chunk(BROKEN, n), n == 2);
    && l'.decoder == d.decoder
    && if d.text.None? then l'.view == l.view.(status := Failed, error := Some(EncodingUnsupported))
       else l'.view == l.view.(segments := l.view.segments + [d.text.value], status := Open, error := None,
                               loaded := Before(|BROKEN|, n + 1), next := n + 1, complete := n == 2)
  }

  lemma {:induction false} LoadedIs(w: World)
    requires Ready(w)
    ensures
      var v := Loaded(w, Chunk(BROKEN, w.l.view.next));
      Decodes(w.l, v.l) && (v.l.view.next < 3 ==> Ready(v))
  {
    BrokenRange(w.l.view.next);
    LoadedIsShown(w, Chunk(BROKEN, w.l.view.next));
  }

  lemma {:induction false} LoadsAre(steps: seq<Step>)
    requires Fair(SERVER, steps) && Ready(Run(steps))
    ensures
      var bytes := Chunk(BROKEN, Run(steps).l.view.next);
      var longer := steps + Loads(Run(steps), bytes);
      Fair(SERVER, longer) && Run(longer) == Loaded(Run(steps), bytes)
  {
    var w, bytes := Run(steps), Chunk(BROKEN, Run(steps).l.view.next);
    AskedIs(w);
    BrokenRange(w.l.view.next);
    FairExtends(SERVER, steps, UserLoads(true));
    FairExtends(SERVER, steps + [UserLoads(true)], Answers(w.l.attempt + 1, Bytes(bytes)));
    assert steps + [UserLoads(true)] + [Answers(w.l.attempt + 1, Bytes(bytes))] == steps + Loads(w, bytes);
  }

  const OPENED := [UserOpens(SOURCE), Answers(2, Opened(META))]

  lemma OpenedIsReady()
    ensures Fair(SERVER, OPENED) && Ready(Run(OPENED))
    ensures var v := Run(OPENED).l.view; v.next == 0 && v.segments == [] && v.loaded == 0
    ensures Run(OPENED).l.attempt == 2 && Run(OPENED).l.decoder == FRESH
  {
    BrokenChunks();
    FairExtends(SERVER, [], UserOpens(SOURCE));
    FairExtends(SERVER, [] + [UserOpens(SOURCE)], Answers(2, Opened(META)));
    assert [] + [UserOpens(SOURCE)] + [Answers(2, Opened(META))] == OPENED;
  }

  lemma FirstCall()
    ensures Decode(FRESH, FIRST, false) == Decoded(Decoder(CUT, [], true), Some(Fill(SMALL, FIRST_CHUNK - 1)))
  {
    var text := Fill(SMALL, FIRST_CHUNK - 1);
    FillReads(SMALL, FIRST_CHUNK - 1);
    CutOff([LARGE]);
    ScanningJoins(IDLE, text, [0xE4]);
    assert [] + FIRST == FIRST && text + [] == text;
  }

  lemma SecondCall()
    ensures Decode(Decoder(CUT, [], true), SECOND, false) == Decoded(Decoder(IDLE, SECOND, true), None)
  {
    CutOff(SECOND);
    assert [] + SECOND == SECOND;
  }

  lemma SecondCallAgain()
    ensures Decode(Decoder(IDLE, SECOND, true), SECOND, false)
            == Decoded(Decoder(IDLE, [], true), Some(Fill(LARGE, 2 * CHUNK)))
  {
    FillReads(LARGE, 2 * CHUNK);
    assert SECOND + SECOND == Fill(LARGE, 2 * CHUNK);
  }

  lemma ThirdCall()
    ensures Decode(Decoder(IDLE, [], true), THIRD, true) == Decoded(FRESH, Some([LARGE]))
  {
    FillReads(LARGE, 1);
    assert [] + THIRD == THIRD == Fill(LARGE, 1);
  }

  /** The reader loads once more, and the server answers. */
  function Longer(steps: seq<Step>): seq<Step> {
    var n := Run(steps).l.view.next;
    if n < ChunkCount(|BROKEN|) then steps + Loads(Run(steps), Chunk(BROKEN, n)) else steps
  }

  lemma {:induction false} LongerDecodes(steps: seq<Step>)
    requires Fair(SERVER, steps) && Ready(Run(steps))
    ensures Fair(SERVER, Longer(steps)) && Decodes(Run(steps).l, Run(Longer(steps)).l)
    ensures Run(Longer(steps)).l.view.next < 3 ==> Ready(Run(Longer(steps)))
  {
    LoadsAre(steps);
    LoadedIs(Run(steps));
  }

  /** After two loads the first chunk is shown and the second has been refused. */
  lemma {:induction false} RefusedOnce(steps: seq<Step>)
    requires Fair(SERVER, steps) && Ready(Run(steps)) && Run(steps).l.decoder == FRESH
    requires Run(steps).l.view.next == 0 && Run(steps).l.view.segments == []
    ensures
      var refused := Longer(Longer(steps));
      var l := Run(refused).l;
      && Fair(SERVER, refused) && Ready(Run(refused)) && l.decoder == Decoder(IDLE, SECOND, true)
      && l.view.error == Some(EncodingUnsupported)
      && l.view.next == 1 && l.view.segments == [Fill(SMALL, FIRST_CHUNK - 1)]
  {
    BrokenChunks();
    FirstCall();
    SecondCall();
    LongerDecodes(steps);
    LongerDecodes(Longer(steps));
  }

  lemma {:induction false} ShownAfterAll(steps: seq<Step>)
    requires Fair(SERVER, steps) && Ready(Run(steps)) && Run(steps).l.decoder == Decoder(IDLE, SECOND, true)
    requires Run(steps).l.view.next == 1 && Run(steps).l.view.segments == [Fill(SMALL, FIRST_CHUNK - 1)]
    ensures
      var shown := Longer(Longer(steps));
      var v := Run(shown).l.view;
      && Fair(SERVER, shown) && v.status == Open && v.error.None? && v.complete && v.loaded == |BROKEN|
      && v.segments == [Fill(SMALL, FIRST_CHUNK - 1), Fill(LARGE, 2 * CHUNK), [LARGE]]
  {
    BrokenChunks();
    SecondCallAgain();
    ThirdCall();
    LongerDecodes(steps);
    LongerDecodes(Longer(steps));
  }

  /**
   * A document that is not UTF-8 is shown to its end, without an error and with one chunk twice, to a reader who
   * loads again after the error.
   */
  lemma {:induction false} ShownTwice()
    ensures !IsUtf8(BROKEN)
    ensures
      var refused := Longer(Longer(OPENED));
      var shown := Longer(Longer(refused));
      var v := Run(shown).l.view;
      && Fair(SERVER, shown) && Run(refused).l.view.error == Some(EncodingUnsupported)
      && v.status == Open && v.error.None? && v.complete && v.loaded == |BROKEN|
      && v.segments == [Fill(SMALL, FIRST_CHUNK - 1), Fill(LARGE, 2 * CHUNK), [LARGE]]
  {
    BrokenIsNotUtf8();
    OpenedIsReady();
    RefusedOnce(OPENED);
    ShownAfterAll(Longer(Longer(OPENED)));
  }
}
