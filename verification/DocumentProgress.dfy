/** What each reply brings about, and that loading gets to the end of a document that reads. */
module DocumentProgress {
  import opened Common
  import opened DocumentChunks
  import opened DocumentLoading
  import opened DocumentRuns
  import opened DocumentText
  import opened Utf8

  // ------------------------------------------------------------------ chunks

  /** The first chunk holds 8 KiB, every other 16 KiB, and only the last one less. */
  lemma {:induction false} ChunkSizes(size: nat, index: nat)
    requires index < ChunkCount(size)
    ensures
      var r := ChunkRange(size, index).value;
      var full := if index == 0 then 8192 else 16384;
      && r.start == (if index == 0 then 0 else 8192 + 16384 * (index - 1))
      && 1 <= r.length <= full && (!r.last ==> r.length == full) && (r.last <==> index + 1 == ChunkCount(size))
  {
    RangeInside(size, index);
  }

  // ------------------------------------------------------------------ opening

  predicate IdLike(s: string) {
    |s| == 22 && forall c :: c in s ==> c == '-' || c == '_' || '0' <= c <= '9' || 'a' <= c <= 'z' || 'A' <= c <= 'Z'
  }

  /** A document that can be shown: ids as the server makes them, text or Markdown in UTF-8, of at most 4 MiB, named. */
  predicate Presentable(m: Meta) {
    && IdLike(m.docId) && IdLike(m.revision) && (m.kind == TextKind || m.kind == MarkdownKind) && m.utf8
    && 0 <= m.size <= 4194304 && m.name != "" && |m.name| <= 512
  }

  lemma IdLikeIs(s: string)
    ensures ValidId(s) <==> IdLike(s)
  {
    if IdLike(s) {
      forall i | 0 <= i < |s| ensures IdChar(s[i]) { assert s[i] in s; }
    }
  }

  lemma PresentableIs(m: Meta)
    ensures ValidMeta(m) <==> Presentable(m)
  {
    IdLikeIs(m.docId);
    IdLikeIs(m.revision);
  }

  /** The link came from the document that was open, and that document is what the server does not know any more. */
  predicate ParentGone(r: Request, reply: Reply)
    requires r.OpenRequest?
  {
    && reply == Refused(ParentUnknown) && r.depth < 3 && r.from.Some? && r.fromDocId.Some? && r.fromDocId.value != ""
    && r.source.parent == r.fromDocId
  }

  function Removed(w: World, attempt: nat): map<nat, Request> {
    map a | a in w.requests && a != attempt :: w.requests[a]
  }

  /** A document that can be shown is open, with nothing of it shown yet; the one that was open is not. */
  lemma OpenedOutcome(w: World, attempt: nat, meta: Meta)
    requires attempt in w.requests && w.requests[attempt].OpenRequest? && IsCurrent(w.l, w.requests[attempt])
    ensures
      var v := Apply(w, Answers(attempt, Opened(meta)));
      && v.requests == Removed(w, attempt) && v.waiters == w.waiters && v.l.active == w.l.active
      && v.unwinding == w.unwinding && v.l.controller.None?
      && v.l.inFlight == w.l.inFlight
      && if Presentable(meta)
         then v.l.view == View(Open, true, w.l.view.epoch, Some(w.requests[attempt].source), Some(meta), [], 0, 0,
                               meta.size == 0, None)
         else v.l.view == w.l.view.(status := Failed, error := Some(ChunkFailed))
  {
    PresentableIs(meta);
  }

  /**
   * An answer that is not a document: the containing document is opened again, with the link waiting for it, or the
   * opening has failed.
   */
  lemma RefusedOutcome(w: World, attempt: nat, code: Code)
    requires AttemptsOk(w.l) && attempt in w.requests && w.requests[attempt].OpenRequest?
        && IsCurrent(w.l, w.requests[attempt])
    ensures
      var r, v := w.requests[attempt], Apply(w, Answers(attempt, Refused(code)));
      if ParentGone(r, Refused(code))
      then
        var again := w.l.attempt + 2;
        && v.l.view == View(Opening, w.l.view.reserved, w.l.view.epoch + 1, r.from, None, [], 0, 0, false, None)
        && v.requests == Removed(w, attempt)[again := OpenRequest(again, w.l.view.epoch + 1, r.from.value,
                                                                  w.l.view.source, DocId(w.l.view), r.depth + 1)]
        && IsCurrent(v.l, v.requests[again]) && !v.l.reopened
        && v.waiters == w.waiters[again := Waiter(r.source, r.depth)]
      else
        && v.l.view == w.l.view.(status := Failed, error := Some(code))
        && v.requests == Removed(w, attempt) && v.waiters == w.waiters
  {
  }

  /** The abort error, and an answer to an opening that is no longer wanted, change nothing at all. */
  lemma UnwantedOpening(w: World, attempt: nat, reply: Reply)
    requires attempt in w.requests && w.requests[attempt].OpenRequest?
    requires !IsCurrent(w.l, w.requests[attempt]) || reply.Cancelled?
    ensures var v := Apply(w, Answers(attempt, reply));
      v.l == w.l && v.requests == Removed(w, attempt) && v.waiters == w.waiters && v.unwinding == w.unwinding
  {
  }

  /** The link that waited is followed from the document that is open by then; if none is, it is forgotten. */
  lemma ResumedOutcome(w: World, waiter: nat)
    requires waiter in w.waiters
    ensures
      var x, v := w.waiters[waiter], Apply(w, Resumes(waiter));
      && v.waiters == w.waiters - {waiter} && v.unwinding == w.unwinding
      && if w.l.view.status == Open && w.l.view.doc.Some?
         then
           var link := x.source.(parent := Some(w.l.view.doc.value.docId));
           && v.l.view.status == Opening && v.l.view.source == Some(link) && v.l.view.doc.None? && !v.l.reopened
           && v.l.attempt in v.requests && v.requests[v.l.attempt].OpenRequest?
           && v.requests[v.l.attempt].source == link && v.requests[v.l.attempt].depth == x.depth + 1
         else v.l == w.l && v.requests == w.requests
  {
  }

  // ------------------------------------------------------------------ the reader's actions

  /** Opening: everything shown goes, and one request is out that will be obeyed. */
  lemma UserOpensOutcome(w: World, source: Source)
    requires AttemptsOk(w.l)
    ensures
      var v := Apply(w, UserOpens(source));
      && v.l.view == View(Opening, w.l.view.reserved, w.l.view.epoch + 1, Some(source), None, [], 0, 0, false, None)
      && !v.l.inFlight && v.l.active == w.l.active && v.l.decoder == FRESH && v.past == UNTOUCHED
      && v.unwinding == w.unwinding && v.waiters == w.waiters && v.l.controller == Some(v.l.attempt)
      && !v.l.reopened && (w.l.controller.Some? ==> w.l.controller.value in v.l.aborted)
      && v.l.attempt in v.requests && IsCurrent(v.l, v.requests[v.l.attempt])
      && v.requests == w.requests[v.l.attempt := OpenRequest(v.l.attempt, v.l.view.epoch, source, w.l.view.source,
                                                             DocId(w.l.view), 0)]
  {
  }

  /**
   * There is more of an open document, nothing is being fetched, and it was asked for or little of it has been loaded
   * so far.
   */
  predicate MayLoad(l: Loader, manual: bool) {
    && l.active && !l.inFlight && l.view.doc.Some? && l.view.source.Some? && !l.view.complete
    && (l.view.loaded >= 524288 ==> manual)
  }

  /** Loading asks for the next chunk exactly if it may; otherwise nothing happens. */
  lemma UserLoadsOutcome(w: World, manual: bool)
    requires AttemptsOk(w.l)
    ensures
      var v := Apply(w, UserLoads(manual));
      if MayLoad(w.l, manual)
      then
        && v.l.view == w.l.view.(status := Loading, error := None) && v.l.inFlight
        && v.l.attempt == w.l.attempt + 1 && v.past == w.past && v.l.decoder == w.l.decoder
        && v.unwinding == w.unwinding && v.waiters == w.waiters && v.l.controller == Some(v.l.attempt)
        && v.requests == w.requests[v.l.attempt := ChunkRequest(v.l.attempt, w.l.view.epoch, w.l.view)]
        && IsCurrent(v.l, v.requests[v.l.attempt])
      else v == w
  {
  }

  /** Trying again opens what was never opened, and otherwise loads. */
  lemma UserRetriesOutcome(w: World)
    ensures
      var step := if w.l.view.source.Some? && w.l.view.doc.None? then UserOpens(w.l.view.source.value)
                  else UserLoads(true);
      Apply(w, UserRetries) == Apply(w, step)
  {
  }

  /** Away from the viewer nothing is fetched: what was asked for will not be obeyed, and loading is over. */
  lemma UserLeavesOutcome(w: World)
    requires RequestsOk(w.l, w.requests)
    ensures
      var v := Apply(w, UserActivates(false));
      && !v.l.active && !v.l.inFlight && v.requests == w.requests && v.l.controller.None?
      && (w.l.controller.Some? ==> w.l.controller.value in v.l.aborted)
      && v.l.view == w.l.view.(status := if w.l.view.status == Loading then Open else w.l.view.status)
      && (forall a :: a in v.requests ==> !IsCurrent(v.l, v.requests[a]))
      && Apply(w, UserActivates(true)).l == w.l.(active := true)
  {
    forall a | a in w.requests ensures w.requests[a].attempt <= w.l.attempt { assert RequestOk(w.l, a, w.requests[a]); }
  }

  /** Closing shows nothing, and nothing that was asked for will be obeyed. */
  lemma UserClosesOutcome(w: World)
    requires RequestsOk(w.l, w.requests)
    ensures
      var v := Apply(w, UserCloses);
      && v.l.view == View(Closed, false, w.l.view.epoch + 1, None, None, [], 0, 0, false, None)
      && !v.l.inFlight && v.l.active == w.l.active && v.l.decoder == FRESH && v.past == UNTOUCHED
      && v.requests == w.requests && forall a :: a in v.requests ==> !IsCurrent(v.l, v.requests[a])
  {
    forall a | a in w.requests ensures w.requests[a].epoch <= w.l.view.epoch {
      assert RequestOk(w.l, a, w.requests[a]);
    }
  }

  // ------------------------------------------------------------------ chunks coming in

  /** The request for the next chunk of the document that is open, which will be obeyed. */
  ghost predicate Fetching(w: World, attempt: nat) {
    attempt in w.requests && w.requests[attempt].ChunkRequest? && IsCurrent(w.l, w.requests[attempt])
  }

  lemma FetchingNow(env: Env, w: World, attempt: nat)
    requires Inv(env, w) && Fetching(w, attempt)
    ensures
      var r := w.requests[attempt];
      && w.l.view.doc.Some? && w.l.view.source.Some? && SameContent(r.captured, w.l.view)
      && w.l.view.next < ChunkCount(|Doc(env, w.l.view.doc.value)|)
  {
    assert RequestOk(w.l, attempt, w.requests[attempt]);
    ChunksPartition(Doc(env, w.l.view.doc.value), w.l.view.next);
  }

  /** The next chunk, with or without its text: what the view is with it. */
  function WithChunk(v: View, doc: seq<byte>, text: seq<Scalar>): View
    requires v.next < ChunkCount(|doc|)
  {
    v.(segments := v.segments + [text], next := v.next + 1, loaded := Before(|doc|, v.next + 1),
       complete := v.next + 1 == ChunkCount(|doc|), status := Open, error := None)
  }

  /** A chunk of the right length is given to the decoder and shown, or refused. */
  lemma AnsweredIs(w: World, attempt: nat, bytes: seq<byte>)
    requires Fetching(w, attempt)
    requires var r := w.requests[attempt]; r.captured.doc.Some? && r.captured.source.Some? && Expected(r, bytes)
    ensures
      var r, v := w.requests[attempt], Apply(w, Answers(attempt, Bytes(bytes)));
      && v.l == Shown(w.l.(inFlight := false, controller := None), r, bytes) && v.requests == Removed(w, attempt)
      && (Decode(w.l.decoder, bytes, Completes(r, bytes)).text.Some? ==> v.past.refused == w.past.refused)
  {
  }

  /** What is shown of the next chunk. */
  lemma {:induction false} ShownChunk(env: Env, l: Loader, r: Request, bytes: seq<byte>)
    requires ViewOk(env, l.view) && r.ChunkRequest? && r.captured.doc.Some? && SameContent(r.captured, l.view)
    requires Expected(r, bytes) && HonestReply(env, r, Bytes(bytes))
    ensures l.view.doc.Some? && l.view.next < ChunkCount(|Doc(env, l.view.doc.value)|)
    ensures
      var doc, n := Doc(env, l.view.doc.value), l.view.next;
      var d, v := Decode(l.decoder, bytes, n + 1 == ChunkCount(|doc|)), Shown(l, r, bytes);
      && (Completes(r, bytes) <==> n + 1 == ChunkCount(|doc|))
      && v == l.(decoder := v.decoder, view := v.view)
      && v.view == (if d.text.Some? then WithChunk(l.view, doc, d.text.value)
                    else l.view.(status := Failed, error := Some(EncodingUnsupported)))
  {
    NextIsThere(env, l, r, bytes);
  }

  lemma {:induction false} AnsweredChunk(env: Env, w: World, attempt: nat, bytes: seq<byte>)
    requires Inv(env, w) && Fetching(w, attempt) && HonestReply(env, w.requests[attempt], Bytes(bytes))
    requires w.requests[attempt].captured.doc.Some? && Expected(w.requests[attempt], bytes)
    ensures
      && w.l.view.doc.Some? && w.l.view.next < ChunkCount(|Doc(env, w.l.view.doc.value)|)
      && var doc, n := Doc(env, w.l.view.doc.value), w.l.view.next;
         var d := Decode(w.l.decoder, bytes, n + 1 == ChunkCount(|doc|));
         var v := Apply(w, Answers(attempt, Bytes(bytes)));
         && !v.l.inFlight && v.l.controller.None? && v.l.active == w.l.active && v.requests == Removed(w, attempt)
         && v.l.view == (if d.text.Some? then WithChunk(w.l.view, doc, d.text.value)
                         else w.l.view.(status := Failed, error := Some(EncodingUnsupported)))
         && (d.text.Some? ==> v.past.refused == w.past.refused)
  {
    FetchingNow(env, w, attempt);
    assert RequestOk(w.l, attempt, w.requests[attempt]);
    AnsweredIs(w, attempt, bytes);
    ShownChunk(env, w.l.(inFlight := false, controller := None), w.requests[attempt], bytes);
  }

  /**
   * As long as nothing of the document has been refused, its next chunk is shown, after what was shown before,
   * exactly if the chunks up to it read; otherwise the encoding is at fault. Either way nothing is in flight then.
   */
  lemma {:induction false} ChunkOutcome(env: Env, w: World, attempt: nat)
    requires Inv(env, w) && Fetching(w, attempt) && w.past.refused == {}
    ensures
      && w.l.view.doc.Some? && w.l.view.next < ChunkCount(|Doc(env, w.l.view.doc.value)|)
      && var doc := Doc(env, w.l.view.doc.value);
         var bytes := Chunk(doc, w.l.view.next);
         var v := Apply(w, Answers(attempt, Bytes(bytes)));
         && HonestReply(env, w.requests[attempt], Bytes(bytes)) && !v.l.inFlight && v.l.active == w.l.active
         && v.requests == Removed(w, attempt)
         && if Reads(doc, w.l.view.next + 1)
            then
              && v.past.refused == {} && v.l.view.segments != []
              && var text := v.l.view.segments[|v.l.view.segments| - 1];
                 v.l.view == WithChunk(w.l.view, doc, text)
                 && TextOf(doc, w.l.view.next + 1) == Flat(w.l.view.segments) + text
            else v.l.view == w.l.view.(status := Failed, error := Some(EncodingUnsupported))
  {
    FetchingNow(env, w, attempt);
    var r, u := w.requests[attempt], w.(requests := w.requests - {attempt});
    var doc, n := Doc(env, w.l.view.doc.value), w.l.view.next;
    RangeInside(|doc|, n);
    assert Expected(r, Chunk(doc, n));
    assert RequestOk(w.l, attempt, r);
    NextIsThere(env, w.l, r, Chunk(doc, n));
    NextCall(doc, n);
    AnsweredChunk(env, w, attempt, Chunk(doc, n));
  }

  /** A chunk of the wrong length, or an error: a failure, or the document is opened once more, if its id is unknown. */
  lemma {:induction false} ChunkFailure(env: Env, w: World, attempt: nat, reply: Reply)
    requires Inv(env, w) && Fetching(w, attempt) && (reply.Bytes? || reply.Refused?)
    requires w.l.view.doc.Some? && w.l.view.next < ChunkCount(|Doc(env, w.l.view.doc.value)|)
    requires reply.Bytes? ==> |reply.bytes| != |Chunk(Doc(env, w.l.view.doc.value), w.l.view.next)|
    ensures
      var v := Apply(w, Answers(attempt, reply));
      if reply == Refused(IdUnknown) && !w.l.reopened
      then
        && v.l.view == View(Opening, w.l.view.reserved, w.l.view.epoch + 1, w.l.view.source, None, [], 0, 0, false,
                            None)
        && v.unwinding == w.unwinding + 1
        && v.l.reopened && !v.l.inFlight && v.l.attempt in v.requests && IsCurrent(v.l, v.requests[v.l.attempt])
        && v.requests[v.l.attempt].OpenRequest? && Some(v.requests[v.l.attempt].source) == w.l.view.source
      else
        && !v.l.inFlight && v.requests == Removed(w, attempt) && v.unwinding == w.unwinding && v.l.controller.None?
        && v.l.view == w.l.view.(status := Failed, error := Some(if reply.Refused? then reply.code else ChunkFailed))
  {
    FetchingNow(env, w, attempt);
    assert RequestOk(w.l, attempt, w.requests[attempt]);
    RangeInside(|Doc(env, w.l.view.doc.value)|, w.l.view.next);
  }

  /** The abort error ends the fetching and shows nothing. */
  lemma ChunkCancelled(env: Env, w: World, attempt: nat)
    requires Inv(env, w) && Fetching(w, attempt)
    ensures
      var v := Apply(w, Answers(attempt, Cancelled));
      && v.l == w.l.(inFlight := false, controller := None) && v.requests == Removed(w, attempt) && v.past == w.past
      && v.waiters == w.waiters && v.unwinding == w.unwinding
  {
    FetchingNow(env, w, attempt);
  }

  // ------------------------------------------------------------------ to the end

  /** A document is open, of which nothing has been refused, and more of it may be loaded. */
  ghost predicate Ready(env: Env, w: World) {
    Inv(env, w) && w.l.view.doc.Some? && w.l.active && !w.l.inFlight && w.past.refused == {}
  }

  /** The reader asks for more, and the server answers with the next chunk. */
  function LoadOne(env: Env, w: World): World
    requires w.l.view.doc.Some? && w.l.view.next < ChunkCount(|Doc(env, w.l.view.doc.value)|)
  {
    var a := Apply(w, UserLoads(true));
    Apply(a, Answers(a.l.attempt, Bytes(Chunk(Doc(env, w.l.view.doc.value), w.l.view.next))))
  }

  lemma {:induction false} OneLoads(env: Env, w: World)
    requires Ready(env, w) && w.l.view.next < ChunkCount(|Doc(env, w.l.view.doc.value)|)
    requires Reads(Doc(env, w.l.view.doc.value), w.l.view.next + 1)
    ensures
      var v := LoadOne(env, w);
      && Ready(env, v) && v.l.view.doc == w.l.view.doc && v.l.view.next == w.l.view.next + 1 && v.l.view.status == Open
        && v.l.view.source == w.l.view.source
  {
    var doc, n := Doc(env, w.l.view.doc.value), w.l.view.next;
    ChunksPartition(doc, n);
    UserLoadsOutcome(w, true);
    var a := Apply(w, UserLoads(true));
    StepInv(env, w, UserLoads(true));
    ChunkOutcome(env, a, a.l.attempt);
    StepInv(env, a, Answers(a.l.attempt, Bytes(Chunk(doc, n))));
  }

  function LoadMore(env: Env, w: World, n: nat): World
    requires w.l.view.doc.Some?
  {
    if n == 0 then w
    else
      var u := LoadMore(env, w, n - 1);
      if u.l.view.doc.Some? && u.l.view.next < ChunkCount(|Doc(env, u.l.view.doc.value)|) then LoadOne(env, u) else u
  }

  /** What is shown of a document of which nothing has been refused. */
  lemma {:induction false} ReadyShows(env: Env, w: World)
    requires Ready(env, w)
    ensures
      var doc, v := Doc(env, w.l.view.doc.value), w.l.view;
      && v.next <= ChunkCount(|doc|) && (v.complete <==> v.next == ChunkCount(|doc|))
      && Reads(doc, v.next) && Flat(v.segments) == TextOf(doc, v.next)
  {
    ChunksPartition(Doc(env, w.l.view.doc.value), w.l.view.next);
  }

  /** `v` has come from `w` by loading `n` chunks. */
  ghost predicate Further(env: Env, w: World, n: nat, v: World) {
    && Ready(env, v) && v.l.view.doc == w.l.view.doc && v.l.view.next == w.l.view.next + n
    && v.l.view.source == w.l.view.source && (n > 0 ==> v.l.view.status == Open)
  }

  /** One more chunk of a document that reads. */
  lemma {:induction false} MoreLoads(env: Env, w: World)
    requires Ready(env, w) && IsUtf8(Doc(env, w.l.view.doc.value))
    requires w.l.view.next < ChunkCount(|Doc(env, w.l.view.doc.value)|)
    ensures Further(env, w, 1, LoadOne(env, w))
  {
    var doc := Doc(env, w.l.view.doc.value);
    Utf8Reads(doc);
    ReadsBack(doc, w.l.view.next + 1, ChunkCount(|doc|));
    OneLoads(env, w);
  }

  lemma FurtherNone(env: Env, w: World)
    requires Ready(env, w)
    ensures Further(env, w, 0, w)
  {
  }

  lemma FurtherOn(env: Env, w: World, n: nat, u: World, v: World)
    requires Further(env, w, n, u) && Further(env, u, 1, v)
    ensures Further(env, w, n + 1, v)
  {
  }

  lemma {:induction false} LoadsOneMore(env: Env, w: World, n: nat, u: World, v: World)
    requires n > 0 && w.l.view.doc.Some? && u == LoadMore(env, w, n - 1) && v == LoadMore(env, w, n)
    requires Further(env, w, n - 1, u) && IsUtf8(Doc(env, w.l.view.doc.value))
    requires w.l.view.next + n <= ChunkCount(|Doc(env, w.l.view.doc.value)|)
    ensures Further(env, w, n, v)
  {
    MoreLoads(env, u);
    FurtherOn(env, w, n - 1, u, v);
  }

  /** Loading again and again: a document that reads is loaded further with every chunk, as long as there is one. */
  lemma {:induction false} LoadsOn(env: Env, w: World, n: nat, v: World)
    requires Ready(env, w) && IsUtf8(Doc(env, w.l.view.doc.value)) && v == LoadMore(env, w, n)
    requires w.l.view.next + n <= ChunkCount(|Doc(env, w.l.view.doc.value)|)
    ensures Further(env, w, n, v)
  {
    if n == 0 {
      FurtherNone(env, w);
    } else {
      LoadsOn(env, w, n - 1, LoadMore(env, w, n - 1));
      LoadsOneMore(env, w, n, LoadMore(env, w, n - 1), v);
    }
  }

  /** So all of a document that reads is shown once its last chunk is loaded: it is the encoding of what is shown. */
  lemma {:induction false} LoadsToTheEnd(env: Env, w: World)
    requires Ready(env, w) && IsUtf8(Doc(env, w.l.view.doc.value))
    ensures w.l.view.next <= ChunkCount(|Doc(env, w.l.view.doc.value)|)
    ensures
      var doc := Doc(env, w.l.view.doc.value);
      var n := ChunkCount(|doc|) - w.l.view.next;
      var v := LoadMore(env, w, n).l.view;
      && v.doc == w.l.view.doc && v.source == w.l.view.source && v.complete && (n > 0 ==> v.status == Open)
      && (doc == EncodeAll(Flat(v.segments)) || doc == EncodeAll([BYTE_ORDER_MARK] + Flat(v.segments)))
  {
    ReadyShows(env, w);
    var doc := Doc(env, w.l.view.doc.value);
    var n := ChunkCount(|doc|) - w.l.view.next;
    LoadsOn(env, w, n, LoadMore(env, w, n));
    ReadyShows(env, LoadMore(env, w, n));
    ShownEncodes(doc, Flat(LoadMore(env, w, n).l.view.segments));
  }

  lemma {:induction false} ShownEncodes(doc: seq<byte>, text: seq<Scalar>)
    requires Reads(doc, ChunkCount(|doc|)) && text == TextOf(doc, ChunkCount(|doc|))
    ensures doc == EncodeAll(text) || doc == EncodeAll([BYTE_ORDER_MARK] + text)
  {
    var read := Reading(doc, ChunkCount(|doc|)).text;
    WholeIsEncoded(doc, read);
    if text != read { assert read == [read[0]] + read[1..]; }
  }

  /** The opening is answered with a document that can be shown: it may be loaded. */
  lemma {:induction false} OpenedIsReady(env: Env, w: World, meta: Meta)
    requires Inv(env, w) && w.l.active && !w.l.inFlight && w.past == UNTOUCHED
    requires w.l.attempt in w.requests && IsCurrent(w.l, w.requests[w.l.attempt])
        && w.requests[w.l.attempt].OpenRequest?
    requires Presentable(meta) && meta.size == |Doc(env, meta)|
    ensures
      var u := Apply(w, Answers(w.l.attempt, Opened(meta)));
      && Ready(env, u) && u.l.view.doc == Some(meta) && u.l.view.next == 0
      && u.l.view.source == Some(w.requests[w.l.attempt].source)
  {
    OpenedOutcome(w, w.l.attempt, meta);
    PresentableIs(meta);
    StepInv(env, w, Answers(w.l.attempt, Opened(meta)));
  }

  /** Whatever has happened before: an active viewer is given a source, and the server answers. */
  lemma {:induction false} OpensToReady(env: Env, steps: seq<Step>, source: Source, meta: Meta)
    requires Fair(env, steps) && Run(steps).l.active && Presentable(meta) && meta.size == |Doc(env, meta)|
    ensures
      var w := Apply(Run(steps), UserOpens(source));
      var u := Apply(w, Answers(w.l.attempt, Opened(meta)));
      Ready(env, u) && u.l.view.doc == Some(meta) && u.l.view.next == 0 && u.l.view.source == Some(source)
  {
    InvAlways(env, steps);
    UserOpensOutcome(Run(steps), source);
    StepInv(env, Run(steps), UserOpens(source));
    OpenedIsReady(env, Apply(Run(steps), UserOpens(source)), meta);
  }

  /** It is shown, if it is UTF-8. */
  lemma {:induction false} ReadyIsShown(env: Env, u: World, source: Source, meta: Meta)
    requires Ready(env, u) && u.l.view.doc == Some(meta) && u.l.view.next == 0 && u.l.view.source == Some(source)
    requires IsUtf8(Doc(env, meta))
    ensures
      var v := LoadMore(env, u, ChunkCount(|Doc(env, meta)|)).l.view;
      && v.doc == Some(meta) && v.source == Some(source) && v.complete && (meta.size > 0 ==> v.status == Open)
      && (Doc(env, meta) == EncodeAll(Flat(v.segments))
          || Doc(env, meta) == EncodeAll([BYTE_ORDER_MARK] + Flat(v.segments)))
  {
    LoadsToTheEnd(env, u);
  }

  /**
   * Whatever has happened before: a source is opened while the viewer is active, the server answers with a document
   * that can be shown, and its chunks are asked for one by one. If the document is UTF-8, all of it is shown.
   */
  lemma {:induction false} OpenedIsShown(env: Env, steps: seq<Step>, source: Source, meta: Meta)
    requires Fair(env, steps) && Run(steps).l.active && Presentable(meta) && meta.size == |Doc(env, meta)|
    requires IsUtf8(Doc(env, meta))
    ensures
      var w := Apply(Run(steps), UserOpens(source));
      var u := Apply(w, Answers(w.l.attempt, Opened(meta)));
      && u.l.view.doc.Some?
      && var v := LoadMore(env, u, ChunkCount(|Doc(env, meta)|)).l.view;
         && v.doc == Some(meta) && v.source == Some(source) && v.complete && (meta.size > 0 ==> v.status == Open)
         && (Doc(env, meta) == EncodeAll(Flat(v.segments))
             || Doc(env, meta) == EncodeAll([BYTE_ORDER_MARK] + Flat(v.segments)))
  {
    OpensToReady(env, steps, source, meta);
    var w := Apply(Run(steps), UserOpens(source));
    ReadyIsShown(env, Apply(w, Answers(w.l.attempt, Opened(meta))), source, meta);
  }
}
