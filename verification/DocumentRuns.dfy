/**
 * Every interleaving of the reader's actions, of replies early and late, of resumed openings
 * and of unwinding loads; what text is shown after any of them, and what the decoder has been fed.
 */
module DocumentRuns {
  import opened Common
  import opened DocumentChunks
  import opened DocumentLoading
  import opened DocumentText
  import opened Utf8

  /** What the server holds. */
  datatype Env = Env(content: (string, string) -> seq<byte>)

  function Doc(env: Env, m: Meta): seq<byte> { env.content(m.docId, m.revision) }

  /**
   * What has been of the present document: the chunks that the decoder has refused, and all bytes pushed into it
   * since it was fresh.
   */
  datatype Past = Past(refused: set<nat>, fed: seq<byte>)

  const UNTOUCHED := Past({}, [])

  datatype World = World(l: Loader, requests: map<nat, Request>, waiters: map<nat, Waiter>, unwinding: nat, past: Past)

  datatype Step =
    | UserOpens(source: Source)
    | UserLoads(manual: bool)
    | UserRetries
    | UserActivates(active: bool)
    | UserCloses
    | Answers(attempt: nat, reply: Reply)
    | Resumes(waiter: nat)
    | Unwinds

  const START := World(INITIAL, map[], map[], 0, UNTOUCHED)

  /** The replies of a server that keeps documents: their true sizes, and for the right length the right bytes. */
  predicate HonestReply(env: Env, r: Request, reply: Reply) {
    match reply
    case Opened(meta) => ValidMeta(meta) ==> meta.size == |Doc(env, meta)|
    case Bytes(bytes) =>
      r.ChunkRequest? && r.captured.doc.Some? && Expected(r, bytes) ==>
        r.captured.next < ChunkCount(|Doc(env, r.captured.doc.value)|)
            && bytes == Chunk(Doc(env, r.captured.doc.value), r.captured.next)
    case _ => true
  }

  predicate Allowed(env: Env, w: World, step: Step) {
    step.Answers? && step.attempt in w.requests ==> HonestReply(env, w.requests[step.attempt], step.reply)
  }

  /** This reply is a chunk of the present document. */
  predicate Feeds(w: World, r: Request, reply: Reply) {
    IsCurrent(w.l, r) && r.ChunkRequest? && r.captured.doc.Some? && reply.Bytes? && Expected(r, reply.bytes)
  }

  /** ... and the decoder refuses it. */
  predicate Strikes(w: World, r: Request, reply: Reply) {
    Feeds(w, r, reply) && Decode(w.l.decoder, reply.bytes, Completes(r, reply.bytes)).text.None?
  }

  function Noted(w: World, r: Request, reply: Reply): Past {
    if !Feeds(w, r, reply) then w.past
    else if !Strikes(w, r, reply) then w.past.(fed := w.past.fed + reply.bytes)
    else Past(w.past.refused + {r.captured.next}, if Completes(r, reply.bytes) then [] else w.past.fed + reply.bytes)
  }

  function Settle(w: World, o: Outcome, past: Past): World {
    w.(l := o.loader,
       requests := if o.request.Some? then w.requests[o.request.value.attempt := o.request.value] else w.requests,
       waiters := if o.waiter.Some? && o.request.Some? then w.waiters[o.request.value.attempt := o.waiter.value]
           else w.waiters,
       unwinding := w.unwinding + if o.unwinds then 1 else 0,
       past := if o.loader.view.epoch != w.l.view.epoch then UNTOUCHED else past)
  }

  function Answer(w: World, r: Request, reply: Reply): World {
    match r
    case OpenRequest(_, _, _, _, _, _) => Settle(w, OpenReplied(w.l, r, reply), w.past)
    case ChunkRequest(_, _, captured) =>
      if captured.doc.Some? && captured.source.Some? then Settle(w, ChunkReplied(w.l, r, reply), Noted(w, r, reply))
      else w
  }

  function Apply(w: World, step: Step): World {
    match step
    case UserOpens(source) => Settle(w, StartOpen(w.l, source, false, 0), w.past)
    case UserLoads(manual) => Settle(w, StartLoad(w.l, manual), w.past)
    case UserRetries => Settle(w, Retried(w.l), w.past)
    case UserActivates(active) => Settle(w, Only(Activated(w.l, active)), w.past)
    case UserCloses => Settle(w, Only(ClosedLoader(w.l)), w.past)
    case Answers(attempt, reply) =>
      if attempt !in w.requests then w
      else Answer(w.(requests := w.requests - {attempt}), w.requests[attempt], reply)
    case Resumes(waiter) =>
      if waiter !in w.waiters then w
      else Settle(w.(waiters := w.waiters - {waiter}), Resumed(w.l, w.waiters[waiter]), w.past)
    case Unwinds => if w.unwinding == 0 then w else w.(l := w.l.(inFlight := false), unwinding := w.unwinding - 1)
  }

  function Run(steps: seq<Step>): World {
    if steps == [] then START else Apply(Run(steps[..|steps| - 1]), steps[|steps| - 1])
  }

  predicate Fair(env: Env, steps: seq<Step>) {
    forall k :: 0 <= k < |steps| ==> Allowed(env, Run(steps[..k]), steps[k])
  }

  // ------------------------------------------------------------------ what every run keeps

  /** The view counts chunks 0, 1, ... of its document, once each and in order. */
  ghost predicate ViewOk(env: Env, v: View) {
    |v.segments| == v.next &&
    if v.doc.None? then v.loaded == 0 && v.next == 0 && !v.complete
    else
      var doc := Doc(env, v.doc.value);
      && ValidMeta(v.doc.value) && v.doc.value.size == |doc| && v.source.Some?
      && v.next <= ChunkCount(|doc|) && v.loaded == Before(|doc|, v.next)
      && (v.complete <==> v.loaded == |doc|)
  }

  /**
   * What is shown is the text of the chunks counted as long as they read, and they do exactly if none of them has
   * been refused; once a chunk has been refused, those up to it do not read.
   */
  ghost predicate TextOk(doc: seq<byte>, segments: seq<seq<Scalar>>, next: nat, refused: set<nat>)
    requires next <= ChunkCount(|doc|)
  {
    && (forall k :: k in refused ==> k <= next && k < ChunkCount(|doc|))
    && (Reads(doc, next) <==> forall k :: k in refused ==> k >= next)
    && (Reads(doc, next) ==> Flat(segments) == TextOf(doc, next))
    && (refused != {} && next < ChunkCount(|doc|) ==> !Reads(doc, next + 1))
  }

  /**
   * As long as the decoder has refused nothing it is where the chunks counted leave it, and has been fed
   * those; also if there is only one chunk to refuse. Otherwise it has been fed more, or, once it has refused
   * the last chunk, less.
   */
  ghost predicate DecoderOk(doc: seq<byte>, next: nat, decoder: Decoder, past: Past)
    requires next <= ChunkCount(|doc|) && Before(|doc|, next) <= |doc|
  {
    && (past.refused == {} ==> Reads(doc, next) && decoder == LeftBy(doc, next))
    && if past.refused == {} || ChunkCount(|doc|) <= 1 then past.fed == doc[..Before(|doc|, next)]
       else |past.fed| > Before(|doc|, next) || (|past.fed| < Before(|doc|, next) && next + 1 >= ChunkCount(|doc|))
  }

  ghost predicate FedOk(env: Env, v: View, decoder: Decoder, past: Past) {
    if v.doc.None? then decoder == FRESH && past == UNTOUCHED
    else
      var doc := Doc(env, v.doc.value);
      && v.next <= ChunkCount(|doc|) && Before(|doc|, v.next) <= |doc|
      && TextOk(doc, v.segments, v.next, past.refused) && DecoderOk(doc, v.next, decoder, past)
  }

  predicate SameContent(a: View, b: View) {
    a.doc == b.doc && a.segments == b.segments && a.loaded == b.loaded && a.next == b.next && a.complete == b.complete
        && a.source == b.source
  }

  /** The request that may still be obeyed was issued from what is shown now. */
  ghost predicate RequestOk(l: Loader, attempt: nat, r: Request) {
    && r.attempt == attempt <= l.attempt
    && r.epoch <= l.view.epoch
    && (r.OpenRequest? ==> r.depth <= MAX_REFRESH_DEPTH)
    && (r.ChunkRequest? ==> r.captured.doc.Some? && r.captured.source.Some? && !r.captured.complete)
    && (IsCurrent(l, r) ==> if r.OpenRequest? then l.view.doc.None? else SameContent(r.captured, l.view))
  }

  ghost predicate AttemptsOk(l: Loader) {
    (l.controller.Some? ==> l.controller.value <= l.attempt) && forall a :: a in l.aborted ==> a <= l.attempt
  }

  ghost predicate RequestsOk(l: Loader, requests: map<nat, Request>) {
    forall a :: a in requests ==> RequestOk(l, a, requests[a])
  }

  ghost predicate Inv(env: Env, w: World) {
    && ViewOk(env, w.l.view)
    && FedOk(env, w.l.view, w.l.decoder, w.past)
    && AttemptsOk(w.l)
    && RequestsOk(w.l, w.requests)
    && (forall i :: i in w.waiters ==> w.waiters[i].depth < MAX_REFRESH_DEPTH)
  }

  lemma {:induction false} StartOpenInv(env: Env, w: World, source: Source, reopened: bool, depth: nat,
      waiter: Option<Waiter>, unwinds: bool, past: Past)
    requires Inv(env, w) && depth <= MAX_REFRESH_DEPTH && (waiter.Some? ==> waiter.value.depth < MAX_REFRESH_DEPTH)
    ensures Inv(env, Settle(w, StartOpen(w.l, source, reopened, depth).(waiter := waiter, unwinds := unwinds), past))
  {
  }

  lemma {:induction false} StartLoadInv(env: Env, w: World, manual: bool)
    requires Inv(env, w)
    ensures Inv(env, Settle(w, StartLoad(w.l, manual), w.past))
  {
    if CanLoad(w.l, manual) {
      var l' := StartLoad(w.l, manual).loader;
      assert l'.view == w.l.view.(status := Loading, error := None);
      forall a | a in w.requests ensures RequestOk(l', a, w.requests[a])
          && a != l'.attempt { assert RequestOk(w.l, a, w.requests[a]); }
    }
  }

  /** Nothing but flags and the status differs. */
  predicate Cosmetic(l: Loader, l': Loader) {
    && l'.decoder == l.decoder && l'.attempt == l.attempt && l'.aborted == l.aborted
    && (l'.controller == l.controller || l'.controller.None?)
    && l'.view == l.view.(status := l'.view.status, error := l'.view.error)
  }

  lemma {:induction false} CosmeticInv(env: Env, w: World, l': Loader)
    requires Inv(env, w) && Cosmetic(w.l, l')
    ensures Inv(env, w.(l := l'))
  {
    forall a | a in w.requests ensures RequestOk(l', a, w.requests[a]) { assert RequestOk(w.l, a, w.requests[a]); }
  }

  lemma {:induction false} AbortedInv(env: Env, w: World, l': Loader, past: Past)
    requires Inv(env, w) && l'.attempt > w.l.attempt && l'.view.epoch >= w.l.view.epoch && AttemptsOk(l')
    requires var p := if l'.view.epoch != w.l.view.epoch then UNTOUCHED else past;
      ViewOk(env, l'.view) && FedOk(env, l'.view, l'.decoder, p)
    ensures Inv(env, Settle(w, Only(l'), past))
  {
  }

  lemma {:induction false} RetriedInv(env: Env, w: World)
    requires Inv(env, w)
    ensures Inv(env, Settle(w, Retried(w.l), w.past))
  {
    if w.l.view.doc.None? && w.l.view.source.Some? {
      StartOpenInv(env, w, w.l.view.source.value, false, 0, None, false, w.past);
    }
    else { StartLoadInv(env, w, true); }
  }

  lemma {:induction false} ActivatedInv(env: Env, w: World, active: bool)
    requires Inv(env, w)
    ensures Inv(env, Settle(w, Only(Activated(w.l, active)), w.past))
  {
    if active {
      CosmeticInv(env, w, Activated(w.l, active));
    } else {
      AbortedInv(env, w, Activated(w.l, active), w.past);
    }
  }

  lemma {:induction false} UserInv(env: Env, w: World, step: Step)
    requires Inv(env, w) && !step.Answers? && !step.Resumes? && !step.Unwinds?
    ensures Inv(env, Apply(w, step))
  {
    match step
    case UserOpens(source) => StartOpenInv(env, w, source, false, 0, None, false, w.past);
    case UserLoads(manual) => StartLoadInv(env, w, manual);
    case UserRetries => RetriedInv(env, w);
    case UserActivates(active) => ActivatedInv(env, w, active);
    case UserCloses => AbortedInv(env, w, ClosedLoader(w.l), w.past);
  }

  /** The only request that could still be obeyed is the one being answered. */
  lemma {:induction false} OthersStale(l: Loader, l': Loader, requests: map<nat, Request>, attempt: nat)
    requires RequestsOk(l, requests) && attempt !in requests && l.attempt == attempt == l'.attempt
    requires l'.view.epoch == l.view.epoch && l'.aborted == l.aborted
    ensures RequestsOk(l', requests)
  {
    forall a | a in requests ensures RequestOk(l', a, requests[a]) { assert RequestOk(l, a, requests[a]); }
  }

  /** Nothing reads as no text. */
  lemma NothingRead(doc: seq<byte>)
    ensures Before(|doc|, 0) == 0 && Reads(doc, 0) && TextOf(doc, 0) == [] && LeftBy(doc, 0) == FRESH
  {
  }

  /** A new document: nothing shown, nothing fed. */
  lemma {:induction false} OpenedInv(env: Env, w: World, r: Request, meta: Meta)
    requires Inv(env, w) && r.OpenRequest? && r.attempt !in w.requests && RequestOk(w.l, r.attempt, r)
    requires IsCurrent(w.l, r) && ValidMeta(meta) && meta.size == |Doc(env, meta)|
    ensures Inv(env, Settle(w, OpenReplied(w.l, r, Opened(meta)), w.past))
  {
    var l := OpenReplied(w.l, r, Opened(meta)).loader;
    OthersStale(w.l, l, w.requests, r.attempt);
    NothingRead(Doc(env, meta));
  }

  /** Reopening the containing document, with the link waiting for it. */
  lemma {:induction false} ReopeningInv(env: Env, w: World, from: Source, depth: nat, link: Source)
    requires Inv(env, w) && depth < MAX_REFRESH_DEPTH
    ensures Inv(env, Settle(w,
        StartOpen(w.l.(controller := None), from, false, depth + 1).(waiter := Some(Waiter(link, depth))), w.past))
  {
    CosmeticInv(env, w, w.l.(controller := None));
    StartOpenInv(env, w.(l := w.l.(controller := None)), from, false, depth + 1, Some(Waiter(link, depth)), false,
        w.past);
  }

  lemma {:induction false} OpenReplyInv(env: Env, w: World, r: Request, reply: Reply)
    requires Inv(env, w) && r.OpenRequest? && r.attempt !in w.requests && RequestOk(w.l, r.attempt, r)
        && HonestReply(env, r, reply)
    ensures Inv(env, Settle(w, OpenReplied(w.l, r, reply), w.past))
  {
    var o := OpenReplied(w.l, r, reply);
    if !IsCurrent(w.l, r) || reply.Cancelled? {
    } else if reply.Opened? && ValidMeta(reply.meta) {
      OpenedInv(env, w, r, reply.meta);
    } else if o.request.Some? {
      ReopeningInv(env, w, r.from.value, r.depth, r.source);
    } else {
      CosmeticInv(env, w, o.loader);
    }
  }

  /** Where the next chunk lies. */
  lemma {:induction false} NextIsThere(env: Env, l: Loader, r: Request, bytes: seq<byte>)
    requires ViewOk(env, l.view) && r.ChunkRequest? && r.captured.doc.Some? && SameContent(r.captured, l.view)
    requires Expected(r, bytes) && HonestReply(env, r, Bytes(bytes))
    ensures l.view.doc.Some? &&
      var doc, n := Doc(env, l.view.doc.value), l.view.next;
      && n < ChunkCount(|doc|) && bytes == Chunk(doc, n) && |bytes| > 0
      && Before(|doc|, n) + |bytes| == Before(|doc|, n + 1) <= |doc|
      && doc[..Before(|doc|, n)] + bytes == doc[..Before(|doc|, n + 1)]
      && (Completes(r, bytes) <==> n + 1 == ChunkCount(|doc|)) && (n > 0 ==> Before(|doc|, n) > 0)
  {
    var doc, n := Doc(env, l.view.doc.value), l.view.next;
    RangeInside(|doc|, n);
    NextChunkJoins(doc, n);
    ChunksPartition(doc, n + 1);
    if n > 0 { RangeInside(|doc|, n - 1); }
  }

  /** A refused chunk leaves the text; the chunks up to it do not read. */
  lemma {:induction false} RefusedText(doc: seq<byte>, segments: seq<seq<Scalar>>, n: nat, decoder: Decoder,
      past: Past)
    requires n < ChunkCount(|doc|) && Before(|doc|, n) <= |doc|
    requires TextOk(doc, segments, n, past.refused) && DecoderOk(doc, n, decoder, past)
    requires Decode(decoder, Chunk(doc, n), n + 1 == ChunkCount(|doc|)).text.None?
    ensures TextOk(doc, segments, n, past.refused + {n})
  {
    if past.refused == {} { NextCall(doc, n); }
  }

  /** A chunk that is put out goes to the end of the text, unless it, or one before it, has been refused. */
  lemma {:induction false} AcceptedText(doc: seq<byte>, segments: seq<seq<Scalar>>, n: nat, decoder: Decoder,
      past: Past)
    requires n < ChunkCount(|doc|) && Before(|doc|, n) <= |doc|
    requires TextOk(doc, segments, n, past.refused) && DecoderOk(doc, n, decoder, past)
    requires Decode(decoder, Chunk(doc, n), n + 1 == ChunkCount(|doc|)).text.Some?
    ensures
      var d := Decode(decoder, Chunk(doc, n), n + 1 == ChunkCount(|doc|));
      && TextOk(doc, segments + [d.text.value], n + 1, past.refused)
      && (past.refused == {} ==> Reads(doc, n + 1) && d.decoder == LeftBy(doc, n + 1))
  {
    var d := Decode(decoder, Chunk(doc, n), n + 1 == ChunkCount(|doc|));
    if past.refused == {} {
      NextCall(doc, n);
      assert (segments + [d.text.value])[..|segments|] == segments;
    } else {
      assert !Reads(doc, n + 1);
      var k :| k in past.refused;
      assert !(k >= n + 1);
      if n + 1 < ChunkCount(|doc|) && Reads(doc, n + 2) { ReadsBack(doc, n + 1, n + 2); }
    }
  }

  /** What a chunk leaves of both: as much again fed, or more, or nothing. */
  lemma {:induction false} FedDecoder(doc: seq<byte>, n: nat, decoder: Decoder, past: Past, shown: bool)
    requires n < ChunkCount(|doc|) && Before(|doc|, n) <= |doc| && DecoderOk(doc, n, decoder, past)
    requires (n > 0 ==> Before(|doc|, n) > 0) && |Chunk(doc, n)| > 0
        && Before(|doc|, n) + |Chunk(doc, n)| == Before(|doc|, n + 1) <= |doc|
        && doc[..Before(|doc|, n)] + Chunk(doc, n) == doc[..Before(|doc|, n + 1)]
    requires shown ==> past.refused == {} ==> Reads(doc, n + 1)
    ensures
      var last := n + 1 == ChunkCount(|doc|);
      if shown then DecoderOk(doc, n + 1, if past.refused == {} then LeftBy(doc, n + 1) else decoder,
                              past.(fed := past.fed + Chunk(doc, n)))
      else DecoderOk(doc, n, decoder, Past(past.refused + {n}, if last then [] else past.fed + Chunk(doc, n)))
  {
    assert n in past.refused + {n};
  }

  lemma {:induction false} RefusedInv(env: Env, w: World, r: Request, bytes: seq<byte>)
    requires Inv(env, w) && RequestOk(w.l, r.attempt, r) && HonestReply(env, r, Bytes(bytes))
    requires Strikes(w, r, Bytes(bytes))
    ensures
      var l := Shown(w.l, r, bytes);
      ViewOk(env, l.view) && FedOk(env, l.view, l.decoder, Noted(w, r, Bytes(bytes)))
  {
    NextIsThere(env, w.l, r, bytes);
    var doc, n := Doc(env, w.l.view.doc.value), w.l.view.next;
    RefusedText(doc, w.l.view.segments, n, w.l.decoder, w.past);
    FedDecoder(doc, n, w.l.decoder, w.past, false);
  }

  lemma {:induction false} AcceptedView(env: Env, l: Loader, r: Request, bytes: seq<byte>)
    requires ViewOk(env, l.view) && r.ChunkRequest? && r.captured.doc.Some? && SameContent(r.captured, l.view)
    requires Expected(r, bytes) && HonestReply(env, r, Bytes(bytes))
    requires Decode(l.decoder, bytes, Completes(r, bytes)).text.Some?
    ensures ViewOk(env, Shown(l, r, bytes).view)
  {
    NextIsThere(env, l, r, bytes);
    ChunksPartition(Doc(env, l.view.doc.value), l.view.next + 1);
  }

  lemma {:induction false} AcceptedFed(doc: seq<byte>, segments: seq<seq<Scalar>>, n: nat, decoder: Decoder,
      past: Past, bytes: seq<byte>, last: bool)
    requires n < ChunkCount(|doc|) && bytes == Chunk(doc, n) && (last <==> n + 1 == ChunkCount(|doc|))
    requires Before(|doc|, n) <= |doc| && (n > 0 ==> Before(|doc|, n) > 0) && |bytes| > 0
        && Before(|doc|, n) + |bytes| == Before(|doc|, n + 1) <= |doc|
        && doc[..Before(|doc|, n)] + bytes == doc[..Before(|doc|, n + 1)]
    requires TextOk(doc, segments, n, past.refused) && DecoderOk(doc, n, decoder, past)
    requires Decode(decoder, bytes, last).text.Some?
    ensures
      var d := Decode(decoder, bytes, last);
      && TextOk(doc, segments + [d.text.value], n + 1, past.refused)
      && DecoderOk(doc, n + 1, d.decoder, past.(fed := past.fed + bytes))
  {
    AcceptedText(doc, segments, n, decoder, past);
    FedDecoder(doc, n, decoder, past, true);
  }

  lemma {:induction false} AcceptedInv(env: Env, w: World, r: Request, bytes: seq<byte>)
    requires Inv(env, w) && RequestOk(w.l, r.attempt, r) && HonestReply(env, r, Bytes(bytes))
    requires Feeds(w, r, Bytes(bytes)) && !Strikes(w, r, Bytes(bytes))
    ensures
      var l := Shown(w.l, r, bytes);
      ViewOk(env, l.view) && FedOk(env, l.view, l.decoder, Noted(w, r, Bytes(bytes)))
  {
    NextIsThere(env, w.l, r, bytes);
    AcceptedView(env, w.l, r, bytes);
    var doc, n := Doc(env, w.l.view.doc.value), w.l.view.next;
    AcceptedFed(doc, w.l.view.segments, n, w.l.decoder, w.past, bytes, Completes(r, bytes));
  }

  lemma {:induction false} ChunkReplyInv(env: Env, w: World, r: Request, reply: Reply)
    requires Inv(env, w) && r.ChunkRequest? && r.attempt !in w.requests && RequestOk(w.l, r.attempt, r)
        && HonestReply(env, r, reply)
    ensures Inv(env, Answer(w, r, reply))
  {
    if Feeds(w, r, reply) {
      FedReplyInv(env, w, r, reply.bytes);
    } else {
      UnfedReplyInv(env, w, r, reply);
    }
  }

  lemma {:induction false} FedReplyInv(env: Env, w: World, r: Request, bytes: seq<byte>)
    requires Inv(env, w) && r.ChunkRequest? && r.attempt !in w.requests && RequestOk(w.l, r.attempt, r)
        && HonestReply(env, r, Bytes(bytes))
    requires Feeds(w, r, Bytes(bytes))
    ensures Inv(env, Answer(w, r, Bytes(bytes)))
  {
    var o := ChunkReplied(w.l, r, Bytes(bytes));
    assert o.request.None? && o.waiter.None? && o.loader.view.epoch == w.l.view.epoch;
    OthersStale(w.l, o.loader, w.requests, r.attempt);
    if Strikes(w, r, Bytes(bytes)) { RefusedInv(env, w, r, bytes); } else { AcceptedInv(env, w, r, bytes); }
  }

  lemma {:induction false} ReopenedInv(env: Env, w: World, source: Source)
    requires Inv(env, w)
    ensures Inv(env, Settle(w,
        StartOpen(w.l.(inFlight := false, controller := None), source, true, 0).(unwinds := true), w.past))
  {
    var l := w.l.(inFlight := false, controller := None);
    CosmeticInv(env, w, l);
    StartOpenInv(env, w.(l := l), source, true, 0, None, true, w.past);
  }

  lemma {:induction false} UnfedReplyInv(env: Env, w: World, r: Request, reply: Reply)
    requires Inv(env, w) && r.ChunkRequest? && r.captured.doc.Some? && r.captured.source.Some?
    requires !Feeds(w, r, reply)
    ensures Inv(env, Settle(w, ChunkReplied(w.l, r, reply), w.past))
  {
    var o := ChunkReplied(w.l, r, reply);
    if o.request.Some? { ReopenedInv(env, w, r.captured.source.value); } else { CosmeticInv(env, w, o.loader); }
  }

  lemma {:induction false} AnswersInv(env: Env, w: World, attempt: nat, reply: Reply)
    requires Inv(env, w) && attempt in w.requests && HonestReply(env, w.requests[attempt], reply)
    ensures Inv(env, Apply(w, Answers(attempt, reply)))
  {
    var r, u := w.requests[attempt], w.(requests := w.requests - {attempt});
    assert RequestOk(w.l, attempt, r);
    assert RequestsOk(u.l, u.requests);
    if r.OpenRequest? { OpenReplyInv(env, u, r, reply); } else { ChunkReplyInv(env, u, r, reply); }
  }

  lemma {:induction false} ResumesInv(env: Env, w: World, waiter: nat)
    requires Inv(env, w) && waiter in w.waiters
    ensures Inv(env, Apply(w, Resumes(waiter)))
  {
    var u, x := w.(waiters := w.waiters - {waiter}), w.waiters[waiter];
    if w.l.view.status == Open && w.l.view.doc.Some? {
      StartOpenInv(env, u, x.source.(parent := DocId(w.l.view)), false, x.depth + 1, None, false, w.past);
    }
  }

  lemma {:induction false} StepInv(env: Env, w: World, step: Step)
    requires Inv(env, w) && Allowed(env, w, step)
    ensures Inv(env, Apply(w, step))
  {
    match step
    case Answers(attempt, reply) => if attempt in w.requests { AnswersInv(env, w, attempt, reply); }
    case Resumes(waiter) => if waiter in w.waiters { ResumesInv(env, w, waiter); }
    case Unwinds => CosmeticInv(env, w, w.l.(inFlight := false));
    case _ => UserInv(env, w, step);
  }

  lemma {:induction false} FairPrefix(env: Env, steps: seq<Step>)
    requires Fair(env, steps) && steps != []
    ensures Fair(env, steps[..|steps| - 1])
  {
    var init := steps[..|steps| - 1];
    forall k | 0 <= k < |init| ensures Allowed(env, Run(init[..k]), init[k]) {
      assert init[..k] == steps[..k];
    }
  }

  lemma {:induction false} FairExtends(env: Env, steps: seq<Step>, step: Step)
    requires Fair(env, steps) && Allowed(env, Run(steps), step)
    ensures Fair(env, steps + [step]) && Run(steps + [step]) == Apply(Run(steps), step)
  {
    var longer := steps + [step];
    assert longer[..|steps|] == steps;
    forall k | 0 <= k < |longer| ensures Allowed(env, Run(longer[..k]), longer[k]) {
      if k < |steps| { assert longer[..k] == steps[..k]; }
    }
  }

  lemma {:induction false} InvAlways(env: Env, steps: seq<Step>)
    requires Fair(env, steps)
    ensures Inv(env, Run(steps))
  {
    if steps != [] {
      var n := |steps| - 1;
      FairPrefix(env, steps);
      InvAlways(env, steps[..n]);
      StepInv(env, Run(steps[..n]), steps[n]);
    }
  }

  // ------------------------------------------------------------------ theorems

  /** After any interleaving the view counts whole chunks, each once, and is complete exactly when it counts all. */
  lemma {:induction false} ChunksAreCounted(env: Env, steps: seq<Step>)
    requires Fair(env, steps) && Run(steps).l.view.doc.Some?
    ensures
      var v := Run(steps).l.view;
      var doc := Doc(env, v.doc.value);
      && |v.segments| == v.next <= ChunkCount(|doc|) && v.loaded == Before(|doc|, v.next) <= |doc|
      && (v.complete <==> v.loaded == |doc|) && (v.complete <==> v.next == ChunkCount(|doc|))
  {
    InvAlways(env, steps);
    var v := Run(steps).l.view;
    ChunksPartition(Doc(env, v.doc.value), v.next);
  }

  /**
   * Exactly-once display: what is shown is the text of the chunks counted if and only if none of those was ever
   * refused. Otherwise they have no text.
   */
  lemma {:induction false} ShownIsDecoded(env: Env, steps: seq<Step>)
    requires Fair(env, steps) && Run(steps).l.view.doc.Some?
    ensures
      var v, refused := Run(steps).l.view, Run(steps).past.refused;
      var doc := Doc(env, v.doc.value);
      && v.next <= ChunkCount(|doc|)
      && (Reads(doc, v.next) && Flat(v.segments) == TextOf(doc, v.next) <==> forall k :: k in refused ==> k >= v.next)
      && (Reads(doc, v.next) <==> forall k :: k in refused ==> k >= v.next)
  {
    InvAlways(env, steps);
  }

  /**
   * A document shown to its end is the encoding of the text that is shown, with or without a byte-order mark
   * before it, if and only if none of its chunks was ever refused.
   */
  lemma {:induction false} WholeIsShown(env: Env, steps: seq<Step>)
    requires Fair(env, steps) && Run(steps).l.view.doc.Some? && Run(steps).l.view.complete
    ensures
      var v := Run(steps).l.view;
      var doc, text := Doc(env, v.doc.value), Flat(v.segments);
      doc == EncodeAll(text) || doc == EncodeAll([BYTE_ORDER_MARK] + text) <==> Run(steps).past.refused == {}
  {
    ChunksAreCounted(env, steps);
    InvAlways(env, steps);
    var v, refused := Run(steps).l.view, Run(steps).past.refused;
    var doc, text := Doc(env, v.doc.value), Flat(v.segments);
    WholeIsEncoded(doc, text);
    WholeIsEncoded(doc, [BYTE_ORDER_MARK] + text);
    if refused == {} {
      var read := Reading(doc, v.next).text;
      WholeIsEncoded(doc, read);
      if text != read { assert read == [read[0]] + read[1..]; }
    } else {
      var k :| k in refused;
      assert !(k >= v.next);
    }
  }

  /**
   * The decoder has been fed exactly the chunks counted if and only if it has refused none of the present document,
   * or the document has only one.
   */
  lemma {:induction false} FedExactlyOnce(env: Env, steps: seq<Step>)
    requires Fair(env, steps) && Run(steps).l.view.doc.Some?
    ensures
      var w := Run(steps);
      var doc := Doc(env, w.l.view.doc.value);
      && w.l.view.loaded <= |doc|
      && (w.past.fed == doc[..w.l.view.loaded] <==> w.past.refused == {} || ChunkCount(|doc|) <= 1)
  {
    InvAlways(env, steps);
  }

  /** As long as nothing has been refused, the next chunk is refused exactly if the chunks up to it do not read. */
  lemma {:induction false} StrikesExactly(env: Env, w: World, r: Request, bytes: seq<byte>)
    requires Inv(env, w) && w.past.refused == {} && RequestOk(w.l, r.attempt, r) && HonestReply(env, r, Bytes(bytes))
    requires Feeds(w, r, Bytes(bytes))
    ensures w.l.view.doc.Some? &&
      var doc, n := Doc(env, w.l.view.doc.value), w.l.view.next;
      n < ChunkCount(|doc|) && (Strikes(w, r, Bytes(bytes)) <==> !Reads(doc, n + 1))
  {
    NextIsThere(env, w.l, r, bytes);
    NextCall(Doc(env, w.l.view.doc.value), w.l.view.next);
  }

  /** So every part of a document that has been shown reads, unless a chunk has been refused before. */
  lemma {:induction false} ShownReads(env: Env, steps: seq<Step>, k: nat)
    requires Fair(env, steps) && Run(steps).l.view.doc.Some? && Run(steps).past.refused == {}
    requires k <= Run(steps).l.view.next
    ensures
      var doc := Doc(env, Run(steps).l.view.doc.value);
      k <= ChunkCount(|doc|) && Reads(doc, k)
  {
    InvAlways(env, steps);
    ReadsBack(Doc(env, Run(steps).l.view.doc.value), k, Run(steps).l.view.next);
  }

  lemma {:induction false} DecodableStep(env: Env, w: World, step: Step)
    requires Inv(env, w) && w.past.refused == {} && Allowed(env, w, step)
    requires w.l.view.doc.Some? ==> IsUtf8(Doc(env, w.l.view.doc.value))
    ensures Apply(w, step).past.refused == {}
  {
    if step.Answers? && step.attempt in w.requests {
      var r, u := w.requests[step.attempt], w.(requests := w.requests - {step.attempt});
      assert RequestOk(w.l, step.attempt, r);
      assert RequestsOk(u.l, u.requests);
      if Feeds(u, r, step.reply) {
        StrikesExactly(env, u, r, step.reply.bytes);
        var doc := Doc(env, w.l.view.doc.value);
        Utf8Reads(doc);
        ReadsBack(doc, w.l.view.next + 1, ChunkCount(|doc|));
      }
    }
  }

  /** If every document there is is UTF-8, none is ever refused a chunk, whatever happens. */
  lemma {:induction false} DecodableIsFedOnce(env: Env, steps: seq<Step>)
    requires Fair(env, steps) && forall id, revision :: IsUtf8(env.content(id, revision))
    ensures Run(steps).past.refused == {}
  {
    if steps != [] {
      var n := |steps| - 1;
      FairPrefix(env, steps);
      DecodableIsFedOnce(env, steps[..n]);
      InvAlways(env, steps[..n]);
      DecodableStep(env, Run(steps[..n]), steps[n]);
    }
  }

  /** A reply that is no longer wanted changes nothing but the in-flight flag. */
  lemma {:induction false} StaleRepliesAreInert(env: Env, w: World, attempt: nat, reply: Reply)
    requires Inv(env, w) && attempt in w.requests && !IsCurrent(w.l, w.requests[attempt])
    ensures Apply(w, Answers(attempt, reply)).l == w.l.(inFlight :=
        Apply(w, Answers(attempt, reply)).l.inFlight)
    ensures Apply(w, Answers(attempt, reply)).past == w.past
  {
    assert RequestOk(w.l, attempt, w.requests[attempt]);
  }

  /** At most one outstanding request can still be obeyed, whatever the in-flight flag says. */
  lemma {:induction false} OneLiveRequest(env: Env, w: World, a: nat, b: nat)
    requires Inv(env, w) && a in w.requests && b in w.requests && IsCurrent(w.l, w.requests[a])
        && IsCurrent(w.l, w.requests[b])
    ensures a == b
  {
    assert RequestOk(w.l, a, w.requests[a]) && RequestOk(w.l, b, w.requests[b]);
  }
}
