/**
 * The document viewer's loader. A request is a closure over what `open` or `loadNext` saw when
 * it was issued; its reply may arrive at any later time, or be the abort error. A segment is the
 * text that one call of the decoder put out.
 */
module DocumentLoading {
  import opened Common
  import opened DocumentChunks
  import opened Utf8

  datatype Code = ParentUnknown | IdUnknown | ChunkFailed | EncodingUnsupported | OtherCode(name: string)
  datatype Status = Closed | Opening | Open | Loading | Failed
  datatype Source = Source(href: string, parent: Option<string>)
  datatype Kind = TextKind | MarkdownKind | OtherKind(name: string)
  datatype Meta = Meta(docId: string, revision: string, kind: Kind, size: int, name: string, utf8: bool)

  datatype View = View(
    status: Status, reserved: bool, epoch: nat, source: Option<Source>, doc: Option<Meta>, segments: seq<seq<Scalar>>,
    loaded: nat, next: nat, complete: bool, error: Option<Code>)

  datatype Loader = Loader(
    view: View, decoder: Decoder, reopened: bool, attempt: nat, controller: Option<nat>, aborted: set<nat>,
    inFlight: bool, active: bool)

  datatype Request =
    | OpenRequest(attempt: nat, epoch: nat, source: Source, from: Option<Source>, fromDocId: Option<string>, depth: nat)
    | ChunkRequest(attempt: nat, epoch: nat, captured: View)

  datatype Reply = Opened(meta: Meta) | Bytes(bytes: seq<byte>) | Refused(code: Code) | Cancelled

  /** What waits for a containing document to be reopened: the link to follow from it. */
  datatype Waiter = Waiter(source: Source, depth: nat)

  /** A handler's result: the loader, a request it issued, and what waits for that request. */
  datatype Outcome = Outcome(loader: Loader, request: Option<Request>, waiter: Option<Waiter>, unwinds: bool)

  const MAX_REFRESH_DEPTH: nat := 3
  const MAX_BYTES: nat := 4 * 1024 * 1024
  const AUTOLOAD_LIMIT: nat := 512 * 1024

  predicate IdChar(c: char) { 'A' <= c <= 'Z' || 'a' <= c <= 'z' || '0' <= c <= '9' || c == '_' || c == '-' }

  predicate ValidId(s: string) { |s| == 22 && forall i :: 0 <= i < |s| ==> IdChar(s[i]) }

  predicate ValidMeta(m: Meta) {
    ValidId(m.docId) && ValidId(m.revision) && !m.kind.OtherKind? && m.utf8 && 0 <= m.size <= MAX_BYTES
        && 1 <= |m.name| <= 512
  }

  function InitialView(epoch: nat): View { View(Closed, false, epoch, None, None, [], 0, 0, false, None) }

  const INITIAL := Loader(InitialView(0), FRESH, false, 0, None, {}, false, true)

  predicate ShouldRefreshStaleParent(code: Code, parent: Option<string>, open: Option<string>, depth: nat) {
    code == ParentUnknown && parent.Some? && parent.value != "" && open == parent && depth < MAX_REFRESH_DEPTH
  }

  predicate IsCurrent(l: Loader, r: Request) {
    r.attempt !in l.aborted && r.epoch == l.view.epoch && r.attempt == l.attempt
  }

  function DocId(v: View): Option<string> { if v.doc.Some? then Some(v.doc.value.docId) else None }

  // ------------------------------------------------------------------ what each call does

  function AbortRequest(l: Loader): Loader {
    l.(attempt := l.attempt + 1, aborted := l.aborted + if l.controller.Some? then {l.controller.value}
        else {}, controller := None)
  }

  function StartOpen(l: Loader, source: Source, reopened: bool, depth: nat): Outcome {
    var a := AbortRequest(l).(inFlight := false);
    var epoch := l.view.epoch + 1;
    var attempt := a.attempt + 1;
    Outcome(
      a.(view := InitialView(epoch).(status := Opening, reserved := l.view.reserved, source := Some(source)),
         decoder := FRESH, reopened := reopened, attempt := attempt, controller := Some(attempt)),
      Some(OpenRequest(attempt, epoch, source, l.view.source, DocId(l.view), depth)), None, false)
  }

  function Only(l: Loader): Outcome { Outcome(l, None, None, false) }

  function Failing(l: Loader, code: Code): Loader { l.(view := l.view.(status := Failed, error := Some(code))) }

  function OpenReplied(l: Loader, r: Request, reply: Reply): Outcome
    requires r.OpenRequest?
  {
    if !IsCurrent(l, r) || reply.Cancelled? then Only(l)
    else if reply.Opened? && ValidMeta(reply.meta) then
      Only(l.(controller := None,
              view := InitialView(r.epoch).(status := Open, reserved := true, source := Some(r.source),
                                            doc := Some(reply.meta),
                                            complete := reply.meta.size == 0)))
    else
      var code := if reply.Refused? then reply.code else ChunkFailed;
      var quiet := l.(controller := None);
      if r.from.Some? && ShouldRefreshStaleParent(code, r.source.parent, r.fromDocId, r.depth) then
        StartOpen(quiet, r.from.value, false, r.depth + 1).(waiter := Some(Waiter(r.source, r.depth)))
      else Only(Failing(quiet, code))
  }

  /** The link is followed from whatever document is open by then. */
  function Resumed(l: Loader, w: Waiter): Outcome {
    if l.view.status == Open && l.view.doc.Some? then
      StartOpen(l, w.source.(parent := DocId(l.view)), false, w.depth + 1)
    else Only(l)
  }

  predicate CanLoad(l: Loader, manual: bool) {
    && l.active && !l.inFlight && !l.view.complete && l.view.doc.Some? && l.view.source.Some?
    && (manual || l.view.loaded < AUTOLOAD_LIMIT)
  }

  function StartLoad(l: Loader, manual: bool): Outcome {
    if !CanLoad(l, manual) then Only(l)
    else
      var attempt := l.attempt + 1;
      Outcome(l.(inFlight := true, attempt := attempt, controller := Some(attempt),
              view := l.view.(status := Loading, error := None)),
              Some(ChunkRequest(attempt, l.view.epoch, l.view)), None, false)
  }

  /** The chunk's length is what the document's size makes it. */
  predicate Expected(r: Request, bytes: seq<byte>)
    requires r.ChunkRequest? && r.captured.doc.Some?
  {
    var size := r.captured.doc.value.size;
    size >= 0 && ChunkRange(size, r.captured.next).Some? && |bytes| == ChunkRange(size, r.captured.next).value.length
  }

  predicate Completes(r: Request, bytes: seq<byte>)
    requires r.ChunkRequest? && r.captured.doc.Some?
  {
    r.captured.loaded + |bytes| >= r.captured.doc.value.size
  }

  /** A chunk of the right length, decoded and shown, or refused by the decoder. */
  function Shown(l: Loader, r: Request, bytes: seq<byte>): Loader
    requires r.ChunkRequest? && r.captured.doc.Some?
  {
    var complete := Completes(r, bytes);
    var decoded := Decode(l.decoder, bytes, complete);
    var fed := l.(decoder := decoded.decoder);
    if decoded.text.Some? then
      fed.(view := l.view.(segments := r.captured.segments + [decoded.text.value], status := Open,
                           loaded := r.captured.loaded + |bytes|, next := r.captured.next + 1,
                           complete := complete, error := None))
    else Failing(fed, EncodingUnsupported)
  }

  function ChunkReplied(l: Loader, r: Request, reply: Reply): Outcome
    requires r.ChunkRequest? && r.captured.doc.Some? && r.captured.source.Some?
  {
    var done := l.(inFlight := false);
    if !IsCurrent(l, r) then Only(done)
    else if reply.Cancelled? then Only(done.(controller := None))
    else if reply.Bytes? && Expected(r, reply.bytes) then Only(Shown(done.(controller := None), r, reply.bytes))
    else if reply == Refused(IdUnknown) && !l.reopened then
      StartOpen(done.(controller := None), r.captured.source.value, true, 0).(unwinds := true)
    else Only(Failing(done.(controller := None), if reply.Refused? then reply.code else ChunkFailed))
  }

  function Retried(l: Loader): Outcome {
    if l.view.doc.None? && l.view.source.Some? then StartOpen(l, l.view.source.value, false, 0) else StartLoad(l, true)
  }

  function Activated(l: Loader, active: bool): Loader {
    if active then l.(active := true)
    else AbortRequest(l).(active := false, inFlight := false, view := if l.view.status == Loading
        then l.view.(status := Open) else l.view)
  }

  function ClosedLoader(l: Loader): Loader {
    AbortRequest(l).(inFlight := false, decoder := FRESH, view := InitialView(l.view.epoch + 1))
  }

  // ------------------------------------------------------------------ as the client does it

  class DocumentLoader {
    var stateValue: View
    var decoder: Decoder
    var reopenedUnknownId: bool
    var fetchAttempt: nat
    var controller: Option<nat>
    var aborted: set<nat>
    var inFlight: bool
    var active: bool

    function Now(): Loader
      reads this
    {
      Loader(stateValue, decoder, reopenedUnknownId, fetchAttempt, controller, aborted, inFlight, active)
    }

    constructor ()
      ensures Now() == INITIAL
    {
      stateValue := InitialView(0);
      decoder, reopenedUnknownId, fetchAttempt, controller, aborted := FRESH, false, 0, None, {};
      inFlight, active := false, true;
    }

    method AbortRequestOnly()
      modifies this
      ensures Now() == AbortRequest(old(Now()))
    {
      fetchAttempt := fetchAttempt + 1;
      if controller.Some? { aborted := aborted + {controller.value}; }
      controller := None;
    }

    /** `open` up to its first await. */
    method OpenSource(source: Source, reopened: bool, depth: nat) returns (r: Request)
      modifies this
      ensures var o := StartOpen(old(Now()), source, reopened, depth); Now() == o.loader && Some(r) == o.request
    {
      var reserveViewer := stateValue.reserved;
      var from := stateValue.source;
      var fromDocId := DocId(stateValue);
      AbortRequestOnly();
      inFlight := false;
      var epoch := stateValue.epoch + 1;
      decoder := FRESH;
      reopenedUnknownId := reopened;
      stateValue := InitialView(epoch).(status := Opening, reserved := reserveViewer, source := Some(source));
      fetchAttempt := fetchAttempt + 1;
      controller := Some(fetchAttempt);
      r := OpenRequest(fetchAttempt, epoch, source, from, fromDocId, depth);
    }

    /**
     * `open` from its first await on; `next` is the reopening of the containing document, and `waiter` what
     * waits for it.
     */
    method OnOpenReply(r: Request, reply: Reply) returns (next: Option<Request>, waiter: Option<Waiter>)
      requires r.OpenRequest?
      modifies this
      ensures var o := OpenReplied(old(Now()), r, reply); Now() == o.loader && next == o.request && waiter == o.waiter
    {
      next, waiter := None, None;
      if !IsCurrent(Now(), r) || reply.Cancelled? { return; }
      controller := None;
      if reply.Opened? && ValidMeta(reply.meta) {
        stateValue := InitialView(r.epoch).(status := Open, reserved := true, source := Some(r.source),
                                            doc := Some(reply.meta),
                                            complete := reply.meta.size == 0);
        return;
      }
      var code := if reply.Refused? then reply.code else ChunkFailed;
      if r.from.Some? && ShouldRefreshStaleParent(code, r.source.parent, r.fromDocId, r.depth) {
        var reopening := OpenSource(r.from.value, false, r.depth + 1);
        return Some(reopening), Some(Waiter(r.source, r.depth));
      }
      stateValue := stateValue.(status := Failed, error := Some(code));
    }

    /** The rest of the outer `open`, after the containing document's `open` has returned. */
    method OnReopened(w: Waiter) returns (next: Option<Request>)
      modifies this
      ensures var o := Resumed(old(Now()), w); Now() == o.loader && next == o.request
    {
      next := None;
      if stateValue.status == Open && stateValue.doc.Some? {
        var following := OpenSource(w.source.(parent := DocId(stateValue)), false, w.depth + 1);
        next := Some(following);
      }
    }

    method LoadNext(manual: bool) returns (r: Option<Request>)
      modifies this
      ensures var o := StartLoad(old(Now()), manual); Now() == o.loader && r == o.request
    {
      r := None;
      if !active || inFlight || stateValue.complete || stateValue.doc.None? || stateValue.source.None? { return; }
      if !manual && !(stateValue.loaded < AUTOLOAD_LIMIT) { return; }
      inFlight := true;
      fetchAttempt := fetchAttempt + 1;
      controller := Some(fetchAttempt);
      r := Some(ChunkRequest(fetchAttempt, stateValue.epoch, stateValue));
      stateValue := stateValue.(status := Loading, error := None);
    }

    method ShowChunk(r: Request, bytes: seq<byte>)
      requires r.ChunkRequest? && r.captured.doc.Some?
      modifies this
      ensures Now() == Shown(old(Now()), r, bytes)
    {
      var complete := Completes(r, bytes);
      var decoded := Decode(decoder, bytes, complete);
      decoder := decoded.decoder;
      if decoded.text.Some? {
        stateValue := stateValue.(segments := r.captured.segments + [decoded.text.value], status := Open,
                                  loaded := r.captured.loaded + |bytes|, next := r.captured.next + 1,
                                  complete := complete, error := None);
      } else {
        stateValue := stateValue.(status := Failed, error := Some(EncodingUnsupported));
      }
    }

    /** `loadNext` from its await on; `unwinds` says that its `finally` waits for `next`. */
    method OnChunkReply(r: Request, reply: Reply) returns (next: Option<Request>, unwinds: bool)
      requires r.ChunkRequest? && r.captured.doc.Some? && r.captured.source.Some?
      modifies this
      ensures
        var o := ChunkReplied(old(Now()), r, reply);
        Now() == o.loader && next == o.request && unwinds == o.unwinds
    {
      next, unwinds := None, false;
      if !IsCurrent(Now(), r) { inFlight := false; return; }
      if !reply.Cancelled? {
        if reply.Bytes? && Expected(r, reply.bytes) {
          ShowChunk(r, reply.bytes);
        } else if reply == Refused(IdUnknown) && !reopenedUnknownId {
          inFlight := false;
          controller := None;
          var reopening := OpenSource(r.captured.source.value, true, 0);
          return Some(reopening), true;
        } else {
          stateValue := stateValue.(status := Failed,
              error := Some(if reply.Refused? then reply.code else ChunkFailed));
        }
      }
      controller := None;
      inFlight := false;
    }

    /** The `finally` of a load whose document was reopened in between. */
    method OnUnwound()
      modifies this
      ensures Now() == old(Now()).(inFlight := false)
    {
      inFlight := false;
    }

    method Retry() returns (r: Option<Request>)
      modifies this
      ensures var o := Retried(old(Now())); Now() == o.loader && r == o.request
    {
      if stateValue.doc.None? && stateValue.source.Some? {
        var reopening := OpenSource(stateValue.source.value, false, 0);
        r := Some(reopening);
      } else {
        r := LoadNext(true);
      }
    }

    method SetActive(on: bool)
      modifies this
      ensures Now() == Activated(old(Now()), on)
    {
      active := on;
      if !on {
        AbortRequestOnly();
        inFlight := false;
        if stateValue.status == Loading { stateValue := stateValue.(status := Open); }
      }
    }

    method Close()
      modifies this
      ensures Now() == ClosedLoader(old(Now()))
    {
      AbortRequestOnly();
      inFlight := false;
      decoder := FRESH;
      stateValue := InitialView(stateValue.epoch + 1);
    }
  }
}
