/** Two ends, a channel that does what it likes with their frames, and what comes out. */
module WirePrefix {
  import opened Common
  import opened EncryptedWire

  // ------------------------------------------------------------------ what compression and encoding promise

  /** Decoding drops one leading byte-order mark. */
  function WithoutMark(text: string): string { if text != "" && text[0] == '\U{FEFF}' then text[1..] else text }

  function Inflated(codec: bool, raw: Bytes): Option<Bytes>
  {
    if codec && |raw| > MAX_INFLATED then None else Some(raw)
  }

  /** What encoding and decoding keep of a text: unpaired surrogates are replaced, and a leading mark is dropped. */
  function Kept(env: Env, text: string): string { WithoutMark(env.whole(text)) }

  /** Encoded text decodes to what is kept of it; deflated bytes inflate to themselves, within the codec's limit. */
  ghost predicate Lawful(env: Env) {
    && (forall t: string :: |env.whole(t)| == |t|)
    && (forall t: string :: env.decode(env.encode(t)) == Kept(env, t)
                            && env.strict(env.encode(t)) == Some(Kept(env, t)))
    && (forall raw: Bytes, d: Option<Bytes> :: env.codecInflate(env.codecDeflate(raw, d), d) == Inflated(true, raw))
    && (forall raw: Bytes :: env.platformInflate(env.codecDeflate(raw, None)) == Some(raw))
    && (forall raw: Bytes :: env.platformDeflate(raw).Some? ==>
          && env.codecInflate(env.platformDeflate(raw).value, None) == Inflated(true, raw)
          && env.platformInflate(env.platformDeflate(raw).value) == Some(raw))
  }

  /** Both ends settled on the same dictionary or on none; a dictionary needs the codec. */
  predicate Agreed(a: Compression, b: Compression) {
    a.dictionary == b.dictionary && (a.dictionary.Some? ==> a.codec && b.codec)
  }

  /** What the far end reads of a text: nothing, or what is kept of it. */
  function ReadBack(env: Env, from: Compression, to: Compression, text: string): Option<string> {
    var raw, plain := env.encode(text), Kept(env, text);
    if !Compresses(env, from, raw) then Some(plain)
    else if to.codec && |raw| > MAX_INFLATED then None
    else if from.dictionary.Some? && !env.isJson(plain) then None
    else Some(plain)
  }

  /**
   * A text is read back as it was exactly if it has no unpaired surrogate and no leading mark, is JSON
   * if a dictionary was used, and is not too long to inflate.
   */
  lemma ReadBackExactly(env: Env, from: Compression, to: Compression, text: string)
    requires Lawful(env)
    ensures ReadBack(env, from, to, text) == Some(text) <==>
      && env.whole(text) == text && (text == "" || text[0] != '\U{FEFF}')
      && (Compresses(env, from, env.encode(text)) ==>
            (to.codec ==> |env.encode(text)| <= MAX_INFLATED) && (from.dictionary.Some? ==> env.isJson(text)))
  {
    var whole := env.whole(text);
    if whole != "" && whole[0] == '\U{FEFF}' { assert |WithoutMark(whole)| < |text|; }
  }

  /** Sealing and opening a text under one key and counter reads it back. */
  lemma {:induction false} SealThenOpen(env: Env, from: Compression, to: Compression, key: nat, counter: nat,
      text: string)
    requires Lawful(env) && Agreed(from, to)
    ensures
      var f := SealText(env, from, key, counter, text);
      && DecodeHeader(f).Some? && OpenBox(key, NonceForCounter(counter), f.flags, f.box) == Some(f.box.plain)
      && ReadPlain(env, to, DecodeHeader(f).value, f.box.plain) == ReadBack(env, from, to, text)
  {
  }

  // ------------------------------------------------------------------ one direction

  /** What only the holder of the key can have made is what the far end has transmitted; the flags may be anyone's. */
  ghost predicate Unforged(key: nat, frames: seq<Frame>, data: Data) {
    data.Binary? && data.frame.box.Sealed? && data.frame.box.key == key ==>
      exists i :: 0 <= i < |frames| && frames[i].box == data.frame.box
  }

  function ReadBacks(env: Env, from: Compression, to: Compression, texts: seq<string>): (r: seq<Option<string>>)
    ensures |r| == |texts|
  {
    seq(|texts|, i requires 0 <= i < |texts| => ReadBack(env, from, to, texts[i]))
  }

  /** Frame `i` was sealed with counter `i`; the reader has opened the first `inCounter` of them, in order. */
  ghost predicate Direction(env: Env, from: Compression, to: Compression, key: nat, s: Wire, r: Wire) {
    && s.outCounter == |s.frames| == |s.gone| <= LAST_COUNTER
    && (forall i :: 0 <= i < |s.frames| ==> s.frames[i] == SealText(env, from, key, i, s.gone[i]))
    && r.inCounter <= |s.frames|
    && r.opens == ReadBacks(env, from, to, s.gone[..r.inCounter])
    && (forall k :: 0 <= k < |r.inQueue| ==> Unforged(key, s.frames, r.inQueue[k]))
  }

  lemma UnforgedStays(key: nat, frames: seq<Frame>, more: seq<Frame>, data: Data)
    requires Unforged(key, frames, data) && frames <= more
    ensures Unforged(key, more, data)
  {
    if data.Binary? && data.frame.box.Sealed? && data.frame.box.key == key {
      var i :| 0 <= i < |frames| && frames[i].box == data.frame.box;
      assert more[i] == frames[i];
    }
  }

  lemma {:induction false} SendingKeepsDirection(env: Env, from: Compression, to: Compression, key: nat, s: Wire,
      r: Wire, open: bool)
    requires Direction(env, from, to, key, s, r)
    ensures Direction(env, from, to, key, SealedNext(env, from, key, s, open), r)
  {
    var v := SealedNext(env, from, key, s, open);
    assert v.gone[..r.inCounter] == s.gone[..r.inCounter];
    forall k | 0 <= k < |r.inQueue| ensures Unforged(key, v.frames, r.inQueue[k]) {
      UnforgedStays(key, s.frames, v.frames, r.inQueue[k]);
    }
  }

  /** A box opens only if it is the one sealed with the reader's own counter. */
  lemma {:induction false} OnlyTheNextOpens(env: Env, from: Compression, to: Compression, key: nat, s: Wire, r: Wire,
      data: Data)
    requires Direction(env, from, to, key, s, r) && Unforged(key, s.frames, data) && Unboxed(key, r, data).Some?
    ensures r.inCounter < |s.frames| && data.frame == s.frames[r.inCounter]
  {
    var i :| 0 <= i < |s.frames| && s.frames[i].box == data.frame.box;
    NonceInjective(i, r.inCounter);
  }

  lemma {:induction false} OpenedIsReadBack(env: Env, from: Compression, to: Compression, key: nat, s: Wire, r: Wire,
      data: Data)
    requires Lawful(env) && Agreed(from, to) && Direction(env, from, to, key, s, r) && Unforged(key, s.frames, data)
    requires Unboxed(key, r, data).Some?
    ensures r.inCounter < |s.gone|
    ensures ReadPlain(env, to, DecodeHeader(data.frame).value, Unboxed(key, r, data).value)
        == ReadBack(env, from, to, s.gone[r.inCounter])
  {
    OnlyTheNextOpens(env, from, to, key, s, r, data);
    SealThenOpen(env, from, to, key, r.inCounter, s.gone[r.inCounter]);
  }

  lemma ReadBacksSnoc(env: Env, from: Compression, to: Compression, texts: seq<string>, n: nat)
    requires n < |texts|
    ensures ReadBacks(env, from, to, texts[..n + 1]) == ReadBacks(env, from, to, texts[..n])
        + [ReadBack(env, from, to, texts[n])]
  {
  }

  lemma {:induction false} DecodingKeepsDirection(env: Env, from: Compression, to: Compression, key: nat, s: Wire,
      r: Wire)
    requires Lawful(env) && Agreed(from, to) && Direction(env, from, to, key, s, r)
    ensures Direction(env, from, to, key, s, DecodedNext(env, to, key, r))
  {
    if r.inQueue != [] {
      var data := r.inQueue[0];
      assert Unforged(key, s.frames, data);
      if Unboxed(key, r, data).Some? {
        OpenedIsReadBack(env, from, to, key, s, r, data);
        ReadBacksSnoc(env, from, to, s.gone, r.inCounter);
      }
    }
  }

  // ------------------------------------------------------------------ both directions, any history

  datatype World = World(near: Wire, far: Wire)

  datatype Action = Hand(text: string) | Seal(open: bool) | Deliver(data: Data) | Open
  datatype Step = Step(near: bool, action: Action)

  datatype Setup = Setup(env: Env, near: Compression, far: Compression, nearKey: nat, farKey: nat)

  function Act(env: Env, c: Compression, outKey: nat, inKey: nat, w: Wire, action: Action): Wire {
    match action
    case Hand(text) => Sent(w, text)
    case Seal(open) => SealedNext(env, c, outKey, w, open)
    case Deliver(data) => Arrived(w, data)
    case Open => DecodedNext(env, c, inKey, w)
  }

  /** The near end seals under `nearKey` and opens under `farKey`; the far end the other way round. */
  function Apply(u: Setup, w: World, step: Step): World {
    if step.near then w.(near := Act(u.env, u.near, u.nearKey, u.farKey, w.near, step.action))
    else w.(far := Act(u.env, u.far, u.farKey, u.nearKey, w.far, step.action))
  }

  /** The channel delivers anything it could have seen or made. */
  ghost predicate Possible(u: Setup, w: World, step: Step) {
    step.action.Deliver? ==>
      if step.near then Unforged(u.farKey, w.far.frames, step.action.data)
          else Unforged(u.nearKey, w.near.frames, step.action.data)
  }

  function Run(u: Setup, steps: seq<Step>): World {
    if steps == [] then World(FRESH, FRESH) else Apply(u, Run(u, steps[..|steps| - 1]), steps[|steps| - 1])
  }

  ghost predicate Channel(u: Setup, steps: seq<Step>) {
    forall k :: 0 <= k < |steps| ==> Possible(u, Run(u, steps[..k]), steps[k])
  }

  ghost predicate Sane(u: Setup) { Lawful(u.env) && Agreed(u.near, u.far) && u.nearKey != u.farKey }

  ghost predicate Inv(u: Setup, w: World) {
    && Direction(u.env, u.near, u.far, u.nearKey, w.near, w.far)
    && Direction(u.env, u.far, u.near, u.farKey, w.far, w.near)
  }

  /** Handing a text over and sealing leave the incoming direction alone; delivery and opening the outgoing one. */
  lemma {:induction false} ActKeeps(env: Env, a: Compression, b: Compression, outKey: nat, inKey: nat, w: Wire,
      other: Wire, action: Action)
    requires Lawful(env) && Agreed(a, b)
    requires Direction(env, a, b, outKey, w, other) && Direction(env, b, a, inKey, other, w)
    requires action.Deliver? ==> Unforged(inKey, other.frames, action.data)
    ensures Direction(env, a, b, outKey, Act(env, a, outKey, inKey, w, action), other)
    ensures Direction(env, b, a, inKey, other, Act(env, a, outKey, inKey, w, action))
  {
    match action
    case Hand(text) =>
    case Seal(open) => SendingKeepsDirection(env, a, b, outKey, w, other, open);
    case Deliver(data) =>
    case Open => DecodingKeepsDirection(env, b, a, inKey, other, w);
  }

  lemma {:induction false} InvAlways(u: Setup, steps: seq<Step>)
    requires Sane(u) && Channel(u, steps)
    ensures Inv(u, Run(u, steps))
  {
    if steps != [] {
      var n := |steps| - 1;
      var w, step := Run(u, steps[..n]), steps[n];
      forall k | 0 <= k < n
          ensures Possible(u, Run(u, steps[..n][..k]), steps[..n][k]) { assert steps[..n][..k] == steps[..k]; }
      InvAlways(u, steps[..n]);
      if step.near { ActKeeps(u.env, u.near, u.far, u.nearKey, u.farKey, w.near, w.far, step.action); }
      else { ActKeeps(u.env, u.far, u.near, u.farKey, u.nearKey, w.far, w.near, step.action); }
    }
  }

  // ------------------------------------------------------------------ theorems, told of the near end's frames

  /** The frames transmitted carry counters 0, 1, 2, ..., and no two transmitted frames share a nonce. */
  lemma {:induction false} NoncesNeverRepeat(u: Setup, steps: seq<Step>, i: nat, j: nat)
    requires Sane(u) && Channel(u, steps) && i < j < |Run(u, steps).near.frames|
    ensures var f := Run(u, steps).near.frames;
      && f[i].box.Sealed? && f[j].box.Sealed? && f[i].box.key == f[j].box.key == u.nearKey
      && f[i].box.nonce == NonceForCounter(i) && f[j].box.nonce == NonceForCounter(j)
          && f[i].box.nonce != f[j].box.nonce
  {
    InvAlways(u, steps);
    var w := Run(u, steps).near;
    assert w.frames[i] == SealText(u.env, u.near, u.nearKey, i, w.gone[i]);
    assert w.frames[j] == SealText(u.env, u.near, u.nearKey, j, w.gone[j]);
    if NonceForCounter(i) == NonceForCounter(j) { NonceInjective(i, j); }
  }

  /**
   * Prefix property: whatever the channel drops, repeats, reorders, alters or injects, what the far
   * end has opened is exactly the first texts transmitted, each read back, in order.
   */
  lemma {:induction false} OpenedIsPrefix(u: Setup, steps: seq<Step>)
    requires Sane(u) && Channel(u, steps)
    ensures
      var w := Run(u, steps);
      w.far.inCounter <= |w.near.gone| && w.far.opens == ReadBacks(u.env, u.near, u.far, w.near.gone[..w.far.inCounter])
  {
    InvAlways(u, steps);
  }

  /** The texts among the results, as the application receives them. */
  function Texts(results: seq<Option<string>>): seq<string> {
    if results == [] then []
    else Texts(results[..|results| - 1]) + if results[|results| - 1].Some? then [results[|results| - 1].value] else []
  }

  lemma {:induction false} TextsOfReadBacks(env: Env, from: Compression, to: Compression, texts: seq<string>)
    ensures |Texts(ReadBacks(env, from, to, texts))| <= |texts|
    ensures Texts(ReadBacks(env, from, to, texts)) == texts <==> forall i :: 0 <= i < |texts|
                                                                             ==> ReadBack(env, from, to, texts[i])
                                                                                 == Some(texts[i])
  {
    if texts != [] {
      var n := |texts| - 1;
      var init := texts[..n];
      TextsOfReadBacks(env, from, to, init);
      var all := ReadBacks(env, from, to, texts);
      assert all[..n] == ReadBacks(env, from, to, init);
      assert texts == init + [texts[n]];
      var last := ReadBack(env, from, to, texts[n]);
      if Texts(all) == texts {
        assert |Texts(all[..n])| == n && Texts(all)[..n] == init && last.Some? && Texts(all)[n] == last.value;
        forall i | 0 <= i < |texts| ensures ReadBack(env, from, to, texts[i]) == Some(texts[i]) {
          if i < n { assert init[i] == texts[i]; }
        }
      }
      if forall i :: 0 <= i < |texts| ==> ReadBack(env, from, to, texts[i]) == Some(texts[i]) {
        forall i | 0 <= i < n ensures ReadBack(env, from, to, init[i]) == Some(init[i]) { assert init[i] == texts[i]; }
      }
    }
  }

  /** The application receives exactly the first texts transmitted if and only if each of those reads back as it was. */
  lemma {:induction false} ReceivedIsPrefix(u: Setup, steps: seq<Step>)
    requires Sane(u) && Channel(u, steps)
    ensures
      var w := Run(u, steps);
      && w.far.inCounter <= |w.near.gone|
      && (Texts(w.far.opens) == w.near.gone[..w.far.inCounter] <==>
            forall i :: 0 <= i < w.far.inCounter
                        ==> ReadBack(u.env, u.near, u.far, w.near.gone[i]) == Some(w.near.gone[i]))
  {
    OpenedIsPrefix(u, steps);
    var w := Run(u, steps);
    var read := w.near.gone[..w.far.inCounter];
    TextsOfReadBacks(u.env, u.near, u.far, read);
    forall i | 0 <= i < |read| ensures read[i] == w.near.gone[i] { }
  }

  /**
   * The texts handed over are, in order, the transmitted ones and those still queued, unless the socket has
   * refused one.
   */
  lemma {:induction false} NothingSkipped(u: Setup, steps: seq<Step>)
    ensures Run(u, steps).near.refused == 0
        ==> Run(u, steps).near.handed == Run(u, steps).near.gone + Run(u, steps).near.outQueue
  {
    if steps != [] {
      var n := |steps| - 1;
      var w := Run(u, steps[..n]).near;
      NothingSkipped(u, steps[..n]);
      if steps[n].near {
        match steps[n].action
        case Hand(text) => Assoc(w.gone, w.outQueue, [text]);
        case Seal(open) =>
          if w.outQueue != [] {
            assert w.outQueue == [w.outQueue[0]] + w.outQueue[1..];
            Assoc(w.gone, [w.outQueue[0]], w.outQueue[1..]);
          }
        case _ =>
      }
    }
  }

  // ------------------------------------------------------------------ what the cipher was asked to do

  /** Step `i` has the near end's cipher make a box. */
  ghost predicate Seals(u: Setup, steps: seq<Step>, i: nat)
    requires i < |steps|
  {
    var w := Run(u, steps[..i]).near;
    steps[i].near && steps[i].action.Seal? && w.outQueue != [] && NextCounter(w.outCounter).Some?
  }

  /** ... and the socket, looked at afterwards, is closed: the counter stays. */
  ghost predicate Refuses(u: Setup, steps: seq<Step>, i: nat)
    requires i < |steps|
  {
    Seals(u, steps, i) && !steps[i].action.open
  }

  /** Once a box has been refused, no other is made. */
  ghost predicate RefusalIsLast(u: Setup, steps: seq<Step>) {
    forall i, j :: 0 <= i < j < |steps| && Refuses(u, steps, i) ==> !Seals(u, steps, j)
  }

  ghost predicate NoneRefused(u: Setup, steps: seq<Step>) { forall i :: 0 <= i < |steps| ==> !Refuses(u, steps, i) }

  ghost predicate Counted(boxes: seq<Box>) {
    forall k :: 0 <= k < |boxes| ==> boxes[k].Sealed? && boxes[k].nonce == NonceForCounter(k)
  }

  ghost predicate Reused(boxes: seq<Box>) {
    exists i, j :: 0 <= i < j < |boxes| && boxes[i].Sealed? && boxes[j].Sealed? && boxes[i].nonce == boxes[j].nonce
  }

  ghost predicate Numbered(u: Setup, steps: seq<Step>) {
    var w := Run(u, steps).near;
    && w.outCounter <= LAST_COUNTER
    && (forall k :: 0 <= k < |w.sealed| ==> w.sealed[k].Sealed? && w.sealed[k].key == u.nearKey)
    && (RefusalIsLast(u, steps) ==>
          Counted(w.sealed) && |w.sealed| == w.outCounter + (if NoneRefused(u, steps) then 0 else 1)
          && |w.sealed| <= LAST_COUNTER)
    && (!RefusalIsLast(u, steps) ==> Reused(w.sealed))
  }

  /** What the first `n` steps do is what they do in the whole run. */
  lemma {:induction false} InitSeals(u: Setup, steps: seq<Step>)
    requires steps != []
    ensures var init := steps[..|steps| - 1];
      forall i :: 0 <= i < |init| ==> Seals(u, init, i) == Seals(u, steps, i)
                                      && Refuses(u, init, i) == Refuses(u, steps, i)
  {
    var n := |steps| - 1;
    forall i | 0 <= i < n
      ensures Seals(u, steps[..n], i) == Seals(u, steps, i) && Refuses(u, steps[..n], i) == Refuses(u, steps, i)
    {
      assert steps[..n][..i] == steps[..i];
    }
  }

  lemma {:induction false} SealedAreNumbered(u: Setup, steps: seq<Step>)
    ensures Numbered(u, steps)
  {
    if steps != [] {
      var n := |steps| - 1;
      SealedAreNumbered(u, steps[..n]);
      if Seals(u, steps, n) { SealIsNumbered(u, steps); } else { OtherIsNumbered(u, steps); }
    }
  }

  lemma {:induction false} OtherKeeps(u: Setup, w: World, step: Step)
    ensures
      var a, b := w.near, Apply(u, w, step).near;
      !(step.near && step.action.Seal? && a.outQueue != [] && NextCounter(a.outCounter).Some?) ==>
        b.sealed == a.sealed && b.outCounter == a.outCounter
  {
  }

  lemma {:induction false} OtherIsNumbered(u: Setup, steps: seq<Step>)
    requires steps != [] && !Seals(u, steps, |steps| - 1) && Numbered(u, steps[..|steps| - 1])
    ensures Numbered(u, steps)
  {
    InitSeals(u, steps);
    OtherKeeps(u, Run(u, steps[..|steps| - 1]), steps[|steps| - 1]);
    assert NoneRefused(u, steps) == NoneRefused(u, steps[..|steps| - 1]);
    assert RefusalIsLast(u, steps) == RefusalIsLast(u, steps[..|steps| - 1]);
  }

  lemma {:induction false} SealIsNumbered(u: Setup, steps: seq<Step>)
    requires steps != [] && Seals(u, steps, |steps| - 1) && Numbered(u, steps[..|steps| - 1])
    ensures Numbered(u, steps)
  {
    var n := |steps| - 1;
    var init := steps[..n];
    var w, v := Run(u, init).near, Run(u, steps).near;
    InitSeals(u, steps);
    var box := SealText(u.env, u.near, u.nearKey, w.outCounter, w.outQueue[0]).box;
    assert v.sealed == w.sealed + [box];
    if !RefusalIsLast(u, init) {
      assert !RefusalIsLast(u, steps);
      ReusedStays(w.sealed, box);
    } else if !NoneRefused(u, init) {
      assert !RefusalIsLast(u, steps) by {
        var i :| 0 <= i < n && Refuses(u, init, i);
        assert Refuses(u, steps, i) && Seals(u, steps, n);
      }
      assert v.sealed[w.outCounter] == w.sealed[w.outCounter] && v.sealed[|w.sealed|] == box;
    } else {
      assert RefusalIsLast(u, steps);
      assert Refuses(u, steps, n) <==> !steps[n].action.open;
    }
  }

  lemma ReusedStays(boxes: seq<Box>, box: Box)
    requires Reused(boxes)
    ensures Reused(boxes + [box])
  {
    var i, j :| 0 <= i < j < |boxes| && boxes[i].Sealed? && boxes[j].Sealed? && boxes[i].nonce == boxes[j].nonce;
    var more := boxes + [box];
    assert more[i] == boxes[i] && more[j] == boxes[j];
  }

  /**
   * A nonce must not serve two invocations of the encryption function (section 8 of NIST SP 800-38D).
   * Over any run the boxes made under one end's key have distinct nonces if and only if no box is
   * made after one whose frame the socket refused: the counter has stayed, and the next box is sealed
   * under it again.
   */
  lemma {:induction false} SealedNoncesAreDistinct(u: Setup, steps: seq<Step>)
    ensures !Reused(Run(u, steps).near.sealed) <==> RefusalIsLast(u, steps)
    ensures forall b :: b in Run(u, steps).near.sealed ==> b.Sealed? && b.key == u.nearKey
  {
    SealedAreNumbered(u, steps);
    var s := Run(u, steps).near.sealed;
    if RefusalIsLast(u, steps) {
      forall i, j | 0 <= i < j < |s| ensures s[i].nonce != s[j].nonce {
        if s[i].nonce == s[j].nonce { NonceInjective(i, j); }
      }
    }
  }

  /** Two texts queued on a socket that opens too late for the first: both are sealed under counter 0. */
  function QueuedOnAClosedSocket(a: string, b: string): seq<Step> {
    [Step(true, Hand(a)), Step(true, Hand(b)), Step(true, Seal(false)), Step(true, Seal(true))]
  }

  lemma {:induction false} NonceUsedTwice(u: Setup, a: string, b: string)
    ensures
      var s := Run(u, QueuedOnAClosedSocket(a, b)).near.sealed;
      && s == [SealText(u.env, u.near, u.nearKey, 0, a).box, SealText(u.env, u.near, u.nearKey, 0, b).box]
      && s[0].key == s[1].key && s[0].nonce == s[1].nonce
      && (Sane(u) && ReadBack(u.env, u.near, u.far, a) != ReadBack(u.env, u.near, u.far, b) ==> s[0] != s[1])
  {
    var steps := QueuedOnAClosedSocket(a, b);
    assert steps[..3][..2] == steps[..2] && steps[..2][..1] == steps[..1] && steps[..1][..0] == [];
    assert Run(u, steps[..1]).near == Sent(FRESH, a);
    assert Run(u, steps[..2]).near == Sent(Sent(FRESH, a), b);
    var w := Run(u, steps[..2]).near;
    assert w.outQueue == [a, b] && w.outQueue[1..] == [b];
    assert Run(u, steps[..3]).near == SealedNext(u.env, u.near, u.nearKey, w, false);
    if Sane(u) {
      SealThenOpen(u.env, u.near, u.far, u.nearKey, 0, a);
      SealThenOpen(u.env, u.near, u.far, u.nearKey, 0, b);
    }
  }

  /** Once a transmitted frame is lost to the reader, nothing opens any more: the reader waits for that frame alone. */
  lemma {:induction false} LostFrameStops(u: Setup, steps: seq<Step>, data: Data)
    requires Sane(u) && Channel(u, steps)
    requires Unforged(u.nearKey, Run(u, steps).near.frames, data)
    ensures
      var w := Run(u, steps);
      Unboxed(u.nearKey, w.far, data).Some? ==> w.far.inCounter < |w.near.frames|
                                                && data == Binary(w.near.frames[w.far.inCounter])
  {
    InvAlways(u, steps);
    var w := Run(u, steps);
    if Unboxed(u.nearKey, w.far, data).Some? { OnlyTheNextOpens(u.env, u.near, u.far, u.nearKey, w.near, w.far, data); }
  }
}
