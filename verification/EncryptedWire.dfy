/**
 * One end of an encrypted WebSocket. The cipher is ideal: a box opens only under the key, nonce
 * and header it was sealed with. Text encoding and compression are parameters with inverse laws.
 * A promise chain is a queue whose head is worked on.
 */
module EncryptedWire {
  import opened Common
  import opened DocumentChunks

  type Bytes = seq<byte>

  const LAST_COUNTER: nat := 0xffff_ffff
  const MAX_INFLATED: nat := 32 * 1024 * 1024

  datatype Box = Sealed(key: nat, nonce: Bytes, header: nat, plain: Bytes) | Junk(length: nat)
  datatype Frame = Frame(flags: nat, box: Box)

  /** What a socket hands over: bytes, or anything else. */
  datatype Data = NotBytes | Binary(frame: Frame)

  /**
   * Deflate and inflate with a preset dictionary, and the platform's own without; `whole` replaces unpaired
   * surrogates.
   */
  datatype Env = Env(
    whole: string -> string, encode: string -> Bytes, decode: Bytes -> string, strict: Bytes -> Option<string>,
        isJson: string -> bool,
    codecDeflate: (Bytes, Option<Bytes>) -> Bytes, codecInflate: (Bytes, Option<Bytes>) -> Option<Bytes>,
    platformDeflate: Bytes -> Option<Bytes>, platformInflate: Bytes -> Option<Bytes>)

  datatype Compression = Compression(codec: bool, dictionary: Option<Bytes>)

  // ------------------------------------------------------------------ the envelope

  function NextCounter(counter: nat): Option<nat> { if counter >= LAST_COUNTER then None else Some(counter + 1) }

  /** Eight zero bytes, then the counter's low four, most significant first. */
  function NonceForCounter(counter: nat): (nonce: Bytes)
    ensures |nonce| == 12
  {
    [0, 0, 0, 0, 0, 0, 0, 0]
    + [counter / 0x100_0000 % 256, counter / 0x1_0000 % 256, counter / 0x100 % 256, counter % 256]
  }

  lemma NonceBytes(counter: nat)
    requires counter <= LAST_COUNTER
    ensures var n := NonceForCounter(counter);
      && (forall i :: 0 <= i < 8 ==> n[i] == 0)
      && counter == 0x100_0000 * n[8] as int + 0x1_0000 * n[9] as int + 0x100 * n[10] as int + n[11] as int
  {
    assert counter / 0x100_0000 < 256;
    assert counter / 0x1_0000 == 256 * (counter / 0x100_0000) + counter / 0x1_0000 % 256;
    assert counter / 0x100 == 256 * (counter / 0x1_0000) + counter / 0x100 % 256;
    assert counter == 256 * (counter / 0x100) + counter % 256;
  }

  /** No two counters share a nonce. */
  lemma {:induction false} NonceInjective(a: nat, b: nat)
    requires a <= LAST_COUNTER && b <= LAST_COUNTER && NonceForCounter(a) == NonceForCounter(b)
    ensures a == b
  {
    NonceBytes(a);
    NonceBytes(b);
  }

  function CompressionFloor(dictionary: bool): nat { if dictionary then 64 else 256 }

  predicate ShouldSendCompressed(plain: nat, compressed: nat, dictionary: bool) {
    plain >= CompressionFloor(dictionary) && plain - compressed >= 32 && 10 * (plain - compressed) >= plain
  }

  datatype Header = Header(compressed: bool, dictionary: bool)

  function EncodeHeader(h: Header): nat
  {
    (if h.compressed then 1 else 0) + if h.compressed && h.dictionary then 2 else 0
  }

  function DecodeHeader(f: Frame): Option<Header> {
    if f.box.Junk? && f.box.length < 16 then None
    else if f.flags > 3 || f.flags == 2 then None
    else Some(Header(f.flags % 2 == 1, f.flags == 3))
  }

  function OpenBox(key: nat, nonce: Bytes, header: nat, box: Box): Option<Bytes> {
    if box.Sealed? && box.key == key && box.nonce == nonce && box.header == header then Some(box.plain) else None
  }

  // ------------------------------------------------------------------ what one end does

  /**
   * `handed`, `gone`, `refused` and `sealed` are history: texts handed over, texts transmitted, texts
   * given up, and every box the cipher was asked to make, whether or not its frame left.
   */
  datatype Wire = Wire(
    outCounter: nat, inCounter: nat, outQueue: seq<string>, inQueue: seq<Data>,
    handed: seq<string>, gone: seq<string>, frames: seq<Frame>, refused: nat, sealed: seq<Box>,
    opens: seq<Option<string>>, closes: seq<nat>)

  const FRESH := Wire(0, 0, [], [], [], [], [], 0, [], [], [])

  function Candidate(env: Env, c: Compression, raw: Bytes): Option<Bytes> {
    if c.codec then
      if |raw| >= CompressionFloor(c.dictionary.Some?) then Some(env.codecDeflate(raw, c.dictionary)) else None
    else if |raw| < CompressionFloor(false) then None
    else env.platformDeflate(raw)
  }

  predicate Compresses(env: Env, c: Compression, raw: Bytes) {
    var candidate := Candidate(env, c, raw);
    candidate.Some? && ShouldSendCompressed(|raw|, |candidate.value|, c.dictionary.Some?)
  }

  function SealText(env: Env, c: Compression, key: nat, counter: nat, text: string): Frame {
    var raw := env.encode(text);
    var compressed := Compresses(env, c, raw);
    var header := EncodeHeader(Header(compressed, c.dictionary.Some?));
    Frame(header, Sealed(key, NonceForCounter(counter), header, if compressed then Candidate(env, c, raw).value
        else raw))
  }

  function ReadPlain(env: Env, c: Compression, h: Header, plain: Bytes): Option<string> {
    if !h.compressed then Some(env.decode(plain))
    else if h.dictionary then
      var raw := if c.codec && c.dictionary.Some? then env.codecInflate(plain, c.dictionary) else None;
      var text := if raw.Some? then env.strict(raw.value) else None;
      if text.Some? && env.isJson(text.value) then text else None
    else
      var raw := if c.codec then env.codecInflate(plain, None) else env.platformInflate(plain);
      if raw.Some? then Some(env.decode(raw.value)) else None
  }

  function Sent(w: Wire, text: string): Wire { w.(outQueue := w.outQueue + [text], handed := w.handed + [text]) }

  /** The head of the out queue is sealed; `open` is what the socket says when it is done. */
  function SealedNext(env: Env, c: Compression, key: nat, w: Wire, open: bool): Wire {
    if w.outQueue == [] then w
    else
      var text, rest := w.outQueue[0], w.(outQueue := w.outQueue[1..]);
      if NextCounter(w.outCounter).None? then rest.(closes := w.closes + [4002], refused := w.refused + 1)
      else
        var frame := SealText(env, c, key, w.outCounter, text);
        var made := rest.(sealed := w.sealed + [frame.box]);
        if !open then made.(refused := w.refused + 1)
        else made.(frames := w.frames + [frame], gone := w.gone + [text], outCounter := NextCounter(w.outCounter).value)
  }

  function Arrived(w: Wire, data: Data): Wire { w.(inQueue := w.inQueue + [data]) }

  /** What the frame's box holds, if it is the one expected next. */
  function Unboxed(key: nat, w: Wire, data: Data): Option<Bytes> {
    if data.NotBytes? || DecodeHeader(data.frame).None? || NextCounter(w.inCounter).None? then None
    else OpenBox(key, NonceForCounter(w.inCounter), data.frame.flags, data.frame.box)
  }

  function DecodedNext(env: Env, c: Compression, key: nat, w: Wire): Wire {
    if w.inQueue == [] then w
    else
      var data, rest := w.inQueue[0], w.(inQueue := w.inQueue[1..]);
      var plain := Unboxed(key, w, data);
      if plain.None? then rest
      else
        var h := DecodeHeader(data.frame).value;
        var text := ReadPlain(env, c, h, plain.value);
        rest.(inCounter := w.inCounter + 1, opens := w.opens + [text],
              closes := if h.compressed && h.dictionary && text.None? then w.closes + [4003] else w.closes)
  }

  // ------------------------------------------------------------------ as the client does it

  class ClientWire {
    var outCounter: nat
    var inCounter: nat
    var outTail: seq<string>
    var inTail: seq<Data>
    var frames: seq<Frame>
    var closes: seq<nat>
    ghost var log: Wire
    const env: Env
    const compression: Compression
    const toClient: nat
    const toServer: nat

    /** The log agrees with the fields; it adds what was handed over, refused and opened. */
    ghost predicate Valid()
      reads this
    {
      && log.outCounter == outCounter && log.inCounter == inCounter && log.outQueue == outTail && log.inQueue == inTail
      && log.frames == frames && log.closes == closes
    }

    constructor (env: Env, toClient: nat, toServer: nat, codec: bool, dictionary: Option<Bytes>)
      ensures Valid() && log == FRESH
      ensures compression == Compression(codec, if codec then dictionary else None)
    {
      this.env, this.toClient, this.toServer := env, toClient, toServer;
      compression := Compression(codec, if codec then dictionary else None);
      outCounter, inCounter, outTail, inTail, frames, closes, log := 0, 0, [], [], [], [], FRESH;
    }

    method Send(text: string)
      requires Valid()
      modifies this
      ensures Valid() && log == Sent(old(log), text)
    {
      outTail := outTail + [text];
      log := Sent(log, text);
    }

    method SealAndSend(socketOpen: bool)
      requires Valid()
      modifies this
      ensures Valid() && log == SealedNext(env, compression, toServer, old(log), socketOpen)
    {
      log := SealedNext(env, compression, toServer, log, socketOpen);
      if |outTail| == 0 { return; }
      var text := outTail[0];
      outTail := outTail[1..];
      var counter := outCounter;
      var next := NextCounter(counter);
      if next.None? { closes := closes + [4002]; return; }
      var raw := env.encode(text);
      var candidate := Candidate(env, compression, raw);
      var withDictionary := compression.dictionary.Some?;
      var compressed := candidate.Some? && ShouldSendCompressed(|raw|, |candidate.value|, withDictionary);
      var header := EncodeHeader(Header(compressed, withDictionary));
      var frame := Frame(header, Sealed(toServer, NonceForCounter(counter), header, if compressed then candidate.value
          else raw));
      if !socketOpen { return; }
      frames := frames + [frame];
      outCounter := next.value;
    }

    method Open(data: Data)
      requires Valid()
      modifies this
      ensures Valid() && log == Arrived(old(log), data)
    {
      inTail := inTail + [data];
      log := Arrived(log, data);
    }

    /** The result that the head of the in queue resolves to. */
    method Decode() returns (text: Option<string>)
      requires Valid() && inTail != []
      modifies this
      ensures Valid() && log == DecodedNext(env, compression, toClient, old(log))
      ensures if log.opens == old(log).opens then text.None? else log.opens == old(log).opens + [text]
    {
      var before := inCounter;
      ghost var was := log;
      log := DecodedNext(env, compression, toClient, log);
      var data := inTail[0];
      inTail := inTail[1..];
      if data.NotBytes? { return None; }
      var header := DecodeHeader(data.frame);
      if header.None? { return None; }
      var next := NextCounter(inCounter);
      if next.None? { return None; }
      var plain := OpenBox(toClient, NonceForCounter(inCounter), data.frame.flags, data.frame.box);
      if plain.None? { return None; }
      inCounter := next.value;
      text := ReadPlain(env, compression, header.value, plain.value);
      if header.value.compressed && header.value.dictionary && text.None? { closes := closes + [4003]; }
    }
  }
}
