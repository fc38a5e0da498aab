/**
 * The fatal streaming decoder a document's text comes out of: the UTF-8 decoder of section 8.1.1 of the
 * Encoding Standard, variable for variable, inside the decode call of its section 7.2; and the encoding of
 * section 3 of RFC 3629 that it undoes.
 */
module Utf8 {
  import opened Common
  import opened DocumentChunks

  /** A Unicode scalar value. */
  type Scalar = c: nat | c < 0xD800 || 0xE000 <= c < 0x110000

  const BYTE_ORDER_MARK: Scalar := 0xFEFF

  // ------------------------------------------------------------------ one byte after another

  datatype Variables = Variables(code: nat, needed: nat, seen: nat, lower: nat, upper: nat)

  /** A character has been begun by a lead byte and `seen` of the `needed` bytes after it. */
  predicate Begun(v: Variables) {
    if v.seen == 0 then
      match v.needed
      case 1 => 0x2 <= v.code < 0x20 && v.lower == 0x80 && v.upper == 0xBF
      case 2 => v.code < 0x10 && v.lower == (if v.code == 0x0 then 0xA0 else 0x80)
                && v.upper == (if v.code == 0xD then 0x9F else 0xBF)
      case 3 => v.code < 0x5 && v.lower == (if v.code == 0x0 then 0x90 else 0x80)
                && v.upper == (if v.code == 0x4 then 0x8F else 0xBF)
      case _ => false
    else
      && v.lower == 0x80 && v.upper == 0xBF
      && match (v.needed, v.seen)
         case (2, 1) => 0x20 <= v.code < 0x400 && !(0x360 <= v.code < 0x380)
         case (3, 1) => 0x10 <= v.code < 0x110
         case (3, 2) => 0x400 <= v.code < 0x4400
         case _ => false
  }

  const AT_START := Variables(0, 0, 0, 0x80, 0xBF)

  /** What the decoder's variables can be. */
  type State = v: Variables | v == AT_START || Begun(v) witness AT_START

  const IDLE: State := AT_START

  datatype Taken = Point(point: Scalar) | More(state: State) | Wrong(restored: bool)

  /** One byte. A byte that cannot continue the character begun is put back; one that can begin none is not. */
  function Take(s: State, b: byte): Taken {
    if s.needed == 0 then
      if b < 0x80 then Point(b)
      else if 0xC2 <= b < 0xE0 then More(Variables(b - 0xC0, 1, 0, 0x80, 0xBF))
      else if 0xE0 <= b < 0xF0 then
        More(Variables(b - 0xE0, 2, 0, if b == 0xE0 then 0xA0 else 0x80, if b == 0xED then 0x9F else 0xBF))
      else if 0xF0 <= b < 0xF5 then
        More(Variables(b - 0xF0, 3, 0, if b == 0xF0 then 0x90 else 0x80, if b == 0xF4 then 0x8F else 0xBF))
      else Wrong(false)
    else if b < s.lower || b > s.upper then Wrong(true)
    else
      var code := s.code * 64 + (b - 0x80);
      if s.seen + 1 == s.needed then Point(code) else More(Variables(code, s.needed, s.seen + 1, 0x80, 0xBF))
  }

  datatype Scan = Scanned(text: seq<Scalar>, state: State) | Stuck(rest: seq<byte>)

  function After(c: Scalar, r: Scan): Scan { if r.Scanned? then Scanned([c] + r.text, r.state) else r }

  /** Bytes read up to their end, or up to the first error: then what has not been read is left. */
  function Scanning(s: State, bytes: seq<byte>): Scan
    decreases bytes
  {
    if bytes == [] then Scanned([], s)
    else
      match Take(s, bytes[0])
      case Point(c) => After(c, Scanning(IDLE, bytes[1..]))
      case More(t) => Scanning(t, bytes[1..])
      case Wrong(restored) => Stuck(if restored then bytes else bytes[1..])
  }

  function Joined(a: Scan, b: seq<byte>): Scan {
    match a
    case Stuck(rest) => Stuck(rest + b)
    case Scanned(text, s) =>
      var r := Scanning(s, b);
      if r.Scanned? then Scanned(text + r.text, r.state) else r
  }

  /** Bytes may come in parts. */
  lemma {:induction false} ScanningJoins(s: State, a: seq<byte>, b: seq<byte>)
    ensures Scanning(s, a + b) == Joined(Scanning(s, a), b)
    decreases a
  {
    if a == [] {
      assert a + b == b;
      var r := Scanning(s, b);
      assert r.Scanned? ==> [] + r.text == r.text;
    } else {
      assert (a + b)[0] == a[0] && (a + b)[1..] == a[1..] + b;
      match Take(s, a[0])
      case Point(c) =>
        ScanningJoins(IDLE, a[1..], b);
        var r, t := Scanning(IDLE, a[1..]), Joined(Scanning(IDLE, a[1..]), b);
        if r.Scanned? && t.Scanned? { Assoc([c], r.text, Scanning(r.state, b).text); }
      case More(t) => ScanningJoins(t, a[1..], b);
      case Wrong(restored) =>
    }
  }

  // ------------------------------------------------------------------ what it undoes

  function Encode(c: Scalar): seq<byte> {
    if c < 0x80 then [c]
    else if c < 0x800 then [0xC0 + c / 64, 0x80 + c % 64]
    else if c < 0x10000 then [0xE0 + c / 64 / 64, 0x80 + c / 64 % 64, 0x80 + c % 64]
    else [0xF0 + c / 64 / 64 / 64, 0x80 + c / 64 / 64 % 64, 0x80 + c / 64 % 64, 0x80 + c % 64]
  }

  function EncodeAll(text: seq<Scalar>): seq<byte> {
    if text == [] then [] else Encode(text[0]) + EncodeAll(text[1..])
  }

  ghost predicate IsUtf8(bytes: seq<byte>) { exists text :: bytes == EncodeAll(text) }

  /** The bytes of the character begun. */
  function Held(s: State): seq<byte> {
    match (s.needed, s.seen)
    case (1, _) => [0xC0 + s.code]
    case (2, 0) => [0xE0 + s.code]
    case (2, _) => [0xE0 + s.code / 64, 0x80 + s.code % 64]
    case (3, 0) => [0xF0 + s.code]
    case (3, 1) => [0xF0 + s.code / 64, 0x80 + s.code % 64]
    case (3, _) => [0xF0 + s.code / 64 / 64, 0x80 + s.code / 64 % 64, 0x80 + s.code % 64]
    case _ => []
  }

  ghost predicate Holds(s: State, b: byte) {
    match Take(s, b)
    case Point(c) => Held(s) + [b] == Encode(c)
    case More(u) => Held(s) + [b] == Held(u)
    case Wrong(_) => true
  }

  lemma EndHolds(s: State, b: byte)
    requires s.seen + 1 == s.needed
    ensures Holds(s, b)
  {
    var code := s.code * 64 + (b - 0x80);
    if s.lower <= b <= s.upper { assert code / 64 == s.code && code % 64 == b - 0x80; }
  }

  lemma MiddleHolds(s: State, b: byte)
    requires s.seen + 1 < s.needed
    ensures Holds(s, b)
  {
    var code := s.code * 64 + (b - 0x80);
    if s.lower <= b <= s.upper { assert code / 64 == s.code && code % 64 == b - 0x80; }
  }

  lemma TakeHolds(s: State, b: byte)
    ensures Holds(s, b)
  {
    if s.needed == 0 { assert [] + [b] == [b]; }
    else if s.seen + 1 == s.needed { EndHolds(s, b); }
    else { MiddleHolds(s, b); }
  }

  lemma EncodeFirst(c: Scalar, text: seq<Scalar>)
    ensures EncodeAll([c] + text) == Encode(c) + EncodeAll(text)
  {
    assert ([c] + text)[1..] == text;
  }

  /** Nothing is lost: the bytes read are the text's encoding and those of the character begun. */
  lemma {:induction false} ScanningHolds(s: State, bytes: seq<byte>)
    requires Scanning(s, bytes).Scanned?
    ensures var r := Scanning(s, bytes); Held(s) + bytes == EncodeAll(r.text) + Held(r.state)
    decreases bytes
  {
    if bytes == [] {
      assert Held(s) + bytes == Held(s) && [] + Held(s) == Held(s);
    } else {
      TakeHolds(s, bytes[0]);
      assert bytes == [bytes[0]] + bytes[1..];
      Assoc(Held(s), [bytes[0]], bytes[1..]);
      match Take(s, bytes[0])
      case Point(c) =>
        ScanningHolds(IDLE, bytes[1..]);
        var r := Scanning(IDLE, bytes[1..]);
        EncodeFirst(c, r.text);
        assert Held(IDLE) + bytes[1..] == bytes[1..];
        Assoc(Encode(c), EncodeAll(r.text), Held(r.state));
      case More(u) => ScanningHolds(u, bytes[1..]);
    }
  }

  /** A byte that goes on with a character. */
  lemma ScanningMore(s: State, b: byte, rest: seq<byte>)
    requires Take(s, b).More?
    ensures Scanning(s, [b] + rest) == Scanning(Take(s, b).state, rest)
  {
    assert ([b] + rest)[1..] == rest;
  }

  lemma ScanningPoint(s: State, b: byte, rest: seq<byte>)
    requires Take(s, b).Point?
    ensures Scanning(s, [b] + rest) == After(Take(s, b).point, Scanning(IDLE, rest))
  {
    assert ([b] + rest)[1..] == rest;
  }

  lemma ScanningTwo(c: Scalar, rest: seq<byte>)
    requires 0x80 <= c < 0x800
    ensures Scanning(IDLE, Encode(c) + rest) == After(c, Scanning(IDLE, rest))
  {
    var e := Encode(c);
    assert e + rest == [e[0]] + ([e[1]] + rest);
    ScanningMore(IDLE, e[0], [e[1]] + rest);
    ScanningPoint(Take(IDLE, e[0]).state, e[1], rest);
  }

  lemma ScanningThree(c: Scalar, rest: seq<byte>)
    requires 0x800 <= c < 0x10000
    ensures Scanning(IDLE, Encode(c) + rest) == After(c, Scanning(IDLE, rest))
  {
    var e := Encode(c);
    var s: State := Variables(c / 64 / 64, 2, 0, if c < 0x1000 then 0xA0 else 0x80,
        if c / 64 / 64 == 0xD then 0x9F else 0xBF);
    var t: State := Variables(c / 64, 2, 1, 0x80, 0xBF);
    assert e + rest == [e[0]] + ([e[1]] + ([e[2]] + rest));
    ScanningMore(IDLE, e[0], [e[1]] + ([e[2]] + rest));
    assert Take(s, e[1]) == More(t);
    ScanningMore(s, e[1], [e[2]] + rest);
    ScanningPoint(t, e[2], rest);
  }

  lemma ScanningFour(c: Scalar, rest: seq<byte>)
    requires 0x10000 <= c
    ensures Scanning(IDLE, Encode(c) + rest) == After(c, Scanning(IDLE, rest))
  {
    var e := Encode(c);
    var s: State := Variables(c / 64 / 64 / 64, 3, 0, if c < 0x40000 then 0x90 else 0x80,
        if c / 64 / 64 / 64 == 0x4 then 0x8F else 0xBF);
    var t: State := Variables(c / 64 / 64, 3, 1, 0x80, 0xBF);
    var u: State := Variables(c / 64, 3, 2, 0x80, 0xBF);
    assert e + rest == [e[0]] + ([e[1]] + ([e[2]] + ([e[3]] + rest)));
    ScanningMore(IDLE, e[0], [e[1]] + ([e[2]] + ([e[3]] + rest)));
    assert Take(s, e[1]) == More(t);
    ScanningMore(s, e[1], [e[2]] + ([e[3]] + rest));
    assert Take(t, e[2]) == More(u);
    ScanningMore(t, e[2], [e[3]] + rest);
    ScanningPoint(u, e[3], rest);
  }

  /** Each character is read back from its bytes. */
  lemma ScanningOne(c: Scalar, rest: seq<byte>)
    ensures Scanning(IDLE, Encode(c) + rest) == After(c, Scanning(IDLE, rest))
  {
    if c < 0x80 { ScanningPoint(IDLE, c, rest); }
    else if c < 0x800 { ScanningTwo(c, rest); }
    else if c < 0x10000 { ScanningThree(c, rest); }
    else { ScanningFour(c, rest); }
  }

  lemma {:induction false} ScanningAll(text: seq<Scalar>)
    ensures Scanning(IDLE, EncodeAll(text)) == Scanned(text, IDLE)
  {
    if text != [] {
      ScanningAll(text[1..]);
      ScanningOne(text[0], EncodeAll(text[1..]));
      assert text == [text[0]] + text[1..];
    }
  }

  /** The decoder reads exactly the encodings, and each as the text that it encodes. */
  lemma {:induction false} ReadsItsEncoding(bytes: seq<byte>, text: seq<Scalar>)
    ensures Scanning(IDLE, bytes) == Scanned(text, IDLE) <==> bytes == EncodeAll(text)
  {
    if Scanning(IDLE, bytes) == Scanned(text, IDLE) {
      ScanningHolds(IDLE, bytes);
      assert Held(IDLE) + bytes == bytes && EncodeAll(text) + Held(IDLE) == EncodeAll(text);
    }
    ScanningAll(text);
  }

  // ------------------------------------------------------------------ the decode call

  /** `queue` holds bytes that a call that failed has left unread. */
  datatype Decoder = Decoder(state: State, queue: seq<byte>, markSeen: bool)

  const FRESH := Decoder(IDLE, [], false)

  function Unmarked(markSeen: bool, text: seq<Scalar>): seq<Scalar> {
    if !markSeen && text != [] && text[0] == BYTE_ORDER_MARK then text[1..] else text
  }

  datatype Decoded = Decoded(decoder: Decoder, text: Option<seq<Scalar>>)

  /**
   * A call that streams, or, if `last`, one that does not: it ends the stream, so the next call would start
   * afresh. A call that fails puts out nothing; what it has read is gone, what it has not stays queued.
   */
  function Decode(d: Decoder, bytes: seq<byte>, last: bool): Decoded {
    match Scanning(d.state, d.queue + bytes)
    case Stuck(rest) => Decoded(if last then FRESH else Decoder(IDLE, rest, d.markSeen), None)
    case Scanned(text, s) =>
      if last then Decoded(FRESH, if s == IDLE then Some(Unmarked(d.markSeen, text)) else None)
      else Decoded(Decoder(s, [], d.markSeen || text != []), Some(Unmarked(d.markSeen, text)))
  }
}
