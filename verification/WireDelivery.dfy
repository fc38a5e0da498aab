/**
 * What sealing and opening bring about: nothing but the awaited frame opens, and over a channel that keeps order all
 * do.
 */
module WireDelivery {
  import opened Common
  import opened EncryptedWire
  import opened WirePrefix

  // ------------------------------------------------------------------ one frame

  /** The reader has before it the frame that was sealed with its own counter. */
  predicate Awaited(s: Wire, r: Wire) {
    r.inQueue != [] && r.inCounter < |s.frames| && r.inQueue[0] == Binary(s.frames[r.inCounter])
  }

  /** A text sealed with a dictionary that cannot be read back. */
  predicate Unreadable(env: Env, from: Compression, to: Compression, text: string) {
    Compresses(env, from, env.encode(text)) && from.dictionary.Some? && ReadBack(env, from, to, text).None?
  }

  /** The deflated text, if there is one: with the codec and its dictionary, or else the platform's own. */
  function Deflated(env: Env, c: Compression, raw: Bytes): Option<Bytes> {
    if c.codec then Some(env.codecDeflate(raw, c.dictionary)) else env.platformDeflate(raw)
  }

  /** What compressing must save: 32 bytes, and a tenth of a text that is long enough. */
  predicate Pays(raw: nat, deflated: nat, dictionary: bool) {
    raw >= (if dictionary then 64 else 256) && deflated + 32 <= raw && raw <= 10 * (raw - deflated)
  }

  /** A text is sent compressed exactly if that pays, and its frame says so and says whether the dictionary was used. */
  lemma SealedIs(env: Env, c: Compression, key: nat, counter: nat, text: string)
    requires c.dictionary.Some? ==> c.codec
    ensures
      var raw, f := env.encode(text), SealText(env, c, key, counter, text);
      var deflated := Deflated(env, c, raw);
      var pays := deflated.Some? && Pays(|raw|, |deflated.value|, c.dictionary.Some?);
      && f.flags == (if !pays then 0 else if c.dictionary.None? then 1 else 3)
      && f.box == Sealed(key, NonceForCounter(counter), f.flags, if pays then deflated.value else raw)
  {
  }

  /** What cannot be a frame is dropped: no bytes, too short for a box, or a header that is never written. */
  lemma OddFrames(env: Env, c: Compression, key: nat, w: Wire)
    requires w.inQueue != []
    requires match w.inQueue[0]
             case NotBytes => true
             case Binary(f) => f.flags !in {0, 1, 3} || (f.box.Junk? && f.box.length < 16)
    ensures DecodedNext(env, c, key, w) == w.(inQueue := w.inQueue[1..])
  {
  }

  /**
   * The head of the queue opens exactly if it is the awaited frame: then the text is read back and the counter moves
   * on. Anything else is dropped and changes nothing.
   */
  lemma {:induction false} OpenOutcome(env: Env, from: Compression, to: Compression, key: nat, s: Wire, r: Wire)
    requires Lawful(env) && Agreed(from, to) && Direction(env, from, to, key, s, r) && r.inQueue != []
    ensures
      var v, rest := DecodedNext(env, to, key, r), r.(inQueue := r.inQueue[1..]);
      if !Awaited(s, r) then v == rest
      else
        var text := s.gone[r.inCounter];
        v == rest.(inCounter := r.inCounter + 1, opens := r.opens + [ReadBack(env, from, to, text)],
                   closes := if Unreadable(env, from, to, text) then r.closes + [4003] else r.closes)
  {
    var data := r.inQueue[0];
    assert Unforged(key, s.frames, data);
    if Awaited(s, r) {
      SealThenOpen(env, from, to, key, r.inCounter, s.gone[r.inCounter]);
    } else if Unboxed(key, r, data).Some? {
      OnlyTheNextOpens(env, from, to, key, s, r, data);
    }
  }

  /** The head of the out queue is transmitted exactly if a counter is left and the socket is open. */
  lemma SealOutcome(env: Env, c: Compression, key: nat, w: Wire, open: bool)
    requires w.outQueue != []
    ensures
      var v, text := SealedNext(env, c, key, w, open), w.outQueue[0];
      && v.outQueue == w.outQueue[1..] && v.handed == w.handed && v.opens == w.opens && v.inCounter == w.inCounter
      && v.inQueue == w.inQueue
      && (v.gone != w.gone <==> open && w.outCounter < LAST_COUNTER)
      && (v.gone != w.gone ==>
            && v.gone == w.gone + [text] && v.frames == w.frames + [SealText(env, c, key, w.outCounter, text)]
            && v.outCounter == w.outCounter + 1 && v.refused == w.refused && v.closes == w.closes)
      && (v.gone == w.gone ==>
            && v.frames == w.frames && v.outCounter == w.outCounter && v.refused == w.refused + 1
            && v.closes == if w.outCounter < LAST_COUNTER then w.closes else w.closes + [4002])
  {
    assert |w.gone + [w.outQueue[0]]| == |w.gone| + 1;
  }

  // ------------------------------------------------------------------ all frames

  lemma {:induction false} PossibleKeeps(u: Setup, w: World, step: Step)
    requires Sane(u) && Inv(u, w) && Possible(u, w, step)
    ensures Inv(u, Apply(u, w, step))
  {
    if step.near { ActKeeps(u.env, u.near, u.far, u.nearKey, u.farKey, w.near, w.far, step.action); }
    else { ActKeeps(u.env, u.far, u.near, u.farKey, u.nearKey, w.far, w.near, step.action); }
  }

  /** The near end seals `n` texts on an open socket. */
  function Sealing(u: Setup, w: World, n: nat): World {
    if n == 0 then w else Apply(u, Sealing(u, w, n - 1), Step(true, Seal(true)))
  }

  /** The first `n` of the queued texts have been transmitted, and nothing else has happened. */
  ghost predicate Sends(w: World, v: World, n: nat) {
    && v.far == w.far && n <= |w.near.outQueue| && v.near.outQueue == w.near.outQueue[n..]
    && v.near.gone == w.near.gone + w.near.outQueue[..n]
    && v.near.outCounter == w.near.outCounter + n && v.near.refused == w.near.refused
  }

  lemma SendsOn(w: World, v: World, x: World, n: nat)
    requires Sends(w, v, n) && Sends(v, x, 1)
    ensures Sends(w, x, n + 1)
  {
    var q := w.near.outQueue;
    assert q[n..][1..] == q[n + 1..] && q[n..][..1] == [q[n]] && q[..n] + [q[n]] == q[..n + 1];
    Assoc(w.near.gone, q[..n], [q[n]]);
  }

  lemma {:induction false} SealOne(u: Setup, w: World)
    requires w.near.outQueue != [] && w.near.outCounter < LAST_COUNTER
    ensures Sends(w, Apply(u, w, Step(true, Seal(true))), 1)
  {
    SealOutcome(u.env, u.near, u.nearKey, w.near, true);
    assert w.near.outQueue[..1] == [w.near.outQueue[0]];
  }

  lemma {:induction false} SealingSends(u: Setup, w: World, n: nat)
    requires Sane(u) && Inv(u, w) && n <= |w.near.outQueue| && w.near.outCounter + n <= LAST_COUNTER
    ensures Inv(u, Sealing(u, w, n)) && Sends(w, Sealing(u, w, n), n)
  {
    if n == 0 {
      assert w.near.gone + w.near.outQueue[..0] == w.near.gone;
    } else {
      var v := Sealing(u, w, n - 1);
      SealingSends(u, w, n - 1);
      PossibleKeeps(u, v, Step(true, Seal(true)));
      SealOne(u, v);
      SendsOn(w, v, Sealing(u, w, n), n - 1);
    }
  }

  /** The channel hands over a frame, and the far end opens it. */
  function Carried(u: Setup, w: World, frame: Frame): World {
    Apply(u, Apply(u, w, Step(false, Deliver(Binary(frame)))), Step(false, Open))
  }

  /** So it does with every frame from the one awaited up to frame `n`. */
  function Carrying(u: Setup, w: World, n: nat): World {
    if n <= w.far.inCounter || n > |w.near.frames| then w else Carried(u, Carrying(u, w, n - 1), w.near.frames[n - 1])
  }

  ghost predicate Opens(w: World, v: World, n: nat) {
    v.near == w.near && v.far.inQueue == [] && v.far.inCounter == n
  }

  lemma {:induction false} CarriedOpens(u: Setup, w: World, n: nat)
    requires Sane(u) && Inv(u, w) && w.far.inQueue == [] && w.far.inCounter == n < |w.near.frames|
    ensures var v := Carried(u, w, w.near.frames[n]); Inv(u, v) && Opens(w, v, n + 1)
  {
    var data := Binary(w.near.frames[n]);
    var arrived := Apply(u, w, Step(false, Deliver(data)));
    PossibleKeeps(u, w, Step(false, Deliver(data)));
    PossibleKeeps(u, arrived, Step(false, Open));
    OpenOutcome(u.env, u.near, u.far, u.nearKey, arrived.near, arrived.far);
  }

  lemma {:induction false} CarryingOpens(u: Setup, w: World, n: nat)
    requires Sane(u) && Inv(u, w) && w.far.inQueue == [] && w.far.inCounter <= n <= |w.near.frames|
    ensures Inv(u, Carrying(u, w, n)) && Opens(w, Carrying(u, w, n), n)
  {
    if n > w.far.inCounter {
      CarryingOpens(u, w, n - 1);
      CarriedOpens(u, Carrying(u, w, n - 1), n - 1);
    }
  }

  /** What is queued is sealed on an open socket, and every frame not opened yet is delivered in order. */
  function AllDelivered(u: Setup, w: World): World {
    var sent := Sealing(u, w, |w.near.outQueue|);
    Carrying(u, sent, |sent.near.frames|)
  }

  /**
   * Everything arrives: whatever has happened before, as long as there are counters left, the far end then has opened
   * every text the near end has transmitted or had queued, each read back, in order.
   */
  lemma {:induction false} EverythingArrives(u: Setup, steps: seq<Step>)
    requires Sane(u) && Channel(u, steps) && Run(u, steps).far.inQueue == []
    requires Run(u, steps).near.outCounter + |Run(u, steps).near.outQueue| <= LAST_COUNTER
    ensures
      var w, v := Run(u, steps), AllDelivered(u, Run(u, steps));
      && v.near.outQueue == [] && v.near.gone == w.near.gone + w.near.outQueue
      && v.far.opens == ReadBacks(u.env, u.near, u.far, w.near.gone + w.near.outQueue)
  {
    InvAlways(u, steps);
    AllArrive(u, Run(u, steps));
  }

  lemma {:induction false} AllArrive(u: Setup, w: World)
    requires Sane(u) && Inv(u, w) && w.far.inQueue == [] && w.near.outCounter + |w.near.outQueue| <= LAST_COUNTER
    ensures
      var v := AllDelivered(u, w);
      && v.near.outQueue == [] && v.near.gone == w.near.gone + w.near.outQueue
      && v.far.opens == ReadBacks(u.env, u.near, u.far, w.near.gone + w.near.outQueue)
  {
    var q := w.near.outQueue;
    SealingSends(u, w, |q|);
    assert q[..|q|] == q && q[|q|..] == [];
    var sent := Sealing(u, w, |q|);
    CarryingOpens(u, sent, |sent.near.frames|);
    var v := AllDelivered(u, w);
    assert v.near.gone[..|v.near.gone|] == v.near.gone;
  }
}
