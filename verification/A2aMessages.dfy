/** What becomes of a message: when it is taken, what it leaves where, and what a failed one leaves. */
module A2aMessages {
  import opened Common
  import opened A2aRoot
  import opened A2aRuns
  import opened A2aSettlement

  // ------------------------------------------------------------------ asking

  function AgentSend(w: World, attempt: AttemptId, request: string, target: TabId, digest: string,
      role: Option<string>): Sending
    requires attempt in w.contexts
  {
    var c := w.contexts[attempt];
    Sending(Agent(attempt), SendKey(c.tab, attempt, request), c.tab, c.prompt, target, c.depth + 1, digest, role,
        Checked)
  }

  /** A send is under way exactly if it may be asked for; otherwise nothing has happened. */
  lemma SendStarts(w: World, id: nat, attempt: AttemptId, request: string, target: TabId, digest: string,
      role: Option<string>)
    ensures
      var v := ApplySend(w, StartSend(id, attempt, request, target, digest, role));
      if Asks(w, id, attempt, request, target)
      then v == w.(sends := w.sends[id := AgentSend(w, attempt, request, target, digest, role)],
                   overlapped := v.overlapped)
           && v.overlapped == w.overlapped + InFlightTwice(w, AgentSend(w, attempt, request, target, digest, role).key)
      else v == w
  {
  }

  /** The key, if a send of that key is under way already. */
  function InFlightTwice(w: World, key: ReceiptKey): set<ReceiptKey> {
    if exists i :: i in w.sends && w.sends[i].key == key then {key} else {}
  }

  /** So does a leaf's reply, to whoever sent the message it answers. */
  lemma LeafStarts(w: World, id: nat, p: PromptId)
    ensures
      var v := ApplySend(w, StartLeaf(id, p));
      if !Replies(w, id, p) then v == w
      else
        && id in v.sends && v == w.(sends := w.sends[id := v.sends[id]], overlapped := v.overlapped)
        && v.sends[id].kind.Leaf? && v.sends[id].stage == Checked && v.sends[id].prompt == p
        && v.sends[id].from == w.prompts[p].tab && Some(v.sends[id].target) == w.prompts[p].meta.value.from
        && v.sends[id].key == LeafKey(w.prompts[p].tab, p)
        && (forall m :: m in w.root.members && m.tab == w.prompts[p].tab && FindMember(w.root.members, m.tab) == Some(m)
                        ==> v.sends[id].depth == m.level + 1)
        && (!IsMember(w.root.members, w.prompts[p].tab) ==> v.sends[id].depth == w.prompts[p].meta.value.depth + 1)
  {
  }

  /** A prompt of a root that is over runs again for itself: it leaves the root, and nothing else changes. */
  lemma PromptLeaves(w: World, p: PromptId, attempt: AttemptId)
    ensures
      var v := ApplyQueue(w, Rehome(p, attempt));
      if !Waits(w, p, attempt) || (w.root.status != Completed && w.root.status != Stopped) then v == w
      else
        var before := w.prompts[p];
        v == w.(prompts := w.prompts[p := Prompt(before.tab, Dispatching, None, before.attempts + [attempt])],
                spent := w.spent + {attempt})
  {
  }

  /** A new record: pending, with its first prompt counted, nobody in it, and nothing sent, started or ended. */
  lemma NewRootIs(tab: TabId, prompt: PromptId, policy: Policy, limits: Limits)
    ensures
      var r := NewRoot(tab, prompt, policy, limits);
      && r.revision == 1 && r.status == Pending && r.usedMessages == 1 && r.members == [] && r.receipts == []
      && r.originTab == tab && r.originPrompt == prompt && r.policy == policy && r.limits == limits
      && r.startedAt.None? && r.endedAt.None? && r.endReason.None? && r.finish.None?
  {
  }

  /** A dispatch that was prepared takes its prompt if that still waits; either way it is over. */
  lemma DispatchFinishes(w: World, attempt: AttemptId)
    ensures
      var v := ApplyQueue(w, FinishDispatch(attempt));
      if attempt !in w.dispatches then v == w
      else
        var d := w.dispatches[attempt];
        && attempt !in v.dispatches && v == w.(dispatches := v.dispatches, prompts := v.prompts)
        && (forall a :: a in w.dispatches && a != attempt ==> a in v.dispatches && v.dispatches[a] == w.dispatches[a])
        && if d.prompt in w.prompts && w.prompts[d.prompt].status == Queued
           then
             var before := w.prompts[d.prompt];
             v.prompts == w.prompts[d.prompt := Prompt(before.tab, Dispatching, Some(d.meta),
                                                       before.attempts + [attempt])]
           else v.prompts == w.prompts
  {
  }

  /** A prompt dispatched outside the root waits no longer, and the root knows nothing of it. */
  lemma PlainDispatchIs(w: World, p: PromptId, attempt: AttemptId)
    ensures
      var v := ApplyQueue(w, PlainDispatch(p, attempt));
      if !Waits(w, p, attempt) then v == w
      else
        var before := w.prompts[p];
        v == w.(prompts := w.prompts[p := before.(status := Dispatching, attempts := before.attempts + [attempt])],
                spent := w.spent + {attempt})
  {
  }

  /** A restart forgets every context, dispatch, send and scan, and touches neither the record nor a queue. */
  lemma RestartForgets(w: World)
    ensures
      var v := Apply(w, OnRoot(Restart));
      && v.contexts == map[] && v.dispatches == map[] && v.sends == map[] && v.sweeps == map[]
      && v.root == w.root && v.prompts == w.prompts && v.leaves == w.leaves && v.log == w.log && v.spent == w.spent
      && v.issued == w.issued
  {
  }

  /** At most 200 receipts are kept, the last of them, and what is recorded is among those. */
  lemma ReceiptsAreCapped(rs: seq<Receipt>, receipt: Receipt)
    ensures
      var r := RecordReceipt(rs, receipt);
      && 1 <= |r| <= 200 && r[|r| - 1] == receipt
      && (|rs| < 200 ==> r == Filter(rs, (x: Receipt) => x.key != receipt.key) + [receipt])
  {
  }

  /** A context that is released is gone; nothing else is. */
  lemma ContextReleased(w: World, attempt: AttemptId)
    ensures
      var v := ApplyQueue(w, ReleaseContext(attempt));
      && attempt !in v.contexts && v == w.(contexts := v.contexts)
      && forall a :: a in w.contexts && a != attempt ==> a in v.contexts && v.contexts[a] == w.contexts[a]
  {
  }

  // ------------------------------------------------------------------ the budget

  /** There is a message left, and the root takes work; a leaf's reply needs it running and within the depth. */
  predicate Affordable(root: Root, s: Sending) {
    && root.usedMessages < root.limits.messages
    && if s.kind.Leaf? then root.status == Running && s.depth <= root.limits.depth
       else root.status == Pending || root.status == Running
  }

  /** A message is taken exactly if it can be afforded; otherwise the send is over. */
  lemma ReserveOutcome(w: World, id: nat)
    requires id in w.sends && w.sends[id].stage == Checked
    ensures
      var v := ApplySend(w, Reserve(id));
      if Affordable(w.root, w.sends[id])
      then v == w.(sends := w.sends[id := w.sends[id].(stage := Reserved)],
                   root := w.root.(usedMessages := w.root.usedMessages + 1, revision := w.root.revision + 1))
      else v == w.(sends := w.sends - {id})
  {
  }

  /** The refusals of a send say which condition failed, in this order. */
  lemma RefusalNames(root: Root)
    ensures
      var s := ReserveSection(root);
      && (s == Refused(RootEnding) <==> root.status == Ending)
      && (s == Refused(RootEnded) <==> Over(root))
      && (s == Refused(MessageLimit)
          <==> root.status in {Pending, Running} && root.usedMessages >= root.limits.messages)
      && (s.Written? <==> root.status in {Pending, Running} && root.usedMessages < root.limits.messages)
  {
  }

  // ------------------------------------------------------------------ a message that arrives

  /** From its reservation to its receipt. */
  function Delivered(w: World, id: nat, p: PromptId, thread: string): World {
    ApplySend(ApplySend(ApplySend(w, Reserve(id)), Enqueue(id, p, thread)), Commit(id))
  }

  /** The message a delivery puts into the target's queue. */
  function Message(s: Sending): Prompt
  {
    Prompt(s.target, Queued, Some(Meta(s.depth, Some(s.from), Some(s.prompt))), [])
  }

  lemma Arrives(w: World, id: nat, p: PromptId, thread: string)
    requires id in w.sends && w.sends[id].stage == Reserved && p !in w.issued
    ensures
      var s, v := w.sends[id], ApplySend(w, Enqueue(id, p, thread));
      v == w.(prompts := w.prompts[p := Message(s)], sends := w.sends[id := s.(stage := Enqueued(p, thread))],
              log := w.log + [Delivery(s.key, s.depth, p)], issued := w.issued + {p})
  {
  }

  lemma Commits(w: World, id: nat)
    requires id in w.sends && w.sends[id].stage.Enqueued?
    ensures
      var s, v := w.sends[id], ApplySend(w, Commit(id));
      && v == w.(root := v.root, sends := w.sends - {id})
      && FindReceipt(v.root.receipts, s.key) == Some(Receipt(s.key, s.digest, s.stage.prompt))
      && (s.kind.Agent? ==> IsMember(v.root.members, s.target))
      && (s.kind.Leaf? ==> v.root.members == w.root.members)
      && v.root == w.root.(members := v.root.members, receipts := v.root.receipts, revision := w.root.revision + 1)
  {
    var s := w.sends[id];
    var receipt := Receipt(s.key, s.digest, s.stage.prompt);
    LastIsFound(w.root.receipts, receipt);
    if s.kind.Agent? {
      var m := CommitMember(w.root, s.target, s.stage.thread, s.from, s.role);
      JoinedIsMember(w.root.members, m);
    }
  }

  lemma {:induction false} FoundAt(rs: seq<Receipt>, key: ReceiptKey)
    requires rs != [] && rs[|rs| - 1].key == key && forall i :: 0 <= i < |rs| - 1 ==> rs[i].key != key
    ensures FindReceipt(rs, key) == Some(rs[|rs| - 1])
  {
    if |rs| > 1 { FoundAt(rs[1..], key); }
  }

  lemma {:induction false} LastIsFound(rs: seq<Receipt>, receipt: Receipt)
    ensures FindReceipt(RecordReceipt(rs, receipt), receipt.key) == Some(receipt)
  {
    var kept := Filter(rs, (x: Receipt) => x.key != receipt.key);
    var all := kept + [receipt];
    forall i | 0 <= i < |kept| ensures all[i].key != receipt.key { assert kept[i] in kept; }
    FoundAt(LastReceipts(all), receipt.key);
  }

  lemma JoinedIsMember(ms: seq<Member>, m: Member)
    ensures IsMember(Join(ms, m), m.tab)
  {
    var r := Join(ms, m);
    if IsMember(ms, m.tab) {
      var i := IsMemberIndex(ms, m.tab);
      assert r[i].tab == m.tab;
    } else {
      assert r[|ms|] == m;
    }
  }

  /**
   * A message that can be afforded arrives: it waits in its target's queue, one message of the budget is spent, and
   * its receipt is found. Its sender's target has joined.
   */
  lemma {:induction false} MessageArrives(w: World, id: nat, p: PromptId, thread: string)
    requires id in w.sends && w.sends[id].stage == Checked && Affordable(w.root, w.sends[id]) && p !in w.issued
    ensures
      var s, v := w.sends[id], Delivered(w, id, p, thread);
      && v.prompts == w.prompts[p := Message(s)] && v.log == w.log + [Delivery(s.key, s.depth, p)]
      && v.root.usedMessages == w.root.usedMessages + 1 && v.sends == w.sends - {id}
      && FindReceipt(v.root.receipts, s.key) == Some(Receipt(s.key, s.digest, p))
      && (s.kind.Agent? ==> IsMember(v.root.members, s.target)) && v.root.status == w.root.status
  {
    ReserveOutcome(w, id);
    var a := ApplySend(w, Reserve(id));
    Arrives(a, id, p, thread);
    var b := ApplySend(a, Enqueue(id, p, thread));
    Commits(b, id);
    assert w.sends[id := b.sends[id]] - {id} == w.sends - {id};
  }

  /** One that cannot be enqueued leaves nothing: the record is as it was, but for its revision. */
  lemma {:induction false} FailureLeavesNothing(w: World, id: nat)
    requires id in w.sends && w.sends[id].stage == Checked && Affordable(w.root, w.sends[id])
    ensures
      var v := ApplySend(ApplySend(ApplySend(w, Reserve(id)), Bounce(id)), Refund(id));
      v == w.(sends := w.sends - {id}, root := w.root.(revision := w.root.revision + 2))
  {
    ReserveOutcome(w, id);
    var a := ApplySend(w, Reserve(id));
    assert a.sends[id := a.sends[id].(stage := Bounced)] - {id} == w.sends - {id};
  }

  // ------------------------------------------------------------------ a message that is worked on

  /** A prompt waits in a queue, and the attempt is new. */
  predicate Waits(w: World, p: PromptId, attempt: AttemptId) {
    p in w.prompts && w.prompts[p].status == Queued && attempt !in w.spent && !BeingDispatched(w, p)
  }

  /** What a dispatch leaves of the record's status. */
  ghost predicate StartedBy(a: Root, b: Root, now: Time) {
    && b.status == (if a.status == Pending then Running else a.status)
    && b.startedAt == (if a.status == Pending && a.startedAt.None? then Some(now) else a.startedAt)
    && b == a.(status := b.status, startedAt := b.startedAt, members := b.members, revision := a.revision + 1)
  }

  /**
   * A dispatch goes into the root exactly if the prompt waits and is a message of it, or a reader's own prompt that
   * continues or restarts it.
   */
  lemma DispatchBegins(w: World, attempt: AttemptId, p: PromptId, thread: string, depth: nat, now: Time)
    ensures
      var v := ApplyQueue(w, BeginDispatch(attempt, p, thread, depth, now));
      if !Waits(w, p, attempt) || (w.prompts[p].meta.None? && !Adopts(w, attempt, p, depth)) then v == w
      else
        var meta := if w.prompts[p].meta.Some? then w.prompts[p].meta.value else Meta(depth, None, None);
        && v == w.(root := v.root, contexts := w.contexts[attempt := Context(w.prompts[p].tab, p, meta.depth)],
                   dispatches := w.dispatches[attempt := Dispatch(p, meta)], spent := w.spent + {attempt})
        && StartedBy(w.root, v.root, now) && IsMember(v.root.members, w.prompts[p].tab)
  {
    if p in w.prompts {
      var from := if w.prompts[p].meta.Some? then w.prompts[p].meta.value.from else None;
      JoinedIsMember(w.root.members, DispatchMember(w.root, w.prompts[p].tab, p, thread, from));
    }
  }

  /** A prompt of the root, waiting to be dispatched under an attempt of its own. */
  predicate Dispatchable(w: World, p: PromptId, attempt: AttemptId) {
    Waits(w, p, attempt) && w.prompts[p].meta.Some? && attempt !in w.dispatches
  }

  /**
   * A message that is dispatched is being worked on: its attempt is the turn its conversation executes and has a
   * context of the message's depth, and the conversation has joined a root that has started.
   */
  lemma {:induction false} MessageIsWorkedOn(w: World, attempt: AttemptId, p: PromptId, thread: string, depth: nat,
      now: Time)
    requires Dispatchable(w, p, attempt)
    ensures
      var prompt := w.prompts[p];
      var v := ApplyQueue(ApplyQueue(w, BeginDispatch(attempt, p, thread, depth, now)), FinishDispatch(attempt));
      && CurrentTurn(v, p, attempt) && v.prompts == w.prompts[p := v.prompts[p]]
      && v.prompts[p] == prompt.(status := Dispatching, attempts := prompt.attempts + [attempt])
      && v.contexts == w.contexts[attempt := Context(prompt.tab, p, prompt.meta.value.depth)]
      && IsMember(v.root.members, prompt.tab) && StartedBy(w.root, v.root, now)
      && v.dispatches == w.dispatches && v.spent == w.spent + {attempt}
  {
    DispatchBegins(w, attempt, p, thread, depth, now);
    assert w.dispatches[attempt := Dispatch(p, w.prompts[p].meta.value)] - {attempt} == w.dispatches;
  }
}
