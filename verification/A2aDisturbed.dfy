/**
 * Why a quiet settlement needs a calm scan that stays undisturbed: four ways in which it ends a
 * root with work still to do, and runs that lead to each of them.
 */
module A2aDisturbed {
  import opened Common
  import opened A2aRoot
  import opened A2aRuns
  import opened A2aTheorems

  /**
   * A running root whose members have nothing outstanding, with a reader's own prompt `q` waiting in a
   * member's queue.
   */
  ghost predicate Adoptable(w: World, q: PromptId) {
    && w.root.status == Running && w.root.finish.None?
    && Outstanding(w, None) == {}
    && q in w.prompts && w.prompts[q].status == Queued && w.prompts[q].meta.None?
    && InMemberTab(w, q) && !BeingDispatched(w, q)
  }

  /**
   * Adoption: dispatching that prompt between any clean scan and
   * its settlement ends the root with the adopted turn running.
   */
  lemma {:induction false} AdoptionDefeatsSettlement(w: World, q: PromptId, id: nat, attempt: AttemptId, thread: string,
      now: Time)
    requires Adoptable(w, q) && attempt !in w.spent
    ensures var v := DoQuietSettle(DoFinishDispatch(DoBeginDispatch(DoScan(w, id, None), attempt, q, thread, 0, now),
        attempt), id, now);
      v.root.status == Completed && UnfinishedMessage(v, q)
  {
    var a := DoScan(w, id, None);
    assert !BeingDispatched(a, q);
    var b := DoBeginDispatch(a, attempt, q, thread, 0, now);
    assert b.dispatches[attempt].prompt == q && b.sweeps[id].clean && b.root.status == Running && b.root.finish.None?;
    var c := DoFinishDispatch(b, attempt);
    assert UnfinishedMessage(c, q) && c.sweeps == b.sweeps && c.root == b.root;
  }

  /** Some run leads from `w` to `v`. */
  ghost predicate Reaches(w: World, v: World) { v == w || exists steps :: Run(w, steps) == v }

  lemma {:induction false} AfterStep(w: World, v: World, step: Step)
    requires Reaches(w, v)
    ensures Reaches(w, Apply(v, step))
  {
    if v == w { assert Run(w, []) == w; }
    var steps :| Run(w, steps) == v;
    RunStep(w, steps, step);
  }

  lemma {:induction false} AfterQueue(w: World, v: World, q: QueueStep) returns (u: World)
    requires Reaches(w, v)
    ensures u == ApplyQueue(v, q) && Reaches(w, u)
  {
    AfterStep(w, v, OnQueue(q));
    u := ApplyQueue(v, q);
  }

  lemma {:induction false} AfterSend(w: World, v: World, s: SendStep) returns (u: World)
    requires Reaches(w, v)
    ensures u == ApplySend(v, s) && Reaches(w, u)
  {
    AfterStep(w, v, OnSend(s));
    u := ApplySend(v, s);
  }

  /** The origin's turn `t` is being executed and is all there is. */
  ghost predicate OriginRuns(w: World, t: AttemptId) {
    var o := w.root.originTab;
    && w.root.status == Running && w.root.finish.None? && w.root.usedMessages == 1 && w.root.receipts == []
    && |w.root.members| == 1 && w.root.members[0].tab == o && w.root.members[0].level == 0
    && w.dispatches == map[] && w.sends == map[]
    && w.prompts.Keys == {w.root.originPrompt} && w.prompts[w.root.originPrompt].tab == o
    && CurrentTurn(w, w.root.originPrompt, t) && w.prompts[w.root.originPrompt].meta.Some?
    && t in w.contexts && w.contexts[t] == Context(o, w.root.originPrompt, 0)
  }

  lemma {:induction false} OriginStarts(w: World, t: AttemptId, thread: string) returns (u: World)
    requires Initial(w) && w.prompts.Keys == {w.root.originPrompt} && w.prompts[w.root.originPrompt].status == Queued
    requires w.prompts[w.root.originPrompt].tab == w.root.originTab && t !in w.spent
    ensures Reaches(w, u) && OriginRuns(u, t)
    ensures u.root.originTab == w.root.originTab && u.root.originPrompt == w.root.originPrompt
        && u.root.limits == w.root.limits && u.root.policy == w.root.policy
    ensures u.leaves == w.leaves && u.issued == w.issued && u.spent == w.spent + {t}
  {
    u := AfterQueue(w, w, BeginDispatch(t, w.root.originPrompt, thread, 0, 0));
    u := AfterQueue(w, u, FinishDispatch(t));
  }

  /**
   * Such a world is four steps from any new root: its prompt runs and finishes, and the reader types `q` in
   * the same conversation.
   */
  lemma {:induction false} AdoptableIsReachable(w: World, t: AttemptId, thread: string, q: PromptId)
    requires Initial(w) && w.prompts.Keys == {w.root.originPrompt} && w.prompts[w.root.originPrompt].status == Queued
    requires w.prompts[w.root.originPrompt].tab == w.root.originTab && t !in w.spent && q !in w.issued
    ensures exists v :: Reaches(w, v) && Adoptable(v, q)
  {
    var v := OriginStarts(w, t, thread);
    var u := AfterQueue(w, v, AddPrompt(q, v.root.originTab));
    u := AfterQueue(w, u, Progress(v.root.originPrompt, Done));
    assert v.root.members[0] in u.root.members;
    assert Adoptable(u, q);
  }

  /** A running root with nothing outstanding, and a message `p` that is over. */
  ghost predicate Repeatable(w: World, p: PromptId) {
    && w.root.status == Running && w.root.finish.None?
    && Outstanding(w, None) == {}
    && Labelled(w, p) && !Unfinished(w.prompts[p].status)
  }

  /**
   * Repetition: queueing that message again between any clean scan and its settlement ends the root with it
   * waiting.
   */
  lemma {:induction false} RequeueDefeatsSettlement(w: World, p: PromptId, id: nat, now: Time)
    requires Repeatable(w, p)
    ensures var v := DoQuietSettle(ApplyQueue(DoScan(w, id, None), Requeue(p)), id, now);
      v.root.status == Completed && UnfinishedMessage(v, p)
  {
    var a := DoScan(w, id, None);
    var b := ApplyQueue(a, Requeue(p));
    assert b.sweeps[id].clean && b.root == w.root && UnfinishedMessage(b, p);
  }

  lemma {:induction false} RepeatableIsReachable(w: World, t: AttemptId, thread: string)
    requires Initial(w) && w.prompts.Keys == {w.root.originPrompt} && w.prompts[w.root.originPrompt].status == Queued
    requires w.prompts[w.root.originPrompt].tab == w.root.originTab && t !in w.spent
    ensures exists v :: Reaches(w, v) && Repeatable(v, v.root.originPrompt)
  {
    var v := OriginStarts(w, t, thread);
    var u := AfterQueue(w, v, Progress(v.root.originPrompt, Done));
    assert Repeatable(u, u.root.originPrompt);
  }

  /** The origin asked the leaf conversation `tab` with prompt `q`; nothing else is left of that send. */
  ghost predicate Asked(w: World, tab: TabId, q: PromptId, status: PromptStatus) {
    var p := w.root.originPrompt;
    && w.root.status == Running && w.root.finish.None? && w.root.usedMessages == 2
    && (forall r :: r in w.root.receipts ==> r.key.SendKey?)
    && |w.root.members| == 2 && w.root.members[0].tab != tab && w.root.members[1].tab == tab
        && w.root.members[1].level == 1
    && w.dispatches == map[] && w.sends == map[]
    && w.prompts.Keys == {p, q} && p != q
    && w.prompts[q].tab == tab && w.prompts[q].status == status
    && w.prompts[q].meta == Some(Meta(1, Some(w.root.originTab), Some(p)))
  }

  /** The send half way: delivered, and about to be committed. */
  ghost predicate Asking(w: World, t: AttemptId, tab: TabId, q: PromptId, thread: string) {
    var p := w.root.originPrompt;
    && w.root.status == Running && w.root.finish.None? && w.root.usedMessages == 2 && w.root.receipts == []
    && |w.root.members| == 1 && w.root.members[0].tab == w.root.originTab && w.root.members[0].level == 0
    && w.dispatches == map[] && w.sends.Keys == {0} && w.sends[0].kind.Agent? && w.sends[0].key.SendKey?
    && w.sends[0].stage == Enqueued(q, thread) && w.sends[0].target == tab && w.sends[0].from == w.root.originTab
    && w.prompts.Keys == {p, q} && p != q && Active(w.prompts[p].status)
    && w.prompts[q] == Prompt(tab, Queued, Some(Meta(1, Some(w.root.originTab), Some(p))), [])
  }

  /** What starting that send and reserving for it leaves. */
  lemma {:induction false} OriginReserves(v: World, t: AttemptId, tab: TabId)
    requires OriginRuns(v, t) && tab != v.root.originTab && v.root.originTab !in v.leaves
    requires v.root.limits.messages >= 2 && v.root.limits.depth >= 1
    ensures var u := DoReserve(DoStartSend(v, 0, t, "r", tab, "d", None), 0);
      && u == v.(root := u.root, sends := u.sends, overlapped := u.overlapped)
      && u.root == v.root.(usedMessages := 2, revision := u.root.revision)
      && u.sends.Keys == {0} && u.sends[0].kind.Agent? && u.sends[0].key.SendKey? && u.sends[0].stage == Reserved
      && u.sends[0].target == tab && u.sends[0].from == v.root.originTab && u.sends[0].prompt == v.root.originPrompt
      && u.sends[0].depth == 1
  {
  }

  lemma {:induction false} OriginAsks(w: World, v: World, t: AttemptId, tab: TabId, q: PromptId, thread: string)
      returns (u: World)
    requires Reaches(w, v) && OriginRuns(v, t) && tab != v.root.originTab && v.root.originTab !in v.leaves
    requires q !in v.issued && q != v.root.originPrompt && v.root.limits.messages >= 2 && v.root.limits.depth >= 1
    ensures Reaches(w, u) && Asking(u, t, tab, q, thread)
    ensures u.root.limits == v.root.limits && u.root.originTab == v.root.originTab && u.leaves == v.leaves
        && u.spent == v.spent
  {
    OriginReserves(v, t, tab);
    u := AfterSend(w, v, StartSend(0, t, "r", tab, "d", None));
    u := AfterSend(w, u, Reserve(0));
    u := AfterSend(w, u, Enqueue(0, q, thread));
  }

  /** A running root with nothing outstanding, and a message whose commit a restart has cut off. */
  ghost predicate Forgotten(w: World, q: PromptId) {
    && w.root.status == Running && w.root.finish.None?
    && Outstanding(w, None) == {}
    && q in w.orphans && UnfinishedMessage(w, q)
  }

  /**
   * Restart: its conversation never joined, so no scan looks there, and the settlement ends the root with it
   * waiting.
   */
  lemma {:induction false} RestartDefeatsSettlement(w: World, q: PromptId, id: nat, now: Time)
    requires Forgotten(w, q)
    ensures var v := DoQuietSettle(DoScan(w, id, None), id, now); v.root.status == Completed && UnfinishedMessage(v, q)
  {
  }

  lemma {:induction false} ForgottenIsReachable(w: World, t: AttemptId, tab: TabId, q: PromptId, thread: string)
    requires Initial(w) && w.prompts.Keys == {w.root.originPrompt} && w.prompts[w.root.originPrompt].status == Queued
    requires w.prompts[w.root.originPrompt].tab == w.root.originTab && w.root.originTab !in w.leaves
        && tab != w.root.originTab
    requires t !in w.spent && q !in w.issued && w.root.limits.messages >= 2 && w.root.limits.depth >= 1
    ensures exists v :: Reaches(w, v) && Forgotten(v, q)
  {
    assert w.root.originPrompt in w.prompts && q != w.root.originPrompt;
    var u := OriginStarts(w, t, thread);
    u := OriginAsks(w, u, t, tab, q, thread);
    u := RestartForgets(w, u, t, tab, q, thread);
  }

  lemma {:induction false} RestartForgets(w: World, v: World, t: AttemptId, tab: TabId, q: PromptId, thread: string)
      returns (u: World)
    requires Reaches(w, v) && Asking(v, t, tab, q, thread) && tab != v.root.originTab
    ensures Reaches(w, u) && Forgotten(u, q)
  {
    var over := AfterQueue(w, v, Progress(v.root.originPrompt, Done));
    AfterStep(w, over, OnRoot(Restart));
    u := DoRestart(over);
    OrphanIsUnseen(over, tab, q, thread);
  }

  lemma {:induction false} OrphanIsUnseen(v: World, tab: TabId, q: PromptId, thread: string)
    requires v.root.status == Running && v.root.finish.None? && |v.root.members| == 1 && v.root.members[0].tab != tab
    requires v.sends.Keys == {0} && v.sends[0].stage == Enqueued(q, thread)
    requires v.prompts.Keys == {v.root.originPrompt, q} && v.prompts[v.root.originPrompt].status == Done
    requires v.prompts[q].tab == tab && v.prompts[q].meta.Some? && v.prompts[q].status == Queued
    ensures Forgotten(DoRestart(v), q)
  {
    var u := DoRestart(v);
    assert v.sends[0].stage.prompt in u.orphans;
    assert !InMemberTab(u, q);
  }

  lemma {:induction false} AskIsCommitted(w: World, v: World, t: AttemptId, tab: TabId, q: PromptId, thread: string)
      returns (u: World)
    requires Reaches(w, v) && Asking(v, t, tab, q, thread) && tab != v.root.originTab
    ensures Reaches(w, u) && Asked(u, tab, q, Queued) && Active(u.prompts[u.root.originPrompt].status)
    ensures u.root.limits == v.root.limits && u.leaves == v.leaves && u.spent == v.spent
  {
    u := AfterSend(w, v, Commit(0));
    assert u.sends == map[];
    assert FindMember(v.root.members, tab).None?;
    assert FindMember(v.root.members, v.root.originTab) == Some(v.root.members[0]);
    var receipt := Receipt(v.sends[0].key, v.sends[0].digest, q);
    assert RecordReceipt([], receipt) == [receipt];
  }

  /** The section that dispatches `q` only writes the root: the conversation is a member already. */
  lemma {:induction false} LeafDispatched(v: World, t: AttemptId, tab: TabId, q: PromptId, thread: string)
    requires Asked(v, tab, q, Queued) && t !in v.spent
    ensures var u := DoBeginDispatch(v, t, q, thread, 0, 0);
      && Asked(u.(dispatches := map[]), tab, q, Queued) && u.root.limits == v.root.limits
      && u == v.(root := u.root, contexts := u.contexts, spent := u.spent,
          dispatches := map[t := Dispatch(q, v.prompts[q].meta.value)])
  {
    assert !BeingDispatched(v, q);
    assert v.dispatches[t := Dispatch(q, v.prompts[q].meta.value)] == map[t := Dispatch(q, v.prompts[q].meta.value)];
  }

  lemma {:induction false} LeafAnswers(w: World, v: World, t: AttemptId, tab: TabId, q: PromptId, thread: string)
      returns (u: World)
    requires Reaches(w, v) && Asked(v, tab, q, Queued) && Active(v.prompts[v.root.originPrompt].status) && t !in v.spent
    ensures Reaches(w, u) && Asked(u, tab, q, Done) && u.prompts[u.root.originPrompt].status == Done
    ensures u.root.limits == v.root.limits && u.leaves == v.leaves
  {
    var over := AfterQueue(w, v, Progress(v.root.originPrompt, Done));
    LeafDispatched(over, t, tab, q, thread);
    u := AfterQueue(w, over, BeginDispatch(t, q, thread, 0, 0));
    u := LeafFinishes(w, u, t, tab, q);
  }

  lemma {:induction false} LeafFinishes(w: World, v: World, t: AttemptId, tab: TabId, q: PromptId) returns (u: World)
    requires Reaches(w, v) && Asked(v.(dispatches := map[]), tab, q, Queued)
    requires v.dispatches == map[t := Dispatch(q, v.prompts[q].meta.value)]
        && v.prompts[v.root.originPrompt].status == Done
    ensures Reaches(w, u) && Asked(u, tab, q, Done) && u.prompts[u.root.originPrompt].status == Done
    ensures u.root == v.root && u.leaves == v.leaves
  {
    u := AfterQueue(w, v, FinishDispatch(t));
    u := AfterQueue(w, u, Progress(q, Done));
    assert u.dispatches == map[];
  }

  /** A running root with nothing outstanding, and a leaf's reply reserved but not yet delivered. */
  ghost predicate ReplyOnItsWay(w: World, i: nat) {
    && w.root.status == Running && w.root.finish.None? && Outstanding(w, None) == {}
    && i in w.sends && w.sends[i].kind.Leaf? && w.sends[i].stage == Reserved
  }

  lemma {:induction false} ReplyStarts(v: World, tab: TabId, q: PromptId)
    requires Asked(v, tab, q, Done) && tab in v.leaves
    ensures var u := DoStartLeaf(v, 0, q);
      && u == v.(sends := u.sends, sweeps := u.sweeps, overlapped := u.overlapped)
      && 0 in u.sends && u.sends[0].kind.Leaf? && u.sends[0].stage == Checked && u.sends[0].depth == 2
  {
    assert FindMember(v.root.members, tab) == Some(v.root.members[1]);
  }

  lemma {:induction false} ReplyReserved(w: World, v: World, tab: TabId, q: PromptId) returns (u: World)
    requires Reaches(w, v) && Asked(v, tab, q, Done) && v.prompts[v.root.originPrompt].status == Done
    requires tab in v.leaves && v.root.limits.messages >= 3 && v.root.limits.depth >= 2
    ensures Reaches(w, u) && ReplyOnItsWay(u, 0)
  {
    ReplyStarts(v, tab, q);
    u := AfterSend(w, v, StartLeaf(0, q));
    u := AfterSend(w, u, Reserve(0));
  }

  /** Reply: a leaf's reply reserved before the scan is delivered into a root the settlement has ended. */
  lemma {:induction false} LeafReplyDefeatsSettlement(w: World, i: nat, id: nat, p: PromptId, thread: string, now: Time)
    requires ReplyOnItsWay(w, i) && p !in w.issued
    ensures var v := DoEnqueue(DoQuietSettle(DoScan(w, id, None), id, now), i, p, thread);
      v.root.status == Completed && UnfinishedMessage(v, p)
  {
  }

  /**
   * Such a world is twelve steps from any new root with messages and depth to spare: it asks a leaf and the
   * leaf's turn ends.
   */
  lemma {:induction false} ReplyOnItsWayIsReachable(w: World, t: AttemptId, later: AttemptId, tab: TabId, q: PromptId,
      thread: string)
    requires Initial(w) && w.prompts.Keys == {w.root.originPrompt} && w.prompts[w.root.originPrompt].status == Queued
    requires w.prompts[w.root.originPrompt].tab == w.root.originTab && w.root.originTab !in w.leaves && tab in w.leaves
    requires t !in w.spent && later !in w.spent && t != later && q !in w.issued
    requires w.root.limits.messages >= 3 && w.root.limits.depth >= 2
    ensures exists v :: Reaches(w, v) && ReplyOnItsWay(v, 0)
  {
    var u := OriginStarts(w, t, thread);
    u := OriginAsks(w, u, t, tab, q, thread);
    u := AskIsCommitted(w, u, t, tab, q, thread);
    u := LeafAnswers(w, u, later, tab, q, thread);
    u := ReplyReserved(w, u, tab, q);
  }
}
