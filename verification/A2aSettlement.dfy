/**
 * When a root may be ended on a scan: what an empty scan is worth, and which steps between
 * the scan and the locked section that trusts it undo it.
 */
module A2aSettlement {
  import opened Common
  import opened A2aRoot
  import opened A2aRuns
  import opened A2aQuiet
  import opened A2aTheorems

  /** A prompt from outside is waiting, and its dispatch continues or restarts the root. */
  predicate Adopts(w: World, attempt: AttemptId, p: PromptId, depth: nat) {
    && p in w.prompts && w.prompts[p].meta.None? && w.prompts[p].status == Queued
    && attempt !in w.spent && !BeingDispatched(w, p)
    && var tab := w.prompts[p].tab;
       || (tab == w.root.originTab && p == w.root.originPrompt && depth == 0)
       || (IsMember(w.root.members, tab)
           && (depth == 0 || exists q :: q in w.prompts && Labelled(w, q) && w.prompts[q].tab == tab
                                         && w.prompts[q].meta.value.depth == depth))
  }

  /** The executing turn of a conversation that is no leaf asks for something new, within the depth. */
  predicate Asks(w: World, id: nat, attempt: AttemptId, request: string, target: TabId) {
    && id !in w.sends && attempt in w.contexts
    && var c := w.contexts[attempt];
       && c.tab !in w.leaves && CurrentTurn(w, c.prompt, attempt) && target != c.tab
       && FindReceipt(w.root.receipts, SendKey(c.tab, attempt, request)).None? && c.depth + 1 <= w.root.limits.depth
  }

  /** A leaf's finished message of a running root has not been answered yet. */
  predicate Replies(w: World, id: nat, p: PromptId) {
    && id !in w.sends && Labelled(w, p) && w.prompts[p].status == Done && w.root.status == Running
    && w.prompts[p].tab in w.leaves && w.prompts[p].meta.value.from.Some? && w.prompts[p].meta.value.fromPrompt.Some?
    && FindReceipt(w.root.receipts, LeafKey(w.prompts[p].tab, p)).None?
  }

  /**
   * The steps that give a quiet root something to do: a prompt from outside being dispatched into it, a finished
   * message other than the excused one queued again, a leaf's reply, and a send of the excused turn.
   */
  predicate Unsettles(w: World, step: Step, except: Option<PromptId>) {
    match step
    case OnQueue(BeginDispatch(attempt, p, _, depth, _)) => Adopts(w, attempt, p, depth)
    case OnQueue(Requeue(p)) => Labelled(w, p) && !Unfinished(w.prompts[p].status) && except != Some(p)
    case OnSend(StartSend(id, attempt, request, target, _, _)) => Asks(w, id, attempt, request, target)
    case OnSend(StartLeaf(id, p)) => Replies(w, id, p)
    case _ => false
  }

  /** No step of the run does. */
  predicate Undisturbed(w: World, steps: seq<Step>, except: Option<PromptId>)
    decreases |steps|
  {
    steps == [] ||
    var n := |steps| - 1;
    Undisturbed(w, steps[..n], except) && !Unsettles(Run(w, steps[..n]), steps[n], except)
  }

  /** Every world of the run is quiet. */
  ghost predicate QuietThroughout(w: World, steps: seq<Step>, except: Option<PromptId>)
    decreases |steps|
  {
    Quiet(Run(w, steps), except) && (steps == [] || QuietThroughout(w, steps[..|steps| - 1], except))
  }

  lemma {:induction false} BeginQuiet(w: World, q: QueueStep, except: Option<PromptId>)
    requires Inv(w) && Quiet(w, except) && q.BeginDispatch?
    ensures Quiet(ApplyQueue(w, q), except) <==> !Unsettles(w, OnQueue(q), except)
  {
    var v := ApplyQueue(w, q);
    if q.attempt in v.dispatches && q.attempt !in w.spent {
      assert v.dispatches[q.attempt].prompt == q.p && q.p in v.prompts;
    }
  }

  lemma {:induction false} FinishQuiet(w: World, q: QueueStep, except: Option<PromptId>)
    requires Inv(w) && Quiet(w, except) && q.FinishDispatch?
    ensures Quiet(ApplyQueue(w, q), except)
  {
  }

  lemma {:induction false} StatusQuiet(w: World, q: QueueStep, except: Option<PromptId>)
    requires Quiet(w, except) && (q.Progress? || q.Requeue?)
    ensures Quiet(ApplyQueue(w, q), except) <==> !Unsettles(w, OnQueue(q), except)
  {
    if Unsettles(w, OnQueue(q), except) {
      assert UnfinishedMessage(ApplyQueue(w, q), q.p);
    }
  }

  lemma {:induction false} OutsideQuiet(w: World, q: QueueStep, except: Option<PromptId>)
    requires Quiet(w, except) && InDispatch(w.dispatches, w.prompts) && w.prompts.Keys <= w.issued
    requires q.AddPrompt? || q.PlainDispatch? || q.Rehome?
    ensures Quiet(ApplyQueue(w, q), except)
  {
  }

  lemma {:induction false} LeavingQuiet(w: World, q: QueueStep, except: Option<PromptId>)
    requires Quiet(w, except) && (q.DropDispatch? || q.Remove? || q.ReleaseContext?)
    ensures Quiet(ApplyQueue(w, q), except)
  {
  }

  lemma {:induction false} QueueQuiet(w: World, q: QueueStep, except: Option<PromptId>)
    requires Inv(w) && Quiet(w, except)
    ensures Quiet(ApplyQueue(w, q), except) <==> !Unsettles(w, OnQueue(q), except)
  {
    if q.BeginDispatch? { BeginQuiet(w, q, except); }
    else if q.FinishDispatch? { FinishQuiet(w, q, except); }
    else if q.Progress? || q.Requeue? { StatusQuiet(w, q, except); }
    else if q.AddPrompt? || q.PlainDispatch? || q.Rehome? { OutsideQuiet(w, q, except); }
    else { LeavingQuiet(w, q, except); }
  }

  /** While a root is quiet the only steps of a send that do anything are those that start one. */
  lemma {:induction false} SendQuiet(w: World, s: SendStep, except: Option<PromptId>)
    requires Quiet(w, except)
    ensures Quiet(ApplySend(w, s), except) <==> !Unsettles(w, OnSend(s), except)
  {
    if Unsettles(w, OnSend(s), except) { assert s.id in ApplySend(w, s).sends; }
  }

  lemma {:induction false} RootQuiet(w: World, r: RootStep, except: Option<PromptId>)
    requires Quiet(w, except)
    ensures Quiet(ApplyRoot(w, r), except)
  {
  }

  /** A step leaves a quiet root quiet if and only if it is none of those. */
  lemma {:induction false} StepKeepsQuiet(w: World, step: Step, except: Option<PromptId>)
    requires Inv(w) && Quiet(w, except)
    ensures Quiet(Apply(w, step), except) <==> !Unsettles(w, step, except)
  {
    match step
    case OnQueue(q) => QueueQuiet(w, q, except);
    case OnSend(s) => SendQuiet(w, s, except);
    case OnRoot(r) => RootQuiet(w, r, except);
  }

  lemma {:induction false} InvFrom(u: World, steps: seq<Step>)
    requires Inv(u)
    ensures Inv(Run(u, steps))
    decreases |steps|
  {
    if steps != [] {
      InvFrom(u, steps[..|steps| - 1]);
      StepInv(Run(u, steps[..|steps| - 1]), steps[|steps| - 1]);
    }
  }

  /** A root stays quiet over a run if and only if it is quiet and no step disturbs it. */
  lemma {:induction false} RunKeepsQuiet(u: World, steps: seq<Step>, except: Option<PromptId>)
    requires Inv(u)
    ensures QuietThroughout(u, steps, except) <==> Quiet(u, except) && Undisturbed(u, steps, except)
    decreases |steps|
  {
    if steps != [] {
      var n := |steps| - 1;
      RunKeepsQuiet(u, steps[..n], except);
      InvFrom(u, steps[..n]);
      if QuietThroughout(u, steps[..n], except) { StepKeepsQuiet(Run(u, steps[..n]), steps[n], except); }
    }
  }

  /**
   * From an empty scan to the lock that trusts it: the root stays quiet exactly if the scan was calm and
   * undisturbed.
   */
  lemma {:induction false} EmptyScanHolds(w: World, before: seq<Step>, id: nat, except: Option<PromptId>,
      after: seq<Step>)
    requires Initial(w) && Run(w, before).root.members != [] && Outstanding(Run(w, before), except) == {}
    ensures var u := DoScan(Run(w, before), id, except);
      QuietThroughout(u, after, except) <==> Calm(u, except) && Undisturbed(u, after, except)
  {
    InvAlways(w, before);
    var s := Run(w, before);
    var u := DoScan(s, id, except);
    ScanInv(s, id, except);
    assert Outstanding(u, except) == Outstanding(s, except);
    CleanScanIsQuiet(u, except);
    RunKeepsQuiet(u, after, except);
  }

  /**
   * Quiet settlement. From a scan that finds nothing until its locked section, the root has no unfinished
   * message in any conversation and no send in flight, although targets join only after their message
   * is enqueued, if and only if the scan was made in a calm world and nothing has disturbed it. The root the
   * settlement ends is left with nothing if and only if it has nothing at the lock, so then it is.
   */
  lemma {:induction false} QuietSettlementIsSafe(w: World, before: seq<Step>, id: nat, after: seq<Step>, now: Time)
    requires Initial(w) && Run(w, before).root.members != [] && Outstanding(Run(w, before), None) == {}
    ensures var u := DoScan(Run(w, before), id, None);
      && (QuietThroughout(u, after, None) <==> Calm(u, None) && Undisturbed(u, after, None))
      && var v := DoQuietSettle(Run(u, after), id, now);
         && (Quiet(v, None) <==> Quiet(Run(u, after), None))
         && (Calm(u, None) && Undisturbed(u, after, None) ==> v.sends == map[] && forall p :: !UnfinishedMessage(v, p))
  {
    EmptyScanHolds(w, before, id, None, after);
  }

  /** Accepting `finish`: the same with the caller's own turn excused, and none of its sends in flight. */
  lemma {:induction false} AcceptedFinishLosesNothing(w: World, before: seq<Step>, id: nat, after: seq<Step>,
                                                      reason: FinishReason,
                                                      attempt: AttemptId, caller: PromptId)
    requires Initial(w) && Run(w, before).root.members != [] && Outstanding(Run(w, before), Some(caller)) == {}
    ensures var u := DoScan(Run(w, before), id, Some(caller));
      && (QuietThroughout(u, after, Some(caller)) <==> Calm(u, Some(caller)) && Undisturbed(u, after, Some(caller)))
      && var v := DoAcceptFinish(Run(u, after), id, reason, attempt);
         && (Quiet(v, Some(caller)) <==> Quiet(Run(u, after), Some(caller)))
         && (Calm(u, Some(caller)) && Undisturbed(u, after, Some(caller)) ==>
               v.sends == map[] && forall p :: UnfinishedMessage(v, p) ==> p == caller)
  {
    EmptyScanHolds(w, before, id, Some(caller), after);
  }
}
