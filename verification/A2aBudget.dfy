/**
 * What every run of one root keeps about its status, its budget and its receipts.
 */
module A2aBudget {
  import opened Common
  import opened A2aRoot
  import opened A2aRuns

  // ------------------------------------------------------------------ lifecycle

  predicate IsWithdrawal(w: World, step: Step) {
    && step.OnRoot? && step.r.Confirm?
    && w.root.finish.Some? && w.root.finish.value.attempt == step.r.attempt
    && !step.r.landed && w.root.finish.value.intent == Complete
  }

  ghost predicate LifecycleMove(a: Root, b: Root, withdrawal: bool) {
    && Coherent(b)
    && StatusMove(a, b, withdrawal)
    && (Over(a) ==> b.status == a.status && b.endedAt == a.endedAt)
    && Frozen(a, b)
  }

  lemma {:induction false} QueueLifecycle(w: World, step: QueueStep)
    requires Coherent(w.root)
    ensures LifecycleMove(w.root, ApplyQueue(w, step).root, false)
  {
  }

  lemma {:induction false} SendLifecycleOfStart(w: World, step: SendStep)
    requires step.StartSend? || step.StartLeaf? || step.Bounce?
    requires Coherent(w.root)
    ensures LifecycleMove(w.root, ApplySend(w, step).root, false)
  {
  }

  lemma {:induction false} SendLifecycleOfCommit(w: World, step: SendStep)
    requires step.Commit?
    requires Coherent(w.root)
    ensures LifecycleMove(w.root, ApplySend(w, step).root, false)
  {
  }

  lemma {:induction false} SendLifecycleOfBudget(w: World, step: SendStep)
    requires step.Reserve? || step.Enqueue? || step.Refund?
    requires Coherent(w.root)
    ensures LifecycleMove(w.root, ApplySend(w, step).root, false)
  {
  }

  lemma {:induction false} SendLifecycle(w: World, step: SendStep)
    requires Coherent(w.root)
    ensures LifecycleMove(w.root, ApplySend(w, step).root, false)
  {
    if step.StartSend? || step.StartLeaf? || step.Bounce? {
      SendLifecycleOfStart(w, step);
    } else if step.Commit? {
      SendLifecycleOfCommit(w, step);
    } else {
      SendLifecycleOfBudget(w, step);
    }
  }

  lemma {:induction false} RootLifecycleOfScan(w: World, step: RootStep)
    requires step.Scan? || step.Restart? || step.QuietSettle?
    requires Coherent(w.root)
    ensures LifecycleMove(w.root, ApplyRoot(w, step).root, IsWithdrawal(w, OnRoot(step)))
  {
  }

  lemma {:induction false} RootLifecycleOfFinish(w: World, step: RootStep)
    requires step.AcceptFinish?
    requires Coherent(w.root)
    ensures LifecycleMove(w.root, ApplyRoot(w, step).root, IsWithdrawal(w, OnRoot(step)))
  {
  }

  lemma UserSectionMoves(root: Root, intent: Intent, outstanding: seq<Work>, now: Time)
    requires Coherent(root)
    ensures LifecycleMove(root, After(root, EndFromUserSection(root, intent, outstanding, now)), false)
  {
  }

  lemma UnchangedMoves(root: Root, withdrawal: bool)
    requires Coherent(root)
    ensures LifecycleMove(root, root, withdrawal)
  {
  }

  lemma {:induction false} RootLifecycleOfUser(w: World, step: RootStep)
    requires step.EndFromUser?
    requires Coherent(w.root)
    ensures LifecycleMove(w.root, ApplyRoot(w, step).root, IsWithdrawal(w, OnRoot(step)))
  {
    UserSectionMoves(w.root, step.intent, step.outstanding, step.now);
    UnchangedMoves(w.root, false);
  }

  lemma {:induction false} RootLifecycleOfConfirm(w: World, step: RootStep)
    requires step.Confirm?
    requires Coherent(w.root)
    ensures LifecycleMove(w.root, ApplyRoot(w, step).root, IsWithdrawal(w, OnRoot(step)))
  {
  }

  lemma {:induction false} RootLifecycle(w: World, step: RootStep)
    requires Coherent(w.root)
    ensures LifecycleMove(w.root, ApplyRoot(w, step).root, IsWithdrawal(w, OnRoot(step)))
  {
    if step.Scan? || step.Restart? || step.QuietSettle? {
      RootLifecycleOfScan(w, step);
    } else if step.AcceptFinish? {
      RootLifecycleOfFinish(w, step);
    } else if step.EndFromUser? {
      RootLifecycleOfUser(w, step);
    } else {
      RootLifecycleOfConfirm(w, step);
    }
  }

  /** One step of any kind moves the status as promised; only a withdrawn finish leads from ending back to running. */
  lemma {:induction false} StepLifecycle(w: World, step: Step)
    requires Coherent(w.root)
    ensures LifecycleMove(w.root, Apply(w, step).root, IsWithdrawal(w, step))
  {
    match step
    case OnQueue(q) => QueueLifecycle(w, q);
    case OnSend(s) => SendLifecycle(w, s);
    case OnRoot(r) => RootLifecycle(w, r);
  }

  lemma {:induction false} CoherentAlways(w: World, steps: seq<Step>)
    requires Coherent(w.root)
    ensures Coherent(Run(w, steps).root)
    decreases |steps|
  {
    if steps != [] {
      CoherentAlways(w, steps[..|steps| - 1]);
      StepLifecycle(Run(w, steps[..|steps| - 1]), steps[|steps| - 1]);
    }
  }

  /** What neither part of a run undoes. */
  ghost predicate Lasts(a: Root, b: Root) {
    Frozen(a, b) && (Over(a) ==> b.status == a.status && b.endedAt == a.endedAt)
  }

  lemma {:induction false} LastsStep(a: Root, b: Root, c: Root, withdrawal: bool)
    requires Lasts(a, b) && LifecycleMove(b, c, withdrawal)
    ensures Lasts(a, c)
  {
  }

  lemma RunEnds(w: World, before: seq<Step>, after: seq<Step>)
    requires after != []
    ensures var k := |after| - 1; Run(w, before + after) == Apply(Run(w, before + after[..k]), after[k])
  {
    assert (before + after)[..|before + after| - 1] == before + after[..|after| - 1];
  }

  lemma {:induction false} LastsOneMore(a: Root, u: World, step: Step)
    requires Coherent(u.root) && Lasts(a, u.root)
    ensures Lasts(a, Apply(u, step).root)
  {
    StepLifecycle(u, step);
    LastsStep(a, u.root, Apply(u, step).root, IsWithdrawal(u, step));
  }

  /** Root lifecycle over all runs, and completed or stopped is never left. */
  lemma {:induction false} Lifecycle(w: World, before: seq<Step>, after: seq<Step>)
    requires Coherent(w.root)
    ensures Coherent(Run(w, before).root)
    ensures Lasts(Run(w, before).root, Run(w, before + after).root)
    decreases |after|
  {
    if after == [] {
      CoherentAlways(w, before);
      assert before + after == before;
    } else {
      var k := |after| - 1;
      Lifecycle(w, before, after[..k]);
      RunEnds(w, before, after);
      CoherentAlways(w, before + after[..k]);
      LastsOneMore(Run(w, before).root, Run(w, before + after[..k]), after[k]);
    }
  }

  // ------------------------------------------------------------------ budget

  /** Every message of the budget is the root prompt, a reservation in flight, a delivery, or lost to a restart. */
  ghost predicate Spending(w: World) {
    w.root.usedMessages == 1 + |Held(w.sends)| + |w.log| + w.lost && w.root.usedMessages <= w.root.limits.messages
  }

  /** Nothing is sent or delivered deeper than the limit. */
  ghost predicate Depths(limit: nat, sends: map<nat, Sending>, log: seq<Delivery>) {
    && (forall k :: 0 <= k < |log| ==> 1 <= log[k].depth <= limit)
    && (forall i :: i in sends ==>
          && 1 <= sends[i].depth
          && (sends[i].kind.Agent? || sends[i].stage != Checked ==> sends[i].depth <= limit))
  }

  ghost predicate Budget(w: World) { Spending(w) && Depths(w.root.limits.depth, w.sends, w.log) }

  lemma {:induction false} HeldPut(sends: map<nat, Sending>, id: nat, s: Sending)
    ensures Held(sends[id := s]) == if s.stage == Reserved || s.stage == Bounced then Held(sends) + {id}
        else Held(sends) - {id}
    ensures Landed(sends[id := s]) == if s.stage.Enqueued? then Landed(sends) + {id} else Landed(sends) - {id}
  {
  }

  lemma {:induction false} HeldDrop(sends: map<nat, Sending>, id: nat)
    ensures Held(sends - {id}) == Held(sends) - {id}
    ensures Landed(sends - {id}) == Landed(sends) - {id}
  {
  }

  /** What queue steps, and root steps other than a restart, leave alone. */
  ghost predicate SameAccounts(w: World, v: World) {
    && v.root.usedMessages == w.root.usedMessages && v.root.limits == w.root.limits
        && v.root.receipts == w.root.receipts
    && v.sends == w.sends && v.log == w.log && v.lost == w.lost && v.overlapped == w.overlapped
  }

  lemma {:induction false} QueueAccounts(w: World, step: QueueStep)
    ensures SameAccounts(w, ApplyQueue(w, step))
  {
  }

  lemma {:induction false} RootAccounts(w: World, step: RootStep)
    requires !step.Restart?
    ensures SameAccounts(w, ApplyRoot(w, step))
  {
  }

  /** The accounts after a send step: nothing, or the one move its stage allows. */
  ghost predicate SendMove(w: World, v: World, id: nat) {
    && v.lost == w.lost && w.overlapped <= v.overlapped && v.root.limits == w.root.limits
    && (|| SameAccounts(w, v)
        || Launched(w, v, id)
        || (id in w.sends && v.log == w.log && v.root.receipts == w.root.receipts && Settled(w, v, id))
        || (id in w.sends && w.sends[id].stage == Reserved && id in v.sends && Delivered(w, v, id))
        || (id in w.sends && w.sends[id].stage.Enqueued? && Committed(w, v, id)))
  }

  ghost predicate Launched(w: World, v: World, id: nat) {
    && id !in w.sends && id in v.sends && v.sends == w.sends[id := v.sends[id]] && v.sends[id].stage == Checked
    && 1 <= v.sends[id].depth && (v.sends[id].kind.Agent? ==> v.sends[id].depth <= w.root.limits.depth)
    && FindReceipt(w.root.receipts, v.sends[id].key).None?
    && ((exists i :: i in w.sends && w.sends[i].key == v.sends[id].key) ==> v.sends[id].key in v.overlapped)
    && v.log == w.log && v.root.receipts == w.root.receipts && v.root.usedMessages == w.root.usedMessages
  }

  /** Reserved, refused, bounced or refunded: the steps that only move the budget. */
  ghost predicate Settled(w: World, v: World, id: nat)
    requires id in w.sends
  {
    var s := w.sends[id];
    || (s.stage == Checked && v.sends == w.sends[id := s.(stage := Reserved)]
        && w.root.usedMessages < w.root.limits.messages && v.root.usedMessages == w.root.usedMessages + 1
        && (s.kind.Leaf? ==> s.depth <= w.root.limits.depth))
    || (s.stage == Checked && v.sends == w.sends - {id} && v.root.usedMessages == w.root.usedMessages)
    || (s.stage == Reserved && v.sends == w.sends[id := s.(stage := Bounced)]
        && v.root.usedMessages == w.root.usedMessages)
    || (s.stage == Bounced && v.sends == w.sends - {id} && v.root.usedMessages == Max(0, w.root.usedMessages - 1))
  }

  ghost predicate Delivered(w: World, v: World, id: nat)
    requires id in w.sends && id in v.sends
  {
    var s := w.sends[id];
    && v.sends[id].stage.Enqueued? && v.sends == w.sends[id := s.(stage := v.sends[id].stage)]
    && v.log == w.log + [Delivery(s.key, s.depth, v.sends[id].stage.prompt)]
    && v.root.receipts == w.root.receipts && v.root.usedMessages == w.root.usedMessages
  }

  function ReceiptOf(s: Sending): Receipt
    requires s.stage.Enqueued?
  {
    Receipt(s.key, s.digest, s.stage.prompt)
  }

  ghost predicate Committed(w: World, v: World, id: nat)
    requires id in w.sends && w.sends[id].stage.Enqueued?
  {
    && v.sends == w.sends - {id} && v.log == w.log && v.root.usedMessages == w.root.usedMessages
    && v.root.receipts == RecordReceipt(w.root.receipts, ReceiptOf(w.sends[id]))
  }

  lemma {:induction false} SendMovesOfStart(w: World, step: SendStep)
    requires step.StartSend? || step.StartLeaf?
    ensures SendMove(w, ApplySend(w, step), step.id)
  {
  }

  lemma {:induction false} SendMovesOfQueue(w: World, step: SendStep)
    requires step.Enqueue? || step.Commit?
    ensures SendMove(w, ApplySend(w, step), step.id)
  {
  }

  lemma {:induction false} SendMovesOfBudget(w: World, step: SendStep)
    requires step.Reserve? || step.Bounce? || step.Refund?
    ensures SendMove(w, ApplySend(w, step), step.id)
  {
  }

  lemma {:induction false} SendMoves(w: World, step: SendStep)
    ensures SendMove(w, ApplySend(w, step), step.id)
  {
    if step.StartSend? || step.StartLeaf? {
      SendMovesOfStart(w, step);
    } else if step.Enqueue? || step.Commit? {
      SendMovesOfQueue(w, step);
    } else {
      SendMovesOfBudget(w, step);
    }
  }

  lemma {:induction false} MoveSpending(w: World, v: World, id: nat)
    requires Spending(w) && SendMove(w, v, id)
    ensures Spending(v)
    ensures id in w.sends && w.sends[id].stage == Bounced && id !in v.sends
        ==> v.root.usedMessages == w.root.usedMessages - 1 >= 1
  {
    if id in v.sends {
      HeldPut(w.sends, id, v.sends[id]);
    } else {
      HeldDrop(w.sends, id);
      assert id in w.sends && w.sends[id].stage == Bounced ==> id in Held(w.sends);
    }
  }

  lemma {:induction false} MoveDepths(w: World, v: World, id: nat)
    requires Depths(w.root.limits.depth, w.sends, w.log) && SendMove(w, v, id)
    ensures Depths(v.root.limits.depth, v.sends, v.log)
  {
  }

  lemma {:induction false} MoveBudget(w: World, v: World, id: nat)
    requires Budget(w) && SendMove(w, v, id)
    ensures Budget(v)
    ensures id in w.sends && w.sends[id].stage == Bounced && id !in v.sends
        ==> v.root.usedMessages == w.root.usedMessages - 1 >= 1
  {
    MoveSpending(w, v, id);
    MoveDepths(w, v, id);
  }

  /** A refund is never clamped at zero. */
  lemma {:induction false} RefundIsExact(w: World, id: nat)
    requires Budget(w) && id in w.sends && w.sends[id].stage == Bounced
    ensures ApplySend(w, Refund(id)).root.usedMessages == w.root.usedMessages - 1 >= 1
  {
    SendMoves(w, Refund(id));
    MoveBudget(w, ApplySend(w, Refund(id)), id);
  }

  lemma {:induction false} StepBudget(w: World, step: Step)
    requires Budget(w)
    ensures Budget(Apply(w, step))
  {
    match step
    case OnQueue(q) => QueueAccounts(w, q);
    case OnSend(s) => SendMoves(w, s); MoveBudget(w, ApplySend(w, s), s.id);
    case OnRoot(r) =>
      if r.Restart? {
        assert Held(Apply(w, step).sends) == {};
      } else {
        RootAccounts(w, r);
      }
  }

  lemma {:induction false} BudgetAlways(w: World, steps: seq<Step>)
    requires Initial(w)
    ensures Budget(Run(w, steps))
    decreases |steps|
  {
    if steps == [] {
      assert Held(w.sends) == {};
    } else {
      var before := steps[..|steps| - 1];
      BudgetAlways(w, before);
      StepBudget(Run(w, before), steps[|steps| - 1]);
    }
  }

  lemma {:induction false} LimitsStay(w: World, steps: seq<Step>)
    requires Coherent(w.root)
    ensures Run(w, steps).root.limits == w.root.limits
  {
    Lifecycle(w, [], steps);
    assert [] + steps == steps;
  }

  /** Budget conservation under any interleaving: nothing is spent twice or beyond the limit. */
  lemma {:induction false} BudgetConservation(w: World, steps: seq<Step>)
    requires Initial(w)
    ensures Budget(Run(w, steps))
    ensures |Run(w, steps).log| <= w.root.limits.messages - 1
  {
    BudgetAlways(w, steps);
    LimitsStay(w, steps);
  }

  // ------------------------------------------------------------------ receipts

  ghost predicate ReceiptsCounted(w: World) {
    && UniqueKeys(w.root.receipts)
    && |w.root.receipts| + |Landed(w.sends)| <= |w.log|
  }

  ghost predicate ReceiptsRemembered(w: World, v: World) {
    forall k :: FindReceipt(w.root.receipts, k).Some? ==> FindReceipt(v.root.receipts, k).Some?
  }

  lemma {:induction false} MoveReceipts(w: World, v: World, id: nat)
    requires ReceiptsCounted(w) && SendMove(w, v, id)
    ensures ReceiptsCounted(v)
    ensures |w.root.receipts| + |Landed(w.sends)| <= MAX_RECEIPTS ==> ReceiptsRemembered(w, v)
  {
    if id in v.sends {
      HeldPut(w.sends, id, v.sends[id]);
    } else {
      HeldDrop(w.sends, id);
      if id in w.sends && w.sends[id].stage.Enqueued? && Committed(w, v, id) {
        assert id in Landed(w.sends);
        RecordKeeps(w.root.receipts, ReceiptOf(w.sends[id]));
      }
    }
  }

  lemma {:induction false} StepReceipts(w: World, step: Step)
    requires ReceiptsCounted(w)
    ensures ReceiptsCounted(Apply(w, step))
    ensures |w.root.receipts| + |Landed(w.sends)| <= MAX_RECEIPTS ==> ReceiptsRemembered(w, Apply(w, step))
  {
    match step
    case OnQueue(q) => QueueAccounts(w, q);
    case OnSend(s) => SendMoves(w, s); MoveReceipts(w, ApplySend(w, s), s.id);
    case OnRoot(r) =>
      if r.Restart? {
        assert Landed(Apply(w, step).sends) == {};
      } else {
        RootAccounts(w, r);
      }
  }

  lemma {:induction false} ReceiptsAlways(w: World, steps: seq<Step>)
    requires Initial(w)
    ensures ReceiptsCounted(Run(w, steps))
    decreases |steps|
  {
    if steps == [] {
      assert Landed(w.sends) == {};
    } else {
      ReceiptsAlways(w, steps[..|steps| - 1]);
      StepReceipts(Run(w, steps[..|steps| - 1]), steps[|steps| - 1]);
    }
  }

  /**
   * Over any run receipt keys are unique, and receipts, sends in flight and the root prompt never outnumber
   * the budget spent.
   */
  lemma {:induction false} ReceiptsWithinBudget(w: World, steps: seq<Step>)
    requires Initial(w)
    ensures var v := Run(w, steps);
      && UniqueKeys(v.root.receipts)
      && |v.root.receipts| + |Held(v.sends)| + |Landed(v.sends)| + 1 <= v.root.usedMessages <= w.root.limits.messages
  {
    ReceiptsAlways(w, steps);
    BudgetConservation(w, steps);
    LimitsStay(w, steps);
  }

  // ------------------------------------------------------------------ at most once

  /**
   * The history of one request key that was never in flight twice at once: it is in
   * flight at most once, not at all once its receipt is written, and a delivery has
   * either its receipt or its send still between enqueue and commit.
   */
  ghost predicate OnceFor(w: World, key: ReceiptKey) {
    && (forall i, j :: i in w.sends && j in w.sends && w.sends[i].key == key && w.sends[j].key == key ==> i == j)
    && (FindReceipt(w.root.receipts, key).Some? ==> forall i :: i in w.sends ==> w.sends[i].key != key)
    && (forall k :: 0 <= k < |w.log| && w.log[k].key == key ==>
          || FindReceipt(w.root.receipts, key).Some?
          || exists i :: i in w.sends && w.sends[i].key == key && w.sends[i].stage.Enqueued?)
    && (forall j, k :: 0 <= j < k < |w.log| && w.log[j].key == key ==> w.log[k].key != key)
  }

  ghost predicate Once(w: World) { forall key :: key !in w.overlapped ==> OnceFor(w, key) }

  lemma {:induction false} CommitOnceFor(w: World, v: World, id: nat, key: ReceiptKey)
    requires ReceiptsCounted(w) && |w.root.receipts| + |Landed(w.sends)| <= MAX_RECEIPTS
    requires OnceFor(w, key)
    requires id in w.sends && w.sends[id].stage.Enqueued? && Committed(w, v, id)
    ensures OnceFor(v, key)
  {
    assert id in Landed(w.sends);
    RecordKeeps(w.root.receipts, ReceiptOf(w.sends[id]));
    if w.sends[id].key != key {
      if FindReceipt(v.root.receipts, key).Some? {
        assert FindReceipt(v.root.receipts, key).value in w.root.receipts;
      }
      forall k | 0 <= k < |v.log| && v.log[k].key == key && FindReceipt(v.root.receipts, key).None?
        ensures exists i :: i in v.sends && v.sends[i].key == key && v.sends[i].stage.Enqueued?
      {
        var i :| i in w.sends && w.sends[i].key == key && w.sends[i].stage.Enqueued?;
        assert i in v.sends;
      }
    }
  }

  lemma {:induction false} MoveOnceFor(w: World, v: World, id: nat, key: ReceiptKey)
    requires ReceiptsCounted(w) && |w.root.receipts| + |Landed(w.sends)| <= MAX_RECEIPTS
    requires OnceFor(w, key) && key !in v.overlapped && SendMove(w, v, id)
    ensures OnceFor(v, key)
  {
    if id in w.sends && w.sends[id].stage.Enqueued? && Committed(w, v, id) {
      CommitOnceFor(w, v, id, key);
    } else {
      forall k | 0 <= k < |w.log| && w.log[k].key == key && FindReceipt(w.root.receipts, key).None?
        ensures exists i :: i in v.sends && v.sends[i].key == key && v.sends[i].stage.Enqueued?
        ensures id in w.sends && w.sends[id].stage == Reserved ==> w.sends[id].key != key
      {
        var i :| i in w.sends && w.sends[i].key == key && w.sends[i].stage.Enqueued?;
        assert i in v.sends && v.sends[i] == w.sends[i];
      }
      if id in w.sends && w.sends[id].stage == Reserved && id in v.sends && Delivered(w, v, id) {
        assert id in v.sends && v.sends[id].stage.Enqueued?;
      }
    }
  }

  lemma {:induction false} StepOnce(w: World, step: Step)
    requires ReceiptsCounted(w) && |w.root.receipts| + |Landed(w.sends)| <= MAX_RECEIPTS
    requires Once(w)
    ensures Once(Apply(w, step))
  {
    var v := Apply(w, step);
    forall key | key !in v.overlapped ensures OnceFor(v, key) {
      match step
      case OnQueue(q) => QueueAccounts(w, q); assert OnceFor(w, key);
      case OnSend(s) => SendMoves(w, s); assert OnceFor(w, key); MoveOnceFor(w, v, s.id, key);
      case OnRoot(r) =>
        if r.Restart? {
          assert key !in w.overlapped && OnceFor(w, key);
          assert forall i :: i in w.sends ==> w.sends[i].key in v.overlapped;
        } else {
          RootAccounts(w, r);
          assert OnceFor(w, key);
        }
    }
  }

  /**
   * Replay protection lasts for the root's life. With at most 201 messages the cap on
   * receipts never bites: receipts are unique and never forgotten, and a request key
   * never in flight twice at once is delivered at most once, however often it is sent.
   */
  lemma {:induction false} AtMostOnce(w: World, steps: seq<Step>)
    requires Initial(w) && w.root.limits.messages <= MAX_RECEIPTS + 1
    ensures ReceiptsCounted(Run(w, steps)) && |Run(w, steps).root.receipts| <= MAX_RECEIPTS
    ensures Once(Run(w, steps))
    ensures forall j, k :: 0 <= j < k < |Run(w, steps).log| && Run(w, steps).log[j].key !in Run(w, steps).overlapped ==>
      Run(w, steps).log[k].key != Run(w, steps).log[j].key
    decreases |steps|
  {
    if steps == [] {
      assert Landed(w.sends) == {};
    } else {
      var before := steps[..|steps| - 1];
      var u := Run(w, before);
      var step := steps[|steps| - 1];
      AtMostOnce(w, before);
      ReceiptsAlways(w, before);
      ReceiptsWithinBudget(w, before);
      StepOnce(u, step);
    }
    ReceiptsAlways(w, steps);
    ReceiptsWithinBudget(w, steps);
    forall j, k | 0 <= j < k < |Run(w, steps).log| && Run(w, steps).log[j].key !in Run(w, steps).overlapped
      ensures Run(w, steps).log[k].key != Run(w, steps).log[j].key
    {
      assert OnceFor(Run(w, steps), Run(w, steps).log[j].key);
    }
  }

  /** Once a receipt is written, a repeat of its request changes nothing at all, ever after. */
  lemma {:induction false} ReplayIsFree(w: World, before: seq<Step>, after: seq<Step>, id: nat, attempt: AttemptId,
                                        request: string,
                                        target: TabId, digest: string, role: Option<string>)
    requires Initial(w) && w.root.limits.messages <= MAX_RECEIPTS + 1
    requires attempt in Run(w, before + after).contexts
    requires FindReceipt(Run(w, before).root.receipts, SendKey(Run(w, before + after).contexts[attempt].tab, attempt,
        request)).Some?
    ensures ApplySend(Run(w, before + after), StartSend(id, attempt, request, target, digest, role))
        == Run(w, before + after)
  {
    ReceiptsLast(w, before, after);
  }

  lemma {:induction false} ReceiptsLast(w: World, before: seq<Step>, after: seq<Step>)
    requires Initial(w) && w.root.limits.messages <= MAX_RECEIPTS + 1
    ensures ReceiptsRemembered(Run(w, before), Run(w, before + after))
  {
    if after == [] {
      assert before + after == before;
    } else {
      var k := |after| - 1;
      ReceiptsLast(w, before, after[..k]);
      assert (before + after)[..|before + after| - 1] == before + after[..k];
      var u := Run(w, before + after[..k]);
      ReceiptsAlways(w, before + after[..k]);
      ReceiptsWithinBudget(w, before + after[..k]);
      StepReceipts(u, after[k]);
    }
  }
}
