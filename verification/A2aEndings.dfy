/** How a root ends: what each step that could end it does, and what must have happened before. */
module A2aEndings {
  import opened Common
  import opened A2aRoot
  import opened A2aRuns
  import opened A2aBudget
  import opened A2aTheorems

  // ------------------------------------------------------------------ one step

  /** The record has been written once, and nothing but its end has changed. */
  ghost predicate OnlyItsEnd(a: Root, b: Root) {
    b == a.(revision := a.revision + 1, status := b.status, endedAt := b.endedAt, endReason := b.endReason,
            finish := b.finish)
  }

  ghost predicate EndsAs(a: Root, b: Root, status: Status, reason: EndReason, now: Time) {
    OnlyItsEnd(a, b) && b.status == status && b.endReason == Some(reason) && b.endedAt == Some(now) && b.finish.None?
  }

  /** The turn a pending end waits for is over or gone. */
  ghost predicate Awaited(root: Root, attempt: AttemptId) {
    root.status == Ending && root.finish.Some? && root.finish.value.attempt == attempt
  }

  /**
   * A pending stop always takes effect, a pending completion if and only if its turn landed; otherwise it is
   * withdrawn. Nothing else is confirmed.
   */
  lemma ConfirmOutcome(w: World, attempt: AttemptId, landed: bool, now: Time)
    ensures
      var a, b := w.root, Apply(w, OnRoot(Confirm(attempt, landed, now))).root;
      if !Awaited(a, attempt) then b == a
      else
        && OnlyItsEnd(a, b) && b.finish.None?
        && (b.status == Stopped <==> a.finish.value.intent == Stop)
        && (b.status == Completed <==> a.finish.value.intent == Complete && landed)
        && (b.status == Running <==> a.finish.value.intent == Complete && !landed)
        && (Over(b) ==> EndsAs(a, b, b.status, a.finish.value.reason, now))
        && (b.status == Running ==> b.endReason == Some(FinishConfirmationFailed) && b.endedAt == a.endedAt)
  {
  }

  /** What the scan before the user's end found lies in members' queues. */
  ghost predicate Found(w: World, outstanding: seq<Work>) {
    forall x :: x in outstanding ==> IsMember(w.root.members, x.tab)
  }

  /** The user completes a root that is not over exactly if there is no work; otherwise nothing happens. */
  lemma UserCompletes(w: World, outstanding: seq<Work>, now: Time)
    requires Found(w, outstanding)
    ensures
      var a, b := w.root, Apply(w, OnRoot(EndFromUser(Complete, outstanding, now))).root;
      && (b != a <==> !Over(a) && outstanding == [])
      && (b != a ==> EndsAs(a, b, Completed, CompletedByUser, now))
  {
  }

  /** Stopping waits for the first of the work there is, and stopping again does not wait. */
  lemma UserStops(w: World, outstanding: seq<Work>, now: Time)
    requires Found(w, outstanding)
    ensures
      var a, b := w.root, Apply(w, OnRoot(EndFromUser(Stop, outstanding, now))).root;
      if Over(a) then b == a
      else if a.status == Ending then EndsAs(a, b, Stopped, StoppedByUserUnconfirmed, now)
      else if outstanding == [] then EndsAs(a, b, Stopped, StoppedByUser, now)
      else
        && OnlyItsEnd(a, b) && b.status == Ending && b.endedAt == a.endedAt && b.endReason == a.endReason
        && b.finish == Some(PendingFinish(Stop, StoppedByUser, outstanding[0].tab, outstanding[0].attempt))
  {
  }

  /** A scan is at hand that answers this finish, and the root is neither ending nor over. */
  ghost predicate CanFinish(w: World, id: nat) {
    id in w.sweeps && w.sweeps[id].except.Some? && w.root.members != [] && !Over(w.root) && w.root.status != Ending
  }

  /** `finish` is accepted exactly if its scan found no other work; then the root waits for the caller's own turn. */
  lemma FinishOutcome(w: World, id: nat, reason: FinishReason, attempt: AttemptId)
    ensures
      var a, b := w.root, Apply(w, OnRoot(AcceptFinish(id, reason, attempt))).root;
      && (b != a <==> CanFinish(w, id) && w.sweeps[id].clean)
      && (b != a ==> OnlyItsEnd(a, b) && b.status == Ending && b.endedAt == a.endedAt && b.endReason == a.endReason
                     && b.finish == Some(PendingFinish(Complete, reason, a.originTab, attempt)))
  {
  }

  lemma QuietOutcome(w: World, id: nat, now: Time)
    ensures
      var a, b := w.root, Apply(w, OnRoot(QuietSettle(id, now))).root;
      && (b != a <==> id in w.sweeps && w.sweeps[id] == Sweep(None, true) && a.status == Running && a.finish.None?)
      && (b != a ==> EndsAs(a, b, Completed, CompletedNoWork, now)
                     && id !in Apply(w, OnRoot(QuietSettle(id, now))).sweeps)
  {
  }

  // ------------------------------------------------------------------ what came before

  /** This step makes the root wait for that end. */
  ghost predicate Begins(u: World, step: Step, f: PendingFinish) {
    match step
    case OnRoot(AcceptFinish(id, reason, attempt)) =>
      CanFinish(u, id) && u.sweeps[id].clean && f == PendingFinish(Complete, reason, u.root.originTab, attempt)
    case OnRoot(EndFromUser(Stop, outstanding, _)) =>
      && u.root.status != Ending && outstanding != []
      && f == PendingFinish(Stop, StoppedByUser, outstanding[0].tab, outstanding[0].attempt)
    case _ => false
  }

  /** The root has been waiting for that end ever since a step began it. */
  ghost predicate WaitingSince(w: World, steps: seq<Step>, f: PendingFinish)
    decreases |steps|
  {
    && steps != [] && Run(w, steps).root.finish == Some(f)
    && var init, last := steps[..|steps| - 1], steps[|steps| - 1];
       Begins(Run(w, init), last, f) || WaitingSince(w, init, f)
  }

  lemma {:induction false} RootEnd(w: World, r: RootStep, f: PendingFinish)
    requires Coherent(w.root) && ApplyRoot(w, r).root.finish == Some(f)
    ensures w.root.finish == Some(f) || Begins(w, OnRoot(r), f)
  {
  }

  lemma {:induction false} StepEnd(w: World, step: Step, f: PendingFinish)
    requires Coherent(w.root) && Apply(w, step).root.finish == Some(f)
    ensures w.root.finish == Some(f) || Begins(w, step, f)
  {
    match step
    case OnRoot(r) => RootEnd(w, r, f);
    case OnSend(s) => SendLeavesEnd(w, s);
    case OnQueue(q) => QueueLeavesEnd(w, q);
  }

  lemma SendLeavesEnd(w: World, s: SendStep)
    ensures var v := ApplySend(w, s).root;
      v.status == w.root.status && v.finish == w.root.finish && v.endedAt == w.root.endedAt
      && v.endReason == w.root.endReason
  {
  }

  lemma QueueLeavesEnd(w: World, q: QueueStep)
    ensures var v := ApplyQueue(w, q).root;
      && v.finish == w.root.finish && v.endedAt == w.root.endedAt && v.endReason == w.root.endReason
      && (Over(v) <==> Over(w.root)) && (Over(v) ==> v.status == w.root.status)
  {
  }

  /** A root that waits for an end has been asked for it, and has waited since. */
  lemma {:induction false} PendingWasAsked(w: World, steps: seq<Step>, f: PendingFinish)
    requires Initial(w) && Run(w, steps).root.finish == Some(f)
    ensures WaitingSince(w, steps, f)
    decreases |steps|
  {
    if steps != [] {
      var n := |steps| - 1;
      CoherentAlways(w, steps[..n]);
      StepEnd(Run(w, steps[..n]), steps[n], f);
      if !Begins(Run(w, steps[..n]), steps[n], f) { PendingWasAsked(w, steps[..n], f); }
    }
  }

  /** The part of a run up to and with the step that ended the root. */
  function EndedBy(w: World, steps: seq<Step>): (r: seq<Step>)
    requires !Over(w.root) && Over(Run(w, steps).root)
    ensures r != [] && r <= steps && !Over(Run(w, r[..|r| - 1]).root) && Over(Run(w, r).root)
    decreases |steps|
  {
    var init := steps[..|steps| - 1];
    if Over(Run(w, init).root) then EndedBy(w, init) else steps
  }

  /** What a step that ends a root is, and how the root reads afterwards. */
  ghost predicate EndedAs(w: World, before: seq<Step>, step: Step, r: Root) {
    var u := Run(w, before);
    match step
    case OnRoot(QuietSettle(id, now)) =>
      && u.root.status == Running && id in u.sweeps && u.sweeps[id] == Sweep(None, true)
      && r.status == Completed && r.endReason == Some(CompletedNoWork) && r.endedAt == Some(now)
    case OnRoot(EndFromUser(Complete, outstanding, now)) =>
      outstanding == [] && r.status == Completed && r.endReason == Some(CompletedByUser) && r.endedAt == Some(now)
    case OnRoot(EndFromUser(Stop, outstanding, now)) =>
      && (outstanding == [] || u.root.status == Ending) && r.status == Stopped && r.endedAt == Some(now)
      && r.endReason == Some(if u.root.status == Ending then StoppedByUserUnconfirmed else StoppedByUser)
    case OnRoot(Confirm(attempt, landed, now)) =>
      && Awaited(u.root, attempt)
      && var f := u.root.finish.value;
         && WaitingSince(w, before, f) && r.endReason == Some(f.reason) && r.endedAt == Some(now)
         && (f.intent == Complete ==> landed)
         && r.status == if f.intent == Stop then Stopped else Completed
    case _ => false
  }

  lemma UserEndsAs(w: World, before: seq<Step>, intent: Intent, outstanding: seq<Work>, now: Time)
    requires var u := Run(w, before); !Over(u.root) && Over(ApplyRoot(u, EndFromUser(intent, outstanding, now)).root)
    ensures
      var step := OnRoot(EndFromUser(intent, outstanding, now));
      EndedAs(w, before, step, Apply(Run(w, before), step).root)
  {
    var u := Run(w, before);
    if Found(u, outstanding) {
      if intent == Complete { UserCompletes(u, outstanding, now); } else { UserStops(u, outstanding, now); }
    }
  }

  lemma ConfirmEndsAs(w: World, before: seq<Step>, attempt: AttemptId, landed: bool, now: Time)
    requires Initial(w) && !Over(Run(w, before).root)
    requires Over(ApplyRoot(Run(w, before), Confirm(attempt, landed, now)).root)
    ensures
      var step := OnRoot(Confirm(attempt, landed, now));
      EndedAs(w, before, step, Apply(Run(w, before), step).root)
  {
    var u := Run(w, before);
    ConfirmOutcome(u, attempt, landed, now);
    PendingWasAsked(w, before, u.root.finish.value);
  }

  lemma {:induction false} RootEndsAs(w: World, before: seq<Step>, r: RootStep)
    requires Initial(w) && !Over(Run(w, before).root) && Over(ApplyRoot(Run(w, before), r).root)
    ensures EndedAs(w, before, OnRoot(r), ApplyRoot(Run(w, before), r).root)
  {
    match r
    case Confirm(attempt, landed, now) => ConfirmEndsAs(w, before, attempt, landed, now);
    case EndFromUser(intent, outstanding, now) => UserEndsAs(w, before, intent, outstanding, now);
    case QuietSettle(id, now) => QuietOutcome(Run(w, before), id, now);
    case AcceptFinish(id, reason, attempt) => FinishOutcome(Run(w, before), id, reason, attempt);
    case _ =>
  }

  lemma {:induction false} StepEndsAs(w: World, before: seq<Step>, step: Step)
    requires Initial(w) && !Over(Run(w, before).root) && Over(Apply(Run(w, before), step).root)
    ensures EndedAs(w, before, step, Apply(Run(w, before), step).root)
  {
    match step
    case OnSend(s) => SendLeavesEnd(Run(w, before), s);
    case OnQueue(q) => QueueLeavesEnd(Run(w, before), q);
    case OnRoot(r) => RootEndsAs(w, before, r);
  }

  // ------------------------------------------------------------------ theorem

  ghost predicate SameEnd(a: Root, b: Root) {
    b.status == a.status && b.endReason == a.endReason && b.endedAt == a.endedAt
  }

  lemma RootEndStays(u: World, r: RootStep)
    requires Over(u.root)
    ensures SameEnd(u.root, ApplyRoot(u, r).root)
  {
    match r
    case Confirm(attempt, landed, now) => ConfirmOutcome(u, attempt, landed, now);
    case EndFromUser(intent, outstanding, now) =>
      if Found(u, outstanding) {
        if intent == Complete { UserCompletes(u, outstanding, now); } else { UserStops(u, outstanding, now); }
      }
    case QuietSettle(id, now) => QuietOutcome(u, id, now);
    case AcceptFinish(id, reason, attempt) => FinishOutcome(u, id, reason, attempt);
    case _ =>
  }

  lemma EndStays(u: World, step: Step)
    requires Over(u.root)
    ensures SameEnd(u.root, Apply(u, step).root)
  {
    match step
    case OnSend(s) => SendLeavesEnd(u, s);
    case OnQueue(q) => QueueLeavesEnd(u, q);
    case OnRoot(r) => RootEndStays(u, r);
  }

  /**
   * However a root came to be over, the record says how: by its own turn, which asked for the end and then landed;
   * by the user, completing without work or stopping; or by a scan that found nothing. It says so for ever.
   */
  lemma {:induction false} HowItEnded(w: World, steps: seq<Step>)
    requires Initial(w) && Over(Run(w, steps).root)
    ensures
      var part := EndedBy(w, steps);
      EndedAs(w, part[..|part| - 1], part[|part| - 1], Run(w, steps).root)
    decreases |steps|
  {
    var n := |steps| - 1;
    if Over(Run(w, steps[..n]).root) {
      HowItEnded(w, steps[..n]);
      EndStays(Run(w, steps[..n]), steps[n]);
    } else {
      StepEndsAs(w, steps[..n], steps[n]);
    }
  }

  /** So an agent's own reason is given exactly if an agent asked for it, has not been overruled since, and landed. */
  lemma {:induction false} AgentsReason(w: World, steps: seq<Step>)
    requires Initial(w) && Over(Run(w, steps).root)
    ensures
      var part, r := EndedBy(w, steps), Run(w, steps).root;
      var before, last := part[..|part| - 1], part[|part| - 1];
      r.endReason in {Some(Finished), Some(BudgetLimited), Some(DepthLimited)} <==>
        && last.OnRoot? && last.r.Confirm? && last.r.landed && Run(w, before).root.finish.Some?
        && Run(w, before).root.finish.value.intent == Complete
  {
    HowItEnded(w, steps);
    var part := EndedBy(w, steps);
    var before, last := part[..|part| - 1], part[|part| - 1];
    if last.OnRoot? && last.r.Confirm? { ReasonFits(w, before, Run(w, before).root.finish.value); }
  }

  /** A pending completion has an agent's reason, a pending stop the user's. */
  lemma {:induction false} ReasonFits(w: World, steps: seq<Step>, f: PendingFinish)
    requires WaitingSince(w, steps, f)
    ensures f.intent == Complete <==> f.reason in {Finished, BudgetLimited, DepthLimited}
    decreases |steps|
  {
    var n := |steps| - 1;
    if !Begins(Run(w, steps[..n]), steps[n], f) { ReasonFits(w, steps[..n], f); }
  }
}
