/** How far an opening can still get: a view that is opening, and whether a reply can end that. */
module DocumentOpenings {
  import opened Common
  import opened DocumentChunks
  import opened DocumentLoading
  import opened DocumentRuns

  /** A reply to this request, the opening's own, would still be obeyed. */
  predicate LiveAt(w: World, attempt: nat) {
    attempt in w.requests && w.requests[attempt].OpenRequest? && IsCurrent(w.l, w.requests[attempt])
  }

  ghost predicate Live(w: World) { exists a: nat :: LiveAt(w, a) }

  /** The viewer is deactivated, or the opening's own request comes back as the abort error. */
  predicate Cuts(w: World, step: Step) {
    step == UserActivates(false) || (step.Answers? && LiveAt(w, step.attempt) && step.reply.Cancelled?)
  }

  /** Since the present opening began, it has been cut off; a new opening is a new epoch. */
  ghost predicate CutOff(steps: seq<Step>) {
    if steps == [] then false
    else
      var before, last := steps[..|steps| - 1], steps[|steps| - 1];
      Run(steps).l.view.epoch == Run(before).l.view.epoch && (CutOff(before) || Cuts(Run(before), last))
  }

  /** Without a document nothing can be loaded. */
  ghost predicate OpeningOk(w: World) { w.l.view.status == Opening ==> w.l.view.doc.None? && w.l.view.source.Some? }

  /** What a step does to an opening. */
  ghost predicate StepOk(w: World, step: Step, v: World) {
    && OpeningOk(v)
    && (v.l.view.status == Opening && v.l.view.epoch == w.l.view.epoch ==>
          w.l.view.status == Opening && (Live(v) <==> Live(w) && !Cuts(w, step)))
    && (v.l.view.status == Opening && v.l.view.epoch != w.l.view.epoch ==> Live(v))
  }

  /** A new opening has sent its request. */
  lemma StartIsLive(w: World, u: World, source: Source, reopened: bool, depth: nat, waiter: Option<Waiter>,
      unwinds: bool, past: Past)
    requires AttemptsOk(u.l) && u.l.view.epoch == w.l.view.epoch
    ensures
      var v := Settle(u, StartOpen(u.l, source, reopened, depth).(waiter := waiter, unwinds := unwinds), past);
      v.l.view.epoch != w.l.view.epoch && OpeningOk(v) && Live(v)
  {
    var v := Settle(u, StartOpen(u.l, source, reopened, depth).(waiter := waiter, unwinds := unwinds), past);
    assert LiveAt(v, v.l.attempt);
  }

  lemma OpeningUser(env: Env, w: World, step: Step)
    requires Inv(env, w) && OpeningOk(w) && !step.Answers? && !step.Resumes? && !step.Unwinds?
    ensures StepOk(w, step, Apply(w, step))
  {
    var v := Apply(w, step);
    match step
    case UserOpens(source) => StartIsLive(w, w, source, false, 0, None, false, w.past);
    case UserLoads(manual) =>
    case UserRetries =>
      if w.l.view.doc.None? && w.l.view.source.Some? {
        StartIsLive(w, w, w.l.view.source.value, false, 0, None, false, w.past);
      }
    case UserActivates(active) =>
      forall a: nat | LiveAt(v, a) ensures active && LiveAt(w, a) { assert RequestOk(w.l, a, w.requests[a]); }
      forall a: nat | LiveAt(w, a) && active ensures LiveAt(v, a) { }
    case UserCloses =>
  }

  /** A reply that is no longer wanted leaves the view and the request that is. */
  lemma OpeningStale(env: Env, w: World, attempt: nat, reply: Reply)
    requires Inv(env, w) && OpeningOk(w) && attempt in w.requests && !IsCurrent(w.l, w.requests[attempt])
    ensures StepOk(w, Answers(attempt, reply), Apply(w, Answers(attempt, reply)))
  {
    var v := Apply(w, Answers(attempt, reply));
    StaleRepliesAreInert(env, w, attempt, reply);
    assert RequestOk(w.l, attempt, w.requests[attempt]);
    assert v.requests == w.requests - {attempt};
    assert forall a: nat :: LiveAt(v, a) <==> LiveAt(w, a);
  }

  /** The opening's own reply ends it, or starts another, unless it is the abort error. */
  lemma OpeningReply(env: Env, w: World, attempt: nat, reply: Reply)
    requires Inv(env, w) && OpeningOk(w) && LiveAt(w, attempt)
    ensures StepOk(w, Answers(attempt, reply), Apply(w, Answers(attempt, reply)))
  {
    var v, r := Apply(w, Answers(attempt, reply)), w.requests[attempt];
    var u := w.(requests := w.requests - {attempt});
    assert RequestOk(w.l, attempt, r);
    if reply.Cancelled? {
      forall a: nat | LiveAt(v, a) ensures false { OneLiveRequest(env, w, a, attempt); }
    } else {
      var o := OpenReplied(w.l, r, reply);
      if o.request.Some? {
        StartIsLive(w, u.(l := u.l.(controller := None)), r.from.value, false, r.depth + 1,
            Some(Waiter(r.source, r.depth)), false, w.past);
      }
    }
  }

  /** A chunk that comes leaves nothing opening, unless it reopens its document. */
  lemma ChunkOpensNothing(l: Loader, r: Request, reply: Reply)
    requires r.ChunkRequest? && r.captured.doc.Some? && r.captured.source.Some? && l.view.status != Opening
    requires ChunkReplied(l, r, reply).request.None?
    ensures ChunkReplied(l, r, reply).loader.view.status != Opening
  {
  }

  lemma OpeningReopens(w: World, attempt: nat, reply: Reply)
    requires AttemptsOk(w.l) && attempt in w.requests && IsCurrent(w.l, w.requests[attempt])
    requires w.requests[attempt].ChunkRequest? && reply == Refused(IdUnknown) && !w.l.reopened
        && w.requests[attempt].captured.doc.Some? && w.requests[attempt].captured.source.Some?
    ensures StepOk(w, Answers(attempt, reply), Apply(w, Answers(attempt, reply)))
  {
    var u := w.(requests := w.requests - {attempt}, l := w.l.(inFlight := false, controller := None));
    StartIsLive(w, u, w.requests[attempt].captured.source.value, true, 0, None, true, w.past);
  }

  /** A chunk of the present document: nothing is being opened. */
  lemma OpeningChunk(env: Env, w: World, attempt: nat, reply: Reply)
    requires Inv(env, w) && OpeningOk(w) && attempt in w.requests && IsCurrent(w.l, w.requests[attempt])
    requires w.requests[attempt].ChunkRequest?
    ensures StepOk(w, Answers(attempt, reply), Apply(w, Answers(attempt, reply)))
  {
    assert RequestOk(w.l, attempt, w.requests[attempt]);
    if ChunkReplied(w.l, w.requests[attempt], reply).request.Some? {
      OpeningReopens(w, attempt, reply);
    } else {
      ChunkOpensNothing(w.l, w.requests[attempt], reply);
    }
  }

  lemma OpeningResumes(env: Env, w: World, waiter: nat)
    requires Inv(env, w) && OpeningOk(w) && waiter in w.waiters
    ensures StepOk(w, Resumes(waiter), Apply(w, Resumes(waiter)))
  {
    var u, x := w.(waiters := w.waiters - {waiter}), w.waiters[waiter];
    if w.l.view.status == Open && w.l.view.doc.Some? {
      StartIsLive(w, u, x.source.(parent := DocId(w.l.view)), false, x.depth + 1, None, false, w.past);
    } else {
      assert forall a: nat :: LiveAt(u, a) <==> LiveAt(w, a);
    }
  }

  lemma OpeningStep(env: Env, w: World, step: Step)
    requires Inv(env, w) && OpeningOk(w)
    ensures StepOk(w, step, Apply(w, step))
  {
    match step
    case Answers(attempt, reply) =>
      if attempt !in w.requests {
      } else if !IsCurrent(w.l, w.requests[attempt]) { OpeningStale(env, w, attempt, reply); }
      else if w.requests[attempt].OpenRequest? { OpeningReply(env, w, attempt, reply); }
      else { OpeningChunk(env, w, attempt, reply); }
    case Resumes(waiter) => if waiter in w.waiters { OpeningResumes(env, w, waiter); }
    case Unwinds => assert forall a: nat :: LiveAt(Apply(w, step), a) <==> LiveAt(w, a);
    case _ => OpeningUser(env, w, step);
  }

  lemma {:induction false} OpeningAlways(env: Env, steps: seq<Step>)
    requires Fair(env, steps)
    ensures OpeningOk(Run(steps))
    ensures Run(steps).l.view.status == Opening ==> (Live(Run(steps)) <==> !CutOff(steps))
  {
    if steps != [] {
      var n := |steps| - 1;
      FairPrefix(env, steps);
      OpeningAlways(env, steps[..n]);
      InvAlways(env, steps[..n]);
      OpeningStep(env, Run(steps[..n]), steps[n]);
    }
  }

  // ------------------------------------------------------------------ theorems

  /**
   * A view that is opening still waits for a reply that it will obey if and only if, since that opening began, the
   * viewer has not been deactivated and the opening's own request has not come back as the abort error.
   */
  lemma {:induction false} OpeningIsAnswered(env: Env, steps: seq<Step>)
    requires Fair(env, steps) && Run(steps).l.view.status == Opening
    ensures Live(Run(steps)) <==> !CutOff(steps)
  {
    OpeningAlways(env, steps);
  }

  /** An opening that has been cut off stays as it is until something is opened anew, or closed. */
  lemma {:induction false} CutOffStays(env: Env, steps: seq<Step>, step: Step)
    requires Fair(env, steps + [step]) && Run(steps).l.view.status == Opening && CutOff(steps)
    requires !step.UserOpens? && !step.UserRetries? && !step.UserCloses?
    ensures Run(steps + [step]).l.view == Run(steps).l.view && CutOff(steps + [step])
  {
    var longer := steps + [step];
    assert longer[..|steps|] == steps;
    FairPrefix(env, longer);
    OpeningAlways(env, steps);
    InvAlways(env, steps);
    CutOffStep(env, Run(steps), step);
  }

  lemma CutOffStep(env: Env, w: World, step: Step)
    requires Inv(env, w) && OpeningOk(w) && w.l.view.status == Opening && !Live(w)
    requires !step.UserOpens? && !step.UserRetries? && !step.UserCloses?
    ensures Apply(w, step).l.view == w.l.view
  {
    if step.Answers? && step.attempt in w.requests {
      assert RequestOk(w.l, step.attempt, w.requests[step.attempt]);
      assert !LiveAt(w, step.attempt);
    }
  }

  /** Deactivating the viewer while it opens a document does that, even if it is activated again. */
  lemma {:induction false} DeactivationStrandsOpening(env: Env, source: Source)
    ensures
      var steps := [UserOpens(source)] + [UserActivates(false)] + [UserActivates(true)];
      Fair(env, steps) && Run(steps).l.view.status == Opening && Run(steps).l.active && CutOff(steps)
  {
    var first := [UserOpens(source)];
    assert [] + first == first;
    FairExtends(env, [], UserOpens(source));
    FairExtends(env, first, UserActivates(false));
    FairExtends(env, first + [UserActivates(false)], UserActivates(true));
    CutOffLast(first, UserActivates(false));
    CutOffLast(first + [UserActivates(false)], UserActivates(true));
  }

  lemma CutOffLast(steps: seq<Step>, step: Step)
    ensures CutOff(steps + [step])
        <==> Run(steps + [step]).l.view.epoch == Run(steps).l.view.epoch && (CutOff(steps) || Cuts(Run(steps), step))
  {
    assert (steps + [step])[..|steps|] == steps;
  }

  /** So does an abort error for the opening's request. */
  lemma {:induction false} AbortStrandsOpening(env: Env, source: Source)
    ensures
      var steps := [UserOpens(source)] + [Answers(2, Cancelled)];
      Fair(env, steps) && Run(steps).l.view.status == Opening && CutOff(steps)
  {
    var first := [UserOpens(source)];
    assert [] + first == first;
    FairExtends(env, [], UserOpens(source));
    FairExtends(env, first, Answers(2, Cancelled));
    CutOffLast(first, Answers(2, Cancelled));
  }
}
