/** As what conversations join a root: the role, the level and the parent each member keeps for ever. */
module A2aJoining {
  import opened Common
  import opened A2aRoot
  import opened A2aRuns
  import opened A2aQuiet
  import opened A2aTheorems
  import opened A2aDisturbed
  import opened A2aMessages
  import opened A2aSettlement

  /**
   * What makes `m` a member: the dispatch of one of its prompts, as the root's own role at level 0 if that is the
   * prompt the root began with, else in the default role at level 1; or the commit of a message to it, in the role
   * the sender asked for if there is such a role, one level below the sender.
   */
  ghost predicate JoinsAs(u: World, step: Step, m: Member) {
    match step
    case OnQueue(BeginDispatch(_, p, thread, _, _)) =>
      && p in u.prompts && m.tab == u.prompts[p].tab && m.thread == Some(thread)
      && m.parent == (if u.prompts[p].meta.Some? then u.prompts[p].meta.value.from else None)
      && if m.tab == u.root.originTab && p == u.root.originPrompt then m.role == u.root.policy.rootRole && m.level == 0
         else m.role == u.root.policy.defaultRole && m.level == 1
    case OnSend(Commit(id)) =>
      && id in u.sends && u.sends[id].kind.Agent? && u.sends[id].stage.Enqueued?
      && var s := u.sends[id];
         && m.tab == s.target && m.thread == Some(s.stage.thread) && m.parent == Some(s.from)
         && m.role == (if s.role.Some? && s.role.value in u.root.policy.roles then s.role.value
                       else u.root.policy.defaultRole)
         && m.level == (var sender := FindMember(u.root.members, s.from);
                        if sender.Some? then sender.value.level + 1 else 1)
    case _ => false
  }

  /** A member is added at the end, or none is. */
  lemma {:induction false} StepJoins(u: World, step: Step)
    ensures
      var a, b := u.root.members, Apply(u, step).root.members;
      |b| == |a| || (|b| == |a| + 1 && JoinsAs(u, step, b[|a|]) && !IsMember(a, b[|a|].tab))
  {
    match step
    case OnQueue(q) => QueueJoins(u, q);
    case OnSend(s) => SendJoins(u, s);
    case OnRoot(r) =>
  }

  lemma QueueJoins(u: World, q: QueueStep)
    ensures
      var a, b := u.root.members, ApplyQueue(u, q).root.members;
      |b| == |a| || (|b| == |a| + 1 && JoinsAs(u, OnQueue(q), b[|a|]) && !IsMember(a, b[|a|].tab))
  {
    if q.BeginDispatch? && q.p in u.prompts {
      NotMember(u.root.members, u.prompts[q.p].tab);
    }
  }

  lemma SendJoins(u: World, s: SendStep)
    ensures
      var a, b := u.root.members, ApplySend(u, s).root.members;
      |b| == |a| || (|b| == |a| + 1 && JoinsAs(u, OnSend(s), b[|a|]) && !IsMember(a, b[|a|].tab))
  {
    if s.Commit? && s.id in u.sends { NotMember(u.root.members, u.sends[s.id].target); }
  }

  lemma NotMember(ms: seq<Member>, tab: TabId)
    ensures FindMember(ms, tab).None? <==> !IsMember(ms, tab)
  {
  }

  /** How many steps came before the one that made member `i` a member. */
  function Before(w: World, steps: seq<Step>, i: nat): (n: nat)
    requires |w.root.members| <= i < |Run(w, steps).root.members|
    ensures n < |steps|
    decreases |steps|
  {
    var init := steps[..|steps| - 1];
    if i < |Run(w, init).root.members| then Before(w, init, i) else |steps| - 1
  }

  lemma {:induction false} BeforeIs(w: World, steps: seq<Step>, i: nat)
    requires |w.root.members| <= i < |Run(w, steps).root.members|
    ensures var n := Before(w, steps, i);
      |Run(w, steps[..n]).root.members| == i && |Apply(Run(w, steps[..n]), steps[n]).root.members| == i + 1
    decreases |steps|
  {
    var m := |steps| - 1;
    if i < |Run(w, steps[..m]).root.members| {
      BeforeIs(w, steps[..m], i);
      assert steps[..m][..Before(w, steps, i)] == steps[..Before(w, steps, i)];
    } else {
      StepJoins(Run(w, steps[..m]), steps[m]);
    }
  }

  /** ... but for the thread, which is filled in later if it was missing. */
  ghost predicate JoinedAs(u: World, step: Step, m: Member) { exists thread :: JoinsAs(u, step, m.(thread := thread)) }

  lemma {:induction false} GrownFrom(u: World, step: Step, ms: seq<Member>)
    requires |Apply(u, step).root.members| > |u.root.members| && Grows(Apply(u, step).root.members, ms)
    ensures var i := |u.root.members|;
      i < |ms| && JoinedAs(u, step, ms[i]) && !IsMember(u.root.members, ms[i].tab)
  {
    StepJoins(u, step);
    var i := |u.root.members|;
    var m := Apply(u, step).root.members[i];
    assert ms[i].(thread := m.thread) == m;
  }

  /** Every member joined by a dispatch of its own or by the commit of a message to it, and is what it was then. */
  lemma {:induction false} MembersJoinAs(w: World, steps: seq<Step>, i: nat)
    requires Initial(w) && i < |Run(w, steps).root.members|
    ensures
      var n, m := Before(w, steps, i), Run(w, steps).root.members[i];
      JoinedAs(Run(w, steps[..n]), steps[n], m) && !IsMember(Run(w, steps[..n]).root.members, m.tab)
  {
    var n := Before(w, steps, i);
    BeforeIs(w, steps, i);
    LaterMembers(w, steps, n);
    GrownFrom(Run(w, steps[..n]), steps[n], Run(w, steps).root.members);
  }

  /** A member whose conversation had no thread yet has this one; every other is as it was. */
  predicate Learned(a: Member, tab: TabId, thread: string, b: Member) {
    b == if a.tab == tab && (a.thread.None? || a.thread == Some("")) then a.(thread := Some(thread)) else a
  }

  /** A dispatch into the root tells the record which thread its conversation runs in, if it does not know one. */
  lemma DispatchTellsThread(w: World, attempt: AttemptId, p: PromptId, thread: string, depth: nat, now: Time, i: nat)
    requires i < |w.root.members| && Waits(w, p, attempt)
    requires w.prompts[p].meta.Some? || Adopts(w, attempt, p, depth)
    ensures
      var ms := ApplyQueue(w, BeginDispatch(attempt, p, thread, depth, now)).root.members;
      i < |ms| && Learned(w.root.members[i], w.prompts[p].tab, thread, ms[i])
  {
  }

  /** So does the commit of a message to it. */
  lemma CommitTellsThread(w: World, id: nat, i: nat)
    requires i < |w.root.members| && id in w.sends && w.sends[id].kind.Agent? && w.sends[id].stage.Enqueued?
    ensures
      var ms := ApplySend(w, Commit(id)).root.members;
      i < |ms| && Learned(w.root.members[i], w.sends[id].target, w.sends[id].stage.thread, ms[i])
  {
  }

  lemma {:induction false} LaterMembers(w: World, steps: seq<Step>, n: nat)
    requires Initial(w) && n < |steps|
    ensures Grows(Apply(Run(w, steps[..n]), steps[n]).root.members, Run(w, steps).root.members)
  {
    var first, rest := steps[..n] + [steps[n]], steps[n + 1..];
    assert steps == first + rest;
    MembershipIsAForest(w, first, rest);
    RunStep(w, steps[..n], steps[n]);
  }

  // ------------------------------------------------------------------ a role that gets lost

  /** The first dispatch of a message's target, before its send is committed: it is a member in the default role. */
  lemma {:induction false} EarlyDispatchJoins(v: World, t: AttemptId, tab: TabId, q: PromptId, thread: string,
      now: Time)
    requires q in v.prompts && v.prompts[q].tab == tab && !IsMember(v.root.members, tab) && tab != v.root.originTab
    requires Dispatchable(v, q, t)
    ensures
      var ms := ApplyQueue(v, BeginDispatch(t, q, thread, 0, now)).root.members;
      && |ms| == |v.root.members| + 1 && ms[..|v.root.members|] == v.root.members
      && ms[|v.root.members|] == Member(tab, Some(thread), v.root.policy.defaultRole, 1, v.prompts[q].meta.value.from)
  {
    NotMember(v.root.members, tab);
  }

  /** The commit then leaves role and level as they are, whatever the sender asked for. */
  lemma {:induction false} LateCommitKeeps(v: World, id: nat)
    requires id in v.sends && v.sends[id].kind.Agent? && v.sends[id].stage.Enqueued?
    requires IsMember(v.root.members, v.sends[id].target)
    ensures
      var a, b := v.root.members, ApplySend(v, Commit(id)).root.members;
      |b| == |a| && forall i :: 0 <= i < |a| ==> b[i].role == a[i].role && b[i].level == a[i].level
  {
  }

  lemma {:induction false} KeptThroughCommit(v: World, u: World, id: nat, m: Member)
    requires id in v.sends && v.sends[id].kind.Agent? && v.sends[id].stage.Enqueued?
    requires u.sends == v.sends && u.root.members == v.root.members + [m] && m.tab == v.sends[id].target
    ensures
      var ms := ApplySend(u, Commit(id)).root.members;
      |ms| == |v.root.members| + 1 && ms[|v.root.members|].role == m.role && ms[|v.root.members|].level == m.level
  {
    assert u.root.members[|v.root.members|] == m;
    LateCommitKeeps(u, id);
  }

  /**
   * A message's target is dispatched as soon as it is enqueued, and the sender's wish for its role comes with the
   * commit. If the commit is first, the target joins in that role, below its sender; if the dispatch is, it joins in
   * the default role, at level 1.
   */
  lemma {:induction false} WantedRoleIsLost(v: World, id: nat, t: AttemptId, q: PromptId, thread: string, now: Time)
    requires id in v.sends && v.sends[id].kind.Agent? && v.sends[id].stage.Enqueued? && v.sends[id].stage.prompt == q
    requires !IsMember(v.root.members, v.sends[id].target) && v.sends[id].target != v.root.originTab
    requires Dispatchable(v, q, t) && v.prompts[q].tab == v.sends[id].target
    ensures
      var early := ApplySend(ApplyQueue(v, BeginDispatch(t, q, thread, 0, now)), Commit(id)).root.members;
      var late := ApplySend(v, Commit(id)).root.members;
      var n := |v.root.members|;
      && |early| == n + 1 == |late| && JoinsAs(v, OnSend(Commit(id)), late[n])
      && early[n].role == v.root.policy.defaultRole && early[n].level == 1
  {
    var u := ApplyQueue(v, BeginDispatch(t, q, thread, 0, now));
    var target := v.sends[id].target;
    EarlyDispatchJoins(v, t, target, q, thread, now);
    DispatchBegins(v, t, q, thread, 0, now);
    var m := u.root.members[|v.root.members|];
    assert u.root.members == v.root.members + [m];
    KeptThroughCommit(v, u, id, m);
    SendJoins(v, Commit(id));
    NotMember(v.root.members, target);
  }

  /** A message is enqueued and not yet committed, its target is no member, and its sender wants another role for it. */
  ghost predicate RoleAtStake(v: World, id: nat, t: AttemptId, q: PromptId) {
    && id in v.sends && v.sends[id].kind.Agent? && v.sends[id].stage.Enqueued? && v.sends[id].stage.prompt == q
    && !IsMember(v.root.members, v.sends[id].target) && v.sends[id].target != v.root.originTab
    && Dispatchable(v, q, t) && v.prompts[q].tab == v.sends[id].target
    && v.sends[id].role.Some? && v.sends[id].role.value in v.root.policy.roles
    && v.sends[id].role.value != v.root.policy.defaultRole
  }

  lemma {:induction false} OriginMayAsk(v: World, t: AttemptId, tab: TabId)
    requires OriginRuns(v, t) && tab != v.root.originTab && v.root.originTab !in v.leaves && v.root.limits.depth >= 1
    ensures Asks(v, 0, t, "r", tab) && !IsMember(v.root.members, tab)
  {
  }

  lemma {:induction false} OriginWants(w: World, v: World, t: AttemptId, later: AttemptId, tab: TabId, q: PromptId,
      thread: string, role: string) returns (u: World)
    requires Reaches(w, v) && OriginRuns(v, t) && tab != v.root.originTab && v.root.originTab !in v.leaves
    requires q !in v.issued && later !in v.spent && later !in v.dispatches
    requires v.root.limits.messages >= 2 && v.root.limits.depth >= 1
    requires role in v.root.policy.roles && role != v.root.policy.defaultRole
    ensures Reaches(w, u) && RoleAtStake(u, 0, later, q)
  {
    OriginMayAsk(v, t, tab);
    SendStarts(v, 0, t, "r", tab, "d", Some(role));
    var a := AfterSend(w, v, StartSend(0, t, "r", tab, "d", Some(role)));
    ReserveOutcome(a, 0);
    var b := AfterSend(w, a, Reserve(0));
    Arrives(b, 0, q, thread);
    u := AfterSend(w, b, Enqueue(0, q, thread));
  }

  /** Such a world is five steps from any new root whose policy has another role: its turn asks for it. */
  lemma {:induction false} RoleLossIsReachable(w: World, t: AttemptId, later: AttemptId, tab: TabId, q: PromptId,
      thread: string, role: string) returns (v: World)
    requires Initial(w) && w.prompts.Keys == {w.root.originPrompt} && w.prompts[w.root.originPrompt].status == Queued
    requires w.prompts[w.root.originPrompt].tab == w.root.originTab && tab != w.root.originTab
    requires w.root.originTab !in w.leaves && t !in w.spent && later !in w.spent && later != t && q !in w.issued
    requires w.root.limits.messages >= 2 && w.root.limits.depth >= 1
    requires role in w.root.policy.roles && role != w.root.policy.defaultRole
    ensures Reaches(w, v) && RoleAtStake(v, 0, later, q)
  {
    assert w.root.originPrompt in w.prompts;
    var a := OriginStarts(w, t, thread);
    v := OriginWants(w, a, t, later, tab, q, thread, role);
  }
}
