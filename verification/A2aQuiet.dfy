/**
 * Who belongs to a root, and when "nothing is outstanding" can be believed.
 *
 * A target joins only after its message is already in its queue, and the scan behind
 * a settlement reads members' queues outside the root lock. What makes the scan
 * sound is that the sender of any such message is itself unfinished work in a
 * member's queue.
 */
module A2aQuiet {
  import opened Common
  import opened A2aRoot
  import opened A2aRuns

  // ------------------------------------------------------------------ what every run keeps

  type Prompts = map<PromptId, Prompt>

  /** Identifiers are fresh, and a prompt is dispatched by one attempt at a time, while it is queued. */
  ghost predicate Identities(w: World) {
    && w.prompts.Keys <= w.issued
    && w.contexts.Keys <= w.spent
    && w.dispatches.Keys <= w.spent
    && AttemptsSpent(w.prompts, w.spent)
    && OneEach(w.dispatches)
    && InDispatch(w.dispatches, w.prompts)
  }

  ghost predicate AttemptsSpent(prompts: Prompts, spent: set<AttemptId>) {
    forall p :: p in prompts && prompts[p].attempts != [] ==> prompts[p].attempts[|prompts[p].attempts| - 1] in spent
  }

  ghost predicate OneEach(dispatches: map<AttemptId, Dispatch>) {
    forall a, b :: a in dispatches && b in dispatches && dispatches[a].prompt == dispatches[b].prompt ==> a == b
  }

  ghost predicate InDispatch(dispatches: map<AttemptId, Dispatch>, prompts: Prompts) {
    forall a :: a in dispatches ==> dispatches[a].prompt in prompts && prompts[dispatches[a].prompt].status == Queued
  }

  predicate Latest(prompts: Prompts, p: PromptId, a: AttemptId) {
    p in prompts && prompts[p].attempts != [] && prompts[p].attempts[|prompts[p].attempts| - 1] == a
  }

  /** An attempt being dispatched is not yet any prompt's latest, and nobody sends in its name. */
  ghost predicate Unclaimed(dispatches: map<AttemptId, Dispatch>, prompts: Prompts, sends: map<nat, Sending>) {
    && (forall p :: p in prompts && prompts[p].attempts != []
                    ==> prompts[p].attempts[|prompts[p].attempts| - 1] !in dispatches)
    && (forall i :: i in sends && sends[i].kind.Agent? ==> sends[i].kind.context !in dispatches)
  }

  predicate Named(prompts: Prompts, p: PromptId, tab: TabId) {
    p in prompts && prompts[p].meta.Some? && prompts[p].tab == tab
  }

  /** A message comes from a member that can call, or is a leaf's reply to one. */
  predicate Sourced(ms: seq<Member>, leaves: set<TabId>, limit: nat, meta: Meta, tab: TabId) {
    && meta.depth <= limit
    && (meta.from.Some? ==>
          || (IsMember(ms, meta.from.value) && meta.from.value !in leaves)
          || (meta.from.value in leaves && IsMember(ms, tab) && tab !in leaves))
  }

  ghost predicate MessagesOk(ms: seq<Member>, leaves: set<TabId>, limit: nat, prompts: Prompts) {
    forall p :: p in prompts && prompts[p].meta.Some?
                ==> Sourced(ms, leaves, limit, prompts[p].meta.value, prompts[p].tab)
  }

  /** A context belongs to a member; while its attempt is its prompt's latest, that prompt is a message there. */
  ghost predicate ContextsOk(ms: seq<Member>, limit: nat, contexts: map<AttemptId, Context>, prompts: Prompts) {
    forall a :: a in contexts ==>
      && IsMember(ms, contexts[a].tab) && contexts[a].depth <= limit
      && (Latest(prompts, contexts[a].prompt, a) ==> Named(prompts, contexts[a].prompt, contexts[a].tab))
  }

  ghost predicate DispatchesOk(ms: seq<Member>, leaves: set<TabId>, limit: nat, dispatches: map<AttemptId, Dispatch>,
                               contexts: map<AttemptId, Context>, prompts: Prompts) {
    forall a :: a in dispatches && dispatches[a].prompt in prompts ==>
      && IsMember(ms, prompts[dispatches[a].prompt].tab)
      && Sourced(ms, leaves, limit, dispatches[a].meta, prompts[dispatches[a].prompt].tab)
      && (a in contexts ==> contexts[a].prompt == dispatches[a].prompt
                            && contexts[a].tab == prompts[dispatches[a].prompt].tab)
  }

  ghost predicate WellSent(ms: seq<Member>, leaves: set<TabId>, limit: nat, prompts: Prompts, spent: set<AttemptId>,
                           issued: set<PromptId>, s: Sending) {
    match s.kind
    case Agent(a) =>
      && IsMember(ms, s.from) && s.from !in leaves && a in spent && s.depth <= limit
      && (Latest(prompts, s.prompt, a) ==> Named(prompts, s.prompt, s.from))
      && (s.stage.Enqueued? ==> s.stage.prompt in issued)
      && (s.stage.Enqueued? && s.stage.prompt in prompts ==> prompts[s.stage.prompt].tab == s.target)
    case Leaf =>
      && s.from in leaves && IsMember(ms, s.target) && s.target !in leaves
      && (s.stage != Checked ==> s.depth <= limit)
  }

  ghost predicate SendsOk(ms: seq<Member>, leaves: set<TabId>, limit: nat, prompts: Prompts, spent: set<AttemptId>,
                          issued: set<PromptId>, sends: map<nat, Sending>) {
    forall i :: i in sends ==> WellSent(ms, leaves, limit, prompts, spent, issued, sends[i])
  }

  /** Before anyone has joined, only the origin prompt names the root and nothing acts on it. */
  ghost predicate FreshOk(root: Root, contexts: map<AttemptId, Context>, dispatches: map<AttemptId, Dispatch>,
                          sends: map<nat, Sending>, prompts: Prompts) {
    root.members == [] ==>
      && contexts == map[] && dispatches == map[] && sends == map[]
      && root.status != Running && root.status != Ending
      && forall p :: p in prompts && prompts[p].meta.Some? ==>
           p == root.originPrompt && prompts[p].tab == root.originTab && prompts[p].meta.value.from == None
  }

  /** Messages of agents between enqueue and commit. */
  function Uncommitted(sends: map<nat, Sending>): set<PromptId> {
    set i | i in sends && sends[i].kind.Agent? && sends[i].stage.Enqueued? :: sends[i].stage.prompt
  }

  /** A message is in a member's queue, just enqueued by an agent, orphaned by a restart, or nobody has joined yet. */
  ghost predicate PlacedOk(ms: seq<Member>, uncommitted: set<PromptId>, orphans: set<PromptId>, prompts: Prompts) {
    forall p :: p in prompts && prompts[p].meta.Some? ==>
      IsMember(ms, prompts[p].tab) || p in uncommitted || p in orphans || ms == []
  }

  /** Nothing of this root is unfinished anywhere, apart from `except`. */
  ghost predicate QuietIn(prompts: Prompts, dispatches: map<AttemptId, Dispatch>, sends: map<nat, Sending>,
      except: Option<PromptId>)
  {
    && sends == map[]
    && (forall a :: a in dispatches && dispatches[a].prompt in prompts ==> prompts[dispatches[a].prompt].meta.Some?)
    && forall p :: p in prompts && prompts[p].meta.Some? && Unfinished(prompts[p].status) ==> except == Some(p)
  }

  ghost predicate Quiet(w: World, except: Option<PromptId>) { QuietIn(w.prompts, w.dispatches, w.sends, except) }

  ghost predicate Inv(w: World) {
    && Identities(w)
    && Unclaimed(w.dispatches, w.prompts, w.sends)
    && Forest(w.root.members)
    && MessagesOk(w.root.members, w.leaves, w.root.limits.depth, w.prompts)
    && ContextsOk(w.root.members, w.root.limits.depth, w.contexts, w.prompts)
    && DispatchesOk(w.root.members, w.leaves, w.root.limits.depth, w.dispatches, w.contexts, w.prompts)
    && SendsOk(w.root.members, w.leaves, w.root.limits.depth, w.prompts, w.spent, w.issued, w.sends)
    && FreshOk(w.root, w.contexts, w.dispatches, w.sends, w.prompts)
    && PlacedOk(w.root.members, Uncommitted(w.sends), w.orphans, w.prompts)
  }

  // ------------------------------------------------------------------ writing one prompt

  /** Whoever acts for attempt `a` of `p` acts for a message in that tab. */
  ghost predicate Claims(w: World, p: PromptId, x: Prompt, a: AttemptId) {
    && (a in w.contexts && w.contexts[a].prompt == p ==> x.meta.Some? && x.tab == w.contexts[a].tab)
    && (forall i :: i in w.sends && w.sends[i].kind == Agent(a) && w.sends[i].prompt == p
                    ==> x.meta.Some? && x.tab == w.sends[i].from)
  }

  /** A prompt written over an older version of itself, or a new unnamed one. */
  ghost predicate MayPut(w: World, p: PromptId, x: Prompt, spent: set<AttemptId>) {
    && (if p in w.prompts then x.tab == w.prompts[p].tab else p !in w.issued && x.attempts == [] && x.meta.None?)
    && (x.meta.Some? ==> Sourced(w.root.members, w.leaves, w.root.limits.depth, x.meta.value, x.tab))
    && (x.attempts != [] ==>
          var a := x.attempts[|x.attempts| - 1];
          Claims(w, p, x, a) && a in spent && a !in w.dispatches)
    && (x.status == Queued || !BeingDispatched(w, p))
    && (x.meta.Some? && w.prompts[p].meta.None? ==> IsMember(w.root.members, x.tab))
    && (x.meta.None? ==> !BeingDispatched(w, p))
  }

  lemma {:induction false} PutKeeps(w: World, p: PromptId, x: Prompt)
    requires Inv(w) && MayPut(w, p, x, w.spent)
    ensures MessagesOk(w.root.members, w.leaves, w.root.limits.depth, w.prompts[p := x])
    ensures ContextsOk(w.root.members, w.root.limits.depth, w.contexts, w.prompts[p := x])
    ensures DispatchesOk(w.root.members, w.leaves, w.root.limits.depth, w.dispatches, w.contexts, w.prompts[p := x])
    ensures SendsOk(w.root.members, w.leaves, w.root.limits.depth, w.prompts[p := x], w.spent, w.issued, w.sends)
    ensures PlacedOk(w.root.members, Uncommitted(w.sends), w.orphans, w.prompts[p := x])
  {
    forall i | i in w.sends
      ensures WellSent(w.root.members, w.leaves, w.root.limits.depth, w.prompts[p := x], w.spent, w.issued, w.sends[i])
    {
      assert WellSent(w.root.members, w.leaves, w.root.limits.depth, w.prompts, w.spent, w.issued, w.sends[i]);
    }
  }

  lemma {:induction false} PutDispatches(w: World, p: PromptId, x: Prompt)
    requires AttemptsSpent(w.prompts, w.spent) && InDispatch(w.dispatches, w.prompts)
        && Unclaimed(w.dispatches, w.prompts, w.sends)
    requires MayPut(w, p, x, w.spent)
    ensures AttemptsSpent(w.prompts[p := x], w.spent) && InDispatch(w.dispatches, w.prompts[p := x])
    ensures Unclaimed(w.dispatches, w.prompts[p := x], w.sends)
  {
  }

  /** Everything but `prompts` is as in `w`. */
  ghost predicate OnlyPut(w: World, v: World, p: PromptId) {
    && p in v.prompts && v.prompts == w.prompts[p := v.prompts[p]]
    && v.root == w.root && v.leaves == w.leaves && v.contexts == w.contexts && v.dispatches == w.dispatches
        && v.sends == w.sends
    && v.orphans == w.orphans && w.spent == v.spent && w.issued <= v.issued && p in v.issued
    && v.issued <= w.issued + {p}
  }

  lemma {:induction false} PutInv(w: World, v: World, p: PromptId)
    requires Inv(w) && OnlyPut(w, v, p) && MayPut(w, p, v.prompts[p], w.spent)
    requires p in w.prompts && v.prompts[p].meta.Some? ==> w.prompts[p].meta == v.prompts[p].meta
                                                           || w.root.members != []
    ensures Inv(v)
  {
    var x := v.prompts[p];
    PutKeeps(w, p, x);
    PutDispatches(w, p, x);
    IssuedGrows(w.root.members, w.leaves, w.root.limits.depth, v.prompts, w.spent, w.issued, v.spent, v.issued,
        w.sends);
  }

  lemma {:induction false} IssuedGrows(ms: seq<Member>, leaves: set<TabId>, limit: nat, prompts: Prompts,
                                       spent: set<AttemptId>,
                                       issued: set<PromptId>, spent': set<AttemptId>, issued': set<PromptId>,
                                       sends: map<nat, Sending>)
    requires SendsOk(ms, leaves, limit, prompts, spent, issued, sends) && spent <= spent' && issued <= issued'
    ensures SendsOk(ms, leaves, limit, prompts, spent', issued', sends)
  {
    forall i | i in sends ensures WellSent(ms, leaves, limit, prompts, spent', issued', sends[i]) {
      assert WellSent(ms, leaves, limit, prompts, spent, issued, sends[i]);
    }
  }

  // ------------------------------------------------------------------ queue steps

  lemma {:induction false} SpendInv(w: World, a: AttemptId)
    requires Inv(w)
    ensures Inv(w.(spent := w.spent + {a}))
  {
    IssuedGrows(w.root.members, w.leaves, w.root.limits.depth, w.prompts, w.spent, w.issued, w.spent + {a}, w.issued,
        w.sends);
  }

  lemma {:induction false} DropInv(w: World, a: AttemptId)
    requires Inv(w)
    ensures Inv(w.(contexts := w.contexts - {a})) && Inv(w.(dispatches := w.dispatches - {a}))
  {
  }

  /** An attempt nobody has used yet is claimed by nobody. */
  lemma {:induction false} AttemptIsFree(w: World, p: PromptId, x: Prompt, a: AttemptId)
    requires w.contexts.Keys <= w.spent && a !in w.spent
    requires SendsOk(w.root.members, w.leaves, w.root.limits.depth, w.prompts, w.spent, w.issued, w.sends)
    ensures Claims(w, p, x, a)
  {
    forall i | i in w.sends ensures w.sends[i].kind != Agent(a) {
      assert WellSent(w.root.members, w.leaves, w.root.limits.depth, w.prompts, w.spent, w.issued, w.sends[i]);
    }
  }

  /** Rewriting a prompt's status leaves every claim on it as it was. */
  lemma {:induction false} SameClaims(w: World, p: PromptId, x: Prompt)
    requires ContextsOk(w.root.members, w.root.limits.depth, w.contexts, w.prompts)
    requires SendsOk(w.root.members, w.leaves, w.root.limits.depth, w.prompts, w.spent, w.issued, w.sends)
    requires p in w.prompts && x.tab == w.prompts[p].tab && x.meta == w.prompts[p].meta
        && x.attempts == w.prompts[p].attempts
    ensures x.attempts != [] ==> Claims(w, p, x, x.attempts[|x.attempts| - 1])
  {
    if x.attempts != [] {
      var a := x.attempts[|x.attempts| - 1];
      assert Latest(w.prompts, p, a);
      forall i | i in w.sends && w.sends[i].kind == Agent(a) && w.sends[i].prompt == p
        ensures x.meta.Some? && x.tab == w.sends[i].from
      {
        assert WellSent(w.root.members, w.leaves, w.root.limits.depth, w.prompts, w.spent, w.issued, w.sends[i]);
      }
    }
  }

  lemma {:induction false} StatusInv(w: World, v: World, p: PromptId)
    requires Inv(w) && OnlyPut(w, v, p) && p in w.prompts && !BeingDispatched(w, p)
    requires v.prompts[p] == w.prompts[p].(status := v.prompts[p].status)
    ensures Inv(v)
  {
    SameClaims(w, p, v.prompts[p]);
    assert MayPut(w, p, v.prompts[p], w.spent);
    PutInv(w, v, p);
  }

  lemma {:induction false} RedispatchInv(w: World, v: World, p: PromptId, attempt: AttemptId)
    requires Inv(w) && p in w.prompts && !BeingDispatched(w, p) && w.prompts[p].status == Queued && attempt !in w.spent
    requires OnlyPut(w.(spent := w.spent + {attempt}), v, p)
    requires v.prompts[p] == w.prompts[p].(status := Dispatching, attempts := w.prompts[p].attempts + [attempt],
        meta := v.prompts[p].meta)
    requires v.prompts[p].meta == w.prompts[p].meta || v.prompts[p].meta.None?
    ensures Inv(v)
  {
    var u := w.(spent := w.spent + {attempt});
    SpendInv(w, attempt);
    AttemptIsFree(w, p, v.prompts[p], attempt);
    assert !BeingDispatched(u, p);
    assert MayPut(u, p, v.prompts[p], u.spent);
    PutInv(u, v, p);
  }

  lemma {:induction false} FinishDispatchInv(w: World, u: World, v: World, attempt: AttemptId)
    requires Inv(w) && attempt in w.dispatches
    requires u == w.(dispatches := w.dispatches - {attempt})
    requires var d := w.dispatches[attempt];
      d.prompt in w.prompts
      && v == u.(prompts := w.prompts[d.prompt := w.prompts[d.prompt].(status := Dispatching, meta := Some(d.meta),
                                                                       attempts := w.prompts[d.prompt].attempts
                                                                       + [attempt])])
    ensures Inv(v)
  {
    DropInv(w, attempt);
    var p := w.dispatches[attempt].prompt;
    assert IsMember(u.root.members, w.prompts[p].tab);
    assert Claims(u, p, v.prompts[p], attempt);
    assert !BeingDispatched(u, p) by { assert OneEach(w.dispatches); }
    assert MayPut(u, p, v.prompts[p], u.spent);
    PutKeeps(u, p, v.prompts[p]);
    PutDispatches(u, p, v.prompts[p]);
  }

  lemma {:induction false} RemoveInv(w: World, v: World, p: PromptId)
    requires Inv(w) && !BeingDispatched(w, p) && v == w.(prompts := w.prompts - {p})
    ensures Inv(v)
  {
    forall i | i in v.sends
      ensures WellSent(v.root.members, v.leaves, v.root.limits.depth, v.prompts, v.spent, v.issued, v.sends[i])
    {
      assert WellSent(w.root.members, w.leaves, w.root.limits.depth, w.prompts, w.spent, w.issued, w.sends[i]);
    }
  }

  // ------------------------------------------------------------------ joining

  /** Membership only grows, so everything said of members stays true. */
  lemma {:induction false} GrowInv(w: World, v: World)
    requires Inv(w) && v == w.(root := v.root)
    requires v.root.limits == w.root.limits && Forest(v.root.members) && v.root.members != []
    requires forall t :: IsMember(w.root.members, t) ==> IsMember(v.root.members, t)
    requires w.root.members == [] ==> IsMember(v.root.members, w.root.originTab)
    ensures Inv(v)
  {
    var a, b, limit := w.root.members, v.root.members, w.root.limits.depth;
    assert MessagesOk(b, w.leaves, limit, w.prompts);
    assert ContextsOk(b, limit, w.contexts, w.prompts);
    assert DispatchesOk(b, w.leaves, limit, w.dispatches, w.contexts, w.prompts);
    forall i | i in w.sends ensures WellSent(b, w.leaves, limit, w.prompts, w.spent, w.issued, w.sends[i]) {
      assert WellSent(a, w.leaves, limit, w.prompts, w.spent, w.issued, w.sends[i]);
    }
  }

  lemma {:induction false} JoinInv(w: World, v: World, m: Member)
    requires Inv(w) && v == w.(root := v.root)
    requires v.root.limits == w.root.limits && v.root.members == Join(w.root.members, m)
    requires !IsMember(w.root.members, m.tab) && m.parent.Some? ==> IsMember(w.root.members, m.parent.value)
    requires w.root.members == [] ==> m.tab == w.root.originTab
    ensures Inv(v) && IsMember(v.root.members, m.tab) && Grows(w.root.members, v.root.members)
  {
    JoinKeepsForest(w.root.members, m);
    GrowInv(w, v);
  }

  lemma {:induction false} BeginDispatchInv(w: World, attempt: AttemptId, p: PromptId, thread: string, depth: nat,
      now: Time)
    requires Inv(w)
    ensures Inv(DoBeginDispatch(w, attempt, p, thread, depth, now))
    ensures Grows(w.root.members, DoBeginDispatch(w, attempt, p, thread, depth, now).root.members)
  {
    var v := DoBeginDispatch(w, attempt, p, thread, depth, now);
    if v != w {
      var prompt := w.prompts[p];
      var meta := v.dispatches[attempt].meta;
      var u := w.(root := v.root);
      assert Sourced(w.root.members, w.leaves, w.root.limits.depth, meta, prompt.tab);
      JoinInv(w, u, DispatchMember(w.root, prompt.tab, p, thread, meta.from));
      MetaGrows(w.root.members, u.root.members, w.leaves, w.root.limits.depth, meta, prompt.tab);
      LaunchDispatch(u, v, p, attempt, meta);
    }
  }

  lemma MetaGrows(a: seq<Member>, b: seq<Member>, leaves: set<TabId>, limit: nat, meta: Meta, tab: TabId)
    requires Grows(a, b) && Sourced(a, leaves, limit, meta, tab)
    ensures Sourced(b, leaves, limit, meta, tab)
  {
    MembersSurvive(a, b);
  }

  lemma {:induction false} LaunchMaps(u: World, p: PromptId, attempt: AttemptId, meta: Meta)
    requires Inv(u) && p in u.prompts && u.prompts[p].status == Queued && attempt !in u.spent && !BeingDispatched(u, p)
    requires IsMember(u.root.members, u.prompts[p].tab)
    requires Sourced(u.root.members, u.leaves, u.root.limits.depth, meta, u.prompts[p].tab)
    ensures ContextsOk(u.root.members, u.root.limits.depth, u.contexts[attempt :=
        Context(u.prompts[p].tab, p, meta.depth)], u.prompts)
    ensures DispatchesOk(u.root.members, u.leaves, u.root.limits.depth, u.dispatches[attempt := Dispatch(p, meta)],
                         u.contexts[attempt := Context(u.prompts[p].tab, p, meta.depth)], u.prompts)
    ensures Unclaimed(u.dispatches[attempt := Dispatch(p, meta)], u.prompts, u.sends)
    ensures OneEach(u.dispatches[attempt := Dispatch(p, meta)])
        && InDispatch(u.dispatches[attempt := Dispatch(p, meta)], u.prompts)
  {
    assert !Latest(u.prompts, p, attempt);
    forall i | i in u.sends && u.sends[i].kind.Agent?
      ensures u.sends[i].kind.context !in u.dispatches[attempt := Dispatch(p, meta)]
    {
      assert WellSent(u.root.members, u.leaves, u.root.limits.depth, u.prompts, u.spent, u.issued, u.sends[i]);
    }
  }

  lemma {:induction false} LaunchDispatch(u: World, v: World, p: PromptId, attempt: AttemptId, meta: Meta)
    requires Inv(u) && p in u.prompts && u.prompts[p].status == Queued && attempt !in u.spent && !BeingDispatched(u, p)
    requires IsMember(u.root.members, u.prompts[p].tab) && u.root.members != []
    requires Sourced(u.root.members, u.leaves, u.root.limits.depth, meta, u.prompts[p].tab)
    requires v == u.(contexts := u.contexts[attempt := Context(u.prompts[p].tab, p, meta.depth)],
                     dispatches := u.dispatches[attempt := Dispatch(p, meta)], spent := u.spent + {attempt})
    ensures Inv(v)
  {
    LaunchMaps(u, p, attempt, meta);
    SpendInv(u, attempt);
  }

  lemma {:induction false} AddPromptInv(w: World, v: World, p: PromptId, tab: TabId)
    requires Inv(w) && p !in w.issued
        && v == w.(prompts := w.prompts[p := Prompt(tab, Queued, None, [])], issued := w.issued + {p})
    ensures Inv(v)
  {
    assert !BeingDispatched(w, p) by { assert InDispatch(w.dispatches, w.prompts); }
    assert MayPut(w, p, v.prompts[p], w.spent);
    PutInv(w, v, p);
  }

  lemma {:induction false} OutsideDispatchInv(w: World, p: PromptId, attempt: AttemptId)
    requires Inv(w)
    ensures Inv(DoPlainDispatch(w, p, attempt)) && Inv(DoRehome(w, p, attempt))
  {
    if DoPlainDispatch(w, p, attempt) != w { RedispatchInv(w, DoPlainDispatch(w, p, attempt), p, attempt); }
    if DoRehome(w, p, attempt) != w { RedispatchInv(w, DoRehome(w, p, attempt), p, attempt); }
  }

  lemma {:induction false} StatusStepsInv(w: World, p: PromptId, to: PromptStatus)
    requires Inv(w)
    ensures Inv(ApplyQueue(w, Progress(p, to))) && Inv(ApplyQueue(w, Requeue(p)))
  {
    if ApplyQueue(w, Progress(p, to)) != w {
      NotBeingDispatched(w, p);
      StatusInv(w, ApplyQueue(w, Progress(p, to)), p);
    }
    if ApplyQueue(w, Requeue(p)) != w { NotBeingDispatched(w, p); StatusInv(w, ApplyQueue(w, Requeue(p)), p); }
  }

  lemma {:induction false} WriteDispatchInv(w: World, attempt: AttemptId)
    requires Inv(w)
    ensures Inv(DoFinishDispatch(w, attempt))
  {
    if attempt in w.dispatches {
      assert InDispatch(w.dispatches, w.prompts);
      FinishDispatchInv(w, w.(dispatches := w.dispatches - {attempt}), DoFinishDispatch(w, attempt), attempt);
    }
  }

  lemma {:induction false} AddInv(w: World, p: PromptId, tab: TabId)
    requires Inv(w)
    ensures Inv(ApplyQueue(w, AddPrompt(p, tab)))
  {
    if p !in w.issued { AddPromptInv(w, ApplyQueue(w, AddPrompt(p, tab)), p, tab); }
  }

  lemma {:induction false} TakeAwayInv(w: World, p: PromptId)
    requires Inv(w)
    ensures Inv(ApplyQueue(w, Remove(p)))
  {
    if !BeingDispatched(w, p) { RemoveInv(w, ApplyQueue(w, Remove(p)), p); }
  }

  lemma {:induction false} QueueInv(w: World, step: QueueStep)
    requires Inv(w)
    ensures Inv(ApplyQueue(w, step))
  {
    match step
    case AddPrompt(p, tab) => AddInv(w, p, tab);
    case BeginDispatch(attempt, p, thread, depth, now) => BeginDispatchInv(w, attempt, p, thread, depth, now);
    case FinishDispatch(attempt) => WriteDispatchInv(w, attempt);
    case DropDispatch(attempt) => DropInv(w, attempt);
    case PlainDispatch(p, attempt) => OutsideDispatchInv(w, p, attempt);
    case Rehome(p, attempt) => OutsideDispatchInv(w, p, attempt);
    case Progress(p, to) => StatusStepsInv(w, p, to);
    case Requeue(p) => StatusStepsInv(w, p, Queued);
    case Remove(p) => TakeAwayInv(w, p);
    case ReleaseContext(attempt) => DropInv(w, attempt);
  }

  lemma {:induction false} NotBeingDispatched(w: World, p: PromptId)
    requires InDispatch(w.dispatches, w.prompts) && p in w.prompts && w.prompts[p].status != Queued
    ensures !BeingDispatched(w, p)
  {
  }

  // ------------------------------------------------------------------ send steps

  ghost predicate SendsFit(w: World, prompts: Prompts, issued: set<PromptId>, sends: map<nat, Sending>) {
    SendsOk(w.root.members, w.leaves, w.root.limits.depth, prompts, w.spent, issued, sends)
  }

  /** Only the sends, the budget and the receipts differ. */
  ghost predicate OnlySend(w: World, v: World) {
    && v == w.(root := v.root, sends := v.sends, overlapped := v.overlapped)
    && v.root.members == w.root.members && v.root.members != [] && v.root.limits == w.root.limits
  }

  lemma {:induction false} SendInv(w: World, v: World)
    requires Inv(w) && OnlySend(w, v)
    requires SendsFit(w, w.prompts, w.issued, v.sends)
    requires Uncommitted(v.sends) == Uncommitted(w.sends)
    requires forall i :: i in v.sends && v.sends[i].kind.Agent? ==> v.sends[i].kind.context !in w.dispatches
    ensures Inv(v)
  {
  }

  lemma {:induction false} UncommittedPut(sends: map<nat, Sending>, id: nat, s: Sending)
    requires id in sends ==> !sends[id].stage.Enqueued?
    ensures Uncommitted(sends[id := s]) ==
      Uncommitted(sends) + if s.kind.Agent? && s.stage.Enqueued? then {s.stage.prompt} else {}
    ensures Uncommitted(sends - {id}) == Uncommitted(sends)
  {
    forall p | p in Uncommitted(sends) ensures p in Uncommitted(sends[id := s]) && p in Uncommitted(sends - {id}) {
      var i :| i in sends && sends[i].kind.Agent? && sends[i].stage.Enqueued? && sends[i].stage.prompt == p;
      assert sends[id := s][i] == sends[i] && (sends - {id})[i] == sends[i];
    }
    if s.kind.Agent? && s.stage.Enqueued? { assert sends[id := s][id] == s; }
  }

  lemma {:induction false} LaunchInv(w: World, v: World, id: nat, s: Sending)
    requires Inv(w) && id !in w.sends && s.stage == Checked && w.root.members != []
    requires v == w.(sends := w.sends[id := s], overlapped := v.overlapped)
    requires WellSent(w.root.members, w.leaves, w.root.limits.depth, w.prompts, w.spent, w.issued, s)
    requires s.kind.Agent? ==> s.kind.context !in w.dispatches
    ensures Inv(v)
  {
    UncommittedPut(w.sends, id, s);
    SendInv(w, v);
  }

  lemma {:induction false} StartSendInv(w: World, id: nat, attempt: AttemptId, request: string, target: TabId,
      digest: string, role: Option<string>)
    requires Inv(w)
    ensures Inv(DoStartSend(w, id, attempt, request, target, digest, role))
  {
    var v := DoStartSend(w, id, attempt, request, target, digest, role);
    if v != w {
      var c := w.contexts[attempt];
      assert Latest(w.prompts, c.prompt, attempt);
      assert attempt !in w.dispatches by { assert Unclaimed(w.dispatches, w.prompts, w.sends); }
      LaunchInv(w, v, id, v.sends[id]);
    }
  }

  lemma {:induction false} StartLeafInv(w: World, id: nat, p: PromptId)
    requires Inv(w)
    ensures Inv(DoStartLeaf(w, id, p))
  {
    var v := DoStartLeaf(w, id, p);
    if v != w {
      assert Sourced(w.root.members, w.leaves, w.root.limits.depth, w.prompts[p].meta.value, w.prompts[p].tab);
      LaunchInv(w, v, id, v.sends[id]);
    }
  }

  /** A reservation, a refusal, a bounce or a refund. */
  lemma {:induction false} BudgetInv(w: World, v: World, id: nat)
    requires Inv(w) && id in w.sends && !w.sends[id].stage.Enqueued?
    requires v == w.(root := v.root, sends := v.sends)
    requires v.root.members == w.root.members && v.root.limits == w.root.limits
    requires v.sends == w.sends - {id}
      || (id in v.sends && v.sends == w.sends[id := w.sends[id].(stage := v.sends[id].stage)]
          && (v.sends[id].stage == Reserved || v.sends[id].stage == Bounced)
          && (w.sends[id].stage == Checked ==> w.sends[id].depth <= w.root.limits.depth))
    ensures Inv(v)
  {
    assert WellSent(w.root.members, w.leaves, w.root.limits.depth, w.prompts, w.spent, w.issued, w.sends[id]);
    UncommittedPut(w.sends, id, w.sends[id].(stage := Reserved));
    UncommittedPut(w.sends, id, w.sends[id].(stage := Bounced));
    SendInv(w, v);
  }

  lemma {:induction false} ReserveInv(w: World, id: nat)
    requires Inv(w)
    ensures Inv(DoReserve(w, id))
  {
    if id in w.sends && w.sends[id].stage == Checked {
      assert WellSent(w.root.members, w.leaves, w.root.limits.depth, w.prompts, w.spent, w.issued, w.sends[id]);
      BudgetInv(w, DoReserve(w, id), id);
    }
  }

  lemma {:induction false} BounceInv(w: World, id: nat)
    requires Inv(w)
    ensures Inv(DoBounce(w, id))
  {
    if id in w.sends && w.sends[id].stage == Reserved {
      assert WellSent(w.root.members, w.leaves, w.root.limits.depth, w.prompts, w.spent, w.issued, w.sends[id]);
      BudgetInv(w, DoBounce(w, id), id);
    }
  }

  lemma {:induction false} RefundInv(w: World, id: nat)
    requires Inv(w)
    ensures Inv(DoRefund(w, id))
  {
    if id in w.sends && w.sends[id].stage == Bounced {
      assert WellSent(w.root.members, w.leaves, w.root.limits.depth, w.prompts, w.spent, w.issued, w.sends[id]);
      BudgetInv(w, DoRefund(w, id), id);
    }
  }

  lemma {:induction false} EnqueuedFits(w: World, v: World, id: nat, p: PromptId)
    requires Inv(w) && id in w.sends && !w.sends[id].stage.Enqueued? && w.sends[id].stage != Checked && p !in w.issued
    requires p in v.prompts && v.prompts == w.prompts[p := v.prompts[p]] && v.prompts[p].attempts == []
        && v.prompts[p].tab == w.sends[id].target
    requires id in v.sends && v.sends == w.sends[id := w.sends[id].(stage := v.sends[id].stage)]
    requires v.sends[id].stage.Enqueued? && v.sends[id].stage.prompt == p
    ensures SendsFit(w, v.prompts, w.issued + {p}, v.sends)
  {
    var ms, limit := w.root.members, w.root.limits.depth;
    forall i | i in v.sends ensures WellSent(ms, w.leaves, limit, v.prompts, w.spent, w.issued + {p}, v.sends[i]) {
      assert WellSent(ms, w.leaves, limit, w.prompts, w.spent, w.issued, w.sends[i]);
    }
  }

  lemma {:induction false} EnqueueInv(w: World, id: nat, p: PromptId, thread: string)
    requires Inv(w)
    ensures Inv(DoEnqueue(w, id, p, thread))
  {
    if id in w.sends && w.sends[id].stage == Reserved && p !in w.issued {
      EnqueuedInv(w, DoEnqueue(w, id, p, thread), id, p);
    }
  }

  lemma {:induction false} EnqueuedInv(w: World, v: World, id: nat, p: PromptId)
    requires Inv(w) && id in w.sends && w.sends[id].stage == Reserved && p !in w.issued
    requires id in v.sends && v.sends[id].stage.Enqueued? && v.sends[id].stage.prompt == p
    requires v == w.(prompts :=
                     w.prompts[p := Prompt(w.sends[id].target, Queued,
                     Some(Meta(w.sends[id].depth, Some(w.sends[id].from), Some(w.sends[id].prompt))), [])],
                     sends := w.sends[id := w.sends[id].(stage := v.sends[id].stage)], log := v.log,
                     issued := w.issued + {p})
    ensures Inv(v)
  {
    var s := w.sends[id];
    assert WellSent(w.root.members, w.leaves, w.root.limits.depth, w.prompts, w.spent, w.issued, s);
    EnqueuedFits(w, v, id, p);
    UncommittedPut(w.sends, id, v.sends[id]);
    assert p !in w.prompts && w.root.members != [];
    EnqueueMaps(w, v, p);
  }

  lemma {:induction false} EnqueueMaps(w: World, v: World, p: PromptId)
    requires Inv(w) && p !in w.issued
    requires p in v.prompts && v.prompts == w.prompts[p := v.prompts[p]] && v.prompts[p].attempts == []
        && v.prompts[p].meta.Some?
    requires Sourced(w.root.members, w.leaves, w.root.limits.depth, v.prompts[p].meta.value, v.prompts[p].tab)
    ensures MessagesOk(w.root.members, w.leaves, w.root.limits.depth, v.prompts)
    ensures ContextsOk(w.root.members, w.root.limits.depth, w.contexts, v.prompts)
    ensures DispatchesOk(w.root.members, w.leaves, w.root.limits.depth, w.dispatches, w.contexts, v.prompts)
    ensures AttemptsSpent(v.prompts, w.spent) && InDispatch(w.dispatches, v.prompts)
    ensures forall q :: q in v.prompts && v.prompts[q].attempts != []
                        ==> v.prompts[q].attempts[|v.prompts[q].attempts| - 1] !in w.dispatches
  {
  }

  lemma {:induction false} CommitInv(w: World, id: nat)
    requires Inv(w)
    ensures Inv(DoCommit(w, id)) && Grows(w.root.members, DoCommit(w, id).root.members)
  {
    var v := DoCommit(w, id);
    if v != w {
      var s := w.sends[id];
      assert WellSent(w.root.members, w.leaves, w.root.limits.depth, w.prompts, w.spent, w.issued, s);
      assert w.root.members != [];
      var u := w.(root := v.root);
      if s.kind.Agent? {
        JoinInv(w, u, CommitMember(w.root, s.target, s.stage.thread, s.from, s.role));
      } else {
        GrowInv(w, u);
      }
      CommittedInv(u, v, id);
    }
  }

  /** A committed message is in a member's queue, so its send may be forgotten. */
  lemma {:induction false} CommittedInv(u: World, v: World, id: nat)
    requires Inv(u) && id in u.sends && u.sends[id].stage.Enqueued? && u.root.members != []
    requires v == u.(sends := u.sends - {id})
    requires u.sends[id].kind.Agent? ==> IsMember(u.root.members, u.sends[id].target)
    ensures Inv(v)
  {
    assert WellSent(u.root.members, u.leaves, u.root.limits.depth, u.prompts, u.spent, u.issued, u.sends[id]);
    forall p | p in Uncommitted(u.sends) && p in u.prompts
      ensures p in Uncommitted(v.sends) || IsMember(u.root.members, u.prompts[p].tab)
    {
      var i :| i in u.sends && u.sends[i].kind.Agent? && u.sends[i].stage.Enqueued? && u.sends[i].stage.prompt == p;
      if i != id { assert v.sends[i] == u.sends[i]; }
    }
  }

  lemma {:induction false} SendStepInv(w: World, step: SendStep)
    requires Inv(w)
    ensures Inv(ApplySend(w, step))
  {
    match step
    case StartSend(id, attempt, request, target, digest, role) =>
        StartSendInv(w, id, attempt, request, target, digest, role);
    case StartLeaf(id, p) => StartLeafInv(w, id, p);
    case Reserve(id) => ReserveInv(w, id);
    case Enqueue(id, p, thread) => EnqueueInv(w, id, p, thread);
    case Bounce(id) => BounceInv(w, id);
    case Commit(id) => CommitInv(w, id);
    case Refund(id) => RefundInv(w, id);
  }

  // ------------------------------------------------------------------ scans and ends

  lemma {:induction false} SenderIsOutstanding(w: World, except: Option<PromptId>, i: nat)
    requires Inv(w) && Calm(w, except) && i in w.sends
    ensures w.sends[i].prompt in Outstanding(w, except)
  {
    var s := w.sends[i];
    assert WellSent(w.root.members, w.leaves, w.root.limits.depth, w.prompts, w.spent, w.issued, s);
    assert Latest(w.prompts, s.prompt, s.kind.context);
  }

  /**
   * What an empty scan is worth: beside an empty set of outstanding work, nothing of the root is
   * unfinished in any conversation and no send is in flight, if and only if the world is calm.
   */
  lemma {:induction false} CleanScanIsQuiet(w: World, except: Option<PromptId>)
    requires Inv(w) && w.root.members != [] && Outstanding(w, except) == {}
    ensures Quiet(w, except) <==> Calm(w, except)
  {
    if Calm(w, except) {
      forall i | i in w.sends ensures false { SenderIsOutstanding(w, except, i); }
      forall p | UnfinishedMessage(w, p) ensures except == Some(p) {
        assert Uncommitted(w.sends) == {};
        assert except == Some(p) || p in Outstanding(w, except);
      }
    }
  }

  /** Ending a root, or taking an end back, changes neither its members nor its queues. */
  lemma {:induction false} EndInv(w: World, v: World)
    requires Inv(w) && v == w.(root := v.root, sweeps := v.sweeps)
    requires v.root.members == w.root.members && v.root.limits == w.root.limits
    requires v.root.originTab == w.root.originTab && v.root.originPrompt == w.root.originPrompt
    requires w.root.members == [] ==> v.root.status != Running && v.root.status != Ending
    ensures Inv(v)
  {
  }

  lemma {:induction false} RestartInv(w: World)
    requires Inv(w)
    ensures Inv(DoRestart(w))
  {
    var v := DoRestart(w);
    forall p | p in Uncommitted(w.sends) ensures p in v.orphans { }
  }

  lemma {:induction false} EndFromUserInv(w: World, intent: Intent, outstanding: seq<Work>, now: Time)
    requires Inv(w)
    ensures Inv(ApplyRoot(w, EndFromUser(intent, outstanding, now)))
  {
    var v := ApplyRoot(w, EndFromUser(intent, outstanding, now));
    if v != w {
      assert outstanding == [] || outstanding[0] in outstanding;
      EndInv(w, v);
    }
  }

  lemma {:induction false} SettleInv(w: World, id: nat, now: Time)
    requires Inv(w)
    ensures Inv(DoQuietSettle(w, id, now))
  {
    if DoQuietSettle(w, id, now) != w { EndInv(w, DoQuietSettle(w, id, now)); }
  }

  lemma {:induction false} FinishInv(w: World, id: nat, reason: FinishReason, attempt: AttemptId)
    requires Inv(w)
    ensures Inv(DoAcceptFinish(w, id, reason, attempt))
  {
    if DoAcceptFinish(w, id, reason, attempt) != w { EndInv(w, DoAcceptFinish(w, id, reason, attempt)); }
  }

  lemma {:induction false} ConfirmInv(w: World, attempt: AttemptId, landed: bool, now: Time)
    requires Inv(w)
    ensures Inv(ApplyRoot(w, Confirm(attempt, landed, now)))
  {
    EndInv(w, ApplyRoot(w, Confirm(attempt, landed, now)));
  }

  lemma {:induction false} ScanInv(w: World, id: nat, except: Option<PromptId>)
    requires Inv(w)
    ensures Inv(DoScan(w, id, except))
  {
    EndInv(w, DoScan(w, id, except));
  }

  lemma {:induction false} RootStepInv(w: World, step: RootStep)
    requires Inv(w)
    ensures Inv(ApplyRoot(w, step))
  {
    match step
    case Scan(id, except) => ScanInv(w, id, except);
    case QuietSettle(id, now) => SettleInv(w, id, now);
    case AcceptFinish(id, reason, attempt) => FinishInv(w, id, reason, attempt);
    case EndFromUser(intent, outstanding, now) => EndFromUserInv(w, intent, outstanding, now);
    case Confirm(attempt, landed, now) => ConfirmInv(w, attempt, landed, now);
    case Restart => RestartInv(w);
  }

  // ------------------------------------------------------------------ members over steps

  lemma {:induction false} QueueMembers(w: World, step: QueueStep)
    requires Inv(w)
    ensures Grows(w.root.members, ApplyQueue(w, step).root.members)
  {
    if step.BeginDispatch? { BeginDispatchInv(w, step.attempt, step.p, step.thread, step.depth, step.now); }
  }

  lemma {:induction false} SendMembers(w: World, step: SendStep)
    requires Inv(w)
    ensures Grows(w.root.members, ApplySend(w, step).root.members)
  {
    if step.Commit? { CommitInv(w, step.id); } else { OtherSendMembers(w, step); }
  }

  lemma {:induction false} OtherSendMembers(w: World, step: SendStep)
    requires !step.Commit?
    ensures ApplySend(w, step).root.members == w.root.members
  {
  }

  lemma {:induction false} RootMembers(w: World, step: RootStep)
    ensures ApplyRoot(w, step).root.members == w.root.members
  {
  }

  lemma {:induction false} StepInv(w: World, step: Step)
    requires Inv(w)
    ensures Inv(Apply(w, step)) && Grows(w.root.members, Apply(w, step).root.members)
  {
    match step
    case OnQueue(q) => QueueInv(w, q); QueueMembers(w, q);
    case OnSend(s) => SendStepInv(w, s); SendMembers(w, s);
    case OnRoot(r) => RootStepInv(w, r); RootMembers(w, r);
  }
}
