/**
 * Every interleaving of one collaboration root.
 *
 * A world is the root record together with everything that can act on it: the
 * prompts of every conversation, live dispatch contexts, dispatches between their
 * locked section and the prompt write, sends between any two of their awaits, and
 * scans whose locked section is still to come. Each locked section, each enqueue
 * and each storage scan is one step; a step that does not apply changes nothing,
 * so a run is any sequence of steps whatever.
 */
module A2aRuns {
  import opened Common
  import opened A2aRoot

  datatype PromptStatus = Queued | Dispatching | InTurn | Done | Broken

  predicate Active(s: PromptStatus) { s == Dispatching || s == InTurn }
  predicate Unfinished(s: PromptStatus) { s == Queued || Active(s) }

  /** `prompt.a2a` when it names this root. */
  datatype Meta = Meta(depth: nat, from: Option<TabId>, fromPrompt: Option<PromptId>)
  datatype Prompt = Prompt(tab: TabId, status: PromptStatus, meta: Option<Meta>, attempts: seq<AttemptId>)
  datatype Context = Context(tab: TabId, prompt: PromptId, depth: nat)
  datatype Dispatch = Dispatch(prompt: PromptId, meta: Meta)

  datatype Kind = Agent(context: AttemptId) | Leaf
  datatype Stage = Checked | Reserved | Enqueued(prompt: PromptId, thread: string) | Bounced
  datatype Sending = Sending(kind: Kind, key: ReceiptKey, from: TabId, prompt: PromptId, target: TabId,
                             depth: nat, digest: string, role: Option<string>, stage: Stage)

  datatype Delivery = Delivery(key: ReceiptKey, depth: nat, prompt: PromptId)

  /** A finished scan: whose turn it excused, and whether it found nothing. */
  datatype Sweep = Sweep(except: Option<PromptId>, clean: bool)

  /**
   * `leaves` are the conversations that cannot call the endpoint. `log`, `lost`,
   * `orphans`, `overlapped`, `spent` and `issued` are history: messages enqueued,
   * reservations a restart forgot, messages whose commit a restart cut off, request
   * keys that were once in flight twice, and the identifiers handed out so far.
   */
  datatype World = World(
    root: Root,
    leaves: set<TabId>,
    prompts: map<PromptId, Prompt>,
    contexts: map<AttemptId, Context>,
    dispatches: map<AttemptId, Dispatch>,
    sends: map<nat, Sending>,
    sweeps: map<nat, Sweep>,
    log: seq<Delivery>,
    lost: nat,
    orphans: set<PromptId>,
    overlapped: set<ReceiptKey>,
    spent: set<AttemptId>,
    issued: set<PromptId>)

  /** Prompts, dispatches and contexts. */
  datatype QueueStep =
    | AddPrompt(p: PromptId, tab: TabId)
    | BeginDispatch(attempt: AttemptId, p: PromptId, thread: string, depth: nat, now: Time)
    | FinishDispatch(attempt: AttemptId)
    | DropDispatch(attempt: AttemptId)
    | PlainDispatch(p: PromptId, attempt: AttemptId)
    | Rehome(p: PromptId, attempt: AttemptId)
    | Progress(p: PromptId, to: PromptStatus)
    | Requeue(p: PromptId)
    | Remove(p: PromptId)
    | ReleaseContext(attempt: AttemptId)

  /** `opSend` and `replyForLeaf`. */
  datatype SendStep =
    | StartSend(id: nat, attempt: AttemptId, request: string, target: TabId, digest: string, role: Option<string>)
    | StartLeaf(id: nat, p: PromptId)
    | Reserve(id: nat)
    | Enqueue(id: nat, p: PromptId, thread: string)
    | Bounce(id: nat)
    | Commit(id: nat)
    | Refund(id: nat)

  /** Scans, and the sections that end a root or take an end back. */
  datatype RootStep =
    | Scan(id: nat, except: Option<PromptId>)
    | QuietSettle(id: nat, now: Time)
    | AcceptFinish(id: nat, reason: FinishReason, attempt: AttemptId)
    | EndFromUser(intent: Intent, outstanding: seq<Work>, now: Time)
    | Confirm(attempt: AttemptId, landed: bool, now: Time)
    | Restart

  datatype Step = OnQueue(q: QueueStep) | OnSend(s: SendStep) | OnRoot(r: RootStep)

  // ------------------------------------------------------------------ reading a world

  predicate Labelled(w: World, p: PromptId) { p in w.prompts && w.prompts[p].meta.Some? }

  predicate UnfinishedMessage(w: World, p: PromptId) { Labelled(w, p) && Unfinished(w.prompts[p].status) }

  predicate InMemberTab(w: World, p: PromptId) { p in w.prompts && IsMember(w.root.members, w.prompts[p].tab) }

  /** The turn that owns `attempt` is the one its conversation is executing. */
  predicate CurrentTurn(w: World, p: PromptId, attempt: AttemptId) {
    && p in w.prompts && Active(w.prompts[p].status)
    && w.prompts[p].attempts != [] && w.prompts[p].attempts[|w.prompts[p].attempts| - 1] == attempt
  }

  predicate BeingDispatched(w: World, p: PromptId) { exists a :: a in w.dispatches && w.dispatches[a].prompt == p }

  /** `outstandingWork`: unfinished messages of this root in its members' own queues. */
  function Outstanding(w: World, except: Option<PromptId>): set<PromptId> {
    set p | p in w.prompts && UnfinishedMessage(w, p) && InMemberTab(w, p) && except != Some(p)
  }

  /** Every agent send is made by the turn its conversation is still executing. */
  predicate Attended(w: World) {
    forall i :: i in w.sends && w.sends[i].kind.Agent? ==> CurrentTurn(w, w.sends[i].prompt, w.sends[i].kind.context)
  }

  /** No prompt from outside the root is half way through being dispatched into it. */
  predicate NoAdoption(w: World) {
    forall a :: a in w.dispatches && w.dispatches[a].prompt in w.prompts
                ==> w.prompts[w.dispatches[a].prompt].meta.Some?
  }

  /** What a scan must find beside an empty queue for its answer to be trusted. */
  predicate Calm(w: World, except: Option<PromptId>) {
    && w.root.members != []
    && Attended(w)
    && NoAdoption(w)
    && (forall i :: i in w.sends ==> w.sends[i].kind.Agent? && except != Some(w.sends[i].prompt))
    && (forall p :: p in w.orphans && UnfinishedMessage(w, p) && except != Some(p) ==> InMemberTab(w, p))
  }

  // ------------------------------------------------------------------ steps

  /** `prepareDispatch` up to the end of its locked section, with the context it leaves behind. */
  function DoBeginDispatch(w: World, attempt: AttemptId, p: PromptId, thread: string, depth: nat, now: Time): World {
    if p !in w.prompts || w.prompts[p].status != Queued || attempt in w.spent || BeingDispatched(w, p) then w
    else
      var prompt := w.prompts[p];
      var continues := IsMember(w.root.members, prompt.tab)
        && (depth == 0 || exists q :: q in w.prompts && Labelled(w, q) && w.prompts[q].tab == prompt.tab
                                      && w.prompts[q].meta.value.depth == depth);
      var restarts := prompt.tab == w.root.originTab && p == w.root.originPrompt && depth == 0;
      if prompt.meta.None? && !continues && !restarts then w
      else
        var meta := if prompt.meta.Some? then prompt.meta.value else Meta(depth, None, None);
        w.(root := DispatchSection(w.root, prompt.tab, p, thread, meta.from, now),
           contexts := w.contexts[attempt := Context(prompt.tab, p, meta.depth)],
           dispatches := w.dispatches[attempt := Dispatch(p, meta)],
           spent := w.spent + {attempt})
  }

  function DoFinishDispatch(w: World, attempt: AttemptId): World {
    if attempt !in w.dispatches then w
    else
      var d := w.dispatches[attempt];
      var v := w.(dispatches := w.dispatches - {attempt});
      if d.prompt in w.prompts && w.prompts[d.prompt].status == Queued
      then v.(prompts := w.prompts[d.prompt := w.prompts[d.prompt].(status := Dispatching, meta := Some(d.meta),
                                                                     attempts := w.prompts[d.prompt].attempts
                                                                     + [attempt])])
      else v
  }

  /** A prompt dispatched without joining: `prepareDispatch` declined or failed. */
  function DoPlainDispatch(w: World, p: PromptId, attempt: AttemptId): World {
    if p !in w.prompts || w.prompts[p].status != Queued || attempt in w.spent || BeingDispatched(w, p) then w
    else w.(prompts := w.prompts[p := w.prompts[p].(status := Dispatching,
            attempts := w.prompts[p].attempts + [attempt])],
            spent := w.spent + {attempt})
  }

  /** A `@@` prompt run again after its root ended belongs to a new root. */
  function DoRehome(w: World, p: PromptId, attempt: AttemptId): World {
    if p !in w.prompts || w.prompts[p].status != Queued || attempt in w.spent || BeingDispatched(w, p) || !Over(w.root)
        then w
    else w.(prompts := w.prompts[p := w.prompts[p].(status := Dispatching, meta := None,
            attempts := w.prompts[p].attempts + [attempt])],
            spent := w.spent + {attempt})
  }

  /** `opSend` up to its first lock: identity, receipt and depth. */
  function DoStartSend(w: World, id: nat, attempt: AttemptId, request: string, target: TabId, digest: string,
      role: Option<string>): World
  {
    if id in w.sends || attempt !in w.contexts then w
    else
      var c := w.contexts[attempt];
      var key := SendKey(c.tab, attempt, request);
      if c.tab in w.leaves || !CurrentTurn(w, c.prompt, attempt) || target == c.tab then w
      else if FindReceipt(w.root.receipts, key).Some? || c.depth + 1 > w.root.limits.depth then w
      else Launch(w, id, Sending(Agent(attempt), key, c.tab, c.prompt, target, c.depth + 1, digest, role, Checked))
  }

  /** `replyForLeaf` up to its first lock. */
  function DoStartLeaf(w: World, id: nat, p: PromptId): World {
    if id in w.sends || !Labelled(w, p) || w.prompts[p].status != Done || w.root.status != Running then w
    else
      var prompt := w.prompts[p];
      var meta := prompt.meta.value;
      var key := LeafKey(prompt.tab, p);
      if meta.from.None? || meta.fromPrompt.None? || prompt.tab !in w.leaves then w
      else if FindReceipt(w.root.receipts, key).Some? then w
      else
        var m := FindMember(w.root.members, prompt.tab);
        Launch(w, id, Sending(Leaf, key, prompt.tab, p, meta.from.value,
                              (if m.Some? then m.value.level else meta.depth) + 1, p, None, Checked))
  }

  function Launch(w: World, id: nat, s: Sending): World {
    w.(sends := w.sends[id := s],
       overlapped := if exists i :: i in w.sends && w.sends[i].key == s.key then w.overlapped + {s.key}
                                    else w.overlapped)
  }

  function DoReserve(w: World, id: nat): World {
    if id !in w.sends || w.sends[id].stage != Checked then w
    else
      var s := w.sends[id];
      var section := if s.kind.Leaf? then ReserveLeafSection(w.root, s.depth) else ReserveSection(w.root);
      if section.Written? then w.(root := section.root, sends := w.sends[id := s.(stage := Reserved)])
      else w.(sends := w.sends - {id})
  }

  /** One message becomes one queued prompt of the target. */
  function DoEnqueue(w: World, id: nat, p: PromptId, thread: string): World {
    if id !in w.sends || w.sends[id].stage != Reserved || p in w.issued then w
    else
      var s := w.sends[id];
      w.(prompts := w.prompts[p := Prompt(s.target, Queued, Some(Meta(s.depth, Some(s.from), Some(s.prompt))), [])],
         sends := w.sends[id := s.(stage := Enqueued(p, thread))],
         log := w.log + [Delivery(s.key, s.depth, p)],
         issued := w.issued + {p})
  }

  function DoBounce(w: World, id: nat): World {
    if id !in w.sends || w.sends[id].stage != Reserved then w
    else w.(sends := w.sends[id := w.sends[id].(stage := Bounced)])
  }

  function DoCommit(w: World, id: nat): World {
    if id !in w.sends || !w.sends[id].stage.Enqueued? then w
    else
      var s := w.sends[id];
      var receipt := Receipt(s.key, s.digest, s.stage.prompt);
      w.(root := if s.kind.Leaf? then CommitLeafSection(w.root, receipt)
                 else CommitSection(w.root, s.target, s.stage.thread, s.from, s.role, receipt),
         sends := w.sends - {id})
  }

  function DoRefund(w: World, id: nat): World {
    if id !in w.sends || w.sends[id].stage != Bounced then w
    else w.(root := RefundSection(w.root), sends := w.sends - {id})
  }

  function DoScan(w: World, id: nat, except: Option<PromptId>): World {
    w.(sweeps := w.sweeps[id := Sweep(except, Outstanding(w, except) == {})])
  }

  function DoQuietSettle(w: World, id: nat, now: Time): World {
    if id !in w.sweeps || !w.sweeps[id].clean || w.sweeps[id].except.Some? then w
    else w.(root := After(w.root, QuietSection(w.root, now)), sweeps := w.sweeps - {id})
  }

  /**
   * The caller was found to be a turn of the origin, a member since its dispatch, before the scan;
   * nothing looks it up again.
   */
  function DoAcceptFinish(w: World, id: nat, reason: FinishReason, attempt: AttemptId): World {
    if id !in w.sweeps || w.sweeps[id].except.None? || w.root.members == [] then w
    else w.(root := After(w.root, FinishSection(w.root, !w.sweeps[id].clean, reason, w.root.originTab, attempt)),
            sweeps := w.sweeps - {id})
  }

  /** A restart forgets contexts, sends and scans in memory; the files stay. */
  function DoRestart(w: World): World {
    w.(contexts := map[], dispatches := map[], sends := map[], sweeps := map[],
       lost := w.lost + |Held(w.sends)|,
       orphans := w.orphans + set i | i in w.sends && w.sends[i].stage.Enqueued? :: w.sends[i].stage.prompt,
       overlapped := w.overlapped + set i | i in w.sends :: w.sends[i].key)
  }

  function ApplyQueue(w: World, step: QueueStep): World {
    match step
    case AddPrompt(p, tab) =>
      if p in w.issued then w
      else w.(prompts := w.prompts[p := Prompt(tab, Queued, None, [])], issued := w.issued + {p})
    case BeginDispatch(attempt, p, thread, depth, now) => DoBeginDispatch(w, attempt, p, thread, depth, now)
    case FinishDispatch(attempt) => DoFinishDispatch(w, attempt)
    case DropDispatch(attempt) => w.(dispatches := w.dispatches - {attempt})
    case PlainDispatch(p, attempt) => DoPlainDispatch(w, p, attempt)
    case Rehome(p, attempt) => DoRehome(w, p, attempt)
    case Progress(p, to) =>
      if p !in w.prompts || !Active(w.prompts[p].status) || to == Queued || to == Dispatching then w
      else w.(prompts := w.prompts[p := w.prompts[p].(status := to)])
    case Requeue(p) =>
      if p !in w.prompts || Unfinished(w.prompts[p].status) then w
      else w.(prompts := w.prompts[p := w.prompts[p].(status := Queued)])
    case Remove(p) => if BeingDispatched(w, p) then w else w.(prompts := w.prompts - {p})
    case ReleaseContext(attempt) => w.(contexts := w.contexts - {attempt})
  }

  function ApplySend(w: World, step: SendStep): World {
    match step
    case StartSend(id, attempt, request, target, digest, role) =>
        DoStartSend(w, id, attempt, request, target, digest, role)
    case StartLeaf(id, p) => DoStartLeaf(w, id, p)
    case Reserve(id) => DoReserve(w, id)
    case Enqueue(id, p, thread) => DoEnqueue(w, id, p, thread)
    case Bounce(id) => DoBounce(w, id)
    case Commit(id) => DoCommit(w, id)
    case Refund(id) => DoRefund(w, id)
  }

  function ApplyRoot(w: World, step: RootStep): World {
    match step
    case Scan(id, except) => DoScan(w, id, except)
    case QuietSettle(id, now) => DoQuietSettle(w, id, now)
    case AcceptFinish(id, reason, attempt) => DoAcceptFinish(w, id, reason, attempt)
    case EndFromUser(intent, outstanding, now) =>
      // What the scan before the lock found lies in members' queues.
      if exists x :: x in outstanding && !IsMember(w.root.members, x.tab) then w
      else w.(root := After(w.root, EndFromUserSection(w.root, intent, outstanding, now)))
    case Confirm(attempt, landed, now) => w.(root := After(w.root, ConfirmSection(w.root, attempt, landed, now)))
    case Restart => DoRestart(w)
  }

  function Apply(w: World, step: Step): World {
    match step
    case OnQueue(q) => ApplyQueue(w, q)
    case OnSend(s) => ApplySend(w, s)
    case OnRoot(r) => ApplyRoot(w, r)
  }

  function Run(w: World, steps: seq<Step>): World
    decreases |steps|
  {
    if steps == [] then w else Apply(Run(w, steps[..|steps| - 1]), steps[|steps| - 1])
  }

  /** The record `beginRoot` has just written; only the origin prompt may already name it. */
  ghost predicate Initial(w: World) {
    && w.root == NewRoot(w.root.originTab, w.root.originPrompt, w.root.policy, w.root.limits)
    && w.root.limits.messages >= 1
    && (forall p :: p in w.prompts ==> p in w.issued)
    && (forall p :: p in w.prompts ==> forall k :: 0 <= k < |w.prompts[p].attempts|
                                                   ==> w.prompts[p].attempts[k] in w.spent)
    && (forall p :: Labelled(w, p) ==>
          p == w.root.originPrompt && w.prompts[p].tab == w.root.originTab
              && w.prompts[p].meta == Some(Meta(0, None, None)))
    && w.contexts == map[] && w.dispatches == map[] && w.sends == map[] && w.sweeps == map[]
    && w.log == [] && w.lost == 0 && w.orphans == {} && w.overlapped == {}
  }

  // ------------------------------------------------------------------ counting sends

  /** Sends holding a reservation that is neither delivered nor returned. */
  function Held(sends: map<nat, Sending>): set<nat> {
    set i | i in sends && (sends[i].stage == Reserved || sends[i].stage == Bounced)
  }

  /** Sends delivered but not yet committed. */
  function Landed(sends: map<nat, Sending>): set<nat> {
    set i | i in sends && sends[i].stage.Enqueued?
  }
}
