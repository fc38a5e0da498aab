/**
 * One collaboration root: the record kept under `data/a2a/`, the pure helpers of
 * the store, and one function per locked section of the service. A locked section
 * reads the current record, decides, and either writes a new record, leaves it
 * alone, or refuses with an error code.
 */
module A2aRoot {
  import opened Common

  type TabId = string
  type PromptId = string
  type AttemptId = string
  type Time = int

  datatype Status = Pending | Running | Ending | Completed | Stopped
  datatype Intent = Complete | Stop

  datatype Member = Member(tab: TabId, thread: Option<string>, role: string, level: nat, parent: Option<TabId>)

  /** The parts hashed by `receiptKey`, for a send and for a leaf's reply; the hash is taken to be collision free. */
  datatype ReceiptKey = SendKey(tab: TabId, context: AttemptId, request: string) | LeafKey(tab: TabId, prompt: PromptId)
  datatype Receipt = Receipt(key: ReceiptKey, digest: string, resultId: PromptId)

  datatype EndReason =
    | Finished | BudgetLimited | DepthLimited
    | StoppedByUser | StoppedByUserUnconfirmed | CompletedByUser | CompletedNoWork | FinishConfirmationFailed

  /** What `finish` may give as its reason; anything else a caller gives counts as finished. */
  type FinishReason = r: EndReason | r.Finished? || r.BudgetLimited? || r.DepthLimited? witness Finished

  datatype PendingFinish = PendingFinish(intent: Intent, reason: EndReason, requestedBy: TabId, attempt: AttemptId)

  datatype Limits = Limits(messages: nat, depth: nat, perMinute: nat)
  datatype Policy = Policy(rootRole: string, defaultRole: string, roles: set<string>)

  datatype Root = Root(
    revision: nat,
    status: Status,
    originTab: TabId,
    originPrompt: PromptId,
    policy: Policy,
    limits: Limits,
    startedAt: Option<Time>,
    endedAt: Option<Time>,
    endReason: Option<EndReason>,
    usedMessages: nat,
    members: seq<Member>,
    finish: Option<PendingFinish>,
    receipts: seq<Receipt>)

  datatype Code = RootEnding | RootEnded | MessageLimit | FinishBlocked
  datatype Section = Written(root: Root) | Unchanged | Refused(code: Code)

  const DEFAULT_LIMITS := Limits(20, 3, 4)
  const MAX_RECEIPTS := 200

  /** Over: completed or stopped. */
  predicate Over(root: Root) { root.status == Completed || root.status == Stopped }

  function Write(root: Root): Root { root.(revision := root.revision + 1) }

  // ------------------------------------------------------------------ store helpers

  function FindMember(ms: seq<Member>, tab: TabId): (r: Option<Member>)
    ensures r.Some? ==> r.value in ms && r.value.tab == tab
    ensures r.None? <==> forall m :: m in ms ==> m.tab != tab
  {
    if ms == [] then None
    else if ms[0].tab == tab then Some(ms[0])
    else FindMember(ms[1..], tab)
  }

  predicate IsMember(ms: seq<Member>, tab: TabId) { exists m :: m in ms && m.tab == tab }

  /** A thread id that is missing, or empty and so falsy. */
  predicate NoThread(thread: Option<string>) { thread == None || thread == Some("") }

  /** What joining does to a member that is already there. */
  function Rejoined(known: Member, joining: Member): Member {
    if known.tab == joining.tab && NoThread(known.thread) then known.(thread := joining.thread) else known
  }

  function Join(ms: seq<Member>, joining: Member): (r: seq<Member>)
  {
    if IsMember(ms, joining.tab)
    then seq(|ms|, i requires 0 <= i < |ms| => Rejoined(ms[i], joining))
    else ms + [joining]
  }

  function FindReceipt(rs: seq<Receipt>, key: ReceiptKey): (r: Option<Receipt>)
    ensures r.Some? ==> r.value in rs && r.value.key == key
    ensures r.None? <==> forall x :: x in rs ==> x.key != key
  {
    if rs == [] then None
    else if rs[0].key == key then Some(rs[0])
    else FindReceipt(rs[1..], key)
  }

  function LastReceipts(rs: seq<Receipt>): seq<Receipt> {
    if |rs| <= MAX_RECEIPTS then rs else rs[|rs| - MAX_RECEIPTS..]
  }

  function RecordReceipt(rs: seq<Receipt>, receipt: Receipt): seq<Receipt> {
    LastReceipts(Filter(rs, (x: Receipt) => x.key != receipt.key) + [receipt])
  }

  // ------------------------------------------------------------------ locked sections

  function NewRoot(tab: TabId, prompt: PromptId, policy: Policy, limits: Limits): Root {
    Write(Root(0, Pending, tab, prompt, policy, limits, None, None, None, 1, [], None, []))
  }

  /** The member record a dispatch joins with: an existing member keeps its own role, level and parent. */
  function DispatchMember(root: Root, tab: TabId, prompt: PromptId, thread: string, from: Option<TabId>): Member {
    var isOrigin := root.originTab == tab && root.originPrompt == prompt;
    match FindMember(root.members, tab)
    case Some(m) => Member(tab, Some(thread), m.role, m.level, if m.parent.Some? then m.parent else from)
    case None =>
      Member(tab, Some(thread), if isOrigin then root.policy.rootRole else root.policy.defaultRole,
             if isOrigin then 0 else 1, from)
  }

  function DispatchSection(root: Root, tab: TabId, prompt: PromptId, thread: string, from: Option<TabId>,
      now: Time): Root
  {
    var joined := root.(members := Join(root.members, DispatchMember(root, tab, prompt, thread, from)));
    Write(if joined.status == Pending
          then joined.(status := Running, startedAt := if joined.startedAt.Some? then joined.startedAt else Some(now))
          else joined)
  }

  /** `opSend`: one message of the budget, or a refusal. A pending root accepts work. */
  function ReserveSection(root: Root): Section {
    if root.status == Ending then Refused(RootEnding)
    else if Over(root) then Refused(RootEnded)
    else if root.usedMessages >= root.limits.messages then Refused(MessageLimit)
    else Written(Write(root.(usedMessages := root.usedMessages + 1)))
  }

  /** `replyForLeaf`: the same budget, but only a running root, and the hop limit is checked here. */
  function ReserveLeafSection(root: Root, depth: nat): Section {
    if root.status != Running || depth > root.limits.depth || root.usedMessages >= root.limits.messages then Unchanged
    else Written(Write(root.(usedMessages := root.usedMessages + 1)))
  }

  function RefundSection(root: Root): Root {
    Write(root.(usedMessages := Max(0, root.usedMessages - 1)))
  }

  function CommitMember(root: Root, target: TabId, thread: string, from: TabId, wanted: Option<string>): Member {
    match FindMember(root.members, target)
    case Some(m) => Member(target, Some(thread), m.role, m.level, if m.parent.Some? then m.parent else Some(from))
    case None =>
      var role := if wanted.Some? && wanted.value in root.policy.roles then wanted.value else root.policy.defaultRole;
      var sender := FindMember(root.members, from);
      Member(target, Some(thread), role, if sender.Some? then sender.value.level + 1 else 1, Some(from))
  }

  function CommitSection(root: Root, target: TabId, thread: string, from: TabId, wanted: Option<string>,
      receipt: Receipt): Root
  {
    Write(root.(members := Join(root.members, CommitMember(root, target, thread, from, wanted)),
                receipts := RecordReceipt(root.receipts, receipt)))
  }

  function CommitLeafSection(root: Root, receipt: Receipt): Root {
    Write(root.(receipts := RecordReceipt(root.receipts, receipt)))
  }

  function End(root: Root, status: Status, reason: EndReason, now: Time): Root {
    Write(root.(status := status, endedAt := Some(now), endReason := Some(reason), finish := None))
  }

  /** `opFinish`, given whether the scan before it found other unfinished work. */
  function FinishSection(root: Root, outstanding: bool, reason: FinishReason, tab: TabId, attempt: AttemptId): Section {
    if Over(root) || root.status == Ending then Unchanged
    else if outstanding then Refused(FinishBlocked)
    else Written(Write(root.(status := Ending, finish := Some(PendingFinish(Complete, reason, tab, attempt)))))
  }

  datatype Work = Work(tab: TabId, attempt: AttemptId)

  /** `endRootFromUser`, given what the scan before it found. */
  function EndFromUserSection(root: Root, intent: Intent, outstanding: seq<Work>, now: Time): Section {
    var forced := intent == Stop && root.status == Ending;
    if Over(root) then Unchanged
    else if intent == Complete && outstanding != [] then Refused(FinishBlocked)
    else if outstanding == [] || forced then
      Written(End(root, if intent == Stop then Stopped else Completed,
                  if forced then StoppedByUserUnconfirmed else if intent == Stop then StoppedByUser
                  else CompletedByUser,
                  now))
    else
      Written(Write(root.(status := Ending,
                          finish := Some(PendingFinish(Stop, StoppedByUser, outstanding[0].tab,
                          outstanding[0].attempt)))))
  }

  /** `onQueueEvent`: the awaited turn is gone or over; `landed` when it completed or no longer exists. */
  function ConfirmSection(root: Root, attempt: AttemptId, landed: bool, now: Time): Section {
    if root.status != Ending || root.finish.None? || root.finish.value.attempt != attempt then Unchanged
    else if landed || root.finish.value.intent == Stop then
      Written(End(root, if root.finish.value.intent == Stop then Stopped else Completed, root.finish.value.reason, now))
    else
      Written(Write(root.(status := Running, endReason := Some(FinishConfirmationFailed), finish := None)))
  }

  function QuietSection(root: Root, now: Time): Section {
    if root.status != Running || root.finish.Some? then Unchanged
    else Written(End(root, Completed, CompletedNoWork, now))
  }

  function After(root: Root, s: Section): Root { if s.Written? then s.root else root }

  // ------------------------------------------------------------------ lifecycle

  /** `ending` exactly while a finish is pending; an end time exactly when over. */
  ghost predicate Coherent(root: Root) {
    && (root.status == Ending <==> root.finish.Some?)
    && (Over(root) <==> root.endedAt.Some?)
  }

  /** The status changes one locked section may make. Only a withdrawn finish goes back from ending to running. */
  ghost predicate StatusMove(a: Root, b: Root, withdrawal: bool) {
    || a.status == b.status
    || (a.status == Pending && b.status == Running)
    || (!Over(a) && Over(b))
    || (a.status in {Pending, Running} && b.status == Ending)
    || (withdrawal && a.status == Ending && b.status == Running)
  }

  /** Nothing a section does rewrites what identifies the root or its limits. */
  ghost predicate Frozen(a: Root, b: Root) {
    && a.originTab == b.originTab && a.originPrompt == b.originPrompt
    && a.policy == b.policy && a.limits == b.limits
    && a.revision <= b.revision
  }

  // ------------------------------------------------------------------ membership

  /** Tab ids are unique and every parent is null or an earlier member: a forest in join order. */
  ghost predicate Forest(ms: seq<Member>) {
    && (forall i, j :: 0 <= i < j < |ms| ==> ms[i].tab != ms[j].tab)
    && (forall i :: 0 <= i < |ms| && ms[i].parent.Some? ==> exists j :: 0 <= j < i && ms[j].tab == ms[i].parent.value)
  }

  /** `b` continues `a`: earlier members stay in place, and only a missing thread may be filled in. */
  ghost predicate Grows(a: seq<Member>, b: seq<Member>) {
    && |a| <= |b|
    && forall i :: 0 <= i < |a| ==>
         && b[i].tab == a[i].tab && b[i].role == a[i].role && b[i].level == a[i].level && b[i].parent == a[i].parent
         && (!NoThread(a[i].thread) ==> b[i].thread == a[i].thread)
  }

  lemma IsMemberIndex(ms: seq<Member>, tab: TabId) returns (i: nat)
    requires IsMember(ms, tab)
    ensures i < |ms| && ms[i].tab == tab
  {
    var m :| m in ms && m.tab == tab;
    i :| 0 <= i < |ms| && ms[i] == m;
  }

  /** Joining keeps the forest as long as a new member names a member as its parent. */
  lemma JoinKeepsForest(ms: seq<Member>, joining: Member)
    requires Forest(ms)
    requires !IsMember(ms, joining.tab) && joining.parent.Some? ==> IsMember(ms, joining.parent.value)
    ensures Forest(Join(ms, joining)) && Grows(ms, Join(ms, joining)) && IsMember(Join(ms, joining), joining.tab)
    ensures forall t :: IsMember(ms, t) ==> IsMember(Join(ms, joining), t)
  {
    var r := Join(ms, joining);
    if IsMember(ms, joining.tab) {
      forall i | 0 <= i < |r| && r[i].parent.Some?
        ensures exists j :: 0 <= j < i && r[j].tab == r[i].parent.value
      {
        var j :| 0 <= j < i && ms[j].tab == ms[i].parent.value;
        assert r[j].tab == r[i].parent.value;
      }
      assert Grows(ms, r);
    } else {
      assert forall i :: 0 <= i < |ms| ==> r[i] == ms[i];
      forall i | 0 <= i < |ms| ensures ms[i].tab != joining.tab { assert ms[i] in ms; }
      forall i | 0 <= i < |r| && r[i].parent.Some?
        ensures exists j :: 0 <= j < i && r[j].tab == r[i].parent.value
      {
        if i < |ms| {
          var j :| 0 <= j < i && ms[j].tab == ms[i].parent.value;
          assert r[j].tab == r[i].parent.value;
        } else {
          var j := IsMemberIndex(ms, joining.parent.value);
          assert r[j].tab == r[i].parent.value;
        }
      }
      assert r[|ms|] == joining;
    }
    MembersSurvive(ms, r);
    forall t | IsMember(ms, t) || t == joining.tab ensures IsMember(r, t) {
      if IsMember(ms, t) {
        var i := IsMemberIndex(ms, t);
        assert r[i].tab == t && r[i] in r;
      } else {
        assert r[|ms|] in r;
      }
    }
  }

  lemma MembersSurvive(a: seq<Member>, b: seq<Member>)
    requires Grows(a, b)
    ensures forall t :: IsMember(a, t) ==> IsMember(b, t)
  {
    forall t | IsMember(a, t) ensures IsMember(b, t) {
      var i := IsMemberIndex(a, t);
      assert b[i] in b;
    }
  }

  // ------------------------------------------------------------------ receipts

  ghost predicate UniqueKeys(rs: seq<Receipt>) {
    forall i, j :: 0 <= i < j < |rs| ==> rs[i].key != rs[j].key
  }

  lemma {:induction false} FilterUnique(rs: seq<Receipt>, keep: Receipt -> bool)
    requires UniqueKeys(rs)
    ensures UniqueKeys(Filter(rs, keep))
  {
    if rs != [] {
      assert UniqueKeys(rs[1..]);
      FilterUnique(rs[1..], keep);
      var rest := Filter(rs[1..], keep);
      forall i | 0 <= i < |rest| ensures rest[i].key != rs[0].key {
        assert rest[i] in rs[1..];
      }
    }
  }

  /** Recording keeps keys unique, adds the key, and below the cap forgets nothing. */
  lemma RecordKeeps(rs: seq<Receipt>, receipt: Receipt)
    requires UniqueKeys(rs)
    ensures UniqueKeys(RecordReceipt(rs, receipt))
    ensures FindReceipt(RecordReceipt(rs, receipt), receipt.key) == Some(receipt)
    ensures |RecordReceipt(rs, receipt)| <= |rs| + 1
    ensures |rs| < MAX_RECEIPTS ==>
      forall k :: FindReceipt(rs, k).Some? ==> FindReceipt(RecordReceipt(rs, receipt), k).Some?
  {
    var kept := Filter(rs, (x: Receipt) => x.key != receipt.key);
    FilterUnique(rs, (x: Receipt) => x.key != receipt.key);
    var all := kept + [receipt];
    forall i, j | 0 <= i < j < |all| ensures all[i].key != all[j].key {
      if j == |kept| { assert all[i] in kept; }
    }
    var r := RecordReceipt(rs, receipt);
    assert r[|r| - 1] == receipt;
    assert receipt in r;
    var found := FindReceipt(r, receipt.key).value;
    var i :| 0 <= i < |r| && r[i] == found;
    assert i == |r| - 1;
    if |rs| < MAX_RECEIPTS {
      forall k | FindReceipt(rs, k).Some? ensures FindReceipt(r, k).Some? {
        var x := FindReceipt(rs, k).value;
        if k != receipt.key { assert x in kept && x in r; }
      }
    }
  }
}
