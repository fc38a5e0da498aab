/**
 * The service and its store as they run: records, contexts and inbound times updated
 * in place, one method for each stretch of a verb that nothing can interrupt.
 */
module A2aService {
  import opened Common
  import opened A2aRoot
  import opened Numerals
  import RateLimit

  type RootId = string
  datatype Live = Live(tab: TabId, root: RootId, prompt: PromptId, thread: string, depth: nat, role: string, level: nat)

  /** What storage knows about the prompt a context names. */
  datatype Turn = Turn(ready: bool, thread: string, executing: bool, lastAttempt: AttemptId)

  datatype Resolution = Resolved(context: Live, root: Root) | Invalid | Expired | NoRoot

  class Service {
    var roots: map<RootId, Root>
    var contexts: map<AttemptId, Live>
    var inbound: map<TabId, seq<Time>>

    constructor ()
      ensures roots == map[] && contexts == map[] && inbound == map[]
    {
      roots, contexts, inbound := map[], map[], map[];
    }

    /** Unconditional: whatever record the id had is replaced. */
    method BeginRoot(id: RootId, tab: TabId, prompt: PromptId, policy: Policy)
      modifies this`roots
      ensures roots == old(roots)[id := NewRoot(tab, prompt, policy, DEFAULT_LIMITS)]
    {
      Put(id, Root(0, Pending, tab, prompt, policy, DEFAULT_LIMITS, None, None, None, 1, [], None, []));
    }

    /** The first free of `prompt-2`, `prompt-3`, ..., `prompt-999`. */
    method NextRootId(prompt: PromptId) returns (id: Option<RootId>)
      ensures id.Some? ==> id.value !in roots
      ensures id.Some? ==>
        exists n :: 2 <= n < 1000 && id.value == Candidate(prompt, n) &&
                    forall m :: 2 <= m < n ==> Candidate(prompt, m) in roots
      ensures id.None? <==> forall n :: 2 <= n < 1000 ==> Candidate(prompt, n) in roots
    {
      var attempt := 2;
      while attempt < 1000
        invariant 2 <= attempt <= 1000
        invariant forall m :: 2 <= m < attempt ==> Candidate(prompt, m) in roots
      {
        var candidate := prompt + "-" + Dec(attempt);
        assert candidate == Candidate(prompt, attempt);
        if candidate !in roots { return Some(candidate); }
        attempt := attempt + 1;
      }
      return None;
    }

    /** The locked section of `prepareDispatch` and the context written after it. */
    method PrepareDispatch(id: RootId, attempt: AttemptId, tab: TabId, prompt: PromptId, thread: string,
        from: Option<TabId>, depth: nat, now: Time)
      returns (started: bool)
      modifies this`roots, this`contexts
      ensures started == (id in old(roots))
      ensures started ==> roots == old(roots)[id := DispatchSection(old(roots)[id], tab, prompt, thread, from, now)]
      ensures started ==> attempt in contexts && contexts == old(contexts)[attempt := contexts[attempt]]
      ensures started ==> Some((contexts[attempt].role, contexts[attempt].level)) == MemberRole(roots[id].members, tab)
      ensures started ==> contexts[attempt] == Live(tab, id, prompt, thread, depth, contexts[attempt].role,
          contexts[attempt].level)
      ensures !started ==> roots == old(roots) && contexts == old(contexts)
    {
      if id !in roots { return false; }
      var current := roots[id];
      var isOrigin := current.originTab == tab && current.originPrompt == prompt;
      var existing := FindMember(current.members, tab);
      var role := if existing.Some? then existing.value.role else if isOrigin then current.policy.rootRole
          else current.policy.defaultRole;
      var level := if existing.Some? then existing.value.level else if isOrigin then 0 else 1;
      var parent := if existing.Some? && existing.value.parent.Some? then existing.value.parent else from;
      var next := current.(members := Join(current.members, Member(tab, Some(thread), role, level, parent)));
      if next.status == Pending {
        next := next.(status := Running, startedAt := if next.startedAt.Some? then next.startedAt else Some(now));
      }
      Put(id, next);
      JoinedIsFound(current.members, Member(tab, Some(thread), role, level, parent));
      var member := FindMember(roots[id].members, tab);
      contexts := contexts[attempt := Live(tab, id, prompt, thread, depth, member.value.role, member.value.level)];
      return true;
    }

    /** `write`: the stored record carries the next revision. */
    method Put(id: RootId, root: Root)
      modifies this`roots
      ensures roots == old(roots)[id := Write(root)]
    {
      roots := roots[id := root.(revision := root.revision + 1)];
    }

    /** `opSend` takes one message from the budget. */
    method Reserve(id: RootId) returns (section: Section)
      requires id in roots
      modifies this`roots
      ensures section == ReserveSection(old(roots)[id])
      ensures roots == if section.Written? then old(roots)[id := section.root] else old(roots)
    {
      var current := roots[id];
      if current.status == Ending { return Refused(RootEnding); }
      if current.status == Completed || current.status == Stopped { return Refused(RootEnded); }
      if current.usedMessages >= current.limits.messages { return Refused(MessageLimit); }
      Put(id, current.(usedMessages := current.usedMessages + 1));
      return Written(roots[id]);
    }

    /** `replyForLeaf` takes one message from the budget. */
    method ReserveLeaf(id: RootId, depth: nat) returns (section: Section)
      requires id in roots
      modifies this`roots
      ensures section == ReserveLeafSection(old(roots)[id], depth)
      ensures roots == if section.Written? then old(roots)[id := section.root] else old(roots)
    {
      var current := roots[id];
      if current.status != Running { return Unchanged; }
      if depth > current.limits.depth || current.usedMessages >= current.limits.messages { return Unchanged; }
      Put(id, current.(usedMessages := current.usedMessages + 1));
      return Written(roots[id]);
    }

    method Refund(id: RootId)
      modifies this`roots
      ensures roots == if id in old(roots) then old(roots)[id := RefundSection(old(roots)[id])] else old(roots)
    {
      if id in roots {
        var used: nat := if roots[id].usedMessages == 0 then 0 else roots[id].usedMessages - 1;
        Put(id, roots[id].(usedMessages := used));
      }
    }

    /** The last section of `opSend`: the target joins and the receipt is written. */
    method Commit(id: RootId, target: TabId, thread: string, from: TabId, wanted: Option<string>, receipt: Receipt)
      requires id in roots
      modifies this`roots
      ensures roots == old(roots)[id := CommitSection(old(roots)[id], target, thread, from, wanted, receipt)]
    {
      var current := roots[id];
      var existing := FindMember(current.members, target);
      var sender := FindMember(current.members, from);
      var role := if existing.Some? then existing.value.role
                  else if wanted.Some? && wanted.value in current.policy.roles then wanted.value
                  else current.policy.defaultRole;
      var level := if existing.Some? then existing.value.level else if sender.Some? then sender.value.level + 1 else 1;
      var parent := if existing.Some? && existing.value.parent.Some? then existing.value.parent else Some(from);
      var joined := current.(members := Join(current.members, Member(target, Some(thread), role, level, parent)));
      Put(id, joined.(receipts := RecordReceipt(joined.receipts, receipt)));
    }

    method CommitLeaf(id: RootId, receipt: Receipt)
      requires id in roots
      modifies this`roots
      ensures roots == old(roots)[id := CommitLeafSection(old(roots)[id], receipt)]
    {
      Put(id, roots[id].(receipts := RecordReceipt(roots[id].receipts, receipt)));
    }

    /** `opFinish`, given its scan. */
    method Finish(id: RootId, outstanding: bool, reason: FinishReason, tab: TabId, attempt: AttemptId)
        returns (section: Section)
      requires id in roots
      modifies this`roots
      ensures section == FinishSection(old(roots)[id], outstanding, reason, tab, attempt)
      ensures roots == if section.Written? then old(roots)[id := section.root] else old(roots)
    {
      var current := roots[id];
      if current.status == Completed || current.status == Stopped { return Unchanged; }
      if current.status == Ending { return Unchanged; }
      if outstanding { return Refused(FinishBlocked); }
      Put(id, current.(status := Ending, finish := Some(PendingFinish(Complete, reason, tab, attempt))));
      return Written(roots[id]);
    }

    /** `endRootFromUser`, given its scan. */
    method EndFromUser(id: RootId, intent: Intent, outstanding: seq<Work>, now: Time) returns (section: Section)
      requires id in roots
      modifies this`roots
      ensures section == EndFromUserSection(old(roots)[id], intent, outstanding, now)
      ensures roots == if section.Written? then old(roots)[id := section.root] else old(roots)
    {
      var current := roots[id];
      if current.status == Completed || current.status == Stopped { return Unchanged; }
      if intent == Complete && |outstanding| > 0 { return Refused(FinishBlocked); }
      var forced := intent == Stop && current.status == Ending;
      if |outstanding| == 0 || forced {
        var reason := if forced then StoppedByUserUnconfirmed else if intent == Stop then StoppedByUser
            else CompletedByUser;
        Put(id, current.(status := if intent == Stop then Stopped
            else Completed, endedAt := Some(now), endReason := Some(reason), finish := None));
      } else {
        Put(id, current.(status := Ending,
            finish := Some(PendingFinish(Stop, StoppedByUser, outstanding[0].tab, outstanding[0].attempt))));
      }
      return Written(roots[id]);
    }

    /** `onQueueEvent`: the turn a pending end was waiting for is over or gone. */
    method Confirm(id: RootId, attempt: AttemptId, landed: bool, now: Time) returns (section: Section)
      requires id in roots
      modifies this`roots
      ensures section == ConfirmSection(old(roots)[id], attempt, landed, now)
      ensures roots == if section.Written? then old(roots)[id := section.root] else old(roots)
    {
      var current := roots[id];
      if current.status != Ending || current.finish.None? || current.finish.value.attempt != attempt {
        return Unchanged;
      }
      var stop := current.finish.value.intent == Stop;
      if landed || stop {
        Put(id, current.(status := if stop then Stopped else Completed, endedAt := Some(now),
                         endReason := Some(current.finish.value.reason), finish := None));
      } else {
        Put(id, current.(status := Running, endReason := Some(FinishConfirmationFailed), finish := None));
      }
      return Written(roots[id]);
    }

    /** `settleQuietRoots`, after a scan that found nothing. */
    method SettleQuiet(id: RootId, now: Time) returns (section: Section)
      requires id in roots
      modifies this`roots
      ensures section == QuietSection(old(roots)[id], now)
      ensures roots == if section.Written? then old(roots)[id := section.root] else old(roots)
    {
      var current := roots[id];
      if current.status != Running || current.finish.Some? { return Unchanged; }
      Put(id, current.(status := Completed, endedAt := Some(now), endReason := Some(CompletedNoWork), finish := None));
      return Written(roots[id]);
    }

    /**
     * A context is good only while its attempt is the turn its conversation is executing; otherwise it is
     * forgotten.
     */
    method ResolveContext(attempt: AttemptId, tab: TabId, turn: Option<Turn>) returns (r: Resolution)
      modifies this`contexts
      ensures r.Invalid? <==> attempt !in old(contexts) || old(contexts)[attempt].tab != tab
      ensures r.Resolved? || r.NoRoot? <==> !r.Invalid? && Executes(turn, old(contexts)[attempt], attempt)
      ensures r.Resolved? <==> (r.Resolved? || r.NoRoot?) && old(contexts)[attempt].root in roots
      ensures r.Resolved? ==> r.context == old(contexts)[attempt] && r.root == roots[r.context.root]
      ensures contexts == if r.Expired? then old(contexts) - {attempt} else old(contexts)
    {
      if attempt !in contexts || contexts[attempt].tab != tab { return Invalid; }
      var context := contexts[attempt];
      if turn.None? || !turn.value.ready || turn.value.thread != context.thread || !turn.value.executing
          || turn.value.lastAttempt != attempt {
        contexts := contexts - {attempt};
        return Expired;
      }
      if context.root !in roots { return NoRoot; }
      return Resolved(context, roots[context.root]);
    }

    method ReleaseContext(attempt: AttemptId)
      modifies this`contexts
      ensures contexts == old(contexts) - {attempt}
    {
      contexts := contexts - {attempt};
    }

    /** Every context of one conversation, and no other, is forgotten. */
    method ReleaseTabContexts(tab: TabId)
      modifies this`contexts
      ensures contexts == map a | a in old(contexts) && old(contexts)[a].tab != tab :: old(contexts)[a]
    {
      var rest := contexts.Keys;
      while rest != {}
        invariant rest <= old(contexts).Keys
        invariant contexts == map a | a in old(contexts) && (a in rest
            || old(contexts)[a].tab != tab) :: old(contexts)[a]
        decreases rest
      {
        var a :| a in rest;
        if contexts[a].tab == tab { contexts := contexts - {a}; }
        rest := rest - {a};
      }
    }

    function Inbound(tab: TabId): seq<Time>
      reads this
    {
      if tab in inbound then inbound[tab] else []
    }

    method RateLimitDelay(tab: TabId, perMinute: RateLimit.Rate, now: Time) returns (wait: int)
      modifies this`inbound
      ensures wait == RateLimit.Delay(old(Inbound(tab)), perMinute, now)
      ensures inbound == old(inbound)[tab := RateLimit.Prune(old(Inbound(tab)), now)]
    {
      var recent := RateLimit.Prune(Inbound(tab), now);
      inbound := inbound[tab := recent];
      if |recent| < perMinute { return 0; }
      var left := RateLimit.WINDOW - (now - recent[0]);
      return if left > 1000 then left else 1000;
    }

    method NoteInbound(tab: TabId, now: Time)
      modifies this`inbound
      ensures inbound == old(inbound)[tab := RateLimit.Prune(old(Inbound(tab)), now) + [now]]
    {
      inbound := inbound[tab := RateLimit.Prune(Inbound(tab), now) + [now]];
    }
  }

  /** The conversation is ready in the context's thread, and executes the turn of that attempt. */
  predicate Executes(turn: Option<Turn>, context: Live, attempt: AttemptId) {
    && turn.Some? && turn.value.ready && turn.value.thread == context.thread && turn.value.executing
    && turn.value.lastAttempt == attempt
  }

  function Candidate(prompt: PromptId, n: nat): RootId { prompt + "-" + Dec(n) }

  function MemberRole(ms: seq<Member>, tab: TabId): Option<(string, nat)> {
    var m := FindMember(ms, tab);
    if m.Some? then Some((m.value.role, m.value.level)) else None
  }

  /** Distinct attempts are distinct ids, so a thousand restarts cannot collide. */
  lemma {:induction false} CandidatesDiffer(prompt: PromptId, m: nat, n: nat)
    requires Candidate(prompt, m) == Candidate(prompt, n)
    ensures m == n
  {
    assert Candidate(prompt, m)[|prompt| + 1..] == Dec(m);
    assert Candidate(prompt, n)[|prompt| + 1..] == Dec(n);
    DecInjective(m, n);
  }

  lemma {:induction false} JoinedIsFound(ms: seq<Member>, m: Member)
    ensures FindMember(Join(ms, m), m.tab).Some?
  {
    if IsMember(ms, m.tab) {
      var i := IsMemberIndex(ms, m.tab);
      assert Join(ms, m)[i].tab == m.tab && Join(ms, m)[i] in Join(ms, m);
    } else {
      assert Join(ms, m)[|ms|] == m;
      assert m in Join(ms, m);
    }
  }
}
