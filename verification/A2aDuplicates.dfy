/** What `AtMostOnce` leaves out: a request that is in flight twice at once can be delivered twice. */
module A2aDuplicates {
  import opened Common
  import opened A2aRoot
  import opened A2aRuns
  import opened A2aDisturbed

  /** The origin's turn has asked for one thing twice, and nothing else is on its way. */
  ghost predicate AskedTwice(v: World, u: World, t: AttemptId, tab: TabId) {
    var key := SendKey(v.root.originTab, t, "r");
    && u == v.(sends := u.sends, overlapped := u.overlapped)
    && u.sends.Keys == {0, 1} && key in u.overlapped
    && (forall i :: i in u.sends ==> u.sends[i].key == key && u.sends[i].kind.Agent? && u.sends[i].stage == Checked
                                     && u.sends[i].target == tab)
  }

  lemma {:induction false} OriginAsksTwice(v: World, t: AttemptId, tab: TabId)
    requires OriginRuns(v, t) && tab != v.root.originTab && v.root.originTab !in v.leaves && v.root.limits.depth >= 1
    ensures AskedTwice(v, DoStartSend(DoStartSend(v, 0, t, "r", tab, "d", None), 1, t, "r", tab, "d", None), t, tab)
  {
    var u := DoStartSend(v, 0, t, "r", tab, "d", None);
    assert 0 in u.sends && u.sends[0].key == SendKey(v.root.originTab, t, "r");
  }

  lemma {:induction false} ReservesOne(u: World, id: nat)
    requires id in u.sends && u.sends[id].stage == Checked && u.sends[id].kind.Agent?
    requires u.root.status == Running && u.root.usedMessages < u.root.limits.messages
    ensures
      var x := DoReserve(u, id);
      && x == u.(root := x.root, sends := u.sends[id := u.sends[id].(stage := Reserved)])
      && x.root == u.root.(usedMessages := u.root.usedMessages + 1, revision := x.root.revision)
  {
  }

  lemma {:induction false} DeliversOne(u: World, id: nat, p: PromptId)
    requires id in u.sends && u.sends[id].stage == Reserved && p !in u.issued
    ensures
      var x := DoEnqueue(u, id, p, "");
      && x.log == u.log + [Delivery(u.sends[id].key, u.sends[id].depth, p)] && x.issued == u.issued + {p}
      && x.sends == u.sends[id := u.sends[id].(stage := Enqueued(p, ""))]
  {
  }

  /** Both are reserved and enqueued before either is recorded. */
  lemma {:induction false} BothAreDelivered(w: World, u: World, p: PromptId, q: PromptId) returns (x: World)
    requires Reaches(w, u) && 0 in u.sends && 1 in u.sends
    requires u.sends[0].stage == Checked && u.sends[1].stage == Checked && u.sends[0].key == u.sends[1].key
    requires u.sends[0].kind.Agent? && u.sends[1].kind.Agent?
    requires u.root.status == Running && u.root.usedMessages + 2 <= u.root.limits.messages
    requires p !in u.issued && q !in u.issued && p != q
    ensures Reaches(w, x)
    ensures var n := |u.log|;
      |x.log| == n + 2 && x.log[n].key == x.log[n + 1].key && x.log[n].prompt == p && x.log[n + 1].prompt == q
  {
    ReservesOne(u, 0);
    x := AfterSend(w, u, Reserve(0));
    ReservesOne(x, 1);
    x := AfterSend(w, x, Reserve(1));
    DeliversOne(x, 0, p);
    x := AfterSend(w, x, Enqueue(0, p, ""));
    DeliversOne(x, 1, q);
    x := AfterSend(w, x, Enqueue(1, q, ""));
  }

  /** From any new root with three messages and depth one: its turn sends one request twice at once. */
  lemma {:induction false} DeliveredTwice(w: World, t: AttemptId, thread: string, tab: TabId, p: PromptId, q: PromptId)
      returns (x: World)
    requires Initial(w) && w.prompts.Keys == {w.root.originPrompt} && w.prompts[w.root.originPrompt].status == Queued
    requires w.prompts[w.root.originPrompt].tab == w.root.originTab && t !in w.spent
    requires tab != w.root.originTab && w.root.originTab !in w.leaves
    requires w.root.limits.depth >= 1 && w.root.limits.messages >= 3
    requires p !in w.issued && q !in w.issued && p != q
    ensures Reaches(w, x)
    ensures exists j, k :: 0 <= j < k < |x.log| && x.log[j].key == x.log[k].key && x.log[j].prompt != x.log[k].prompt
  {
    var v := OriginStarts(w, t, thread);
    OriginAsksTwice(v, t, tab);
    var u := AfterSend(w, v, StartSend(0, t, "r", tab, "d", None));
    u := AfterSend(w, u, StartSend(1, t, "r", tab, "d", None));
    x := BothAreDelivered(w, u, p, q);
    assert x.log[|u.log|].key == x.log[|u.log| + 1].key && x.log[|u.log|].prompt != x.log[|u.log| + 1].prompt;
  }
}
