/**
 * Results about whole runs of a root: what they keep, and who is a member.
 */
module A2aTheorems {
  import opened A2aRoot
  import opened A2aRuns
  import opened A2aQuiet

  lemma {:induction false} RunStep(w: World, steps: seq<Step>, step: Step)
    ensures Run(w, steps + [step]) == Apply(Run(w, steps), step)
  {
    assert (steps + [step])[..|steps|] == steps;
  }

  lemma {:induction false} InvAlways(w: World, steps: seq<Step>)
    requires Initial(w)
    ensures Inv(Run(w, steps))
    decreases |steps|
  {
    if steps != [] {
      InvAlways(w, steps[..|steps| - 1]);
      StepInv(Run(w, steps[..|steps| - 1]), steps[|steps| - 1]);
    }
  }

  /**
   * Membership is a grow-only forest over every run: tab ids are unique, each parent is
   * null or an earlier member, and a member's role, level and parent never change.
   */
  lemma {:induction false} MembershipIsAForest(w: World, before: seq<Step>, after: seq<Step>)
    requires Initial(w)
    ensures Forest(Run(w, before + after).root.members)
    ensures Grows(Run(w, before).root.members, Run(w, before + after).root.members)
    decreases |after|
  {
    InvAlways(w, before + after);
    if after == [] {
      assert before + after == before;
    } else {
      var k := |after| - 1;
      MembershipIsAForest(w, before, after[..k]);
      assert before + after == (before + after[..k]) + [after[k]];
      RunStep(w, before + after[..k], after[k]);
      InvAlways(w, before + after[..k]);
      MembersGrow(Run(w, before).root.members, Run(w, before + after[..k]), after[k]);
    }
  }

  lemma {:induction false} MembersGrow(ms: seq<Member>, w: World, step: Step)
    requires Inv(w) && Grows(ms, w.root.members)
    ensures Grows(ms, Apply(w, step).root.members)
  {
    StepInv(w, step);
  }
}
