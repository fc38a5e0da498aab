/** What a recovery does to answers that were already there: which finished ones survive it as they are. */
module RecoveredAnswers {
  import opened Common
  import opened Recovery
  import Outcomes = RecoveryOutcomes

  predicate OfTurn(a: Answer, thread: string, turn: string) { a.thread == thread && a.turn == turn }

  /** The answers of one turn, in order; there can be several, and recovery looks at the first. */
  function Own(answers: seq<Answer>, thread: string, turn: string): seq<Answer> {
    Filter(answers, (a: Answer) => OfTurn(a, thread, turn))
  }

  predicate Names(p: Prompt, thread: string, turn: string) { p.thread == Some(thread) && p.turn == Some(turn) }

  /** Prompt `k` is the first stale one with its key, and names this turn. */
  ghost predicate SettlesAt(stale: seq<Prompt>, k: nat, thread: string, turn: string)
    requires k < |stale| && forall i :: 0 <= i < |stale| ==> StaleTurn(stale[i])
  {
    Names(stale[k], thread, turn) && TurnKey(stale[k]) !in Keys(stale[..k])
  }

  ghost predicate Settles(stale: seq<Prompt>, thread: string, turn: string)
    requires forall i :: 0 <= i < |stale| ==> StaleTurn(stale[i])
  {
    exists k :: 0 <= k < |stale| && SettlesAt(stale, k, thread, turn)
  }

  /** The turn is settled, and some prompt of it is no command. */
  ghost predicate Interrupts(b: Bundle, thread: string, turn: string) {
    && Settles(StalePrompts(b.prompts), thread, turn)
    && exists p :: p in b.prompts && Names(p, thread, turn) && !IsSlashCommand(p.text)
  }

  // ------------------------------------------------------------------ filters and single answers

  lemma SplitAt<T>(s: seq<T>, i: nat, x: T)
    requires i < |s|
    ensures s[i := x] == s[..i] + [x] + s[i + 1..]
  {
  }

  lemma {:induction false} FilterSplit<T(!new)>(s: seq<T>, i: nat, x: T, keep: T -> bool)
    requires i < |s|
    ensures Filter(s[i := x], keep) == Filter(s[..i], keep) + (if keep(x) then [x] else []) + Filter(s[i + 1..], keep)
  {
    SplitAt(s, i, x);
    FilterConcat(s[..i] + [x], s[i + 1..], keep);
    FilterConcat(s[..i], [x], keep);
    assert [x][1..] == [];
  }

  lemma {:induction false} FilterTwice<T(!new)>(s: seq<T>, wider: T -> bool, keep: T -> bool)
    requires forall x :: keep(x) ==> wider(x)
    ensures Filter(Filter(s, wider), keep) == Filter(s, keep)
  {
    if s != [] {
      FilterTwice(s[1..], wider, keep);
      if wider(s[0]) { assert ([s[0]] + Filter(s[1..], wider))[1..] == Filter(s[1..], wider); }
    }
  }

  function IsCompleted(): Answer -> bool { (a: Answer) => a.status == Completed }

  lemma {:induction false} FilterSwap<T(!new)>(s: seq<T>, f: T -> bool, g: T -> bool)
    ensures Filter(Filter(s, f), g) == Filter(Filter(s, g), f)
  {
    if s != [] {
      FilterSwap(s[1..], f, g);
      if f(s[0]) { assert ([s[0]] + Filter(s[1..], f))[1..] == Filter(s[1..], f); }
      if g(s[0]) { assert ([s[0]] + Filter(s[1..], g))[1..] == Filter(s[1..], g); }
    }
  }

  lemma {:induction false} FilterAlike<T(!new)>(s: seq<T>, f: T -> bool, g: T -> bool)
    requires forall x :: x in s ==> f(x) == g(x)
    ensures Filter(s, f) == Filter(s, g)
  {
    if s != [] { FilterAlike(s[1..], f, g); }
  }

  /** What a turn of commands keeps of its answers is what was complete. */
  lemma {:induction false} CommandsKeepCompleted(answers: seq<Answer>, thread: string, turn: string)
    ensures Own(Filter(answers, Keeps(thread, turn)), thread, turn)
      == Filter(Own(answers, thread, turn), IsCompleted())
  {
    var own := (a: Answer) => OfTurn(a, thread, turn);
    FilterSwap(answers, Keeps(thread, turn), own);
    assert forall a :: a in Own(answers, thread, turn) ==> own(a);
    FilterAlike(Own(answers, thread, turn), Keeps(thread, turn), IsCompleted());
  }

  /** Settling another turn leaves the answers of this one alone. */
  lemma {:induction false} OtherTurnIsSpared(s: Settling, prompts: seq<Prompt>, stale: Prompt,
                                             uuid: (string, string) -> string, now: Time,
                                             thread: string, turn: string)
    requires StaleTurn(stale) && !Names(stale, thread, turn)
    ensures Own(SettledTurn(s, prompts, stale, uuid, now).answers, thread, turn) == Own(s.answers, thread, turn)
  {
    var own := (a: Answer) => OfTurn(a, thread, turn);
    var linked := Filter(prompts, LinkedTo(stale.thread.value, stale.turn.value));
    var i := FindAnswer(s.answers, stale.thread.value, stale.turn.value);
    var r := SettledTurn(s, prompts, stale, uuid, now).answers;
    if AllSlash(linked) {
      FilterTwice(s.answers, Keeps(stale.thread.value, stale.turn.value), own);
    } else if i < |s.answers| {
      FilterSplit(s.answers, i, r[i], own);
      FilterSplit(s.answers, i, s.answers[i], own);
      assert s.answers[i := s.answers[i]] == s.answers;
    } else {
      FilterConcat(s.answers, [r[i]], own);
      assert [r[i]][1..] == [];
    }
  }

  /** The prompt was delivered to this turn in one of its attempts, in that way. */
  predicate DeliveredAs(p: Prompt, turn: string, d: Delivery) {
    exists a :: a in p.attempts && a.turn == Some(turn) && a.delivery == d
  }

  lemma DeliveredIs(p: Prompt, turn: string, d: Delivery)
    ensures Delivered(p, turn, d) <==> DeliveredAs(p, turn, d)
  {
    if a :| a in p.attempts && a.turn == Some(turn) && a.delivery == d {
      var i :| 0 <= i < |p.attempts| && p.attempts[i] == a;
    }
  }

  lemma {:induction false} SteeredAre(linked: seq<Prompt>, turn: string)
    ensures Steered(linked, turn) == Ids(Filter(linked, (p: Prompt) => DeliveredAs(p, turn, Steer)))
  {
    forall p ensures Delivered(p, turn, Steer) == DeliveredAs(p, turn, Steer) { DeliveredIs(p, turn, Steer); }
    FilterAlike(linked, (p: Prompt) => Delivered(p, turn, Steer), (p: Prompt) => DeliveredAs(p, turn, Steer));
  }

  /** Prompt `k` began the turn: the first delivered as a turn of its own, else the first of all. */
  predicate Begins(linked: seq<Prompt>, turn: string, k: nat)
    requires k < |linked|
  {
    if exists i :: 0 <= i < |linked| && DeliveredAs(linked[i], turn, Turn)
    then DeliveredAs(linked[k], turn, Turn) && forall i :: 0 <= i < k ==> !DeliveredAs(linked[i], turn, Turn)
    else k == 0
  }

  lemma {:induction false} FirstDeliveredIs(linked: seq<Prompt>, turn: string)
    ensures var found := FirstDelivered(linked, turn);
      && (found.None? <==> forall i :: 0 <= i < |linked| ==> !DeliveredAs(linked[i], turn, Turn))
      && (found.Some? ==> exists k :: 0 <= k < |linked| && linked[k] == found.value
                                      && DeliveredAs(linked[k], turn, Turn)
                                      && forall i :: 0 <= i < k ==> !DeliveredAs(linked[i], turn, Turn))
  {
    if linked != [] {
      DeliveredIs(linked[0], turn, Turn);
      if !DeliveredAs(linked[0], turn, Turn) {
        FirstDeliveredIs(linked[1..], turn);
        var rest := linked[1..];
        if k :| 0 <= k < |rest| && Some(rest[k]) == FirstDelivered(rest, turn) && DeliveredAs(rest[k], turn, Turn)
                && forall i :: 0 <= i < k ==> !DeliveredAs(rest[i], turn, Turn) {
          assert linked[k + 1] == rest[k] && forall i :: 0 < i < k + 1 ==> linked[i] == rest[i - 1];
        }
      }
    }
  }

  /** The prompt a turn is recorded under is the one that began it. */
  lemma {:induction false} PrimaryBegins(linked: seq<Prompt>, turn: string, stale: Prompt)
    requires linked != []
    ensures exists k :: 0 <= k < |linked| && Begins(linked, turn, k) && linked[k] == Primary(linked, turn, stale)
  {
    FirstDeliveredIs(linked, turn);
    assert Begins(linked, turn, 0) || exists i :: 0 <= i < |linked| && DeliveredAs(linked[i], turn, Turn);
  }

  /** What the prompts say, trimmed, without those that say nothing. */
  function Said(linked: seq<Prompt>): seq<string> {
    Filter(Map(linked, (p: Prompt) => Trim(p.text)), (text: string) => text != "")
  }

  lemma {:induction false} SaidIs(linked: seq<Prompt>)
    ensures TrimmedTexts(linked) == Said(linked) && forall i :: 0 <= i < |Said(linked)| ==> Said(linked)[i] != ""
  {
    if linked != [] {
      SaidIs(linked[1..]);
      var texts := Map(linked, (p: Prompt) => Trim(p.text));
      assert texts[1..] == Map(linked[1..], (p: Prompt) => Trim(p.text));
    }
  }

  /** Texts are joined in order, with the joint between any two of them. */
  lemma {:induction false} JoinedIs(a: seq<string>, b: seq<string>)
    requires a != [] && b != []
    ensures Joined(a + b) == Joined(a) + JOINT + Joined(b)
  {
    assert (a + b)[1..] == a[1..] + b;
    if |a| == 1 {
      assert (a + b)[1..] == b;
    } else {
      JoinedIs(a[1..], b);
      Regroup(a[0] + JOINT, Joined(a[1..]), Joined(b));
    }
  }

  lemma Regroup(a: string, b: string, c: string)
    ensures a + (b + JOINT + c) == a + b + JOINT + c
  {
  }

  lemma JoinedSome(texts: seq<string>)
    requires forall i :: 0 <= i < |texts| ==> texts[i] != ""
    ensures Joined(texts) == "" <==> texts == []
  {
  }

  /**
   * `x` records an interrupted turn: under the prompt that began it, with all its prompts in order, those that were
   * steered into it, and the text of all of them, or of the first if all are blank.
   */
  ghost predicate Records(x: Answer, linked: seq<Prompt>, turn: string, now: Time) {
    && x.status == Interrupted && x.finalAnswer == "" && !x.captured && x.completedAt == Some(now) && x.error
    && x.promptIds == Ids(linked) && x.steeredIds == Ids(Filter(linked, (p: Prompt) => DeliveredAs(p, turn, Steer)))
    && exists k :: 0 <= k < |linked| && Begins(linked, turn, k) && x.promptId == linked[k].id
                   && x.origin == linked[k].origin
                   && x.prompt == if Said(linked) == [] then linked[k].text else Joined(Said(linked))
  }

  /** `x` has the time and the message it was started with, or else those of the prompt it is recorded under. */
  ghost predicate StartedAs(x: Answer, before: seq<Answer>, linked: seq<Prompt>) {
    && (before != [] && before[0].startedAt.Some? ==> x.startedAt == before[0].startedAt)
    && (before != [] && before[0].clientId.Some? ==> x.clientId == before[0].clientId)
    && exists k :: 0 <= k < |linked| && x.promptId == linked[k].id
                   && (before == [] || before[0].startedAt.None? ==> x.startedAt == linked[k].startedAt)
                   && (before == [] || before[0].clientId.None? ==> x.clientId == linked[k].clientId)
  }

  /** `after` is `before` with its first answer interrupted and emptied, or one such answer if there was none. */
  ghost predicate FirstInterrupted(before: seq<Answer>, after: seq<Answer>, linked: seq<Prompt>, turn: string,
      now: Time)
  {
    && after != [] && after[0].status == Interrupted && after[0].finalAnswer == ""
    && (before != [] ==> after[0].id == before[0].id && after[1..] == before[1..])
    && (before == [] ==> |after| == 1)
    && (linked != [] ==> Records(after[0], linked, turn, now) && StartedAs(after[0], before, linked))
  }

  /** One turn with a prompt that is no command: its first answer is rewritten in its place, or one more is put last. */
  lemma {:induction false} RecordedAs(s: Settling, prompts: seq<Prompt>, stale: Prompt,
      uuid: (string, string) -> string, now: Time)
    requires StaleTurn(stale)
    ensures
      var thread, turn := stale.thread.value, stale.turn.value;
      var linked := Filter(prompts, LinkedTo(thread, turn));
      var i := FindAnswer(s.answers, thread, turn);
      var r := SettledTurn(s, prompts, stale, uuid, now).answers;
      linked != [] && !AllSlash(linked)
      ==> i < |r| == Max(|s.answers|, i + 1) && Records(r[i], linked, turn, now)
          && StartedAs(r[i], if i < |s.answers| then [s.answers[i]] else [], linked)
          && forall j :: 0 <= j < |s.answers| && j != i ==> r[j] == s.answers[j]
  {
    var linked := Filter(prompts, LinkedTo(stale.thread.value, stale.turn.value));
    SaidIs(linked);
    SteeredAre(linked, stale.turn.value);
    JoinedSome(Said(linked));
    if linked != [] { PrimaryBegins(linked, stale.turn.value, stale); }
  }

  /** An answer of the turn is written over: it is the first of them. */
  lemma {:induction false} FirstWritten(answers: seq<Answer>, i: nat, x: Answer, thread: string, turn: string)
    requires i == FindAnswer(answers, thread, turn) && i < |answers| && OfTurn(x, thread, turn)
    ensures
      var before := Own(answers, thread, turn);
      before != [] && before[0] == answers[i] && Own(answers[i := x], thread, turn) == [x] + before[1..]
  {
    var own := (a: Answer) => OfTurn(a, thread, turn);
    var rest := Filter(answers[i + 1..], own);
    FilterNone(answers[..i], own);
    FilterSplit(answers, i, x, own);
    FilterSplit(answers, i, answers[i], own);
    assert answers[i := answers[i]] == answers;
    FirstOf(answers[i], rest);
    FirstOf(x, rest);
  }

  lemma FirstOf(x: Answer, rest: seq<Answer>)
    ensures [] + [x] + rest == [x] + rest && ([x] + rest)[1..] == rest
  {
  }

  /** An answer of a turn that has none is put last. */
  lemma {:induction false} FirstAdded(answers: seq<Answer>, x: Answer, thread: string, turn: string)
    requires FindAnswer(answers, thread, turn) == |answers| && OfTurn(x, thread, turn)
    ensures Own(answers, thread, turn) == [] && Own(answers + [x], thread, turn) == [x]
  {
    var own := (a: Answer) => OfTurn(a, thread, turn);
    assert answers[..|answers|] == answers;
    FilterNone(answers, own);
    FilterConcat(answers, [x], own);
    assert [x][1..] == [];
  }

  lemma {:induction false} OwnTurnIsSettled(s: Settling, prompts: seq<Prompt>, stale: Prompt,
      uuid: (string, string) -> string, now: Time)
    requires StaleTurn(stale)
    ensures
      var thread, turn := stale.thread.value, stale.turn.value;
      var before, after := Own(s.answers, thread, turn), Own(SettledTurn(s, prompts, stale, uuid, now).answers, thread,
          turn);
      if AllSlash(Filter(prompts, LinkedTo(thread, turn)))
      then after == Filter(before, IsCompleted())
      else FirstInterrupted(before, after, Filter(prompts, LinkedTo(thread, turn)), turn, now)
  {
    var thread, turn := stale.thread.value, stale.turn.value;
    var i := FindAnswer(s.answers, thread, turn);
    if AllSlash(Filter(prompts, LinkedTo(thread, turn))) {
      CommandsKeepCompleted(s.answers, thread, turn);
    } else {
      var x := SettledTurn(s, prompts, stale, uuid, now).answers[i];
      RecordedAs(s, prompts, stale, uuid, now);
      if i < |s.answers| { FirstWritten(s.answers, i, x, thread, turn); }
      else { FirstAdded(s.answers, x, thread, turn); }
    }
  }

  // ------------------------------------------------------------------ all stale turns

  /** What settling has done to this turn's answers: nothing, dropped unfinished ones, or interrupted the first. */
  ghost predicate OwnAfter(answers: seq<Answer>, prompts: seq<Prompt>, stale: seq<Prompt>,
                           uuid: (string, string) -> string, now: Time,
                           thread: string, turn: string)
    requires forall i :: 0 <= i < |stale| ==> StaleTurn(stale[i])
  {
    var before, after := Own(answers, thread, turn), Own(SettledTurns(answers, prompts, stale, uuid, now).answers,
        thread, turn);
    if !Settles(stale, thread, turn) then after == before
    else if AllSlash(Filter(prompts, LinkedTo(thread, turn)))
    then after == Filter(before, IsCompleted())
    else FirstInterrupted(before, after, Filter(prompts, LinkedTo(thread, turn)), turn, now)
  }

  lemma {:induction false} SettlesSnoc(stale: seq<Prompt>, thread: string, turn: string)
    requires stale != [] && forall i :: 0 <= i < |stale| ==> StaleTurn(stale[i])
    ensures var n := |stale| - 1;
      Settles(stale, thread, turn) <==> Settles(stale[..n], thread, turn) || SettlesAt(stale, n, thread, turn)
  {
    var n := |stale| - 1;
    forall k | 0 <= k < n ensures SettlesAt(stale, k, thread, turn) == SettlesAt(stale[..n], k, thread, turn) {
      assert stale[..n][..k] == stale[..k];
    }
  }

  /** A turn that has been settled is not settled again: its key is remembered. */
  lemma {:induction false} SettledOnce(stale: seq<Prompt>, thread: string, turn: string)
    requires stale != [] && forall i :: 0 <= i < |stale| ==> StaleTurn(stale[i])
    requires Settles(stale[..|stale| - 1], thread, turn) && Names(stale[|stale| - 1], thread, turn)
    ensures TurnKey(stale[|stale| - 1]) in Keys(stale[..|stale| - 1])
  {
    var init := stale[..|stale| - 1];
    var k :| 0 <= k < |init| && SettlesAt(init, k, thread, turn);
    assert TurnKey(init[k]) == TurnKey(stale[|stale| - 1]);
  }

  lemma {:induction false} OwnAnswersAfter(answers: seq<Answer>, prompts: seq<Prompt>, stale: seq<Prompt>,
                                           uuid: (string, string) -> string,
                                           now: Time, thread: string, turn: string)
    requires forall i :: 0 <= i < |stale| ==> StaleTurn(stale[i])
    ensures OwnAfter(answers, prompts, stale, uuid, now, thread, turn)
  {
    if stale != [] {
      var n := |stale| - 1;
      OwnAnswersAfter(answers, prompts, stale[..n], uuid, now, thread, turn);
      SettlesSnoc(stale, thread, turn);
      var before := SettledTurns(answers, prompts, stale[..n], uuid, now);
      if Names(stale[n], thread, turn) {
        if Settles(stale[..n], thread, turn) { SettledOnce(stale, thread, turn); }
        else { OwnTurnIsSettled(before, prompts, stale[n], uuid, now); }
      } else {
        OtherTurnIsSpared(before, prompts, stale[n], uuid, now, thread, turn);
      }
    }
  }

  /** Settling prompts changes neither what they say nor which turn they name. */
  lemma {:induction false} SettledAreLinked(prompts: seq<Prompt>, now: Time, thread: string, turn: string, i: nat)
    requires i < |prompts|
    ensures var q := SettledPrompts(prompts, now)[i];
      && q.text == prompts[i].text
      && (q in Filter(SettledPrompts(prompts, now), LinkedTo(thread, turn)) <==> Names(prompts[i], thread, turn))
  {
    assert SettledPrompts(prompts, now)[i] in SettledPrompts(prompts, now);
  }

  lemma {:induction false} LinkedAreCommands(prompts: seq<Prompt>, now: Time, thread: string, turn: string)
    requires exists p :: p in prompts && Names(p, thread, turn)
    ensures AllSlash(Filter(SettledPrompts(prompts, now), LinkedTo(thread, turn)))
      <==> forall p :: p in prompts && Names(p, thread, turn) ==> IsSlashCommand(p.text)
  {
    var settled := SettledPrompts(prompts, now);
    var linked := Filter(settled, LinkedTo(thread, turn));
    var named :| named in prompts && Names(named, thread, turn);
    var n :| 0 <= n < |prompts| && prompts[n] == named;
    SettledAreLinked(prompts, now, thread, turn, n);
    if AllSlash(linked) {
      forall p | p in prompts && Names(p, thread, turn) ensures IsSlashCommand(p.text) {
        var i :| 0 <= i < |prompts| && prompts[i] == p;
        SettledAreLinked(prompts, now, thread, turn, i);
        var k :| 0 <= k < |linked| && linked[k] == settled[i];
      }
    }
    if forall p :: p in prompts && Names(p, thread, turn) ==> IsSlashCommand(p.text) {
      forall k | 0 <= k < |linked| ensures IsSlashCommand(linked[k].text) {
        assert linked[k] in linked;
        var i :| 0 <= i < |settled| && settled[i] == linked[k];
        SettledAreLinked(prompts, now, thread, turn, i);
        assert prompts[i] in prompts;
      }
    }
  }

  lemma {:induction false} SettledIsNamed(b: Bundle, thread: string, turn: string)
    requires Settles(StalePrompts(b.prompts), thread, turn)
    ensures PromptStale(b) && exists p :: p in b.prompts && Names(p, thread, turn)
  {
    var stale := StalePrompts(b.prompts);
    var k :| 0 <= k < |stale| && SettlesAt(stale, k, thread, turn);
    assert stale[k] in b.prompts;
  }

  // ------------------------------------------------------------------ theorems

  /** What is done after the turns are settled drops no completed answer. */
  lemma {:induction false} CompletedPassCommands(b: Bundle, cleaned: bool, uuid: (string, string) -> string, now: Time,
      a: Answer)
    requires PromptStale(b) && a.status == Completed
    ensures a in Recovered(b, cleaned, uuid, now).answers
      <==> a in Own(SettledTurns(b.answers, SettledPrompts(b.prompts, now), StalePrompts(b.prompts), uuid, now).answers,
          a.thread, a.turn)
  {
    assert NotSlash(SettledPrompts(b.prompts, now))(a);
  }

  lemma NoPromptNoTurn(b: Bundle)
    requires !PromptStale(b)
    ensures StalePrompts(b.prompts) == []
  {
    FilterNone(b.prompts, IsStaleTurn());
  }

  /**
   * A completed answer is kept as it is if and only if its turn is not interrupted, or another answer of
   * the same turn comes before it. Nothing asks whether the answer that is found was complete.
   */
  lemma {:induction false} CompletedAnswerStays(b: Bundle, cleaned: bool, uuid: (string, string) -> string, now: Time,
      a: Answer)
    requires a in b.answers && a.status == Completed
    ensures a in Recovered(b, cleaned, uuid, now).answers
      <==> !Interrupts(b, a.thread, a.turn) || a in Own(b.answers, a.thread, a.turn)[1..]
  {
    if PromptStale(b) {
      CompletedPassCommands(b, cleaned, uuid, now, a);
      OwnAnswersAfter(b.answers, SettledPrompts(b.prompts, now), StalePrompts(b.prompts), uuid, now, a.thread, a.turn);
      if Settles(StalePrompts(b.prompts), a.thread, a.turn) {
        SettledIsNamed(b, a.thread, a.turn);
        LinkedAreCommands(b.prompts, now, a.thread, a.turn);
      }
    } else {
      NoPromptNoTurn(b);
    }
  }

  /** A prompt of the turn is among the settled ones. */
  lemma {:induction false} InterruptedIsLinked(b: Bundle, now: Time, thread: string, turn: string)
    requires Settles(StalePrompts(b.prompts), thread, turn)
    ensures PromptStale(b) && Filter(SettledPrompts(b.prompts, now), LinkedTo(thread, turn)) != []
    ensures AllSlash(Filter(SettledPrompts(b.prompts, now), LinkedTo(thread, turn))) <==> !Interrupts(b, thread, turn)
  {
    SettledIsNamed(b, thread, turn);
    LinkedAreCommands(b.prompts, now, thread, turn);
    var p :| p in b.prompts && Names(p, thread, turn);
    var i :| 0 <= i < |b.prompts| && b.prompts[i] == p;
    SettledAreLinked(b.prompts, now, thread, turn, i);
  }

  /** The answers of one turn when every stale turn is settled, and the answers to commands have yet to go. */
  function BeforeCleanup(b: Bundle, uuid: (string, string) -> string, now: Time, thread: string,
      turn: string): seq<Answer>
  {
    var s := SettledTurns(b.answers, SettledPrompts(b.prompts, now), StalePrompts(b.prompts), uuid, now);
    Own(s.answers, thread, turn)
  }

  /**
   * The answers of any one turn after a restart that found a live prompt. A turn that was interrupted has the record of
   * it first, in place of its first answer if it had one, and then the others; a turn of commands only, what was
   * complete; any other turn, what it had. Of all these, unfinished answers to commands are dropped.
   */
  lemma {:induction false} AnswersOutcome(b: Bundle, cleaned: bool, uuid: (string, string) -> string, now: Time,
      thread: string, turn: string)
    requires PromptStale(b)
    ensures
      var r := Recovered(b, cleaned, uuid, now);
      var settled := BeforeCleanup(b, uuid, now, thread, turn);
      var before := Own(b.answers, thread, turn);
      && Own(r.answers, thread, turn) == Filter(settled, NotSlash(r.prompts))
      && if !Settles(StalePrompts(b.prompts), thread, turn) then settled == before
         else if Interrupts(b, thread, turn)
         then FirstInterrupted(before, settled, Filter(r.prompts, LinkedTo(thread, turn)), turn, now)
              && Filter(r.prompts, LinkedTo(thread, turn)) != []
         else settled == Filter(before, IsCompleted())
  {
    var prompts, stale := SettledPrompts(b.prompts, now), StalePrompts(b.prompts);
    var after := SettledTurns(b.answers, prompts, stale, uuid, now).answers;
    OwnAnswersAfter(b.answers, prompts, stale, uuid, now, thread, turn);
    if Settles(stale, thread, turn) { InterruptedIsLinked(b, now, thread, turn); }
    FilterSwap(after, NotSlash(prompts), (a: Answer) => OfTurn(a, thread, turn));
  }

  /** Without a live prompt no answer is touched. */
  lemma NoPromptNoAnswer(b: Bundle, cleaned: bool, uuid: (string, string) -> string, now: Time)
    requires !PromptStale(b)
    ensures Recovered(b, cleaned, uuid, now).answers == b.answers
  {
  }

  lemma OnlyRecord(a: Answer, after: seq<Answer>, x: Answer, linked: seq<Prompt>, turn: string, now: Time)
    requires FirstInterrupted([a], after, linked, turn, now) && x in after
    ensures x.id == a.id && x.status == Interrupted && x.finalAnswer == ""
  {
    assert [a][1..] == [];
  }

  /** So the only answer of an interrupted turn, complete or not, ends up without its text, or is not there at all. */
  lemma {:induction false} InterruptedTurnIsErased(b: Bundle, cleaned: bool, uuid: (string, string) -> string,
      now: Time, a: Answer, x: Answer)
    requires Own(b.answers, a.thread, a.turn) == [a] && Interrupts(b, a.thread, a.turn)
    requires x in Recovered(b, cleaned, uuid, now).answers && OfTurn(x, a.thread, a.turn)
    ensures x.id == a.id && x.status == Interrupted && x.finalAnswer == ""
  {
    var stale, prompts := StalePrompts(b.prompts), SettledPrompts(b.prompts, now);
    SettledIsNamed(b, a.thread, a.turn);
    LinkedAreCommands(b.prompts, now, a.thread, a.turn);
    OwnAnswersAfter(b.answers, prompts, stale, uuid, now, a.thread, a.turn);
    var after := Own(SettledTurns(b.answers, prompts, stale, uuid, now).answers, a.thread, a.turn);
    assert x in after;
    OnlyRecord(a, after, x, Filter(prompts, LinkedTo(a.thread, a.turn)), a.turn, now);
  }

  lemma {:induction false} OnlyTurnSettled(p: Prompt, q: Prompt, a: Answer, uuid: (string, string) -> string, now: Time)
    requires StaleTurn(p) && q.id == p.id && q.text == p.text && Names(q, a.thread, a.turn)
    requires !IsSlashCommand(p.text) && Names(p, a.thread, a.turn)
    ensures SettledTurns([a], [q], [p], uuid, now).answers == [Rewritten(a, q, [q], now)]
  {
    assert [q][1..] == [] && [a][1..] == [] && [p][..0] == [];
    var linked := Filter([q], LinkedTo(a.thread, a.turn));
    assert linked == [q] && !AllSlash(linked);
    assert FirstDelivered([], a.turn) == None;
    assert Primary(linked, a.turn, p) == q;
    assert TurnKey(p) !in Keys([p][..0]);
    assert SettledTurns([a], [q], [p][..0], uuid, now) == Settling([a], false);
  }

  lemma CleanupKeeps(q: Prompt, x: Answer)
    requires x.promptId == q.id && !IsSlashCommand(q.text)
    ensures Filter([x], NotSlash([q])) == [x]
  {
    assert TextById([q], x.promptId) == Some(q.text);
    assert NotSlash([q])(x) && [x][1..] == [];
  }

  /** A restart between writing a turn's answer and its prompt is enough: the finished answer is emptied. */
  lemma {:induction false} FinishedAnswerErased(b: Bundle, cleaned: bool, uuid: (string, string) -> string, now: Time,
      p: Prompt, a: Answer)
    requires b.prompts == [p] && StaleTurn(p) && !IsSlashCommand(p.text)
    requires b.answers == [a] && a.status == Completed && Names(p, a.thread, a.turn)
    ensures var r := Recovered(b, cleaned, uuid, now).answers;
      |r| == 1 && r[0].id == a.id && r[0].turn == a.turn && r[0].status == Interrupted && r[0].finalAnswer == ""
  {
    var q := SettledPrompt(p, now);
    OnlyTurnSettled(p, q, a, uuid, now);
    assert [p][1..] == [];
    assert StalePrompts([p]) == [p] && SettledPrompts([p], now) == [q];
    CleanupKeeps(q, Rewritten(a, q, [q], now));
  }

  // ------------------------------------------------------------------ keys

  lemma KeyParts(p: Prompt)
    requires StaleTurn(p)
    ensures
      var key, n := TurnKey(p), |p.thread.value|;
      n < |key| && key[..n] == p.thread.value && key[n] == ':' && key[n + 1..] == p.turn.value
  {
  }

  /** The longer thread id is the shorter one, a colon, and what the shorter one's turn begins with. */
  predicate Colliding(p: Prompt, q: Prompt)
    requires StaleTurn(p) && StaleTurn(q)
  {
    var n := |p.thread.value|;
    && n < |q.thread.value| && q.thread.value[..n] == p.thread.value && q.thread.value[n] == ':'
    && p.turn.value == q.thread.value[n + 1..] + ":" + q.turn.value
  }

  /** Two turns have one key only if they are one, or a colon in the longer thread's id stands for the joint. */
  lemma {:induction false} KeysCollide(p: Prompt, q: Prompt)
    requires StaleTurn(p) && StaleTurn(q) && |p.thread.value| <= |q.thread.value|
    ensures TurnKey(p) == TurnKey(q) <==> (p.thread == q.thread && p.turn == q.turn) || Colliding(p, q)
  {
    var t, x, y := p.thread.value, q.thread.value, q.turn.value;
    var n := |t|;
    KeyParts(p);
    KeyParts(q);
    if TurnKey(p) == TurnKey(q) && n < |x| {
      assert x == TurnKey(q)[..|x|];
      assert TurnKey(q)[n + 1..] == x[n + 1..] + ":" + y;
    }
    if Colliding(p, q) {
      var rest := x[n + 1..];
      assert x == t + ":" + rest;
      assert TurnKey(q) == t + ":" + (rest + ":" + y);
    }
  }

  /** So ids without a colon keep turns apart. */
  lemma {:induction false} NoColonNoCollision(p: Prompt, q: Prompt)
    requires StaleTurn(p) && StaleTurn(q) && ':' !in p.thread.value && ':' !in q.thread.value
    ensures TurnKey(p) == TurnKey(q) <==> p.thread == q.thread && p.turn == q.turn
  {
    if |p.thread.value| <= |q.thread.value| { KeysCollide(p, q); } else { KeysCollide(q, p); }
  }

  /** Stale prompts with one key name one turn. */
  ghost predicate KeysApart(stale: seq<Prompt>)
    requires forall i :: 0 <= i < |stale| ==> StaleTurn(stale[i])
  {
    forall i, j :: 0 <= i < |stale| && 0 <= j < |stale| && TurnKey(stale[i]) == TurnKey(stale[j]) ==>
      stale[i].thread == stale[j].thread && stale[i].turn == stale[j].turn
  }

  /** The first stale prompt with this one's key. */
  lemma {:induction false} FirstWithKey(stale: seq<Prompt>, k: nat) returns (m: nat)
    requires k < |stale| && forall i :: 0 <= i < |stale| ==> StaleTurn(stale[i])
    ensures m <= k && TurnKey(stale[m]) == TurnKey(stale[k]) && TurnKey(stale[m]) !in Keys(stale[..m])
    decreases k
  {
    if TurnKey(stale[k]) in Keys(stale[..k]) {
      var i :| 0 <= i < k && TurnKey(stale[..k][i]) == TurnKey(stale[k]);
      m := FirstWithKey(stale, i);
    } else {
      m := k;
    }
  }

  /** Only the first with a key is looked at. */
  lemma FirstIsTheOne(stale: seq<Prompt>, m: nat, k: nat)
    requires m < |stale| && k < |stale| && forall i :: 0 <= i < |stale| ==> StaleTurn(stale[i])
    requires TurnKey(stale[m]) == TurnKey(stale[k])
    requires TurnKey(stale[m]) !in Keys(stale[..m]) && TurnKey(stale[k]) !in Keys(stale[..k])
    ensures m == k
  {
  }

  /** Every stale prompt's turn is settled if and only if no two different turns of theirs have one key. */
  lemma {:induction false} EveryTurnSettles(b: Bundle)
    ensures
      var stale := StalePrompts(b.prompts);
      (forall k :: 0 <= k < |stale| ==> Settles(stale, stale[k].thread.value, stale[k].turn.value))
        <==> KeysApart(stale)
  {
    var stale := StalePrompts(b.prompts);
    if KeysApart(stale) {
      forall k | 0 <= k < |stale| ensures Settles(stale, stale[k].thread.value, stale[k].turn.value) {
        var m := FirstWithKey(stale, k);
        assert SettlesAt(stale, m, stale[k].thread.value, stale[k].turn.value);
      }
    }
    if forall k :: 0 <= k < |stale| ==> Settles(stale, stale[k].thread.value, stale[k].turn.value) {
      forall i, j | 0 <= i < |stale| && 0 <= j < |stale| && TurnKey(stale[i]) == TurnKey(stale[j])
        ensures stale[i].thread == stale[j].thread && stale[i].turn == stale[j].turn
      {
        var m :| 0 <= m < |stale| && SettlesAt(stale, m, stale[i].thread.value, stale[i].turn.value);
        var n :| 0 <= n < |stale| && SettlesAt(stale, n, stale[j].thread.value, stale[j].turn.value);
        FirstIsTheOne(stale, m, n);
      }
    }
  }

  /** The stale turns are those of prompts that were dispatching or running in a turn that has a name. */
  lemma StaleTurnsAre(b: Bundle, p: Prompt)
    ensures p in StalePrompts(b.prompts) <==>
      && p in b.prompts && (p.status == Dispatching || p.status == Running)
      && p.thread.Some? && p.thread.value != "" && p.turn.Some? && p.turn.value != ""
  {
  }

  /** So every turn is, if no thread id has a colon in it. */
  lemma {:induction false} WithoutColonsAllSettle(b: Bundle, k: nat)
    requires k < |StalePrompts(b.prompts)|
    requires forall p :: p in b.prompts && p.thread.Some? ==> ':' !in p.thread.value
    ensures
      var stale := StalePrompts(b.prompts);
      Settles(stale, stale[k].thread.value, stale[k].turn.value)
  {
    var stale := StalePrompts(b.prompts);
    forall i, j | 0 <= i < |stale| && 0 <= j < |stale| && TurnKey(stale[i]) == TurnKey(stale[j])
      ensures stale[i].thread == stale[j].thread && stale[i].turn == stale[j].turn
    {
      assert stale[i] in b.prompts && stale[j] in b.prompts;
      NoColonNoCollision(stale[i], stale[j]);
    }
    EveryTurnSettles(b);
  }

  /** So a prompt that was live and is no command interrupts its turn, if thread ids have no colon in them. */
  lemma {:induction false} LivePromptInterrupts(b: Bundle, p: Prompt)
    requires forall p :: p in b.prompts && p.thread.Some? ==> ':' !in p.thread.value
    requires p in b.prompts && (p.status == Dispatching || p.status == Running) && !IsSlashCommand(p.text)
    requires p.thread.Some? && p.thread.value != "" && p.turn.Some? && p.turn.value != ""
    ensures Interrupts(b, p.thread.value, p.turn.value)
  {
    StaleTurnsAre(b, p);
    var stale := StalePrompts(b.prompts);
    var k :| 0 <= k < |stale| && stale[k] == p;
    WithoutColonsAllSettle(b, k);
  }

  /** Otherwise a turn can be skipped: the later of these two is not settled. */
  lemma {:induction false} CollidingTurnIsSkipped(p: Prompt, q: Prompt)
    requires StaleTurn(p) && StaleTurn(q) && Names(p, "a:b", "c") && Names(q, "a", "b:c")
    ensures TurnKey(p) == TurnKey(q) && Settles([p, q], "a:b", "c") && !Settles([p, q], "a", "b:c")
  {
    assert TurnKey(p) == "a:b:c" && TurnKey(q) == "a:b:c";
    assert [p, q][..0] == [] && [p, q][..1] == [p];
    assert SettlesAt([p, q], 0, "a:b", "c");
    assert [p][0] == p && TurnKey(q) in Keys([p]);
  }

  // ------------------------------------------------------------------ revisions

  /** Some turn that is settled has a prompt that is no command. */
  ghost predicate Rewrites(prompts: seq<Prompt>, stale: seq<Prompt>)
    requires forall i :: 0 <= i < |stale| ==> StaleTurn(stale[i])
  {
    exists k :: 0 <= k < |stale| && TurnKey(stale[k]) !in Keys(stale[..k])
                && !AllSlash(Filter(prompts, LinkedTo(stale[k].thread.value, stale[k].turn.value)))
  }

  lemma {:induction false} RewritesSnoc(prompts: seq<Prompt>, stale: seq<Prompt>)
    requires stale != [] && forall i :: 0 <= i < |stale| ==> StaleTurn(stale[i])
    ensures var n := |stale| - 1;
      Rewrites(prompts, stale) <==>
        (|| Rewrites(prompts, stale[..n])
         || (TurnKey(stale[n]) !in Keys(stale[..n])
             && !AllSlash(Filter(prompts, LinkedTo(stale[n].thread.value, stale[n].turn.value)))))
  {
    var n := |stale| - 1;
    forall k | 0 <= k < n ensures stale[..n][..k] == stale[..k] { }
  }

  /** If only commands are settled answers only go, and the change is seen exactly if one does; else it always is. */
  lemma {:induction false} ChangedExactly(answers: seq<Answer>, prompts: seq<Prompt>, stale: seq<Prompt>,
      uuid: (string, string) -> string, now: Time)
    requires forall i :: 0 <= i < |stale| ==> StaleTurn(stale[i])
    ensures
      var s := SettledTurns(answers, prompts, stale, uuid, now);
      if Rewrites(prompts, stale) then s.changed
      else |s.answers| <= |answers| && (s.changed <==> |s.answers| < |answers|)
    ensures !SettledTurns(answers, prompts, stale, uuid, now).changed
        ==> SettledTurns(answers, prompts, stale, uuid, now).answers == answers
  {
    if stale != [] {
      var n := |stale| - 1;
      ChangedExactly(answers, prompts, stale[..n], uuid, now);
      RewritesSnoc(prompts, stale);
      var before := SettledTurns(answers, prompts, stale[..n], uuid, now);
      Outcomes.FilterSame(before.answers, Keeps(stale[n].thread.value, stale[n].turn.value));
    }
  }

  /**
   * The answers get a new revision if and only if they are not as they were or some turn was interrupted, which writes
   * its answer anew.
   */
  lemma {:induction false} AnswersRevision(b: Bundle, cleaned: bool, uuid: (string, string) -> string, now: Time)
    ensures
      var r := Recovered(b, cleaned, uuid, now);
      r.answerRevision == b.answerRevision
        + if PromptStale(b) && (r.answers != b.answers
                                || Rewrites(SettledPrompts(b.prompts, now), StalePrompts(b.prompts))) then 1 else 0
  {
    if PromptStale(b) {
      var prompts, stale := SettledPrompts(b.prompts, now), StalePrompts(b.prompts);
      ChangedExactly(b.answers, prompts, stale, uuid, now);
      Outcomes.FilterSame(SettledTurns(b.answers, prompts, stale, uuid, now).answers, NotSlash(prompts));
    }
  }
}
