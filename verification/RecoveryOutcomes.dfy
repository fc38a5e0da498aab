/** What a restart leaves every record as: each prompt, each attempt, the runner, the terminal and the session. */
module RecoveryOutcomes {
  import opened Common
  import opened Recovery
  import MarkdownBlocks

  // ------------------------------------------------------------------ commands and text

  predicate Blank(s: string) { forall i :: 0 <= i < |s| ==> MarkdownBlocks.IsSpace(s[i]) }

  lemma {:induction false} TrimStartIs(s: string)
    ensures var t := TrimStart(s);
      && |t| <= |s| && t == s[|s| - |t|..] && Blank(s[..|s| - |t|]) && (t != "" ==> !MarkdownBlocks.IsSpace(t[0]))
  {
    if s != "" && MarkdownBlocks.IsSpace(s[0]) {
      TrimStartIs(s[1..]);
      var cut := |s| - |TrimStart(s)|;
      assert s[..cut] == [s[0]] + s[1..][..cut - 1] && s[cut..] == s[1..][cut - 1..];
    }
  }

  lemma {:induction false} TrimEndIs(s: string)
    ensures var t := TrimEnd(s);
      && |t| <= |s| && t == s[..|t|] && Blank(s[|t|..]) && (t != "" ==> !MarkdownBlocks.IsSpace(t[|t| - 1]))
      && (t != "" ==> t[0] == s[0])
  {
    if s != "" && MarkdownBlocks.IsSpace(s[|s| - 1]) {
      TrimEndIs(s[..|s| - 1]);
      var left := |TrimEnd(s)|;
      assert s[left..] == s[..|s| - 1][left..] + [s[|s| - 1]] && s[..left] == s[..|s| - 1][..left];
    }
  }

  /** Trimming cuts white space off both ends and nothing else. */
  lemma {:induction false} TrimIs(s: string)
    ensures exists a, b :: 0 <= a <= b <= |s| && Trim(s) == s[a..b] && Blank(s[..a]) && Blank(s[b..])
    ensures var t := Trim(s); t != "" ==> !MarkdownBlocks.IsSpace(t[0]) && !MarkdownBlocks.IsSpace(t[|t| - 1])
  {
    TrimStartIs(s);
    TrimEndIs(TrimStart(s));
    var a := |s| - |TrimStart(s)|;
    var b := a + |Trim(s)|;
    assert Trim(s) == s[a..b] && s[b..] == TrimStart(s)[|Trim(s)|..];
  }

  lemma BlankAt(s: string, k: nat, i: nat)
    requires i < k <= |s| && Blank(s[..k])
    ensures MarkdownBlocks.IsSpace(s[i])
  {
    assert s[..k][i] == s[i];
  }

  /** A prompt is a command if and only if the first character that is not white space is a slash. */
  lemma {:induction false} CommandIs(text: string)
    ensures IsSlashCommand(text) <==> exists k :: 0 <= k < |text| && text[k] == '/' && Blank(text[..k])
  {
    TrimStartIs(text);
    var a := |text| - |TrimStart(text)|;
    assert IsSlashCommand(text) ==> text[a] == '/' && Blank(text[..a]);
    if k :| 0 <= k < |text| && text[k] == '/' && Blank(text[..k]) {
      forall i | 0 <= i < k ensures MarkdownBlocks.IsSpace(text[i]) { BlankAt(text, k, i); }
      forall i | 0 <= i < a ensures MarkdownBlocks.IsSpace(text[i]) { BlankAt(text, a, i); }
    }
  }

  // ------------------------------------------------------------------ prompts and attempts

  /** Put to rest now: a command as completed, anything else as interrupted with an error. */
  predicate Ended(status: Status, completedAt: Option<Time>, error: bool, command: bool, now: Time) {
    && (status == Completed <==> command) && (status == Interrupted <==> !command)
    && completedAt == Some(now) && (error <==> !command)
  }

  /**
   * Every prompt, by its place: one that was live has ended, as completed exactly if it is a command; what it says, its
   * turn and where it came from stay. One that was not live is untouched.
   */
  lemma {:induction false} PromptOutcome(b: Bundle, cleaned: bool, uuid: (string, string) -> string, now: Time, i: nat)
    requires i < |b.prompts|
    ensures var r := Recovered(b, cleaned, uuid, now);
      |r.prompts| == |b.prompts|
      && var p, q := b.prompts[i], r.prompts[i];
         if p.status == Dispatching || p.status == Running
         then
           && Ended(q.status, q.completedAt, q.error, IsSlashCommand(p.text), now) && q.updatedAt == now
           && q.id == p.id && q.text == p.text && q.thread == p.thread && q.turn == p.turn && q.origin == p.origin
           && q.clientId == p.clientId && q.startedAt == p.startedAt && |q.attempts| == |p.attempts|
         else q == p
  {
    var r := Recovered(b, cleaned, uuid, now);
    if PromptStale(b) { assert r.prompts[i] == SettledPrompt(b.prompts[i], now); }
    else { assert r.prompts == b.prompts && !IsLive(b.prompts[i].status); }
  }

  /** Every attempt of a prompt that was live: it has ended with it if it was live too, and is untouched otherwise. */
  lemma {:induction false} AttemptOutcome(b: Bundle, cleaned: bool, uuid: (string, string) -> string, now: Time,
      i: nat, k: nat)
    requires i < |b.prompts| && k < |b.prompts[i].attempts|
    ensures var r := Recovered(b, cleaned, uuid, now);
      |r.prompts| == |b.prompts| && |r.prompts[i].attempts| == |b.prompts[i].attempts|
      && var p, a, c := b.prompts[i], b.prompts[i].attempts[k], r.prompts[i].attempts[k];
         && c.turn == a.turn && c.delivery == a.delivery
         && if IsLive(p.status) && (a.status == Dispatching || a.status == Running)
            then Ended(c.status, c.completedAt, c.error, IsSlashCommand(p.text), now)
            else c == a
  {
    var r := Recovered(b, cleaned, uuid, now);
    if PromptStale(b) { assert r.prompts[i] == SettledPrompt(b.prompts[i], now); }
    else { assert r.prompts == b.prompts && !IsLive(b.prompts[i].status); }
  }

  // ------------------------------------------------------------------ the runtime

  /** Nothing runs, nothing is connected, no prompt is live, and there is no App Server left to clean up. */
  predicate NothingToDo(b: Bundle) {
    && b.terminal.state != Starting && b.terminal.state != Live && b.session != Ready && b.session != Connecting
    && b.runner.desired != IntentRunning && b.runner.paused && b.runner.activePrompt.None? && b.runner.activeTurn.None?
    && b.terminal.appServer.None? && forall p :: p in b.prompts ==> p.status != Dispatching && p.status != Running
  }

  /**
   * A conversation is left alone, to the last revision, if and only if there was nothing to do; and it is counted if
   * not.
   */
  lemma {:induction false} LeftAlone(b: Bundle, cleaned: bool, uuid: (string, string) -> string, now: Time)
    ensures !IsStale(b) <==> NothingToDo(b)
    ensures Recovered(b, cleaned, uuid, now) == b <==> NothingToDo(b)
  {
    if PromptStale(b) {
      var i :| 0 <= i < |b.prompts| && IsLive(b.prompts[i].status);
      assert b.prompts[i] in b.prompts;
    }
    if SessionStale(b) || RuntimeStale(b) {
      assert Recovered(b, cleaned, uuid, now).runtimeRevision == b.runtimeRevision + 1;
    } else if PromptStale(b) {
      assert Recovered(b, cleaned, uuid, now).promptRevision == b.promptRevision + 1;
    }
  }

  /** Nothing but live prompts can be a reason to write the prompts and not the runtime. */
  predicate RuntimeAtRest(b: Bundle) { NothingToDo(b.(prompts := [])) }

  /**
   * The runner: paused with nothing active and no error, its intent what it was, but armed if it was running. It is
   * untouched if only prompts had to be settled, or nothing.
   */
  lemma {:induction false} RunnerOutcome(b: Bundle, cleaned: bool, uuid: (string, string) -> string, now: Time)
    ensures
      var r := Recovered(b, cleaned, uuid, now);
      if RuntimeAtRest(b) then r.runner == b.runner && r.runtimeRevision == b.runtimeRevision
      else
        && r.runtimeRevision == b.runtimeRevision + 1 && r.runner.since == now
        && r.runner.paused && r.runner.activePrompt.None? && r.runner.activeTurn.None? && !r.runner.error
        && (r.runner.desired == IntentPaused <==> b.runner.desired == IntentPaused)
        && (r.runner.desired == IntentArmed <==> b.runner.desired != IntentPaused)
  {
  }

  /**
   * The terminal: stopped without a server, or broken beside the server that could not be cleaned up. The session:
   * closed, if it was open. Both are untouched if only prompts had to be settled, or nothing.
   */
  lemma {:induction false} TerminalOutcome(b: Bundle, cleaned: bool, uuid: (string, string) -> string, now: Time)
    ensures
      var r := Recovered(b, cleaned, uuid, now);
      && r.id == b.id
      && r.terminal == (if RuntimeAtRest(b) then b.terminal
                        else if b.terminal.appServer.Some? && !cleaned then Terminal(Broken, true, b.terminal.appServer)
                        else Terminal(Stopped, false, None))
      && (if b.session == Ready || b.session == Connecting then r.session == ClosedSession && !r.sessionError
          else r.session == b.session && r.sessionError == b.sessionError)
  {
  }

  // ------------------------------------------------------------------ what is a command's answer

  /** The text under an id is that of the last prompt that has it. */
  lemma {:induction false} TextByIdIs(prompts: seq<Prompt>, id: string, i: nat)
    requires i < |prompts| && prompts[i].id == id && forall j :: i < j < |prompts| ==> prompts[j].id != id
    ensures TextById(prompts, id) == Some(prompts[i].text)
  {
    if i < |prompts| - 1 { TextByIdIs(prompts[..|prompts| - 1], id, i); }
  }

  lemma {:induction false} NoTextById(prompts: seq<Prompt>, id: string)
    requires forall p :: p in prompts ==> p.id != id
    ensures TextById(prompts, id).None?
  {
    if prompts != [] { NoTextById(prompts[..|prompts| - 1], id); }
  }

  /**
   * An answer goes with the commands exactly if it is unfinished and the prompt it is recorded under is a command, or,
   * if there is no such prompt, the text it was recorded with.
   */
  lemma {:induction false} CommandAnswers(prompts: seq<Prompt>, a: Answer, i: nat)
    requires i < |prompts| ==> prompts[i].id == a.promptId
    requires forall j :: i < j < |prompts| ==> prompts[j].id != a.promptId
    requires i >= |prompts| ==> forall p :: p in prompts ==> p.id != a.promptId
    ensures !NotSlash(prompts)(a) <==>
      a.status != Completed && IsSlashCommand(if i < |prompts| then prompts[i].text else a.prompt)
  {
    if i < |prompts| { TextByIdIs(prompts, a.promptId, i); } else { NoTextById(prompts, a.promptId); }
  }

  // ------------------------------------------------------------------ revisions

  lemma {:induction false} FilterSame<T(!new)>(s: seq<T>, keep: T -> bool)
    ensures |Filter(s, keep)| <= |s| && (|Filter(s, keep)| == |s| <==> Filter(s, keep) == s)
  {
    if s != [] { FilterSame(s[1..], keep); }
  }

  /** A change to the answers is never missed. */
  lemma {:induction false} ChangeIsSeen(answers: seq<Answer>, prompts: seq<Prompt>, stale: seq<Prompt>,
      uuid: (string, string) -> string, now: Time)
    requires forall i :: 0 <= i < |stale| ==> StaleTurn(stale[i])
    ensures var s := SettledTurns(answers, prompts, stale, uuid, now); !s.changed ==> s.answers == answers
  {
    if stale != [] {
      var n := |stale| - 1;
      ChangeIsSeen(answers, prompts, stale[..n], uuid, now);
      var before := SettledTurns(answers, prompts, stale[..n], uuid, now);
      FilterSame(before.answers, Keeps(stale[n].thread.value, stale[n].turn.value));
    }
  }

  /**
   * The prompts get a new revision exactly if one was live, and the answers get one whenever they are not as they
   * were.
   */
  lemma {:induction false} RevisionOutcome(b: Bundle, cleaned: bool, uuid: (string, string) -> string, now: Time)
    ensures
      var r := Recovered(b, cleaned, uuid, now);
      && r.promptRevision == b.promptRevision + (if PromptStale(b) then 1 else 0)
      && b.answerRevision <= r.answerRevision <= r.promptRevision - b.promptRevision + b.answerRevision
      && (r.answers != b.answers ==> r.answerRevision == b.answerRevision + 1)
  {
    if PromptStale(b) {
      var prompts := SettledPrompts(b.prompts, now);
      ChangeIsSeen(b.answers, prompts, StalePrompts(b.prompts), uuid, now);
      FilterSame(SettledTurns(b.answers, prompts, StalePrompts(b.prompts), uuid, now).answers, NotSlash(prompts));
    }
  }
}
