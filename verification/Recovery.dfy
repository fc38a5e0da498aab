/** After a restart: every conversation's records are brought to rest, once. */
module Recovery {
  import opened Common
  import MarkdownBlocks

  type Time = nat

  datatype Status = Queued | Dispatching | Running | Completed | Interrupted | OtherStatus(name: string)
  datatype Delivery = Turn | Steer | NoDelivery
  datatype Attempt = Attempt(status: Status, turn: Option<string>, delivery: Delivery, completedAt: Option<Time>,
      error: bool)

  datatype Prompt = Prompt(
    id: string, text: string, status: Status, thread: Option<string>, turn: Option<string>, origin: string,
        clientId: Option<string>,
    startedAt: Option<Time>, completedAt: Option<Time>, updatedAt: Time, error: bool, attempts: seq<Attempt>)

  datatype Answer = Answer(
    id: string, promptId: string, thread: string, turn: string, origin: string, prompt: string, status: Status,
        finalAnswer: string,
    captured: bool, startedAt: Option<Time>, completedAt: Option<Time>, clientId: Option<string>, error: bool,
    promptIds: seq<string>, steeredIds: seq<string>)

  datatype Intent = IntentPaused | IntentArmed | IntentRunning
  datatype Runner = Runner(desired: Intent, paused: bool, activePrompt: Option<string>, activeTurn: Option<string>,
      error: bool, since: Time)
  datatype TerminalState = Starting | Live | Stopped | Broken | OtherTerminal
  datatype Terminal = Terminal(state: TerminalState, error: bool, appServer: Option<nat>)
  datatype Session = Ready | Connecting | ClosedSession | OtherSession

  /** Each part with its revision, and the session part with its error flag. */
  datatype Bundle = Bundle(
    id: string, session: Session, sessionError: bool, runtimeRevision: nat, runner: Runner, terminal: Terminal,
    promptRevision: nat, prompts: seq<Prompt>, answerRevision: nat, answers: seq<Answer>)

  predicate IsLive(s: Status) { s == Dispatching || s == Running }

  function SettledDesiredState(desired: Intent): Intent
  {
    if desired == IntentPaused then IntentPaused else IntentArmed
  }

  function TrimStart(s: string): string { if s != "" && MarkdownBlocks.IsSpace(s[0]) then TrimStart(s[1..]) else s }
  function TrimEnd(s: string): string
  {
    if s != "" && MarkdownBlocks.IsSpace(s[|s| - 1]) then TrimEnd(s[..|s| - 1]) else s
  }
  function Trim(s: string): string { TrimEnd(TrimStart(s)) }

  predicate IsSlashCommand(text: string) { var t := TrimStart(text); t != "" && t[0] == '/' }

  // ------------------------------------------------------------------ what is stale

  predicate TerminalStale(b: Bundle) { b.terminal.state == Starting || b.terminal.state == Live }
  predicate SessionStale(b: Bundle) { b.session == Ready || b.session == Connecting }
  predicate RunnerStale(b: Bundle) {
    b.runner.desired == IntentRunning || !b.runner.paused || b.runner.activePrompt.Some? || b.runner.activeTurn.Some?
  }
  predicate PromptStale(b: Bundle) { exists i :: 0 <= i < |b.prompts| && IsLive(b.prompts[i].status) }
  predicate RuntimeStale(b: Bundle)
  {
    TerminalStale(b) || SessionStale(b) || RunnerStale(b) || b.terminal.appServer.Some?
  }
  predicate IsStale(b: Bundle) { RuntimeStale(b) || PromptStale(b) }

  // ------------------------------------------------------------------ the runtime and the prompts

  /** `cleaned` says whether a stale App Server, if there is one, could be terminated. */
  function SettledRuntime(b: Bundle, cleaned: bool, now: Time): Bundle {
    var failed := b.terminal.appServer.Some? && !cleaned;
    b.(runtimeRevision := b.runtimeRevision + 1,
       runner := Runner(SettledDesiredState(b.runner.desired), true, None, None, false, now),
       terminal := Terminal(if failed then Broken else Stopped, failed, if failed then b.terminal.appServer else None))
  }

  function SettledAttempt(a: Attempt, slash: bool, now: Time): Attempt {
    if IsLive(a.status) then a.(status := if slash then Completed
        else Interrupted, completedAt := Some(now), error := !slash) else a
  }

  function SettledPrompt(p: Prompt, now: Time): Prompt {
    if !IsLive(p.status) then p
    else
      var slash := IsSlashCommand(p.text);
      p.(status := if slash then Completed else Interrupted, completedAt := Some(now), updatedAt := now,
          error := !slash,
         attempts := seq(|p.attempts|, i requires 0 <= i < |p.attempts| => SettledAttempt(p.attempts[i], slash, now)))
  }

  function SettledPrompts(prompts: seq<Prompt>, now: Time): (r: seq<Prompt>)
    ensures |r| == |prompts| && forall i :: 0 <= i < |r| ==> r[i] == SettledPrompt(prompts[i], now)
  {
    seq(|prompts|, i requires 0 <= i < |prompts| => SettledPrompt(prompts[i], now))
  }

  // ------------------------------------------------------------------ the answers

  predicate Given(s: Option<string>) { s.Some? && s.value != "" }

  predicate StaleTurn(p: Prompt) { IsLive(p.status) && Given(p.thread) && Given(p.turn) }

  function IsStaleTurn(): Prompt -> bool { (p: Prompt) => StaleTurn(p) }
  function LinkedTo(thread: string, turn: string): Prompt -> bool
  {
    (p: Prompt) => p.thread == Some(thread) && p.turn == Some(turn)
  }
  function Keeps(thread: string, turn: string): Answer -> bool {
    (a: Answer) => !(a.thread == thread && a.turn == turn && a.status != Completed)
  }

  predicate Delivered(p: Prompt, turn: string, d: Delivery) {
    exists i :: 0 <= i < |p.attempts| && p.attempts[i].turn == Some(turn) && p.attempts[i].delivery == d
  }

  function FirstDelivered(linked: seq<Prompt>, turn: string): Option<Prompt> {
    if linked == [] then None else if Delivered(linked[0], turn, Turn) then Some(linked[0])
        else FirstDelivered(linked[1..], turn)
  }

  function Primary(linked: seq<Prompt>, turn: string, stale: Prompt): Prompt {
    var found := FirstDelivered(linked, turn);
    if found.Some? then found.value else if linked != [] then linked[0] else stale
  }

  function Ids(ps: seq<Prompt>): seq<string> { seq(|ps|, i requires 0 <= i < |ps| => ps[i].id) }

  function Steered(linked: seq<Prompt>, turn: string): seq<string> {
    Ids(Filter(linked, (p: Prompt) => Delivered(p, turn, Steer)))
  }

  const JOINT := "\n\n--- 追加输入 ---\n\n"

  function Joined(texts: seq<string>): string {
    if texts == [] then "" else if |texts| == 1 then texts[0] else texts[0] + JOINT + Joined(texts[1..])
  }

  function TrimmedTexts(linked: seq<Prompt>): seq<string> {
    if linked == [] then []
    else (if Trim(linked[0].text) != "" then [Trim(linked[0].text)] else []) + TrimmedTexts(linked[1..])
  }

  function PromptText(linked: seq<Prompt>, primary: Prompt): string {
    var joined := Joined(TrimmedTexts(linked));
    if joined != "" then joined else primary.text
  }

  function Either<T>(a: Option<T>, b: Option<T>): Option<T> { if a.Some? then a else b }

  function FindAnswer(answers: seq<Answer>, thread: string, turn: string): (i: nat)
    ensures i <= |answers| && (i < |answers| ==> answers[i].thread == thread && answers[i].turn == turn)
    ensures forall k :: 0 <= k < i ==> !(answers[k].thread == thread && answers[k].turn == turn)
  {
    if answers == [] || (answers[0].thread == thread && answers[0].turn == turn) then 0
        else 1 + FindAnswer(answers[1..], thread, turn)
  }

  function Rewritten(a: Answer, primary: Prompt, linked: seq<Prompt>, now: Time): Answer {
    a.(promptId := primary.id, origin := primary.origin, prompt := PromptText(linked, primary), status := Interrupted,
        finalAnswer := "",
       captured := false, startedAt := Either(a.startedAt, primary.startedAt), completedAt := Some(now),
       clientId := Either(a.clientId, primary.clientId), error := true, promptIds := Ids(linked),
           steeredIds := Steered(linked, a.turn))
  }

  function Recorded(id: string, thread: string, turn: string, primary: Prompt, linked: seq<Prompt>, now: Time): Answer {
    Answer(id, primary.id, thread, turn, primary.origin, PromptText(linked, primary), Interrupted, "", false,
           primary.startedAt, Some(now),
           primary.clientId, true, Ids(linked), Steered(linked, turn))
  }

  predicate AllSlash(linked: seq<Prompt>)
  {
    linked != [] && forall i :: 0 <= i < |linked| ==> IsSlashCommand(linked[i].text)
  }

  /** The answers so far, and whether anything was done to them. */
  datatype Settling = Settling(answers: seq<Answer>, changed: bool)

  /** The answers of one stale turn: none unfinished if it was commands only, else one interrupted. */
  function SettledTurn(s: Settling, prompts: seq<Prompt>, stale: Prompt, uuid: (string, string) -> string,
      now: Time): Settling
    requires StaleTurn(stale)
  {
    var thread, turn := stale.thread.value, stale.turn.value;
    var linked := Filter(prompts, LinkedTo(thread, turn));
    if AllSlash(linked) then
      var kept := Filter(s.answers, Keeps(thread, turn));
      Settling(kept, s.changed || |kept| != |s.answers|)
    else
      var primary := Primary(linked, turn, stale);
      var i := FindAnswer(s.answers, thread, turn);
      Settling(
        if i < |s.answers| then s.answers[i := Rewritten(s.answers[i], primary, linked, now)]
        else s.answers + [Recorded(uuid(thread, turn), thread, turn, primary, linked, now)],
        true)
  }

  function TurnKey(p: Prompt): string
    requires StaleTurn(p)
  {
    p.thread.value + ":" + p.turn.value
  }

  function Keys(stale: seq<Prompt>): set<string>
    requires forall i :: 0 <= i < |stale| ==> StaleTurn(stale[i])
  {
    set i | 0 <= i < |stale| :: TurnKey(stale[i])
  }

  /** One turn after the other, each key once. */
  function SettledTurns(answers: seq<Answer>, prompts: seq<Prompt>, stale: seq<Prompt>,
      uuid: (string, string) -> string, now: Time): Settling
    requires forall i :: 0 <= i < |stale| ==> StaleTurn(stale[i])
  {
    if stale == [] then Settling(answers, false)
    else
      var n := |stale| - 1;
      var before := SettledTurns(answers, prompts, stale[..n], uuid, now);
      if TurnKey(stale[n]) in Keys(stale[..n]) then before else SettledTurn(before, prompts, stale[n], uuid, now)
  }

  function TextById(prompts: seq<Prompt>, id: string): Option<string> {
    if prompts == [] then None
    else if prompts[|prompts| - 1].id == id then Some(prompts[|prompts| - 1].text)
    else TextById(prompts[..|prompts| - 1], id)
  }

  function NotSlash(prompts: seq<Prompt>): Answer -> bool {
    (a: Answer) => a.status == Completed
      || !IsSlashCommand(if TextById(prompts, a.promptId).Some? then TextById(prompts, a.promptId).value else a.prompt)
  }

  function StalePrompts(prompts: seq<Prompt>): (r: seq<Prompt>)
    ensures forall i :: 0 <= i < |r| ==> StaleTurn(r[i])
  {
    var r := Filter(prompts, IsStaleTurn());
    assert forall i :: 0 <= i < |r| ==> r[i] in r;
    r
  }

  /** All stale turns, and then no unfinished answer to a command. */
  function SettledAnswers(b: Bundle, uuid: (string, string) -> string, now: Time): Settling {
    var prompts := SettledPrompts(b.prompts, now);
    WithoutCommands(SettledTurns(b.answers, prompts, StalePrompts(b.prompts), uuid, now), prompts)
  }

  function WithoutCommands(s: Settling, prompts: seq<Prompt>): Settling {
    var kept := Filter(s.answers, NotSlash(prompts));
    Settling(kept, s.changed || |kept| != |s.answers|)
  }

  // ------------------------------------------------------------------ one conversation, and all of them

  function WithSettledPrompts(b: Bundle, original: Bundle, uuid: (string, string) -> string, now: Time): Bundle {
    var s := SettledAnswers(original, uuid, now);
    b.(promptRevision := b.promptRevision + 1, prompts := SettledPrompts(original.prompts, now),
       answerRevision := b.answerRevision + if s.changed then 1 else 0, answers := s.answers)
  }

  function Recovered(b: Bundle, cleaned: bool, uuid: (string, string) -> string, now: Time): Bundle {
    if !IsStale(b) then b
    else
      var r := if RuntimeStale(b) then SettledRuntime(b, cleaned, now) else b;
      var p := if PromptStale(b) then WithSettledPrompts(r, b, uuid, now) else r;
      if SessionStale(b) then p.(session := ClosedSession, sessionError := false) else p
  }

  predicate Cleans(b: Bundle, terminates: nat -> bool)
  {
    b.terminal.appServer.Some? && terminates(b.terminal.appServer.value)
  }

  function RecoveredAll(bundles: seq<Bundle>, terminates: nat -> bool, uuid: (string, string) -> string,
      now: Time): (r: seq<Bundle>)
    ensures |r| == |bundles|
    ensures forall i :: 0 <= i < |r| ==> r[i] == Recovered(bundles[i], Cleans(bundles[i], terminates), uuid, now)
  {
    seq(|bundles|, i requires 0 <= i < |bundles| => Recovered(bundles[i], Cleans(bundles[i], terminates), uuid, now))
  }

  function CountStale(bundles: seq<Bundle>): nat {
    if bundles == [] then 0 else CountStale(bundles[..|bundles| - 1]) + if IsStale(bundles[|bundles| - 1]) then 1 else 0
  }

  // ------------------------------------------------------------------ as the server does it

  method SettleTurn(s: Settling, prompts: seq<Prompt>, stale: Prompt, uuid: (string, string) -> string, now: Time)
      returns (r: Settling)
    requires StaleTurn(stale)
    ensures r == SettledTurn(s, prompts, stale, uuid, now)
  {
    var thread, turn := stale.thread.value, stale.turn.value;
    var linked := Filter(prompts, LinkedTo(thread, turn));
    if AllSlash(linked) {
      var kept := Filter(s.answers, Keeps(thread, turn));
      return Settling(kept, s.changed || |kept| != |s.answers|);
    }
    var primary := Primary(linked, turn, stale);
    var i := FindAnswer(s.answers, thread, turn);
    if i < |s.answers| {
      r := Settling(s.answers[i := Rewritten(s.answers[i], primary, linked, now)], true);
    } else {
      r := Settling(s.answers + [Recorded(uuid(thread, turn), thread, turn, primary, linked, now)], true);
    }
  }

  method SettleTurns(answers: seq<Answer>, prompts: seq<Prompt>, stale: seq<Prompt>, uuid: (string, string) -> string,
      now: Time) returns (s: Settling)
    requires forall i :: 0 <= i < |stale| ==> StaleTurn(stale[i])
    ensures s == SettledTurns(answers, prompts, stale, uuid, now)
  {
    var recoveredTurns: set<string> := {};
    s := Settling(answers, false);
    var k := 0;
    while k < |stale|
      invariant 0 <= k <= |stale|
      invariant recoveredTurns == Keys(stale[..k])
      invariant s == SettledTurns(answers, prompts, stale[..k], uuid, now)
    {
      assert stale[..k + 1][..k] == stale[..k];
      var key := TurnKey(stale[k]);
      if key !in recoveredTurns {
        recoveredTurns := recoveredTurns + {key};
        s := SettleTurn(s, prompts, stale[k], uuid, now);
      }
      k := k + 1;
    }
    assert stale[..k] == stale;
  }

  method SettlePrompts(b: Bundle, original: Bundle, uuid: (string, string) -> string, now: Time) returns (r: Bundle)
    ensures r == WithSettledPrompts(b, original, uuid, now)
  {
    var prompts := SettledPrompts(original.prompts, now);
    var s := SettleTurns(original.answers, prompts, StalePrompts(original.prompts), uuid, now);
    s := DropCommandAnswers(s, prompts);
    var answersChanged := s.changed;
    r := b.(promptRevision := b.promptRevision + 1, prompts := prompts,
            answerRevision := b.answerRevision + if answersChanged then 1 else 0, answers := s.answers);
  }

  /** Unfinished answers to commands go; whether any did is remembered. */
  method DropCommandAnswers(s: Settling, prompts: seq<Prompt>) returns (r: Settling)
    ensures r == WithoutCommands(s, prompts)
  {
    var beforeSlashCleanup := |s.answers|;
    var kept := Filter(s.answers, NotSlash(prompts));
    r := Settling(kept, s.changed || |kept| != beforeSlashCleanup);
  }

  class Storage {
    var bundles: seq<Bundle>

    /** The body of the loop over tabs, under the tab's lock. */
    method RecoverTab(i: nat, terminates: nat -> bool, uuid: (string, string) -> string, now: Time)
        returns (counted: bool)
      requires i < |bundles|
      modifies this
      ensures bundles == old(bundles)[i := Recovered(old(bundles)[i], Cleans(old(bundles)[i], terminates), uuid, now)]
      ensures counted == IsStale(old(bundles)[i])
    {
      var bundle := bundles[i];
      var cleaned := bundle.terminal.appServer.Some? && terminates(bundle.terminal.appServer.value);
      var promptStale := PromptStale(bundle);
      if !RuntimeStale(bundle) && !promptStale { return false; }
      var b := bundle;
      if RuntimeStale(bundle) { b := SettledRuntime(bundle, cleaned, now); }
      if promptStale { b := SettlePrompts(b, bundle, uuid, now); }
      if SessionStale(bundle) { b := b.(session := ClosedSession, sessionError := false); }
      bundles := bundles[i := b];
      return true;
    }

    method RecoverTerminalRuntime(terminates: nat -> bool, uuid: (string, string) -> string, now: Time)
        returns (recovered: nat)
      modifies this
      ensures bundles == RecoveredAll(old(bundles), terminates, uuid, now)
      ensures recovered == CountStale(old(bundles))
    {
      recovered := 0;
      ghost var before := bundles;
      ghost var recover := (b: Bundle) => Recovered(b, Cleans(b, terminates), uuid, now);
      var i := 0;
      while i < |bundles|
        invariant 0 <= i <= |bundles| == |before|
        invariant forall k :: 0 <= k < |before| ==> bundles[k] == if k < i then recover(before[k]) else before[k]
        invariant recovered == CountStale(before[..i])
      {
        var counted := RecoverTab(i, terminates, uuid, now);
        CountSnocStale(before, i);
        if counted { recovered := recovered + 1; }
        i := i + 1;
      }
      assert before[..i] == before;
      forall k | 0 <= k < |before| ensures bundles[k] == RecoveredAll(before, terminates, uuid, now)[k] {
        assert bundles[k] == recover(before[k]);
      }
    }
  }

  lemma CountSnocStale(bundles: seq<Bundle>, i: nat)
    requires i < |bundles|
    ensures CountStale(bundles[..i + 1]) == CountStale(bundles[..i]) + if IsStale(bundles[i]) then 1 else 0
  {
    assert bundles[..i + 1][..i] == bundles[..i];
  }

  // ------------------------------------------------------------------ what one pass leaves

  predicate AtRest(b: Bundle) {
    && !TerminalStale(b) && !SessionStale(b) && !PromptStale(b)
    && b.runner.paused && b.runner.activePrompt.None? && b.runner.activeTurn.None? && b.runner.desired != IntentRunning
  }

  /** No prompt is left dispatching or running, and the runner is paused with nothing active. */
  lemma {:induction false} OnePassSettles(b: Bundle, cleaned: bool, uuid: (string, string) -> string, now: Time)
    ensures AtRest(Recovered(b, cleaned, uuid, now))
  {
    var r := Recovered(b, cleaned, uuid, now);
    if PromptStale(b) {
      forall i | 0 <= i < |r.prompts| ensures !IsLive(r.prompts[i].status) { }
    }
  }

  /**
   * An attempt is left dispatching or running if and only if it was, and its prompt was not: the
   * attempts of prompts that are already settled are not looked at.
   */
  lemma {:induction false} LiveAttemptsLeft(b: Bundle, cleaned: bool, uuid: (string, string) -> string, now: Time,
      i: nat, k: nat)
    requires i < |b.prompts| && k < |b.prompts[i].attempts|
    ensures var r := Recovered(b, cleaned, uuid, now);
      && |r.prompts| == |b.prompts| && |r.prompts[i].attempts| == |b.prompts[i].attempts|
      && (IsLive(r.prompts[i].attempts[k].status) <==> IsLive(b.prompts[i].attempts[k].status)
                                                       && !IsLive(b.prompts[i].status))
  {
    var r := Recovered(b, cleaned, uuid, now);
    if PromptStale(b) {
      assert r.prompts[i] == SettledPrompt(b.prompts[i], now);
    } else {
      assert r.prompts == b.prompts && !IsLive(b.prompts[i].status);
    }
  }

  /**
   * Recovery is idempotent exactly when the App Server it had to clean up, if any, was cleaned up:
   * then, and only then, another pass changes nothing and counts nothing.
   */
  lemma {:induction false} SecondPassIsIdle(b: Bundle, cleaned: bool, uuid: (string, string) -> string, now: Time,
      again: bool, later: Time)
    ensures var r := Recovered(b, cleaned, uuid, now);
      && (!IsStale(r) <==> b.terminal.appServer.None? || cleaned)
      && (b.terminal.appServer.None? || cleaned ==> Recovered(r, again, uuid, later) == r)
  {
    OnePassSettles(b, cleaned, uuid, now);
  }

  lemma {:induction false} NoneCounted(bundles: seq<Bundle>)
    ensures CountStale(bundles) == 0 <==> forall i :: 0 <= i < |bundles| ==> !IsStale(bundles[i])
  {
    if bundles != [] {
      var n := |bundles| - 1;
      NoneCounted(bundles[..n]);
      assert CountStale(bundles) == 0 ==> !IsStale(bundles[n]);
    }
  }

  /**
   * The same for a whole store: a second run counts nothing if and only if the first one could clean up every App
   * Server there was; then it changes nothing.
   */
  lemma {:induction false} SecondRunIsIdle(bundles: seq<Bundle>, terminates: nat -> bool, again: nat -> bool,
      uuid: (string, string) -> string, now: Time, later: Time)
    ensures
      var r := RecoveredAll(bundles, terminates, uuid, now);
      && (CountStale(r) == 0 <==> forall i :: 0 <= i < |bundles| && bundles[i].terminal.appServer.Some?
                                              ==> terminates(bundles[i].terminal.appServer.value))
      && (CountStale(r) == 0 ==> RecoveredAll(r, again, uuid, later) == r)
  {
    var r := RecoveredAll(bundles, terminates, uuid, now);
    var q := RecoveredAll(r, again, uuid, later);
    forall i | 0 <= i < |bundles|
      ensures !IsStale(r[i]) <==> bundles[i].terminal.appServer.None? || Cleans(bundles[i], terminates)
      ensures !IsStale(r[i]) ==> q[i] == r[i]
    {
      SecondPassIsIdle(bundles[i], Cleans(bundles[i], terminates), uuid, now, Cleans(r[i], again), later);
    }
    NoneCounted(r);
  }

  // ------------------------------------------------------------------ answers

  function Count(answers: seq<Answer>, thread: string, turn: string): nat {
    if answers == [] then 0
    else Count(answers[..|answers| - 1], thread, turn)
         + if answers[|answers| - 1].thread == thread && answers[|answers| - 1].turn == turn then 1 else 0
  }

  lemma CountSnoc(answers: seq<Answer>, a: Answer, thread: string, turn: string)
    ensures Count(answers + [a], thread, turn) == Count(answers, thread, turn) + if a.thread == thread && a.turn == turn
        then 1 else 0
  {
    assert (answers + [a])[..|answers|] == answers;
  }

  lemma {:induction false} CountConcat(a: seq<Answer>, b: seq<Answer>, thread: string, turn: string)
    ensures Count(a + b, thread, turn) == Count(a, thread, turn) + Count(b, thread, turn)
  {
    if b == [] {
      assert a + b == a;
    } else {
      CountConcat(a, b[..|b| - 1], thread, turn);
      assert a + b == a + b[..|b| - 1] + [b[|b| - 1]];
      CountSnoc(a + b[..|b| - 1], b[|b| - 1], thread, turn);
    }
  }

  lemma {:induction false} CountFilter(answers: seq<Answer>, keep: Answer -> bool, thread: string, turn: string)
    ensures Count(Filter(answers, keep), thread, turn) <= Count(answers, thread, turn)
  {
    if answers != [] {
      CountFilter(answers[1..], keep, thread, turn);
      assert answers == [answers[0]] + answers[1..];
      CountConcat([answers[0]], answers[1..], thread, turn);
      CountConcat([answers[0]], Filter(answers[1..], keep), thread, turn);
    }
  }

  lemma {:induction false} CountUpdate(answers: seq<Answer>, i: nat, a: Answer, thread: string, turn: string)
    requires i < |answers| && a.thread == answers[i].thread && a.turn == answers[i].turn
    ensures Count(answers[i := a], thread, turn) == Count(answers, thread, turn)
  {
    var n := |answers| - 1;
    if i < n {
      CountUpdate(answers[..n], i, a, thread, turn);
      assert answers[i := a][..n] == answers[..n][i := a];
    } else {
      assert answers[i := a][..n] == answers[..n];
    }
  }

  lemma {:induction false} CountNone(answers: seq<Answer>, thread: string, turn: string)
    requires forall k :: 0 <= k < |answers| ==> !(answers[k].thread == thread && answers[k].turn == turn)
    ensures Count(answers, thread, turn) == 0
  {
    if answers != [] { CountNone(answers[..|answers| - 1], thread, turn); }
  }

  lemma {:induction false} TurnAddsNoSecond(s: Settling, prompts: seq<Prompt>, stale: Prompt,
                                            uuid: (string, string) -> string, now: Time,
                                            thread: string, turn: string)
    requires StaleTurn(stale)
    ensures Count(SettledTurn(s, prompts, stale, uuid, now).answers, thread, turn)
        <= Max(Count(s.answers, thread, turn), 1)
  {
    var r := SettledTurn(s, prompts, stale, uuid, now).answers;
    var linked := Filter(prompts, LinkedTo(stale.thread.value, stale.turn.value));
    var i := FindAnswer(s.answers, stale.thread.value, stale.turn.value);
    if AllSlash(linked) {
      CountFilter(s.answers, Keeps(stale.thread.value, stale.turn.value), thread, turn);
    } else if i < |s.answers| {
      CountUpdate(s.answers, i, r[i], thread, turn);
    } else {
      CountSnoc(s.answers, r[i], thread, turn);
      if thread == stale.thread.value && turn == stale.turn.value { CountNone(s.answers, thread, turn); }
    }
  }

  lemma {:induction false} TurnsAddNoSecond(answers: seq<Answer>, prompts: seq<Prompt>, stale: seq<Prompt>,
                                            uuid: (string, string) -> string,
                                            now: Time, thread: string, turn: string)
    requires forall i :: 0 <= i < |stale| ==> StaleTurn(stale[i])
    ensures Count(SettledTurns(answers, prompts, stale, uuid, now).answers, thread, turn)
        <= Max(Count(answers, thread, turn), 1)
  {
    if stale != [] {
      var n := |stale| - 1;
      TurnsAddNoSecond(answers, prompts, stale[..n], uuid, now, thread, turn);
      TurnAddsNoSecond(SettledTurns(answers, prompts, stale[..n], uuid, now), prompts, stale[n], uuid, now, thread,
          turn);
    }
  }

  /** One pass adds no second answer for any turn. */
  lemma {:induction false} NoSecondAnswer(b: Bundle, cleaned: bool, uuid: (string, string) -> string, now: Time,
      thread: string, turn: string)
    ensures Count(Recovered(b, cleaned, uuid, now).answers, thread, turn) <= Max(Count(b.answers, thread, turn), 1)
  {
    if PromptStale(b) {
      var prompts := SettledPrompts(b.prompts, now);
      TurnsAddNoSecond(b.answers, prompts, StalePrompts(b.prompts), uuid, now, thread, turn);
      CountFilter(SettledTurns(b.answers, prompts, StalePrompts(b.prompts), uuid, now).answers, NotSlash(prompts),
          thread, turn);
    }
  }
}
