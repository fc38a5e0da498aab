# Promptor: protocols and algorithms, verified

This project models the parts of Codex Promptor whose correctness depends on interleavings, and
proves what they are for. Each protocol is a state machine over its atomic steps, so "any run"
means any sequence of steps; the code that changes state step by step is written as methods and
loops proved against the functions the theorems are about.

- **Collaboration roots** (`A2aRoot`, `A2aRuns`, `A2aBudget`, `A2aQuiet`, `A2aTheorems`,
  `A2aSettlement`, `A2aEndings`, `A2aMessages`, `A2aJoining`, `A2aDisturbed`, `A2aDuplicates`, `A2aService`,
  `RateLimit`, `RateLimitBounds`). One root record, every conversation's queue, and any number of sends, leaf
  replies, dispatches and scans between two of their awaits. Every locked section, enqueue and scan is one step.
- **Screens** (`Screen`, `ScreenSource`, `ScreenDiff`, `ScreenProjection`, `ScreenReplica`, `ScreenDelivery`, `ScreenPrinter`,
  `ScreenReader`, `ScreenTerminal`, `ScreenEndToEnd`, `ScreenGrid`). The grid of the server's terminal and the runs
  read off it, the server's diff, the client's replica, the printer of control sequences, and a small terminal
  that reads them, after sections 8.3.21 (CUP), 8.3.41 (EL) and 8.3.117 (SGR) of ECMA-48; joined into one
  statement from the cells of the server's terminal to those of the user's.
- **Documents** (`DocumentChunks`, `Utf8`, `DocumentText`, `DocumentLoading`, `DocumentRuns`,
  `DocumentRefusals`, `DocumentOpenings`, `DocumentProgress`), with the streaming decoder of sections 7.2
  and 8.1.1 of the Encoding Standard that their text comes out of, and the Markdown they are shown as
  (`MarkdownBlocks`, `MarkdownCuts`, `MarkdownTheorems`, `MarkdownFences`).
- **The encrypted wire** (`EncryptedWire`, `WirePrefix`, `WireDelivery`): two ends and a channel that drops,
  repeats, reorders, alters and injects.
- **The raw terminal** (`RawTerminal`, `RawRuns`, `RawProgress`), its cache (`TerminalCache`,
  `CacheOutcomes`) and the server's input lease (`ResponderLease`,
  `LeaseOutcomes`).
- **Recovery** after a restart (`Recovery`, `RecoveryOutcomes`, `RecoveredAnswers`) and **placement** in the navigation
  (`Placement`, `PlacementOutcomes`).

`Common` and `Numerals` hold shared vocabulary. `dafny verify dfyconfig.toml` checks everything.

The class methods of `A2aService`, `RawTerminal`, `DocumentLoading` and `Recovery` are refinement links: each is
proved equal to a function of the state before it, and what the code is for is proved of those functions,
over runs, in the modules named above.

## What the proofs found

Where a property the code is meant to have does not hold, the model keeps the code as it is, shows
why, and says when it does hold.

- A quiet settlement can complete a root with work left: a reader's own prompt is dispatched into the
  root, a finished message is queued again, or a leaf's reply arrives, between the scan and the lock; or
  a restart has left a message in a conversation that never joined. `A2aDisturbed` shows each, with a run
  that leads there, and `A2aSettlement` says exactly when an empty scan is to be believed and for how long.
- A frame that the socket refuses has already been sealed, and its counter is used again. If another text
  is queued behind it, two different texts are sealed under one key and nonce (`NonceUsedTwice`); this is
  the only way that happens (`SealedNoncesAreDistinct`). The transmitted frames alone never share one.
- Recovery empties a finished answer if a prompt that is not a command still names its turn as running, as
  after a restart between the two writes (`FinishedAnswerErased`, `CompletedAnswerStays`). Turns are told
  apart by their ids joined with a colon. Two of them collide exactly if a colon inside the longer thread id
  stands for that joint (`KeysCollide`), and then a turn is skipped; all stale turns are settled exactly if no two
  of them collide (`EveryTurnSettles`, `CollidingTurnIsSkipped`).
- A message's target can be dispatched before its send is committed. It then joins in the default role at level 1, and
  the role its sender asked for is lost (`WantedRoleIsLost`, `RoleLossIsReachable`).
- A request sent twice at once, before either send is recorded, can be delivered twice (`DeliveredTwice`).
- The rate limit counts deliveries, not admissions: sends to one target that overlap exceed it by one
  each (`OverlapCounts`), and then the delay it returns can be too short (`WaitingSufficesAlone`).
- A document that is not UTF-8 is refused with an error, but a reader who loads again after it can be shown it to
  its end: what the refused call did not read is still queued and is read again with the same chunk, so a
  chunk's text can appear twice, or, if it was the last chunk, a character cut off before it disappears
  (`RefusedChunkIsReadAgain`, `ShownTwice`). What is shown is the text of the chunks counted if and only if none of
  them was ever refused (`ShownIsDecoded`, `WholeIsShown`).
- A view that is opening waits for nothing any more if the viewer is deactivated meanwhile, or if the opening's own
  request comes back as the abort error; those are the only ways (`OpeningIsAnswered`,
  `DeactivationStrandsOpening`, `AbortStrandsOpening`).
- A chunk that ends inside a line of spaces makes the Markdown splitter start a line that the whole
  text does not have, exactly where no fence is open (`CommitInsideALine`, `CommitsEndLines`); and two kinds of lines are not read as
  CommonMark reads them (`LineIsStandard`).
- A text is not always read back from the wire as it was sent: see `ReadBackExactly`.
- Recovery leaves attempts of prompts that are already settled as they are (`LiveAttemptsLeft`), and
  repeats itself exactly when a stale App Server could not be terminated (`SecondPassIsIdle`).
- A rendered checkpoint may be ahead of the raw bytes it is kept with, if and only if raw bytes of its
  generation were remembered up to an offset before it (`CheckpointsFollow`, `CheckpointMayLead`).
- Placing a tab loses the other tabs whose groups are unknown (`PlacedIsPermutation`).

## Assumptions

- A root's creation is the first event on its id; its limits never change and allow one message.
  Store writes do not fail, locks exclude, and a scan for outstanding work reads at one moment.
  Whether a conversation is a leaf does not change while the root lives. Receipt keys are the hashed
  parts themselves, so the hash has no collisions.
- Screen rows are compared by the JSON their hash is taken of. Characters are one cell wide, one to a cell, and EL
  leaves plain erased cells, not cells in the last run's colours. A terminal calls a cell untouched only if it has no
  colour and no attribute of its own, and keeps colours of 24 bits.
- A server answers with a document's true size and, when the length is right, the right bytes. The client's
  decoder does what the Encoding Standard says.
- The cipher opens a box only under the key, nonce and header it was sealed with, and nobody but the
  holder of a key makes boxes under it. Deflated bytes inflate to themselves within the limit, and
  encoded text decodes to itself with unpaired surrogates replaced and a leading byte-order mark dropped.
  The tenth in the compression rule
  is exact. Both ends agreed on the dictionary.
- Messages of the raw stream carry the stream's own bytes. Tab, group and connection ids are distinct.
- Text is a sequence of characters that stand for the source's UTF-16 units. Encoding depends on that: it
  replaces unpaired surrogates, one unit by one unit. Nothing else does.

## Model

| member | source | states |
|---|---|---|
| `A2aBudget.StepLifecycle` | src/server/a2a-service.ts:741-766 | every locked section moves the status only as promised: completed and stopped are never left, ending exactly while a finish is pending, an end time exactly when over, and only a withdrawn finish goes from ending back to running |
| `A2aBudget.Lifecycle` | src/server/a2a-service.ts:792-823 | over any run from any coherent root: status, pending finish and end time stay coherent, identity and limits are frozen, and an ended root keeps its status and end time for ever |
| `A2aBudget.BudgetConservation` | src/server/a2a-service.ts:675-721 | under any interleaving of sends, replies and restarts `usedMessages` is one plus reservations in flight plus deliveries plus reservations a restart forgot, never above the limit; so at most `limits.messages - 1` deliveries, each of depth 1..`limits.depth` |
| `A2aBudget.RefundIsExact` | src/server/a2a-service.ts:695-701 | a refund takes back exactly one message; its clamp at zero never bites |
| `A2aBudget.ReceiptsWithinBudget` | src/server/a2a-store.ts:184-191 | over any run receipt keys are unique, and receipts, sends in flight and the root prompt together never exceed the budget spent |
| `A2aBudget.AtMostOnce` | src/server/a2a-service.ts:654-661 | with at most 201 messages the 200-receipt cap never drops one, receipt keys are unique, and a request key never in flight twice at once is delivered at most once in the root's life |
| `A2aDuplicates.DeliveredTwice` | src/server/a2a-service.ts:654-722 | from any new root with three messages and depth one, a request sent twice at once is delivered twice |
| `A2aBudget.ReplayIsFree` | src/server/a2a-service.ts:656-661 | once a receipt is recorded, sending the same request again, at any later time, changes nothing |
| `A2aBudget.ReceiptsLast` | src/server/a2a-store.ts:188-191 | a recorded receipt is found for ever after |
| `A2aRoot.RecordKeeps` | src/server/a2a-store.ts:188-191 | recording keeps keys unique, finds the new key, and below the cap forgets nothing |
| `A2aRoot.JoinKeepsForest` | src/server/a2a-store.ts:172-182 | joining keeps tab ids unique and every parent an earlier member, if a new member names a member |
| `A2aQuiet.StepInv` | src/server/a2a-service.ts:201-220 | every step keeps: the forest, every queued message coming from a member, contexts and sends belonging to members, and every message in a member's tab or its sender between enqueue and commit |
| `A2aQuiet.CleanScanIsQuiet` | src/server/a2a-service.ts:830-848 | beside a scan that finds nothing, no message of the root is unfinished anywhere and no send is in flight if and only if the world is calm, although the scan reads only members' queues and targets join after enqueue |
| `A2aTheorems.MembershipIsAForest` | src/server/a2a-service.ts:201-220 | over any run membership only grows, tab ids are unique, role, level and parent never change, a thread only from missing, and each parent is an earlier member |
| `A2aSettlement.StepKeepsQuiet` | src/server/a2a-service.ts:424-441 | a step leaves a quiet root quiet if and only if it is not a dispatch of an outside prompt, a message queued again, a leaf's reply, or a send of the excused turn |
| `A2aSettlement.RunKeepsQuiet` | src/server/a2a-service.ts:424-441 | a root is quiet throughout a run if and only if it starts quiet and no step of the run is one of those |
| `A2aSettlement.QuietSettlementIsSafe` | src/server/a2a-service.ts:424-441 | from an empty scan to its lock nothing of the root is unfinished in any conversation and no send is in flight, if and only if the scan was calm and is not disturbed; the root it ends is left with nothing if and only if it has nothing at the lock, and so in that case |
| `A2aSettlement.AcceptedFinishLosesNothing` | src/server/a2a-service.ts:731-766 | the same for accepting finish, with the caller's own turn excused |
| `A2aDisturbed.AdoptionDefeatsSettlement` | src/server/a2a-service.ts:424-441 | a reader's own prompt dispatched into the root between a clean scan and its settlement is running in a root that is completed |
| `A2aDisturbed.RequeueDefeatsSettlement` | src/server/a2a-service.ts:424-441 | a finished message queued again in between waits in a root that is completed |
| `A2aDisturbed.RepeatableIsReachable` | src/server/a2a-service.ts:201-252 | such a world is three steps from any new root |
| `A2aDisturbed.RestartDefeatsSettlement` | src/server/a2a-service.ts:830-848 | a message whose commit a restart cut off is in no member's queue, and waits in a root that is completed |
| `A2aDisturbed.ForgottenIsReachable` | src/server/a2a-service.ts:675-721 | such a world is reached from any new root with two messages and depth one: its first send is enqueued, and the server restarts before the commit |
| `A2aDisturbed.LeafReplyDefeatsSettlement` | src/server/a2a-service.ts:295-327 | a leaf's reply reserved before the scan is delivered into a completed root |
| `A2aDisturbed.AdoptableIsReachable` | src/server/a2a-service.ts:177-220 | a world with a reader's prompt waiting is four steps from any new root |
| `A2aDisturbed.ReplyOnItsWayIsReachable` | src/server/a2a-service.ts:283-305 | a world with a leaf's reply reserved is reached from any new root with three messages and depth two: it asks a leaf, the leaf's turn ends, and its reply begins |
| `A2aEndings.ConfirmOutcome` | src/server/a2a-service.ts:389-407 | in a root that is ending, the report of the turn it waits for stops it if a stop is pending, completes it if a completion is pending and the turn landed, and otherwise puts it back to running with `finish_confirmation_failed`; any other report changes nothing |
| `A2aEndings.UserCompletes` | src/server/a2a-service.ts:793-812 | the user completes a root that is not over if and only if the scan found no work; otherwise nothing changes |
| `A2aEndings.UserStops` | src/server/a2a-service.ts:789-823 | a stop is at once without work in hand, forced if the root was already ending, and otherwise waits for the first of the work found |
| `A2aEndings.FinishOutcome` | src/server/a2a-service.ts:731-766 | `finish` leaves the root waiting for the caller's own turn if and only if the scan found no other work |
| `A2aEndings.PendingWasAsked` | src/server/a2a-service.ts:741-766 | over any run a root that waits for an end was asked for exactly that end by an agent or the user, and has waited since |
| `A2aEndings.HowItEnded` | src/server/a2a-service.ts:380-441 | over any run a root that is over says how it ended and stays so for ever: by the turn that asked for it and landed, by the user, completing without work or stopping, or by a scan that found nothing |
| `A2aEndings.AgentsReason` | src/server/a2a-service.ts:741-766 | an agent's own reason stands if and only if an agent asked, was not overruled since, and its turn landed |
| `A2aMessages.SendStarts` | src/server/a2a-service.ts:654-672 | a send is under way if and only if its context resolves, its request is not recorded and its depth and target allow it; otherwise nothing has happened |
| `A2aMessages.LeafStarts` | src/server/a2a-service.ts:277-295 | so is a leaf's reply, to whoever sent the message it answers |
| `A2aMessages.ReserveOutcome` | src/server/a2a-service.ts:675-682 | one message is taken if and only if the root takes work and has one left, and for a leaf's reply is running and within the depth |
| `A2aMessages.RefusalNames` | src/server/a2a-service.ts:675-682 | each refusal says which of these conditions failed |
| `A2aMessages.MessageArrives` | src/server/a2a-service.ts:675-722 | a message that can be afforded waits in its target's queue, costs one message, is recorded, and its target has joined |
| `A2aMessages.FailureLeavesNothing` | src/server/a2a-service.ts:692-701 | a message that cannot be enqueued leaves the record as it was, but for its revision |
| `A2aMessages.DispatchBegins` | src/server/a2a-service.ts:177-252 | a dispatch goes into the root if and only if the prompt waits and is a message of the root or a reader's own that continues or restarts it; the root has started then |
| `A2aMessages.MessageIsWorkedOn` | src/server/a2a-service.ts:201-252 | a dispatched message is the turn its conversation executes, with a context of its depth, in a conversation that has joined |
| `A2aMessages.DispatchFinishes` | src/server/a2a-service.ts:201-252 | a prepared dispatch takes its prompt if that still waits, and is over either way |
| `A2aMessages.PromptLeaves` | src/server/a2a-service.ts:177-200 | a prompt of a root that is over leaves it when it runs again; of any other root it does not |
| `A2aMessages.NewRootIs` | src/server/a2a-service.ts:135-161 | a new record is pending, with its first prompt counted, and nothing else in it |
| `A2aMessages.RestartForgets` | src/server/a2a-service.ts:830-848 | a restart forgets contexts, dispatches, sends and scans, and touches neither the record nor a queue |
| `A2aMessages.ReceiptsAreCapped` | src/server/a2a-store.ts:188-191 | at most 200 receipts are kept, the last ones, the new one among them |
| `A2aJoining.MembersJoinAs` | src/server/a2a-service.ts:201-220 | over any run every member joined by a dispatch of its own, as the root's role at level 0 for the prompt the root began with and else in the default role at level 1, or by the commit of a message, in the role asked for and one level below the sender; and is that for ever |
| `A2aJoining.DispatchTellsThread` | src/server/a2a-service.ts:201-220 | a dispatch fills in the thread of its member if that is missing, and touches no other member |
| `A2aJoining.CommitTellsThread` | src/server/a2a-service.ts:704-721 | so does the commit of a message |
| `A2aJoining.WantedRoleIsLost` | src/server/a2a-service.ts:704-721 | a message's target keeps the role its sender asked for if the commit comes before its first dispatch, and joins in the default role at level 1 if the dispatch comes first |
| `A2aJoining.RoleLossIsReachable` | src/server/a2a-service.ts:675-721 | from any new root whose policy has another role, five steps lead to a message whose target can be dispatched first |
| `A2aService.Service.BeginRoot` | src/server/a2a-service.ts:135-161 | writes a new pending record with one message spent, whatever the id had before |
| `A2aService.Service.NextRootId` | src/server/a2a-store.ts:147-154 | the first free of prompt-2 .. prompt-999, none exactly if all are taken |
| `A2aService.CandidatesDiffer` | src/server/a2a-store.ts:147-154 | different attempts give different root ids |
| `A2aService.Service.PrepareDispatch` | src/server/a2a-service.ts:201-252 | the record after the dispatch section, and a context with the member's own role and level |
| `A2aService.Service.Reserve` | src/server/a2a-service.ts:675-682 | one message taken, or the refusal that the root is ending, over or out of budget |
| `A2aService.Service.ReserveLeaf` | src/server/a2a-service.ts:295-305 | one message taken only from a running root within depth and budget |
| `A2aService.Service.Refund` | src/server/a2a-service.ts:695-701 | the record after a refund |
| `A2aService.Service.Commit` | src/server/a2a-service.ts:704-721 | the target joined with its role, level and parent, and the receipt recorded |
| `A2aService.Service.CommitLeaf` | src/server/a2a-service.ts:313-327 | the leaf's receipt recorded |
| `A2aService.Service.Finish` | src/server/a2a-service.ts:741-766 | ending with a pending finish, refused while work is outstanding, nothing if already ending or over |
| `A2aService.Service.EndFromUser` | src/server/a2a-service.ts:789-823 | completed or stopped at once, a pending stop, a forced stop, or a refusal, as the scan and the intent decide |
| `A2aService.Service.Confirm` | src/server/a2a-service.ts:389-407 | a pending end takes effect when its turn landed or was a stop, else the root runs again |
| `A2aService.Service.SettleQuiet` | src/server/a2a-service.ts:428-438 | a running root without pending finish is completed |
| `A2aService.Service.ResolveContext` | src/server/a2a-service.ts:524-546 | a context resolves only while its attempt is the turn its conversation is executing; an expired one is forgotten |
| `A2aService.Service.ReleaseTabContexts` | src/server/a2a-service.ts:457-459 | every context of the tab and no other is gone |
| `A2aService.Service.RateLimitDelay` | src/server/a2a-service.ts:882-888 | the delay for the pruned inbound times, which are stored |
| `A2aService.Service.NoteInbound` | src/server/a2a-service.ts:890-893 | the pruned inbound times and now |
| `RateLimit.SlidingWindow` | src/server/a2a-service.ts:667-722 | over an unbounded run of one process, despite pruning, and although a delivery is noted only after it is enqueued and committed, every 60-second window holds at most `perMinute` deliveries of `opSend` to a target, plus one for each further send that may overlap |
| `RateLimitBounds.OneAtATime` | src/server/a2a-service.ts:667-670 | for every limit, no run ever exceeds `perMinute` if and only if no two sends to the target overlap |
| `RateLimitBounds.AskAgain` | src/server/a2a-service.ts:882-888 | at any overlap, a refused sender who asks again later is admitted if and only if the recent time that is `perMinute` from the end has expired by then |
| `RateLimitBounds.DelayIsNeeded` | src/server/a2a-service.ts:882-888 | no shorter wait than the returned delay is enough |
| `RateLimitBounds.WaitingSufficesAlone` | src/server/a2a-service.ts:882-888 | for every limit, waiting the returned delay, or longer, always suffices if and only if no two sends to the target overlap |
| `RateLimitBounds.OverlapCounts` | src/server/a2a-service.ts:667-722 | the bound of the sliding window is met by enqueued messages, for every limit and every overlap |
| `ScreenProjection.ScrollUp` | src/client/terminal-projection.ts:212-214 | the two loops in place give the scrolled rows: each row from `lines` below, blank where that lies outside the region |
| `ScreenProjection.ScrollDown` | src/client/terminal-projection.ts:215-219 | the same for content that moves down |
| `ScreenProjection.ApplyScroll` | src/client/terminal-projection.ts:210-221 | a scrolled copy; the given rows are untouched |
| `ScreenProjection.ApplyProjectionFrame` | src/client/terminal-projection.ts:33-81 | the specified outcome: refusals with or without a snapshot request, or the new state; a rejected frame leaves the old state |
| `ScreenDiff.DirtyAfterScroll` | src/server/terminal-projection.ts:404-417 | exactly the rows whose hash differs from the scrolled previous row's |
| `ScreenDiff.DetectScroll` | src/server/terminal-projection.ts:360-402 | the announced scroll is that of a best proven shift: three rows or more that moved together, some visibly, leaving at least two rows fewer to send, and none leaving fewer, or as few while resting on more rows; none is announced if and only if none is proven |
| `ScreenReplica.SentAfterScroll` | src/server/terminal-projection.ts:404-417 | after a scroll a row is sent if and only if nothing comes to stand there, or what does is not what it shows |
| `ScreenDiff.ScrollIsFound` | src/server/terminal-projection.ts:360-402 | where three rows or more moved together, one visibly, and moving them leaves two rows fewer to send, a scroll is announced, and it leaves no more to send than that one |
| `ScreenDiff.DiffScreens` | src/server/terminal-projection.ts:333-355 | all rows if and only if that is forced or the structure is another, else exactly those that differ from the previous screen after a best scroll; nothing if and only if nothing differs |
| `ScreenReplica.DiffsAreHonest` | src/server/terminal-projection.ts:333-355 | every frame built from a diff lists every row that differs from what the client already shows |
| `ScreenReplica.HonestFrameGivesScreen` | src/client/terminal-projection.ts:49-80 | an honest frame that is applied to screen n - 1, or as a full frame to anything, gives screen n, cleaned |
| `ScreenReplica.ReplicaIsCorrect` | src/client/terminal-projection.ts:33-81 | after any frames of honest streams, lost, repeated or reordered, the state labelled (stream, n) is screen n of that stream, cleaned, and row i carries index i |
| `ScreenReplica.SequenceAdvances` | src/client/terminal-projection.ts:44-47 | within one stream and generation an applied frame only moves forward, and the same frame again changes nothing |
| `ScreenReplica.FullFrameHeals` | src/client/terminal-projection.ts:43-47 | after any honest frames, a well-formed full frame whose stream is new or whose number is later brings the client to exactly its screen, and any other changes nothing |
| `ScreenDelivery.ProperIs` | src/client/terminal-projection.ts:153-203 | the checks let through exactly the proper frames: a named stream, 20 to 500 columns, 5 to 60 rows on screen, a cursor on it, whole rows, known flags, colours of the palette or of six hexadecimal digits |
| `ScreenDelivery.FrameOutcome` | src/client/terminal-projection.ts:33-62 | a frame is applied if and only if it is proper and either full and not stale, or the next of the stream, generation and structure shown; of the others only stale ones that would fit are passed over, and all the rest ask for a snapshot |
| `ScreenDelivery.IncrementApplies` | src/client/terminal-projection.ts:43-61 | after any honest frames a proper increment is applied if and only if the client shows the screen before it, and then it shows the increment's own |
| `ScreenDelivery.InOrderMovesOn` | src/client/terminal-projection.ts:43-61 | frames that come in order from the screen shown bring the client to the last of them |
| `ScreenDelivery.InOrderIsCurrent` | src/client/terminal-projection.ts:33-81 | whatever was lost before, a full frame of a new stream or a later number and the frames after it in order bring the client to the last screen, cleaned |
| `ScreenPrinter.StyleToSgr` | src/client/terminal-projection.ts:119-137 | the SGR sequence of a style |
| `ScreenPrinter.InputModesToAnsi` | src/client/terminal-projection.ts:104-117 | the mode switches, as a string |
| `ScreenPrinter.ProjectionScreenToAnsi` | src/client/terminal-projection.ts:87-102 | the printed string spells the screen's sequence of tokens |
| `ScreenPrinter.ScreenSpells` | src/client/terminal-projection.ts:87-102 | the string built piece by piece is the rendering of the token sequence |
| `ScreenReader.ParsePrefix` | src/client/terminal-projection.ts:87-102 | reading a rendered token sequence gives it back, whatever follows it |
| `ScreenReader.NothingForeign` | src/client/terminal-projection.ts:83-86 | reading the printed characters gives exactly the printer's own sequences, and no control character besides, whatever text the state holds |
| `ScreenTerminal.SgrStyle` | src/client/terminal-projection.ts:119-151 | obeying the SGR of a style, from any rendition, gives exactly its flags, palette and RGB colours |
| `ScreenTerminal.HexCodes` | src/client/terminal-projection.ts:147-150 | the three colour bytes are the three pairs of hexadecimal digits |
| `ScreenTerminal.ModesRead` | src/client/terminal-projection.ts:104-117 | the modes a state decides end up as it wants them, and no other mode moves |
| `ScreenTerminal.ObeyRuns` | src/client/terminal-projection.ts:91-93 | the runs of a row paint its cells from the left and leave the rest blank |
| `ScreenTerminal.PrintReadRoundTrip` | src/client/terminal-projection.ts:87-151 | reading the printed characters on any terminal of the state's size, whatever it showed and wherever its cursor was, shows exactly the cells, modes and cursor |
| `ScreenEndToEnd.AppliedIsChecked` | src/client/terminal-projection.ts:153-203 | a state that passed the checks is followed by one that does, whatever a frame holds |
| `ScreenEndToEnd.UserSeesServerScreen` | src/client/terminal-projection.ts:33-151 | after any honest frames the printed state displays the server's screen it is labelled with: every cell, mode and the cursor |
| `ScreenSource.ExtractRow` | src/server/terminal-screen.ts:251-284 | the runs of one line of the grid: cells without width left out, what is empty at its end cut off, equal neighbours joined |
| `ScreenSource.TakeSnapshot` | src/server/terminal-screen.ts:157-187 | the last rows of the grid, at least five and at most sixty, with the cursor kept inside them |
| `ScreenGrid.InkIsRead` | src/server/terminal-screen.ts:299-305 | a colour is written so that its name, number or six digits say it again |
| `ScreenGrid.RowShows` | src/server/terminal-screen.ts:251-284 | the runs of a line show it cell by cell, with blanks where it has none |
| `ScreenGrid.RowIsMaximal` | src/server/terminal-screen.ts:270-280 | no two neighbouring runs look alike and none is empty |
| `ScreenGrid.FramesAreProper` | src/client/terminal-projection.ts:153-203 | every honest frame of a screen taken of a terminal of a size the server allows passes all the checks of the client |
| `ScreenGrid.UserSeesServerGrid` | src/server/terminal-screen.ts:157-187 | from grid to grid: after any honest frames, in any order, the printed state shows the server terminal's own last rows, cell by cell, its modes and its cursor |
| `DocumentChunks.RangeInside` | src/shared/document-protocol.ts:46-53 | each chunk is a non-empty range inside the document, ending where the next begins, the last at its end |
| `DocumentChunks.ChunksPartition` | src/shared/document-protocol.ts:40-53 | the first n chunks are the bytes before chunk n; all chunks are the document |
| `DocumentLoading.DocumentLoader.OpenSource` | src/client/document-loader.ts:115-129 | `open` up to its await: the new epoch, a fresh decoder, the aborted old request, and the request issued |
| `DocumentLoading.DocumentLoader.OnOpenReply` | src/client/document-loader.ts:130-164 | the opened document, a failure, the reopening of a stale parent, or nothing for a reply no longer current |
| `DocumentLoading.DocumentLoader.OnReopened` | src/client/document-loader.ts:156-161 | the link is followed from the document that is open by then, if one is |
| `DocumentLoading.DocumentLoader.LoadNext` | src/client/document-loader.ts:167-185 | the guards, and the request for the next chunk |
| `DocumentLoading.DocumentLoader.OnChunkReply` | src/client/document-loader.ts:186-232 | the chunk shown, a failure, a reopening, or nothing; and the flags `finally` clears even for a stale reply |
| `DocumentLoading.DocumentLoader.Retry` | src/client/document-loader.ts:234-237 | opening again without a document, else loading |
| `DocumentLoading.DocumentLoader.SetActive` | src/client/document-loader.ts:239-246 | deactivation aborts and leaves loading |
| `DocumentLoading.DocumentLoader.Close` | src/client/document-loader.ts:252-257 | a new epoch, closed, with an empty decoder |
| `Utf8.ScanningJoins` | src/client/document-loader.ts:196 | decoding bytes in parts, with the state kept between them, gives what decoding them at once gives |
| `Utf8.ReadsItsEncoding` | src/client/document-loader.ts:195-197 | the fatal decoder reads exactly the encodings of section 3 of RFC 3629, each as the text it encodes |
| `DocumentText.NextCall` | src/client/document-loader.ts:195-201 | a call on the next chunk puts out what that chunk adds to the text, and fails if and only if the chunks up to it do not read |
| `DocumentRuns.ChunksAreCounted` | src/client/document-loader.ts:188-219 | under every interleaving of opening, loading, activation, closing, late and aborted replies and resumed openings, the view counts chunks 0..`nextChunkIndex`-1, one segment for each, `loadedBytes` is where they end, and `complete` holds exactly when they are all |
| `DocumentRuns.ShownIsDecoded` | src/client/document-loader.ts:115-278 | under every such interleaving the text shown is the decoding of the first `loadedBytes` bytes if and only if none of the chunks counted was ever refused; otherwise those bytes have no decoding |
| `DocumentRuns.WholeIsShown` | src/client/document-loader.ts:188-219 | a document shown to its end is the UTF-8 encoding of the text shown, but for a byte-order mark, if and only if none of its chunks was ever refused |
| `DocumentRuns.FedExactlyOnce` | src/client/document-loader.ts:195-201 | the decoder has been fed exactly the chunks counted if and only if it has refused no chunk of the present document, or the document has only one |
| `DocumentRuns.StrikesExactly` | src/client/document-loader.ts:195-201 | as long as none has been refused, the next chunk is refused if and only if the chunks up to it do not read as UTF-8 |
| `DocumentRuns.ShownReads` | src/client/document-loader.ts:195-201 | every part of a document that is shown is UTF-8, up to a character cut off at its end, unless a chunk was refused |
| `DocumentRuns.DecodableIsFedOnce` | src/client/document-loader.ts:195-201 | if every document is UTF-8, no chunk is ever refused, whatever happens |
| `DocumentRefusals.RefusalLeaves` | src/client/document-loader.ts:195-201 | a refused call leaves the decoder at the start of a character with the unread end of its bytes queued, or fresh if it was to end the stream |
| `DocumentRefusals.RefusedChunkIsFedAgain` | src/client/document-loader.ts:167-197 | nothing of a refused chunk is shown, and the reader's next load asks for it again |
| `DocumentRefusals.RefusedChunkIsReadAgain` | src/client/document-loader.ts:195-219 | the same bytes coming again are shown without an error if and only if they read after what was left unread; the text put out is that of both, while the chunk counts once |
| `DocumentRefusals.ShownTwice` | src/client/document-loader.ts:195-237 | a run from the beginning: a document that is not UTF-8 is shown to its end, without an error and with its second chunk twice |
| `DocumentRuns.OneLiveRequest` | src/client/document-loader.ts:270-272 | at most one outstanding request can still be obeyed, whatever `inFlight` says |
| `DocumentRuns.StaleRepliesAreInert` | src/client/document-loader.ts:228-231 | a superseded reply changes nothing but the in-flight flag |
| `DocumentProgress.ChunkSizes` | src/shared/document-protocol.ts:46-53 | the first chunk holds 8 KiB, every other 16 KiB, and only the last one less |
| `DocumentProgress.OpenedOutcome` | src/client/document-loader.ts:130-146 | a document that can be shown, by its ids, kind, encoding, size and name, is open with nothing of it shown; any other is a failure |
| `DocumentProgress.RefusedOutcome` | src/client/document-loader.ts:147-164 | a refusal has the containing document opened again, with the link waiting for it, if that was open and is what the server does not know, at most three deep; else it is a failure |
| `DocumentProgress.ResumedOutcome` | src/client/document-loader.ts:156-161 | the link that waited is followed from the document that is open by then, if one is |
| `DocumentProgress.UserOpensOutcome` | src/client/document-loader.ts:115-131 | opening clears the view and leaves one request that will be obeyed |
| `DocumentProgress.UserRetriesOutcome` | src/client/document-loader.ts:234-237 | trying again opens what was never opened, and otherwise loads |
| `DocumentProgress.UserLoadsOutcome` | src/client/document-loader.ts:167-185 | the next chunk is asked for if and only if the viewer is active, nothing is in flight, there is more, and it was asked for by hand or less than 512 KiB is loaded |
| `DocumentProgress.UserLeavesOutcome` | src/client/document-loader.ts:239-246 | nothing asked for before a deactivation or a closing is obeyed after it |
| `DocumentProgress.UserClosesOutcome` | src/client/document-loader.ts:252-257 | nor after closing, which shows nothing |
| `DocumentProgress.ChunkOutcome` | src/client/document-loader.ts:187-227 | as long as nothing of it was refused, the next chunk of a document is shown after what was shown if and only if the chunks up to it read; else the encoding is at fault |
| `DocumentProgress.ChunkFailure` | src/client/document-loader.ts:189-227 | a chunk of the wrong length, or an error, is a failure, or opens the document once more if its id is unknown |
| `DocumentProgress.ChunkCancelled` | src/client/document-loader.ts:219 | the abort error of a load ends the fetching and changes nothing that is shown |
| `DocumentProgress.LoadsToTheEnd` | src/client/document-loader.ts:167-232 | loading a document that is UTF-8 again and again shows all of it: it is the encoding of the text shown, a byte-order mark apart |
| `DocumentProgress.OpenedIsShown` | src/client/document-loader.ts:115-232 | whatever happened before, a source opened by an active viewer, answered with a UTF-8 document and its chunks, is shown to its end |
| `DocumentOpenings.OpeningIsAnswered` | src/client/document-loader.ts:115-164 | over every run, a view that is opening still waits for a reply it will obey if and only if, since that opening began, the viewer has not been deactivated and the opening's own request has not come back as the abort error |
| `DocumentOpenings.CutOffStays` | src/client/document-loader.ts:234-246 | an opening that has been cut off stays as it is, whatever is answered, loaded or activated, until it is opened anew or closed |
| `DocumentOpenings.DeactivationStrandsOpening` | src/client/document-loader.ts:239-246 | a run: opened, deactivated and activated again, the view is opening and cut off |
| `DocumentOpenings.AbortStrandsOpening` | src/client/document-loader.ts:145-148 | a run: the abort error for the opening's request leaves the view opening and cut off |
| `MarkdownBlocks.LastSafeBoundary` | src/client/markdown-blocks.ts:33-67 | the end of the last blank line outside a fence that does not continue a list, as the specified scan has it |
| `MarkdownBlocks.SplitCommittedBlocks` | src/client/markdown-blocks.ts:77-107 | the non-blank slices between boundaries, as the specified scan has them |
| `MarkdownBlocks.MarkdownBlockAssembler.AppendText` | src/client/markdown-blocks.ts:13-26 | the blocks given out and the text kept pending |
| `MarkdownBlocks.BlocksAreKept` | src/client/markdown-blocks.ts:98-105 | blocks are the slices that are not only white space |
| `MarkdownCuts.ItemIs` | src/client/markdown-blocks.ts:49 | a line begins a list item if and only if at most three spaces, a bullet or a number with its mark, and white space begin it |
| `MarkdownCuts.FenceIs` | src/client/markdown-blocks.ts:43 | a line looks like a fence if and only if at most three spaces and three or more of one marker begin it |
| `MarkdownCuts.ContinuesIs` | src/client/markdown-blocks.ts:53-54 | a line goes on with a list if and only if it begins with two characters of white space or an item |
| `MarkdownCuts.ContentIs` | src/client/markdown-blocks.ts:42 | the content of a line is the line without its LF or CRLF |
| `MarkdownCuts.PiecesAreSlices` | src/client/markdown-blocks.ts:77-107 | the text is cut after a line if and only if it is blank, outside all fences, and does not stand between a list item since the last cut and a line that goes on with the list |
| `MarkdownCuts.CommitsAllItMay` | src/client/markdown-blocks.ts:13-26 | what is appended is committed up to the last such place, and no more is kept pending |
| `MarkdownTheorems.NothingLost` | src/client/markdown-blocks.ts:13-26 | over any chunking of any text, the slices blocks are chosen from, followed by the pending text, are the appended text in order |
| `MarkdownTheorems.NothingLostAtTheEnd` | src/client/markdown-blocks.ts:15-19 | finishing gives out all that was pending |
| `MarkdownTheorems.Resplit` | src/client/markdown-blocks.ts:38-40 | for text with LF and CRLF only, a slice between line ends has exactly those lines |
| `MarkdownTheorems.BlocksAreClosed` | src/client/markdown-blocks.ts:13-107 | for such text, over any chunking, every block committed before completion begins and ends with no open fence |
| `MarkdownFences.LineIsStandard` | src/client/markdown-blocks.ts:43-48 | a line opens or closes a fence as section 4.5 of CommonMark says if and only if it is not disputed: a backtick opener with a backtick in its info string, or a closer followed by white space other than spaces and tabs |
| `MarkdownFences.BlocksAreStandard` | src/client/markdown-blocks.ts:43-48 | a committed block without disputed lines leaves no fence of CommonMark open |
| `MarkdownFences.CommitsEndLines` | src/client/markdown-blocks.ts:21-25 | every commit ends a line if and only if no chunk ends, outside the text's fences, inside a line of which so far only white space has come |
| `MarkdownFences.WholeTextIsClosed` | src/client/markdown-blocks.ts:21-25 | if so, the committed text as a whole has no open fence either |
| `MarkdownFences.CommitInsideALine` | src/client/markdown-blocks.ts:21-25 | when a chunk ends inside a line of spaces, the part is committed and the next chunk starts a line of its own, so a block can be cut where the whole text has a fence open |
| `MarkdownFences.CutInsideAFence` | src/client/markdown-blocks.ts:21-25 | there is such a text |
| `EncryptedWire.NonceInjective` | src/shared/e2ee-envelope.ts:123-133 | no two counters share a nonce |
| `EncryptedWire.ClientWire.Send` | src/client/e2ee-wire.ts:127-129 | the text is queued behind all before it |
| `EncryptedWire.ClientWire.SealAndSend` | src/client/e2ee-wire.ts:131-160 | the sealed frame with the present counter, which advances only if the socket took it |
| `EncryptedWire.ClientWire.Decode` | src/client/e2ee-wire.ts:169-203 | the text, or none; the counter advances exactly when the box opened |
| `WirePrefix.SealThenOpen` | src/client/e2ee-wire.ts:138-151 | a sealed text opens under the same key and counter and reads back as specified |
| `WirePrefix.ReadBackExactly` | src/client/e2ee-wire.ts:186-202 | a text reads back unchanged if and only if it has no unpaired surrogate and no leading byte-order mark, is JSON if the dictionary was used, and is within the inflate limit if it was compressed |
| `WirePrefix.OnlyTheNextOpens` | src/client/e2ee-wire.ts:173-185 | a frame opens only if it is the one sealed with the reader's own counter |
| `WirePrefix.NoncesNeverRepeat` | src/client/e2ee-wire.ts:131-160 | the transmitted frames carry counters 0, 1, 2, ... and no two of them share a nonce |
| `WirePrefix.OpenedIsPrefix` | src/client/e2ee-wire.ts:163-185 | whatever the channel drops, repeats, reorders, alters or injects, what has been opened is the first texts transmitted, each read back, in order |
| `WirePrefix.ReceivedIsPrefix` | src/client/e2ee-wire.ts:163-203 | the application receives exactly the first texts transmitted if and only if each of them reads back unchanged |
| `WirePrefix.NothingSkipped` | src/client/e2ee-wire.ts:127-129 | unless the socket refuses one, the texts handed over are those transmitted and those still queued, in order |
| `WirePrefix.SealedNoncesAreDistinct` | src/client/e2ee-wire.ts:146-159 | over any run all boxes made under an end's key, transmitted or not, have distinct nonces, as section 8 of NIST SP 800-38D asks, if and only if no box is made after one whose frame the socket refused |
| `WirePrefix.NonceUsedTwice` | src/client/e2ee-wire.ts:146-159 | two texts queued while the socket does not take frames are sealed under one key and nonce, and differ if they read back differently |
| `WirePrefix.LostFrameStops` | src/client/e2ee-wire.ts:173-185 | nothing but the frame the reader waits for ever opens |
| `WireDelivery.SealedIs` | src/client/e2ee-wire.ts:138-153 | a text is sent compressed if and only if it is long enough and compressing saves 32 bytes and a tenth, and its header says so |
| `WireDelivery.SealOutcome` | src/client/e2ee-wire.ts:131-160 | the next text is transmitted if and only if a counter is left and the socket is open; without a counter the socket is closed with 4002 |
| `WireDelivery.OpenOutcome` | src/client/e2ee-wire.ts:169-203 | the next frame opens if and only if it is the one sealed with the reader's own counter; then its text is read back and the counter moves on, and the socket is closed with 4003 exactly if a text sealed with the dictionary does not read back; any other frame changes nothing |
| `WireDelivery.OddFrames` | src/client/e2ee-wire.ts:170-172 | what is no frame, too short, or has a header that is never written is dropped |
| `WireDelivery.CarryingOpens` | src/client/e2ee-wire.ts:163-185 | frames delivered in order from the awaited one all open |
| `WireDelivery.EverythingArrives` | src/client/e2ee-wire.ts:127-203 | whatever happened before, while counters last, sealing what is queued and delivering what was transmitted in order opens every text at the far end, each read back, in order |
| `RawTerminal.TerminalPanel.QueueTerminalWrite` | src/client/App.tsx:2220-2222 | a copy of the bytes queued under the present epoch |
| `RawTerminal.TerminalPanel.HandleOutput` | src/client/App.tsx:2479-2526 | the reset, the gap, the overlap and the bytes queued, as specified |
| `RawTerminal.TerminalPanel.HandleRawOneShot` | src/client/App.tsx:2543-2568 | the terminal starts over from the printed screen |
| `RawTerminal.TerminalPanel.AdvanceWriter` | src/client/App.tsx:2223-2234 | a job dropped, finished, or its next chunk handed to the terminal; a started job that is dropped gives the checkpoint up |
| `RawTerminal.TerminalPanel.ResumeWriter` | src/client/App.tsx:2235-2247 | a chunk done: the job dropped, finished or waiting for a frame |
| `RawTerminal.TerminalPanel.SaveCheckpoint` | src/client/App.tsx:2709-2720 | a checkpoint only of a valid panel whose writer is idle |
| `RawRuns.QueuedIsOneSlice` | src/client/App.tsx:2479-2526 | for any loss, repetition, overlap or reordering of correct slices, the bytes queued since the last reset are what it started from and one contiguous slice of the present generation ending at the cursor |
| `RawRuns.CheckpointIsTrue` | src/client/App.tsx:2709-2720 | a saved checkpoint shows what the epoch started from and the stream up to its offset, every byte once |
| `RawRuns.DrainedShowsAll` | src/client/App.tsx:2222-2251 | a live, valid panel whose queue is empty shows everything that was queued |
| `RawRuns.StaleChunkIsNoticed` | src/client/App.tsx:2236-2240 | a chunk still owed at a reset is painted over the new content, and no checkpoint is saved after that, whatever follows |
| `RawProgress.ResetOutcome` | src/client/App.tsx:2488-2503 | a message that says so, the first, or one of another generation leaves an empty terminal and a new epoch at its start; any other leaves everything |
| `RawProgress.MessageOutcome` | src/client/App.tsx:2504-2526 | across a gap the stream is asked for again; else the cursor moves to the message's end, if that is later, and exactly the stream's bytes in between are queued |
| `RawProgress.CursorMoves` | src/client/App.tsx:2504-2517 | the cursor stands still if and only if there is a gap or nothing new, and the stream is asked for again if and only if there is a gap |
| `RawProgress.OpenedOutcome` | src/client/App.tsx:2136-2145 | a panel opens with what was cached queued, if there is any of it |
| `RawProgress.ScreenOutcome` | src/client/App.tsx:2543-2568 | the screen that was asked for starts everything over, any other is passed over |
| `RawProgress.NoGapLosesNothing` | src/client/App.tsx:2504-2526 | messages without a gap, in any overlap, bring the cursor to the furthest end and queue every byte up to it once |
| `RawProgress.WriterDrains` | src/client/App.tsx:2222-2251 | the writer comes to the end of any queue in as many rounds as there is work, and gives the checkpoint up on the way if and only if the head was begun in an epoch that is over |
| `RawProgress.EverythingIsShown` | src/client/App.tsx:2222-2251 | after any messages a live panel's writer drains its queue; then, unless the checkpoint was given up, the terminal shows all that was queued, and that is saved under the cursor |
| `RawProgress.GivenUpBy` | src/client/App.tsx:2223-2249 | a checkpoint is given up only by a write that throws or by dropping a job that has been begun |
| `RawProgress.HandsInSlices` | src/client/App.tsx:2225-2233 | 64 KiB or more are handed over in slices of 32 KiB, less all at once |
| `RawProgress.SavedOnlyThen` | src/client/App.tsx:2709-2720 | a checkpoint is saved if and only if the panel is gone, its writer idle, and something painted that was not given up |
| `TerminalCache.Cache.Touch` | src/client/terminal-cache.ts:43-53 | the entry becomes the newest and the oldest go until the limit is met |
| `TerminalCache.Cache.RememberRawBytes` | src/client/terminal-cache.ts:65-84 | the entry after remembering, restarted and trimmed as specified |
| `TerminalCache.Cache.RememberRenderedState` | src/client/terminal-cache.ts:87-93 | a checkpoint kept only of the raw generation, not ahead, not older |
| `TerminalCache.Cache.ReadRaw` | src/client/terminal-cache.ts:56-63 | all retained chunks, one after the other |
| `TerminalCache.Cache.RetainTabs` | src/client/terminal-cache.ts:98-100 | exactly the entries of valid tabs, in order |
| `TerminalCache.InvAlways` | src/client/terminal-cache.ts:37-103 | after any operations: the size limit, no tab twice, byte counts equal to chunk lengths and over the limit only for a single chunk, every checkpoint of the raw entry's generation |
| `TerminalCache.RetainedIsSuffix` | src/client/terminal-cache.ts:65-84 | the retained bytes are a suffix of everything remembered since the last reset, change of generation or eviction |
| `TerminalCache.TouchedSurvives` | src/client/terminal-cache.ts:43-53 | the entry just touched survives, the others that remain are unchanged |
| `TerminalCache.CheckpointsFollow` | src/client/terminal-cache.ts:65-93 | over any operations no checkpoint is ever ahead of its raw bytes if and only if raw bytes of a checkpoint's generation are never remembered up to an offset before it |
| `TerminalCache.CheckpointMayLead` | src/client/terminal-cache.ts:65-71 | three operations, the last a reset within a generation, after which a checkpoint is ahead |
| `CacheOutcomes.TrimmedIsLongest` | src/client/terminal-cache.ts:80-83 | trimming keeps the longest run of whole chunks at the end that fits, or the last chunk alone; nothing goes while the bytes fit |
| `CacheOutcomes.RetainedIsLongest` | src/client/terminal-cache.ts:65-84 | after any operations the bytes retained of a tab are the longest such end of all that was remembered of it since its last restart |
| `CacheOutcomes.EvictionOutcome` | src/client/terminal-cache.ts:43-53 | touching a tab keeps, of the others, exactly those with fewer than the limit less one touched after them, in their old order |
| `CacheOutcomes.RenderedOutcome` | src/client/terminal-cache.ts:87-93 | a checkpoint is kept if and only if it is of the raw generation, not ahead and not older; raw bytes and screen stay |
| `CacheOutcomes.RawOutcome` | src/client/terminal-cache.ts:65-72 | remembering bytes moves the entry to their generation and end; of the rest only a checkpoint of another generation goes |
| `CacheOutcomes.ProjectionOutcome` | src/client/terminal-cache.ts:96 | a remembered screen is kept beside what else there is |
| `CacheOutcomes.DroppingOutcome` | src/client/terminal-cache.ts:97-100 | forgetting drops the one tab, retaining every tab that is not valid, and nothing else |
| `ResponderLease.LeaseServer.RefreshResponderLease` | src/server/app.ts:590-615 | the owner kept if still open and raw, else the oldest open raw client; a new epoch exactly when it changes; everyone told |
| `ResponderLease.LeaseServer.OnSubscribe` | src/server/app.ts:3704-3779 | the new streams, and every tab refreshed that was or is followed raw |
| `ResponderLease.LeaseServer.OnClose` | src/server/app.ts:3645-3662 | the client gone and its raw tabs refreshed |
| `ResponderLease.InvAlways` | src/server/app.ts:590-615 | after any connects, subscriptions and closes: the owner follows the tab raw on a known connection, there is one whenever an open connection does, and every such connection's last lease message is true |
| `ResponderLease.SingleWriter` | src/server/app.ts:3866-3916 | at most one raw subscriber may type or resize, and each open one has been told whether it is the one |
| `ResponderLease.WriteAfterCheck` | src/server/app.ts:3879-3893 | from the check of an input to the write after its await, the sender holds the lease throughout if and only if the tab's epoch is still the one of the check |
| `ResponderLease.OneEpochOneWriter` | src/server/app.ts:3879-3893 | inputs checked at any two moments under one epoch of a tab are one client's |
| `ResponderLease.SomeoneCanType` | src/server/app.ts:3879-3916 | whenever an open raw subscriber exists, a raw subscriber holds the lease |
| `ResponderLease.OwnerChangesWhenItLeaves` | src/server/app.ts:592-597 | the owner changes only when the old one is no longer an open raw subscriber |
| `ResponderLease.EpochNamesOneOwner` | src/server/app.ts:602-604 | one (tab, epoch) never names two owners |
| `LeaseOutcomes.OwnerOutcome` | src/server/app.ts:590-615 | a tab that is refreshed, however often, keeps an owner that still follows it raw over an open socket, else gets the oldest such client, or nobody if there is none; every other tab keeps owner and epoch |
| `LeaseOutcomes.SubscribeOutcome` | src/server/app.ts:3704-3779 | after a subscription this holds of every tab its client followed raw or follows raw now, and every other tab keeps its owner |
| `LeaseOutcomes.CloseOutcome` | src/server/app.ts:3645-3662 | after a close it holds of the tabs its client followed raw |
| `LeaseOutcomes.ClientOutcome` | src/server/app.ts:3645-3779 | a subscription replaces what its client followed, a closing socket is not open, a closed one is gone, and no other client is touched |
| `LeaseOutcomes.ConnectOutcome` | src/server/app.ts:3645-3662 | a new client comes last, open and following nothing |
| `LeaseOutcomes.OthersAreNotTold` | src/server/app.ts:605-615 | whoever follows none of the refreshed tabs is told nothing |
| `LeaseOutcomes.AcceptsExactly` | src/server/app.ts:3866-3916 | a projection subscriber may type and never resizes; a raw one may do either if and only if it holds the lease |
| `Recovery.SettleTurns` | src/server/app.ts:4300-4360 | the answers after every stale turn, each key once |
| `Recovery.Storage.RecoverTab` | src/server/app.ts:4237-4378 | one conversation's records after recovery, counted exactly if stale |
| `Recovery.Storage.RecoverTerminalRuntime` | src/server/app.ts:4235-4381 | all conversations recovered, and the number that were stale |
| `Recovery.OnePassSettles` | src/server/app.ts:4258-4298 | no prompt dispatching or running, session closed, terminal stopped, runner paused with no active ids |
| `Recovery.LiveAttemptsLeft` | src/server/app.ts:4281-4298 | an attempt stays live if and only if it was and its prompt was not: attempts of settled prompts are not looked at |
| `Recovery.SecondPassIsIdle` | src/server/app.ts:4240-4275 | another pass finds nothing stale if and only if there was no App Server to clean up or it was cleaned up; then it changes nothing |
| `Recovery.SecondRunIsIdle` | src/server/app.ts:4235-4381 | the same for the whole store: another run counts nothing if and only if every App Server there was could be cleaned up; then it changes nothing |
| `Recovery.NoSecondAnswer` | src/server/app.ts:4326-4360 | no turn gets a second answer |
| `RecoveryOutcomes.CommandIs` | src/server/app.ts:4287 | a prompt is a command if and only if its first character that is not white space is a slash |
| `RecoveryOutcomes.PromptOutcome` | src/server/app.ts:4285-4294 | a prompt that was live is completed if it is a command, and otherwise interrupted with an error, now; one that was not is untouched |
| `RecoveryOutcomes.AttemptOutcome` | src/server/app.ts:4294-4296 | so is every live attempt of a live prompt; every other attempt is untouched |
| `RecoveryOutcomes.RunnerOutcome` | src/server/app.ts:4258-4266 | the runner is paused with nothing active and no error, its intent paused as before and else armed; untouched if nothing but prompts was stale |
| `RecoveryOutcomes.TerminalOutcome` | src/server/app.ts:4267-4275 | the terminal is stopped without a server, or broken beside the server that could not be cleaned up; the session is closed if it was open |
| `RecoveryOutcomes.LeftAlone` | src/server/app.ts:4245-4256 | a conversation is left alone, to the last revision, if and only if nothing of it was stale |
| `RecoveryOutcomes.CommandAnswers` | src/server/app.ts:4361-4365 | an answer goes with the commands if and only if it is unfinished and the last prompt under its id, or else its own text, is a command |
| `RecoveryOutcomes.RevisionOutcome` | src/server/app.ts:4281-4370 | the prompts get a new revision if and only if one was live, the answers whenever they changed |
| `RecoveredAnswers.RecordedAs` | src/server/app.ts:4307-4359 | an interrupted turn's answer is rewritten in its place, or put last: interrupted now, empty, with an error, under the prompt that began it, with all its prompts in order, those steered into it, and their texts joined; other answers stay where they are |
| `RecoveredAnswers.AnswersOutcome` | src/server/app.ts:4300-4366 | the answers of any one turn: the record first and then what else there was, what was complete if it was commands only, all if it was not settled; less unfinished answers to commands |
| `RecoveredAnswers.AnswersRevision` | src/server/app.ts:4361-4370 | the answers get a new revision if and only if they changed or some turn was interrupted |
| `RecoveredAnswers.LivePromptInterrupts` | src/server/app.ts:4278-4306 | a live prompt that is no command and names its turn interrupts it, if thread ids have no colon in them |
| `RecoveredAnswers.CompletedAnswerStays` | src/server/app.ts:4300-4366 | a completed answer is kept as it is if and only if its turn is not settled, or only commands name the turn, or another answer of the turn comes before it |
| `RecoveredAnswers.InterruptedTurnIsErased` | src/server/app.ts:4326-4337 | the only answer of an interrupted turn, complete or not, ends up interrupted and empty, or is dropped |
| `RecoveredAnswers.FinishedAnswerErased` | src/server/app.ts:4326-4337 | a prompt still running beside the finished answer of its turn: the answer is emptied |
| `RecoveredAnswers.KeysCollide` | src/server/app.ts:4304 | two turns have one key if and only if they are one, or a colon in the longer thread id stands for the joint |
| `RecoveredAnswers.NoColonNoCollision` | src/server/app.ts:4304 | ids of threads without a colon keep all turns apart |
| `RecoveredAnswers.EveryTurnSettles` | src/server/app.ts:4301-4306 | the turn of every stale prompt is settled if and only if any two stale prompts with one key name one turn |
| `RecoveredAnswers.WithoutColonsAllSettle` | src/server/app.ts:4301-4306 | so every one is, if no thread id of the conversation has a colon in it |
| `RecoveredAnswers.CollidingTurnIsSkipped` | src/server/app.ts:4301-4306 | two turns with one key, of which only the first is settled |
| `Placement.PlaceTab` | src/client/navigation-placement.ts:22-44 | the specified placement, or null |
| `Placement.PlaceGroupAfter` | src/client/navigation-placement.ts:4-16 | the specified group order, or null |
| `Placement.SortedIs` | src/client/navigation-placement.ts:46-48 | sorting is ascending and keeps every element |
| `Placement.PlacedGroups` | src/client/navigation-placement.ts:31-39 | read back group by group the result is the old lists without the source, which stands directly after the target or first, numbered 0..n-1 |
| `Placement.PlacedIsPermutation` | src/client/navigation-placement.ts:38-43 | every tab is there once and none is new if and only if the groups of all other tabs are known; otherwise tabs are lost, none added |
| `Placement.PlacingAgainIsNothing` | src/client/navigation-placement.ts:40-43 | repeating a placement on its result returns null, whatever groups are known |
| `Placement.RearrangedIs` | src/client/navigation-placement.ts:4-15 | all groups, the source directly below the target, the others in their old order |
| `Placement.PlacingGroupAgainIsNothing` | src/client/navigation-placement.ts:14 | repeating a group's placement on its result returns null |
| `PlacementOutcomes.PlacedOutcome` | src/client/navigation-placement.ts:28-43 | a placement gives a list if and only if the tab and the group are there, a named target is another tab of the group, and some tab then stands elsewhere |
| `PlacementOutcomes.PlacedStands` | src/client/navigation-placement.ts:31-39 | in its new group the tab stands directly below the target, or first; every other tab stands among the others of its group as before |
| `PlacementOutcomes.GroupPlacedOutcome` | src/client/navigation-placement.ts:4-15 | a group's placement gives a list if and only if both groups are there, are not one, and it does not stand directly below the target already |
| `PlacementOutcomes.GroupStands` | src/client/navigation-placement.ts:10-15 | then all groups are numbered as they stand, the group directly below its target |

## Left out

- Skills, the list, read and status verbs, text limits and the provider check of a send: they change no record of a root.
- A repeat of a recorded request with other parameters is refused; the model only says that it changes nothing.
- Concurrent duplicates of one request id: the receipt check is outside the lock, so replay is claimed once the receipt is recorded.
- A store write that fails after a leaf's reply was delivered: the source refunds it too.
- `usedSpawns`, preambles and notifications of a dispatch; `cancelPendingWork`, which only removes prompts from queues.
- RateLimit.SlidingWindow: leaf replies are delivered without asking or noting, and a restart forgets the times, so neither is counted; roots with different limits that write to one target are not modelled, one limit is.
- A2aBudget.AtMostOnce: says nothing of a request key that was in flight twice at once, which can be delivered twice (`DeliveredTwice`), or that a restart cut off.
- Sockets, backpressure, scheduling and frame numbering of the server's projection stream: what a frame must be is the honesty of `ScreenReplica`.
- ScreenDiff.DetectScroll: which of several equally good shifts is announced.
- Wide characters, autowrap, scrolling regions and tabs of a real terminal.
- The text of a document is a sequence of scalar values, not of UTF-16 units; its Markdown blocks are the subject of other modules, so segments stand for both.
- A reopened parent's waiter and a load's `finally` run at any later time in the model, which allows more than the event loop does.
- Containers, indented code and HTML of CommonMark; heading ids.
- MarkdownFences.WholeTextIsClosed: one direction only, since whether a cut inside a line matters depends on the text that follows; when there is such a cut is exact (`CommitsEndLines`).
- The handshake, key derivation and the socket that closes; a promise chain is a queue whose head is worked on as one step.
- The limit of two one-shot requests, the checks of a one-shot screen, cursor blinking, and everything of `TerminalPanel` but its stream, queue and checkpoint.
- The projection entry of the cache is stored and read, nothing more.
- ResponderLease.SingleWriter: speaks of the moment the lease is checked. The source reads the tab's record between the check and the write; `WriteAfterCheck` says when the lease has not moved in that gap.
- Snapshots, index deltas and traffic accounting of a subscription; what input and resize do beyond being accepted.
- Recovery.OnePassSettles: says nothing of live attempts of settled prompts; `LiveAttemptsLeft` says exactly which remain.
- The index entry, timestamps of files and captured fields of records that recovery copies unchanged.
- Wheel, drag, dialogs, styling, translations, process launch, storage on disk and the network.
