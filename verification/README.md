# Session and interaction arbitration, proved

This project models, in Dafny, the part of the Lark bot in which several actors race for the same
decision, and the text and time handling around it.

A Codex session runs under a daemon. When the app-server asks for an approval or an answer, the
orchestrator records a pending interaction and announces it through a notification outbox. The answer may
come from a Lark reply, from the terminal, from the expiry sweep or from the app-server itself, while the turn
ends, the session is cancelled or the process dies. What makes this correct is a set of compare-and-swap
updates on the tables and an in-memory map of live requests.

How the model is built:

- `CodexModel`, `RequestId`, `InteractionCodec`: the entities, the text of request ids, the payloads and the
  decisions recorded with them.
- `CodexStore`: the tables and their transactions, each as a function on the tables, and the class
  `SQLiteCodexStore` that performs them in place.
- `Orchestration`: the state machine. An action is the code between two awaits; a suspended call is a
  continuation in the state, so any action may come in between. A run is any list of actions; one that does
  not apply changes nothing. `Restart` is a crash, possibly in the middle of another action, and the startup
  that follows. `OrchestrationSafety` proves what every run keeps, `StaleEntries` when a live entry outlives its
  row and what that costs, `ServerDeath` what remains when the app-server is gone, and `CodexOrchestrator` is the
  object whose methods perform the steps.
- `OrchestrationOutcomes`: what each action does to the session or interaction it is about, read off the tables.
- `CodexGateway`, `AppServerClient`, `AppServerStderr`: arbitration of upstream responses, the client's lifecycle
  and the incremental stderr splitter.
- `TextLines`, `MarkdownFences`, `LarkMentions`, `LarkAnswers`: lines, fenced code, truncation, mention
  neutralising, and reading replies.
- `AgentSessionService`, `Timestamps`, `OutboxQueue`, `OutboxWorker`: reference-counted session locks, the order
  of timestamps as text, the due query and the delivery loop with its backoff.

Times are whole microseconds in UTC and come in as parameters, as do the outcomes of everything awaited.

Five properties one might expect are false of the code; each is shown with the inputs that break it and proved
under the exact condition:

- Truncation can leave a fence open (`MarkdownFences.TruncationMayReopen`, `TruncationLeavesOpen`).
- A live entry can outlive its row, and then hide a pending one (`StaleEntries.StaleEntriesArise`,
  `StaleExactlyWhenOrphaned`, `LookupFindsPendingUnlessStale`).
- An approval of an empty permission object reads back as a denial (`InteractionCodec.ResolutionReadsBack`).
- A terminal message relayed before its id was intercepted can reach the app-server besides the arbitrated
  response (`CodexGateway.OneResponseUnlessRelayedEarly`).
- A "resolved" notice does not always close its id (`CodexGateway.FailedSendUndoesNotice`,
  `NoticeClosesUnlessSending`).

## Model

| member | source | states |
|---|---|---|
| `OrchestrationSafety.SessionEndsAnnouncedAtMostOnce` | src/lark_bot/modules/codex/codex_orchestrator.py:690-776 | Over every interleaving, crashes and restarts included, the outbox holds at most one SESSION_COMPLETED or SESSION_INTERRUPTED row per session, and one only if the session has ended. |
| `OrchestrationSafety.EveryStepIsSafe` | src/lark_bot/modules/codex/codex_orchestrator.py:238-602 | Every step of every run: a session notification is written only before the session has ended, its ending only by the step that ended it, a response only by the step that took the row out of pending; a step that ends a session announces it, a startup that completes included, unless the process died within the step. Rows only evolve forward. |
| `OrchestrationSafety.CompletedStartUpAnnounces` | src/lark_bot/modules/codex/codex_orchestrator.py:109-116 | A startup that completes announces, exactly once, every session that the tables it found still showed as active. |
| `OrchestrationSafety.RefusedRequestsChangeNothing` | src/lark_bot/modules/codex/codex_orchestrator.py:245-314 | A request is answered with a JSON-RPC error exactly when it leaves no row, no live entry and no notification. |
| `OrchestrationSafety.EndedSessionsStaySilent` | src/lark_bot/modules/codex/codex_store.py:517-557 | Terminal status is absorbing over every run: once a session has ended its row never changes and no later notification names it. |
| `OrchestrationSafety.FirstResponseWins` | src/lark_bot/modules/codex/codex_orchestrator.py:337-392 | Over every run the responder is called at most once per interaction, and then the interaction is resolved or expired. |
| `OrchestrationSafety.LarkAnswerWins` | src/lark_bot/modules/codex/codex_orchestrator.py:337-356 | A Lark answer wins exactly when the interaction is pending and a response can be built from it; then the responder is called once with what the user said and the row records actor, time and decision, a yes as a yes and a no as a no. Otherwise nothing changes. |
| `OrchestrationSafety.TerminalAnswerWins` | src/lark_bot/modules/codex/codex_orchestrator.py:373-392 | The same for an answer from the terminal. |
| `OrchestrationSafety.SettledRowsAreFrozen` | src/lark_bot/modules/codex/codex_store.py:396-412 | Over every run a row that has left pending keeps its status, decision, actor and time for good. |
| `OrchestrationSafety.ReachableTablesAreConsistent` | src/lark_bot/modules/codex/codex_store.py:163-613 | In every reachable state: no pending row in an ended session, a waiting session has a pending row of the right kind, pending request ids are unique, every interaction has its session. |
| `OrchestrationSafety.LiveEntriesArePendingRows` | src/lark_bot/modules/codex/codex_orchestrator.py:307-319 | In every reachable state every pending row is in `_live`, and every `_live` entry repeats its row, which is pending or belongs to a FAILED session. |
| `StaleEntries.StaleExactlyWhenOrphaned` | src/lark_bot/modules/codex/codex_orchestrator.py:184-195 | Over every run, an entry is in `_live` without being pending if and only if some failed startup cancelled its row and neither a "resolved" notice that found it nor a restart has come since. |
| `StaleEntries.StepLeaves` | src/lark_bot/modules/codex/codex_orchestrator.py:184-195 | For every action: a failed startup adds exactly the entries whose rows it cancels, a notice or a restart forgets some, and no other action adds or removes one. |
| `StaleEntries.StaleEntriesArise` | src/lark_bot/modules/codex/codex_orchestrator.py:131-195 | `_live` is not always a subset of pending: a request of a known method that arrives over the thread of a session whose first turn is being started stays behind when that start fails. |
| `StaleEntries.LookupFindsPendingUnlessStale` | src/lark_bot/modules/codex/codex_orchestrator.py:731-743 | Every lookup of the JSON-RPC id of a pending interaction returns that interaction if and only if no entry left behind has the same id. |
| `StaleEntries.StaleLookupLosesTheAnswer` | src/lark_bot/modules/codex/codex_orchestrator.py:368-384 | When the lookup returns an entry left behind, a terminal answer changes nothing and a "resolved" notice changes no table. |
| `StaleEntries.RequestIdNamesOnePendingEntry` | src/lark_bot/modules/codex/codex_orchestrator.py:731-743 | Among the live entries that are not left behind a JSON-RPC id names at most one. |
| `ServerDeath.ServerDeathEndsEverything` | src/lark_bot/modules/codex/codex_orchestrator.py:642-662 | After the app-server died or a consumer failed, no session is active and nothing is pending; each session that was active is interrupted and announced once, and every other session row is as it was. |
| `ServerDeath.InterruptAllIsARun` | src/lark_bot/modules/codex/codex_orchestrator.py:653-655 | That loop is a run of the same state machine. |
| `OrchestrationSafety.DuplicateRequestIsRefused` | src/lark_bot/modules/codex/codex_schema.py:110-111 | For an active session and a fresh interaction id, a request is refused without any change exactly when its request id is pending already (so a settled one is free again); otherwise row, live entry and announcement are all there, with the deadlines set from the clock. |
| `OrchestrationOutcomes.ManagedTurnEndsSession` | src/lark_bot/modules/codex/codex_orchestrator.py:493-504 | The end of the turn of an active managed session ends the session with the status of the turn and its summary, cancels its requests and adds one notification: SESSION_INTERRUPTED for an interrupted turn, SESSION_COMPLETED for any other. |
| `OrchestrationOutcomes.InteractiveTurnEnds` | src/lark_bot/modules/codex/codex_orchestrator.py:472-492 | The end of the current turn of an interactive session leaves it RUNNING without a turn, cancels its requests and adds one TURN_INTERRUPTED or TURN_COMPLETED notification. |
| `OrchestrationOutcomes.OtherTurnEndsAreIgnored` | src/lark_bot/modules/codex/codex_orchestrator.py:457-482 | The end of a turn of no active session, without a final status or of another turn changes nothing. |
| `OrchestrationOutcomes.CancelEndsSession` | src/lark_bot/modules/codex/codex_orchestrator.py:557-571 | Cancelling an active session stores CANCELLED and announces SESSION_COMPLETED. |
| `OrchestrationOutcomes.CloseEndsSession` | src/lark_bot/modules/codex/codex_orchestrator.py:579-601 | Closing an active interactive session stores CANCELLED and announces SESSION_COMPLETED. |
| `OrchestrationOutcomes.InterruptEndsSession` | src/lark_bot/modules/codex/codex_orchestrator.py:690-705 | Interrupting an active session stores INTERRUPTED with the summary and announces SESSION_INTERRUPTED. |
| `OrchestrationOutcomes.RaisedStartupEndsSession` | src/lark_bot/modules/codex/codex_orchestrator.py:184-195 | A startup call that raised stores FAILED and announces SESSION_COMPLETED. |
| `OrchestrationOutcomes.DeadServerFailsThread` | src/lark_bot/modules/codex/codex_orchestrator.py:153-163 | So does a started thread when the app-server is dead or the session no longer waits for it. |
| `OrchestrationOutcomes.DeadServerFailsTurn` | src/lark_bot/modules/codex/codex_orchestrator.py:164-174 | So does a started turn when the app-server is dead. |
| `OrchestrationOutcomes.RaisedResponderEndsSession` | src/lark_bot/modules/codex/codex_orchestrator.py:352-356 | A response that raised stores INTERRUPTED with its error as summary and announces SESSION_INTERRUPTED. |
| `OrchestrationOutcomes.AttemptedInterruptEndsSession` | src/lark_bot/modules/codex/codex_orchestrator.py:526-537 | So does an expired question after the attempt to interrupt its turn. |
| `OrchestrationOutcomes.ManagedSessionIsCreated` | src/lark_bot/modules/codex/codex_orchestrator.py:139-153 | The session is stored as STARTING and its thread is being started. |
| `OrchestrationOutcomes.InteractiveSessionIsCreated` | src/lark_bot/modules/codex/codex_orchestrator.py:197-217 | The session is stored as STARTING and known as interactive. |
| `OrchestrationOutcomes.ThreadIsBound` | src/lark_bot/modules/codex/codex_orchestrator.py:153-164 | A started thread is bound to the session that waits for it, which is RUNNING then, and the turn is started next. |
| `OrchestrationOutcomes.TurnIsBound` | src/lark_bot/modules/codex/codex_orchestrator.py:164-182 | A started turn is bound to its active session and SESSION_STARTED is announced. |
| `OrchestrationOutcomes.InteractiveThreadIsBound` | src/lark_bot/modules/codex/codex_orchestrator.py:219-236 | Thread and turn of an interactive session are bound exactly while it is STARTING and the ids are not empty. |
| `OrchestrationOutcomes.LaterTurnIsBound` | src/lark_bot/modules/codex/codex_orchestrator.py:438-454 | A later turn is bound to the active session of its thread, which is RUNNING then. |
| `OrchestrationOutcomes.MethodsHaveTheirKinds` | src/lark_bot/modules/codex/codex_orchestrator.py:45-50 | Exactly the four methods ask for something, each for its own kind. |
| `OrchestrationOutcomes.RefusalIsExact` | src/lark_bot/modules/codex/codex_orchestrator.py:245-314 | Code -32601 exactly for an unknown method, -32602 exactly when no active session is meant by the request, -32600 exactly when its id is taken, none otherwise. |
| `OrchestrationOutcomes.AcceptedRequestIsStored` | src/lark_bot/modules/codex/codex_orchestrator.py:292-327 | An accepted request is pending under its kind in the session it is for, with its deadline; the session waits for an answer or an approval; the entry is live; one INTERACTION_REQUESTED notification is added. |
| `OrchestrationOutcomes.WithdrawnRequestIsCancelled` | src/lark_bot/modules/codex/codex_orchestrator.py:422-434 | An upstream notice cancels exactly the row it finds, at that time, without an actor or a response. |
| `OrchestrationOutcomes.DeliveredResponseIsAnnounced` | src/lark_bot/modules/codex/codex_orchestrator.py:357-366 | A delivered response adds one INTERACTION_RESOLVED notification with the decision exactly while the session is active. |
| `OrchestrationOutcomes.OverdueApprovalIsDenied` | src/lark_bot/modules/codex/codex_orchestrator.py:513-545 | An overdue approval is recorded as expired by timeout with a decision that is no yes, and denied to the app-server. |
| `OrchestrationOutcomes.OverdueQuestionInterruptsTurn` | src/lark_bot/modules/codex/codex_orchestrator.py:522-531 | An overdue question with a running turn is recorded as expired and the turn is being interrupted. |
| `OrchestrationOutcomes.OverdueQuestionEndsSession` | src/lark_bot/modules/codex/codex_orchestrator.py:522-537 | An overdue question without a turn is recorded as expired and its session ends as INTERRUPTED, with one notification. |
| `OrchestrationOutcomes.NothingElseExpires` | src/lark_bot/modules/codex/codex_orchestrator.py:511-519 | A request that is not due or no longer pending is left alone. |
| `OrchestrationOutcomes.ExternalNoticeIsAdded` | src/lark_bot/modules/codex/codex_store.py:695-728 | A notification from elsewhere in the daemon is added under its tag, due after the configured delay. |
| `Orchestrators.CodexOrchestrator.constructor` | src/lark_bot/modules/codex/codex_orchestrator.py:61-97 | A new orchestrator has no live entries and no suspended calls, over whatever the store holds. |
| `Orchestrators.CodexOrchestrator.Notify` | src/lark_bot/modules/codex/codex_orchestrator.py:745-776 | Appends the one outbox row of the event; nothing else changes. |
| `Orchestrators.CodexOrchestrator.DropLiveForSession` | src/lark_bot/modules/codex/codex_orchestrator.py:707-713 | Removes exactly the live entries of the session. |
| `Orchestrators.CodexOrchestrator.End` | src/lark_bot/modules/codex/codex_orchestrator.py:690-705 | Claims the session for a terminal status and announces it if and only if it was active; a lost claim changes nothing. |
| `Orchestrators.CodexOrchestrator.Start` | src/lark_bot/modules/codex/codex_orchestrator.py:102-116 | A new process reconciles the tables and announces, one by one, each session it interrupted. |
| `Orchestrators.CodexOrchestrator.ServerGone` | src/lark_bot/modules/codex/codex_orchestrator.py:642-662 | The loop over the listed sessions leaves no session active and nothing pending, and announces each session that was active once. |
| `Orchestrators.CodexOrchestrator.StartSession` | src/lark_bot/modules/codex/codex_orchestrator.py:139-153 | Records the session as STARTING and suspends in the thread start; a taken id changes nothing. |
| `Orchestrators.CodexOrchestrator.ThreadReady` | src/lark_bot/modules/codex/codex_orchestrator.py:153-195 | Binds the thread from STARTING only; otherwise the startup fails and the session is claimed FAILED. |
| `Orchestrators.CodexOrchestrator.TurnReady` | src/lark_bot/modules/codex/codex_orchestrator.py:164-195 | Binds the turn of a session that is still active and announces the start; otherwise the startup fails. |
| `Orchestrators.CodexOrchestrator.ReceiveServerRequest` | src/lark_bot/modules/codex/codex_orchestrator.py:238-327 | Accepts a request for an active session it is addressed to; otherwise returns the error code, and that exactly when tables and maps are as they were. |
| `Orchestrators.CodexOrchestrator.AdmitRequest` | src/lark_bot/modules/codex/codex_orchestrator.py:292-327 | Row, live entry and announcement are written together or not at all. |
| `Orchestrators.CodexOrchestrator.AnswerLark` | src/lark_bot/modules/codex/codex_orchestrator.py:329-356 | A payload is handed to the responder only when this call took the row out of pending, and it conveys what the user said; otherwise nothing changes. |
| `Orchestrators.CodexOrchestrator.AnswerTerminal` | src/lark_bot/modules/codex/codex_orchestrator.py:368-392 | Same for the terminal: it wins if and only if the responder is called. |
| `Orchestrators.CodexOrchestrator.ResponderDone` | src/lark_bot/modules/codex/codex_orchestrator.py:357-366 | After the awaited response the resolution is announced only while the session is active. |
| `Orchestrators.CodexOrchestrator.ResponderFailed` | src/lark_bot/modules/codex/codex_orchestrator.py:349-356 | A response that raised interrupts the session, once. |
| `Orchestrators.CodexOrchestrator.RequestResolved` | src/lark_bot/modules/codex/codex_orchestrator.py:422-434 | An upstream "resolved" notice cancels the pending row and forgets the entry. |
| `Orchestrators.CodexOrchestrator.TurnCompletes` | src/lark_bot/modules/codex/codex_orchestrator.py:455-504 | The end of a turn ends a managed session, or finishes the named turn of an interactive one. |
| `Orchestrators.CodexOrchestrator.TurnStarts` | src/lark_bot/modules/codex/codex_orchestrator.py:438-454 | A started turn is bound and sets RUNNING, whatever is pending, only while the session is active. |
| `Orchestrators.CodexOrchestrator.Cancel` | src/lark_bot/modules/codex/codex_orchestrator.py:557-571 | Cancelling wins exactly on an active session, and then drops its live entries and announces the end. |
| `Orchestrators.CodexOrchestrator.CloseInteractive` | src/lark_bot/modules/codex/codex_orchestrator.py:579-601 | Same for closing an interactive session, which is forgotten as interactive in any case. |
| `Orchestrators.CodexOrchestrator.AbandonQuestion` | src/lark_bot/modules/codex/codex_orchestrator.py:522-537 | An expired question ends the session, through an awaited interrupt when there is a running turn. |
| `Orchestrators.CodexOrchestrator.TimeOutEntry` | src/lark_bot/modules/codex/codex_orchestrator.py:515-540 | Settles an overdue row as expired and says what the sweep then awaits; a row that is no longer pending is left alone. |
| `Orchestrators.CodexOrchestrator.ResumeSweep` | src/lark_bot/modules/codex/codex_orchestrator.py:526-554 | Resumes the sweep after the awaited denial or interrupt. |
| `Orchestrators.CodexOrchestrator.SweepEntry` | src/lark_bot/modules/codex/codex_orchestrator.py:506-555 | One turn of the sweep, awaited call included, keeps the invariant, settles the entry if and only if it was due and pending, at most withdraws other rows, and never tells the app-server anything but no. |
| `Orchestrators.CodexOrchestrator.SweepList` | src/lark_bot/modules/codex/codex_orchestrator.py:511-555 | The loop keeps what the sweep promises up to the entries it did not come to. |
| `Orchestrators.CodexOrchestrator.ExpireDueInteractions` | src/lark_bot/modules/codex/codex_orchestrator.py:506-555 | An uninterleaved sweep that returns normally leaves no pending interaction with `expires_at <= now`; what it reports was pending and due and is now settled; every other row that was pending is pending still or cancelled with its session, so a due row is reported or cancelled. |
| `CodexStore.CreateSessionKeeps` | src/lark_bot/modules/codex/codex_store.py:73-95 | Creating a session succeeds exactly for a new id, keeps the tables consistent and leaves every other row as it was. |
| `CodexStore.UpdateSessionIfStatusKeeps` | src/lark_bot/modules/codex/codex_store.py:163-200 | The compare-and-swap on the session status keeps consistency when it expects active statuses and sets RUNNING. |
| `CodexStore.CreateInteractionKeeps` | src/lark_bot/modules/codex/codex_store.py:243-287 | Admission keeps consistency, pending request ids included; a refused row changes nothing. |
| `CodexStore.RefreshedStatusIsJustified` | src/lark_bot/modules/codex/codex_store.py:414-438 | The status recomputed from the pending kinds is an active one, and waits only for something pending of that kind. |
| `CodexStore.ResolveKeeps` | src/lark_bot/modules/codex/codex_store.py:374-438 | Resolving or expiring a row and refreshing its session keeps consistency; a row that is not pending is left alone. |
| `CodexStore.CancelKeeps` | src/lark_bot/modules/codex/codex_store.py:440-495 | Same for cancelling a row. |
| `CodexStore.AttachKeeps` | src/lark_bot/modules/codex/codex_store.py:326-339 | A message id is attached exactly to a pending interaction that has none, and changes nothing else. |
| `CodexStore.ClaimKeeps` | src/lark_bot/modules/codex/codex_store.py:497-557 | Claiming a terminal status wins exactly on active sessions, sets that status, settles and reports every pending row of the session, and keeps consistency; a lost claim changes nothing. |
| `CodexStore.FinishTurnKeeps` | src/lark_bot/modules/codex/codex_store.py:559-613 | Finishing the current turn of a session returns it to RUNNING without a turn, settles its pending rows and keeps consistency; any other turn id changes nothing. |
| `CodexStore.ReconcileKeeps` | src/lark_bot/modules/codex/codex_store.py:803-867 | After startup reconciliation nothing is pending and nothing is active: active sessions are interrupted, pending rows expired, everything else is untouched. |
| `CodexStore.OutboxWritesKeep` | src/lark_bot/modules/codex/codex_store.py:695-801 | The three outbox writes leave sessions and interactions as they are; marking sent and recording a failure take effect exactly on an unsent row. |
| `CodexStore.SQLiteCodexStore.AdmitInteraction` | src/lark_bot/modules/codex/codex_store.py:243-287 | The tables after the call are those of the admission transaction. |
| `CodexStore.SQLiteCodexStore.Resolve` | src/lark_bot/modules/codex/codex_store.py:374-438 | Same for resolve-and-refresh. |
| `CodexStore.SQLiteCodexStore.Cancel` | src/lark_bot/modules/codex/codex_store.py:440-495 | Same for cancel-and-refresh. |
| `CodexStore.SQLiteCodexStore.ClaimTerminal` | src/lark_bot/modules/codex/codex_store.py:497-557 | Same for the terminal claim. |
| `CodexStore.SQLiteCodexStore.FinishTurn` | src/lark_bot/modules/codex/codex_store.py:559-613 | Same for the end of an interactive turn. |
| `CodexStore.SQLiteCodexStore.Reconcile` | src/lark_bot/modules/codex/codex_store.py:803-867 | The two updates bring the tables to rest: nothing is active and nothing pending any more, and the ids returned are exactly those of the sessions that were active, now INTERRUPTED. |
| `CodexStore.SQLiteCodexStore.InterruptActiveSessions` | src/lark_bot/modules/codex/codex_store.py:840-851 | Interrupts exactly the active sessions and stamps them with the time. |
| `CodexStore.SQLiteCodexStore.ExpirePendingInteractions` | src/lark_bot/modules/codex/codex_store.py:852-863 | Expires exactly the pending interactions and stamps them with the time. |
| `CodexStore.SQLiteCodexStore.Create` | src/lark_bot/modules/codex/codex_store.py:73-95 | Same for creating a session. |
| `CodexStore.SQLiteCodexStore.Refresh` | src/lark_bot/modules/codex/codex_store.py:414-438 | Same for the refresh that resolving and cancelling share. |
| `CodexStore.SQLiteCodexStore.Enqueue` | src/lark_bot/modules/codex/codex_store.py:695-728 | Appends the row and returns its position. |
| `CodexStore.SQLiteCodexStore.UpdateIfStatus` | src/lark_bot/modules/codex/codex_store.py:163-200 | Same for the conditional session update. |
| `RequestIds.CanonicalIsInjective` | src/lark_bot/modules/codex/orchestration/orchestration_interaction.py:126-127 | The stored text of a request id tells all integers and strings apart (sections 6 and 7 of RFC 8259). |
| `RequestIds.CanonicalReadsBack` | src/lark_bot/modules/codex/orchestration/orchestration_interaction.py:126-127 | The stored text, read as a JSON string or integer, gives the id back. |
| `RequestIds.EscapeIsInjective` | src/lark_bot/modules/codex/orchestration/orchestration_interaction.py:126-127 | A quoted string tells what it says and where it ends, whatever follows its closing quote. |
| `InteractionCodec.UserInputResponse` | src/lark_bot/modules/codex/app_server/app_server_response.py:29-57 | A response is built exactly when question ids are distinct and non-empty and the answers cover exactly them. |
| `InteractionCodec.ValidateTerminalAnswers` | src/lark_bot/modules/codex/orchestration/orchestration_interaction.py:74-103 | Terminal answers are accepted exactly when they cover the asked ids, each with a list of strings. |
| `InteractionCodec.ResolutionReadsBack` | src/lark_bot/modules/codex/orchestration/orchestration_interaction.py:17-71 | Reading a built response back gives the recorded decision if and only if it does not grant an empty permission object; that one reads as a denial. |
| `InteractionCodec.ResolutionMeansWhatWasSaid` | src/lark_bot/modules/codex/orchestration/orchestration_interaction.py:17-38 | What is sent conveys what the user said: "accept" for a yes and "decline" for a no, the requested permissions or none, each question its own answer; and the recorded decision is a yes exactly for a yes. |
| `InteractionCodec.ResolutionIsBuiltWhenItFits` | src/lark_bot/modules/codex/orchestration/orchestration_interaction.py:23-38 | An answer is refused exactly when it is missing or does not fit the request. |
| `InteractionCodec.TerminalDecisionMeansWhatWasSent` | src/lark_bot/modules/codex/orchestration/orchestration_interaction.py:41-71 | A terminal response is recorded as a yes exactly when it says accept or acceptForSession, or hands out a permission, and refused exactly when it is malformed. |
| `InteractionCodec.DenialsSayNo` | src/lark_bot/modules/codex/orchestration/orchestration_interaction.py:106-123 | A denial says no in what is sent and in what is recorded, and exists for everything but questions and malformed permissions. |
| `InteractionCodec.NormalizeIsExact` | src/lark_bot/modules/codex/codex_store.py:962-975 | Each kind accepts exactly its own yes and no by name; a question accepts everything as submitted. |
| `InteractionCodec.DenialReadsBack` | src/lark_bot/modules/codex/orchestration/orchestration_interaction.py:106-123 | A built denial reads back as the recorded denial. |
| `InteractionCodec.DecisionsAreStorable` | src/lark_bot/modules/codex/codex_store.py:962-975 | Every decision produced is accepted by `_normalize_decision`, so recording it never raises. |
| `CodexGateway.AtMostOneResponse` | src/lark_bot/modules/codex/codex_gateway.py:416-434 | Between start and close at most one arbitrated response per id is sent upstream, over every interleaving of terminal, Lark and error path. |
| `CodexGateway.TerminalResponsesAreSorted` | src/lark_bot/modules/codex/codex_gateway.py:371-386 | A terminal message with an id, no method and a result or an error is held back exactly when its id is intercepted, and else relayed and counted; any other message changes nothing. |
| `CodexGateway.UpstreamRequestsAreIntercepted` | src/lark_bot/modules/codex/codex_gateway.py:246-261 | Exactly the four request methods with an id register that id, and exactly a "resolved" notice with an id marks one as answered. |
| `CodexGateway.FailedSendReopens` | src/lark_bot/modules/codex/codex_gateway.py:421-434 | A failed send leaves the id open, and the next sender wins. |
| `CodexGateway.AnswersAreBounded` | src/lark_bot/modules/codex/codex_gateway.py:371-386 | Once an id is intercepted, every continuation sends at most one arbitrated response plus the terminal messages already being relayed. |
| `CodexGateway.BoundIsReached` | src/lark_bot/modules/codex/codex_gateway.py:371-386 | That bound is exact: some continuation reaches it. |
| `CodexGateway.OneResponseUnlessRelayedEarly` | src/lark_bot/modules/codex/codex_gateway.py:243-266 | From interception on an id gets at most one response in every continuation if and only if no terminal message with that id was still being relayed. |
| `CodexGateway.RelaysOnlyStartBeforeInterception` | src/lark_bot/modules/codex/codex_gateway.py:355-386 | A terminal response to an intercepted id is never relayed as it is. |
| `CodexGateway.NoticeClosesUnlessSending` | src/lark_bot/modules/codex/codex_gateway.py:256-261 | After an upstream "resolved" notice no continuation sends a response to its id if and only if no send of it was in flight when the notice came. |
| `CodexGateway.FailedSendUndoesNotice` | src/lark_bot/modules/codex/codex_gateway.py:427-433 | A notice that arrives during a send of its id is undone when that send fails: the id is open again and the next sender wins. |
| `CodexGateway.ClosedIdStaysClosed` | src/lark_bot/modules/codex/codex_gateway.py:420-425 | An id that is closed while no send of it is in flight gets no response in any continuation. |
| `CodexGateway.Gateway.HandleUpstreamMessage` | src/lark_bot/modules/codex/codex_gateway.py:243-266 | An intercepted request registers its id; a "resolved" notice marks the id it names as answered. |
| `CodexGateway.Gateway.HandleTerminalMessage` | src/lark_bot/modules/codex/codex_gateway.py:355-386 | Tells apart answers to intercepted ids, which are arbitrated, from messages that are relayed. |
| `CodexGateway.Gateway.BeginRespond` | src/lark_bot/modules/codex/codex_gateway.py:416-426 | Under the response lock exactly the first caller for an open id sends. |
| `CodexGateway.Gateway.EndRespond` | src/lark_bot/modules/codex/codex_gateway.py:426-434 | A returned send wins; a raised one gives the id back. |
| `AppServerClient.LifecycleMovesForward` | src/lark_bot/modules/codex/app_server/app_server_client.py:150-200 | Over every run the lifecycle never moves back in NEW < STARTING < RUNNING < CLOSING < CLOSED, and the first terminal error, the closing error and the outcome of a settled request are kept. |
| `AppServerClient.ClosingIsQuiet` | src/lark_bot/modules/codex/app_server/app_server_client.py:256-270 | From CLOSING on, in every continuation: never RUNNING again, every pending future is settled, one cleanup task exists, nothing is written to stdin and no request is registered. |
| `AppServerClient.WritesOnlyWhileOpen` | src/lark_bot/modules/codex/app_server/app_server_client.py:352-388 | Over every run stdin is written only in STARTING or RUNNING, and CLOSED is reached only after the startup task has ended. |
| `AppServerClient.UndisturbedStartupRuns` | src/lark_bot/modules/codex/app_server/app_server_client.py:289-333 | A startup that nothing disturbs ends in RUNNING after writing twice. |
| `AppServerClient.ResponseSettlesItsRequest` | src/lark_bot/modules/codex/app_server/app_server_client.py:453-470 | A response settles the waiting request of its id with its own outcome, and nothing else. |
| `AppServerClient.OpenedRequestWaits` | src/lark_bot/modules/codex/app_server/app_server_client.py:178-182 | Over every run a request on a running client waits under an id that none before it had. |
| `AppServerClient.FirstErrorIsRecorded` | src/lark_bot/modules/codex/app_server/app_server_client.py:514-523 | Over every run the first error of an open client becomes its terminal error, begins the closing and fails exactly what is waiting. |
| `AppServerClient.ExitedProcessFailsStartup` | src/lark_bot/modules/codex/app_server/app_server_client.py:644-648 | Over every run a process found dead before initialize fails the startup with that as terminal error. |
| `AppServerClient.RaisedStartupIsRecorded` | src/lark_bot/modules/codex/app_server/app_server_client.py:334-337 | Over every run a startup that raises is over and its error recorded, unless the client was closed on purpose. |
| `AppServerClient.CloseFailsRequests` | src/lark_bot/modules/codex/app_server/app_server_client.py:256-268 | Closing fails exactly what is waiting, with the error that closed the client before or else as closed. |
| `AppServerClient.CleanupReachesTheEnd` | src/lark_bot/modules/codex/app_server/app_server_client.py:533-556 | Over every run a closing client whose startup is over is CLOSED by the cleanup. |
| `AppServerClient.ApplyKeeps` | src/lark_bot/modules/codex/app_server/app_server_client.py:514-556 | Every step keeps the invariant behind these results. |
| `AppServerClient.Client.FailAll` | src/lark_bot/modules/codex/app_server/app_server_client.py:625-628 | Fails exactly the waiting futures and leaves settled ones alone. |
| `AppServerClient.Client.Record` | src/lark_bot/modules/codex/app_server/app_server_client.py:514-523 | Keeps the first terminal error, fails what is pending and starts the one cleanup task; nothing after an explicit close. |
| `AppServerClient.Client.Shut` | src/lark_bot/modules/codex/app_server/app_server_client.py:256-268 | Closing settles every pending future with the closing error that was there first. |
| `AppServerClient.Client.Begin` | src/lark_bot/modules/codex/app_server/app_server_client.py:150-162 | The first start, and only it, starts the startup task; never once closing has begun. |
| `AppServerClient.Client.OpenRequest` | src/lark_bot/modules/codex/app_server/app_server_client.py:172-182 | A request is registered under a fresh id only while the client is available. |
| `AppServerClient.Client.HandleResponse` | src/lark_bot/modules/codex/app_server/app_server_client.py:445-470 | A response settles exactly a waiting future of its id. |
| `AppServerClient.Client.LeaveRequest` | src/lark_bot/modules/codex/app_server/app_server_client.py:199-200 | A request that ends removes its future. |
| `AppServerClient.Client.StartupFails` | src/lark_bot/modules/codex/app_server/app_server_client.py:334-337 | A startup that raised records its error unless the client was closed on purpose. |
| `AppServerClient.Client.InitializeDone` | src/lark_bot/modules/codex/app_server/app_server_client.py:315-329 | After the initialize answer the startup goes on only if closing has not begun. |
| `AppServerClient.Client.ProcessSpawned` | src/lark_bot/modules/codex/app_server/app_server_client.py:289-325 | After the spawn the startup goes on only if closing has not begun and the process is up. |
| `AppServerClient.Client.HandshakeDone` | src/lark_bot/modules/codex/app_server/app_server_client.py:326-337 | RUNNING is entered only if closing has not begun. |
| `AppServerClient.Client.WriteMessage` | src/lark_bot/modules/codex/app_server/app_server_client.py:375-388 | The write happens only in STARTING (by the startup) or RUNNING. |
| `AppServerClient.Client.CleanUp` | src/lark_bot/modules/codex/app_server/app_server_client.py:533-556 | Cleanup ends in CLOSED without a process. |
| `AppServerStderr.DrainStderr` | src/lark_bot/modules/codex/app_server/app_server_client.py:472-503 | The entries are those of the whole byte stream up to its end, however it is cut into chunks, and the tail is the last k of them. |
| `AppServerStderr.EntriesAreLines` | src/lark_bot/modules/codex/app_server/app_server_client.py:484-503 | Each entry is the first 4096 bytes of its line, marked as truncated exactly if the line is longer; a final empty line has no entry. |
| `AppServerStderr.SplitMeansLines` | src/lark_bot/modules/codex/app_server/app_server_client.py:484-494 | The lines of the specification hold no newline and joined by newlines give the stream back. |
| `AppServerStderr.SplitConcat` | src/lark_bot/modules/codex/app_server/app_server_client.py:484-494 | Splitting a concatenation continues the last line of the first part. |
| `MarkdownFences.UnclosedFence` | src/lark_bot/modules/lark/lark_render.py:341-351 | The scanning loop computes the fence a text leaves open. |
| `MarkdownFences.ScanTakesTheLines` | src/lark_bot/modules/lark/lark_render.py:341-351 | A text is read line by line, each line from the fence the lines before it left open. |
| `MarkdownFences.FenceLinesOpen` | src/lark_bot/modules/lark/lark_render.py:268-273 | A line opens a fence exactly when it has at most three spaces and then three or more backticks or tildes. |
| `MarkdownFences.FenceLinesClose` | src/lark_bot/modules/lark/lark_render.py:276-288 | A line closes a fence exactly when it is a fence line of the same marker, at least as long, with nothing but white space after it; any other line leaves it open. |
| `TextLines.LinesAreTheText` | src/lark_bot/modules/lark/lark_render.py:343-343 | Lines put together give the text back, each but the last ends in its only break, and no CR LF is torn apart. |
| `MarkdownFences.FenceShrinks` | src/lark_bot/modules/lark/lark_render.py:319-338 | Cutting a text by at most the length of the closing line for its open fence leaves open the same kind of fence, no longer than before, or none; so the fence computed on the shorter prefix fits the room reserved for the first. |
| `MarkdownFences.TruncationFits` | src/lark_bot/modules/lark/lark_render.py:319-338 | For every text and every limit the result has at most `limit` characters. |
| `MarkdownFences.TruncationKeeps` | src/lark_bot/modules/lark/lark_render.py:319-329 | A text that fits is returned as it is; one that does not is cut to `limit` characters when there is no room for ellipsis or closing fence, and else before the ellipsis. |
| `MarkdownFences.TruncationLeavesRoom` | src/lark_bot/modules/lark/lark_render.py:324-338 | With a fence open at the cut and room to close it, the text is cut earlier by the length of the closing line, and ellipsis and at most such a line follow. |
| `MarkdownFences.TruncationLeavesOpen` | src/lark_bot/modules/lark/lark_render.py:324-338 | When text is cut and there is room, the result leaves a fence open if and only if the kept prefix ends in a closing-fence line without a line break; where a closing fence is appended the result is closed. |
| `MarkdownFences.TruncationMayReopen` | src/lark_bot/modules/lark/lark_render.py:324-338 | The failing family reaches every limit from 10 on: a closed block cut right after its closing fence is reopened. |
| `TextLines.LastLineIsLast` | src/lark_bot/modules/lark/lark_render.py:343-343 | The last line of that condition is the last of the lines the scanner reads. |
| `MarkdownFences.ClosingFenceCloses` | src/lark_bot/modules/lark/lark_render.py:276-288 | The appended fence line closes the open fence, whatever the text before it. |
| `MarkdownFences.EllipsisScan` | src/lark_bot/modules/lark/lark_render.py:330-338 | Appending the ellipsis changes the open fence exactly when it spoils a closing line. |
| `LarkMentions.NeutralizeLarkMentions` | src/lark_bot/modules/lark/lark_render.py:204-219 | The loop over lines writes every character of the text once and in order, angle brackets of mention tags as entities. |
| `LarkMentions.NeutralizeInlineMentions` | src/lark_bot/modules/lark/lark_render.py:222-249 | The loop over code spans covers the line once and in order. |
| `LarkMentions.IsEscaped` | src/lark_bot/modules/lark/lark_render.py:252-258 | Counts the backslashes before an index: odd means escaped. |
| `LarkMentions.NeutralizingKeepsFences` | src/lark_bot/modules/lark/lark_render.py:204-219 | Neutralising keeps block structure: it leaves open exactly the fence the text leaves open. |
| `LarkMentions.LinesAreKept` | src/lark_bot/modules/lark/lark_render.py:204-219 | Same number of lines in the same order, each the rewriting of its own line; fence lines and lines inside a fence are written as they were read. |
| `LarkMentions.CodeSpansAreUnmarked` | src/lark_bot/modules/lark/lark_render.py:222-249 | Matched inline code spans are unchanged. |
| `LarkMentions.MarksAreAngles` | src/lark_bot/modules/lark/lark_render.py:261-265 | Nothing but angle brackets is ever rewritten. |
| `LarkMentions.TagMarksAreExact` | src/lark_bot/modules/lark/lark_render.py:261-265 | Exactly the two brackets of each at-tag are escaped. |
| `LarkMentions.TagLengthIsExact` | src/lark_bot/modules/lark/lark_render.py:22-22 | An at-tag is found exactly where the text has one: optional slash, "at" in any case, then nothing or white space and no angle bracket. |
| `LarkMentions.EntitiesStandForBrackets` | src/lark_bot/modules/lark/lark_render.py:263-263 | A bracket is written as the character reference that stands for it. |
| `LarkMentions.RunsAreExact` | src/lark_bot/modules/lark/lark_render.py:223-227 | The backtick runs are the maximal ones whose first backtick is not escaped. |
| `LarkMentions.CodeSpansAreExact` | src/lark_bot/modules/lark/lark_render.py:231-247 | Each code span begins at the first run after the one before it and ends with the first later run of the same length; after the last one nothing is closed. |
| `LarkMentions.MarksAroundAreTagMarks` | src/lark_bot/modules/lark/lark_render.py:244-248 | Outside code spans the text is escaped by its at-tags, inside not at all. |
| `LarkMentions.MarksOfGap` | src/lark_bot/modules/lark/lark_render.py:244-248 | The text between two code spans is escaped for itself. |
| `AgentSessions.OneOperationPerSession` | src/lark_bot/modules/agent/agent_service.py:27-49 | Over every run of any number of tasks, cancellation included, at most one operation per session id runs, and all tasks in flight for it share the lock object the table holds. |
| `AgentSessions.TableCountsTasksInFlight` | src/lark_bot/modules/agent/agent_service.py:36-49 | The table has an entry for a session exactly when a task is in flight for it, its user count is the number of those tasks, and with none in flight the table is empty. |
| `AgentSessions.WaitsOnlyForItsOwnSession` | src/lark_bot/modules/agent/agent_service.py:42-44 | A waiting task finds its lock free exactly when no task of its own session runs. |
| `AgentSessions.LastUserFindsItUnlocked` | src/lark_bot/modules/agent/agent_service.py:46-49 | The last user finds the lock free, so its entry is always removed. |
| `AgentSessions.CallWaits` | src/lark_bot/modules/agent/agent_service.py:36-41 | Over every run a call waits on the lock object the table has for its session, or on a new one. |
| `AgentSessions.StepsMoveTheTask` | src/lark_bot/modules/agent/agent_service.py:42-49 | Over every run a free lock is taken, a finished operation frees it, and a task that left is gone. |
| `AgentSessions.UndisturbedCallCompletes` | src/lark_bot/modules/agent/agent_service.py:27-49 | A call that nothing disturbs runs its operation and leaves the table empty. |
| `AgentSessions.AgentSessionService.EnterSession` | src/lark_bot/modules/agent/agent_service.py:34-41 | Refuses the empty id; otherwise finds or creates the lock object and counts the user. |
| `AgentSessions.AgentSessionService.TryLock` | src/lark_bot/modules/agent/agent_service.py:43-43 | Takes the lock exactly when it is free. |
| `AgentSessions.AgentSessionService.Unlock` | src/lark_bot/modules/agent/agent_service.py:43-45 | Gives the lock back when the operation is over. |
| `AgentSessions.AgentSessionService.LeaveSession` | src/lark_bot/modules/agent/agent_service.py:45-49 | Uncounts the user and removes the entry with the last one. |
| `Timestamps.TextOrderIsTimeOrder` | src/lark_bot/modules/codex/codex_mapper.py:88-93 | The text order of serialized UTC timestamps is the order of the instants, although microseconds are omitted when zero (section 5.1 of RFC 3339 assumes equal fractions). |
| `Timestamps.SerializedDateReadsBack` | src/lark_bot/modules/codex/codex_mapper.py:75-93 | The text has the form YYYY-MM-DDTHH:MM:SS, six digits of fraction unless zero, and the offset of UTC, and reads back as the date it was made of. |
| `Timestamps.DateIsExact` | src/lark_bot/modules/codex/codex_mapper.py:88-93 | Every instant of the years 1 to 9999 has the date computed for it. |
| `Timestamps.DaysBeforeYearInClosedForm` | src/lark_bot/modules/codex/codex_mapper.py:88-93 | The calendar behind these dates is the Gregorian one: the days before a year follow its closed formula. |
| `Timestamps.DaysBeforeMonthInClosedForm` | src/lark_bot/modules/codex/codex_mapper.py:88-93 | The days before a month follow the closed formula for month lengths. |
| `Timestamps.StampOrder` | src/lark_bot/modules/codex/codex_mapper.py:88-93 | Stamps are equal exactly for equal instants and ordered as the instants. |
| `OutboxQueue.DueQueryIsExact` | src/lark_bot/modules/codex/codex_store.py:738-757 | The text query returns unsent rows due by `now`, in time order and each once, and leaves a due row out only when `limit` earlier ones fill the answer. |
| `OutboxQueue.AnswerIsUnique` | src/lark_bot/modules/codex/codex_store.py:745-757 | Only one list satisfies that description. |
| `OutboxWorkers.DelaysGrowAndAreCapped` | src/lark_bot/server/daemon/app.py:151-151 | Delays never shrink, never exceed 300 seconds, and are constant from the tenth failure on. |
| `OutboxWorkers.DelaysDouble` | src/lark_bot/server/daemon/app.py:151-151 | The delay is twice the poll interval after the first failure and doubles with each further one up to the tenth, below 300 seconds. |
| `OutboxWorkers.RetriesBackOff` | src/lark_bot/server/daemon/app.py:138-152 | Over every run an attempt on a row starts no earlier than its first due time plus the delays of all its failures so far, and nothing happens to a row after it was sent. |
| `OutboxWorkers.FailedSendIsPutOff` | src/lark_bot/server/daemon/app.py:150-152 | Over every run a failed send puts the row off to exactly the clock plus the delay of that failure, counts it and notes the error. |
| `OutboxWorkers.ReturnedSendIsRecorded` | src/lark_bot/server/daemon/app.py:144-147 | Over every run a send that returned marks its row sent at that time and gives the pending interaction it is about the message id, if it has none yet. |
| `OutboxWorkers.RoundListsDueRows` | src/lark_bot/server/daemon/app.py:141-141 | Over every run a round takes up the rows due by the clock, at most fifty, earliest first. |
| `OutboxWorkers.EnqueuedRowIsAdded` | src/lark_bot/modules/codex/codex_store.py:695-728 | A row that is enqueued is added last, first due when it says. |
| `OutboxWorkers.RowsRecordTheirHistory` | src/lark_bot/modules/codex/codex_store.py:759-801 | Over every run `attempt_count` is the number of failures, the next attempt lies at least their delays after the first due time, and a row is sent exactly when a send succeeded; then no query lists it. |
| `OutboxWorkers.SentRowsAreFinal` | src/lark_bot/modules/codex/codex_store.py:759-777 | Over every run a sent row never changes again. |
| `OutboxWorkers.OutboxWorker.Round` | src/lark_bot/server/daemon/app.py:141-152 | One round does what its actions do, attempts every listed item once and keeps the invariant. |
| `OutboxWorkers.OutboxWorker.MarkSent` | src/lark_bot/server/daemon/app.py:145-147 | A delivered item is attached to its interaction and marked sent. |
| `OutboxWorkers.OutboxWorker.PutOff` | src/lark_bot/server/daemon/app.py:150-152 | A failed attempt is counted and put off by its delay. |
| `LarkAnswers.ParseAnswers` | src/lark_bot/modules/lark/lark_router.py:119-138 | The parser returns the answers the reply reads as, and refuses exactly the texts that read as none. |
| `LarkAnswers.ReplyIsUnique` | src/lark_bot/modules/lark/lark_router.py:119-138 | A text reads as at most one set of answers. |
| `LarkAnswers.NamedQuestionsWereAsked` | src/lark_bot/modules/lark/lark_router.py:129-134 | Exactly the numbers from 1 on and the ids name a question, and always one that was asked. |
| `LarkAnswers.IdsNameTheirQuestions` | src/lark_bot/modules/lark/lark_router.py:129-134 | An id names its own question unless it reads as the number of another one. |
| `LarkAnswers.LinesAreReadAtTheColon` | src/lark_bot/modules/lark/lark_router.py:126-137 | A line gives what follows its first colon, stripped, to the question named before it. |
| `LarkAnswers.StripLeavesTheCore` | src/lark_bot/modules/lark/lark_router.py:128-128 | Stripping takes away the white space at both ends, all of it and nothing else. |
| `LarkAnswers.ReplyReadsBack` | src/lark_bot/modules/lark/lark_router.py:124-138 | Lines naming each question once, by number or id, in any order, with trimmed one-line answers, read as exactly those answers. |
| `LarkAnswers.NumberedReplyReadsBack` | src/lark_bot/modules/lark/lark_router.py:124-138 | For two or more distinct ids, any ordering of lines "<i>: <answer>" reads as exactly that map. |
| `LarkAnswers.RepliesAreAnswered` | src/lark_bot/modules/codex/app_server/app_server_response.py:29-57 | Answers that were read are total on the ids, and a response is built from them if and only if no two questions share an id. |

## Left out

- AppServerClient.Client.CleanUp: does not model cancelling and awaiting the background, drain and write tasks; cleanup is the two steps that other code can see, releasing the process and marking the client closed.
- AppServerStderr.DrainStderr: does not model UTF-8 decoding, removal of a trailing carriage return and redaction of an entry; an entry is its bytes and the truncation flag.
- LarkAnswers.ParseAnswers: does not model digits outside ASCII, for some of which the original's number conversion raises.
- RequestIds.CanonicalIsInjective: does not model lone surrogates in strings.
- Timestamps.TextOrderIsTimeOrder: does not model conversion from other time zones; values are in UTC.
- OutboxWorkers.OutboxWorker.Round: does not model floating-point seconds; poll and delays are whole microseconds, and the clock stays five minutes short of the year 10000, where adding a delay would raise.
- Orchestrators.CodexOrchestrator.ExpireDueInteractions: does not model the order of the sweep or of the returned ids; both are sets.
- CodexStore.SQLiteCodexStore.ClaimTerminal: does not model the order of the returned interaction ids.
- CodexStore.SQLiteCodexStore.FinishTurn: does not model the order of the returned interaction ids.
- CodexStore.SQLiteCodexStore.Reconcile: does not model the order of the returned session ids, nor return the interaction ids, which no caller uses.
- Orchestrators.CodexOrchestrator.ServerGone: does not model closing the app-server and stopping the other consumers after a consumer failed.
- AgentSessions.WaitsOnlyForItsOwnSession: does not model the order in which waiting tasks get a free lock.
- Lookups by thread id or request id that match several rows or entries are any choice among them, not the first in storage order.
- The event queue that wakes the outbox worker, the cache of final texts and the summaries' wording do not matter to the results; redaction keeps only its length cap, and a summary is the text itself.
- Database errors other than a violated key or index, and the connection handling behind a transaction.
- WebSocket, subprocess, HTTP and FastAPI plumbing: each call is a step that returns or raises.
- Cancellation of gateway callbacks at close, the terminal's connection itself and turn observation in the gateway.
- The server-request and notification queues of the client and their capacity, and parsing of JSON.
- Routing of Lark events by chat type and emoji, event deduplication and the words for yes and no: each is one short case distinction.
- Rendering of cards apart from truncation and neutralising; whether a mention tag can survive neutralising is not claimed.
- Audit rows, schema migrations apart from the index on pending request ids, unconditional store writes.
- Agent adapters, hooks, command-line scanning, token checks and the probe.
