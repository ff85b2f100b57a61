# Verified models of the concurrent parts of AgentsCommander

A desktop shell for AI coding agents has a few small pieces that are hard to get
right: a quit that asks every window for consent, a web server that is started,
stopped and drained under a global shutdown, a cache whose probes hold exclusive
tickets, a list that re-sorts itself under the user's cursor. This project models
them in Dafny and proves what they promise over every run.

`dafny verify dfyconfig.toml` checks everything.

## How the models are built

Code that changes things step by step appears twice. A *rules* module holds each
critical section (or each handler between two awaits) as a function on values,
and a class with the program's own fields holds the same section as a method
that updates them in place; the method's contract says that it computes that
function. A *runs* module then lets any number of tasks interleave these
sections, one lock acquisition, notification, timer or message at a time, and
keeps a log of what happened. `Legal` (or `Permits`) says when an event may
follow a history, an invariant ties state, program counters and log, one lemma
per kind of step shows that it is kept, and the *theorems* module reads the
promises off the log of an arbitrary reachable state. The *responses* modules say
what each request, message or click does there, in terms of the state alone.

| files | what they model |
|---|---|
| `quit_rules`, `quit_gate`, `quit_runs`, `quit_invariant`, `quit_theorems`, `quit_losses` | the consent round of the quit gate: epochs, answers, the pausable 30-second budget, force, the waiter and its guard; and what it can lose |
| `quit_ui_rules`, `quit_ui`, `quit_ui_runs`, `quit_ui_invariant`, `quit_ui_theorems`, `quit_ui_responses` | the main window's half of the quit: attempts, binding an epoch, grace and force timers, offer and dialog |
| `quit_handshake`, `quit_handshake_invariant`, `quit_handshake_theorems` | both halves together, with messages between them delayed, reordered, repeated or lost |
| `server_rules`, `web_server`, `server_runs`, `server_invariant`, `server_theorems`, `server_responses` | generations of the web server, their admission gates, supervisors and WebSocket connections |
| `install_rules`, `install_cache`, `install_runs` | the install-state cache with exclusive probe tickets |
| `group_order`, `pinned_rows`, `pinned_theorems` | the comparator of the resource monitor and rows that stay where they were opened |
| `hover`, `hover_trace`, `hover_events` | emulated hover: enter and leave events as bracket words, over and out events, related elements |
| `error_sink`, `error_sink_runs`, `type_id` | the error sink's queue and permit, and its collision-free type ids |
| `desktop_entry` | quoting for a freedesktop desktop entry, with a reader written from the Desktop Entry Specification (sections "The Exec key" and "Possible value types") |
| `backoff` | retry delays with deterministic jitter |

## What the proofs found

- **A consented exit can be lost, in two ways.** The gate keeps one terminal
  slot, and only a task that reads it, or has read it, claims the exit. If a
  second quit ends after every window consented to the first one, but before the
  first waiter has read the slot, that waiter parks for good
  (`QuitLosses.ExitCanBeLost`); one close of the main window is enough to cause
  it, when its first invocation is rejected on the way back
  (`QuitHandshakeTheorems.WindowCanLoseExit`). And if the waiter's task is
  dropped between the last consent and its read of the slot, its guard finds
  nothing to abort and nobody is left to claim (`DeadWaiterLosesExit`). There is
  no third way: `ExitReachableIff` says that a decided exit not yet carried out
  still can be exactly if no later round has ended and some task holds the round.
- **A start can report a result its round never had.** A start whose event could
  not be delivered reads the slot after its own abort. If a later round has ended
  by then, it reports a bare "cancelled" whatever became of its round
  (`StartCanMisreport`); `LostStartIsTruthfulIff` says when the report is true.
- **A start can be cancelled after a success.** A start request that meets a
  stopping server is answered as cancelled, also if that server ran and its own
  start had succeeded (`ErrorAfterSuccess`); the answer speaks of the new request.
  Success at once never contradicts the published result (`StartAnswerAgrees`).
- **TryExec and Icon do not always read back.** Spaces after the equals sign are
  skipped by a reader, and the writer does not escape a leading one: the values
  read back if and only if the path does not begin with a space. The installer
  passes absolute paths only, so this concerns other callers of `entryText`. The
  Exec line always reads back, as its value begins with a quote.
- **Readers can hide a fresh entry from each other.** A lookup evicts an entry
  that is too old *for its own* instant, so a reader with an earlier instant or a
  longer ttl then misses it (`UnsteadyReadersCanMiss`). `FreshExactly` holds for
  one ttl and instants that never go back; `ServedIffHeld` gives the exact
  condition for all callers.
- **A pin does not always land on its recorded index** once the list has shrunk
  (`PinCanMiss`); `PinsLand` says where it lands instead, and `PinLandsIff` and
  `AllLandIff` when it lands exactly.
- **The backoff's one unchecked sum** can exceed 64 bits (`SumCanOverflow`), but
  only for a maximum of at least four fifths of the range.

## Reading the models

- Time is a natural number; a mutex is an atomic step that is never poisoned.
  `on_timeout` checks under one lock and aborts under a second, so it is two
  steps; `notify_waiters` is a step of its own after the lock is released.
- In the quit gate, lists that the program builds from an ordered set or sorts are
  sets of labels. A failed delivery of the start event is an input of the model.
- In the main window an `await` of a promise that is already settled continues in
  the same step, as the job queue of JavaScript runs it before any other event;
  every other `await` ends a step. Timers and messages come in any order. An
  event of the backend that names an attempt comes only after that attempt was
  sent; otherwise payloads are arbitrary. With both halves together, each call
  that starts the gate belongs to one attempt, and results and start events reach
  the attempt that opened the round. A number that is not a safe
  non-negative integer, or a missing payload, is an epoch that is not live.
- In the web server the global shutdown flag is read several times without a lock;
  a section takes one value per reading, and the flag never falls.
- In the resource monitor one poll has pairwise distinct session ids, which is
  what makes them keys of the pin map; texts are sequences of UTF-16 code units,
  and a metric is either a known real number or unknown.
- A Force whose reply is awaited may be answered late or never; the window's
  handler then finds its round ended or still waiting.

## Model

| member | source | states |
|---|---|---|
| `QuitTheorems.ExitMeansConsent` | src-tauri/src/quit_gate.rs:367-376 | At the instant a round ends as an unforced exit, every window of the snapshot it asked has answered consent for that epoch, and every window registered then is in that snapshot. |
| `QuitTheorems.OneDecision` | src-tauri/src/quit_gate.rs:268-278 | Whatever interleaving of waiter, force, timeout, teardown and guard drop: an epoch has at most one terminal outcome, and what the waiter loop returns is that one. |
| `QuitTheorems.TerminalEpochsIncrease` | src-tauri/src/quit_gate.rs:268-278 | The epochs of terminal outcomes strictly increase over every run. |
| `QuitTheorems.OneExit` | src-tauri/src/quit_gate.rs:387-402 | The process exit is claimed at most once per epoch, and only after that epoch ended as an exit. |
| `QuitTheorems.CancelledOnce` | src-tauri/src/quit_gate.rs:326-364 | An aborted round has exactly one caller that is handed its cancellation, in the very next event, naming exactly the windows the round had asked. |
| `QuitTheorems.TimeoutAfterBudget` | src-tauri/src/quit_gate.rs:553-571 | A timeout abort was preceded by a check of that round which found no busy window and at least 30 s of unpaused time, however often the round was paused in between. |
| `QuitTheorems.BudgetConserved` | src-tauri/src/quit_gate.rs:281-291 | In every reachable live round busy windows are unanswered ones, a deadline is set exactly while none is busy, and unpaused time plus time left is 30 s until nothing is left. |
| `QuitTheorems.SpentBudgetAborts` | src-tauri/src/quit_gate.rs:553-571 | A waiter woken by its timer to a live round with no busy window and 30 s of unpaused time ends it in its own next two steps, as a timeout naming exactly the unanswered windows and telling exactly the asked ones. |
| `QuitTheorems.TimerFiresIff` | src-tauri/src/quit_gate.rs:795-806 | A parked waiter with a true view of a live round can be woken by its timer if and only if no window is busy and 30 s of unpaused time have passed. |
| `QuitTheorems.RegisteredExactly` | src-tauri/src/quit_gate.rs:408-479 | In every reachable state a window is registered if and only if it registered, while no round was live, and was not torn down since; and every round asked exactly those registered at some moment of the run. |
| `QuitTheorems.StartAsksRegistered` | src-tauri/src/quit_gate.rs:666-692 | A start opens the next epoch and asks, and waits for, exactly the registered windows. |
| `QuitTheorems.ForceNeedsEpoch` | src-tauri/src/quit_gate.rs:635-640 | A Force that names no epoch changes nothing in any reachable state. |
| `QuitTheorems.NoLostWakeup` | src-tauri/src/quit_gate.rs:778-808 | A parked waiter that was not signalled since it enrolled, with no task owing a notification, still sees the true terminal and deadline view of its epoch; a live round without a deadline then has a busy window. |
| `QuitTheorems.StrandedIffOverwritten` | src-tauri/src/quit_gate.rs:259-264 | Such a parked waiter sits on a finished round if and only if a later round has ended as well and taken the single terminal slot; it then has no timer either. |
| `QuitTheorems.ExitClaimableIff` | src-tauri/src/quit_gate.rs:387-402 | The claim of a decided exit would still be granted if and only if it was not granted yet and no later round has ended. |
| `QuitTheorems.LostForever` | src-tauri/src/quit_gate.rs:259-278 | Once a later round has ended, an unclaimed exit is never claimed in any continuation. |
| `QuitLosses.ExitReachableIff` | src-tauri/src/quit_gate.rs:387-402 | A decided exit is carried out in some continuation if and only if it was carried out already, or no later round has ended and some task still holds the round: an armed waiter, one that has read the exit, or the caller of Force. |
| `QuitLosses.DeadWaiterLosesExit` | src-tauri/src/quit_gate.rs:624-632 | A concrete run: the one asked window consents, then the waiter dies before it reads the slot; its guard aborts nothing, no later round exists, and no continuation ever exits. |
| `QuitLosses.ExitCanBeLost` | src-tauri/src/quit_gate.rs:696-815 | A concrete run: the one asked window consents to round 1 and refuses round 2 before the first waiter has read the slot; the waiter parks with nothing to wake it, and no continuation ever exits for round 1. |
| `QuitLosses.LostStartIsTruthfulIff` | src-tauri/src/quit_gate.rs:749-760 | A start that could not be announced reports its round's own outcome if and only if no later round had ended when it read the slot, or the round ended as a bare cancel; otherwise it reports a bare cancel. |
| `QuitLosses.StartCanMisreport` | src-tauri/src/quit_gate.rs:749-760 | A concrete run: a start reports a bare cancel of a round that ended because its window was destroyed. |
| `QuitInvariant.StepInv` | src-tauri/src/quit_gate.rs:435-815 | Every critical section, notification, waiter read, wake-up, timeout and guard drop keeps the invariant that ties the guarded value, all program counters and the log. |
| `QuitInvariant.ReachableInv` | src-tauri/src/quit_gate.rs:435-815 | The invariant holds after every run, with any number of tasks. |
| `QuitRules.AbortKeeps` | src-tauri/src/quit_gate.rs:335-364 | An abort acts on the live epoch only, writes the terminal slot once, asks for a wake-up, and its outcome carries the reason, naming all unanswered windows when that is a timeout. |
| `QuitRules.FinalizeConsentKeeps` | src-tauri/src/quit_gate.rs:367-384 | A round is finalized as an exit if and only if no answer is pending. |
| `QuitRules.SettleKeeps` | src-tauri/src/quit_gate.rs:281-285 | Settling a window keeps the budget and leaves a round that does not wait for it as it was. |
| `QuitRules.TeardownKeeps` | src-tauri/src/quit_gate.rs:435-479 | A window that goes away is unregistered; the round is aborted exactly if it still waited for that window, which the outcome then names as unanswered. |
| `QuitRules.ResolveKeeps` | src-tauri/src/quit_gate.rs:482-528 | A refusal that counts cancels the round and is named as the refusing window; a consent that counts ends it if it was the last and removes just that window otherwise; anything else changes nothing. |
| `QuitRules.ProgressKeeps` | src-tauri/src/quit_gate.rs:532-550 | Busy and idle reports mark just that window, stop and restart the clock without losing budget and change no answer; a report that does not count changes nothing. |
| `QuitRules.ForceKeeps` | src-tauri/src/quit_gate.rs:635-662 | Force ends the live round of that epoch as an exit with a wake-up and retires one more number; for any other epoch it changes nothing. |
| `QuitRules.RegisterKeeps` | src-tauri/src/quit_gate.rs:408-415 | Registration adds exactly that window, exactly while no round is live, and changes nothing else; no waiter reads anything new. |
| `QuitRules.InstallKeeps` | src-tauri/src/quit_gate.rs:666-692 | A new round gets the next epoch, asks all registered windows, starts with the full budget and leaves older deadlines alone. |
| `QuitRules.TimeoutDueIff` | src-tauri/src/quit_gate.rs:553-570 | A timeout is due if and only if the round is live, no window is busy and 30 s of unpaused time have passed. |
| `QuitGateState.QuitRound.ResumeIfIdle` | src-tauri/src/quit_gate.rs:281-285 | In place: restarts the clock with what was left once no window is busy. |
| `QuitGateState.QuitRound.Pause` | src-tauri/src/quit_gate.rs:287-291 | In place: keeps what is left of a running clock. |
| `QuitGateState.QuitGate.Finish` | src-tauri/src/quit_gate.rs:268-278 | In place: the terminal slot is written only for a live round without an outcome, and reports whether it was. |
| `QuitGateState.QuitGate.Abort` | src-tauri/src/quit_gate.rs:335-364 | In place: the section `Abort` with its effects and wake-up. |
| `QuitGateState.QuitGate.FinalizeConsent` | src-tauri/src/quit_gate.rs:378-384 | In place: the section `FinalizeConsent`. |
| `QuitGateState.QuitGate.TryClaimExit` | src-tauri/src/quit_gate.rs:387-402 | In place: grants the exit of an epoch at most once while its exit is in the slot. |
| `QuitGateState.QuitGate.Register` | src-tauri/src/quit_gate.rs:408-415 | In place: a window registers unless a round is live. |
| `QuitGateState.QuitGate.TeardownGate` | src-tauri/src/quit_gate.rs:435-479 | In place: the section `Teardown`. |
| `QuitGateState.QuitGate.Resolve` | src-tauri/src/quit_gate.rs:482-528 | In place: the section `Resolve`. |
| `QuitGateState.QuitGate.Progress` | src-tauri/src/quit_gate.rs:532-550 | In place: the section `Progress`. |
| `QuitGateState.QuitGate.TimeoutPassed` | src-tauri/src/quit_gate.rs:553-569 | The check half of a timeout, which changes nothing. |
| `QuitGateState.QuitGate.Supersede` | src-tauri/src/quit_gate.rs:635-655 | In place: the critical section of Force. |
| `QuitGateState.QuitGate.Install` | src-tauri/src/quit_gate.rs:666-692 | In place: installs a round, or reports the one in flight. |
| `QuitUiTheorems.BoundOnce` | src/main/App.tsx:1098-1111 | A round of the main window is bound to at most one epoch, a live one, and keeps it. |
| `QuitUiTheorems.AtMostTwoStarts` | src/main/App.tsx:1241-1329 | A round invokes the quit at most twice; attempt ids strictly increase over all rounds. |
| `QuitUiTheorems.StartsWhileUnbound` | src/main/App.tsx:1318-1325 | Every invocation of a round precedes its binding: a round that learned its epoch during the grace is not retried. |
| `QuitUiTheorems.ForceIsEarned` | src/main/App.tsx:1412-1422 | Force is sent only for the bound epoch of a round that earned it after ten seconds and is neither suppressed nor ended. |
| `QuitUiTheorems.ForceShownWhenEarned` | src/main/App.tsx:1084-1111 | While the window is mounted, the offer or the dialog is visible only for an active round that is earned, bound, unsuppressed and un-ended, and never both. |
| `QuitUiTheorems.ConfirmSends` | src/main/App.tsx:1412-1422 | Confirming the dialog always sends Force at once for the bound epoch: the placement flush it awaits has settled by then. |
| `QuitUiTheorems.EndsOnce` | src/main/App.tsx:1113-1180 | A round ends at most once and nothing of it happens afterwards. |
| `QuitUiTheorems.OneRoundAtATime` | src/main/App.tsx:1336-1338 | A round begins only when all rounds before it have ended. |
| `QuitUiTheorems.FailsAfterTwo` | src/main/App.tsx:1317-1329 | The failed state is shown only after exactly two attempts with no epoch bound. |
| `QuitUiTheorems.NeverStuck` | src/main/App.tsx:1277-1329 | An active round waits for an answer, a timer or the end of its bound epoch, unless the backend answered with an epoch or outcome that is of no use. |
| `QuitUiTheorems.EndDecidesScreen` | src/main/App.tsx:1113-1180 | While no later round has begun, the end of a round decides what is shown: for an abort exactly the reason and labels of the reply that ended it, for a failure both errors in order, otherwise nothing. |
| `QuitUiResponses.CloseBegins` | src/main/App.tsx:1336-1378 | A close begins one fresh round, waiting and with its ten-second clock running, exactly while no quit is in progress. |
| `QuitUiResponses.InProgressIff` | src/main/App.tsx:1336-1338 | A quit is in progress if and only if a round has begun that has not ended. |
| `QuitUiResponses.StartEventBinds` | src/main/App.tsx:1098-1111 | A start event binds the active round if and only if it names the current attempt, its epoch is a safe integer and none is bound yet. |
| `QuitUiResponses.AnswerActs` | src/main/App.tsx:1277-1295 | A relevant final answer ends the round in the way it says, one in flight binds it, every other answer changes nothing. |
| `QuitUiResponses.RejectionActs` | src/main/App.tsx:1309-1329 | A rejection of a bound round changes nothing; the first of an unbound one starts the grace, the second ends it as failed. |
| `QuitUiResponses.GraceActs` | src/main/App.tsx:1321-1325 | When the grace is over a second attempt is prepared if and only if no epoch is bound. |
| `QuitUiResponses.PreparedIsSent` | src/main/App.tsx:1251-1270 | A prepared attempt of the active round is sent when its listener is ready. |
| `QuitUiResponses.OutcomeEventActs` | src/main/App.tsx:1193-1207 | An outcome event ends the active round if and only if it is final and about the bound epoch. |
| `QuitUiResponses.CancelledEventActs` | src/main/App.tsx:1209-1218 | A cancelled event withdraws Force, its clock and its buttons if and only if it is about the bound epoch. |
| `QuitUiResponses.ForceIsOfferedIff` | src/main/App.tsx:1368-1375 | The clock of the active round runs exactly until Force is earned or withdrawn; offer or dialog is shown if and only if Force is earned, not withdrawn and the epoch bound. |
| `QuitUiResponses.ClockEarns` | src/main/App.tsx:1368-1375 | The clock earns Force and shows the offer exactly if the epoch is bound. |
| `QuitUiResponses.ClicksSwitch` | src/main/App.tsx:1380-1400 | A click on the offer opens the dialog in its place; declining brings the offer back. |
| `QuitUiResponses.ForceAnswerActs` | src/main/App.tsx:1427-1438 | A final answer to Force ends the active round in the way it says; any other changes nothing. |
| `QuitUiResponses.DisposeActs` | src/main/App.tsx:1562-1567 | Unmounting silences and drops the active round without ending it. |
| `QuitUiResponses.NothingLingers` | src/main/App.tsx:1033-1047 | A round that is over or dropped has no timer and no listener; an active one listens at most for its current attempt. |
| `QuitUiInvariant.StepInv` | src/main/App.tsx:1084-1440 | Every handler, timer, click and settled promise keeps the invariant that ties rounds, attempts, visible buttons and log. |
| `QuitUiInvariant.ReachableInv` | src/main/App.tsx:1084-1440 | The invariant holds after every run. |
| `QuitUiInvariant.BindKeeps` | src/main/App.tsx:1098-1111 | Binding records the epoch once and shows an offer that was earned before. |
| `QuitUiInvariant.ForcedEpoch` | src/main/App.tsx:1415-1423 | Whatever Force was sent for is the epoch the round is bound to. |
| `QuitUi.MainWindow.SuppressQuitForce` | src/main/App.tsx:1084-1094 | In place: withdraws Force for good. |
| `QuitUi.MainWindow.BindQuitEpoch` | src/main/App.tsx:1098-1111 | In place: binds once, ignores a second epoch, shows an earned offer. |
| `QuitUi.MainWindow.FinishQuit` | src/main/App.tsx:1113-1180 | In place: ends an un-ended round, clears its timers, listener and buttons and frees the window for the next round. |
| `QuitUi.MainWindow.HandleQuitStarted` | src/main/App.tsx:1181-1191 | In place: binds only for the attempt that is current and named by the payload. |
| `QuitUi.MainWindow.HandleQuitOutcomeEvent` | src/main/App.tsx:1193-1207 | In place: ends the active round only for its bound epoch. |
| `QuitUi.MainWindow.HandleQuitCancelledEvent` | src/main/App.tsx:1209-1218 | In place: suppresses Force only for the bound epoch of the active round. |
| `QuitUi.MainWindow.NumberAttempt` | src/main/App.tsx:1244-1249 | In place: an attempt of a round that still stands gets a fresh id and drops the old listener. |
| `QuitUi.MainWindow.ApplyStartQuitResult` | src/main/App.tsx:1277-1295 | In place: an answer binds, ends or is ignored as its epoch and outcome say. |
| `QuitUi.MainWindow.HandleNormalOutcome` | src/main/App.tsx:1297-1329 | In place: answer, retry after a grace, or failure of an attempt. |
| `QuitUi.MainWindow.BeginQuitRound` | src/main/App.tsx:1336-1378 | In place: one new round, unless one is in progress. |
| `QuitUi.MainWindow.OnForceTimer` | src/main/App.tsx:1368-1375 | In place: the ten-second timer earns Force and shows the offer if the epoch is bound. |
| `QuitUi.MainWindow.OnGraceTimer` | src/main/App.tsx:1321-1325 | In place: decides whether the grace ends in a retry. |
| `QuitUi.MainWindow.OnQuitForceOffer` | src/main/App.tsx:1380-1390 | In place: the offer becomes the dialog. |
| `QuitUi.MainWindow.OnQuitForceKeepWaiting` | src/main/App.tsx:1392-1400 | In place: the dialog becomes the offer again if Force is still earned. |
| `QuitUi.MainWindow.OnQuitForceConfirm` | src/main/App.tsx:1412-1417 | The epoch to force, if the active round has a bound live one. |
| `QuitUi.MainWindow.OnForceAnswered` | src/main/App.tsx:1427-1438 | In place: ends the round as the answer to Force says, and leaves it alone without one. |
| `QuitUi.MainWindow.OnCleanup` | src/main/App.tsx:1562-1567 | In place: unmounting clears timers and listener and drops the active round. |
| `QuitHandshakeTheorems.ExitIsConsentedOrConfirmed` | src/main/App.tsx:1412-1440 | Window and gate together: the process exits for an epoch only if all windows that were asked consented, or the user confirmed Force in a round bound to that epoch that had waited its ten seconds. |
| `QuitHandshakeTheorems.ForcedIsConfirmed` | src-tauri/src/quit_gate.rs:635-662 | A round ends as forced only for an epoch whose Force the user confirmed. |
| `QuitHandshakeTheorems.EndIsDecided` | src/main/App.tsx:1113-1180 | However a round of the window ended by a reply, the gate decided so for that epoch, down to reason and labels of an abort (or it is the bare cancel of a start whose slot a later round took). |
| `QuitHandshakeTheorems.ShownIsDecided` | src/main/App.tsx:1128-1147 | The abort on screen is an abort of the gate with exactly that reason, those refusing and those unanswered windows (or the bare cancel of a start whose slot a later round took). |
| `QuitHandshakeTheorems.AbortedNeverExits` | src-tauri/src/quit_gate.rs:387-402 | No exit is ever claimed or claimable for an epoch that was aborted. |
| `QuitHandshakeTheorems.SuppressedNeverExits` | src/main/App.tsx:1209-1218 | Once Force was withdrawn by a cancelled event, that epoch is no longer live and never exits. |
| `QuitHandshakeTheorems.ShownAbortStaysOpen` | src/main/App.tsx:1128-1147 | After a shown abort the app does not exit for that epoch, unless a later round has ended too. |
| `QuitHandshakeTheorems.NeverStuck` | src/main/App.tsx:1277-1329 | While all epochs are safe integers, the active round always has something to wait for. |
| `QuitHandshakeTheorems.BoundIsOpened` | src/main/App.tsx:1098-1111 | A bound epoch is a round of the gate, and it is over exactly if the gate ended it. |
| `QuitHandshakeTheorems.RoundsHaveAttempts` | src-tauri/src/quit_gate.rs:666-692 | Every round of the gate was opened for an attempt of its own that the window had sent. |
| `QuitHandshakeTheorems.OverwritingNeedsTwoAttempts` | src-tauri/src/quit_gate.rs:259-264 | The slot of a round is taken by a later one only after the window has sent a second attempt. |
| `QuitHandshakeTheorems.WindowCanLoseExit` | src/main/App.tsx:1313-1325 | A concrete run of both halves with a single close: the first invocation is rejected on its way back, the retry opens the round that takes the slot, and the consented exit is lost. |
| `QuitHandshakeInvariant.StepInv` | src/main/App.tsx:1181-1440 | Every step of either half keeps the facts that tie the window's log to the gate's. |
| `QuitHandshakeInvariant.ResultFacts` | src-tauri/src/quit_gate.rs:740-760 | A returned result is the round's own terminal outcome, except that a start which could not be announced reports a bare cancel exactly when a later round had ended before it read the slot. |
| `ServerTheorems.OpenIffRunning` | src-tauri/src/web_server.rs:427-458 | The admission gate of a generation is open if and only if that generation is the current one and Running. |
| `ServerTheorems.RunningHasEndpoint` | src-tauri/src/web_server.rs:427-458 | A snapshot that says Running names its generation and endpoint, and the gate then admits unless the token is cancelled. |
| `ServerTheorems.StopTakesEffect` | src-tauri/src/web_server.rs:349-374 | A stop request at once leaves the current generation stopping, its gate admitting nothing, its guards held, and a deadline set: its first one. |
| `ServerTheorems.NoneAdmittedAfterClose` | src-tauri/src/web_server.rs:85-99 | After a generation's gate was closed no guard is issued for it. |
| `ServerTheorems.DrainedBeforeRetired` | src-tauri/src/web_server.rs:630-646 | Every guard a retired generation ever issued was given back before it was retired, and none was issued later. |
| `ServerTheorems.RetiredIsQuiet` | src-tauri/src/web.rs:391-413 | When a generation is retired no guard is held, the gate is shut, and both halves of every one of its connections are gone. |
| `ServerTheorems.FramesAreAdmitted` | src-tauri/src/web.rs:415-426 | A frame is handled only under its own guard and its connection's, in the current generation, which has run. |
| `ServerTheorems.StepRaises` | src-tauri/src/web_server.rs:410-425 | Every transition leaves the snapshot as it is or strictly raises its revision. |
| `ServerTheorems.RevisionsIdentify` | src-tauri/src/web_server.rs:400-425 | Over any run and any number of generations, equal revisions mean equal snapshots and conversely. |
| `ServerTheorems.NoReturn` | src-tauri/src/web_server.rs:405-408 | No ABA: a snapshot that is current again was current at every moment between. |
| `ServerTheorems.OneStartResult` | src-tauri/src/web_server.rs:573-634 | A generation publishes its start result at most once. |
| `ServerTheorems.StartIsTruthful` | src-tauri/src/web_server.rs:480-508 | The start result is Ok(true) if and only if the generation ran, and a stop that won while Starting is always answered with the cancelled error. |
| `ServerTheorems.RetiredHasResult` | src-tauri/src/web_server.rs:600-646 | Every retired generation has published a start result. |
| `ServerTheorems.RanWhenObservable` | src-tauri/src/web_server.rs:427-458 | A generation counts as run at exactly the step that makes Running observable, which leaves the gate open and starts from Starting. |
| `ServerTheorems.OneLiveGeneration` | src-tauri/src/web_server.rs:244-338 | Generation ids strictly increase and a generation begins only after each earlier one was retired. |
| `ServerTheorems.PhasesMoveForward` | src-tauri/src/web_server.rs:349-374 | Over any run a generation's phase only moves forward, its stop deadline once set never changes, and a closed or cancelled gate stays so. |
| `ServerResponses.StartAnswered` | src-tauri/src/web_server.rs:244-338 | A start request is answered at once with Ok(true) if and only if the current generation ran and its gate is open, with the cancelled error if and only if it is stopping; otherwise it follows the starting or the new generation. |
| `ServerResponses.StartAnswerAgrees` | src-tauri/src/web_server.rs:340-343 | Success at once never contradicts the published result; the published result is success exactly if the generation ran. |
| `ServerResponses.ErrorAfterSuccess` | src-tauri/src/web_server.rs:262-268 | A concrete run: a start succeeds, the server is stopped, and a second start is answered as cancelled while it drains. |
| `ServerResponses.StartRequested` | src-tauri/src/web_server.rs:244-338 | A start request with no current generation begins exactly one, starting, closed and under the next revision; any other changes nothing. |
| `ServerResponses.SnapshotShows` | src-tauri/src/web_server.rs:410-425 | What a snapshot shows of the current generation, or of the last one when stopped. |
| `ServerResponses.EndpointTaken` | src-tauri/src/web_server.rs:376-398 | A changed endpoint is taken exactly from the current generation while it starts or stops, under the next revision. |
| `ServerResponses.ServerComesUp` | src-tauri/src/web_server.rs:427-458 | A server that came up runs with its gate open if and only if it is still starting, has an endpoint, and neither its token nor the shutdown was seen; a shutdown seen in between stops it. |
| `ServerResponses.OutdatedDoesNothing` | src-tauri/src/web_server.rs:427-570 | A section for a generation that is not current changes nothing, and its start is cancelled. |
| `ServerResponses.UnpublishedIsCancelled` | src-tauri/src/web_server.rs:617-634 | A server that could not be published is stopped and its start answered as cancelled. |
| `ServerResponses.NoServerReports` | src-tauri/src/web_server.rs:600-628 | A start without a server reports its own result if and only if no stop came first, else the cancelled error. |
| `ServerResponses.ReportIsPublished` | src-tauri/src/web_server.rs:600-634 | What the supervisor determined is what is published. |
| `ServerResponses.DrainEndsIff` | src-tauri/src/web_server.rs:640-646 | The drain is over if and only if every guard was given back. |
| `ServerResponses.FinishingRetires` | src-tauri/src/web_server.rs:551-570 | Retirement leaves no current generation and the next revision. |
| `ServerResponses.UpgradeAdmittedIff` | src-tauri/src/web.rs:52-58 | An upgrade is admitted if and only if its generation runs and its token is not cancelled. |
| `ServerResponses.FrameAdmittedIff` | src-tauri/src/web.rs:415-426 | A frame is admitted if and only if its generation runs uncancelled; a refused one ends the receiving half. |
| `ServerInvariant.StepInv` | src-tauri/src/web_server.rs:244-646 | Every request, supervisor step, shutdown signal and connection step keeps the invariant. |
| `ServerInvariant.ReachableInv` | src-tauri/src/web_server.rs:244-646 | The invariant holds after every run. |
| `ServerInvariant.FinishingKeeps` | src-tauri/src/web_server.rs:551-570 | Retiring keeps the invariant: the drained gate is the retired generation's last. |
| `ServerInvariant.GuardKeeps` | src-tauri/src/web.rs:415-426 | Issuing or returning a guard keeps the held tokens equal to what the log says is held. |
| `WebServer.WebSocketAdmission.Open` | src-tauri/src/web_server.rs:68-83 | In place: admits only if neither cancelled nor shutting down, before and after the write. |
| `WebServer.WebSocketAdmission.Close` | src-tauri/src/web_server.rs:85-89 | In place: refuses further guards and closes the tracker. |
| `WebServer.WebSocketAdmission.TryAcquire` | src-tauri/src/web_server.rs:91-99 | In place: a guard is issued exactly while the gate admits. |
| `WebServer.WebServerHandle.Snapshot` | src-tauri/src/web_server.rs:410-425 | The snapshot of the current or the last generation. |
| `WebServer.WebServerHandle.SnapshotIsCurrent` | src-tauri/src/web_server.rs:405-408 | Whether a snapshot equals the present one. |
| `WebServer.WebServerHandle.BeginStart` | src-tauri/src/web_server.rs:244-338 | In place: a new generation if none is current, else the answer for the current phase. |
| `WebServer.WebServerHandle.BeginStop` | src-tauri/src/web_server.rs:349-374 | In place: halts a starting or running generation and fixes the first deadline. |
| `WebServer.WebServerHandle.PublishEffectiveEndpoint` | src-tauri/src/web_server.rs:376-398 | In place: records a changed endpoint while Starting or Stopping. |
| `WebServer.WebServerHandle.PublishRunning` | src-tauri/src/web_server.rs:427-458 | In place: Running with the gate open, or Stopping if the shutdown was seen. |
| `WebServer.WebServerHandle.MoveGenerationToStopping` | src-tauri/src/web_server.rs:460-478 | In place: halts that generation if it is current. |
| `WebServer.WebServerHandle.TransitionStartResultToStopping` | src-tauri/src/web_server.rs:480-508 | In place: halts and yields the start's own result only if no stop came first. |
| `WebServer.WebServerHandle.FinishGeneration` | src-tauri/src/web_server.rs:551-570 | In place: retires that generation if it is current. |
| `InstallRuns.TicketsExclusive` | src-tauri/src/agent_version.rs:231-264 | In every interleaving the commands in flight are exactly those of live tickets, and no command has two live tickets. |
| `InstallRuns.StaleKeepsSlot` | src-tauri/src/agent_version.rs:315-356 | A rejected completion keeps its slot and is accepted on retry; dropping a committed ticket frees nothing. |
| `InstallRuns.EntryIsCurrentCommit` | src-tauri/src/agent_version.rs:315-343 | Every stored entry is a commit made after the last invalidation by a ticket captured or renewed after it. |
| `InstallRuns.FreshExactly` | src-tauri/src/agent_version.rs:207-264 | With one ttl and instants that never go back, lookup and lookup_or_begin both serve exactly the latest commit since the last invalidation if its age is at most ttl; otherwise they say whether a probe is under way, and lookup_or_begin begins one exactly if it may. |
| `InstallRuns.ServedIffHeld` | src-tauri/src/agent_version.rs:207-264 | For readers and schedulers of any kind: lookup and lookup_or_begin serve the latest commit if and only if its age is at most this caller's ttl and no caller before has found it too old; otherwise they say whether a probe is under way. |
| `InstallRuns.UnsteadyReadersCanMiss` | src-tauri/src/agent_version.rs:217-221 | A concrete run: a reader with a later instant evicts an entry that is still fresh for another reader. |
| `InstallRuns.ClientsConverge` | src-tauri/src/agent_version.rs:85-89 | Under any reordering and duplication, a client that keeps the highest number ends on the last commit that reached it, across invalidations. |
| `InstallRuns.CompletionActs` | src-tauri/src/agent_version.rs:315-343 | A completion commits the probed state, under a number above all earlier ones, if and only if nothing was invalidated since its ticket was captured or renewed; otherwise it only renews the ticket. |
| `InstallRuns.StepInv` | src-tauri/src/agent_version.rs:207-356 | Every lookup, schedule, invalidation, completion and drop keeps the invariant. |
| `InstallRuns.ReachableInv` | src-tauri/src/agent_version.rs:207-356 | The invariant holds after every run. |
| `InstallCache.AgentInstallCache.Lookup` | src-tauri/src/agent_version.rs:207-224 | In place: the answer, and the eviction of an expired entry. |
| `InstallCache.AgentInstallCache.LookupOrBegin` | src-tauri/src/agent_version.rs:231-264 | In place: one section decides between fresh, in flight, deferred and a new ticket. |
| `InstallCache.AgentInstallCache.InvalidateAll` | src-tauri/src/agent_version.rs:269-273 | In place: next generation, no entries, same number and tickets. |
| `InstallCache.ProbeTicket.Complete` | src-tauri/src/agent_version.rs:315-343 | In place: commits with the next number, or adopts the current generation. |
| `InstallCache.ProbeTicket.Drop` | src-tauri/src/agent_version.rs:350-356 | In place: frees the slot of a live ticket only. |
| `GroupOrder.CompareGroupsAntisymmetric` | src/resource-monitor/App.tsx:197-222 | The comparator is antisymmetric and ties only rows of one session, for every field and direction. |
| `GroupOrder.CompareGroupsTransitive` | src/resource-monitor/App.tsx:197-222 | The comparator is transitive, unknown metrics included. |
| `GroupOrder.UnknownLast` | src/resource-monitor/App.tsx:209-221 | A row with an unknown metric comes after every known one in both directions. |
| `GroupOrder.LessMeans` | src/resource-monitor/App.tsx:194-195 | Texts compare at their first differing code unit, a beginning before its continuation. |
| `GroupOrder.FieldsCompare` | src/resource-monitor/App.tsx:197-222 | Each field compares its own metric: smaller first ascending, last descending, unknown last, ties and unknown pairs by session id in the same way in both directions. |
| `GroupOrder.NamesCompare` | src/resource-monitor/App.tsx:203-206 | Names ascend or descend; equal names are ordered by session id in the same way in both directions. |
| `GroupOrder.SortSorts` | src/resource-monitor/App.tsx:664-667 | The sorted list is a permutation in comparator order. |
| `GroupOrder.SortedUnique` | src/resource-monitor/App.tsx:664-667 | Any two sorted permutations are equal, so the order does not depend on the sorting algorithm. |
| `GroupOrder.LessTransitive` | src/resource-monitor/App.tsx:194-195 | Comparison of session ids by code units is transitive. |
| `PinnedTheorems.RowsPermute` | src/resource-monitor/App.tsx:658-723 | What is shown is always a permutation of the filtered rows. |
| `PinnedTheorems.UnpinnedInOrder` | src/resource-monitor/App.tsx:693-701 | In a sorted list the rows without a pin are in comparator order. |
| `PinnedTheorems.PinsLand` | src/resource-monitor/App.tsx:693-701 | Where every pin lands: the k-th by index at its recorded index, or as the k-th row behind the unpinned ones if those are too few. |
| `PinnedTheorems.PinLandsIff` | src/resource-monitor/App.tsx:700 | A pin lands on its recorded index if and only if enough rows are in front of it. |
| `PinnedTheorems.AllLandIff` | src/resource-monitor/App.tsx:693-701 | All pins land on their recorded indexes if and only if these are below the length of the list. |
| `PinnedTheorems.UnpinnedOffRecords` | src/resource-monitor/App.tsx:693-711 | No unpinned row sits on an index recorded for a pin, even when the list has shrunk. |
| `PinnedTheorems.NextInv` | src/resource-monitor/App.tsx:670-711 | One pass keeps recorded ids and indexes pairwise distinct. |
| `PinnedTheorems.PinsStayDistinct` | src/resource-monitor/App.tsx:650-711 | Over any sequence of polls with any key changes, recorded indexes stay pairwise distinct. |
| `PinnedTheorems.OpenRowStays` | src/resource-monitor/App.tsx:650-711 | After any polls, an open row that is shown at an index is shown there in every later poll, as long as the keys stay, the row stays open and listed, and recorded indexes fit the list. |
| `PinnedTheorems.RecordedRowStays` | src/resource-monitor/App.tsx:683-711 | A recorded row that is open and listed is shown at its recorded index and stays recorded there, while keys stay and recorded indexes fit the list. |
| `PinnedTheorems.KeyChangeResets` | src/resource-monitor/App.tsx:661-676 | After a change of the sort or a filter the list is simply sorted; in the default order it is shown as it came. |
| `PinnedTheorems.RecordsOpenRows` | src/resource-monitor/App.tsx:683-711 | A poll records exactly the rows that are listed and open, old ones at their old index and new ones where they are shown. |
| `PinnedTheorems.PinCanMiss` | src/resource-monitor/App.tsx:700 | Two concrete polls: a row recorded at index 1 is shown at 0 when the list has shrunk to one row. |
| `PinnedRows.GroupTable.DropStalePins` | src/resource-monitor/App.tsx:683-688 | In place: only pins of rows that are present and open remain. |
| `PinnedRows.GroupTable.SortedGroups` | src/resource-monitor/App.tsx:658-714 | In place: the shown rows and the next pin map, as the functions `Rows` and `Next` of the poll. |
| `HoverTrace.HoverBracketed` | src/shared/automation-bridge.ts:833-914 | Over any sequence of targets and leaves on an unchanging tree, each enter and leave stream is a properly nested bracket word whose open brackets are the chain of the hovered element. |
| `HoverTrace.EnteredIsAncestorChain` | src/shared/automation-bridge.ts:833-880 | The elements entered and not yet left are exactly the ancestor chain of the hovered element, for both streams. |
| `HoverTrace.StepBracketed` | src/shared/automation-bridge.ts:833-880 | One target or leave continues the bracket word from the old chain to the new one. |
| `HoverTrace.ChainFrom` | src/shared/automation-bridge.ts:930-946 | Two ancestor chains coincide from their first common element on. |
| `HoverEvents.MoveSendsOutAndOver` | src/shared/automation-bridge.ts:833-914 | A move sends out at the old and then over at the new element, once each as pointer and mouse event, each naming the other; a vanished origin is not named and elements outside the document get nothing. |
| `HoverEvents.LeaveSendsOut` | src/shared/automation-bridge.ts:861-897 | Leaving sends out at the hovered element, with no related element. |
| `HoverEvents.MoveTargets` | src/shared/automation-bridge.ts:882-914 | Which elements are left and entered by a move, with their related elements, on any tree. |
| `HoverEvents.SharedAncestorsStay` | src/shared/automation-bridge.ts:940-951 | On an unchanged tree a move neither leaves nor enters an ancestor that both elements share. |
| `Hover.HoverEmulation.DispatchLeaveGroup` | src/shared/automation-bridge.ts:882-897 | In place: leaves innermost first, out and leave events as in the source. |
| `Hover.HoverEmulation.DispatchEnterGroup` | src/shared/automation-bridge.ts:899-914 | In place: enters outermost first. |
| `Hover.HoverEmulation.DispatchHoverEnter` | src/shared/automation-bridge.ts:833-859 | In place: the events and the new hovered chain of moving to an element. |
| `Hover.HoverEmulation.DispatchHoverLeave` | src/shared/automation-bridge.ts:861-880 | In place: the events of leaving, and nothing hovered. |
| `ErrorSinkRuns.QueueIsWindow` | src-tauri/src/logging.rs:721-742 | In every run the queue is exactly the last 200 captures, unmuted when captured, since the previous drain. |
| `ErrorSinkRuns.DeliveredOnceInOrder` | src-tauri/src/logging.rs:745-748 | Each captured entry is delivered at most once and in capture order. |
| `ErrorSinkRuns.NothingUnannounced` | src-tauri/src/logging.rs:809-816 | An entry pushed since the last ping always has a stored permit, a capturer about to signal, or a ping in progress. |
| `ErrorSinkRuns.MuteTakesIff` | src-tauri/src/logging.rs:757-768 | Muting takes effect if and only if an entry of that id was captured before; then its captures are skipped until it is unmuted, and the queue stays as it is. |
| `ErrorSinkRuns.StepInv` | src-tauri/src/logging.rs:721-816 | Every capture, signal, drain, mute and ping keeps the invariant. |
| `ErrorSink.ErrorEventSink.Capture` | src-tauri/src/logging.rs:721-742 | In place: the newest entry is kept, the oldest of 200 dropped; a muted one is only remembered. |
| `ErrorSink.ErrorEventSink.Drain` | src-tauri/src/logging.rs:745-748 | In place: hands out the queue and empties it. |
| `ErrorSink.ErrorEventSink.SetMuted` | src-tauri/src/logging.rs:757-768 | In place: mutes known ids only and removes no entry. |
| `TypeId.TypeIdsCollisionFree` | src-tauri/src/logging.rs:628-639 | Two emission sites with the same type id are the same target, file and line. |
| `TypeId.TypeIdRoundTrip` | src-tauri/src/logging.rs:628-639 | A decoder inverts the encoding for every target, file and line, whatever bytes they contain. |
| `TypeId.Samples` | src-tauri/src/logging.rs:626-639 | Two spelled-out type ids in the documented format. |
| `TypeId.PrefixedRoundTrip` | src-tauri/src/logging.rs:628-639 | A length-prefixed string reads back whatever it contains and whatever follows. |
| `TypeId.NumberRoundTrip` | src-tauri/src/logging.rs:628-639 | A printed number reads back whatever non-digit follows. |
| `DesktopEntry.ExecRoundTrip` | npm/linux-desktop-entry.js:40-43 | Undoing the string escapes, then the quotes, then the doubled percent signs gives back the argument, for every string. |
| `DesktopEntry.QuotedReadsToEnd` | npm/linux-desktop-entry.js:40-43 | No character inside closes the quote early: the reader of quotes consumes all of the escaped text. |
| `DesktopEntry.DoubleBackslashRoundTrip` | npm/linux-desktop-entry.js:40-43 | Undoing string escapes inverts the doubling of backslashes. |
| `DesktopEntry.PercentRoundTrip` | npm/linux-desktop-entry.js:40-43 | Undoing field codes inverts the doubling of percent signs. |
| `DesktopEntry.ExecInjective` | npm/linux-desktop-entry.js:40-43 | Distinct executables have distinct quoted arguments. |
| `DesktopEntry.JoinSplits` | npm/linux-desktop-entry.js:52-64 | Splitting the joined text at line breaks gives the lines back, when none contains a break. |
| `DesktopEntry.EntryIsWrittenIff` | npm/linux-desktop-entry.js:45-51 | An entry is written if and only if neither path has a line break; the error names the executable first. |
| `DesktopEntry.EntryIsLines` | npm/linux-desktop-entry.js:52-64 | The whole text, line by line. |
| `DesktopEntry.EntryKeys` | npm/linux-desktop-entry.js:49-65 | The text of an entry parses back line by line: each of the three path keys has the value written for it. |
| `DesktopEntry.ExecLineRoundTrip` | npm/linux-desktop-entry.js:49-65 | The executable is read back from the Exec line of the whole file. |
| `DesktopEntry.PathLinesRoundTripIff` | npm/linux-desktop-entry.js:59-60 | TryExec and Icon read back their paths if and only if the path does not begin with a space. |
| `Backoff.DelayBounds` | src-tauri/src/network.rs:141-157 | The k-th delay never exceeds max and differs from the capped exponential by less than a quarter of it, for every salt. |
| `Backoff.CappedDoubles` | src-tauri/src/network.rs:144-147 | The delay before jitter starts at min and doubles ten times, never exceeding max. |
| `Backoff.DelaySamples` | src-tauri/src/network.rs:150-156 | A first delay below max is lengthened by the jitter, one at max is shortened by it. |
| `Backoff.JitterSamples` | src-tauri/src/network.rs:160-169 | Spelled-out jitters: attempt and salt both enter. |
| `Backoff.DelaysIncrease` | src-tauri/src/network.rs:141-157 | While the next uncapped value is below max and k < 10, the next delay is strictly longer. |
| `Backoff.DelaysClimb` | src-tauri/src/network.rs:141-157 | Delays strictly increase over the whole uncapped stretch. |
| `Backoff.JitterSmall` | src-tauri/src/network.rs:160-169 | The jitter of a positive cap is below a quarter of it, and 0 for small caps. |
| `Backoff.SumCanOverflow` | src-tauri/src/network.rs:155 | Concrete values next to the end of the 64-bit range for which the unchecked sum overflows. |
| `Backoff.NetworkBackoff.Reset` | src-tauri/src/network.rs:137-139 | In place: the next delay is again the one of attempt 0. |
| `Backoff.NetworkBackoff.NextDelay` | src-tauri/src/network.rs:141-157 | In place: returns the delay of the attempt and counts it, saturating; the one unchecked sum overflows exactly as `Overflows` says, which only a maximum of at least four fifths of the 64-bit range allows. |

## Left out

- Argument errors of `quit_gate_run` (a caller other than main, an empty attempt id) and the emission of `app_quit_requested`: single branches without state.
- Overflow of epochs, generations, sequence numbers and revisions at 64 bits: these counters are natural numbers.
- Memory ordering, poisoned locks and panics inside a critical section.
- The text of log lines, the order of labels in refusing and unanswered lists, the close of detached terminals and the exit call itself: the claim of the exit is the last event of the model.
- The bounded placement flush of the main window beyond the wait for it: its result, its alert and window geometry.
- Focus, JSX, the confirm modal for detached windows and `countDetachedWindows`: a close is one action that begins a round.
- The four finishing handlers of the main window share one method here; they differ only in the status they show.
- `bind_failure` and `ApiServerHandle` in the web server: they would add members without interaction.
- The body of the web server task and HTTP routes; an upgrade, a frame and the end of each half are steps, and cancelling one half because the other ended is the end of that half.
- Liveness: no theorem says that a step is eventually taken.
- `salt_from_str`: a hash without a property; the delays are bounded for every salt.
- Coordinates of hover events, and pointer down, move, up and cancel: visibility and geometry decide them. Brackets and shared ancestors are proved for a tree that does not change between events.
- Floating-point rounding of the resource monitor's metrics: a metric is a real number or unknown, as only its order matters.
- Log rotation and redaction in `logging.rs`, the filters of the resource monitor, the install probes themselves, `agent_update.rs`, `co_managed.rs`, file-system identity and everything that is only I/O.
