# Verified models of light-fabric's stateful cores

This project models, in Dafny 4.11, the parts of light-fabric whose correctness is a statement about
whole runs: several processes or replicas, crashes at any point, lost replies, stale workers. It proves
what those parts keep over every run. The filesystem, the database, the network and the clocks are state
with steps of their own; how each operation turns out is a parameter. Nothing was executed.

Two layers describe each component. A value layer says what one operation does (`ThreadRecord`,
`ChannelTables`, `LoginSession`, `TriggerSchedule`). Classes carry the operations out in place and are
proved against the value layer (`CodingSessions`, `ChannelService`, `LoginSession.Store`,
`SseReframer.Reframer`, `ChatDriver.Driver`, `ClaudeStream.Stream`). Worlds interleave the same value-level
operations over any number of actors (`ThreadWorld`, `ChannelWorld`, `LoginWorld`), and the run-level laws
are proved there by induction over runs. What the value layer itself does is stated in fields and columns,
without its functions, by the lemmas whose names end in `Exactly` and by the contracts of the classes.

| component | modules |
|---|---|
| Coding-thread checkpoints shared by workers | `AtomicFile`, `ThreadRecord`, `ThreadWorld`, `CodingSessions` |
| One native turn: claim, commit, optional archive | `TurnCommit` |
| Trigger schedule arithmetic | `TriggerSchedule` |
| Channel service over one database | `ChannelTables`, `ChannelService`, `ChannelPasses`, `ChannelTransactions`, `ChannelWorld`, `ChannelSchedule`, `ChannelFires`, `ChannelOrder`, `ChannelBudget`, `ChannelGrants`, `ChannelMessages`, `ChannelOutbox`, `ChannelScans`, `ChannelWitnesses` |
| Relay of remote event streams | `SseReframer` |
| Chat client | `ChatDriver` |
| Sign-in shared by command-line processes | `LoginSession`, `LoginWorld`, `DevicePolling` |
| Acceptor of a native coding run | `ClaudeStream` |
| Images affected by changed files | `ImageSelector` |

Assumptions that the models make explicit: `flock` has one owner per thread and is released when its owner
dies; a save replaces a file at once, and a save that fails may or may not have replaced it; digests used as
file names do not collide; checkpoints, claim tokens, message ids and issued refresh tokens are fresh; the
formatted event keys are unambiguous; triggers, budgets, bindings and grants are not edited during a run,
apart from pausing, resuming and revoking.

Where the code and its documentation disagree, the model follows the code:

- `apps/light-agent-channel/README.md:56-57` says that `CATCH_UP` retains the most recent occurrences of a
  backlog. The code computes its effective due time from the clock's slot alone. With a backlog shorter than
  the maximum that time lies before the due time (`CatchUpIsExact` gives the exact condition). A pass then
  fires backwards if and only if it is admitted and that occurrence has no message (`FiresBackwards`):
  `CatchUpFiresOutOfOrder` is a run in which an occurrence denied by quiet hours is fired after all, and
  after a later one. Otherwise it is a duplicate (`CatchUpReachesDuplicate`), and such passes leave the
  schedule where it is until the clock reaches the next slot (`CatchUpRepeatsItself`, `CatchUpWaitsOut`).
  Without a short backlog fires are in order and duplicates do not occur, under every policy (`OrderLaw`,
  `DuplicatesNeedShortBacklog`).
- `apps/light-agent-channel/README.md:30-31` says that failures become terminal after five claims. Of failures
  that is so (`FailureLaw`). It does not bound the claims: a worker that dies under its claim records no
  failure, and there are runs with any number of claims (`ClaimsAreUnbounded`). What holds is that every claim
  failed, was taken over, is current or succeeded, and that claims pass five only after a takeover
  (`ClaimsLaw`).
- `TURN_CREATED` is set without a look at the claim. A scanner whose claim was taken over can still create the
  turn, and nothing else (`StaleScannerMayAdmit`, with a run in `StaleScannerAdmits`); its reports have no
  effect (`SupersededClaimIsDead`), and the row still leaves `RECEIVED` only once (`RowLaw`).
- The ninety-day sweep of usage rows lets a transaction that has been open for longer fire into a spent window
  again (`SweepReopensWindow`). With no transaction older than 89 days every window is within budget, swept
  ones included (`EveryWindowLaw`).

## Model

| member | source | states |
|---|---|---|
| `ThreadWorld.LostAttemptIsNeverReplayed` | apps/light-agent-worker/src/coding_session.rs:79-246 | A record left IN_FLIGHT without a live session stays byte for byte on disk through any further steps of any processes, crashes and reclamation included, and every open in every mode, with any checkpoint and binding, is refused. |
| `ThreadWorld.InterruptedAttemptIsLost` | apps/light-agent-worker/src/coding_session.rs:206-213 | How that state arises: a claim that reached the disk, any activity of others, and a session that ends without another effective write. |
| `ThreadWorld.EveryRunIsSafe` | apps/light-agent-worker/src/coding_session.rs:44-259 | Over every run from an empty directory: no session owns two threads, UNCLAIMED is never on disk, a READY record carries a checkpoint nobody has advanced, and no checkpoint is advanced by two sessions. |
| `ThreadWorld.RunKeepsInv` | apps/light-agent-worker/src/coding_session.rs:44-259 | The invariant behind it holds through every interleaving of opens, claims, commits, closes, drops, reclamation passes and clock changes. |
| `ThreadWorld.SaveKeepsInv` | apps/light-agent-worker/src/coding_session.rs:250-259 | A save with any outcome keeps the invariant when it leaves READY or brings an unused checkpoint; no other thread is affected. |
| `ThreadWorld.UsedCheckpointNeverOpens` | apps/light-agent-worker/src/coding_session.rs:183-197 | Once a session wrote over a checkpoint, no request naming it is ever admitted again, and nobody else ever advances it. |
| `ThreadWorld.AbandonedOpenIsInvisible` | apps/light-agent-worker/src/coding_session.rs:139-213 | An open dropped before any effective write, amid any activity of others, leaves the thread as it was; the same request gets the same answer again. |
| `ThreadWorld.CommittedRecordReopens` | apps/light-agent-worker/src/coding_session.rs:167-238 | A round trip: the thread id, patch and checkpoint that a turn committed are what the next open by its checkpoint finds, under the same binding, after any activity on other threads and any reclamation passes. |
| `ThreadWorld.AdmittedMatchesRecord` | apps/light-agent-worker/src/coding_session.rs:174-197 | Every admitted Resume or Close names the binding and the checkpoint of a READY record that nobody holds. |
| `ThreadRecord.AdmitExactly` | apps/light-agent-worker/src/coding_session.rs:139-205 | An open succeeds exactly for a valid request to a trusted scope whose thread is free: a new one without a record, an existing one READY under its binding, checkpoint and native thread; and it gets that record or an empty one. |
| `ThreadRecord.RefusalsExactly` | apps/light-agent-worker/src/coding_session.rs:139-205 | Each refusal and when it is given. |
| `ThreadWorld.RecordLifetime` | apps/light-agent-worker/src/coding_session.rs:79-105 | Over a whole run a record keeps binding and session reference, or some pass holding its lock removed it while it was CLOSED and expired before that pass began. |
| `ThreadWorld.RecordEndsOnlyByReclaim` | apps/light-agent-worker/src/coding_session.rs:79-105 | One step of anybody either keeps a record's identity or is such a removal. |
| `ThreadWorld.PassReclaims` | apps/light-agent-worker/src/coding_session.rs:79-105 | A pass over a listing removes exactly the listed records that nobody holds and that are CLOSED and expired. |
| `CodingSessions.ThreadDirectory.PruneClosed` | apps/light-agent-worker/src/coding_session.rs:79-105 | The directory loop removes exactly the records that are CLOSED, unlocked and unmodified for thirty days, and leaves the others unchanged. |
| `CodingSessions.ThreadDirectory.OpenBound` | apps/light-agent-worker/src/coding_session.rs:139-205 | An open answers as the admission rule says, for every error case; success takes the thread's lock and nothing else, failure keeps all locks. |
| `CodingSessions.CodingSession.Begin` | apps/light-agent-worker/src/coding_session.rs:210-213 | The claim sets the phase to IN_FLIGHT and nothing else, in memory in any case and in the thread's own file exactly when the save replaced it. |
| `CodingSessions.CodingSession.Finish` | apps/light-agent-worker/src/coding_session.rs:231-238 | The record gets the thread id, the patch, the fresh checkpoint and the phase asked for, and keeps binding, session reference and adapter; the file holds it exactly when the save replaced it; a receipt with them exists exactly when the save was acknowledged. |
| `CodingSessions.CodingSession.MarkClosed` | apps/light-agent-worker/src/coding_session.rs:242-246 | Recording an archived thread changes the phase only, under the same save rule. |
| `CodingSessions.CodingSession.Save` | apps/light-agent-worker/src/coding_session.rs:250-259 | A save replaces one file with the session's record or leaves the directory alone. |
| `TurnCommit.ArchiveBudget` | apps/light-agent-worker/src/codex_app_server.rs:1012-1035 | The budget is the largest one, up to ten seconds, that leaves the five-second reserve before a known deadline; there is none exactly when the reserve is not left. |
| `TurnCommit.AwaitArchive` | apps/light-agent-worker/src/codex_app_server.rs:1064-1087 | The archive counts as done exactly when it answered positively within its budget, and never takes longer. |
| `TurnCommit.FinishThread` | apps/light-agent-worker/src/codex_app_server.rs:1047-1097 | Whatever the archive does, a saved turn stays on disk with its patch, its thread id and the receipt's checkpoint; it is CLOSED exactly if a wanted archive answered in time and its write took effect, and READY otherwise; a CLOSED receipt needs the write acknowledged; the reserve is never eaten into. |
| `TurnCommit.RunTurn` | apps/light-agent-worker/src/codex_app_server.rs:394-605 | A turn succeeds exactly if nothing stopped it, claim and commit were acknowledged, the thread is the same and a dedicated close was archived in time; then its thread id, patch (none for a dedicated close) and checkpoint are on disk. |
| `TurnCommit.TurnIsAtMostOnce` | apps/light-agent-worker/src/codex_app_server.rs:394-605 | A turn leaves the record untouched, claimed and otherwise unchanged, or holding its result under the new checkpoint, and exactly when which. |
| `TurnCommit.TurnRefinesWorld` | apps/light-agent-worker/src/codex_app_server.rs:394-605 | A turn is a run of the shared-directory world, whatever other processes do between its steps: the record its methods leave is the one the run leaves, so the laws about runs hold of turns. |
| `TurnCommit.OthersMakeNoDifference` | apps/light-agent-worker/src/coding_session.rs:44-67 | Steps of others between the steps of a session change neither its memory nor its record. |
| `TurnCommit.UncommittedTurnIsNeverReplayed` | apps/light-agent-worker/src/codex_app_server.rs:394-605 | A turn that claimed its thread and was stopped anywhere before its commit reached the disk, with others active throughout, is refused for ever, whatever any process does afterwards. |
| `TriggerSchedule.PassedOccurrences` | apps/light-agent-channel/src/main.rs:802-812 | Although elapsed time is truncated to seconds, the occurrence count is exact for instants of any resolution. |
| `TriggerSchedule.OnTimeIsExact` | apps/light-agent-channel/src/main.rs:806-812 | A trigger that is not late fires its due occurrence under every policy, moves on by one interval and skips nothing. |
| `TriggerSchedule.UndecidedExactly` | apps/light-agent-channel/src/main.rs:803-834 | There is no decision exactly for invalid bounds, or a late trigger with an unknown policy. |
| `TriggerSchedule.SkipIsExact` | apps/light-agent-channel/src/main.rs:814-817 | SKIP moves to the first occurrence strictly after now and counts exactly the lost ones. |
| `TriggerSchedule.FireOnceIsExact` | apps/light-agent-channel/src/main.rs:818-822 | FIRE_ONCE fires the due occurrence, moves to the first one after now, and counts exactly the others that passed. |
| `TriggerSchedule.CatchUpIsExact` | apps/light-agent-channel/src/main.rs:823-831 | CATCH_UP leaves exactly the maximum number of occurrences between its effective due time and now; that time is not before the due time if and only if the backlog is at least the maximum. |
| `TriggerSchedule.CatchUpMovesBackwards` | apps/light-agent-channel/src/main.rs:825-826 | An instance of the other case: the effective due time lies two intervals before the due time and the skip count is negative. |
| `TriggerSchedule.CatchUpIgnoresDue` | apps/light-agent-channel/src/main.rs:823-831 | While late, two due times of one schedule yield the same effective due time if and only if the clock has not left the slot. |
| `TriggerSchedule.CatchUpRepeatsItself` | apps/light-agent-channel/src/main.rs:823-831 | The pass after a catch-up fire decides the same occurrence again if and only if the trigger is still late in that slot, and the next one when it is late no longer. |
| `TriggerSchedule.DecisionStaysOnSchedule` | apps/light-agent-channel/src/main.rs:795-835 | Every decision lands on an occurrence, as many further as it counts, and fires the due one unless a late CATCH_UP passes over some. |
| `TriggerSchedule.OccurrencesDoNotOverflow` | apps/light-agent-channel/src/main.rs:812-816 | The products the schedule forms stay within the elapsed time plus one interval. |
| `ChannelSchedule.ScheduleLaw` | apps/light-agent-channel/src/main.rs:837-972 | Over every run of all replicas, a trigger's next due time has moved by one interval for every fire and every skip its counters recorded, in every mix of fires, skips, denials, pauses, rollbacks and duplicates. |
| `ChannelSchedule.PassMoves` | apps/light-agent-channel/src/main.rs:856-972 | One pass keeps that relation whichever way it comes out. |
| `ChannelPasses.PassComesTo` | apps/light-agent-channel/src/main.rs:856-972 | A pass pauses, advances, loses its grant or gets to its message exactly under the stated conditions on schedule, content, destination, hour, budget and grant. |
| `ChannelPasses.OnTimePassFires` | apps/light-agent-channel/src/main.rs:806-972 | An admissible pass over a trigger that is on time and has no message yet fires the second it was due and moves one interval on. |
| `ChannelPasses.FireDoes` | apps/light-agent-channel/src/main.rs:931-972 | A fire moves the counters, charges window and grant and leaves one received message; nothing else changes. |
| `ChannelPasses.AdvanceDoes` | apps/light-agent-channel/src/main.rs:874-915 | A skip or denial moves due time and counters of this trigger and nothing else. |
| `ChannelPasses.PauseDoes` | apps/light-agent-channel/src/main.rs:855-859 | A pause deactivates the trigger and changes nothing else. |
| `ChannelPasses.LostGrantPauses` | apps/light-agent-channel/src/main.rs:953-964 | A lost grant rolls the pass back and then pauses the trigger. |
| `ChannelPasses.SelectsExactly` | apps/light-agent-channel/src/main.rs:839-850 | A worker takes on exactly the triggers that are active, due, in force, with a live grant if they need one, and in nobody's hands. |
| `ChannelPasses.QuietHoursExactly` | apps/light-agent-channel/src/main.rs:906-910 | Quiet hours are the hours from their start up to their end, counted around the clock. |
| `ChannelFires.FireLaw` | apps/light-agent-channel/src/main.rs:946-972 | Over every run the fire counter moved by exactly the committed fires, an occurrence has a message if and only if it fired, and no occurrence fires twice. |
| `ChannelOrder.OrderLaw` | apps/light-agent-channel/src/main.rs:802-972 | Over every run of all replicas and under every policy, a trigger whose late CATCH_UP passes have a full backlog fires strictly increasing occurrences. |
| `ChannelOrder.OtherPoliciesAreGuarded` | apps/light-agent-channel/src/main.rs:813-822 | Every run of a SKIP or FIRE_ONCE trigger is such a run. |
| `ChannelOrder.FiresBackwards` | apps/light-agent-channel/src/main.rs:823-831 | A pass fires before its due time if and only if it is admitted, finds a backlog shorter than the maximum, and that occurrence has no message. |
| `ChannelOrder.AdmittedOutcome` | apps/light-agent-channel/src/main.rs:895-972 | A pass fires or finds a duplicate exactly when schedule, content, destination, hour, budget and grant admit it, and which of the two by whether the occurrence has a message. |
| `ChannelOrder.DuplicatesNeedShortBacklog` | apps/light-agent-channel/src/main.rs:966-971 | The duplicate branch is reached only if some late CATCH_UP pass of the run, or this one, finds a short backlog. |
| `ChannelWitnesses.CatchUpFiresOutOfOrder` | apps/light-agent-channel/src/main.rs:823-831 | A run that fires the occurrences of 21:00, 23:00 and then 22:00, the last one after it was denied by quiet hours. |
| `ChannelWitnesses.CatchUpReachesDuplicate` | apps/light-agent-channel/src/main.rs:966-971 | The same run goes on to a pass that finds its occurrence a duplicate. |
| `ChannelFires.CatchUpWaitsOut` | apps/light-agent-channel/src/main.rs:823-831 | A late CATCH_UP trigger whose occurrence has fired fires nothing and moves nothing until the clock leaves the slot. |
| `ChannelBudget.BudgetLaw` | apps/light-agent-channel/src/main.rs:765-781 | In every window that has not been swept, over every interleaving, fires, turns, tokens and cost are within the validated maxima, and the usage row shows exactly the committed fires times the amounts per fire. |
| `ChannelBudget.EveryWindowLaw` | apps/light-agent-channel/src/main.rs:737-781 | Over runs in which no pass stays open for 89 days, the same bounds hold in every window, swept ones included. |
| `ChannelWitnesses.SweepReopensWindow` | apps/light-agent-channel/src/main.rs:745-745 | A run with an older pass, in which a window with a budget of one fire is fired into twice. |
| `ChannelBudget.ReserveStaysWithin` | apps/light-agent-channel/src/main.rs:925-945 | The upsert keeps a row within budget in both branches, and refuses exactly when one more fire would pass a maximum; the unguarded insert rests on the validation. |
| `ChannelBudget.WindowIsAligned` | apps/light-agent-channel/src/main.rs:931-932 | The usage window of an instant is the one aligned slot of the window length that contains it. |
| `ChannelBudget.SweptWindowsAreOld` | apps/light-agent-channel/src/main.rs:737-751 | The retention sweep removes only windows that began more than ninety days ago. |
| `ChannelTransactions.SweepExactly` | apps/light-agent-channel/src/main.rs:745-745 | The sweep keeps exactly the usage of windows that began within ninety days. |
| `ChannelGrants.GrantLaw` | apps/light-agent-channel/src/main.rs:484-526 | Over every interleaving of the four consumers a grant's use counter has moved by exactly its admitted events, issued credentials, trigger fires and delivery claims, and never passes its maximum. |
| `ChannelGrants.UseKeepsAccount` | apps/light-agent-channel/src/main.rs:508-519 | A commit that uses a live grant moves the counter and the account together. |
| `ChannelTransactions.UsesAreLive` | apps/light-agent-channel/src/main.rs:508-525 | In no step of any replica is a grant used that is revoked, used up or expired at the time of the transaction. |
| `ChannelTransactions.EventExactly` | apps/light-agent-channel/src/main.rs:248-258 | A connector event leaves its message and one use exactly if its key is free and the grant is live, and nothing otherwise. |
| `ChannelTransactions.CredentialExactly` | apps/light-agent-channel/src/main.rs:484-526 | A secret is handed out exactly for a live grant of the binding whose secret is known, at the price of one use. |
| `ChannelTransactions.ChannelMessageExactly` | apps/light-agent-channel/src/main.rs:331-341 | A Slack message arrives exactly once per key, waiting for a scan if it has attachments. |
| `ChannelTransactions.TurnExactly` | apps/light-agent-channel/src/main.rs:725-733 | A received message gets its turn, any other row stays as it is. |
| `ChannelMessages.RowLaw` | apps/light-agent-channel/src/main.rs:725-733 | Through any run a message row keeps its identity, and TURN_CREATED, REJECTED and DELIVERED are never left, so a row leaves RECEIVED at most once. |
| `ChannelMessages.KeysAreUnique` | apps/light-agent-channel/src/main.rs:248-250 | No two rows ever share binding, event key and direction. |
| `ChannelMessages.OneReplyPerMessage` | apps/light-agent-channel/src/main.rs:1001-1016 | Replies and the messages they answer correspond one to one. |
| `ChannelOutbox.ClaimLaw` | apps/light-agent-channel/src/main.rs:1017-1155 | Stale and recovered senders included, a message is claimed for sending at most ten times, its counter is the number of its claims, and a delivered message was claimed. |
| `ChannelOutbox.DeliveredWasReported` | apps/light-agent-channel/src/main.rs:1122-1149 | A message is DELIVERED only if at some moment of the run a sender with a claim on it reported success while it was being sent. |
| `ChannelOutbox.SendingEnds` | apps/light-agent-channel/src/main.rs:1017-1155 | Sending ends only by a report of success, a report of failure that schedules the backed-off retry, or recovery of a claim two minutes old. |
| `ChannelTransactions.ReplyExactly` | apps/light-agent-channel/src/main.rs:1001-1016 | A message with a turn gets a reply exactly once, against a live grant of its binding. |
| `ChannelTransactions.RecoveryExactly` | apps/light-agent-channel/src/main.rs:1017-1024 | Recovery puts back exactly the messages whose claim is over two minutes old. |
| `ChannelTransactions.DeliveryExactly` | apps/light-agent-channel/src/main.rs:1026-1122 | A claim is made exactly for a message whose retry time has come, on a binding in force, outside quiet hours, tried fewer than ten times and with a live grant; otherwise it is left, put off for a quarter of an hour or rejected. |
| `ChannelTransactions.ReportExactly` | apps/light-agent-channel/src/main.rs:1137-1155 | A report on a message in sending makes it delivered, or failed until the backed-off retry. |
| `ChannelTransactions.SendersExactly` | apps/light-agent-channel/src/main.rs:1118-1149 | A sender claims and then reports on exactly the message it claimed. |
| `ChannelTransactions.RetryDelays` | apps/light-agent-channel/src/main.rs:1150-1155 | The delay doubles from two seconds after the first attempt to 256 from the eighth on. |
| `ChannelOutbox.ClaimKeepsClaims` | apps/light-agent-channel/src/main.rs:1040-1121 | A claim transaction counts itself and stops at ten. |
| `ChannelScans.FailureLaw` | apps/light-agent-channel/src/main.rs:537-618 | However many claims expire, at most five failures are recorded for a message, fewer while it is waiting, an inbound message is rejected only after five claims, and a worker whose claim is current knows its attempt number. |
| `ChannelTransactions.ScanClaimExactly` | apps/light-agent-channel/src/main.rs:540-551 | A scanner gets exactly the received messages that wait past their retry time or whose claim expired. |
| `ChannelTransactions.ScanClaimDoes` | apps/light-agent-channel/src/main.rs:547-549 | A claim takes the row for five minutes and counts itself. |
| `ChannelTransactions.ScanFailureExactly` | apps/light-agent-channel/src/main.rs:604-613 | A failure of the current claim rejects the message from the fifth attempt on and puts it back before that. |
| `ChannelTransactions.ScanCompletionExactly` | apps/light-agent-channel/src/main.rs:600-602 | A completion of the current claim marks the message clean; any other changes nothing. |
| `ChannelTransactions.ScannersExactly` | apps/light-agent-channel/src/main.rs:592-614 | A scanner creates the turn of, and reports on, the message it claimed, under its token and attempt number. |
| `ChannelTransactions.ScanDelays` | apps/light-agent-channel/src/main.rs:608-608 | The delay doubles from two seconds after the first attempt and is five minutes from the ninth on. |
| `ChannelScans.SupersededClaimIsDead` | apps/light-agent-channel/src/main.rs:600-614 | After a takeover a worker's report has no effect on the message, whenever in the run it comes. |
| `ChannelScans.LeaseProtects` | apps/light-agent-channel/src/main.rs:540-551 | Over any run in which its lease does not run out and its holder does not report, a claim stays as it is; the holder's death changes nothing. |
| `ChannelScans.ClaimsLaw` | apps/light-agent-channel/src/main.rs:537-618 | Over every run a message's claims are its failures, its takeovers and the claim that is current or succeeded; without a takeover there are at most five. |
| `ChannelScans.ClaimsAreUnbounded` | apps/light-agent-channel/src/main.rs:540-551 | For every number there is a run with that many claims of one message, six included, and no recorded failure. |
| `ChannelScans.StaleScannerMayAdmit` | apps/light-agent-channel/src/main.rs:725-733 | After a takeover a scanner can create the turn of a message that has none and change nothing else; then the new holder's failures are not recorded either. |
| `ChannelScans.StaleScannerAdmits` | apps/light-agent-channel/src/main.rs:593-602 | A run in which a scanner creates the turn while another one holds the claim it took over. |
| `ChannelScans.NewClaimSupersedes` | apps/light-agent-channel/src/main.rs:538-551 | Taking a claim supersedes every token handed out before. |
| `ChannelService.ChannelDatabase.TriggerPass` | apps/light-agent-channel/src/main.rs:856-972 | The statements of a pass amount to its outcome applied at once; a pass that rolls back leaves no trace of what it wrote. |
| `ChannelService.ChannelDatabase.Fire` | apps/light-agent-channel/src/main.rs:931-972 | Budget, counters, grant use and unique message are committed together or not at all. |
| `ChannelService.ChannelDatabase.Complete` | apps/light-agent-channel/src/main.rs:951-972 | Grant and message, or the tables as they were saved. |
| `ChannelService.ChannelDatabase.ReserveBudget` | apps/light-agent-channel/src/main.rs:931-940 | The conditional upsert writes the reservation the rule allows and says whether it did. |
| `ChannelService.ChannelDatabase.ConsumeGrant` | apps/light-agent-channel/src/main.rs:952-953 | The conditional update counts a use exactly when the grant is live and within its maximum. |
| `ChannelService.ChannelDatabase.InsertMessage` | apps/light-agent-channel/src/main.rs:966-971 | The insert happens exactly when the event key is free. |
| `ChannelService.ChannelDatabase.ConnectorEvent` | apps/light-agent-channel/src/main.rs:248-258 | A connector event leaves a message and a grant use, or neither. |
| `ChannelService.ChannelDatabase.DeliveryClaim` | apps/light-agent-channel/src/main.rs:1026-1122 | Refusals, quiet hours and the claim with its grant use, in the order of the source, amount to the claim rule. |
| `ChannelService.ChannelDatabase.ScanFailure` | apps/light-agent-channel/src/main.rs:604-614 | A failure is recorded for the current claim only, terminally from the fifth attempt on. |
| `SseReframer.RelayIsSplit` | apps/light-a2a/src/lib.rs:2601-2698 | For every chunking, every error and every limit: the relay hands over the one-shot split of the stream, or, exactly when the stream breaks or passes the limit, a prefix of that split and a failure. |
| `SseReframer.RelaySplits` | apps/light-a2a/src/lib.rs:2601-2698 | The same from any position within a stream that comes to its end. |
| `SseReframer.RelayCutsShort` | apps/light-a2a/src/lib.rs:2601-2698 | The same from any position within a stream that is cut short: only complete blocks, then a failure. |
| `SseReframer.ChunkingDoesNotMatter` | apps/light-a2a/src/lib.rs:2601-2698 | Two chunkings of one stream within the limit cannot be told apart downstream. |
| `SseReframer.SplitIsSplit` | apps/light-a2a/src/lib.rs:2601-2698 | The split loses no byte, and its blocks end at LF LF and contain none earlier. |
| `SseReframer.SplitIsUnique` | apps/light-a2a/src/lib.rs:2601-2698 | There is no other way to cut a stream like that. |
| `SseReframer.WithinLimit` | apps/light-a2a/src/lib.rs:2601-2698 | The relay reaches the end of a stream exactly when it does not break and its bytes stay within the limit. |
| `SseReframer.BoundaryIsFirst` | apps/light-a2a/src/lib.rs:2601-2698 | The window search finds the first LF LF, and nothing exactly when there is none. |
| `SseReframer.Reframer.Next` | apps/light-a2a/src/lib.rs:2601-2698 | One poll yields the first remaining item and leaves the others. |
| `SseReframer.Reframer.Drain` | apps/light-a2a/src/lib.rs:2601-2698 | Polling to the end yields exactly what remained. |
| `ChatDriver.Driver.Run` | apps/light-cli/src/chat.rs:438-499 | Over a whole chat, attempts, endings, what was typed and what is left are those the connections' inputs amount to; what was delivered is a prefix of what was typed, the rest is held or queued, and all of it went out after the session frame of its connection; attempts are bounded by the connections that dropped after a reply or error frame; Closed comes once and last. |
| `ChatDriver.Driver.Select` | apps/light-cli/src/chat.rs:517-604 | One turn of the select loop conserves delivered, held and queued messages, moves the connection's standing as the input says and ends it exactly as the input demands. |
| `ChatDriver.Driver.Flush` | apps/light-cli/src/chat.rs:559-564 | Held messages go out oldest first; the one whose write fails is put back in front. |
| `ChatDriver.Driver.SendMessage` | apps/light-cli/src/chat.rs:607-618 | A message counts as delivered, and as in flight, exactly when its write succeeded. |
| `ChatDriver.Driver.OnFrame` | apps/light-cli/src/chat.rs:548-592 | What each frame tells the person, how it ends the connection, and what becomes of the message in flight. |
| `ChatDriver.Driver.OnCommand` | apps/light-cli/src/chat.rs:526-539 | The next command is sent, held back or ends the chat, and nothing is lost on a failed write. |
| `ChatDriver.Driver.Pump` | apps/light-cli/src/chat.rs:509-605 | A connection takes its inputs up to the first that ends it and ends as that one demands; what was typed is what those inputs typed, and queue, held messages and session are what they leave. |
| `ChatDriver.Driver.Reconsider` | apps/light-cli/src/chat.rs:453-497 | A renewal goes on while reconnects are left; a drop goes on if there is a session to resume and reconnects are left, counted afresh after a stable connection; and what the person is told. |
| `ChatDriver.ChatStopsForAReason` | apps/light-cli/src/chat.rs:438-499 | A chat stops at its last ending and at no earlier one: the person left, a fatal error, a drop before any session frame, or a drop or renewal after the full count of reconnects since the last stable drop. |
| `ChatDriver.ChatMakesItsAttempts` | apps/light-cli/src/chat.rs:438-499 | Until it stops, a chat makes all its attempts in turn or is still on the last. |
| `ChatDriver.EndingsOfAttempts` | apps/light-cli/src/chat.rs:438-499 | The endings of a chat are those of its attempts in turn. |
| `ChatDriver.RefusedAttempt` | apps/light-cli/src/chat.rs:441-452 | A refused attempt is a drop with a session to resume, and fatal without. |
| `ChatDriver.TakesUpToFirstEnding` | apps/light-cli/src/chat.rs:509-605 | A connection takes its inputs up to the first that ends it, and ends as that one says. |
| `ChatDriver.EndsExactly` | apps/light-cli/src/chat.rs:517-604 | Which inputs end a connection, and how: the person leaving, the deadline, an agent without chat, a renewal by frame or by close code 4401, any other close, the end of the stream or a failed write. |
| `ChatDriver.MovesExactly` | apps/light-cli/src/chat.rs:517-604 | How each input moves queue, held messages, session and the two flags of a connection. |
| `ChatDriver.TellsExactly` | apps/light-cli/src/chat.rs:548-592 | What a frame tells the person; that a message was not sent only if the server says so of the very message in flight. |
| `ChatDriver.AttemptsAreBounded` | apps/light-cli/src/chat.rs:438-499 | For all inputs, a chat makes at most one attempt more than the reconnects it is granted: the maximum, once more for every connection that dropped after a reply or error frame. |
| `ChatDriver.DropsTellTheTruth` | apps/light-cli/src/chat.rs:509-605 | A drop reports its connection as greeted, or as stable, exactly if a frame among the inputs it took made it so. |
| `LoginWorld.HandedOutOnlyAfterSaving` | apps/light-cli/src/auth.rs:217-291 | Under every interleaving of processes, an access token handed out had been saved before. |
| `LoginWorld.ReplacedTokenIsNeverPresented` | apps/light-cli/src/auth.rs:247-333 | A refresh token that left the file is never presented again by any process, to refresh or to revoke. |
| `LoginWorld.RotationIsFinal` | apps/light-cli/src/auth.rs:262-285 | Once the server issued another refresh token and the renewed session replaced the file, that token is in the file and the one asked with is never presented again by anybody, whatever happens in between and afterwards. |
| `LoginWorld.AsksExactly` | apps/light-cli/src/auth.rs:247-262 | The server is asked exactly if the stored token has a minute or less left and the login has not ended, and with the stored refresh token. |
| `LoginWorld.TokenExactly` | apps/light-cli/src/auth.rs:217-230 | A call gets the stored token while it has more than a minute left, and otherwise sets out to renew it unless the login has ended. |
| `LoginWorld.LoginRefines` | apps/light-cli/src/auth.rs:179-185 | An approved sign-in is stored as it was issued, whatever other processes do meanwhile. |
| `LoginWorld.SessionChanges` | apps/light-cli/src/auth.rs:247-333 | A stored session is renewed with its login end unchanged, replaced by a login, or removed by a sign-in-required answer for this very session or by a logout of this very session. |
| `LoginWorld.RefreshingNeverExtends` | apps/light-cli/src/auth.rs:247-291 | Without a new login, no run brings a session back or moves the end of the login. |
| `LoginWorld.RunKeepsInv` | apps/light-cli/src/auth.rs:217-333 | The lock has one holder, a holder's view of the file is current, and issued tokens are in one hand, through every run. |
| `LoginWorld.RefreshRefines` | apps/light-cli/src/auth.rs:247-291 | With any steps of other processes between its own, a refresh has the effect of the refresh command on the file as it was when the lock was taken. |
| `LoginWorld.OthersKeepHolder` | apps/light-cli/src/auth.rs:247-333 | While a process holds the lock, no steps of others change the file or the process. |
| `LoginWorld.LogoutRefines` | apps/light-cli/src/auth.rs:295-333 | With any steps of other processes between its own, a logout has the effect of the logout command; what it revokes is what the lock protects and what it removes. |
| `LoginSession.Store.Refresh` | apps/light-cli/src/auth.rs:247-291 | What a refresh leaves and hands out, field by field: a token with a minute to go as it is, nothing for an ended login, the issued tokens with the issued refresh token in place of the old one, removal when the server demands a sign-in. |
| `LoginSession.Store.UserToken` | apps/light-cli/src/auth.rs:217-230 | A token handed out is the one in the file; the session is removed only on a sign-in-required answer and changed only into its renewal. |
| `LoginSession.Store.Logout` | apps/light-cli/src/auth.rs:295-333 | The session is removed exactly when it was revoked, or locally on request, and the file could be cleared. |
| `DevicePolling.AwaitApproval` | apps/light-cli/src/auth.rs:144-177 | Every poll is sent one pause after the last exchange and before the deadline, and each verdict follows: approval, refusal, three failures in a row, or a next poll that would be at or past the deadline; the wait never ends earlier. |
| `DevicePolling.PoliteMeans` | apps/light-cli/src/auth.rs:144-177 | Any two successive polls are at least the interval apart, longer by one step for every slow_down before, and none is sent at or past the deadline (section 3.5 of RFC 8628). |
| `ClaudeStream.AcceptRun` | apps/light-agent-worker/src/claude_code.rs:534-653 | Feeding all frames and finishing succeeds on exactly the accepted language and then reports what the run says. |
| `ClaudeStream.Stream.Feed` | apps/light-agent-worker/src/claude_code.rs:534-650 | A frame is taken exactly when the run stays acceptable with it; a refusal changes nothing. |
| `ClaudeStream.Stream.Examine` | apps/light-agent-worker/src/claude_code.rs:534-650 | The checks of one frame against the machine's fields admit exactly the frames that fit, and yield their events. |
| `ClaudeStream.Stream.Finish` | apps/light-agent-worker/src/claude_code.rs:651-653 | A result exists exactly when the frames fed form an accepted run. |
| `ClaudeStream.AcceptedRunsAreComplete` | apps/light-agent-worker/src/claude_code.rs:534-653 | An accepted run has one init and one final frame, its last; what the model said lies after the init; all session ids match; reported denials cover the observed ones. |
| `ClaudeStream.AcceptedExactly` | apps/light-agent-worker/src/claude_code.rs:534-653 | The accepted runs are exactly those with one init of this session, model and permission, one successful final frame as the last, sound frames of this session only, and everything the model says after the init. |
| `ClaudeStream.ReportsExactly` | apps/light-agent-worker/src/claude_code.rs:604-648 | The report has the final frame's text and the larger of the denials it lists and those observed. |
| `ClaudeStream.NormalizesExactly` | apps/light-agent-worker/src/claude_code.rs:556-600 | Which event each kind of frame is normalized to. |
| `ClaudeStream.ObservesTools` | apps/light-agent-worker/src/claude_code.rs:587-601 | The tool observations of a message are its tool uses. |
| `ClaudeStream.NeverPromisingAgain` | apps/light-agent-worker/src/claude_code.rs:534-650 | A refused prefix has no acceptable continuation. |
| `ClaudeStream.ObserveTools` | apps/light-agent-worker/src/claude_code.rs:587-602 | Tool observations are listed in order, or the frame is refused exactly when one is malformed. |
| `ClaudeStream.AcceptValidated` | apps/light-agent-worker/src/claude_code.rs:91-105 | A committed proposal comes from a run without any denial, and is on disk under the new checkpoint; a refused one changes nothing. |
| `ImageSelector.SelectImages` | scripts/select-changed-apps.py:97-173 | A name is in the answer exactly if it is asked for and its image is concerned by a changed path in the root: a build-wide input, a path whose owner its targets reach, or an unowned contract with a reader they reach or with none; both errors are characterized. |
| `ImageSelector.TouchedExactly` | scripts/select-changed-apps.py:117-144 | What a changed path concerns images through: everybody, its owner, or the readers of its contract. |
| `ImageSelector.SelectedExactly` | scripts/select-changed-apps.py:157-173 | The same for any list of images. |
| `ImageSelector.Closure` | scripts/select-changed-apps.py:161-168 | The worklist ends on every graph, cycles included, with exactly the packages reachable by dependency walks. |
| `ImageSelector.Visit` | scripts/select-changed-apps.py:163-168 | One visit adds exactly the new dependencies to closure and worklist. |
| `ImageSelector.FindOwner` | scripts/select-changed-apps.py:111-131 | The owner of a path is a package whose directory contains it and is as deep as any that does; there is none exactly when no directory contains it. |
| `ImageSelector.OwnerIsDeepest` | scripts/select-changed-apps.py:111-131 | The same of sorting by depth and taking the first. |
| `ImageSelector.OwnersShareDirectory` | scripts/select-changed-apps.py:111-131 | All owners of a path share one directory. |
| `ImageSelector.CollectChanges` | scripts/select-changed-apps.py:117-144 | What is collected from the changed paths does not depend on their order. |
| `ImageSelector.RequestOnlyFilters` | scripts/select-changed-apps.py:168-173 | Asking for some images never changes the verdict on any. |

## Left out

- HTTP, WebSocket, TLS, SQL, git, child processes and the sandbox around them: only their outcomes and guards appear, as parameters and steps.
- HMAC, SHA-256, JWT and Agent Card signatures, and the data-boundary digest on grants: calls into libraries.
- Symbolic links, permissions and ownership checks of the session files: they refuse an open before the modelled steps begin.
- The waiting loop for a thread lock: an open sees the lock free or busy.
- The listing of expired records before a reclamation pass: the pass may lock any record and decides again under the lock, which includes every listing.
- 64-bit arithmetic: integers are unbounded; `OccurrencesDoNotOverflow` bounds the products of the schedule.
- Order of selection among due triggers, deliveries and scans: any eligible row may be taken, which includes the order of the source.
- Replies enqueued by one statement for several messages: one step per message.
- Signature, cursor and destination checks before a connector event's transaction: they only narrow which events reach it.
- Sizes and bounded reads in `scan_slack_attachments`, and creating the turn itself in `admit_channel_turn`: only the message row is modelled.
- A chat message whose write failed after the server had read it: a failed write counts as not delivered, as in the source.
- `parse_frame`, `chat_url`, `find_agent`, `describe`, `status`: correct but easy members.
- `A2aConfig::validate`, `AgentConfig::validate` and other lists of single checks: no property over runs.
- `reload_projection`, `gateway_credentials.rs`, `long_authority.rs`, `a2a_store`, `artifact_store`: not modelled.
