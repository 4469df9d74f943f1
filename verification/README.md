# FlowType, verified

FlowType lets a phone type into the focused window of a Windows computer and exchange files
with it. This project is a Dafny model of its three stateful cores, with proofs about all of
their runs. `dafny verify dfyconfig.toml` checks everything.

**Live text** (`Tip`, `TextService`, `SessionObject`, `Injector`, `InjectorService`,
`Replies`, `Dispatcher`, `Once`). The phone sends whole-text snapshots with sequence numbers. The desktop app
passes them to an injector process, which drives a text service inside the target
application, which owns a range of the document. `Tip` says what each command does to the
text service and to the document; `Injector` puts the injector, a first-in first-out line of
commands to each text service, and the environment into one step system in which updates,
finishes, queries, cancels and begins may time out and be executed late, and services may
leave and join. The classes in
`TextService`, `SessionObject` and `InjectorService` are the imperative code, each method
proved equal to its specification, and `Tip` and `Replies` say of every answer exactly when it
is given and what it leaves in the document. The main results: in every reachable state both sides
hold the same id, sequence and text, as long as no sent begin times out and joining
services are idle, and exactly then; the text service is a run of the simple session model;
without an edit in the application a finished document is the text before, the final
snapshot and the text after; a snapshot whose pipe broke is confirmed, sent again or given up exactly as what the injector
holds demands;
and over a whole run a snapshot is written at most once over all services, those that left
included, until its session is begun again.

**File transfer** (`Upload`, `Receiving`, `Leases`, `Resume`, `Completion`, `Delivery`, `Batches`, `Markers`, `Manifest`,
`Ingest`, `ProgressFile`, `Entries`, `Bytes`, `Names`, `Targets`, `Outbound`). Every single file
operation is a step, and a crash may follow any of them, keeping synced bytes and leaving
anything of the others. Requests interleave. Besides what every run keeps it is proved what an
undisturbed one achieves: an upload resumed after any run completes exactly when its committed
bytes are still there, and every unfinished batch has a way to be delivered whole. On top of that come the data formats: manifest
with its index, progress records, framing of the request body, target names, and the
offer of a directory forest.

**Connection limiter** (`Limiter`). A sliding window, live leases and an evicting table,
compared with a limiter that never forgets, and with the verdict an observer of the grants,
leases and attempts would give.

The imperative code is modelled by classes and methods with loops. The parts that are about
concurrency and crashes (`Injector`, `Upload`, `Completion`, `Batches`, `Markers`) are step
systems over values, because what matters there is what may come between two operations.

Some things the code does that a reader might not expect, each with its exact condition:

- The server verifies and completes a file whose bytes were never synced, if the upload
  connection drops after the last byte; the comment in the source that calls the part file
  staged until it is confirmed suggests more. For every committed length short of the file
  a crash can then lose the rest (`Upload.UnsyncedUploadCanBeLost`), and a verified file is
  safe exactly when its whole length was committed (`Upload.DurableIffFullyCommitted`).
- An upload request between the rename and a repeated verification creates an empty part
  file, and recovery works exactly when there is none (`Upload.PublishedRecoversIffNoPart`).
- A failure report removes the part file and keeps the committed offset, at which every later
  upload must start. A reported file can still be completed exactly when nothing of it had been
  committed (`Resume.ReportIsFinalIff`).
- `acquire_operation` looks at the verification map and takes its lease under two separate
  locks. An upload between them can take a completion back exactly when it can open its part
  and a verification that can still succeed was in the map when it read the progress
  (`Leases.LateTakeUndoesIff`). It can make the verification publish a file cut off after its
  hash was checked (`Leases.LateTakePublishesCutFile`). And since an open file keeps its
  handle when it is renamed, it can cut and write a target that is already recorded
  (`Leases.LateTakeOverwritesTarget`): a target is written to exactly by an upload under which
  a background verification renamed the part (`Upload.TargetIsOpenedIff`). That no
  verification completes an entry beside a late lease is the guard under which a completed
  batch is complete (`Completion.CompletedBatchIsComplete`).
- A text service that lost its pipe connects again with its session, and a Begin that timed
  out is executed late because the source sends no cancel after it. The two sides agree
  throughout a run exactly when neither happens (`Injector.AgreesThroughoutIff`). After a
  join with a session the next Begin of another one is refused; one of the same session is
  taken over with a snapshot the service may not have, or fails if the target was modified.
- A numbered name may exceed the 240 units an unnumbered one keeps, exactly when its
  extension leaves no room (`Names.NumberedFitsIff`). A sanitized name may still be reserved:
  `CON.txt` becomes `CON.txt_`, and a long name is cut after the check; the exact condition
  for every segment is `Names.ReservedAfterSanitizingIff`.

## Model

| member | source | states |
|---|---|---|
| `Tip.CommandSimulates` | windows/flowtype-tip/src/service.rs:160-329 | every command of the text service, whatever the host answers, is a sequence of steps of the session model with the model's id, sequence, text and modified flag, and its answer is exactly the model's, up to the rebind renaming and a rejected edit |
| `Tip.ReactionSimulates` | windows/flowtype-tip/src/composition.rs:588-635 | edits in the application and ended compositions are terminate and end-composition steps of the session model, or stutters |
| `Tip.RunSimulates` | windows/flowtype-core/src/tip.rs:69-157 | every run of commands and host events is a run of the session model |
| `Tip.UpdateOutcome` | windows/flowtype-tip/src/service.rs:221-267 | an update changes the session only when it answers Applied for a newer sequence; it answers CompositionTerminated exactly when its session's target is modified; every other refusal leaves the state alone; when it answers Applied, and what it wrote then, is `Tip.UpdateAppliedIff` |
| `Tip.UpdateAppliedIff` | windows/flowtype-tip/src/composition.rs:376-400 | a newer update is answered Applied if and only if the session is this one, unmodified, its range reads the last text with the caret at its end, and focus, grant, write and caret succeed; then the document is text before, the new text, text after, the caret is behind it, and one write was logged |
| `Tip.UpdateRefusals` | windows/flowtype-tip/src/service.rs:221-267 | every answer an update can get, each with its exact condition, and what it leaves |
| `Tip.BeginBegunIff` | windows/flowtype-tip/src/composition.rs:311-374 | on an idle service a Begin begins if and only if it has focus, sink, grant, a snapshot written or attached to the same text just before the caret, and its caret; it writes exactly when it did not attach |
| `Tip.BoundBegin` | windows/flowtype-tip/src/service.rs:160-219 | a service with a session answers a Begin RebindRejected, CompositionTerminated or begun, by whose session it is and whether it was modified, and changes nothing |
| `Tip.FinishFinishedIff` | windows/flowtype-tip/src/service.rs:269-296 | a finish succeeds if and only if session and sequence match, nothing was modified, the range is intact, the edit is granted and an open composition can be closed; every refusal has its reason and changes nothing |
| `Tip.OtherAnswers` | windows/flowtype-tip/src/service.rs:298-329 | cancel, query and ping: a modified target is answered CompositionTerminated, an unmodified one with its sequence |
| `Tip.CommandsWriteOnlyTheOwnedRange` | windows/flowtype-tip/src/composition.rs:376-421 | during a session only a newer update of that session writes, only if the range reads the last applied text with the caret collapsed at its end and the target is unmodified, and the text outside the range never changes; that it does write then is `Tip.UpdateAppliedIff` |
| `Tip.RunKeepsSurroundings` | windows/flowtype-tip/src/composition.rs:342-421 | over any run without an edit in the application, an open session keeps the text before and after its range |
| `Tip.RunStaysIdle` | windows/flowtype-tip/src/service.rs:221-329 | without a Begin an idle service stays idle and writes nothing |
| `Tip.BegunSession` | windows/flowtype-tip/src/composition.rs:311-374 | a successful begin owns exactly its snapshot with the caret at its end; without a write it attached: the document is unchanged and the range is the text just before the collapsed caret |
| `Tip.BegunSurroundings` | windows/flowtype-tip/src/composition.rs:311-374 | a begin that wrote replaced exactly the selection |
| `Tip.FinishedDocument` | windows/flowtype-tip/src/composition.rs:402-420 | a finish answered Finished leaves text before, last applied snapshot, text after, and that snapshot has the finished sequence |
| `Tip.ModifiedTargetIsNeverWritten` | windows/flowtype-tip/src/composition.rs:192-209 | once the target is marked modified, no action writes for that session until it is cancelled |
| `Tip.InsertionTouchesRange` | windows/flowtype-tip/src/composition.rs:342-374 | with backward gravity at the start and forward gravity at the end, an insertion falls inside the range exactly when it lies in it or touches it |
| `Tip.TypingIntoRangeIsSeen` | windows/flowtype-tip/src/composition.rs:606-635 | typing in or at the edge of the range marks the target modified when the sink sees it, and otherwise the next newer update finds out and does not write |
| `Tip.TypingElsewhereKeepsRange` | windows/flowtype-tip/src/composition.rs:150-190 | an insertion elsewhere leaves the owned text as it is |
| `Tip.EditElsewhereKeepsRange` | windows/flowtype-tip/src/composition.rs:342-374 | any edit that keeps clear of the owned range leaves its text and shifts it by what comes before |
| `Tip.EditMarksIff` | windows/flowtype-tip/src/composition.rs:606-635 | an edit in the application marks the target if and only if it was marked, or the sink of a live session reads a range that is no longer intact |
| `Tip.EndedComposition` | windows/flowtype-tip/src/composition.rs:196-209 | a composition the host ends outside our edits marks the target; the asynchronous finish does not |
| `TextService.Controller.EditBegin` | windows/flowtype-tip/src/composition.rs:311-374 | the edit session of a begin does what `Tip` says, including the callback that may end the composition |
| `TextService.Controller.EditUpdate` | windows/flowtype-tip/src/composition.rs:376-400 | the edit session of an update does what `Tip` says: it succeeds and rewrites the range exactly under the condition of `Tip.EditAppliedIff` |
| `TextService.Controller.EditFinish` | windows/flowtype-tip/src/composition.rs:402-421 | a finish succeeds exactly when the edit is granted, the target is unmodified and matches, and the composition could be ended |
| `TextService.Controller.MatchesExpectedEditState` | windows/flowtype-tip/src/composition.rs:150-190 | true exactly when the range reads the last applied text and the caret is collapsed at its end |
| `TextService.Controller.CompositionTerminated` | windows/flowtype-tip/src/composition.rs:196-209 | the callback ends the composition and marks the target modified unless our own edit is under way |
| `TextService.Controller.Begin` | windows/flowtype-tip/src/service.rs:160-219 | the whole new state and the answer are those of `Tip.DoBegin` |
| `TextService.Controller.Update` | windows/flowtype-tip/src/service.rs:221-267 | the whole new state and the answer are those of `Tip.DoUpdate`, pinned by `Tip.UpdateAppliedIff` and `Tip.UpdateRefusals` |
| `TextService.Controller.Finish` | windows/flowtype-tip/src/service.rs:269-296 | the whole new state and the answer are those of `Tip.DoFinish` |
| `TextService.Controller.Cancel` | windows/flowtype-tip/src/service.rs:298-314 | the whole new state and the answer are those of `Tip.DoCancel` |
| `TextService.Controller.HandleCommand` | windows/flowtype-tip/src/service.rs:137-158 | every command has the state and answer of `Tip.Execute` |
| `TextService.Controller.OnHostEvent` | windows/flowtype-tip/src/composition.rs:588-635 | the sinks react as `Tip.React` says |
| `SessionObject.TipSession.Begin` | windows/flowtype-core/src/tip.rs:70-93 | the session model's begin, as the step `Tip` simulates |
| `SessionObject.TipSession.Update` | windows/flowtype-core/src/tip.rs:95-121 | the session model's update, as the step `Tip` simulates |
| `SessionObject.TipSession.Finish` | windows/flowtype-core/src/tip.rs:131-140 | the session model's finish, as the step `Tip` simulates |
| `SessionObject.TipSession.Cancel` | windows/flowtype-core/src/tip.rs:142-148 | the session model's cancel, as the step `Tip` simulates |
| `SessionObject.FollowAll` | windows/flowtype-core/src/tip.rs:69-157 | over every run of commands and host events the text service object and the session model object stay equal in id, sequence, text and flags |
| `Injector.EveryReachableStateAgrees` | windows/flowtype-injector/src/main.rs:293-521 | from the start, after any requests, timeouts, disconnects, host events, joins and departures in which no sent Begin timed out and every joining service was idle: an active session's connected service has its id, sequence and text and an empty line, and without a session every service with an empty line is idle |
| `Injector.EveryRunAgrees` | windows/flowtype-injector/src/main.rs:293-521 | the same agreement over every such run, from any state that has it |
| `Injector.StepAgrees` | windows/flowtype-injector/src/main.rs:103-120 | every request that leaves no Begin waiting, every disconnect, late execution, host event, join of an idle service and departure keeps agreement |
| `Injector.JoinAgreesIff` | windows/flowtype-tip/src/ipc.rs:131-186 | a joining service keeps agreement exactly when it is idle; one that reconnects with its session breaks it |
| `Injector.AgreesThroughoutIff` | windows/flowtype-injector/src/tip_broker.rs:231-260 | over any run the two sides agree throughout exactly when every joining service is idle and no Begin that was sent to a connected client timed out |
| `Replies.AgreeIsHeld` | windows/flowtype-injector/src/main.rs:293-521 | agreement implies that the active session is held by its service, which is all that the exact replies below need |
| `Injector.RejoinedSessionRefuses` | windows/flowtype-tip/src/service.rs:160-219 | after a service joined with a session, the next Begin of another session is answered TargetModified |
| `Injector.RejoinedSessionIsTakenOver` | windows/flowtype-tip/src/service.rs:160-219 | a Begin of the very session it joined with, unmodified, is answered as begun, and then the two sides agree exactly if the service already had that snapshot |
| `Injector.RejoinedModifiedSessionFails` | windows/flowtype-tip/src/service.rs:160-219 | if its target was modified, the same Begin fails with no service available, and the service keeps its session |
| `Injector.AttemptAgreesIff` | windows/flowtype-injector/src/tip_broker.rs:84-143 | one Begin sent to one client keeps agreement exactly when a connected client answered it in time |
| `Injector.BeginForTargetAgreesIff` | windows/flowtype-injector/src/tip_broker.rs:84-143 | trying the candidates keeps agreement exactly when no Begin that was sent to a connected client timed out |
| `Injector.HandleAgreesIff` | windows/flowtype-injector/src/main.rs:293-521 | a request keeps agreement exactly when no Begin it sent to a connected client timed out |
| `Injector.LateBeginRefuses` | windows/flowtype-injector/src/tip_broker.rs:84-143 | a Begin that timed out and is executed late leaves a session nobody owns, and the next Begin is refused |
| `Injector.HandleAgrees` | windows/flowtype-injector/src/main.rs:293-521 | a request that left no Begin waiting keeps agreement; an acknowledgement names exactly the snapshot both sides then hold; such a Begin is never refused as an unsafe rebind |
| `Injector.ApplyAgrees` | windows/flowtype-injector/src/main.rs:674-777 | after an apply both sides agree, and Applied names the sequence and, for this snapshot, the text they hold |
| `Replies.ApplySucceedsIff` | windows/flowtype-injector/src/main.rs:674-777 | a newer snapshot is answered Applied if and only if target, input and window are right, the service is reached, and there the session is unmodified, intact and focused and the edit succeeds; then the range in the document reads the snapshot and both sides have it |
| `Replies.ApplySent` | windows/flowtype-injector/src/main.rs:700-777 | every reply to an apply whose update was sent, by the state the service is in when it executes it |
| `Replies.ApplyUnsentReplies` | windows/flowtype-injector/src/main.rs:674-700 | every reply that is given before the service is asked, with its exact condition |
| `Injector.FinishAgrees` | windows/flowtype-injector/src/main.rs:779-823 | Finished means the session is closed and remembered with its id, sequence and text; when it is answered is `Replies.FinishSucceedsIff` |
| `Replies.FinishSucceedsIff` | windows/flowtype-injector/src/main.rs:779-823 | a finish is answered Finished if and only if the session has this id and sequence, its service is connected, the call is in time, and when it is executed the service is unmodified and intact, the edit is granted and the composition can be closed; then the session is gone, remembered, and its document as it was |
| `Replies.FinishRefusals` | windows/flowtype-injector/src/main.rs:779-823 | a finish of another session or sequence changes nothing; any other that fails ends the session |
| `Injector.QueryAgrees` | windows/flowtype-injector/src/main.rs:541-613 | an active reply reports the session both sides hold, and the query does not change it |
| `Replies.QueryReplies` | windows/flowtype-injector/src/main.rs:541-613 | a query reports the session if and only if the input is its own and the service, when it is due to be asked, is reached and unmodified; otherwise the session ends as submitted or modified, exactly |
| `Replies.OtherReplies` | windows/flowtype-injector/src/main.rs:434-521 | queries about any other session, cancels, hellos and probes |
| `Injector.BeginAgrees` | windows/flowtype-injector/src/main.rs:310-432 | a begin that left no Begin waiting keeps agreement whether it resumes, replaces, is refused or opens, and a begun reply names the active session |
| `Replies.BeginReplies` | windows/flowtype-injector/src/main.rs:310-386 | a Begin of the active or the completed session changes nothing, one that does not name the session it replaces is invalid, and any other goes to the target |
| `Replies.GateReplies` | windows/flowtype-injector/src/main.rs:387-432 | a missing, unsupported or unactivated target, or a missing input monitor, is answered as such before any client is asked |
| `Replies.OpenReplies` | windows/flowtype-injector/src/main.rs:387-432 | when the two sides agree, a Begin that reaches the clients opens the session if and only if one of them began; otherwise the reply tells refused from absent |
| `Injector.BeginForTargetAgrees` | windows/flowtype-injector/src/tip_broker.rs:84-143 | trying one client after the other, none of those asked timing out, leaves every refused client settled and the accepting one holding the snapshot |
| `Injector.EndFailedSessionAgrees` | windows/flowtype-injector/src/main.rs:825-834 | cancelling a session restores agreement even when earlier commands, or the cancel itself, are still in line |
| `Injector.SettledFlush` | windows/flowtype-injector/src/tip_broker.rs:231-260 | a service with its cancel in line is idle once its line is executed, whatever the host answers |
| `Injector.QuietRun` | windows/flowtype-injector/src/main.rs:293-521 | over any run without edits in applications and without another begin that opens, whatever joins, times out or is left waiting at other services, an open session keeps its service and the text around its range |
| `Injector.FinishedSessionDocument` | windows/flowtype-injector/src/main.rs:779-823 | a session its service holds, answered Finished after such a run, left text before, the completed snapshot, text after, whatever updates, refusals, timeouts, repeated begins and queries came between |
| `Injector.BegunSessionDocument` | windows/flowtype-injector/src/main.rs:387-432 | a newly begun session owns exactly its snapshot and is held by its service, whatever the others do; in the document as it was when its client executed the Begin, it replaced the selection or attached to the text just before the caret |
| `Injector.AgreedBeginIsFresh` | windows/flowtype-injector/src/tip_broker.rs:84-143 | when the two sides agree and no sent Begin times out, the client that begins had no session of its own |
| `Injector.WholeSessionDocument` | windows/flowtype-injector/src/main.rs:293-521 | from Begin to Finish without an edit in the application, the document is the text before the selection, the final snapshot, the text after it; or, attached, the first snapshot just before the caret replaced by the last |
| `Injector.AskedFirstDocument` | windows/flowtype-injector/src/main.rs:293-521 | the same about the document as it was at the request, for a service asked first with nothing in line |
| `Injector.WaitingForRoomIsAScript` | windows/flowtype-injector/src/tip_broker.rs:158-170 | a sender held back by a full channel waits through a script of deliveries |
| `InjectorService.Service.SendTo` | windows/flowtype-injector/src/tip_broker.rs:145-170 | a command is queued, once there is room among eight waiting and one executing, and the line executed up to it, or it times out and stays queued |
| `InjectorService.Service.BeginOnTarget` | windows/flowtype-injector/src/tip_broker.rs:84-143 | the retry loop has the state and result of `Injector.BeginForTarget` |
| `InjectorService.Service.Begin` | windows/flowtype-injector/src/main.rs:310-432 | the whole new state and reply are those of `Injector.DoBeginSession` |
| `InjectorService.Service.Apply` | windows/flowtype-injector/src/main.rs:674-777 | the whole new state and reply are those of `Injector.DoApply` |
| `InjectorService.Service.Answer` | windows/flowtype-injector/src/main.rs:700-777 | every answer of the text service leaves the state and reply of `Injector.AnswerApply` |
| `InjectorService.Service.Finish` | windows/flowtype-injector/src/main.rs:779-823 | the whole new state and reply are those of `Injector.DoFinishSession`, pinned by `Replies.FinishSucceedsIff` and `Replies.FinishRefusals` |
| `InjectorService.Service.QueryActive` | windows/flowtype-injector/src/main.rs:541-613 | the whole new state and reply are those of `Injector.AskActive` |
| `InjectorService.Service.HandleRequest` | windows/flowtype-injector/src/main.rs:293-521 | every request has the state and reply of `Injector.Handle` |
| `InjectorService.Service.ServeConnection` | windows/flowtype-injector/src/main.rs:103-120 | the requests of a connection are answered in order, both sessions are cleared when it closes, and agreement is kept if none of them left a Begin waiting |
| `Dispatcher.RequestBlocking` | windows/flowtype-app/src/injector_dispatcher.rs:62-105 | whatever the pipe does, an acknowledged apply or finish is what the same injector instance holds; the outcome of a lost one is exactly that of `Dispatcher.Reconciles`; an apply is used at most once by the instance it was first sent to, however that is left; and another instance, whatever its services do, is not touched and answered with recovery required |
| `Dispatcher.Reconcile` | windows/flowtype-app/src/injector_dispatcher.rs:107-176 | the outcome is decided by what the injector has before and after the query: an older snapshot, or the one to finish, is sent again, exactly this one is confirmed, anything else needs recovery; agreement is kept, only what is held is confirmed and the snapshot is used at most once |
| `Dispatcher.Recover` | windows/flowtype-app/src/injector_dispatcher.rs:84-176 | over a new pipe to the same instance an apply or finish has exactly that outcome; any other instance is left exactly as it is |
| `Dispatcher.QueryDecides` | windows/flowtype-app/src/injector_dispatcher.rs:107-232 | the classified reply to the query is the decision the injector's session and remembered session call for |
| `Replies.LostRequestOutcome` | windows/flowtype-app/src/injector_dispatcher.rs:107-232 | with the same injector over working pipes: the session found alive at an older snapshot, or at the one to finish, makes the outcome the reply of handling the request again; exactly this snapshot, active or completed, is confirmed; recovery is required in exactly the other cases |
| `Dispatcher.AskApplyUses` | windows/flowtype-injector/src/main.rs:674-777 | in any state, one apply, whether the pipe fails before or after it and whether the session is kept or cleared, uses its snapshot at most once and leaves it spent if it may have |
| `Dispatcher.ApplyUses` | windows/flowtype-injector/src/main.rs:674-777 | the same for the apply itself, counting late executions of timed-out updates and begins |
| `Dispatcher.QueryUses` | windows/flowtype-injector/src/main.rs:541-613 | in any state a query never uses a snapshot and never brings a session back |
| `Once.EverySnapshotIsUsedOnce` | windows/flowtype-injector/src/main.rs:674-777 | over every run from the start, begins that time out and services that come back with their sessions included, counting every service that ever joined, connected or gone, and what it wrote since: a snapshot was, or still may be, written at most once over all of them, until its session is begun again after the first use |
| `Once.StepKeepsQuota` | windows/flowtype-injector/src/main.rs:293-521 | every event in any state, whether or not the two sides agree, keeps that bound |
| `Upload.StepKeeps` | windows/flowtype-app/src/file_transfer_server.rs:1403-1643 | every single file operation of uploads, failure reports and verifications, and every crash, keeps the entry's invariant |
| `Upload.EveryRunKeepsThePrefix` | windows/flowtype-app/src/file_transfer_server.rs:1403-1595 | over any run, an unpublished entry that did not fail has its committed prefix synced and equal to the source's, so a part committed at full length is the source |
| `Upload.EveryUploadKeepsThePrefix` | windows/flowtype-app/src/file_transfer_server.rs:1403-1595 | the same for every honest run from the first request on |
| `Upload.CompletedIsFinal` | windows/flowtype-app/src/file_transfer_server.rs:1053-1081 | no step of any request, and no crash, changes the progress of a completed entry |
| `Upload.TargetIsNeverOverwritten` | windows/flowtype-app/src/file_transfer_server.rs:1599-1643 | while the leases are kept no request overwrites or removes an existing target |
| `Upload.TargetChangesOnlyWhileOpen` | windows/flowtype-app/src/file_transfer_server.rs:1445-1546 | in any state an existing target changes by a request only through an upload that has it open |
| `Upload.OpenTargetIsWritten` | windows/flowtype-app/src/file_transfer_server.rs:1445-1546 | such an upload cuts the target to its offset and writes its body into it |
| `Upload.TargetIsOpenedIff` | windows/flowtype-app/src/file_transfer_server.rs:1599-1643 | an upload comes to have the target open exactly when a background verification renames the part it has open |
| `Upload.UnsyncedUploadCanBeLost` | windows/flowtype-app/src/file_transfer_server.rs:1599-1643 | for every committed length short of the file there is an honest run from the start that verifies and completes the file, and of which a crash leaves only the committed bytes |
| `Upload.DurableIffFullyCommitted` | windows/flowtype-app/src/file_transfer_server.rs:1599-1643 | every honest run that verifies staged files at committed offset k leaves a crash-proof target, if and only if k is the full length |
| `Upload.FullyCommittedRunIsDurable` | windows/flowtype-app/src/file_transfer_server.rs:1599-1643 | verified only at full committed length, a completed entry's target is the source and synced, through every crash |
| `Upload.InterruptedCommitRecovers` | windows/flowtype-app/src/file_transfer_server.rs:1597-1643 | cut off after any file operation of the commit, crashed and verified again: the target is the staged file, the part is gone, the entry is completed |
| `Upload.PublishedRecoversIffNoPart` | windows/flowtype-app/src/file_transfer_server.rs:1445-1455 | verifying a published, unrecorded file again completes the entry exactly when no part file is there, and then target, part and progress are right; an upload request at the full offset creates one |
| `Resume.ResumeCompletesIff` | windows/flowtype-app/src/file_transfer_server.rs:1403-1643 | from every reachable state of a free, unpublished file, sending the rest from the committed offset in frames of any size and verifying it, in the request or in the background, publishes the whole source if and only if the committed bytes are still there, and otherwise no run completes it; they are there whenever no failure was reported |
| `Resume.LostForGood` | windows/flowtype-app/src/file_transfer_server.rs:1445-1455 | once the committed bytes are gone no request, verification or crash ever completes the file |
| `Resume.ReportedFailure` | windows/flowtype-app/src/file_transfer_server.rs:1025-1081 | a failure report marks an unfinished file failed, keeps its committed offset and removes its part; a completed one stays as it is |
| `Resume.ReportIsFinalIff` | windows/flowtype-app/src/file_transfer_server.rs:1025-1081 | after a report the file can still be completed if and only if nothing of it had been committed |
| `Leases.LateTakeUndoesIff` | windows/flowtype-app/src/file_transfer_server.rs:182-198 | an upload that takes its lease between the two locks can take a completion back exactly when it can open its part and a background verification that can still succeed was in the map when it read the progress |
| `Leases.LateReportUndoesIff` | windows/flowtype-app/src/file_transfer_server.rs:182-198 | the same for a failure report, exactly when the verification can still succeed before the report marks the entry |
| `Leases.LateTakePublishesCutFile` | windows/flowtype-app/src/file_transfer_server.rs:182-198 | for every committed length short of the file an honest upload leads to a state in which a late upload makes the verification publish a file cut off there and record it as complete |
| `Leases.LateTakeOverwritesTarget` | windows/flowtype-app/src/file_transfer_server.rs:1445-1546 | and to a state in which it cuts a target that is whole and already recorded as complete |
| `Leases.LateTakeKeeps` | windows/flowtype-app/src/file_transfer_server.rs:174-203 | without such a verification the late upload keeps the entry's invariant |
| `Receiving.Staging.OpenPart` | windows/flowtype-app/src/file_transfer_server.rs:1440-1495 | the part is opened or created and cut to the offset exactly when it is long enough |
| `Receiving.Staging.StoreFrame` | windows/flowtype-app/src/file_transfer_server.rs:1496-1544 | a frame is appended exactly when the connection and ticket hold and it fits |
| `Receiving.Staging.ReceiveFile` | windows/flowtype-app/src/file_transfer_server.rs:1403-1595 | on success the part is the kept prefix and the whole body, synced, with exactly that length committed; which offsets are refused; when it must succeed; all of it through steps of `Upload` |
| `Receiving.Staging.CommitUploadedFile` | windows/flowtype-app/src/file_transfer_server.rs:1599-1643 | every outcome of the commit, its error and the files it leaves |
| `Completion.ExclusiveStep` | windows/flowtype-app/src/file_transfer_server.rs:174-203 | no step of any request, and no crash, moves a completed entry |
| `Completion.BatchStepKeeps` | windows/flowtype-app/src/file_transfer_store.rs:664-678 | every interleaved step, late uploads, late failure reports and clean-ups under the guard included, keeps what the completion scan has seen so far true |
| `Completion.CompletedBatchIsComplete` | windows/flowtype-app/src/file_transfer_server.rs:992-1081 | over every interleaving in which no verification can complete an entry beside a late upload or failure report, from the moment that reads the progress, finished entries stay finished and a completed batch has every entry completed at its full size although the scan read them one by one |
| `Completion.EveryCompletedBatchIsComplete` | windows/flowtype-app/src/file_transfer_server.rs:992-1081 | the same from the start of a batch, and without any guard when the lease is taken in one step |
| `Completion.UnguardedBatchBreaks` | windows/flowtype-app/src/file_transfer_server.rs:182-198 | without the guard: a run from the start of a batch whose batch ends Completed, its entry not, and its published file cut off |
| `Completion.ScanDecides` | windows/flowtype-app/src/file_transfer_server.rs:992-1023 | an undisturbed completion request ends the batch Completed if and only if every entry is completed at its size, PartialFailure if and only if all are settled and one was failed or canceled, each only from a state that may move there, and changes nothing else |
| `Completion.CleanedUpPart` | windows/flowtype-app/src/file_transfer_server.rs:702-721 | cleaning up takes an entry's part away, also from an upload that has it open, and leaves target and progress |
| `Delivery.EveryBatchCanBeDelivered` | windows/flowtype-app/src/file_transfer_server.rs:992-1023 | from every unfinished state of a batch nothing was received of there is a run that ends Completed with every directory done and every file at its target, synced and equal to its source |
| `Batches.StepKeeps` | windows/flowtype-app/src/file_transfer_server.rs:301-358 | every file operation of starting a batch, every update and restart keeps at most one unfinished batch per phone |
| `Batches.OneUnfinishedBatchPerPhone` | windows/flowtype-app/src/file_transfer_server.rs:395-425 | in every reachable state two unfinished batches of one phone, in either direction, are the same batch |
| `Batches.FinishedAndRootedForGood` | windows/flowtype-app/src/file_transfer_store.rs:168-190 | terminal states and a set target root survive every interleaving of updates and preparations |
| `Batches.EveryPhoneHasOneBatch` | windows/flowtype-app/src/file_transfer_server.rs:301-358 | from the empty store on, two unfinished batches of one phone are the same batch |
| `Batches.EveryBatchKeepsItsEnd` | windows/flowtype-app/src/file_transfer_store.rs:168-190 | from the empty store on, what was terminal or rooted at any point of a run still is at its end |
| `Batches.UpdateMovesIff` | windows/flowtype-core/src/file_transfer.rs:73-106 | an update moves a batch if and only if the new state may be entered from the old one, and changes nothing else |
| `Batches.StartRecordsIff` | windows/flowtype-app/src/file_transfer_server.rs:301-358 | started to its end, a batch is recorded, queued or waiting for confirmation and without a root, if and only if its phone has no unfinished batch, its directory is new and its manifest was written; otherwise the store is as before |
| `Batches.PreparationSetsRoot` | windows/flowtype-app/src/file_transfer_store.rs:192-308 | whatever other requests do meanwhile, a preparation that commits sets the root it chose if and only if the batch is still unfinished |
| `Batches.OthersKeepTheirRecord` | windows/flowtype-app/src/file_transfer_store.rs:168-190 | no step changes, adds or drops the record of a batch it is not about |
| `Markers.StepKeeps` | windows/flowtype-app/src/file_transfer_store.rs:328-371 | every file operation and crash keeps: a marker implies complete synced files, and it stays |
| `Markers.MarkerMeansComplete` | windows/flowtype-app/src/file_transfer_store.rs:795-831 | over any run with crashes, a marked directory has all files, synced, as they were sealed; an unmarked one can be rebuilt |
| `Markers.AttemptStartsFromScratch` | windows/flowtype-app/src/file_transfer_store.rs:328-371 | a new attempt has cleared every leftover before it creates a file |
| `Markers.AttemptHoldsWhatItAppended` | windows/flowtype-app/src/file_transfer_store.rs:192-308 | while it is filled, each file holds exactly what this attempt appended |
| `Markers.MarkSealsTheAttempt` | windows/flowtype-app/src/file_transfer_store.rs:285-308 | the marker seals exactly the attempt's files, all of them synced |
| `Markers.EveryMarkedDirectoryIsWhole` | windows/flowtype-app/src/file_transfer_store.rs:192-371 | from an empty directory, after any file operations and crashes, a marked manifest and a marked target map have all their files, synced and as sealed |
| `Markers.SealedForGood` | windows/flowtype-app/src/file_transfer_store.rs:328-371 | a marked directory stays marked with what it sealed |
| `Markers.AttemptMarks` | windows/flowtype-app/src/file_transfer_store.rs:192-371 | an undisturbed attempt, after any crashes and leftovers, ends marked, and each file is exactly what the attempt appended to it, synced |
| `Markers.OverwritesIff` | windows/flowtype-app/src/file_transfer_store.rs:420-442 | once marked, exactly the progress file can be overwritten |
| `Manifest.ManifestWriter.Append` | windows/flowtype-app/src/file_transfer_store.rs:757-793 | when an entry is accepted, exactly; a rejected one leaves the accepted entries as they were, and if it was already counted the counters stay ahead of them |
| `Manifest.ManifestWriter.Finish` | windows/flowtype-app/src/file_transfer_store.rs:795-820 | whatever was rejected, a finished manifest holds exactly the accepted entries with ordinals from 0, distinct ids and exact totals in both files; once the counters are ahead it cannot finish |
| `Manifest.CountedIsAhead` | windows/flowtype-app/src/file_transfer_store.rs:757-793 | an entry rejected after it was counted puts the counters ahead of the accepted entries |
| `Manifest.StoredIsOk` | windows/flowtype-app/src/file_transfer_store.rs:757-793 | an accepted entry extends data, index and totals by exactly itself |
| `Manifest.LineAt` | windows/flowtype-app/src/file_transfer_store.rs:757-793 | entry i's line lies at the offset where the lines before it end |
| `Manifest.IndexAt` | windows/flowtype-app/src/file_transfer_store.rs:866-887 | index record i is the offset of entry i's line |
| `Manifest.ManifestEntry` | windows/flowtype-app/src/file_transfer_store.rs:444-473 | for every ordinal the indexed read returns the entry of the sequential scan, and nothing outside the range |
| `Manifest.ForEachManifestEntry` | windows/flowtype-app/src/file_transfer_store.rs:380-418 | the scan of a finished manifest visits exactly its entries; a scan that succeeds on any files found contiguous ordinals, the recorded count and digest |
| `Ingest.ConsumeLines` | windows/flowtype-app/src/file_transfer_server.rs:1729-1748 | consuming the complete lines leaves a tail without newline and the same outcome for every continuation of the body; what that outcome is, line by line, is `Ingest.IngestLines` |
| `Ingest.IngestManifest` | windows/flowtype-app/src/file_transfer_server.rs:1342-1374 | for every split into frames, the entries and the success or first error are those of the whole body, which `Ingest.IngestLines` gives line by line |
| `Ingest.TooLongAlready` | windows/flowtype-app/src/file_transfer_server.rs:1366-1368 | an unfinished line over the limit fails however the body goes on |
| `Ingest.IngestLines` | windows/flowtype-app/src/file_transfer_server.rs:1342-1374 | a body made of lines ended by 13 10 or by 10 is the fold of the writer over their texts without the ending; it is accepted if and only if every line has at most 16384 bytes before the newline and is taken and nothing follows the last one; the first line that is too long or refused, or a rest without newline, decides the error, each if and only if |
| `Ingest.SplitLines` | windows/flowtype-app/src/file_transfer_server.rs:1729-1748 | every body is such lines and a rest without byte 10 |
| `Ingest.FirstLine` | windows/flowtype-app/src/file_transfer_server.rs:1729-1748 | the first line ends at the first byte 10, and one byte 13 before it is not handed over |
| `Bytes.OffsetRoundTrip` | windows/flowtype-app/src/file_transfer_store.rs:900-925 | every 64-bit offset is read back from its eight little-endian bytes |
| `Bytes.LittleEndianValue` | windows/flowtype-app/src/file_transfer_store.rs:900-925 | the number eight bytes stand for, the first one worth least |
| `ProgressFile.RecordRoundTrip` | windows/flowtype-app/src/file_transfer_store.rs:900-925 | every state and 64-bit offset is read back, and no record looks unwritten |
| `ProgressFile.RecordLayout` | windows/flowtype-app/src/file_transfer_store.rs:900-925 | a record is version 1, the state's code 0 to 6, six zeros and the offset in little-endian order |
| `ProgressFile.ReadableIff` | windows/flowtype-app/src/file_transfer_store.rs:900-925 | sixteen zeros read as pending; any other record is read if and only if version, state and padding are right |
| `ProgressFile.WriteReads` | windows/flowtype-app/src/file_transfer_store.rs:420-442 | a write is read back and changes no other record, inside the file or beyond its end |
| `ProgressFile.EveryWriteSequenceRefines` | windows/flowtype-app/src/file_transfer_store.rs:565-590 | over any writes the file reads as the total map of last writes with default Pending |
| `ProgressFile.EveryProgressFileRefines` | windows/flowtype-app/src/file_transfer_store.rs:565-590 | from the empty file of a new batch, each entry reads as its last write or as pending |
| `ProgressFile.ProgressStore.Write` | windows/flowtype-app/src/file_transfer_store.rs:420-442 | writing into the file updates the map it stands for |
| `ProgressFile.ProgressStore.Summary` | windows/flowtype-app/src/file_transfer_store.rs:592-631 | the streaming summary is the saturated sum and the counts over that map; it fails only on a damaged record |
| `Names.SanitizedSegment` | windows/flowtype-core/src/file_transfer.rs:342-362 | a sanitized segment has no forbidden character, passes the segment checks of relative paths and has at most 240 UTF-16 units |
| `Names.NamedForm` | windows/flowtype-core/src/file_transfer.rs:342-362 | before reserved names and length are dealt with, a segment is itself up to its trailing spaces and dots with an underscore for each forbidden character, or untitled |
| `Names.SanitizedForm` | windows/flowtype-core/src/file_transfer.rs:342-362 | a short name gets an underscore exactly when it is reserved, a long one is cut to 240 units |
| `Names.ReservedIff` | windows/flowtype-core/src/file_transfer.rs:452-479 | a name is reserved if and only if what stands before its first dot, less trailing white space, spells one of the 22 devices in any case |
| `Names.TruncateBounds` | windows/flowtype-core/src/file_transfer.rs:481-495 | a name is cut to its longest prefix within the limit |
| `Names.NumberedSegment` | windows/flowtype-core/src/file_transfer.rs:394-407 | so does a numbered one, within 252 units |
| `Names.NumberedForm` | windows/flowtype-core/src/file_transfer.rs:394-407 | the number goes in parentheses between stem and extension, and the stem is cut only as far as 240 units make it |
| `Names.NumberedFitsIff` | windows/flowtype-core/src/file_transfer.rs:394-407 | a numbered name keeps to 240 units exactly when its number and its extension together do |
| `Names.LongExtensionOverflows` | windows/flowtype-core/src/file_transfer.rs:394-407 | a sanitized name that every number makes longer than 240 units |
| `Names.ReservedAfterSanitizingIff` | windows/flowtype-core/src/file_transfer.rs:342-362 | for every segment, exactly when the sanitized name is still reserved: short, reserved and with an extension, or long and reserved once it is cut |
| `Names.ReservedStemExample` | windows/flowtype-core/src/file_transfer.rs:342-362 | `CON.txt` becomes `CON.txt_`, which is still reserved |
| `Names.CutStemExample` | windows/flowtype-core/src/file_transfer.rs:342-362 | `CON`, spaces and one letter over the limit: not reserved, and reserved after it is sanitized |
| `Names.CandidatesDiffer` | windows/flowtype-core/src/file_transfer.rs:394-407 | candidates with different numbers differ even after lower-casing |
| `Names.TriedSize` | windows/flowtype-core/src/file_transfer.rs:379-392 | the candidates up to n are n different names, so n failures need n names in use |
| `Names.FindFree` | windows/flowtype-core/src/file_transfer.rs:379-392 | the search ends within one more number than names in use, at the first free one |
| `Names.PickName` | windows/flowtype-core/src/file_transfer.rs:379-392 | the name is new up to letter case, a valid segment, within 240 units without and 252 with a collision; it fails only when 2^32-1 names are in use |
| `Names.NameReservation.Reserve` | windows/flowtype-core/src/file_transfer.rs:369-392 | the reserved name is the sanitized one if that is free and otherwise the first free numbered one, was not in the set, and is exactly what is added to it |
| `Targets.PrepareTargets` | windows/flowtype-app/src/file_transfer_store.rs:223-277 | for every accepted manifest the targets are distinct up to case, avoid existing names, follow their entries' parents, have their entry's name unless that was in use and pass the segment checks; every manifest with distinct paths and parents first is accepted |
| `Targets.NewTargetIsNew` | windows/flowtype-app/src/file_transfer_store.rs:223-277 | a name free in its directory gives a target different from all earlier ones up to letter case |
| `Targets.PathParts` | windows/flowtype-app/src/file_transfer_store.rs:223-277 | a path is split into parent and name at its last slash |
| `Targets.StepKeepsPrepared` | windows/flowtype-app/src/file_transfer_store.rs:223-277 | every entry keeps the directory map, the reserved names and the targets consistent |
| `Outbound.CountOutbound` | windows/flowtype-app/src/file_transfer_server.rs:791-815 | counting adds exactly the tree's totals, and fails exactly on a link, another kind of node or an overflow |
| `Outbound.WriteOutbound` | windows/flowtype-app/src/file_transfer_server.rs:817-893 | writing appends the tree in preorder, entry and source i from visit i, with exact running totals, and fails only if something stops it |
| `Outbound.VisitsAreDistinct` | windows/flowtype-app/src/file_transfer_server.rs:817-893 | no two visits below a directory have the same relative path |
| `Outbound.EveryNodeIsVisited` | windows/flowtype-app/src/file_transfer_server.rs:817-893 | every node of the tree is visited, under its path, with its kind and size |
| `Outbound.EveryVisitIsOfANode` | windows/flowtype-app/src/file_transfer_server.rs:817-893 | every visit is of a node of the tree |
| `Outbound.ParentsComeFirst` | windows/flowtype-app/src/file_transfer_server.rs:817-893 | every directory is written before what lies in it |
| `Outbound.PlanKeepsTotals` | windows/flowtype-app/src/file_transfer_server.rs:750-789 | the totals do not depend on the wire names |
| `Outbound.NameRoots` | windows/flowtype-app/src/file_transfer_server.rs:750-789 | the roots get wire names that are valid segments and differ up to letter case: their own names, made acceptable, unless an earlier root has that one |
| `Outbound.CountSelection` | windows/flowtype-app/src/file_transfer_server.rs:750-789 | the plan is refused exactly when nothing is selected, something is not a file or directory, or the totals are too large, and otherwise has the exact totals |
| `Outbound.OfferedPathsDiffer` | windows/flowtype-app/src/file_transfer_server.rs:431-438 | over the whole selection no two wire paths are the same |
| `Outbound.PrepareOffer` | windows/flowtype-app/src/file_transfer_server.rs:395-450 | over an unchanged forest the two traversals agree, so it is never reported as changed; when it succeeds, exactly, including the checks on paths and sizes; entries numbered in preorder with distinct paths, parents first, source i where entry i lies |
| `Limiter.PruneDropsExpired` | windows/flowtype-app/src/main.rs:123-127 | what is pruned is a prefix, all of it out of the window |
| `Limiter.ForgetKeeps` | windows/flowtype-app/src/main.rs:106-117 | evicting an idle peer loses nothing a later decision depends on |
| `Limiter.StepKeeps` | windows/flowtype-app/src/main.rs:106-151 | every attempt and every dropped lease keeps the invariant for every peer |
| `Limiter.VerdictsAgree` | windows/flowtype-app/src/main.rs:106-141 | the verdict is the never-forgetting limiter's unless the table is full; what the verdict is, is `Limiter.VerdictIff` |
| `Limiter.EveryRunIsLimited` | windows/flowtype-app/src/main.rs:84-151 | on every run with a clock that does not go back: at most 1024 peers, at most 8 live leases and the stored count is their number, no more than 30 grants in any 60 seconds, and the never-forgetting limiter's verdicts |
| `Limiter.EveryPeerIsLimited` | windows/flowtype-app/src/main.rs:84-151 | the same bounds from the empty table on; that no peer is refused below them is `Limiter.EveryVerdictIff` |
| `Limiter.VerdictIff` | windows/flowtype-app/src/main.rs:106-141 | from what an observer saw: the table is full for a peer if and only if at least 1024 peers hold a lease or asked within the last sixty seconds and it is not one of them; otherwise it is granted if and only if it has fewer than 8 live leases and fewer than 30 grants in the last sixty seconds |
| `Limiter.EveryVerdictIff` | windows/flowtype-app/src/main.rs:84-151 | the same for every attempt of every run from the empty table |
| `Limiter.ConnectionLimiter.TryAcquirePeer` | windows/flowtype-app/src/main.rs:106-141 | the table and verdict are those of `Limiter.TryAcquire`, whose verdicts `Limiter.VerdictIff` gives exactly |
| `Limiter.ConnectionLimiter.PopExpired` | windows/flowtype-app/src/main.rs:123-127 | the popping loop prunes exactly the attempts out of the window |
| `Limiter.ConnectionLimiter.DropLease` | windows/flowtype-app/src/main.rs:143-151 | dropping a lease lowers that peer's count and nothing else |

## Left out

- Dispatcher.RequestBlocking: makes no claim about Begin, which is replayed without a check.
- Injector.EveryReachableStateAgrees: needs that no sent Begin times out and every joining service is idle; `Injector.AgreesThroughoutIff` shows that this is exactly what it takes.
- Injector.BeginForTargetAgreesIff: a client whose Begin timed out is not asked again by the same request; the timeout of a call and the time for the whole request are both 1500 ms, and one round asks each client once.
- Tip.TypingIntoRangeIsSeen: replacing text in the application is a deletion followed by an insertion at the same place, as far as anchors are concerned.
- Upload.EveryRunKeepsThePrefix: the phone sends its own file and a hash is accepted for no other bytes; renaming and removing a file are durable at once; files that others put into the receive folder are not modelled.
- Completion.CompletedBatchIsComplete: phone-to-computer batches only; for the other direction the phone may report a completed entry as failed, as the source intends.
- Batches.FinishedAndRootedForGood: only for records that are not deleted by expiry or by a failed start.
- Limiter.EveryRunIsLimited: the clock is read before the lock is taken; that it does not go back from one decision to the next is assumed.
- Names.CandidatesDiffer: lower-casing is a map from each character to a string that is the identity on digits, space and parentheses; the final-sigma rule is not modelled.
- Targets.PrepareTargets: works on the names each directory held at its first use; creating the directories and the check against replaced junctions are not modelled.
- Manifest.ManifestEntry: JSON is an abstract encoding that is read back and contains no newline, and entry validation is an abstract predicate.
- Manifest.ManifestWriter.Append: the counters of files and directories do not overflow 64 bits.
- Outbound.PrepareOffer: the forest does not change between the two traversals and no directory lists a name twice; the length of the encoded line and the I/O of the two writers are an input.
- Once.EverySnapshotIsUsedOnce: the snapshot a session begins with is outside the claim; what a service wrote before it joined is not counted.
- Injector.WholeSessionDocument: about a session that its service opened; one it merely found open is `Injector.RejoinedSessionIsTakenOver`.
- The Scintilla suffix replacement of the text service's host.rs: it depends on the editor's messages.
- Foreground, elevation and remote-desktop checks of the injector: inputs of a request.
- TLS, WebSocket and HTTP, tokens, tickets' expiry, SHA-256, DPAPI and pairing: calls into code outside this model.
- The user interface, tray, updates, image transfer, logging, the switch protocol and the Android app.
- Downloads from the computer to the phone, byte ranges and disk-space checks: little state of their own.
