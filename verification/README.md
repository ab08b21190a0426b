# A model of ahh: terminal delivery, executions, projects and shutdown

ahh serves coding harnesses in a browser. A *wrapper* process runs one harness, keeps the
last 1 MiB of its terminal output and streams it to browsers; a *server* starts and stops
wrappers, keeps project rows in a store and project directories in a workspace. This
project models the five places where that is a protocol rather than plumbing, and proves
what they promise. Verify it with `dafny verify dfyconfig.toml`.

**Terminal output, from the harness to the screen.** `Terminal` is the bounded history with
its broadcast queues, `FlowControl` the acknowledgment window of a connection, `Sender` its
sending loops, `Browser` the page's cursor logic, `FrameCodec` the binary messages,
`HarnessOutput` the goroutines that feed the terminal. `Session` and `Delivery` put them
into one state machine in which every lock-held section, channel operation, message and
callback is a step and steps interleave freely: any number of attachments, slow readers
dropped, connections broken at any point, one observed browser. `ExactlyOnce` holds the
results: the screen is one contiguous slice of the harness output, it shrinks only on an
announced and real gap, only readers that fall 16 chunks behind are dropped, everything
rendered is acknowledged, the end marker is exact. `ConnectionProgress` and
`DeliveryProgress` show that it also gets there: when one connection can bring everything to
the screen, and that reconnecting always can.

**Executions.** `Execution` has the critical sections of the execution manager as methods of
a class, `ExecutionRuns` the machine in which they interleave with launchers, processes,
waiting Stop calls and Close calls, `ExecutionSafety` what holds in every run: one owner
per conversation, exact answers of Start and Status, no orphan after Close, an unconfirmed
exit that is final. `ExecutionProgress` shows that no Stop and no Close waits in vain.
`WrapperProcess` is the launcher with its two goroutines, and shows that its
outcomes are the ones the manager relies on.

**Projects.** `Projects` is the store's table with its conditional statements, `Manager` the
project manager as written, `ProjectRuns` any interleaving of its calls with every statement
and file operation failing at will, also after taking effect. `ProjectSafety` and
`ProjectGuarantees` prove that nothing is lost or resurrected, and that only files of the
operation's own generation are ever removed. `Lifecycle` composes projects and executions
through the per-project locks, `LifecycleSafety` and `LifecycleGuarantees` prove that
deletion excludes execution, also when an ID is used again, and `LifecycleProgress` exactly
when a project can be deleted.

**Shutdown.** `Gate` is the registration of handlers against shutdown, one mutex operation a
step, which server and wrapper share. `Shutdown` composes it with the execution machine: the
order in which what the server owns is closed, and that nothing is left to use it.
`WrapperShutdown` composes it with `HarnessOutput`: the final drain, and that the wrapper
returns only when everything it started is joined. `GateProgress`, `ShutdownProgress` and
`WrapperProgress` show that both come to their end.

**Two string algorithms.** `InputChunks` cuts pasted input into messages, `ProjectIds` has
the ID grammar of the server and the generator of the page.

A state machine here is a datatype for the state, a predicate `Allowed` for the guards, a
function `After` for the effect, and `Run` for any finite sequence of allowed steps.
Objects whose methods run under one lock are classes whose methods are tied to the
functions the machines use. Random tokens, faults, timeouts and the order of steps are
inputs chosen by the environment.

## Findings

- A frame of more than 128 KiB can never be sent: no acknowledgment makes room for it, and
  its reader is dropped as stalled. Frames of up to 128 KiB always can be sent to a reader
  that keeps up (`FlowControl.SendableIffWithinBudget`), so a connection that missed nothing
  can bring everything to the screen if and only if no longer chunk waits for it
  (`ConnectionProgress.ArrivesIffChunksFit`). The goroutine that feeds the
  terminal copies in smaller blocks, so nothing in the repository meets this.
- A wrapper that ends without a result keeps its project for as long as the server runs:
  Stop fails from then on, so that no request can delete it
  (`LifecycleProgress.LostExitPinsProject`). This is the only obstacle: any other project
  that nothing is working on can be deleted, whatever runs in it
  (`LifecycleProgress.DeletableIffNothingLost`).
- The version a client passes to rename does not name a generation. A client that read
  version 2 of a project that was then deleted renames the project that took its ID, if
  that one is at version 2 too (`RenameGeneration.VersionAloneNamesNoGeneration`). The
  rename is for the row the client saw exactly when the creator token is still the same
  (`ProjectGuarantees.RenameMeansReadRowIff`). Clients are not sent the token, so a check
  belongs in the rename handler, under the project's lock, against something the client does
  get.

## Model

| member | source | states |
|---|---|---|
| Terminal.Terminal.Write | internal/wrapper/terminal.go:52-81 | the new history is the last 1 MiB and the offset advances; every active reader with fewer than 16 chunks waiting gets the chunk as its newest and stays active, one with 16 keeps them and is closed and marked, all others stay as they are |
| Terminal.Terminal.Broadcast | internal/wrapper/terminal.go:67-78 | the loop does this to every registered attachment exactly once, in whatever order it takes them |
| Terminal.Terminal.Attach | internal/wrapper/terminal.go:84-121 | the answer is the one the state prescribes, and the attachment is registered with an empty queue, closed at once if the terminal is finished |
| Terminal.Terminal.Detach | internal/wrapper/terminal.go:124-129 | removes this attachment and no other |
| Terminal.Terminal.Finish | internal/wrapper/terminal.go:132-143 | every queue is closed once, keeps what it holds, and stays registered |
| Terminal.SafeAfterWrite | internal/wrapper/terminal.go:67-78 | a registered queue is closed if and only if its flag is false, at most 16 clients with at most 16 chunks: kept by writing, so nothing sends on or closes a closed queue |
| Terminal.SafeAfterDetach | internal/wrapper/terminal.go:124-129 | the same discipline is kept by detaching |
| Terminal.SafeAfterFinish | internal/wrapper/terminal.go:132-143 | the same discipline is kept by finishing |
| Terminal.WriteReachesReaders | internal/wrapper/terminal.go:67-78 | a write reaches exactly the active readers with fewer than 16 chunks waiting, as their newest chunk, and drops exactly those with 16; nobody else comes, goes or changes |
| Terminal.WriteRecords | internal/wrapper/terminal.go:52-66 | the bounded history refines the unbounded log: it is always the last min(total, 1 MiB) bytes |
| Terminal.AttachReadsStream | internal/wrapper/terminal.go:84-121 | attach returns the stream from max(cursor, oldest), says gap exactly when requested bytes were evicted, and rejects exactly cursors beyond the end and clients beyond the limit |
| FrameCodec.RoundTrip | internal/wrapper/websocket.go:157-158 | decoding in the page inverts encoding in the wrapper, and every message the page accepts encodes exactly one frame |
| FrameCodec.HeaderIsNetworkOrder | internal/wrapper/websocket.go:157-158 | on the wire a frame is its offset as eight bytes, most significant first, and then its data |
| Sender.Write | internal/wrapper/websocket.go:141-166 | takes acknowledgments and nothing else while the frame exceeds the budget; stalls exactly when more than 128 KiB would be outstanding; keeps acked <= sent <= acked + 128 KiB |
| Sender.SendOutput | internal/wrapper/websocket.go:131-200 | what went out is one slice of the stream from the cursor to sent, saved output in pieces of 32 KiB and one that is the rest, then chunks as they came; each reason to end is given exactly, the end marker only for a terminal finished at sent; and the loop is a path of the acts that Session and Delivery interleave, ending with the same frames, window and end marker |
| Sender.SendLive | internal/wrapper/websocket.go:178-199 | the same for the loop over live chunks, continuing a slice already sent |
| FlowControl.NoWrap | internal/wrapper/websocket.go:146 | the unsigned subtraction in the wait never wraps |
| FlowControl.SendableIffWithinBudget | internal/wrapper/websocket.go:145-155 | some acknowledgment makes room for a frame if and only if it has at most 128 KiB, and then a reader that has acknowledged everything never waits |
| Session.ActKeepsGood | internal/wrapper/websocket.go:131-231 | every step of the two goroutines of an attachment keeps its slice, order and acknowledgment invariants |
| Session.OwnAckAccepted | internal/wrapper/websocket.go:133-139 | an acknowledgment of a page that follows the protocol is inside the window when it is handled |
| Session.WriteKeepsGood | internal/wrapper/terminal.go:62-78 | a write to the terminal keeps the slice invariant of an attachment, queued or missed |
| Browser.Page.OnMessage | internal/server/web/src/terminal.js:96-134 | drops the connection on any offset that is not the expected one; resets only on a gap; believes the end marker only at what it has received |
| Browser.Page.Rendered | internal/server/web/src/terminal.js:113-118 | the oldest queued write reaches the screen; the cursor moves and is acknowledged only for the current connection |
| Browser.TakesOnlyContinuations | internal/server/web/src/terminal.js:96-134 | whatever a server sends after a replay, the page queues only frames that continue each other from there, and believes an end message only for the end of what it had queued when it came |
| Delivery.StepKeepsInv | internal/wrapper/websocket.go:43-108 | every step of the whole path, from terminal to screen, keeps the invariant behind the results below |
| ExactlyOnce.ScreenIsOneSlice | internal/server/web/src/terminal.js:77-144 | in every run, what is on the screen and queued for it is stream[base..received): nothing lost, repeated or reordered |
| ExactlyOnce.ScreenShrinksOnlyOnGap | internal/server/web/src/terminal.js:123-129 | the screen only grows, except that a replay announcing a gap clears it, and then bytes were really evicted |
| ExactlyOnce.DialsFromWritten | internal/server/web/src/terminal.js:83-84 | when the page dials, rendered is everything it has written to its screen, and nothing is queued |
| ExactlyOnce.CursorNeverAhead | internal/wrapper/terminal.go:91-94 | the page's cursor is never rejected as ahead of the output |
| ExactlyOnce.OffsetsAlwaysMatch | internal/server/web/src/terminal.js:103-107 | the page's offset check never closes a connection |
| ExactlyOnce.OwnAcksNeverRefused | internal/wrapper/websocket.go:133-139 | no connection of the page ends for an invalid acknowledgment |
| ExactlyOnce.AcksAreChecked | internal/wrapper/websocket.go:131-139 | whoever sends it, an acknowledgment that is handled moves the window there if and only if it lies in it, and otherwise ends the connection, as does a number that is no 64-bit word |
| ExactlyOnce.RenderedIsAcknowledged | internal/server/web/src/terminal.js:113-118 | at all times the last acknowledgment on its way to the sender, or the one in force if none is, is exactly what the page has rendered |
| ExactlyOnce.CaughtUpNeverWaits | internal/wrapper/websocket.go:141-166 | once everything sent is rendered and its acknowledgments are handled nothing is outstanding, and no frame of at most 128 KiB waits |
| ExactlyOnce.EndIsBelieved | internal/server/web/src/terminal.js:130-133 | an end message always makes the page complete, at the end of all output |
| ExactlyOnce.FlowControlled | internal/wrapper/websocket.go:131-166 | for every attachment acked <= sent and at most 131072 bytes are outstanding; queues are never misused |
| ExactlyOnce.RegistrationsChangeExactly | internal/wrapper/terminal.go:52-143 | what every step does to every registration: it begins empty, grows by writes, is closed only by a write that finds 16 chunks or by the end, is emptied only by its own sender, from the front, and goes only when its handler has finished |
| ExactlyOnce.OnlySlowReadersMiss | internal/wrapper/terminal.go:67-78 | a reader begins to miss output only by a write that found it dropped already or with 16 chunks waiting |
| ExactlyOnce.SenderSlice | internal/wrapper/websocket.go:168-198 | bytes sent, then saved output, then queued chunks are stream[start..cut), and cut is the end of the stream while the client is active |
| ExactlyOnce.EndMarkerExact | internal/wrapper/websocket.go:186-194 | a drained sender announces the end if and only if the terminal has finished and its reader missed nothing, and then every byte from its start was sent |
| ExactlyOnce.CompleteIsWhole | internal/server/web/src/terminal.js:130-133 | a page told that the output is complete has the whole tail, and nothing is ever written after that |
| ConnectionProgress.ArrivesIffChunksFit | internal/wrapper/websocket.go:131-200 | from every state, a connection of the page that goes on and missed nothing can bring everything to the screen if and only if no chunk that waits for it is longer than 128 KiB, with nobody else taking part |
| ConnectionProgress.LongChunkIsNeverSent | internal/wrapper/websocket.go:141-166 | a longer chunk that waits for a reader, and everything behind it, is never sent to it, whatever happens |
| DeliveryProgress.PageCanShowAll | internal/server/web/src/terminal.js:77-180 | from every state with a page that is still there, reconnecting brings it to where its screen holds all output from base to the last byte, and where it knows the output to be complete exactly if it is; no other connection takes part, unless all 16 places are taken |
| HarnessOutput.WritesEndBeforeFinish | internal/wrapper/output.go:16-46 | the only writer has written everything it read before the terminal is finished, and never writes afterwards |
| HarnessOutput.ExitFollowsOutput | internal/wrapper/server.go:104-112 | the exit is published only after the harness exited and everything that was read is in the terminal; that is everything the harness wrote if the reader saw the end of the pseudo-terminal; and an error is passed on exactly if a read failed |
| HarnessOutput.EndIsReached | internal/wrapper/output.go:34-45 | from every state after the exit the two goroutines reach the end by their own steps, within a bound, even if somebody holds the pseudo-terminal open and a read blocks |
| HarnessOutput.OwnStepsAreBounded | internal/wrapper/output.go:23-45 | whatever the environment does in between, the goroutines take a bounded number of steps plus two for each byte that comes in, and none comes in once the pseudo-terminal is closed |
| Execution.ExecutionManager.Start | internal/server/execution_manager.go:50-111 | refuses, joins or launches as the state of the current invocation prescribes; only a launch changes anything, and cancels the invocation it replaces |
| Execution.ExecutionManager.Publish | internal/server/execution_manager.go:101-108 | what the launcher returned is recorded and the start is over |
| Execution.ExecutionManager.ReadStatus | internal/server/execution_manager.go:114-160 | the reported state, permission, invocation and exit code are those of the current invocation |
| Execution.ExecutionManager.BeginStop | internal/server/execution_manager.go:176-194 | nothing to stop, join a stop that was begun, or lead one and cancel the invocation |
| ExecutionRuns.StepKeepsInv | internal/server/execution_manager.go:50-238 | every interleaving of Start, launchers, processes, Stop and Close keeps the invariant behind the results below |
| ExecutionSafety.AtMostOneOwner | internal/server/execution_manager.go:54-111 | per conversation at most one process is ever live or of unconfirmed exit, at most one launcher is live, and if both, the process is the launcher's own |
| ExecutionSafety.LaunchOnlyWhenSettled | internal/server/execution_manager.go:62-95 | a launch begins only when the previous launcher has returned, its process is absent or done with a result, and nothing else of the conversation is live or of unconfirmed exit |
| ExecutionSafety.StartIsExact | internal/server/execution_manager.go:50-95 | a live Start is refused if and only if the manager is closed, a stop is under way or an exit is unconfirmed; otherwise it launches if and only if the conversation is settled, and joins the current invocation if and only if its launcher or process is live |
| ExecutionSafety.StartTakesEffect | internal/server/execution_manager.go:83-110 | a Start that launches makes its invocation current, with a launcher, and releases the one before; any other Start changes nothing |
| ExecutionSafety.HandedOverForGood | internal/server/execution_manager.go:96-109 | what a launcher returned, process and error, is recorded for its invocation, and stays so |
| ExecutionSafety.CanceledOnlyWhenOver | internal/server/execution_manager.go:83-108 | the context a wrapper runs under is over if and only if a later invocation took its place, a stop of it has begun, or its launcher failed |
| ExecutionSafety.StatusTellsTheTruth | internal/server/execution_manager.go:114-160 | Status allows a start exactly when Start with a live context would be accepted at that instant |
| ExecutionSafety.StatusIsExact | internal/server/execution_manager.go:114-160 | each phase is reported exactly when it is true of the launchers and processes, with the current invocation, and an exit code only for an exited one: the result of its process |
| ExecutionSafety.StopTellsConfirmation | internal/server/execution_manager.go:176-215 | a Stop call that returns has canceled its invocation, whose start is over, and reports an error exactly when the process of its invocation ended without a result |
| ExecutionSafety.CloseLeavesNoOrphan | internal/server/execution_manager.go:218-238 | from the return of Close on, forever: no launcher runs, every process ever started is done, every Start is refused, and no error means every recorded process has a confirmed result |
| ExecutionSafety.UnconfirmedExitIsAbsorbing | internal/server/execution_manager.go:76-81 | after an exit without a result, forever: Start is refused, Status allows none, Process resolves to that same process only, and Stop calls fail, later ones and those under way for this invocation |
| ExecutionSafety.NeverRedirected | internal/server/execution_manager.go:162-172 | an invocation that resolved to a process never resolves to another |
| ExecutionSafety.LiveIsResolved | internal/server/execution_manager.go:162-172 | a live process that has been handed over is what its invocation resolves to, and what an invocation resolves to was launched for it |
| ExecutionProgress.StopCanReturn | internal/server/execution_manager.go:176-215 | from every state every Stop call can return, all it takes being that launchers return, processes end with a result and other Stop calls go on; and without an error, unless an exit was lost before |
| ExecutionProgress.CloseCanReturn | internal/server/execution_manager.go:218-238 | and so can every Close call |
| WrapperProcess.ResultIsFixedOnceDone | internal/server/wrapper.go:74-118 | done means the child is gone and both records are read; the result is the second record if it is an exit report, and never changes |
| WrapperProcess.OutcomesFitContract | internal/server/wrapper.go:33-156 | startWrapper fails unless an address arrived in time, and then its child is done; it keeps its child unless there is none or its own record says that no harness was started; and so it returns nothing with an error and no live child, or its child |
| Projects.Store.GetProject | internal/store/sqlite/projects.go:12-28 | the stored row, not found, or an error |
| Projects.Store.InsertProject | internal/store/sqlite/projects.go:45-72 | inserts exactly a new creating row of version 1 with a token and a free ID; a failure may have taken effect |
| Projects.Store.UpdateProject | internal/store/sqlite/projects.go:74-113 | replaces the row exactly if ID, version, state and token match and ID and type are kept; the version grows by one |
| Projects.Store.DeleteProject | internal/store/sqlite/projects.go:115-143 | deletes the row exactly if it matches, in creating or deleting |
| Manager.Manager.Create | internal/project/local/manager.go:75-105 | takes a path of the machine; it succeeds if and only if the ID and its directory are free and nothing fails, and then leaves a ready row with its whole new directory; a failure whose statements work undoes everything; an existing directory is left as it is |
| Manager.Manager.CreateFiles | internal/project/local/manager.go:166-184 | makes the directory unless it exists, and says exactly whether the cleanup may remove it |
| Manager.Manager.Rollback | internal/project/local/manager.go:149-163 | removes the directory only if this attempt made it, then the row |
| Manager.Manager.Delete | internal/project/local/manager.go:111-135 | it succeeds if and only if the snapshot matches, in ready, failed or delete_failed, and nothing fails, and then neither row nor directory are left; a claimed project that is not deleted is stored as delete_failed; a snapshot that does not match changes nothing; no other project is touched |
| Manager.Manager.RecordDeletionFailure | internal/project/local/manager.go:138-146 | stores the claimed row as delete_failed with the error and the next version, unless it changed or the statement failed, and touches no other |
| Manager.Manager.Rename | internal/project/local/rename.go:12-26 | it succeeds if and only if the row has that version, nothing is working on it and nothing fails; then only its name and version change |
| ProjectSafety.StepKeepsInv | internal/project/local/manager.go:75-184 | every step of any interleaving of Create, Delete and Rename keeps the invariant behind the results below |
| ProjectGuarantees.VersionNamesContent | internal/store/sqlite/projects.go:74-113 | over a whole run ID, token and version name at most one row content |
| ProjectGuarantees.NoLostUpdate | internal/store/sqlite/projects.go:86-98 | a conditional update or delete from an earlier snapshot takes effect only if the whole row, name and error included, is unchanged |
| ProjectGuarantees.RenameMeansReadRowIff | internal/project/local/rename.go:16-25 | a rename by version is for the row the client read if and only if the token is the same |
| RenameGeneration.VersionAloneNamesNoGeneration | internal/project/local/rename.go:20-22 | a run in which a stale rename is accepted for a project that took over the ID |
| ProjectGuarantees.NeverReadyAgain | internal/project/local/manager.go:118-124 | a generation marked for deletion is never ready again |
| ProjectGuarantees.RemovalIsOwned | internal/project/local/manager.go:125-163 | files are removed only by a call that has the stored row to itself, in creating or deleting, and only files of that generation |
| ProjectGuarantees.ForeignFilesStay | internal/project/local/manager.go:165-174 | directories that were there at the start are never touched |
| ProjectGuarantees.ReadyHasFiles | internal/project/local/manager.go:93-99 | a ready project has the whole directory its own generation made |
| ProjectGuarantees.RollbackFindsItsRow | internal/project/local/manager.go:152-158 | the comparison in rollback never finds another row |
| ProjectGuarantees.SuccessIsTrue | internal/project/local/manager.go:97-134 | a call that reports success in any interleaving has achieved what it reports |
| ProjectGuarantees.WorkingStatementsSucceed | internal/project/local/manager.go:75-163 | in any interleaving a statement that works achieves what its call is at: an insert takes a free ID, completion and erasure always succeed, a claim and a rename succeed exactly from the stored row, a failed deletion is recorded |
| ProjectGuarantees.WorkingFilesSucceed | internal/project/local/manager.go:125-184 | and a file operation that works makes exactly its directory, or removes it |
| LifecycleSafety.KeysAreInjective | internal/server/conversations.go:20-23 | keys of valid IDs are equal only for equal ID and token |
| LifecycleSafety.StopReturnedIsGood | internal/server/projects.go:202-209 | a Stop that returns without an error to the handler holding the lock leaves nothing live and no unconfirmed exit under that key |
| LifecycleSafety.StepKeepsInv | internal/server/projects.go:132-211 | every interleaving of start, rename and delete handlers with both managers keeps: whatever is live or of unconfirmed exit belongs to a ready project |
| LifecycleGuarantees.OccupiedOnlyWhenReady | internal/server/conversations.go:62-92 | a launcher is live, or a process live or of unconfirmed exit, only while its project is ready with its own whole directory |
| LifecycleGuarantees.OneProcessPerProject | internal/server/conversations.go:20-23 | at most one process is live or of unconfirmed exit for an ID, across all its generations |
| LifecycleGuarantees.DeletionExcludesExecution | internal/server/projects.go:180-211 | files of a generation are removed only when nothing runs under its key and every exit under it is confirmed |
| LifecycleGuarantees.NothingStartsAfterRemoval | internal/server/projects.go:180-211 | and ever after nothing runs under it and no unconfirmed exit turns up, even when the ID is used again |
| LifecycleGuarantees.StatusIsHonest | internal/server/conversations.go:50-60 | the conversation status allows a start exactly when the start handler would be accepted |
| LifecycleGuarantees.LocksAreHeldInside | internal/server/projects.go:132-211 | the lock of an ID is held exactly while a handler is between acquiring it and leaving, by that handler |
| LifecycleGuarantees.StartIsAnswered | internal/server/conversations.go:62-92 | unless its directory is unavailable, its context has ended, the manager is closed, a stop is under way or an exit is unconfirmed, a start leaves the conversation launching or running, launched by it if and only if nothing was going on; then its lock is free |
| LifecycleProgress.DeletableIffNothingLost | internal/server/projects.go:180-211 | from every state a project that nothing is working on can be deleted by one request, whatever runs in it, if and only if no exit under its key was lost; all other rows, files, handlers and locks stay as they are |
| LifecycleProgress.LostExitPinsProject | internal/server/projects.go:202-209 | once an exit is lost its project stays ready, with its whole directory, for good |
| Gate.StepKeepsInv | internal/server/server.go:225-245 | every interleaving of registrations and stopRequests calls keeps: one holder of the mutex, a count equal to the handlers under way, and nobody slipping in behind a stopRequests that went through |
| Gate.ShutForGood | internal/server/server.go:225-245 | once stopRequests has been through its section, nobody registers any more, and an empty gate stays empty |
| Gate.SomebodyCanGoOn | internal/server/server.go:225-245 | whoever holds the mutex can go on, and when nobody does everybody can |
| Gate.AdmittedIffOpen | internal/server/server.go:225-245 | a handler at the check is let in if and only if the gate is open then, and is counted before it lets go of the mutex |
| Shutdown.ClosedInOrder | internal/server/server.go:174-183 | manager, store and workspace lock are closed in this order, once each |
| Shutdown.ClosesWhenQuiescent | internal/server/server.go:174-183 | from the first close on, no request is registered or being handled, no launcher runs, every process is over |
| Shutdown.WaitGroupIsSafe | internal/server/server.go:225-245 | the count never goes below zero, and nothing is added once it is waited for |
| ShutdownProgress.ServerCanFinish | internal/server/server.go:174-183 | from every state serve can come to its end with everything closed in order, all it takes being that handlers and launchers return and processes end |
| WrapperShutdown.DrainsCompleteOutput | internal/wrapper/server.go:133-157 | attachments are turned away for draining only after the harness exited and everything that was read of its output is in the terminal |
| WrapperShutdown.DrainEndsEmpty | internal/wrapper/server.go:133-158 | from the published exit on serve drains, goes on only when every registered handler has returned, and cancels them meanwhile only at a deadline or the end of its context |
| WrapperShutdown.DoneJoinsEverything | internal/wrapper/server.go:100-123 | when serve returns, and ever after, no socket handler is left or can start, the harness has exited and everything that was read of its output is in the terminal |
| WrapperShutdown.WaitGroupIsSafe | internal/wrapper/websocket.go:45-53 | no handler registers once anybody waits for the handlers, on any of the ways out of serve |
| WrapperProgress.WrapperCanFinish | internal/wrapper/server.go:100-157 | from every state in which the harness has exited serve can come to its end with the output finished and everything joined, when attached browsers drain and leave, with no deadline passing and nobody stopping the wrapper |
| InputChunks.SendInput | internal/server/web/src/terminal.js:57-70 | the loop sends exactly the greedy chunks |
| InputChunks.InputArrivesWhole | internal/server/web/src/terminal.js:57-70 | the chunks concatenate to the input, are not empty, have at most 8192 units, and no surrogate pair lies across two of them |
| InputChunks.FewestMessages | internal/server/web/src/terminal.js:57-70 | no other way to cut the input under these limits needs fewer messages |
| InputChunks.MessagesFitReadLimit | internal/wrapper/websocket.go:76-77 | every message is within the 64 KiB read limit, escapes included (section 7 of RFC 8259) |
| ProjectIds.PatternIffWellFormed | internal/project/project.go:37 | the ID pattern, read as words joined by single hyphens, is the same as a condition on neighbouring characters |
| ProjectIds.SlugIsValidOrEmpty | internal/server/web/src/project-create.js:3-7 | for every name the page proposes nothing or an ID the server accepts, also after truncation |
| ProjectIds.SlugEmptyIffNoLetters | internal/server/web/src/project-create.js:3-7 | it proposes nothing exactly for names without letters or digits |
| ProjectIds.SlugSpellsName | internal/server/web/src/project-create.js:3-7 | the letters of the proposal are the first ones of the name, in order, and all of them if and only if nothing had to be truncated |
| ProjectIds.ProposalHyphenatesWords | internal/server/web/src/project-create.js:4-5 | before truncation the proposal is the maximal runs of letters and digits of the name, joined by single hyphens |
| ProjectIds.SlugIsItsWords | internal/server/web/src/project-create.js:3-7 | the proposal is that text, or its first 64 characters without a hyphen at the end |
| ProjectIds.ValidIdsAreFixed | internal/server/web/src/project-create.js:3-7 | every valid ID is proposed unchanged, given only that folding leaves plain lower-case letters, digits and hyphens alone |

## Left out

- Output of 2^64 bytes or more in one invocation; offsets are 64-bit words whose wrap-around is modelled and shown not to happen below that.
- Switching to another invocation in the page, which relies on how xterm treats buffered writes across a reset; write callbacks come in order.
- Terminal input on its way into the harness, resizing, heartbeats, and the bytes of JSON messages other than input.
- The handshake, proxying and framing of WebSockets: a connection is an ordered channel that may break at any step.
- The HTTP servers: when they stop serving is up to the environment.
- Real time: timeouts and deadlines are failures or cancellations that may happen at any step, and nothing is claimed about how soon anything happens; the progress results say which steps lead there, not that a scheduler takes them.
- Goroutines themselves: what runs concurrently is a machine whose steps are the lock-held sections, channel operations and statements; memory below that granularity is the lock's business.
- Error texts and logs; where several errors are joined the model keeps whether there was one.
- The SQL engine, migrations, listing and its order: the table is a map and the WHERE clauses are guards. Versions are unbounded, not int64.
- The file system: a directory is known by the generation that made it and by whether it is whole; symbolic links, permissions, `git init` and tampering from outside are not modelled, so the checks in requireDirectory and projectDirectory appear only as failures.
- Names of projects: trimming and validation of display names, which touch nothing else.
- Unicode folding in the ID generator, which is a parameter of ProjectId; characters outside the pattern are all treated alike by what follows it.
- The state failed, which no operation of the repository stores; Delete accepts it and the model keeps that branch.
- Recovery of projects left in creating or deleting by a crash, which the repository does not implement.
- HTTP routing, request decoding, status codes, assets, the command line, and the rest of the page.
