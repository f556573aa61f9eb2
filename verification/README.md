# Verification models of the AI Block runtime

These Dafny modules model the parts of the runtime whose correctness spans several functions or a
whole run, and prove what the runtime relies on them for. `dafny verify dfyconfig.toml` checks
everything.

**Host protocol.** A gateway connection on the server and an actor host exchange numbered envelopes
over two first-in-first-out channels. `GatewayEndpoint` and `HostEndpoint` are the two ends as
values, `HostLink` joins them, and `HostLinkRuns` states what holds in every run. `Supervisor` is the
backend supervisor with the command processor and an explicit queue of promise reactions;
`SupervisorStates`, `SupervisorReplies`, `SupervisorSessions`, `SupervisorCallers`, `SupervisorStops`
and `SupervisorEmissions` prove its invariants and `SupervisorRuns` what follows over every run.
`HostSystem` puts the pieces together: every run of the whole is a run of the link and a run of the
supervisor at once, which gives the end-to-end statements about what the server's fact sink sees.
`HostGatewayObjects` (with `GatewayRegistry`) and `ActorHostObjects` hold the classes that update
their fields in place; each method is proved equal to the step of the value model.
`ProcessRunner` and `ClaudeBackend` add the child processes and the Claude Code adapter: each execution
has a child with its own history of happenings, and what the adapter's promises settle with is read off
that history.

**Definition Brick store.** `ProjectTables` is the schema with its constraints and the repository
statements, `ProjectService` the application service as transactions, `ProjectLogs` a map of
append-only logs that the tables are proved to refine, and `ProjectRuns` whole runs from the empty
database, including the reads and when their integrity checks can fail. `DatabaseMutexes` is the
reference-counted registry of promise mutexes, each a chain of promises, as a state machine over every
interleaving, and `DatabaseMutexObjects` its objects. `ProjectTransactions` splits a command into the
pieces between its awaits, and `ProjectConcurrency` runs any number of such commands on any number of
handles of one file, with the tables shared: that this amounts to one command after another is proved
from the promise chains.

**Templates and canonical forms.** `Utf16Text`, `BrickBodies`, `JsonValues`, `IssuePaths` and
`Materialize` model text canonicalization, body normalization, JSON comparison, issue paths and the
decode kernel. `TemplateValidation`, `TemplateCandidates`, `TemplateIssues`, `TemplateRevisions` and
`TemplateCompiler` model validation, the stored view and compilation, `TemplateService` the service over
its store, and `TemplateRuns` what a later store does to an outcome. `TemplateInterleavings` lets
commands overlap, each reference read being an event of its own, and proves that what was stored
compiles in every later state.

## Assumptions

- Channels neither lose nor reorder messages until an end fails; a failure is an event of its own.
- `transport.send` does not re-enter, and does not fire the failure listener in a call that returns normally.
- The server's message ids never repeat. Host message ids may.
- One command processor drives one supervisor, and only it emits acknowledgements. Other outbound callers may emit facts without a correlation id.
- The backend adapter's `start` does not throw. Its `initialize` and an execution's `stop` may throw or be rejected. In `ClaudeBackend` a `stop` may be rejected but does not throw, because `stop` of the process runner catches what `kill` throws.
- Identifiers, timestamps, error texts and digests are compared for equality only and are integers here. Canonical JSON followed by SHA-256 is an arbitrary function: nothing rests on it being free of collisions.
- Whether providers, schemas on generated envelopes, BEGIN, COMMIT, the fact sink and saving a snapshot succeed is chosen freely for each call.
- Where a promise value passes through further promises before a reply leaves, the number of hops is chosen freely; reactions otherwise run first in, first out.
- In `TemplateInterleavings` the two steps inside the template repository's transaction (look up, then insert or append) are not interrupted by another template transaction, and one reference read is one step: `ProjectConcurrency` is why the latter may be assumed.
- Backend, tool provider and compatibility validators and the workspace are deterministic functions. The last template theorem also needs the workspace to answer non-empty, well-formed directories, the id and clock providers to satisfy their schemas, and every brick to stay within 2^53-1 revisions.

## Where the code and its promises part

- `canonicalizeText` strips one BOM per call. A text that begins with two BOMs changes again on a second call, so such a brick is created and can then never be read (`ProjectRuns.TwoBomsAreWrittenButNotRead`; the exact condition is `ProjectRuns.WrittenReadsBackIff`).
- `hasLoneSurrogate` accepts a high surrogate as the last unit (`Utf16Text.ScanMissesOnlyAFinalHighSurrogate`).
- Invocation ids are never checked for reuse, so replies are counted by the causal message id.

## Model

| member | source | states |
|---|---|---|
| HostLink.LinkStepKeeps | apps/runtime-server/src/modules/host-gateway/host-gateway.ts:194-380 | Every event of one gateway connection joined to one generation-1 host of its identity (a send, a receipt on either side, a start, an emission, a transport failure) keeps the link invariant: numbering, channel contents, acknowledgements, pending commands, facts and deliveries |
| HostLink.GatewayAccepts | apps/runtime-server/src/modules/host-gateway/host-gateway.ts:194-296 | The message at the head of the channel is the one a gateway that has not failed expects: no rejection for sequence, generation, identity, wrong first payload or duplicate hello; its answer is fixed by the payload kind, and an acknowledgement is never ignored |
| HostLink.HostAccepts | apps/actor-host/src/server-connection/server-connection.ts:114-140 | The message at the head of the channel is the one a host that has not failed expects, and it is accepted |
| HostLink.AckIsAwaited | apps/runtime-server/src/modules/host-gateway/host-gateway.ts:242-253 | The next acknowledgement taken from the channel always names a pending command |
| HostLink.HostReceivesKeeps | apps/actor-host/src/server-connection/command-processor.ts:48-59 | Taking a message and acknowledging it before dispatch keeps acknowledgements equal to the commands taken, in order, also when the acknowledgement cannot be written |
| HostLink.FactNamesSettled | apps/runtime-server/src/modules/host-gateway/host-gateway.ts:256-266 | A fact about to be delivered that names a command names one that was sent and whose acknowledgement was already taken |
| HostLinkRuns.LiveEndsNeverReject | apps/runtime-server/src/modules/host-gateway/host-gateway.ts:194-311 | Over every run: no end that has not failed refuses any message, and no acknowledgement is ignored |
| HostLinkRuns.ChannelsAreConsecutive | apps/actor-host/src/server-connection/server-connection.ts:148-179 | Over every run: each channel holds consecutive sequence numbers from the receiver's next-inbound counter up to the sender's next-outbound counter |
| HostLinkRuns.PendingIsInFlight | apps/runtime-server/src/modules/host-gateway/host-gateway.ts:337-380 | While both ends are live, the pending-command keys are exactly the disjoint union of the command ids still in the channel to the host and the ids of acknowledgements still in the channel back, each without repetition |
| HostLinkRuns.CommandsAreAckedOrInFlight | apps/runtime-server/src/modules/host-gateway/host-gateway.ts:242-253 | The commands sent are, in order, those acknowledged and taken, those whose acknowledgement is under way, and those still on their way |
| HostLinkRuns.AcknowledgedOnce | apps/actor-host/src/server-connection/command-processor.ts:48-59 | Over every run the host acknowledges each command at most once |
| HostLinkRuns.FactsAreDeliveredInOrder | apps/runtime-server/src/modules/host-gateway/host-gateway.ts:256-283 | The delivered facts are an in-order, duplicate-free prefix of the facts the host wrote; the gateway's last message before each delivery is its receipt for that fact; a fact that carries a correlation id names a sent command that is no longer pending |
| GatewayRegistry.OccupiedIff | apps/runtime-server/src/modules/host-gateway/host-gateway.ts:57-64 | A new connection is turned away exactly when a connection that has not failed shares its actor or its host instance |
| GatewayRegistry.OpenKeeps | apps/runtime-server/src/modules/host-gateway/host-gateway.ts:66-73 | Registering a new pending connection keeps each map pair equal to the connections of its state, with at most one unfailed connection per actor and per host |
| GatewayRegistry.CommitKeeps | apps/runtime-server/src/modules/host-gateway/host-gateway.ts:113-129 | A pending connection is never refused by commitLive, and moving it to the live maps keeps the four maps in order |
| GatewayRegistry.FailingKeeps | apps/runtime-server/src/modules/host-gateway/host-gateway.ts:131-144 | A failing connection, however late, leaves the four maps and no other connection's entry moves |
| GatewayRegistry.MovedKeeps | apps/runtime-server/src/modules/host-gateway/host-gateway.ts:113-144 | Whatever state one connection moves to, the maps stay consistent with the states and the entries of all others stay |
| HostGatewayObjects.HostGateway.OpenConnection | apps/runtime-server/src/modules/host-gateway/host-gateway.ts:53-95 | Rejects exactly when an unfailed connection shares actor or host; otherwise a new pending connection is registered, or nothing unfailed is added when observing the transport fails |
| HostGatewayObjects.HostGateway.CommitLive | apps/runtime-server/src/modules/host-gateway/host-gateway.ts:113-129 | Moves the connection from the pending to the live maps; the branch that would fail it is dead |
| HostGatewayObjects.HostGateway.SendCommand | apps/runtime-server/src/modules/host-gateway/host-gateway.ts:97-107 | Sends on the one live connection of the actor and touches no other; answers not_live exactly when there is none |
| HostGatewayObjects.GatewayConnection.FailConnection | apps/runtime-server/src/modules/host-gateway/host-gateway.ts:175-192 | Fails once, clears the pending commands and takes exactly its own entries out of the registry |
| HostGatewayObjects.GatewayConnection.Write | apps/runtime-server/src/modules/host-gateway/host-gateway.ts:337-380 | The in-place write equals the connection model's write: the counter advances even when the write fails, and a failure fails the connection |
| HostGatewayObjects.GatewayConnection.Send | apps/runtime-server/src/modules/host-gateway/host-gateway.ts:213-218 | The in-place send equals the model's, with the registry kept valid |
| HostGatewayObjects.GatewayConnection.Receive | apps/runtime-server/src/modules/host-gateway/host-gateway.ts:194-211 | The in-place receive equals the model's receive on every input and state, with the registry kept valid |
| HostGatewayObjects.GatewayConnection.ReceiveHello | apps/runtime-server/src/modules/host-gateway/host-gateway.ts:220-240 | The in-place hello receipt equals the model's; the registration-failed answer after commitLive is dead |
| HostGatewayObjects.GatewayConnection.ReceiveLive | apps/runtime-server/src/modules/host-gateway/host-gateway.ts:242-283 | The in-place live receipt equals the model's: acknowledgements settle, facts are acknowledged and then delivered |
| ActorHostObjects.ServerConnection.StartConnection | apps/actor-host/src/server-connection/server-connection.ts:100-112 | The in-place start equals the host model's: hello once, live only when it was sent |
| ActorHostObjects.ServerConnection.Receive | apps/actor-host/src/server-connection/server-connection.ts:114-140 | Receiving in place, the hand-over to the command processor included, changes connection and supervisor together exactly as receiving does in the whole system: refusals change nothing, acceptance advances the counter, acknowledges and dispatches |
| ActorHostObjects.ServerConnection.Write | apps/actor-host/src/server-connection/server-connection.ts:148-179 | The in-place write equals the host model's |
| ActorHostObjects.ActorHostCommandProcessor.Process | apps/actor-host/src/server-connection/command-processor.ts:48-75 | Acknowledges first; only when that was sent does it dispatch, changing the supervisor as the model's dispatch does and handing on exactly what was emitted |
| ActorHostObjects.ActorHostCommandProcessor.RunJob | apps/actor-host/src/server-connection/command-processor.ts:103-143 | Running the first queued promise reaction in place changes connection and supervisor together exactly as that reaction does in the whole system, handing on exactly what was emitted |
| ActorHostObjects.BackendSupervisor.Initialize | apps/actor-host/src/backend/supervisor.ts:92-126 | The in-place initialize equals the model's: mismatch, quarantine, already initialized, join, or a new reservation |
| ActorHostObjects.BackendSupervisor.OnInitialized | apps/actor-host/src/backend/supervisor.ts:299-320 | The in-place end of runInitialization equals the model's |
| ActorHostObjects.BackendSupervisor.StartInvocation | apps/actor-host/src/backend/supervisor.ts:128-238 | Refuses for the model's reasons, in order, before asking the adapter; a launch failure changes nothing; a start makes the invocation active |
| ActorHostObjects.BackendSupervisor.StopInvocation | apps/actor-host/src/backend/supervisor.ts:240-277 | Refuses for the model's reasons; otherwise asks the execution to stop at most once |
| ActorHostObjects.BackendSupervisor.OnResume | apps/actor-host/src/backend/supervisor.ts:175-211 | The completion handler after its await equals the model's: nothing once settled, else the result and the finish |
| ActorHostObjects.BackendSupervisor.Fail | apps/actor-host/src/backend/supervisor.ts:322-329 | The in-place fail equals the model's: only the active, unsettled invocation, and it faults the supervisor |
| SupervisorStates.StepStates | apps/actor-host/src/backend/supervisor.ts:128-336 | Every command, settlement and job keeps: active exactly while running or stopping, only the active invocation unsettled, at most one stop per execution, and unless faulted every settled invocation's completion fulfilled |
| SupervisorStates.StepInitialization | apps/actor-host/src/backend/supervisor.ts:92-126 | Every step keeps: only the last reservation unresolved, all earlier ones failed, and at most one initialization reaction queued, for the held reservation |
| SupervisorStates.OnInitializedInitialization | apps/actor-host/src/backend/supervisor.ts:299-320 | When the adapter's initialize settles, its reservation is still the held one, so it resolves to initialized or failed, never to reservation lost |
| SupervisorReplies.DispatchBalance | apps/actor-host/src/server-connection/command-processor.ts:77-150 | Dispatching a start or initialize command adds exactly one due reply for its own id and none for any other |
| SupervisorReplies.RunHeadBalance | apps/actor-host/src/backend/supervisor.ts:155-225 | Running a job moves a reply from outstanding to queued or from queued to sent; none is made or lost |
| SupervisorReplies.StepAccounted | apps/actor-host/src/server-connection/command-processor.ts:103-143 | Every step keeps: each start or initialize command has exactly one reply sent, queued or outstanding, and unknown ids have none |
| SupervisorSessions.ReportedBeforeReply | apps/actor-host/src/server-connection/command-processor.ts:119-142 | When a queued session report runs, no reply to its start has been emitted |
| SupervisorSessions.RunHeadSessions | apps/actor-host/src/backend/supervisor.ts:155-225 | Running a job keeps: queued reports come before their reply, sent reports precede replies, and results fit the invocation and its discovered session |
| SupervisorStops.StepMoves | apps/actor-host/src/backend/supervisor.ts:240-277 | Every step adds at most one stop call, to exactly the execution whose stop an accepted command calls, and otherwise leaves starts and stop counts alone |
| SupervisorCallers.ResolvedCallers | apps/actor-host/src/backend/supervisor.ts:108-126 | Resolving the held reservation answers each joined caller, and every reply to a caller says what its reservation resolved to |
| SupervisorRuns.StepKeeps | apps/actor-host/src/backend/supervisor.ts:92-336 | Every step keeps all supervisor invariants together |
| SupervisorRuns.NeverTwoBackends | apps/actor-host/src/backend/supervisor.ts:128-141 | Over every run: when the supervisor would call the adapter's start, every execution it ever started is settled with a fulfilled completion |
| SupervisorRuns.ActiveIffBusy | apps/actor-host/src/backend/supervisor.ts:322-336 | Over every run: an active invocation exists exactly when the state is running or stopping, and it is the only unsettled one |
| SupervisorRuns.FaultedIsAbsorbing | apps/actor-host/src/backend/supervisor.ts:322-329 | Over every run: from the faulted state every step stays faulted and starts nothing |
| SupervisorRuns.InitializationIsSingleFlight | apps/actor-host/src/backend/supervisor.ts:108-126 | Over every run: every reservation but the last failed at the adapter, so initialize never runs twice at once nor after success; none is lost; each resolves as its adapter call settled |
| SupervisorRuns.JoinedCallersAgree | apps/actor-host/src/backend/supervisor.ts:111-116 | Over every run: any two replies to callers of one reservation carry the same result |
| SupervisorRuns.OneReplyEach | apps/actor-host/src/server-connection/command-processor.ts:103-143 | Over every run: each start or initialize command has exactly one reply, sent, queued or outstanding; keyed by the causal message id |
| SupervisorRuns.ReportsPrecedeAndAgree | apps/actor-host/src/server-connection/command-processor.ts:119-142 | Over every run: a session report precedes the reply to its start, and a result reply carries the reported session and the same invocation |
| SupervisorRuns.StoppedOnceWhileActive | apps/actor-host/src/backend/supervisor.ts:240-277 | Over every run: an execution's stop is called as often as a stop command was accepted for it, at most once, and then by a command naming its invocation while it was the active, unsettled execution of a running supervisor |
| SupervisorEmissions.StepOwns | apps/actor-host/src/server-connection/command-processor.ts:77-164 | Every step keeps: whatever is emitted or queued is a fact of the host's own identity that names a dispatched command |
| HostSystem.EveryRunIsCoupled | apps/actor-host/src/server-connection/command-processor.ts:48-164 | Every run of the whole system is at once a run of the link and a run of the supervisor; the commands dispatched are those acknowledged, and the facts written are what the processor emitted |
| HostSystem.OneReplyOnTheWire | apps/actor-host/src/server-connection/command-processor.ts:103-143 | While the host connection is live, each start or initialize command it took has exactly one reply among the facts written, plus queued and outstanding |
| HostSystem.DeliveredWereEmitted | apps/runtime-server/src/modules/host-gateway/host-gateway.ts:256-283 | What the server's sink received is, in order, a prefix of what the processor emitted |
| HostSystem.SinkSeesReportsFirstAndAgreeing | apps/runtime-server/src/modules/host-gateway/host-gateway.ts:256-283 | End to end: the sink sees a session report before the reply to the same command, and a result naming the reported session |
| HostSystem.SinkSeesOneReply | apps/runtime-server/src/modules/host-gateway/host-gateway.ts:256-283 | End to end: the sink never sees two replies to one start or initialize command |
| ProcessRunner.StoppedIff | apps/actor-host/src/backend/process-runner.ts:80-113 | A process counts as stopped exactly when it closed, before any other end, after a first stop call whose kill was delivered |
| ProcessRunner.NodeProcessExecution.OnClose | apps/actor-host/src/backend/process-runner.ts:87-112 | The close handler keeps the fields equal to the verdict of the event history |
| ProcessRunner.NodeProcessExecution.OnError | apps/actor-host/src/backend/process-runner.ts:81-86 | The error handler keeps the fields equal to the verdict of the event history and rejects an open stop |
| ProcessRunner.NodeProcessExecution.Stop | apps/actor-host/src/backend/process-runner.ts:116-135 | The child is killed at most once; later calls return the first promise; a kill that is refused or throws withdraws the request |
| ClaudeBackend.CompletionMeans | apps/actor-host/src/backend/claude-code-adapter.ts:105-167 | An execution completes only as stopped, which takes a delivered kill, or with a session, which for a resume is the requested one |
| ClaudeBackend.MachineStepKeeps | apps/actor-host/src/backend/claude-code-adapter.ts:128-172 | Every step of the supervisor, or of a child process on its own, keeps: each execution has a child of its own directive, and all that was settled, queued or sent for it is what its child's own history shows |
| ClaudeBackend.ResultsTellTheTruth | apps/actor-host/src/backend/claude-code-adapter.ts:148-172 | Over every run of the supervisor with its child processes: a stopped result means exactly one stop was accepted for the execution, while it was active and running, its kill was delivered, and the child closed after it before any other end; any other result says how the child ended and carries the session its output reported, for a resume the requested one |
| JsonValues.SameJsonDecidesMeaning | apps/actor-host/src/backend/supervisor.ts:340-356 | sameJsonValue decides equality of JSON values up to key order, although it checks one direction only |
| JsonValues.SameJsonIsAnEquivalence | apps/actor-host/src/backend/supervisor.ts:340-356 | sameJsonValue is reflexive, symmetric and transitive on values with distinct keys |
| DatabaseMutexes.ResumesInTurn | apps/runtime-server/src/modules/project/infrastructure/sqlite/persistence.ts:381-398 | The promise chain alone orders the calls: an await of the previous tail resumes only after every earlier turn was released |
| DatabaseMutexes.StepKeeps | apps/runtime-server/src/modules/project/infrastructure/sqlite/persistence.ts:381-527 | Every open, failed open, call, resolution of a tail, resumption, release and close keeps: registrations count their holders, are in the map exactly while referenced, and each promise in a chain has resolved only behind released turns |
| DatabaseMutexes.OneTransactionPerPath | apps/runtime-server/src/modules/project/infrastructure/sqlite/persistence.ts:381-421 | Over every interleaving, at most one transaction per canonical path is in its critical section, even after the registry entry was deleted and created again |
| DatabaseMutexes.WorkBehindCloseNeverTransacts | apps/runtime-server/src/modules/project/infrastructure/sqlite/persistence.ts:434-462 | Over every interleaving, work queued behind a close of its own handle never enters a transaction |
| DatabaseMutexes.OpenHandleIsRegistered | apps/runtime-server/src/modules/project/infrastructure/sqlite/persistence.ts:407-421 | An unclosed handle's registration is the one its path maps to, so unclosed handles of a path share one mutex |
| DatabaseMutexes.ReleaseDeletesItsOwnEntry | apps/runtime-server/src/modules/project/infrastructure/sqlite/persistence.ts:418-421 | Deleting by path removes no other registration |
| DatabaseMutexes.CallsRunInOrder | apps/runtime-server/src/modules/project/infrastructure/sqlite/persistence.ts:384-397 | Over every run, a turn that can resume or has resumed has every earlier turn of its mutex released |
| DatabaseMutexes.NoCallIsForgotten | apps/runtime-server/src/modules/project/infrastructure/sqlite/persistence.ts:384-397 | Over every run, once every earlier turn was released a waiting call can resume, or a promise on its way can resolve |
| DatabaseMutexObjects.OpenDatabases.Retain | apps/runtime-server/src/modules/project/infrastructure/sqlite/persistence.ts:407-416 | In place, equals the model's retain |
| DatabaseMutexObjects.OpenDatabases.Release | apps/runtime-server/src/modules/project/infrastructure/sqlite/persistence.ts:418-421 | In place, equals the model's release |
| DatabaseMutexObjects.OpenDatabases.OpenPersistence | apps/runtime-server/src/modules/project/infrastructure/sqlite/persistence.ts:474-527 | In place, equals the model's open, or its failed open when startup throws after the mutex was retained |
| DatabaseMutexObjects.OpenDatabases.Enqueue | apps/runtime-server/src/modules/project/infrastructure/sqlite/persistence.ts:384-391 | In place, equals the model's call: the tail is read, chained to the new turn and replaced |
| DatabaseMutexObjects.OpenDatabases.SettleTail | apps/runtime-server/src/modules/project/infrastructure/sqlite/persistence.ts:389-390 | In place, equals the model's resolution of a chained promise, once the one before it has resolved and its turn was released |
| DatabaseMutexObjects.OpenDatabases.Resume | apps/runtime-server/src/modules/project/infrastructure/sqlite/persistence.ts:434-462 | In place, once the awaited promise has resolved, equals the model's turn: a close closes, work begins a transaction or throws on a closed handle |
| DatabaseMutexObjects.OpenDatabases.AfterClose | apps/runtime-server/src/modules/project/infrastructure/sqlite/persistence.ts:495-504 | In place, equals the model's release after close, once per handle |
| ProjectTables.Database.CreateBrick | apps/runtime-server/src/modules/project/infrastructure/sqlite/persistence.ts:259-282 | In place, equals the table function: insert aggregate and first revision under the schema's constraints |
| ProjectTables.Database.AppendRevision | apps/runtime-server/src/modules/project/infrastructure/sqlite/persistence.ts:335-360 | In place, equals the table function: kind, archive, base and number checks, then the guarded advance and the insert |
| ProjectTables.Database.ArchiveBrick | apps/runtime-server/src/modules/project/infrastructure/sqlite/persistence.ts:362-378 | In place, equals the table function |
| ProjectService.ProjectApplicationService.CreateDefinitionBrick | apps/runtime-server/src/modules/project/application.ts:92-134 | In place, equals creating on the tables: candidate check, transaction, rollback on any failure |
| ProjectService.ProjectApplicationService.ReviseDefinitionBrick | apps/runtime-server/src/modules/project/application.ts:136-180 | In place, equals revising on the tables |
| ProjectService.ProjectApplicationService.ArchiveDefinitionBrick | apps/runtime-server/src/modules/project/application.ts:182-205 | In place, equals archiving on the tables |
| ProjectService.ProjectApplicationService.ReadExactDefinitionBrickRevision | apps/runtime-server/src/modules/project/application.ts:265-295 | In place, equals the exact read, leaving the tables alone |
| ProjectService.ProjectApplicationService.ListDefinitionBrickHistory | apps/runtime-server/src/modules/project/application.ts:236-263 | In place, equals the history read, leaving the tables alone |
| ProjectLogs.CreateRefines | apps/runtime-server/src/modules/project/application.ts:92-134 | Creating on the tables is creating one log of length one: same answer, same store, invariant kept |
| ProjectLogs.ReviseRefines | apps/runtime-server/src/modules/project/application.ts:136-180 | Revising on the tables is appending to one log under the base check: same answer, same store, invariant kept |
| ProjectLogs.ArchiveRefines | apps/runtime-server/src/modules/project/application.ts:182-205 | Archiving on the tables is marking one log: same answer, same store, invariant kept |
| ProjectRuns.ReadExactRefines | apps/runtime-server/src/modules/project/application.ts:265-295 | An exact read is a lookup in the log; integrity fails exactly for a body with a leaf that starts with a BOM, or a log beyond 2^53-1 |
| ProjectRuns.HistoryRefines | apps/runtime-server/src/modules/project/application.ts:236-263 | A history read is the whole log in order, or an integrity error exactly when some entry is unreadable or the log beyond 2^53-1 |
| ProjectRuns.IntegrityIff | apps/runtime-server/src/modules/project/application.ts:354-376 | The integrity check of a stored revision always finds the digest right; it fails exactly when the body would normalize again |
| ProjectRuns.RunsAreConsistent | apps/runtime-server/src/modules/project/infrastructure/sqlite/persistence.ts:259-378 | In every state of every run from the empty database, revisions are exactly 1 to current, of one kind and one brick uid |
| ProjectRuns.RunsExtend | apps/runtime-server/src/modules/project/application.ts:136-205 | Over every run logs only grow at their end with their identity fixed, and an archived log changes no more |
| ProjectRuns.FailuresLeaveTheStore | apps/runtime-server/src/modules/project/application.ts:378-390 | A command that answers an error leaves the tables as they were |
| ProjectRuns.EachBaseIsConsumedOnce | apps/runtime-server/src/modules/project/application.ts:136-180 | Over every sequence of commands, of two successful revises of one brick the later has the larger base, so each base is consumed at most once |
| ProjectRuns.RevisionsAreCommands | apps/runtime-server/src/modules/project/application.ts:136-180 | A brick never has more revisions than commands ran, so no run shorter than 2^53 commands outgrows the safe integers |
| ProjectTransactions.AdvanceKeeps | apps/runtime-server/src/modules/project/application.ts:136-180 | From await to await, undisturbed work has written nothing before its last statement and has then done what the command does as a whole |
| ProjectConcurrency.StepKeeps | apps/runtime-server/src/modules/project/infrastructure/sqlite/persistence.ts:434-462 | Every step of handles, promises and transactions on one file keeps: at most one transaction is at work, what it has done so far is a part of its command on the committed tables, and what ended is recorded once |
| ProjectConcurrency.InterleavingsAreRuns | apps/runtime-server/src/modules/project/infrastructure/sqlite/persistence.ts:381-463 | Serializability: in every state of every interleaving of calls, awaits, statements, commits, rollbacks, opens and closes, the durable tables are those of the ended transactions' commands run one after another in the order they ended, each with the answer it gave, and every successful job is among them once |
| ProjectConcurrency.ConcurrentLogsOnlyGrow | apps/runtime-server/src/modules/project/application.ts:136-205 | Under every interleaving logs only grow at their end with their identity fixed, and an archived log changes no more |
| ProjectConcurrency.ConcurrentRevisesConsumeEachBaseOnce | apps/runtime-server/src/modules/project/application.ts:136-180 | Over any concurrent set of revises, whichever handles they run on, at most one that consumes a given base of a brick succeeds |
| ProjectConcurrency.ConcurrentAnswersKeepIntegrity | apps/runtime-server/src/modules/project/application.ts:354-376 | Under every interleaving, while no command handed over a body with a leaf led by two BOMs, no transaction answers with an integrity error |
| ProjectRuns.WrittenReadsBackIff | apps/runtime-server/src/modules/project/application.ts:265-295 | Whatever was written reads back unchanged in every later state if and only if no leaf of the body its command handed over begins with two BOMs and the brick stayed within 2^53-1 revisions; otherwise the answer is an integrity error |
| ProjectRuns.IntegrityErrorIsUnreachable | apps/runtime-server/src/modules/project/application.ts:236-295 | In every run whose commands handed over no body with a leaf led by two BOMs, no exact read, history read or write answers with an integrity error while every brick is within 2^53-1 revisions |
| ProjectRuns.TwoBomsAreWrittenButNotRead | apps/runtime-server/src/modules/project/application.ts:92-134 | A concrete brick whose text leads with two BOMs is created and then fails its own integrity check |
| ProjectRuns.ReadPastCurrent | apps/runtime-server/src/modules/project/application.ts:265-295 | A read past the current revision answers exactly that the revision was not found |
| Utf16Text.CanonicalTextIdempotentIff | packages/runtime-contracts/src/project-definition-brick/digest.ts:13-15 | Canonicalizing again changes nothing exactly when the text does not begin with two BOMs |
| Utf16Text.CanonicalTextFixedIff | apps/runtime-server/src/modules/actor/values.ts:62-64 | A text is its own canonical form exactly when it does not begin with a BOM and holds no CR |
| Utf16Text.CanonicalTextShape | packages/runtime-contracts/src/project-definition-brick/digest.ts:13-15 | The canonical text holds no CR; how it begins and whether it is empty is told by the original |
| Utf16Text.HasLoneSurrogate | packages/runtime-contracts/src/validation/decode.ts:51-63 | The scanning loop answers true exactly when the scan predicate fails |
| Utf16Text.ScanMissesOnlyAFinalHighSurrogate | packages/runtime-contracts/src/validation/decode.ts:51-63 | The scan accepts exactly well-formed UTF-16 and well-formed UTF-16 followed by one high surrogate |
| BrickBodies.NormalizePromptMapsLeaves | packages/runtime-contracts/src/project-definition-brick/digest.ts:60-64 | Normalization keeps the tree and its part order and canonicalizes the leaves in place |
| BrickBodies.RenormalizeIff | packages/runtime-contracts/src/project-definition-brick/digest.ts:66-74 | Normalizing a body again is the identity exactly when no leaf begins with two BOMs |
| BrickBodies.NormalizedBodyFixedIff | packages/runtime-contracts/src/project-definition-brick/digest.ts:66-74 | For a normalized body: exactly when no leaf of it begins with a BOM |
| BrickBodies.NormalizedBodyValidIff | apps/runtime-server/src/modules/project/values.ts:24-41 | Normalizing breaks a valid body's schema exactly when some leaf is a lone BOM |
| IssuePaths.UnescapeUndoesPointerSegment | packages/runtime-contracts/src/validation/decode.ts:43-45 | Unescaping a reference token as in section 4 of RFC 6901 gives back the key |
| IssuePaths.PathsAreInjective | packages/runtime-contracts/src/validation/decode.ts:47-49 | Paths built with childPath determine their keys |
| IssuePaths.IssueKeysAreInjective | packages/runtime-contracts/src/validation/decode.ts:231-244 | The map key of an issue determines its path and rule |
| IssuePaths.NormalizeIssues | packages/runtime-contracts/src/validation/decode.ts:231-244 | The normalized list is strictly sorted by path then rule and holds exactly the (path, rule) pairs of the errors |
| IssuePaths.NormalizedIssuesDependOnTheSet | packages/runtime-contracts/src/validation/decode.ts:231-244 | The normalized list depends only on the set of pairs, not on order or repetition |
| Materialize.MaterializeValue | packages/runtime-contracts/src/validation/decode.ts:80-179 | On every finite object graph, shared or cyclic, the recursion terminates, equals its specification and restores the active set |
| Materialize.MaterializesExactlyFiniteUnfoldings | packages/runtime-contracts/src/validation/decode.ts:80-179 | It succeeds exactly when the reachable unfolding is finite, and then returns exactly that unfolding |
| Materialize.UnfoldIsStable | packages/runtime-contracts/src/validation/decode.ts:80-179 | The unfolding is one value: any greater height yields the same one |
| TemplateIssues.SortAndDeduplicateIssues | apps/runtime-server/src/modules/actor/validation.ts:183-202 | The loop over the sorted list with its seen set yields the report's issues |
| TemplateIssues.ReportHoldsEachOnce | apps/runtime-server/src/modules/actor/validation.ts:183-209 | A report holds exactly the issues found, each once, in order of path and code |
| TemplateValidation.DescriptorsFor | apps/runtime-server/src/modules/actor/validation.ts:225-251 | The loops list the references slot by slot with their paths and expected kinds |
| TemplateValidation.DuplicatePromptIssues | apps/runtime-server/src/modules/actor/validation.ts:253-268 | The loop with its per-slot sets finds exactly the prompt references that repeat an earlier one of their slot |
| TemplateValidation.ResolveReferences | apps/runtime-server/src/modules/actor/validation.ts:321-362 | The resolution loop with its map from slots to entries collects, slot by slot and in order, what each descriptor's examination accepts, and throws when one does |
| TemplateCandidates.ResolveCandidate | apps/runtime-server/src/modules/actor/validation.ts:310-452 | The whole procedure equals its specification: issues, report and candidate |
| TemplateCandidates.ValidResolvesEverything | apps/runtime-server/src/modules/actor/validation.ts:310-452 | A valid report comes with a candidate whose lists match the authored references in length and order, each with the revision it names, of the right kind and digest |
| TemplateRevisions.AuthoredSpecRoundTrips | apps/runtime-server/src/modules/actor/application.ts:170-233 | Rebuilding the authored spec from a stored view gives back the original spec, so the stored template digest always matches |
| TemplateRevisions.PersistedProvenance | apps/runtime-server/src/modules/actor/application.ts:195-219 | The filled map is the list of bindings keyed by path |
| TemplateRevisions.ProvenancePathsAreDescriptorPaths | apps/runtime-server/src/modules/actor/application.ts:195-219 | The persisted provenance paths are the descriptor paths, one for one, with the same kinds and references |
| TemplateRevisions.DescriptorPathsDiffer | apps/runtime-server/src/modules/actor/validation.ts:225-251 | No two descriptors of a spec share a path |
| TemplateRevisions.ProvenanceAtDescriptor | apps/runtime-server/src/modules/actor/application.ts:195-219 | Under each descriptor's path the map holds that descriptor's own binding |
| TemplateCompiler.NormalizedPromptIff | apps/runtime-server/src/modules/actor/compiler.ts:84-92 | Decoding every part again on the way down changes nothing: a prompt that decodes is normalized as a whole |
| TemplateCompiler.MaterialIsNormal | apps/runtime-server/src/modules/actor/values.ts:136-144 | Normalizing the compiler's already normalized prompts once more changes nothing when no stored leaf starts with a BOM |
| TemplateCompiler.CompileAgreesWithView | apps/runtime-server/src/modules/actor/compiler.ts:146-213 | The digest compilation computes from normalized bodies is the one creation computed from the stored bodies |
| TemplateCompiler.CompilesWhen | apps/runtime-server/src/modules/actor/compiler.ts:124-213 | A consistent candidate of BOM-free prompts with distinct providers and a well-formed directory compiles |
| TemplateRuns.ResolvesLater | apps/runtime-server/src/modules/project/infrastructure/actor-definition-brick-resolver.ts:29-68 | A reference that resolved once resolves to the same revision in every later store that can be read, and its texts do not start with a BOM |
| TemplateRuns.ValidatesAlike | apps/runtime-server/src/modules/actor/application.ts:446-476 | Validating over a later store with the persisted provenance has the outcome of the original validation |
| TemplateRuns.CompilesLater | apps/runtime-server/src/modules/actor/application.ts:236-296 | A revision whose references were each read from a store of its own compiles, over any reads that are each of a later store, to its stored configuration digest and the same ordered brick provenance |
| TemplateService.ActorTemplateApplicationService.Create | apps/runtime-server/src/modules/actor/application.ts:359-390 | In place, equals creating on the template store |
| TemplateService.ActorTemplateApplicationService.Revise | apps/runtime-server/src/modules/actor/application.ts:392-423 | In place, equals revising on the template store |
| TemplateService.ActorTemplateApplicationService.Archive | apps/runtime-server/src/modules/actor/application.ts:425-444 | In place, equals archiving on the template store |
| TemplateService.ActorTemplateApplicationService.CompileAndPersist | apps/runtime-server/src/modules/actor/application.ts:446-476 | In place, equals compiling a stored revision: digest check, validation against provenance, compilation, saving |
| TemplateInterleavings.StepStaysOk | apps/runtime-server/src/modules/actor/validation.ts:310-452 | Every begin, single reference read, finish, archive or brick command keeps: revisions are 1, 2, .. of one uid, each made from reads of stores the present one extends; and commands on their way have read such stores |
| TemplateInterleavings.EveryWorldIsOk | apps/runtime-server/src/modules/actor/application.ts:359-476 | The same in every state of every interleaving of brick commands with the single reads, the validation and the transaction of any number of creates, revises and compilations |
| TemplateInterleavings.StoredRevisionsBegin | apps/runtime-server/src/modules/actor/application.ts:446-457 | In every such state the template digest of every stored revision matches, so its compilation can begin |
| TemplateInterleavings.StoredRevisionsCompile | apps/runtime-server/src/modules/actor/application.ts:446-476 | End to end: in every state of every such run, a compilation of a stored revision that made its reads ends with a snapshot of the configuration digest the revision was stored with and its own ordered brick provenance, whatever became of the bricks and the template before and between its reads |

## Left out

- Error message texts, redaction wording and retry flags: only the codes are modelled.
- JSON Schema checking and freezing: values are typed data that satisfy the schemas; what a schema decides beyond types (non-empty strings, surrogate scan, safe integers) is a predicate. `shapeReport` and the issue codes only it produces are not modelled.
- `assertCanonicalizableJson`: on typed JSON values it never throws.
- The order of keys inside the JSON text by which the template report compares issues: issues are compared as records.
- `JSON.stringify` and `JSON.parse` of stored bodies: a body is stored as the value itself.
- `readProject`, `listDefinitionBricks`, `readDefinitionBrick` and the template service's `read`, `list` and `history`: lookups without further logic.
- WebSocket adapters, tokens, timers, buffers, SQL text, pragmas and schema bootstrap.
- The Claude Code adapter's own `initialize` and command lines: a launch that fails is one of the outcomes of an adapter start.
- Liveness: a session promise that never settles, or a nested use of a mutex, waits forever.
- `TemplateService` gives the template repository port a specification (append-only revision lists under a status); the test adapter is not modelled.
- ActorHostObjects.BackendSupervisor.StopInvocation: promise objects are not modelled; an invocation's flags and its derived promises are one record in a list, replaced when it changes.
- DatabaseMutexObjects.OpenDatabases.Resume: promises are numbered entries of their mutex, not objects; when one may resolve is a rule of the model, and which resolves next is chosen freely.
- ProjectConcurrency.InterleavingsAreRuns: other processes do not write the file, and a lock they hold is only seen as a BEGIN or COMMIT that fails; of the reads, the exact read and the history read are modelled.
- Materialize.MaterializeValue: the object graph does not change while it is walked (no getter or proxy runs code), and the keys of one node may repeat, which real objects rule out.
- TemplateService.ActorTemplateApplicationService.Create: the shared resource namespace is reduced to the keys of templates; an id taken by another kind of resource is not modelled.
- TemplateIssues.SortAndDeduplicateIssues: codes are compared by their place in code unit order, listed once, not by their spelling.
- ProjectService.ProjectApplicationService.CreateDefinitionBrick: the command's own schema is the body's kind and validity; identifiers are taken as well-formed.
