# Agent protocol engine: a verified model

This Dafny project models the protocol engine that connects the desktop application to an external
agent process (`crates/synara-acp`), the browser consent policy (`foundations/browser`), and two
smaller stateful programs (the theme catalog parser and the release activation script). It proves what
their interleavings keep. Check it with `dafny verify dfyconfig.toml`.

## How it is built

Concurrent parts are state machines. Each block of the original that runs under one lock, or between
two `await` points, is one step; a dropped future, a fired timeout and a guard's `Drop` are steps of
their own; cancellation tokens are flags that are only ever set. An event that is not enabled leaves
the state as it is, so a theorem over every sequence of events is a theorem over every interleaving.
Objects that the original updates in place are classes whose methods are proved against the same
functions the machines use.

| file | what it models |
|---|---|
| `CappedBuffers`, `Outbound`, `OutboundLaws` | the growing buffer, the shared byte budget, the output queue, the writer that may be cancelled in mid-frame |
| `Frames`, `FrameLines`, `Transport` | the incremental decoder, and what it reads of the bytes the queue writes |
| `PendingTable`, `PeerState`, `Answers` | outgoing requests, their lifetimes, what their callers are told, and the one failure of a connection |
| `Inbound`, `InboundLaws` | incoming requests, their owners, and barriers that keep responses behind replayed history |
| `FairGates` | a lock that is handed over first come, first served |
| `Turns`, `TurnOrder`, `TurnLaws`, `TurnFlow`, `TurnQueue`, `Consent`, `SessionTurns` | prompts, cancellations, closing and permission requests of one session, over the same output queue |
| `Connection`, `PhaseLaws`, `SetupFlow`, `SetupTroubles`, `Leftovers`, `ConnectionTable` | the phase of a connection, its table of sessions, and what failed setups leave in it |
| `Handover`, `HandoverFlow`, `EarlyUpdates` | updates that arrive while their session is being created |
| `Terminals`, `TerminalFlow`, `TerminalCloses`, `TerminalTable` | the table of agent terminals, the sweeps that end them, and when a close is clean |
| `Questions`, `QuestionLaws`, `QuestionRegistry` | the registry of URL questions, whose tokens are children of their owners' |
| `BrowserSpec`, `BrowserHistory`, `BrowserRights`, `BrowserTabs`, `Browser` | the consent policy, tabs and consent read off the history of calls, and how each call changes what is honoured |
| `Literals`, `LiteralErrors`, `CatalogParser` | the literal grammar of the theme catalog and its parser |
| `Activation`, `Repeats`, `ReleaseLinks` | installing and rolling back releases, with a crash between any two file-system steps, and when that can be repeated |

## What does not hold

Six statements one might expect are false of the code. Each has a lemma that shows the case, and lemmas
that say exactly when the code is right.

* A transport that has stopped can still be declared connected. An update of the phase reads the stop
  token first and writes afterwards (`Connection.AStoppedTransportCanConnect`). It happens exactly when
  an update that was already past its look is in its block, on a phase that is not terminal
  (`Connection.RevivedIff`); it ends at most once, and nothing else revives the transport
  (`Connection.StoppedTransport`).
* An update for a session that is being created can be lost. `notify_session` looks the session up and
  buffers the update in two steps. If the lookup runs before the session is registered and the
  buffering after the early updates have been taken, the update is never shown
  (`Handover.AnUpdateCanBeLost`). At most one update is lost, it followed the response on the wire, and
  it is lost exactly when the loop had it in hand at the take, unless the session ends first and it is
  dropped for that (`Handover.LostWasInHand`, `Handover.InHandAtTheTakeIsLost`).
* A restore that failed can keep its slot in the session table: when the agent refused it, and its
  caller is dropped while the failure is being reported (`Leftovers.AbandonedRestoreKeepsItsSlot`).
  While the transport lives, a setup that ended with an error has left its session exactly when it had
  been registered and its caller dropped it while it was being undone (`Leftovers.LeftBehindIff`).
* Closing a session can leave a terminal in the table, because `close` sweeps the terminals first and
  ends the session's lifetime afterwards (`Terminals.ClosingCanLeaveATerminal`). A close is clean for
  good exactly when every terminal inserted between its sweep and its end is gone again by then and no
  creation is past its last look at the token (`TerminalCloses.CloseIsCleanIff`); so it is clean if no
  command is being started at the sweep and none is approved before the end
  (`TerminalCloses.IdleCloseIsClean`). Where the lifetime ends first, as in a failed restore and in a
  disconnect, nothing is left or ever comes back (`Terminals.SweptAfterTheEnd`,
  `Terminals.SweptAfterTheStop`).
* A release operation that was interrupted cannot always be repeated. An installation killed right
  after its rename, or whose first `point` then fails, leaves a release that nothing selects: its
  version is never installed again and no rollback reaches it (`Repeats.AReleaseCanBeStranded`,
  `Repeats.NeverInstalledAgain`, `Repeats.StrandedForGood`). A process killed while it has its temporary
  link leaves that behind, and no process of its number can complete anything any more
  (`Repeats.ANumberCanBeBlocked`). With nobody at work an operation can be completed exactly when it is
  permitted: the package is as its manifest says and its version is new, or both links are set, the links
  are in order, and no temporary link of that number is in the way (`Repeats.CanCompleteIff`). So an
  operation that was permitted can be done once more exactly when an installation had not got past its
  rename, or a rollback was not killed while it had a temporary link (`Repeats.InterruptedIff`).
* Request identifiers repeat: two requests share one exactly when a multiple of 2^64 requests lies
  between them (`PendingTable.IdsCollideIff`). Exactly then can the guard of one take out the other
  one's entry (`PendingTable.GuardTakesIff`).

## Model

| member | source | states |
|---|---|---|
| CappedBuffers.GrowthBounds | crates/synara-acp/src/rpc_outbound.rs:96-115 | for every sequence of accepted writes the length is their sum, the capacity stays at most MAX_FRAME + 1 and leaves room for the delimiter after a write, and growth copies at most twice the final capacity |
| CappedBuffers.CappedBuffer.Write | crates/synara-acp/src/rpc_outbound.rs:96-115 | a write is accepted exactly when the frame limit allows it, then appends exactly its bytes and grows as the growth function says; a refused write changes nothing |
| CappedBuffers.CappedBuffer.Reserve | crates/synara-acp/src/rpc_outbound.rs:103-112 | reallocation keeps the contents and allocates exactly what was asked |
| CappedBuffers.Serialize | crates/synara-acp/src/rpc_outbound.rs:66-71 | serialization succeeds exactly when the message fits, yields the serializer's bytes and one delimiter without reallocating for it, and allocated plus returned permits are the whole reservation |
| Outbound.WriteOutcomes | crates/synara-acp/src/rpc_outbound.rs:134-156 | however the pipe accepts bytes, finishing writes the whole frame, skipping writes nothing, and every failure or timeout leaves a strict prefix |
| Outbound.PollWrite | crates/synara-acp/src/rpc_outbound.rs:136-155 | a turn of the loop that goes on makes progress and never runs past the frame; it skips exactly when the lifetime is over, nothing has been written and nothing has stopped, and breaks off for a cancellation only after a byte was written |
| Outbound.Pipe.WriteFrame | crates/synara-acp/src/rpc_outbound.rs:129-156 | appends to the pipe exactly the prefix of the frame, with the outcome of the reference function on the same polls; a first poll that is cancelled and not stopped writes nothing and skips the frame; a cancellation breaks off only with part of the frame written |
| Outbound.BudgetConserved | crates/synara-acp/src/rpc_outbound.rs:51-91 | in every run available permits, producers' reservations, queued frames and the frame in the writer's hand add up to MAX_OUTBOUND_BYTES |
| Outbound.AllPermitsReturn | crates/synara-acp/src/rpc_outbound.rs:167-200 | when every call of send is over and no frame is left, the whole budget is available again, whatever was cancelled, timed out or refused |
| Outbound.AllocationWithinBudget | crates/synara-acp/src/rpc_outbound.rs:13-21 | after every single write of every serializer, the capacities of all buffers being filled, queued frames and the frame in the writer's hand plus the available permits never exceed MAX_OUTBOUND_BYTES |
| Outbound.SenderWithinItsPermits | crates/synara-acp/src/rpc_outbound.rs:57-80 | no call of send ever allocates more than the permits it holds; a buffer that has been written to keeps room for the delimiter, and a finished frame holds exactly the permits of its allocation |
| Outbound.WireIsFrames | crates/synara-acp/src/rpc_outbound.rs:129-201 | in every run the wire is the complete frames in queue order, without those skipped because their lifetime was cancelled, then at most one strict frame prefix; a prefix that is not being written means the connection has failed |
| Outbound.NothingAfterTheLoop | crates/synara-acp/src/rpc_outbound.rs:187-200 | after the write loop has ended no byte is ever written again |
| Outbound.CancelledNeverBegins | crates/synara-acp/src/rpc_outbound.rs:139-146 | a frame whose lifetime is dead before its first byte never puts a byte on the wire |
| Outbound.ProducersEvolve | crates/synara-acp/src/rpc_outbound.rs:57-90 | frames enter the queue only by the send that encoded them, at most once, and a send that is over stays as it is |
| OutboundLaws.WriteEnds | crates/synara-acp/src/rpc_outbound.rs:129-156 | over any polls: what is written is what was accepted up to the end of the frame; the outcome is that of the first poll that takes nothing, or the timeout; a frame is skipped exactly when its lifetime is over before its first byte |
| OutboundLaws.FailureIff | crates/synara-acp/src/rpc_outbound.rs:187-200 | in every run the connection has failed for a reason exactly when that reason's event is the first failure of the run |
| OutboundLaws.CancelledIsTorn | crates/synara-acp/src/rpc_outbound.rs:139-146 | in every run a connection that failed for a cancellation has part of a frame on the wire |
| OutboundLaws.QueuedFrameIs | crates/synara-acp/src/rpc_outbound.rs:57-91 | in every run each frame ever queued is what one call's serializer wrote and one delimiter, under the lifetime that call was given |
| OutboundLaws.SendGoesThrough | crates/synara-acp/src/rpc_outbound.rs:57-91 | a message that fits is queued when permits, slot and receiver are there, and the permits it does not need come back |
| OutboundLaws.FrameGoesOut | crates/synara-acp/src/rpc_outbound.rs:129-201 | the next frame whose lifetime goes on is written whole, and its permits come back |
| OutboundLaws.CancelledIff | crates/synara-acp/src/rpc.rs:73-78 | in every run a request's lifetime is over exactly when it was cancelled |
| OutboundLaws.AStoppedLoopLeaves | crates/synara-acp/src/rpc_outbound.rs:167-200 | an idle loop that has been stopped, or finds nothing queued, leaves, and every permit of what is queued comes back; a stopped one takes no frame |
| OutboundLaws.AFlushEndsTheFrame | crates/synara-acp/src/rpc_outbound.rs:157-165 | a flush ends a frame and gives its permits back; it breaks the loop off exactly when it fails or the loop was told to stop |
| OutboundLaws.AFailureStops | crates/synara-acp/src/rpc.rs:86-107 | a failure stops the connection |
| OutboundLaws.NobodyReceives | crates/synara-acp/src/rpc_outbound.rs:72-81 | a call that finds nobody to receive its frame ends without sending, and its permits come back |
| Frames.DecodeConcat | crates/synara-acp/src/rpc.rs:325-340 | decoding a stream in two parts, carrying the rest over, is decoding it whole |
| Frames.Decoder.Push | crates/synara-acp/src/rpc.rs:321-341 | one read returns the messages, keeps the rest and reports the error of the line-by-line reference on the carried bytes and the input |
| Frames.ChunkIndependence | crates/synara-acp/src/rpc.rs:342-370 | however a stream is cut into reads, success, error kind, messages and rest are those of the reference; on an error what was handed on before is a prefix of the reference's messages |
| Frames.TwoCutsAgree | crates/synara-acp/src/rpc.rs:321-341 | any two ways of cutting one stream agree on error, messages and rest |
| Frames.ReadLoop | crates/synara-acp/src/rpc.rs:342-382 | the read loop over the decoder object, stopping at the stop token, at a read error, at the end of the output, at a malformed line or at a message that is refused, hands on and ends as the outcome function says |
| Frames.OutcomeIsReference | crates/synara-acp/src/rpc.rs:342-382 | however the output is cut, what is handed on is a prefix of the line-by-line reference's messages; it ends as refused only before the next message, as rejected only where the reference is, and otherwise everything was handed on and it says whether an unfinished line was left |
| FrameLines.LinesAreDecoded | crates/synara-acp/src/rpc.rs:321-341 | whoever cuts a stream into readable lines and a tail without one knows the decoder's answer: the lines' messages, and of the tail that it is kept, too long, or malformed, with the limit of 8 MiB and its delimiter |
| FrameLines.EveryStreamIsLines | crates/synara-acp/src/rpc.rs:321-341 | every stream can be cut so |
| FrameLines.LoopEnds | crates/synara-acp/src/rpc.rs:342-382 | from the lines alone: the loop hands on their messages up to the first that is refused; it gives up only for the fault the lines end in; and otherwise it waits, or says that it was stopped, that reading failed, or that the output ended, with or without an unfinished line |
| FrameLines.RejectedAtItsRead | crates/synara-acp/src/rpc.rs:342-370 | when the loop gives up because of a fault it has handed on exactly the messages of all reads before the one that shows the fault |
| Transport.AgentReadsWhatWasSent | crates/synara-acp/src/rpc_outbound.rs:129-201 | in every run and for every way of cutting the wire, the decoder yields exactly the values of the frames written, in order, holds the unfinished frame, and never reports an error |
| PendingTable.IdsCollideIff | crates/synara-acp/src/rpc.rs:199-202 | two requests get the same identifier exactly when a multiple of 2^64 requests lies between them |
| PendingTable.IdsDistinct | crates/synara-acp/src/rpc.rs:199-202 | the first 2^64 identifiers are all different |
| PendingTable.Reachable | crates/synara-acp/src/rpc.rs:86-107 | in every run of requests, responses, guard drops and failure, however often the counter wraps, at most 128 entries exist, the table is empty once failure has drained it, and the life of every request is in order |
| PendingTable.OneLife | crates/synara-acp/src/rpc.rs:205-239 | a request enters the table at most once, leaves it at most once and after entering, is answered at most once, and only after leaving and after its lifetime was cancelled |
| PendingTable.GoneIsCancelled | crates/synara-acp/src/rpc.rs:73-78 | a request that has left the table, be it replaced by another under the same identifier, has a cancelled lifetime |
| PendingTable.FindsItsOwn | crates/synara-acp/src/rpc.rs:295-305 | the entry under a request's identifier is that request's own or lies a multiple of 2^64 requests from it; among the first 2^64 requests it is its own |
| PendingTable.GuardTakesIff | crates/synara-acp/src/rpc.rs:295-305 | some run has the dropped guard of one request take out the entry of another exactly when a multiple of 2^64 requests lies between them |
| PendingTable.FailureIsFinal | crates/synara-acp/src/rpc.rs:86-107 | the first failure reason is kept, and the table, once drained, stays empty for ever |
| Answers.NoticeIff | crates/synara-acp/src/rpc.rs:464-470 | in every run a caller has been told a result exactly when a response carrying it came to the identifier the caller then had its entry under, and of the disconnection exactly when failure drained its entry |
| Answers.AResponseAnswers | crates/synara-acp/src/rpc.rs:464-470 | a response to a request that waits and is not being drained answers it with the value it carries |
| Answers.DisconnectedOnlyAfterFailure | crates/synara-acp/src/rpc.rs:86-107 | a caller is told that the connection is gone only after the connection has failed |
| Answers.FailedFor | crates/synara-acp/src/rpc.rs:86-107 | the reason a connection failed for is that of the first failure reported |
| Answers.AFailureTellsEveryone | crates/synara-acp/src/rpc.rs:86-107 | a failure that has been recorded can be carried through: the table is empty and everybody who waited has been told that the connection is gone |
| PeerState.Peer.BeginRequest | crates/synara-acp/src/rpc.rs:199-225 | numbering and entering a request are the machine's two steps; it is refused exactly when the connection is stopped or 128 requests are pending; an entry it replaces has its lifetime cancelled |
| PeerState.Peer.DropGuard | crates/synara-acp/src/rpc.rs:295-305 | dropping the guard is the machine's step: the entry leaves, its lifetime is cancelled |
| PeerState.Peer.Respond | crates/synara-acp/src/rpc.rs:466-470 | the entry under the identifier leaves, its lifetime is cancelled, and then its caller, and only it, is answered with the value of the response |
| PeerState.Peer.Fail | crates/synara-acp/src/rpc.rs:86-107 | only the first failure does anything; it records its reason, stops the connection and empties the table, and is a run of the machine |
| PeerState.Peer.Drain | crates/synara-acp/src/rpc.rs:101-105 | draining answers and removes every entry and is a run of the machine |
| Inbound.EveryRequestIsOwned | crates/synara-acp/src/rpc.rs:415-437 | while the connection lives each unanswered incoming request is held by exactly one queued message, worker or the loop, at most 64 exist, and each is answered at most once |
| Inbound.CancellationIsExact | crates/synara-acp/src/rpc.rs:401-414 | a protocol cancellation cancels exactly the token of the named unanswered request; numbers and strings never name the same one |
| Inbound.EveryRunIsOrdered | crates/synara-acp/src/backend.rs:784-795 | notifications are applied once each and in wire order, and a passed barrier has seen all that came before its response |
| Inbound.ReplayPrecedesResponse | crates/synara-acp/src/rpc.rs:268-277 | a notification that precedes a response on the wire has been applied once the barrier issued for that response has passed |
| Inbound.AppliedInWireOrder | crates/synara-acp/src/backend.rs:788-795 | while the loop runs, what has been applied is a prefix of the notifications on the wire |
| InboundLaws.WorkersAreLimited | crates/synara-acp/src/backend.rs:770-808 | in every run at most 32 callbacks are at work |
| InboundLaws.ARequestIsTakenOn | crates/synara-acp/src/backend.rs:796-808 | a request whose turn it is gets a worker while fewer than 32 are at work, and is rejected otherwise |
| InboundLaws.RejectedOnlyInACrowd | crates/synara-acp/src/backend.rs:796-800 | in every run a request being rejected was next when 32 callbacks were at work |
| InboundLaws.FailureIff | crates/synara-acp/src/rpc.rs:415-437 | in every run the incoming half has failed the connection exactly when a message could not be dispatched (64 unanswered requests, an identifier in use, 256 queued messages), an update could not be applied, a callback crashed, or it failed elsewhere |
| InboundLaws.NobodyStopsAlone | crates/synara-acp/src/backend.rs:773-812 | reader and loop stop only in a failed connection, and an ended loop leaves no callback at work |
| InboundLaws.AMessageIsDispatched | crates/synara-acp/src/rpc.rs:395-445 | a message that can be dispatched goes to the end of the queue, a request under a new token of its identifier |
| InboundLaws.AReplyAnswers | crates/synara-acp/src/backend.rs:796-808 | while the connection lives the reply of a worker, or of the loop that rejects, is the one answer to its request and frees the identifier |
| InboundLaws.BarriersPassOffTheQueue | crates/synara-acp/src/backend.rs:787 | in every run a barrier has passed exactly when the loop has taken it off the queue |
| InboundLaws.ABarrierPasses | crates/synara-acp/src/backend.rs:787 | a barrier passes as soon as it is first on the queue |
| InboundLaws.AnUpdateIsApplied | crates/synara-acp/src/backend.rs:788-795 | the loop applies the update in its hand and goes on |
| InboundLaws.AFailureEndsTheLoop | crates/synara-acp/src/backend.rs:776-812 | the loop of a failed connection ends and leaves no callback at work |
| InboundLaws.ReaderAndWorkersLeave | crates/synara-acp/src/rpc.rs:342-370 | the reader of a failed connection stops, and a callback that has answered makes room for another |
| Turns.EveryRunTurns | crates/synara-acp/src/session.rs:25-48 | in every run the two gates have one holder each, a prompt in its turn is in the current one, and every turn that is over has a cancelled token |
| TurnOrder.EveryRunIsOrdered | crates/synara-acp/src/session.rs:101-120 | in every run the session's queued frames are in turn order, only the holder of the cancellation gate has one in flight, and no cancellation is queued before its token was cancelled |
| TurnLaws.TurnsReachTheAgentInOrder | crates/synara-acp/src/session.rs:102-120 | among the frames that reach the agent turns never go back, and within a turn only cancellations follow its prompt |
| TurnLaws.TurnsAreQueuedInOrder | crates/synara-acp/src/session.rs:190-203 | a turn's prompt is queued at most once, before every cancellation of that turn, and those before any later turn's prompt |
| FairGates.MoveIsOrderly | crates/synara-acp/src/session.rs:26-30 | a lock that is handed to the longest waiter has one holder, nobody waits twice or while holding it, and a move concerns only the one who moves |
| FairGates.FirstComeFirstServed | crates/synara-acp/src/session.rs:26-30 | who leaves hands the lock to the longest waiter, and who comes waits behind everybody |
| TurnQueue.EveryRunIsInLine | crates/synara-acp/src/session.rs:26-30 | in every run exactly those who wait for the cancellation gate or have it are at it, each once, and a waiting cancel finds the turn it was called in, or the one that a prompt in the gate was then about to begin |
| TurnQueue.CancelStrikesTheTurnItWasCalledIn | crates/synara-acp/src/session.rs:190-196 | a cancellation strikes the turn that was current when it was called or, if a prompt just starting had the gate then, the turn that prompt began, however long it waited; never a later one |
| TurnLaws.GuardsActOnTheirOwnTurn | crates/synara-acp/src/session.rs:355-371 | while a prompt may still clear `active` or cancel the token, the current turn is its own and no other prompt is in a turn |
| TurnLaws.EndedTurnsAreDead | crates/synara-acp/src/session.rs:160-163 | however a turn ended, its token has been cancelled |
| TurnLaws.DeadTokenRefuses | crates/synara-acp/src/callbacks.rs:70-111 | once the captured token is dead the permission request never returns a choice, whatever the handler says and whatever turns begin |
| Consent.EveryRequestIsWhereItWent | crates/synara-acp/src/callbacks.rs:63-111 | in every run each permission request is where its own steps took it: its token is the current turn's if the session was active when it looked, and the session's otherwise |
| Consent.SelectedIff | crates/synara-acp/src/callbacks.rs:70-111 | in every run a request is answered with a choice exactly when it was asked, the choice had been offered, and it came back while the token of its own lookup was live |
| Consent.NoApprovalAfterItsTurn | crates/synara-acp/src/callbacks.rs:70-92 | a request looked up while a turn was active is never answered with a choice that comes back after that turn has ended |
| Consent.ApprovalsEndWithTheirTurn | crates/synara-acp/src/callbacks.rs:70-92 | however a turn ended, a request looked up in it that has no choice yet never gets one |
| Consent.IdleRequestsOutliveTurns | crates/synara-acp/src/scope.rs:94-105 | a request looked up while the session was idle is refused only for the handler, for its choice, or because the session has ended |
| TurnLaws.SelectedWhileLive | crates/synara-acp/src/callbacks.rs:88-102 | a choice that was returned had been offered, and the captured token was live when the handler returned it |
| TurnLaws.ClosedForGood | crates/synara-acp/src/session.rs:305-341 | after a close has marked the session closed no turn ever begins and no prompt is ever queued again |
| TurnFlow.APromptGoesOut | crates/synara-acp/src/session.rs:42-120 | a prompt of an idle session begins the next turn and asks the queue to carry that turn's prompt |
| TurnFlow.ARefusedPromptLeaves | crates/synara-acp/src/session.rs:31-39 | a prompt on a closed session or a stopped connection begins no turn and gives its gates back |
| TurnFlow.ACancelledPromptIsNotSent | crates/synara-acp/src/session.rs:101-120 | a prompt whose token is dead before its frame is handed over, or whose request is refused, sends nothing and goes to its end |
| TurnFlow.AWaitingPromptGoesOut | crates/synara-acp/src/session.rs:105-120 | a live prompt that has waited for the cancellation gate is sent once the gate is handed to it |
| TurnFlow.ASentPromptWaits | crates/synara-acp/src/session.rs:121-143 | a prompt waits for its answer exactly when its frame could be queued, and otherwise goes to its end |
| TurnFlow.AnAnsweredPromptEnds | crates/synara-acp/src/session.rs:121-163 | a prompt that is answered ends its turn, leaves the session idle and frees the prompt gate |
| TurnFlow.AnEndedPromptIsIdle | crates/synara-acp/src/session.rs:160-163 | the session is idle as soon as a prompt has cancelled its turn, and again when its guard goes |
| TurnFlow.AnAbandonedPromptFails | crates/synara-acp/src/session.rs:355-371 | a prompt whose caller goes away ends its turn, leaves the session idle and fails the connection |
| TurnFlow.AnUnusableAnswerFails | crates/synara-acp/src/session.rs:145-148 | a prompt whose answer cannot be used ends its turn, leaves the session idle and fails the connection |
| TurnFlow.ACancelGoesOut | crates/synara-acp/src/session.rs:190-203 | a cancellation of an active session cancels its turn and asks the queue to carry that turn's cancellation, under no lifetime |
| TurnFlow.AnIdleCancelDoesNothing | crates/synara-acp/src/session.rs:190-196 | a cancellation of an idle session changes nothing and frees its gate |
| TurnFlow.ACancelFreesItsGate | crates/synara-acp/src/session.rs:190-215 | a cancellation whose frame is queued or given up frees its gate |
| TurnFlow.ACloseGoesThrough | crates/synara-acp/src/session.rs:305-341 | a close that meets nobody marks the session closed, ends its lifetime and frees the prompt gate |
| TurnFlow.ARefusedCloseLeavesItOpen | crates/synara-acp/src/session.rs:317-328 | a close the agent refuses leaves the session open and frees the prompt gate |
| TurnFlow.AnImpatientCloseGivesUp | crates/synara-acp/src/session.rs:314-320 | a close waits for the prompt gate and gives up after its timeout, and nothing else changes |
| TurnFlow.AFailureEndsTheSession | crates/synara-acp/src/backend.rs:361-385 | when the connection has failed the session's turn, activity and lifetime end |
| SessionTurns.SessionState.BeginTurn | crates/synara-acp/src/session.rs:42-43 | the next turn is installed, live, and the session is active; nothing else changes |
| SessionTurns.SessionState.EndTurn | crates/synara-acp/src/session.rs:160-161 | the turn's token is cancelled and the session is idle; nothing else changes |
| SessionTurns.SessionState.DropGuard | crates/synara-acp/src/session.rs:359-371 | the guard clears `active` and, unless complete, cancels the current token, as the machine's steps do |
| SessionTurns.SessionState.Strike | crates/synara-acp/src/session.rs:190-196 | an idle session is left alone, an active one has exactly its current token cancelled, as the machine's steps do |
| SessionTurns.SessionState.Interaction | crates/synara-acp/src/scope.rs:94-105 | the captured token is the current turn's if the session is active and the session's own if it is not |
| SessionTurns.SessionState.Shut | crates/synara-acp/src/session.rs:334-335 | closing marks the session closed and ends its lifetime, as the machine's steps do |
| Connection.TerminalForGood | crates/synara-acp/src/backend.rs:142-165 | failed, exited and disconnected are absorbing as a set under every late completion, and disconnected is final |
| PhaseLaws.PhaseIff | crates/synara-acp/src/backend.rs:142-165 | in every run the phase is what the last event that marked it at all left, as that event says: logged out or refused means authentication required, initialized or authenticated means connected, and so on |
| PhaseLaws.NotConnectedUntilSignedIn | crates/synara-acp/src/backend.rs:660-735 | after a logout, a refused authentication or a challenge that asked for one, the connection is not connected until an initialization or an authentication completes |
| PhaseLaws.UpdateMakes | crates/synara-acp/src/backend.rs:515-600 | what one update makes of a live phase; a challenge met during authentication moves it exactly when it came from the authentication call |
| Connection.StoppedTransport | crates/synara-acp/src/backend.rs:143-157 | after the transport has stopped, only an update that was already past its look at the stop token may still write a live phase, once; without one the phase changes only to a terminal one |
| Connection.RevivedIff | crates/synara-acp/src/backend.rs:143-157 | from a stopped transport another live phase can be reached exactly when such an update is in its block, on a phase that is not terminal and that it changes |
| Connection.AStoppedTransportCanConnect | crates/synara-acp/src/backend.rs:143-157 | a concrete run in which a transport that failed and stopped becomes connected |
| Connection.SessionsAreDistinct | crates/synara-acp/src/backend.rs:181-197 | the sessions in the table number at most 64 and have distinct ids and distinct threads |
| Connection.EveryRunIsSound | crates/synara-acp/src/backend.rs:181-197 | in every run gate and lock have the holders the stages say, a setup past its check finds its id free, and a drained table is empty with nobody past the phase check |
| Connection.DrainedForGood | crates/synara-acp/src/backend.rs:736-747 | once a disconnect has drained the table no registration ever refills it |
| Connection.NobodyIsEvicted | crates/synara-acp/src/backend.rs:595-597 | a session leaves the table only in a disconnect's drain, by its own close, or by its own failed restore |
| Connection.HandedIsRegistered | crates/synara-acp/src/backend.rs:506-511 | a session handed to its caller and not yet removed by its close is in the table, unless a disconnect drained it |
| SetupFlow.ASetupGoesThrough | crates/synara-acp/src/backend.rs:402-512 | a creation or restore that meets nobody hands out a session that is in the table under the agreed id, and frees the setup gate |
| SetupFlow.AnUngrantedCreation | crates/synara-acp/src/backend.rs:455-477 | a creation that is not granted leaves the table alone and fails the transport unless the agent itself said no |
| SetupFlow.AnAbandonedSetupFails | crates/synara-acp/src/backend.rs:844-852 | a caller that goes away while the agent may be making or restoring its session fails the transport |
| SetupFlow.AnUngrantedRestore | crates/synara-acp/src/backend.rs:582-598 | a restore that does not come about takes its session out of the table again, and fails the transport unless the agent or the session said no |
| SetupFlow.AClosedSessionLeaves | crates/synara-acp/src/session.rs:334-341 | a session that is closed leaves the table, and only it |
| SetupFlow.ADisconnectGoesThrough | crates/synara-acp/src/backend.rs:736-747 | a disconnect that meets nobody leaves the connection disconnected, the transport failed and no session |
| SetupFlow.AFailureIsReported | crates/synara-acp/src/backend.rs:361-385 | the first failure reported marks a connection failed that is not disconnected |
| SetupTroubles.ATroubledSetupLeaves | crates/synara-acp/src/backend.rs:402-600 | a setup that meets an error gives back the gate and lock it held and leaves the table as it was; once the agent has been asked it leaves through its owner, which is disarmed exactly for a refusal of the agent or, in a restore, for any error but a timeout and a closed connection |
| SetupTroubles.AnUntroubledSetupGoesOn | crates/synara-acp/src/backend.rs:402-600 | a setup that meets no error waits for whoever has the lock it needs and otherwise goes on; its session enters the table after the last check |
| SetupTroubles.AnAbandonedSetupLeaves | crates/synara-acp/src/backend.rs:402-600 | a caller that goes away while it waits for the agent leaves the table as it is; a restore that was being taken out stays in |
| SetupTroubles.AnOwnerLeaves | crates/synara-acp/src/backend.rs:840-852 | the drop of a setup's owner fails the transport exactly when it is still armed |
| Leftovers.LeftBehindIff | crates/synara-acp/src/backend.rs:582-598 | while the transport lives, a setup that ended with an error has its session in the table exactly when it had been registered and its caller was lost while it was being undone |
| Leftovers.OwnerIsKept | crates/synara-acp/src/backend.rs:582-598 | a session that was registered leaves the table only by a drain, by its own close or by its own undoing |
| Leftovers.AbandonedRestoreKeepsItsSlot | crates/synara-acp/src/backend.rs:582-598 | a concrete run in which a refused restore, dropped during its clean-up, keeps its entry while the transport lives |
| ConnectionTable.LiveConnection.UpdateLive | crates/synara-acp/src/backend.rs:143-165 | writes exactly when the transport is not stopped and the phase is not terminal; the new phase is said update by update, and otherwise nothing changes |
| ConnectionTable.LiveConnection.EnsureConnected | crates/synara-acp/src/backend.rs:234-244 | succeeds exactly when connected and not stopped; otherwise the error is that of the phase, said phase by phase |
| ConnectionTable.LiveConnection.RegisterSession | crates/synara-acp/src/backend.rs:181-197 | a session is inserted exactly when the connection is connected, its id and thread are free and there is room; every refusal has its own error and changes nothing |
| ConnectionTable.LiveConnection.HasThread | crates/synara-acp/src/backend.rs:167-174 | finds out whether some session of the table belongs to the thread |
| ConnectionTable.LiveConnection.Fail | crates/synara-acp/src/backend.rs:361-385 | only the first failure of a connection that is not disconnected acts; it fails the connection and ends the turn and lifetime of every session |
| ConnectionTable.LiveConnection.Disconnect | crates/synara-acp/src/backend.rs:736-747 | leaves the connection disconnected and stopped, the table empty, and every session that was in it closed with turn and lifetime ended |
| Handover.BufferIsBounded | crates/synara-acp/src/backend.rs:345-355 | the early-update buffer never exceeds 64 entries or one mebibyte |
| Handover.HandoverInOrder | crates/synara-acp/src/backend.rs:478-512 | once a creation has released its session, it has shown its configuration, then each buffered update, then each later one, every update once and in wire order; at most one update is lost, between the two groups, and it followed the response; only after the session was closed or its lifetime ended are updates dropped |
| Handover.EveryRunAccounts | crates/synara-acp/src/backend.rs:334-360 | every update for the new session has had one outcome, being dropped for an ended session among them, or is still in the loop's hand or the channel, in wire order |
| Handover.EveryRunIsFenced | crates/synara-acp/src/backend.rs:478-480 | once the barrier of a creation has come back, whatever the loop has or will take followed the response on the wire |
| Handover.LostWasInHand | crates/synara-acp/src/backend.rs:339-354 | a lost update had been looked up in vain and not yet buffered when the early updates were taken |
| Handover.InHandAtTheTakeIsLost | crates/synara-acp/src/backend.rs:497-504 | an update in that position once the early updates have been taken gets no outcome but lost, or dropped if the session has ended meanwhile, in every continuation, and all the session shows comes from the other updates |
| Handover.AnUpdateCanBeLost | crates/synara-acp/src/backend.rs:334-360 | a concrete run in which an update that followed the response is lost although nothing fails |
| HandoverFlow.AnEarlyUpdateIsKept | crates/synara-acp/src/backend.rs:345-357 | an update that found no session while one is being created is kept at the end of the buffer if fewer than 64 are kept and it fits within a mebibyte, and otherwise breaks the loop off |
| HandoverFlow.AnUpdateIsShown | crates/synara-acp/src/backend.rs:334-344 | an update whose session is there and has its gate free is shown |
| HandoverFlow.AnEndedSessionShowsNothing | crates/synara-acp/src/backend.rs:334-344 | an update for a session that has ended meanwhile is dropped for that |
| HandoverFlow.ARefusedSetupAborts | crates/synara-acp/src/backend.rs:480-508 | a setup that may not go on, or whose session cannot show something, is given up |
| HandoverFlow.AnUpdateForNobody | crates/synara-acp/src/backend.rs:345-360 | with no creation going on an update without a session is dropped, and nothing else happens |
| HandoverFlow.AHeldGateIsWaitedFor | crates/synara-acp/src/backend.rs:339-344 | while the setup has the session's update gate the loop waits for it |
| HandoverFlow.TheNextItemIsTaken | crates/synara-acp/src/backend.rs:784-795 | an idle loop takes the next notice, or acknowledges the barrier |
| HandoverFlow.ASetupTakesWhatWasKept | crates/synara-acp/src/backend.rs:493-504 | once the barrier has come back the setup registers the session, shows its configuration and takes all that was kept |
| HandoverFlow.ACreationEnds | crates/synara-acp/src/backend.rs:497-512 | it shows what it took of its own, in order, releases the session, and ends with an empty buffer |
| HandoverFlow.AnAbortedCreationCleansUp | crates/synara-acp/src/backend.rs:763-768 | a creation that is given up stops counting and leaves an empty buffer |
| EarlyUpdates.EarlyBuffer.Notify | crates/synara-acp/src/backend.rs:345-359 | an update without an owner is appended while a session is being created, fewer than 64 are kept and it fits within a mebibyte; it is refused when not, and dropped without error when no session is being created |
| EarlyUpdates.EarlyBuffer.HandOver | crates/synara-acp/src/backend.rs:497-504 | the buffer is emptied and exactly the new session's updates are applied, in order |
| EarlyUpdates.EarlyBuffer.Open | crates/synara-acp/src/backend.rs:757-761 | a creation starts with an empty buffer and is counted |
| EarlyUpdates.EarlyBuffer.Close | crates/synara-acp/src/backend.rs:763-768 | the end of a creation uncounts it and empties the buffer |
| Terminals.TerminalsAreLimited | crates/synara-acp/src/callbacks.rs:259-286 | in every run there are at most 64 terminals and at most 16 of one session |
| TerminalFlow.RoomIsChecked | crates/synara-acp/src/callbacks.rs:259-269 | under the lock a creation starts its command exactly when there are fewer than 64 terminals and fewer than 16 of its session |
| TerminalFlow.TheEndIsLookedFor | crates/synara-acp/src/callbacks.rs:270-286 | the command's terminal enters the table exactly when neither the session nor the connection has ended when the creation looks |
| TerminalFlow.AnEndIsSeen | crates/synara-acp/src/callbacks.rs:270-277 | a creation that looks after its session or the connection has ended puts no terminal into the table |
| TerminalFlow.TheLockIsTaken | crates/synara-acp/src/callbacks.rs:258 | an approved creation waits for the table's lock and takes it when it is free |
| TerminalFlow.AnAbandonedCreationIsOver | crates/synara-acp/src/callbacks.rs:257-269 | a creation whose caller goes away before its command starts is over and frees the lock if it had it |
| TerminalFlow.AReleaseTakesOne | crates/synara-acp/src/callbacks.rs:340-346 | a release takes one terminal out and no other |
| Terminals.SweptAfterTheEnd | crates/synara-acp/src/backend.rs:595-596 | a session whose terminals are swept after its lifetime ended never has a terminal again |
| Terminals.SweptAfterTheStop | crates/synara-acp/src/backend.rs:741-748 | a connection swept after it stopped never has a terminal again |
| Terminals.EndedOnlyShrinks | crates/synara-acp/src/callbacks.rs:274-277 | once a session has ended and no creation holds the lock, its terminals only go away |
| Terminals.ClosingCanLeaveATerminal | crates/synara-acp/src/session.rs:329-335 | a concrete run in which a command approved before a close starts after its sweep and stays in the table |
| TerminalCloses.InTableIff | crates/synara-acp/src/callbacks.rs:259-286 | after a sweep a terminal of the session is in the table exactly when it was inserted since and has not been taken out again |
| TerminalCloses.CleanForGoodIff | crates/synara-acp/src/callbacks.rs:274-277 | once a session has ended it stays without terminals for good exactly when it has none and no creation of its own is past its last look at the token |
| TerminalCloses.CloseIsCleanIff | crates/synara-acp/src/session.rs:329-335 | a close leaves no terminal, now or later, exactly when each one inserted between its sweep and its end is taken out before its end and no creation is then past its last look |
| TerminalCloses.IdleCloseIsClean | crates/synara-acp/src/session.rs:329-335 | a close is clean if no command of the session is being started at its sweep and none is approved before its end |
| TerminalTable.Table.Stop | crates/synara-acp/src/callbacks.rs:347-358 | takes out exactly the terminals of the session, or all of them, and leaves the others |
| TerminalTable.TerminalText | crates/synara-acp/src/callbacks.rs:516-523 | returns the longest tail within the limit that does not cut a character, and says exactly when something is missing |
| Questions.EntriesAreOwned | crates/synara-acp/src/elicitation_registry.rs:24-54 | with request ids used once, entries number at most 64 and each carries the id, request and owner of a registration that is live or was accepted |
| Questions.EntryLastsIff | crates/synara-acp/src/elicitation_registry.rs:24-80 | with request ids used once, a registration has its entry from the moment it is made until the agent completes its id, it is dropped unaccepted, or somebody registers after its owner has ended; neither shorter nor longer |
| Questions.DropSparesOthers | crates/synara-acp/src/elicitation_registry.rs:71-78 | dropping an old registration never evicts another's entry, even under the same reused id |
| Questions.CancelledIff | crates/synara-acp/src/callbacks.rs:437-445 | a question is cancelled exactly by its own drop, by a completion of the id it is registered under at that moment, or by the end of its owner, whose child its token is; nothing that happens to a sibling cancels it |
| Questions.OwnersEndThemselves | crates/synara-acp/src/elicitation_registry.rs:1-61 | an owner's token is cancelled exactly when the owner was ended, whatever is dropped or completed below it |
| QuestionLaws.RegisteredIff | crates/synara-acp/src/elicitation_registry.rs:24-54 | in every run a registration is accepted exactly when its id is not taken, and fewer than 64 are, by questions whose owners have not been ended; those entries stay and all others leave |
| QuestionLaws.AcceptedIff | crates/synara-acp/src/elicitation_registry.rs:62-80 | a registration counts as accepted exactly when that was said before it was dropped |
| QuestionRegistry.Registry.Register | crates/synara-acp/src/elicitation_registry.rs:24-54 | entries whose owner, or a token above it, has ended leave first; then the entry is inserted exactly when its id is free and fewer than 64 remain |
| QuestionRegistry.Registry.Complete | crates/synara-acp/src/elicitation_registry.rs:55-61 | removes the entry under the id and cancels its question and what is below it; the owner above it and the tokens beside it stay as they were |
| QuestionRegistry.Registration.Drop | crates/synara-acp/src/elicitation_registry.rs:68-80 | cancels the question, not its parent, and removes only an unaccepted entry of the same request |
| BrowserSpec.Reachable | foundations/browser/lib.rs:131-309 | after every history of calls with any clock: at most 32 tabs and 128 consents, pending and granted ids disjoint and within the counter, and every stored prompt describes an open, loaded, uncrashed tab of the same generation, context and document |
| BrowserSpec.StoredFailsOnlyByExpiry | foundations/browser/lib.rs:295-309 | a stored prompt fails validation exactly when it has expired |
| BrowserHistory.ConsumeIffConsented | foundations/browser/lib.rs:254-268 | a use succeeds exactly when the history alone consents: one request for the same tab, task and action got this id, the first answer allowed it in time, the use is in time, and since the request nothing revoked it and nothing used it |
| BrowserHistory.OneShot | foundations/browser/lib.rs:254-268 | after a successful use of an id no use of it ever succeeds again |
| BrowserHistory.AskedOnce | foundations/browser/lib.rs:198-233 | later requests get larger ids, so an id answers one request only |
| BrowserHistory.PendingTrace | foundations/browser/lib.rs:198-233 | a pending prompt was asked for by a call of the history and has been neither revoked nor answered since |
| BrowserHistory.PendingKept | foundations/browser/lib.rs:285-293 | conversely a request neither revoked nor answered since is pending |
| BrowserHistory.GrantTrace | foundations/browser/lib.rs:237-252 | a stored grant was asked for, allowed in time, and neither revoked nor used since |
| BrowserHistory.GrantKept | foundations/browser/lib.rs:237-252 | conversely such a history has its grant stored |
| BrowserRights.HonouredByStep | foundations/browser/lib.rs:131-293 | each call changes which uses would succeed exactly so: closing, leaving or crashing a tab takes away the rights on it, revoking a task its rights, a use its own; an approval in time adds exactly what was asked for; nothing else adds or takes away any |
| BrowserRights.ResolveIffAsked | foundations/browser/lib.rs:237-252 | an answer succeeds exactly when the history has a request of this id that nothing revoked or answered since, and it is in time |
| BrowserTabs.TabsAreTold | foundations/browser/lib.rs:131-197 | after every history the open tabs are those it opened and did not close, each in the generation of its last successful start and showing what happened to it last |
| BrowserTabs.NavigationsDiffer | foundations/browser/lib.rs:158-173 | no two successful navigation starts of a history return the same id |
| BrowserTabs.CommitIff | foundations/browser/lib.rs:174-186 | a commit succeeds exactly when the last event on its tab among start, commit, crash and close is the successful start that returned this id; otherwise the error says whether the tab is open |
| BrowserTabs.BeginNavigationIff | foundations/browser/lib.rs:158-173 | a start succeeds exactly in an open tab, with the number of starts there, until the counter is exhausted |
| BrowserTabs.RequestIff | foundations/browser/lib.rs:198-236 | a request fails with the first objection the history gives, in the order of the source, and otherwise is about what the tab shows and expires after a minute |
| Browser.BrowserPolicy.OpenTab | foundations/browser/lib.rs:131-149 | the object holds what its calls leave; opens a fresh tab or refuses at 32 tabs or an exhausted counter, and the uses that would succeed stay the same |
| Browser.BrowserPolicy.CloseTab | foundations/browser/lib.rs:150-157 | the tab is gone with every prompt and grant of it; exactly the uses on other tabs that would have succeeded still would; an unknown tab is an error that changes nothing |
| Browser.BrowserPolicy.BeginNavigation | foundations/browser/lib.rs:158-173 | starts the next generation of an open tab and returns its number, without a document or a prompt; an unknown tab and an exhausted counter are errors; exactly the uses on other tabs survive |
| Browser.BrowserPolicy.CommitNavigation | foundations/browser/lib.rs:174-186 | succeeds exactly when the calls so far have started this navigation and nothing has happened to the tab since; then the tab gets its document, and no right comes or goes; a stale navigation or an unknown tab is an error that changes nothing |
| Browser.BrowserPolicy.Crash | foundations/browser/lib.rs:187-197 | the tab has no document, and exactly the uses on other tabs survive |
| Browser.BrowserPolicy.Request | foundations/browser/lib.rs:198-236 | fails with the first objection the calls so far give, among limit, tab, task, readiness and document; otherwise stores a prompt of the tab's document; grants nothing, and takes away no right that could still be used |
| Browser.BrowserPolicy.Resolve | foundations/browser/lib.rs:237-253 | uses the prompt up; succeeds exactly when the calls so far asked for this id, nothing revoked or answered it, and it is in time; then exactly the use that was asked for is added, if allowed |
| Browser.BrowserPolicy.Consume | foundations/browser/lib.rs:254-268 | succeeds exactly when the calls made so far consent to the use, and otherwise says whether the grant was unknown, expired or for another use; the id is worth nothing afterwards and every other right is untouched |
| Browser.BrowserPolicy.RevokeTask | foundations/browser/lib.rs:270-274 | no use by the revoked agent would succeed any more and none of its prompts is left; every other one may do exactly what it might before |
| Literals.TreeIsRead | scripts/parity/export_theme_catalog.py:64-93 | whatever is written as a legal tree is read back as its meaning and exactly its tokens are consumed |
| Literals.AcceptedIff | scripts/parity/export_theme_catalog.py:64-93 | a value is accepted exactly when the tokens are a legal tree with that meaning |
| Literals.AcceptedIsCatalog | scripts/parity/export_theme_catalog.py:65-78 | every accepted value is nested at most 12 deep and every accepted object has distinct keys |
| Literals.RoundTrip | scripts/parity/export_theme_catalog.py:64-93 | printing any catalog value, with or without trailing commas, and reading the tokens returns it and consumes exactly those tokens |
| LiteralErrors.BeginningsAreCutShort | scripts/parity/export_theme_catalog.py:55-93 | every proper beginning of an accepted value is rejected as cut short; any other answer on a beginning is final, whatever follows |
| CatalogParser.LiteralParser.Take | scripts/parity/export_theme_catalog.py:55-62 | returns the next token and advances, also past a wrong one; fails only at the end or on a mismatch |
| CatalogParser.LiteralParser.Read | scripts/parity/export_theme_catalog.py:64-93 | terminates on every token sequence with the value or the error of the grammar, the cursor right behind the value |
| CatalogParser.LiteralParser.ReadFields | scripts/parity/export_theme_catalog.py:69-88 | the loop over an object's members has the value, cursor and errors of the grammar |
| Activation.EveryRunIsSound | deploy/headless/manage.py:38-80 | however often processes die, every release is complete and matches its manifest's digests, and every link selects a release |
| Activation.EveryPrefixIsSound | deploy/headless/manage.py:38-80 | an empty prefix is in that condition, so every prefix is, whatever was ever done in it |
| Activation.LinksAreComplete | deploy/headless/manage.py:26-80 | at every moment each link that is set selects a complete release whose files have the digests its manifest states |
| Activation.ReleasesAreImmutable | deploy/headless/manage.py:63-74 | no release is ever altered or removed, and a link that is set stays set |
| Activation.InstallRuns | deploy/headless/manage.py:61-77 | at every moment of an installation, killed or not, the links are the old ones, both on the old release, or the new ones |
| Activation.InstallActivates | deploy/headless/manage.py:69-77 | a completed installation selects its own complete version and keeps the release selected before as the previous one |
| Activation.RollbackRuns | deploy/headless/manage.py:104-108 | at every moment of a rollback, killed or not, the links are the old ones, both on the previous release, or exchanged |
| Activation.RollbackSwaps | deploy/headless/manage.py:104-108 | a completed rollback exchanges the two links |
| Activation.TwoRollbacksRestore | deploy/headless/manage.py:104-108 | two completed rollbacks restore both links |
| Activation.RollbackUndoesInstall | deploy/headless/manage.py:69-108 | rolling back after a completed installation selects the release selected before it |
| Activation.TempsIff | deploy/headless/manage.py:26-35 | a temporary link is there exactly while its process is at work with it, or for good after a process was killed with it; no process is ever at work with a link left by another |
| Activation.LeftoverBlocks | deploy/headless/manage.py:26-35 | after a process was killed between making a temporary link and moving it, no installation or rollback by a process of the same number that has to set that link ever succeeds; the link and the leftover stay as they are |
| Repeats.CanCompleteIff | deploy/headless/manage.py:38-108 | with nobody at work, an operation has a run that completes it exactly when it is permitted: version and files as the manifest states with matching digests and the version not yet a release, or both links set; links absent or managed; and no temporary link of its number in the way of a link it has to set |
| Repeats.InterruptedIff | deploy/headless/manage.py:61-108 | a permitted operation that has ended, however it ended, can be completed again exactly when, for an installation, it had not got past the rename, and for a rollback, it was not killed while it had a temporary link |
| Repeats.NeverInstalledAgain | deploy/headless/manage.py:63-65 | a version that is a release is never installed again, whatever happens meanwhile, by whatever process and from whatever package |
| Repeats.ABeginningIsRefused | deploy/headless/manage.py:38-103 | a process begins exactly when its input is sane and, to install, version and file names are as they must be, or, to roll back, both links select releases; otherwise nothing changes |
| Repeats.AFileIsRefused | deploy/headless/manage.py:50-57 | a file that is not plain or has another digest than its manifest states ends an installation before it has touched anything |
| Repeats.StrandedForGood | deploy/headless/manage.py:66-108 | a release that neither link selects and nobody is about to select is never selected again |
| Repeats.AReleaseCanBeStranded | deploy/headless/manage.py:74-77 | a concrete run, killed after the rename or with a `point` that fails, after which no temporary link is left and the new version can neither be selected nor installed |
| Repeats.ANumberCanBeBlocked | deploy/headless/manage.py:26-35 | a concrete run, killed at its temporary link, after which no process of that number completes anything |
| ReleaseLinks.Prefix.Point | deploy/headless/manage.py:26-35 | the link is set exactly when both operations succeed and no temporary link is in the way, and no temporary link of the call remains |
| ReleaseLinks.Prefix.Rollback | deploy/headless/manage.py:104-108 | succeeds exactly when both links are set and can be replaced and then exchanges them; otherwise they are unchanged or both on the previous release |

## Left out

- JSON parsing and serialization: the parser is any partial function on a line including its delimiter; the serializer is any non-empty sequence of writes without a raw newline.
- The fairness of the byte semaphore: a producer takes its whole reservation in one step, so permits promised to a waiting producer count as available.
- Within one step of a `select!` the guards and the operation are looked at together; between steps anything may happen.
- Time: timeouts may fire at any point where the original waits under one; deadlines and durations are not modelled. The browser policy does have its clock, as an argument.
- Classes stand for the lock-protected blocks; the interleavings are machines on values. Aliasing of sessions and tokens between tasks is expressed by numbers, not by shared objects.
- `fork_session` registers and hands over as `new_session` does and has no machine of its own; its extra check that the new id differs from the source's is not modelled.
- Errors in the middle of applying one update: an update is applied as one unit, whatever number of events it gives.
- Questions.EntriesAreOwned: assumes that request ids are never used twice; they are random UUIDs in the original.
- Questions.EntryLastsIff: assumes the same of request ids.
- Questions.DropSparesOthers: assumes the same of request ids.
- The order in which calls wait for the prompt gate: any of them may get it next. The cancellation gate is first come, first served.
- A permission asked for while no turn is active captures the session's lifetime, as in the original, so it is bound to the session and not to a turn; `create_terminal` captures a token again after its approval and is bound by that second one.
- Process supervision, PTYs, the workspace sandbox, event sinks, tracing and the `wire` and `schema` modules: unseen or straightforward; their results are free choices of the machines.
- Form and URL validation of elicitations; only the registry of URL questions is modelled.
- `Origin::from_canonical_parts`: a validation of strings without state; origins are values.
- The tokenizer of the catalog parser: it works on the token list. How a quoted token reads is a parameter, numbers keep their digits and are ASCII, and the checks of `catalog_from_source` on the finished value are not modelled.
- Activation: power loss, directory permissions and concurrent processes that ignore the lock. Removing a staging directory is one step; a partly removed one is no different to any statement proved. Replacing and renaming are atomic.
