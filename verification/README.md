# An agent server and its test driver, verified

This project models a small ACP agent server (JSON-RPC 2.0 over a line stream) and the test driver
at the other end of its connection, and proves what they promise.

The server is concurrent: one reader, one goroutine per request, executors that call back to the
client, and shared maps under separate mutexes. It is modelled as a step system with one step per
critical section, channel operation, context check or write, over any number of connections,
handlers and client calls. An executor is any sequence of writer calls and tool uses; responses of
the client may be early, late, duplicate or unmatched; a tool may be given a context of its own, so
a call may be abandoned at any time. A run is a sequence of enabled steps (a step that is not
enabled would change nothing), and the theorems hold for all runs.

| files | content |
|---|---|
| `Text`, `Paths`, `Protocol` | trimming and sorting, lexical path cleaning, messages |
| `ClientRpc`, `ClientRpcProofs`, `ClientRpcTheorems` | requests to the client and their responses |
| `Tools`, `Cancels`, `Turn`, `TurnProofs`, `TurnFrames` | the tool bridge, the cancellation tables, one handler step by step |
| `System`, `SystemInv`, `SystemTables`, `SystemSessions`, `SystemResponses` | the whole server and its invariant |
| `SystemTheorems`, `SystemCancel`, `SystemTurns`, `ToolReplies`, `ActiveCancels`, `Capabilities` | what the server guarantees |
| `Continuations`, `CancelExact`, `Scenarios` | how runs can go on, when exactly a cancellation is sure, and runs from the start that show what can go wrong |
| `Unlocked` | the server without the Endpoint's lock |
| `Driver`, `Transcript`, `RoundTrip`, `Window` | the driver, and what it makes of a turn's lines |
| `Harness`, `HarnessInv`, `HarnessTheorems` | driver and server connected |
| `Locks`, `SessionFields` | the lock order, and a session's fields under its lock |
| `ServerObject`, `ServeObject`, `PromptObjects`, `PromptHandler`, `DriverObject` | the same code as objects and loops, proved against the functions the step systems use |

`dafny verify dfyconfig.toml` checks everything.

Choices that follow the code where one might expect otherwise: `earlyResponses` keeps late and
unmatched responses for ever; overlapping prompts overwrite and delete each other's cancel function;
the last cancel check looks at the flag only, not at the context, and any prompt or load of the
session takes or clears it; raw updates do not count as agent text; capabilities are read a second
time for the configuration update; `Do` leaves its pending entry behind when the driver's context
ends; `resolvePath` is not idempotent. Serve may wait for ever for a
call the client never answers, so everything about its end is stated for when it has returned.

## Model

| member | source | states |
|---|---|---|
| ClientRpcTheorems.CallsGetTheirOwnReply | server.go:195-259 | In every interleaving of any number of calls with early, late, duplicate and unmatched responses, a call that returns through its channel returns a response that did arrive, unaltered, whose key is that of the call’s own request, and no response answers two calls. |
| ClientRpcTheorems.EveryReplyInExactlyOnePlace | request_handlers.go:458-477 | For any number of calls, every response with a key is at all times in exactly one place: the reader’s hand, a channel, on its way into a channel, consumed by a call, in earlyResponses, or overwritten there. |
| ClientRpcTheorems.SendsNeverBlock | request_handlers.go:474-476 | For any number of calls, neither the reader’s send nor registerPendingResponse’s send can block, and no response channel gets two sends. |
| ClientRpcTheorems.PendingIsExactlyInFlight | server.go:200-222 | For any number of calls, each pendingResponses entry is a call under its own key that is registered and neither claimed nor unregistered, with an empty channel; pendingResponses shares no key with earlyResponses and is empty once all calls are over. Up to 2^64 calls, when ids are still distinct, every such call has its entry. |
| ClientRpcTheorems.WaitingCallMissesNothing | server.go:204-214 | Within 2^64 calls: once a response with a waiting call’s key has arrived and the reader is through with it, the call can receive; registering first or arriving first makes no difference. |
| ClientRpcTheorems.LateReplyIsNeverConsumed | request_handlers.go:469-471 | A response that comes after its call has ended stays in earlyResponses or is overwritten there; no later call ever consumes it, within 2^64 calls. |
| ClientRpcTheorems.OneCallMoreMisdelivers | server.go:195-198 | The bound is exact: there is a run in which a response arrives after the first call has ended, and which goes on until the call 2^64 after it, which has the same id, returns that response. |
| ClientRpcProofs.KeysCollideOnlyByWrapping | server.go:195-198 | Two calls have the same key if and only if their numbers agree modulo 2^64. |
| ClientRpcProofs.StepKeepsInvariant | server.go:200-222 | Every critical section, send, receive and write keeps the correlation invariant: for any number of calls keys, tables, channels, nothing forged and nothing missing; and up to 2^64 calls also that every call in flight is pending and no response is skipped. |
| SystemTheorems.ExactlyOneResponsePerRequest | server.go:153-192 | Whenever Serve has returned, after any input and interleaving, each connection’s output holds for each id exactly as many responses as the lines read from it demand: one per request and per wrong-version message with an id, one null per unparsable line, none for notifications and client responses. |
| SystemResponses.DispatchMeetsDemand | server.go:153-189 | What Serve’s dispatch does with a line (spawn, reject, correlate, cancel, skip) owes exactly the responses JSON-RPC 2.0 (sections 4.1 and 5) asks for. |
| SystemTheorems.LinesStayOnTheirConnection | connections/endpoint.go:26-34 | Over any sequence of connections through one Endpoint, every line a handler writes goes to the output of the connection its request was read from. |
| Unlocked.SecondServeIsHarmlessExactly | connections/endpoint.go:10-14 | Without the lock: after any run in which Serve was only called harmlessly, one more call of Serve keeps every handler’s line on its connection, in all that can follow, if and only if every earlier Serve has reached the end of its input and every request has its response. |
| Unlocked.LockKeepsLinesPlaced | connections/endpoint.go:26-34 | If Serve is only called when no Serve is running, as the lock enforces, every call of it is harmless in that sense and every line is on its connection. |
| Unlocked.TwoServesMixOutputs | server.go:145-146 | There is a run from the start in which Serve is called twice in a row and a response is written to the output of the wrong connection. |
| SystemTheorems.QuietWhenServeReturns | server.go:191-192 | Whenever Serve has returned, after any number of calls, activeCancels and pendingResponses are empty and every call is over. |
| SystemTheorems.ReaderNeverBlocks | request_handlers.go:474-476 | In every run of the whole server the reader that has claimed a channel can send to it at once. |
| ToolReplies.EveryResultHasItsOwnLine | server.go:241-258 | In every run of the whole server each completed tool use reports what a response line of the client says: a line that was read, with the id of that tool use’s own request, decoded as that tool’s result; and no line is behind two tool uses, even when ids wrap around. |
| Continuations.EveryRequestCanBeAnswered | request_handlers.go:14-31 | No request is ever stuck: from every reachable state there is a way to its response without anything from the client, by steps of its handler and its call. |
| SystemTheorems.ActiveCancelsAreLive | request_handlers.go:432-442 | Every activeCancels entry belongs to a prompt of that session between setActiveCancel and clearActiveCancel, even when prompts overlap and overwrite each other’s entries. |
| ActiveCancels.EntryIsItsOwnExactly | request_handlers.go:421-442 | The exact condition: between its setActiveCancel and its clearActiveCancel a prompt owns its session’s entry, and a session/cancel goes on to cancel its context, if and only if no other prompt of the session has passed setActiveCancel or clearActiveCancel since. |
| SystemTheorems.FlagsNeverExceedCancels | request_handlers.go:421-456 | Per session, prompts that consumed a flag plus the flag still up never exceed the cancellations received, for any overlap of prompts and loads. |
| SystemTheorems.CancelledIsBacked | request_handlers.go:245-325 | A prompt reports cancelled only after a session/cancel for its session or the cancellation of the context of its Serve. |
| SystemTheorems.StepKeepsInv | server.go:145-193 | The invariant of the whole server survives every step of the reader, of any handler, of any call and of the connection. |
| SystemCancel.CancelIsNotLost | request_handlers.go:245-325 | A session/cancel handled while a prompt of the session has a look at the flag ahead, including the window before setActiveCancel, makes the prompt’s response cancelled, unless another prompt takes the flag or a session/load clears it. |
| SystemCancel.CancelComesTooLate | request_handlers.go:323-329 | The other side of that boundary: after the last look the response is end_turn whatever is cancelled later. |
| CancelExact.CancelIsSureExactlyUnrivalled | request_handlers.go:245-325 | The exact condition. When a session/cancel is handled while a prompt that has not failed has a look at the flag ahead and no more prompts or loads of the session are read, the response is sure to be cancelled if and only if no other request of the session can still take or clear the flag. |
| CancelExact.SolePromptIsCancelled | request_handlers.go:421-456 | What a client can check: if all its other requests on the session are answered and it sends no more prompts or loads for the session before the response, a cancel handled before the last look is answered cancelled. |
| CancelExact.RivalSpoilsIt | request_handlers.go:450-456 | The converse: if another request of the session can still take or clear the flag, some continuation answers this prompt with end_turn. |
| Scenarios.SecondPromptTakesTheCancel | request_handlers.go:245-248 | A run from the start in which a second prompt of the session takes the flag: the first prompt, cancelled right after its lookup, is answered end_turn. |
| Scenarios.LoadClearsTheCancel | request_handlers.go:148-154 | A run from the start in which a session/load clears the flag, with the same outcome. |
| SystemCancel.SilenceAfterCancellation | session_updates.go:116-210 | Once a prompt’s context has ended, whatever a sequential executor does, at most one more update goes out through its writer, and none unless a call had already passed its check. |
| SystemTurns.TurnGrammar | request_handlers.go:226-330 | For every executor, interleaving and way out, a request’s output is a legal turn: announcement, executor’s updates and bracketed tool uses, fallback chunk, session_info_update exactly for end_turn, response last; on end_turn the fallback chunk is there exactly if the reply is not blank and no AgentMessageChunk was accepted; cancelled exactly if a flag was consumed or the context found cancelled. |
| SystemTurns.NothingFollowsTheResponse | request_handlers.go:226-330 | In all that follows, an answered request writes nothing more and its answer stays. |
| SystemTurns.SnapshotIsAtomic | request_handlers.go:272-283 | Under concurrent session/load, everything a prompt uses of its session (executor’s cwd and MCP list, config_option_update, tool paths) comes from one single session/new or session/load, and the cwd is absolute. |
| SessionFields.SnapshotsAreNotTorn | request_handlers.go:146-150 | With the two fields of a session written by session/load and read by prompts one after the other, other goroutines going on in between, the session’s lock suffices: what a prompt has read is always the cwd and MCP list of one single binding. |
| SystemTurns.CommandsAreTheUsableTools | request_handlers.go:342-367 | available_commands_update lists, sorted, exactly the tools whose gate the same prompt’s invoker passes; every request sent was for a listed tool. |
| Capabilities.FlagsAgreeExactly | request_handlers.go:277-410 | In every run the commands come from the capabilities at the snapshot and the flags of config_option_update from the last initialize stored before the second reading; flags and commands agree if and only if these are the same, and always if no initialize is stored in between. |
| Capabilities.CapsAreTheLast | request_handlers.go:54-56 | After any run the server’s capabilities are those of the last initialize that was stored. |
| Scenarios.ConfigFlagsCanDisagree | request_handlers.go:378-410 | A run from the start after which the commands announced are those of no capability and the flags say all. |
| SystemTurns.RequestPathsAreCanonical | tool_invoker.go:365-374 | Every path in every fs/* request and every cwd in terminal/create ever written is absolute and free of empty, . and .. components. |
| Tools.OfferedIffGatePasses | tool_invoker.go:82-157 | For the same capabilities, invokeTool sends a request if and only if ToolInfos lists the tool and its required arguments are there. |
| Tools.GateSendsCanonicalPaths | tool_invoker.go:209-270 | Below an absolute session directory the gate only ever sends canonical absolute paths. |
| Paths.CleanMeaning | tool_invoker.go:371 | Cleaning an absolute path gives the canonical path of the directory reached by walking its components from the root. |
| Paths.CleanKeepsClean | tool_invoker.go:371 | A canonical absolute path is a fixed point of cleaning. |
| Paths.ResolvedPathIsCanonical | tool_invoker.go:365-374 | resolvePath of a path that is not blank, in an absolute directory, is canonical and names the directory reached from there. |
| Paths.ResolvingTwice | tool_invoker.go:365-374 | Resolving a resolved path again changes nothing if and only if the directory walked to from the working directory is the root or its last component does not end in a blank. |
| Paths.CanonicalPathsResolve | tool_invoker.go:365-374 | In any working directory a canonical absolute path resolves to itself if and only if it does not end in a blank. |
| Paths.ResolvingTwiceCanDiffer | tool_invoker.go:365-374 | It can end in one: /a /. resolves to a path with a trailing blank, which a second call trims. |
| Text.BlankMeansTrimmedEmpty | session_updates.go:117 | TrimSpace gives the empty string if and only if every character is a blank. |
| Text.SortStringsSorts | request_handlers.go:346-348 | The listing order is sorted and a permutation of the names. |
| Text.JoinBlank | request_handlers.go:479-493 | Joined prompt lines are blank only if there are none. |
| TurnProofs.PointsStep | request_handlers.go:245-329 | One handler step keeps what each program point promises about the announcement, the fallback chunk and cancellation. |
| TurnProofs.TraceStep | request_handlers.go:258-329 | One handler step keeps the lines written equal to the turn read off the handler’s point and history. |
| TurnFrames.AdvanceFrame | request_handlers.go:415-456 | What one handler step may change of sessions, flags and cancel functions, and that it emits at most one line, a response exactly when answering. |
| Driver.LogIsNumbered | acptest/driver.go:425-428 | In every interleaving the k-th logged line has number k + 1. |
| Driver.RangeIsSlice | acptest/driver.go:628-640 | In such a log a range of numbers is a contiguous slice. |
| Driver.DeliveryNeverBlocks | acptest/driver.go:433-448 | readLoop’s send never blocks and each response channel gets at most one message. |
| Driver.DoReturnsItsWindow | acptest/driver.go:364-403 | A successful Do returns the slice of the log from its start mark to the first response with its own id, which ends the slice. |
| Driver.NoLineAnswersTwoCalls | acptest/driver.go:433-440 | No line answers two Do calls. |
| Transcript.UpdateReadsBack | acptest/driver.go:534-566 | parseTurn reads every update the server encodes back as what it means, and passes over the others. |
| Transcript.ActReadsBack | acptest/driver.go:534-566 | The lines of an accepted writer call or of a tool use, with its client request, contribute exactly that text or those two tool events. |
| RoundTrip.TurnParses | acptest/driver.go:519-571 | The lines of any answered prompt, for every executor and way out, parse to its stop reason, user text, agent texts with the fallback reply, and tool events, in order. |
| RoundTrip.CompletedTurnParses | acptest/driver.go:519-571 | A completed turn without raw updates and user chunks parses to the prompt’s own text, the agent’s texts or else the reply, and the tool events. |
| HarnessTheorems.DoReturnsOneCompleteTurn | acptest/driver.go:395-407 | Server and driver connected, in every interleaving: a successful Do returns the answer of the one handler that serves its request with its parameters, and its messages contain every line that handler ever writes. |
| HarnessTheorems.PromptRoundTrip | acptest/driver.go:342-352 | A Do that overlaps no other and ends with end_turn, for any executor without raw updates and user chunks, parses to exactly its own turn: extractPromptText of the prompt sent, the agent’s text, the tool events, nothing of other turns. |
| HarnessInv.LinksStep | acptest/driver.go:354-456 | Every step of either end keeps the links: the driver’s log is what the server wrote, each request becomes one handler with its parameters, and its lines come after its start mark. |
| Locks.ProgramsAreOrdered | request_handlers.go:184-197 | Any sequence of the code’s critical sections takes locks in increasing order: sessions, one session, capabilities; cancel, pending and writer locks with none of those held. |
| Locks.NoWaitCycle | request_handlers.go:272-278 | In no reachable state, with any number of goroutines and read-write locks that prefer writers, is there a cycle of waiting. |
| Locks.SomeoneCanAlwaysGoOn | request_handlers.go:415-419 | As long as a goroutine is not through with its sections, some goroutine can go on. |
| Locks.MutualExclusion | server.go:102-114 | A lock held exclusively is held by nobody else. |
| ServerObject.Server.RegisterPendingResponse | server.go:200-215 | Takes an early response into the fresh channel or records the channel: the new tables are those of the correlation model. |
| ServerObject.Server.HandleClientResponse | request_handlers.go:458-477 | Claims the waiting channel and fills it, or keeps the response as early; the send cannot block. |
| ServerObject.Server.CancelSession | request_handlers.go:421-430 | Raises the flag and cancels exactly the registered context, after the tables are updated. |
| ServerObject.Server.HandleNewSession | request_handlers.go:88-118 | Binds exactly the new session to the checked cwd and MCP list, lowers its flag, and answers; or answers the error and changes nothing. |
| ServerObject.Server.HandleLoadSession | request_handlers.go:120-155 | Rebinds the existing session object in place, lowers its flag, and answers; or answers the error and changes nothing. |
| ServeObject.ReadAll | server.go:153-189 | The scan loop, for any lines: the handlers started and the errors written are those of the lines’ classification, in order; each waiting call’s channel holds the first response with its key and the other responses are kept as early; each cancellation raises its flag and cancels the context registered for its session and no other. |
| ServerObject.ClaimedKeys | request_handlers.go:458-477 | After any series of responses a key is still pending exactly if none of them had it, and early exactly if it was before or more responses had it than a call was waiting for. |
| PromptObjects.ExtractText | request_handlers.go:479-493 | The loop computes the joined, trimmed, non-blank text blocks. |
| PromptObjects.McpNames | request_handlers.go:369-376 | The loop and sort give the sorted, trimmed, non-blank server names. |
| PromptObjects.CommandList | request_handlers.go:342-364 | The commands loop keeps every tool name. |
| PromptObjects.SessionInfo | session_updates.go:67-78 | session_info_update has a title and a time exactly if they are not blank. |
| PromptObjects.PromptUpdateWriter.UserMessageChunk | session_updates.go:116-125 | Blank text: nothing and no error; ended context: error and nothing written; otherwise the update; chunkEmitted untouched. |
| PromptObjects.PromptUpdateWriter.AgentMessageChunk | session_updates.go:127-139 | The same, and chunkEmitted is set exactly when the chunk is written. |
| PromptObjects.PromptUpdateWriter.CurrentMode | session_updates.go:168-177 | A blank mode is an error before the context is looked at. |
| PromptObjects.PromptUpdateWriter.Raw | session_updates.go:187-200 | Context first, then payload and kind; chunkEmitted untouched whatever the kind. |
| PromptObjects.PromptUpdateWriter.EmitSessionContextUpdates | request_handlers.go:332-413 | Whether the context ends before any one of the three checks, by a session/cancel or with the context of Serve, or not at all: exactly the updates whose checks come before that, in order, and the error if one is missing. |
| PromptObjects.ToolInvoker.CallClient | server.go:224-259 | While the call waits, responses are handled and other calls register and unregister, in any order: the call returns what came for it, or its context’s end, or its failed write; the request carries the number taken, at most one line is written, and the tables are those the correlation model gives. |
| PromptObjects.UndisturbedCall | server.go:224-259 | A call whose key no other call takes while it waits returns a response exactly if its request was written, its context does not end the wait and one came: the early response with its key, or else the first that comes, unaltered. |
| PromptObjects.OnlyWrappingDisturbs | server.go:195-222 | No other call takes its key unless at least 2^64 calls join while it waits. |
| PromptObjects.ToolInvoker.InvokeTool | tool_invoker.go:159-197 | tool_call, at most one client request, tool_call_update with the same id; whatever happens to the tables while it waits, the verdict is that of what the call got; a refused tool sends no request and leaves the tables alone. |
| PromptObjects.CallLeavesNothing | server.go:224-227 | Whether or not its request could be written, a call uses up its number and leaves no pending entry under its key. For every key that no other call takes in the meantime: a call that waits under it waits on exactly if nothing came for it, and of the responses with it exactly those nobody had a use for stay behind as early. |
| PromptHandler.StreamReply | request_handlers.go:292-301 | Whatever the executor does, the output grows by the lines of its acts, chunkEmitted is set exactly by its accepted agent chunks, and interruptions raise the flag and cancel the context. |
| PromptHandler.Conclude | request_handlers.go:312-329 | Fallback chunk, last look at the flag, which a session/cancel may still have raised after the fallback chunk, session_info_update: each exactly when the code’s conditions hold. |
| PromptHandler.HandlePrompt | request_handlers.go:226-330 | A refused prompt gets an error and changes nothing; otherwise its lines are one legal turn of the session as bound, and it is answered cancelled if and only if the flag was up, Serve’s context was cancelled, or a session/cancel came before the last look at the flag: during the announcement, while the executor ran, or after it. |
| DriverObject.MessagesInRange | acptest/driver.go:628-640 | The loop returns the entries numbered in the range, in order. |
| DriverObject.Parse | acptest/driver.go:519-571 | The loop of parseTurn computes the turn that the round trip is proved about. |
| DriverObject.RepliesInOrder | acptest/driver.go:477-496 | Replies queued for a method are given out in the order queued, and other methods’ queues are untouched. |
| DriverObject.TestDriver.BeginDo | acptest/driver.go:367-374 | The start mark is the number of lines logged, and the fresh channel is recorded under the request’s key unless the driver is closed. |
| DriverObject.TestDriver.ReadLine | acptest/driver.go:425-448 | Numbers and keeps the line, claims the request it answers and fills its channel. |
| DriverObject.TestDriver.ResolveClientReply | acptest/driver.go:477-496 | The handler’s reply wins; otherwise the head of the method’s queue is taken, or nothing. |

## Helpers

Members that carry one critical section or one definition over to the theorems above:

- `ServerObject.Server.NextRequestID` (server.go:195-198): the id is the decimal of a 64-bit counter that wraps around.
- `ServerObject.Server.UnregisterPendingResponse` (server.go:217-222): only the pending entry goes.
- `ServerObject.Server.ConsumeCancelFlag` (request_handlers.go:450-456): reports whether the flag was up and leaves it down.
- `ServerObject.Server.SetActiveCancel`, `ClearActiveCancel` (request_handlers.go:432-442), `HandleInitialize` (request_handlers.go:47-75): single assignments.
- `DriverObject.TestDriver.QueueClientReply` (acptest/driver.go:267-271): one reply more at the end of the method's queue.
- `PromptObjects.ToolInfos` (tool_invoker.go:82-157): the names of the tools offered, in order.
- `Transcript.RequestOfTool` (tool_invoker.go:11-30): the method of each tool's request is the tool's name with its first underscore as a slash.
- `Locks.WaitingHoldsNothing` (request_handlers.go:421-430): nobody waits for a channel, an executor or a cancel function with a lock held.

## Left out

- JSON encoding and decoding, line length limits, flushing and broken outputs: messages are records and a write appends one line; only the write of a client request can fail (`FailWrite`), and a request line of the driver whose write fails is not delivered.
- HTTP and WebSocket transports, logging, version strings, and the driver's formatting helpers.
- Times and titles of sessions and the contents of `session/list`: its checks and its single response are modelled, the listing is not; `session_info_update` is one line whose members are modelled in `PromptObjects.SessionInfo` only.
- Random session and tool call ids: a step's choice; a new session's id is assumed to be unused.
- Descriptions and parameter schemas of tools, `line`, `limit` and `args` of requests, error texts, and the `kind`, `rawInput` and `content` members of tool events: they are passed through and nothing depends on them.
- Numbers other than the string ids the server sends are keyed by their plain decimals, where the code's `%g` switches to exponents from 1e6 on; such keys never equal a registered one either way.
- Driver.DoReturnsItsWindow: the driver's integer ids are unbounded here; in the code they are exact below 2^53.
- Executors that use their writer or tools from several goroutines at once or after `StreamReply` has returned; timeouts other than as a step that may happen at any time.
- Fairness: that a request is answered in the end depends on the client and the executor, and the code does not promise it; `Continuations.EveryRequestCanBeAnswered` says that it always can be.
- CancelExact.CancelIsSureExactlyUnrivalled: prompts whose context had already ended before their executor started are not among those it is about; they never end with end_turn.
- Unlocked.SecondServeIsHarmlessExactly: all readers share one place for the response just read; where two readers are at work the claim is only that some run goes wrong, and that run needs no more than one such place.
- PromptHandler.HandlePrompt: interference comes from session/cancels of the session and from what happens to the tables while its tools wait; other prompts, loads and initializes in between are covered by the step system (`SystemTurns.TurnGrammar`, `SystemCancel`, `CancelExact`).
- PromptObjects.ToolInvoker.CallClient: what happens while it waits, whether its write fails and whether its context ends first are parameters; the lines that other goroutines write in the meantime are in the step system.
- Locks.NoWaitCycle: the Endpoint's lock, which Serve holds while it waits for input and for its handlers, and the driver's two locks, each taken alone, are not among the locks; a write that blocks because the client does not read keeps the writer lock.
- `Driver.Close` beyond the closed flag, `SetCurrentSession`, `initialize`'s and `authenticate`'s result contents.
