# A verified model of the MeshCall runtime

MeshCall is a streaming RPC runtime. This project models, in Dafny, the parts of it whose correctness is hard to see
from one function at a time, and proves what they promise together:

- **the per-call stream protocol** of the TypeScript runtime: a client half and a server half with credit windows,
  allowances, sequence numbers, half-closes and terminal frames, each behind a frame writer that sends control frames
  ahead of data, over two wires that may be cut at any point (`Protocol`, `Flow`, `Stream*`, `ClientStream`,
  `ServerSession`);
- **the frame writer** shared by all the calls of a connection (`Transport*`, `FrameWriter`), and **the connection**: its
  two writers and any number of calls, each of which is a run of the stream protocol (`Connection`, `ConnectionRuns`);
- **the schema compiler and validator** of the Go runtime (`Schema`, `SchemaBuilder`, `SchemaFaults`,
  `SchemaEnds`);
- **dependency injection** of the Go runtime: cycle detection and memoised resolution (`Dependency`, `DependencyScope`);
- **topics and resumable subscriptions** (`Topic`, `Subscription`) and **the Router's routing table** (`Router`), both
  from the deprecated sources;
- **service names**, as normalised by two runtimes (`ServiceName`).

`dafny verify dfyconfig.toml` checks everything.

## How it is built

What the runtime keeps in an object and changes in place is a `class` here: `CreditWindow`, `AsyncQueue`,
`FrameWriter`, `ServerStreamState`, `ServerCall`, `OrderedObject`, `SchemaBuilder`, `Validator`, `CycleSearch`,
`DepScope`, `Subscriber`, `Topic`, `MeshCallSubscription`, `Router`. Those of the protocol, the topic and the subscription
have a `View()` as a value, and each of their methods is proved to take exactly the step that a function on those values
describes. The theorems are about those functions, in every interleaving.

JavaScript runs one task at a time, so a step is the code between two awaits; a `Label` of `Stream` names one such
piece of code of the client, the server, a writer or the connection, and `Enabled` says when it can run. Timers, abort
signals, failing handlers and lost connections are steps that may happen at any time. `Stream.System` is one call;
`Connection.Connection` is any number of them over two shared writers, and `ConnectionRuns.CallIsRun` shows that what one
call sees of any run of a connection is a run of `Stream`. A wire is an ordered lossless sequence that may be cut: of what
is in flight, a prefix still arrives.

Three further readings of the protocol stand beside the fields of the two halves: `StreamPeer` judges every frame by what
was heard and granted before, against any peer at all; `StreamOutput` and `StreamCompletion` follow what the
applications asked for, up to the result; and `StreamCancel` follows a call that is given up.

The invariant is `StreamInvariant.Inv`. Its idea is that a half's view of its peer is a function of the data frames it
has received, which are the first ones of the peer's log, and that all the credit a receiver has ever allowed is the
credit its sender was ever granted plus what is on its way. `StreamSteps.StepInv` shows that every step keeps it.

What the proofs found in the code:

- `sendInput` looks at `closed` before it waits for its credit and not after (client.ts:1052-1054). A send that waits
  while the input is closed still goes out, after `stream.end`, and the server then fails the call with
  `protocol_error`. `SendIsSafeIffOpen` says exactly when letting a send go on is safe, `HastyCloseOccurs` gives the
  run, and the protocol theorems hold for all runs in which no send goes on after the close (`Clean`), which callers
  that await their sends before closing ensure (`PatientRun`).
- A second cancel for a call whose queued `call.open` was already withdrawn goes out alone (`SecondCancelGoesAlone`);
  `CancelsFollowOpens` says exactly when no cancel precedes its open. This concerns the writer's interface: client.ts
  never cancels a call twice, as `terminal` guards both places (client.ts:1212 and 1227), and for such callers no cancel
  precedes its open (`CallerRuleSuffices`).
- The first loop of `AsyncQueue.flush` never runs: values and waiting readers are never both there.
- A `Topic` without history lets a subscription that reconnects skip items (`GapFreeIffHistory`).
- A named slice, map or pointer that contains itself, such as `type L []L`, is valid Go on which `typeSchema` does not end
  (`SliceOfItself`); it ends exactly when every cycle of declarations passes through a named struct
  (`EndsIffNotCircular`).
- An `enum` tag on a pointer or a named struct has no effect: the validator never looks past `anyOf` or `$ref`
  (`EnumShadowed`, with an input in `EnumOnPointer`; `EnumAllows` says so in the meaning of types).

## Model

| member | source | states |
|---|---|---|
| Flow.CreditWindow.Acquire | meshcall-ts/src/flow.ts:14-25 | a call of acquire is served at once, put in line, or rejected, and earlier calls keep their outcome |
| Flow.CreditWindow.Grant | meshcall-ts/src/flow.ts:27-39 | credit that is not positive is refused; otherwise it goes to the callers in line in order of arrival, and the rest is kept |
| Flow.CreditWindow.Close | meshcall-ts/src/flow.ts:41-50 | every caller in line is rejected, and no credit is given out afterwards |
| Flow.AsyncQueue.Push | meshcall-ts/src/flow.ts:63-73 | a value goes to the first waiting reader or is buffered; after the end it is dropped |
| Flow.AsyncQueue.Next | meshcall-ts/src/flow.ts:93-107 | a read takes the oldest value; without one it sees the error of a failed queue, the end of a closed one, or waits |
| Flow.AsyncQueue.Close | meshcall-ts/src/flow.ts:75-81 | the queue ends once, and every waiting reader sees the end, not an error |
| Flow.AsyncQueue.Fail | meshcall-ts/src/flow.ts:83-91 | the queue fails, also after it was closed, and every waiting reader sees the error; buffered values stay readable |
| Flow.AsyncQueue.Flush | meshcall-ts/src/flow.ts:109-127 | every waiting reader is settled: with the error if the queue failed, with the end otherwise |
| Flow.WindowCountsCredit | meshcall-ts/src/flow.ts:5-51 | for every history: granted credit is what is left plus what was served, and the callers served are the first ones, as many as there was credit for |
| Flow.QueueIsFifo | meshcall-ts/src/flow.ts:53-128 | for every history: the k-th read takes the k-th value accepted before the close, and the queue is live, ended or failed as the calls made it |
| Flow.EndsBeforeFailure | meshcall-ts/src/flow.ts:75-107 | for every history: a read sees the end exactly if the queue was closed before it failed, and the read came before the failure and found no value left |
| FrameWriter.FrameWriter.Send | meshcall-ts/src/transport.ts:36-72 | a frame is refused, withdraws its call, or is accepted and queued, as one step of the writer machine; the invariant is kept |
| FrameWriter.FrameWriter.CancelQueuedCall | meshcall-ts/src/transport.ts:74-86 | a call's queue leaves the map and the order, its promises are rejected as withdrawn, and the result says whether its open was among them |
| FrameWriter.FrameWriter.Close | meshcall-ts/src/transport.ts:88-98 | everything waiting is rejected once, and nothing is queued any more |
| FrameWriter.FrameWriter.Next | meshcall-ts/src/transport.ts:100-110 | the oldest control frame, or the oldest frame of the next call, which goes to the end of the order if it has more |
| FrameWriter.FrameWriter.Drain | meshcall-ts/src/transport.ts:112-117 | one turn of the draining loop, up to its await |
| FrameWriter.FrameWriter.SocketWrote | meshcall-ts/src/transport.ts:117-132 | the rest of the turn: the frame's promise is resolved, or the writer is shut down |
| TransportOrder.StepInv | meshcall-ts/src/transport.ts:36-134 | every step keeps the invariant: the order is a duplicate-free list of exactly the calls with frames, and each accepted frame is in one place |
| TransportBookkeeping.CloseLocated | meshcall-ts/src/transport.ts:88-98 | after a close every accepted frame is settled and nothing more is sent |
| TransportOrder.SettledOnce | meshcall-ts/src/transport.ts:88-134 | in every run each frame's promise is settled at most once; once the writer is closed each is settled, and nothing more is sent |
| TransportSettlement.SettledForReason | meshcall-ts/src/transport.ts:74-134 | in every run a promise is settled, and settled so, exactly by the first step with that reason: the socket wrote the frame, its call was cancelled before that, or the writer was closed |
| TransportSettlement.SettlementsAreTrue | meshcall-ts/src/transport.ts:74-134 | in every run a frame whose promise was resolved was written to the socket, a withdrawn one never gets there, and any other means that the writer is closed |
| TransportOrder.WireKeepsOrder | meshcall-ts/src/transport.ts:36-72 | in every run, frames of one call reach the wire in the order of acceptance, except that a window may pass data; so nothing submitted before a cancel follows it |
| TransportCancel.CancelsFollowOpens | meshcall-ts/src/transport.ts:74-86 | no cancel precedes, or goes without, its open in a run if and only if each cancel was submitted while its open was queued or on the wire |
| TransportCancel.SecondCancelGoesAlone | meshcall-ts/src/transport.ts:42-44 | a cancel after the one that withdrew the open goes out although the peer never saw the call |
| TransportCancel.CallerRuleSuffices | meshcall-ts/src/client.ts:1211-1239 | callers that cancel a call at most once, and after its open was accepted, keep every cancel behind its open in every run |
| TransportFairness.ServedInTurn | meshcall-ts/src/transport.ts:100-110 | a call at position p is served within the next p + 1 data frames; until then only calls ahead of it are served, none twice |
| TransportLane.WriterIsLane | meshcall-ts/src/transport.ts:36-134 | seen from one call, every step of the shared writer is a submission, a transmission of the call's next frame, or nothing |
| Connection.StepFits | meshcall-ts/src/client.ts:789-898 | whatever happens on a connection, each of its calls takes one step of the stream protocol, or none |
| Connection.StepGood | meshcall-ts/src/transport.ts:36-134 | every step of a connection keeps both writers working, with nothing under way for a call that was not begun |
| ConnectionRuns.CallIsRun | meshcall-ts/src/transport.ts:36-134 | what a call sees of any run of a connection, with its two writers shared by all calls, is a run of the stream protocol from its start |
| ConnectionRuns.EveryCallIsSound | meshcall-ts/src/client.ts:1138-1198 | in every run of a connection, no call finds fault with its peer, its credit is conserved, and its consumer has the first items its handler sent, all of them on completion |
| ClientStream.ServerStreamState.Opened | meshcall-ts/src/client.ts:556-566 | after the open is written: allow and grant the first sixteen items |
| ClientStream.ServerStreamState.SendInput | meshcall-ts/src/client.ts:1049-1053 | a send on an open input takes its place in line for credit |
| ClientStream.ServerStreamState.ContinueInput | meshcall-ts/src/client.ts:1054-1063 | after its wait a send claims the next sequence number, unless the call is over; a frame over the limit aborts the call |
| ClientStream.ServerStreamState.CloseInput | meshcall-ts/src/client.ts:1066-1072 | the input is closed once, with a `stream.end`; for a call without an input nothing changes |
| ClientStream.ServerStreamState.ReceiveWindow | meshcall-ts/src/client.ts:1037-1047 | credit for the input is granted; a window for anything else, or not positive, fails the call |
| ClientStream.ServerStreamState.Next | meshcall-ts/src/client.ts:1119-1120 | the consumer asks the queue for an item |
| ClientStream.ServerStreamState.Resume | meshcall-ts/src/client.ts:1121-1135 | after an item was handed out, one more is allowed and granted unless the stream ended |
| ClientStream.ServerStreamState.ReceiveItem | meshcall-ts/src/client.ts:1138-1168 | an item is queued only within the allowance and with the expected number; anything else fails the call |
| ClientStream.ServerStreamState.ReceiveEnd | meshcall-ts/src/client.ts:1170-1178 | the output ends once |
| ClientStream.ServerStreamState.ReceiveResult | meshcall-ts/src/client.ts:1180-1198 | the call completes, if its output had ended |
| ClientStream.ServerStreamState.Fail | meshcall-ts/src/client.ts:1200-1209 | the first failure ends the call and fails the consumer's queue |
| ClientStream.ServerStreamState.Cancel | meshcall-ts/src/client.ts:1211-1224 | giving up closes the queue and the credit and sends one cancel; a call that is over sends none |
| ClientStream.ServerStreamState.Abort | meshcall-ts/src/client.ts:1226-1239 | deadline, idle timeout or abort signal: the queue fails, the credit closes, and one cancel is sent; a call that is over sends none |
| ClientStream.ServerStreamState.Receive | meshcall-ts/src/client.ts:789-898 | the dispatch of a frame for an open stream |
| ServerSession.ServerCall.Start | meshcall-ts/src/server-session.ts:328-404 | a valid request starts the handler, granting the first input items; an invalid one is answered at once |
| ServerSession.ServerCall.ReceiveWindow | meshcall-ts/src/server-session.ts:271-276 | credit for the output is granted; a window for anything else fails the call |
| ServerSession.ServerCall.ReceiveItem | meshcall-ts/src/server-session.ts:278-288 | an item is queued only within the allowance and with the expected number |
| ServerSession.ServerCall.ReceiveEnd | meshcall-ts/src/server-session.ts:290-297 | the input ends once |
| ServerSession.ServerCall.Handle | meshcall-ts/src/server-session.ts:60-120 | a frame for a known call is handled, an unexpected one fails the call, one for a removed call is dropped; a cancel ends a running call with an error, its credit closed and its input failed |
| ServerSession.ServerCall.Disconnect | meshcall-ts/src/server-session.ts:320-326 | a lost connection ends a running call without a frame |
| ServerSession.ServerCall.Cleanup | meshcall-ts/src/server-session.ts:469-479 | only the first ending of a call counts; credit and input end with it |
| ServerSession.ServerCall.Finish | meshcall-ts/src/server-session.ts:481-503 | the first terminal frame is handed to the writer, or marked for replacement when it is too large |
| ServerSession.ServerCall.Replace | meshcall-ts/src/server-session.ts:490-496 | a refused terminal frame is replaced by an error |
| ServerSession.ServerCall.ResumeInput | meshcall-ts/src/server-session.ts:455-467 | after an item was taken, one more is allowed and granted unless the input ended |
| ServerSession.ServerCall.Advance | meshcall-ts/src/server-session.ts:406-449 | the next output operation: validate and wait for credit, or close the output |
| ServerSession.ServerCall.ContinueOutput | meshcall-ts/src/server-session.ts:406-422 | after its wait an item goes out with the current number, unless the call is over |
| ServerSession.ServerCall.Written | meshcall-ts/src/server-session.ts:419-421 | the number grows once the frame is written |
| StreamSteps.StepInv | meshcall-ts/src/client.ts:1049-1253 | every step of client, server, writers and connection keeps the protocol's invariant, in any interleaving |
| StreamTheorems.NoProtocolFault | meshcall-ts/src/client.ts:1138-1198 | in every run neither end raises a credit, sequence or order error against the other |
| StreamTheorems.CreditIsConserved | meshcall-ts/src/server-session.ts:271-288 | at every point of every run and in both directions: the receiver's allowance is the sender's credit, plus items that took theirs, plus items and grants under way |
| StreamTheorems.BoundedBuffers | meshcall-ts/src/flow.ts:3 | allowance, buffered items and items not yet granted again are sixteen while a stream is open, and never more |
| StreamTheorems.OutputDelivered | meshcall-ts/src/server-session.ts:406-430 | what the consumer was handed only grows and is always the first items the handler sent; a completed call has delivered all of them |
| StreamTheorems.NormalEndHasEverything | meshcall-ts/src/client.ts:1119-1136 | a consumer that sees the normal end without having cancelled was handed every item the handler sent, and the call was answered with its result |
| StreamTheorems.InputDelivered | meshcall-ts/src/server-session.ts:455-467 | the same for the handler's input, for callers that close after their sends; a handler that sees the normal end has every item |
| StreamTheorems.PatientRun | meshcall-ts/src/client.ts:1066-1072 | callers that close their input only after their sends never let a send go on after the close |
| StreamTheorems.TrafficIsLog | meshcall-ts/src/transport.ts:100-122 | the data frames sent in a run are the first ones the server submitted, in order |
| StreamTheorems.AnsweredOnce | meshcall-ts/src/server-session.ts:481-503 | at most one terminal frame is sent, nothing follows it, none before the call is over, and one by the time the server forgets a call whose connection is up |
| StreamCancel.GivingUpIsTold | meshcall-ts/src/client.ts:1211-1239 | in every run, from the moment an open call is given up, exactly one cancel waits, travels or was taken while the connection is up; if the open was not sent yet there is none, and the server never hears of the call |
| StreamCancel.NobodyElseCancels | meshcall-ts/src/client.ts:1211-1239 | in every run in which the client does not give up, no cancel is under way or taken |
| StreamCancel.CancelEndsCall | meshcall-ts/src/server-session.ts:106-109 | in every run, a cancel that the server takes ends the call for good: credit closed, input failed, an error submitted, no item produced any more |
| StreamCancel.GivingUpStopsServer | meshcall-ts/src/client.ts:1211-1224 | every run in which an opened call was given up goes on, by deliveries to the server alone, to one in which the server's call is over |
| StreamCancel.ConsumerSees | meshcall-ts/src/client.ts:1180-1239 | once a call is over its consumer's queue has ended, if it completed or was cancelled by the consumer, and failed otherwise, and stays so |
| StreamPeer.ClientJudges | meshcall-ts/src/client.ts:1037-1209 | against any peer, an open client raises a protocol error exactly when a frame breaks the rules of a stream, given the frames heard and the credit granted before; a frame that keeps them has its effect and no other |
| StreamPeer.ClientIsSafe | meshcall-ts/src/client.ts:1138-1168 | against any peer, no more than sixteen items are held, and what is handed out is the items heard, in order |
| StreamPeer.ServerJudges | meshcall-ts/src/server-session.ts:60-120 | the same for the server; a frame for a call that it does not serve is dropped, unless it opens it, and an open is served, answered at once or rejected |
| StreamPeer.ServerIsSafe | meshcall-ts/src/server-session.ts:278-288 | against any peer, no more than sixteen items are held, and the handler is handed the items heard, in order |
| StreamOutput.RequestsInOrder | meshcall-ts/src/server-session.ts:406-449 | in every run requests are taken up in the order in which they were made and none is lost; the items submitted are the first of the valid ones taken up before the end, and all of them once the call completed |
| StreamOutput.RequestTakenUp | meshcall-ts/src/server-session.ts:406-449 | an invalid item ends the call, but for a duplex handler only its send; a valid one waits for credit; the end is submitted |
| StreamOutput.ItemGoesOut | meshcall-ts/src/server-session.ts:406-422 | an item goes out with the next number, and one over the size limit ends the call with an error |
| StreamOutput.ResultGoesOut | meshcall-ts/src/server-session.ts:481-503 | a handler that is through has its result sent, or an error in place of a result over the size limit |
| StreamOutput.HandlerReturns | meshcall-ts/src/server-session.ts:328-345 | a handler returns once, and a call without output can then finish |
| StreamOutput.LossEndsBoth | meshcall-ts/src/server-session.ts:320-326 | a lost connection lets both halves end, without a frame, with the consumer's queue and the handler's input failed |
| StreamProgress.AnswerNotPutOff | meshcall-ts/src/server-session.ts:481-503 | once a call is over, no step at all adds to the work left before its answer is out, and replacing the frame or transmitting reduces it |
| StreamProgress.AnswerComes | meshcall-ts/src/server-session.ts:481-503 | while the connection is up, every run in which the call is over goes on, by these two steps alone, to one in which exactly one terminal frame was sent, after everything else |
| StreamCompletion.CallCompletes | meshcall-ts/src/server-session.ts:328-449 | every run in which the handler is through, no item waits for credit and both halves are open goes on, by writing, finishing and delivering alone, to one in which the client has the result and every item |
| StreamProgress.BlockedOutputIsFull | meshcall-ts/src/client.ts:1119-1136 | a handler blocked on credit with nothing under way faces a client that holds exactly sixteen items |
| StreamProgress.BlockedInputIsFull | meshcall-ts/src/server-session.ts:455-467 | the same for a client's send and the handler |
| StreamProgress.OutputUnblocks | meshcall-ts/src/flow.ts:14-39 | from every such state of an open call, deliveries and reads alone let a waiting handler go on |
| StreamProgress.InputUnblocks | meshcall-ts/src/flow.ts:14-39 | the same for a waiting send |
| StreamProgress.SendIsSafeIffOpen | meshcall-ts/src/client.ts:1049-1054 | letting a send go on can never lead to a protocol error if and only if the input is not closed |
| StreamProgress.HastyCloseOccurs | meshcall-ts/src/client.ts:1066-1072 | a run in which a send waits for credit while its input is closed |
| Schema.ShapeMeansType | meshcall-go/schema.go:99-232 | a value has no violation of a type's schema exactly when it is a value of the type, for recursive structs as well |
| Schema.EnumFirst | meshcall-go/schema.go:276-309 | an enumeration counts only where there is neither a reference nor a choice, and then before the type |
| Schema.EnumShadowed | meshcall-go/schema.go:206-212 | on a pointer or a named struct, an enum tag changes no violation |
| Schema.EnumOnPointer | meshcall-go/schema.go:276-296 | a pointer field with a list of values accepts a value that is not listed, a plain one does not |
| Schema.LookupProperties | meshcall-go/schema.go:198-225 | the property of a name is the schema of the last field of that name |
| Schema.RequiredListed | meshcall-go/schema.go:198-228 | a value has all required names exactly if it has a member for each field that is no pointer and may not be omitted |
| Schema.RequiredExactly | meshcall-go/schema.go:188-228 | a name is listed as required exactly if some field of that name is no pointer and may not be omitted |
| Schema.EnumOnScalars | meshcall-go/schema.go:295-307 | a list of values on a string, boolean or integer field admits exactly the values of that type whose text is listed |
| Schema.PrintedArray | meshcall-go/schema.go:298 | an array is compared with listed values as its elements between brackets, with spaces |
| Schema.PrintedObject | meshcall-go/schema.go:298 | an object is compared with listed values as its keys and values after `map` |
| SchemaBuilder.OrderedObject.Set | meshcall-go/schema.go:33-39 | a new key goes last, a known one keeps its place |
| SchemaBuilder.FreeName | meshcall-go/schema.go:140-143 | numbering a name ends, with the name itself or with the first number from 2 on that is free |
| SchemaBuilder.SchemaBuilder.TypeSchema | meshcall-go/schema.go:99-132 | the schema of the type under the names given, which only grow; it ends on recursive structs |
| SchemaBuilder.SchemaBuilder.Define | meshcall-go/schema.go:136-149 | a struct is named and compiled once; names stay unique and definitions right, also while it is pending |
| SchemaBuilder.SchemaBuilder.StructSchema | meshcall-go/schema.go:198-232 | the object schema of the fields |
| SchemaBuilder.SchemaOf | meshcall-go/schema.go:78-97 | different structs get different names, each its own or that with a number; every reference resolves to the schema of its struct, and the document accepts exactly the values of the type |
| SchemaBuilder.EmptyObjectAccepted | meshcall-go/schema.go:188-228 | the document of a struct accepts an object without members if and only if every field is a pointer or may be omitted |
| SchemaEnds.EndsIffNotCircular | meshcall-go/schema.go:99-149 | compiling a type ends if and only if no declaration it reaches contains itself without a named struct in between |
| SchemaEnds.SliceOfItself | meshcall-go/schema.go:119-123 | a named slice of itself, on which compiling never ends |
| SchemaBuilder.Validator.Check | meshcall-go/schema.go:276-372 | reports the violations that the specification lists, in order, and ends on every value |
| SchemaBuilder.Validate | meshcall-go/schema.go:246-266 | text that is not JSON has one violation; a value has those of the root schema |
| SchemaFaults.ViolationsAreFaults | meshcall-go/schema.go:269-372 | the validator reports a violation, with its code and the dotted path of its place, for each fault of the value and for nothing else, faults being defined place by place |
| Dependency.Register | meshcall-go/di.go:256-312 | registration fails exactly when the providers have a cycle; it reports a path that closes, or finishes in a topological order |
| Dependency.LastProviderCounts | meshcall-go/di.go:256-268 | of several providers for a type the last one is registered |
| Dependency.CycleSearch.Visit | meshcall-go/di.go:279-303 | a type is finished after all it depends on, or a path that comes back to itself is reported |
| Dependency.TopologicalIsAcyclic | meshcall-go/di.go:270-311 | a topological order of the registered types excludes cycles |
| DependencyScope.DepScope.Resolve | meshcall-go/di.go:365-431 | ends, gives the value or the very failure that evaluation without a cache gives, calls no provider before its dependencies nor again after it succeeded, and each with the values of its dependencies in order |
| DependencyScope.ValueMeans | meshcall-go/di.go:365-431 | the value of a type is what its header holds, or what its provider returns for the values of its dependencies, in their order |
| DependencyScope.FailureMeans | meshcall-go/di.go:365-431 | without a value the failure is that of the type itself or of the first dependency that fails, a missing header before all others |
| DependencyScope.DepScope.ResolveAll | meshcall-go/di.go:344-363 | a missing header stops it before any provider is called; otherwise it gives the values in order, or the failure of the first type that has one |
| DependencyScope.DepScope.Close | meshcall-go/di.go:337-342 | runs the cleanups it still holds in reverse and forgets them, so a second close runs none |
| DependencyScope.UseScope | meshcall-go/di.go:1033-1039 | a call's scope from begin to end: the values or the failure, each provider called at most once, after its dependencies and with their values, and every cleanup that a provider returned run in reverse |
| DependencyScope.CleanupsInReverse | meshcall-go/di.go:337-342 | each acquired cleanup runs once, a dependent's before those of what it depends on |
| DependencyScope.CalledOnce | meshcall-go/di.go:365-431 | one resolution of a new scope calls each provider at most once, also when it fails midway |
| Topic.Topic.Publish | _deprecated/meshcall-ts/topic.ts:91-108 | every subscriber gets the item or is cut off when it is too far behind; the history keeps the latest items |
| Topic.Topic.Subscribe | _deprecated/meshcall-ts/topic.ts:111-126 | a subscription begins with the kept items after the cursor, or is refused |
| Topic.Topic.Close | _deprecated/meshcall-ts/topic.ts:129-136 | every subscription ends |
| Topic.Subscriber.TryNext | _deprecated/meshcall-ts/topic.ts:39-52 | items come before the failure or the end |
| Topic.ReplaySkipsNothing | _deprecated/meshcall-ts/topic.ts:111-126 | with a history, a subscription is refused exactly when an item after the cursor is gone, and otherwise begins with every item after it |
| Topic.HistoryIsLatest | _deprecated/meshcall-ts/topic.ts:91-108 | the history is the latest items, as many as are to be kept, and what is gone is all before them |
| Subscription.MeshCallSubscription.Next | _deprecated/meshcall-ts/subscription.ts:41-84 | every stream it opens resumes after the last item handed out; only retryable interruptions are passed over, as many as the policy allows since the last item |
| Subscription.UnlimitedGoesOn | meshcall-ts/src/policy.ts:55-67 | without a maximum of attempts, no number of interruptions ends a subscription |
| Subscription.EndsAfterAttempts | meshcall-ts/src/policy.ts:55-67 | a policy of n attempts ends a subscription exactly at the first interruption after n in a row; every item starts the count again |
| Subscription.ReceivedWithoutGaps | _deprecated/meshcall-ts/subscription.ts:41-72 | over any run of disconnects and cut-offs, what is received is an unbroken part of what was published |
| Subscription.SlowIsCutOff | _deprecated/meshcall-ts/topic.ts:91-108 | in every run, publishing cuts a subscriber off exactly if it has as many unread items as its queue holds; it keeps those, and otherwise gets the new one as well |
| Subscription.GapFreeIffHistory | _deprecated/meshcall-ts/topic.ts:91-126 | no run has a gap if and only if the topic keeps a history or the policy allows no reconnect |
| Router.Router.AddInstance | _deprecated/python-router/router.py:186-226 | an instance joins all its pools or none; a duplicate or incompatible one changes nothing |
| Router.Router.OpenCall | _deprecated/python-router/router.py:267-290 | a new call is routed to the instance its policy chooses and counted there, or refused with the reason; a duplicate call id changes nothing |
| Router.Router.SelectInstance | _deprecated/python-router/router.py:308-342 | the instance each balance policy asks for, and the errors |
| Router.WhyRefused | _deprecated/python-router/router.py:308-342 | when each reason to refuse a call is given |
| Router.Router.FinishRoute | _deprecated/python-router/router.py:344-348 | only the route itself is taken out, not one that has replaced it |
| Router.Router.Drop | _deprecated/python-router/router.py:346-348 | the count of the route's instance goes down by exactly one, never clamped |
| Router.Router.RemoveClient | _deprecated/python-router/router.py:350-358 | a client's routes go, and the counts with them |
| Router.Router.RemoveInstance | _deprecated/python-router/router.py:370-387 | an instance leaves its pools and its routes go; another one under its id is left alone |
| Router.JoinedMeans | _deprecated/python-router/router.py:186-226 | joining adds the instance to its pools and changes nothing else; a new pool starts with fresh cursors |
| Router.LeftMeans | _deprecated/python-router/router.py:370-387 | leaving takes the instance out of its pools and changes nothing else; the last one takes the pool along |
| Router.BeforeMeans | _deprecated/python-router/router.py:332 | ids compare by the first character that differs, a prefix first |
| Router.RoundIsFair | _deprecated/python-router/router.py:326-330 | as many calls of a round-robin method as its service has instances go to pairwise different ones and to all of them, whatever happens to other methods and services in between |
| Router.FirstRounds | _deprecated/python-router/router.py:326-330 | the calls of a method not called before go to the instances in the order of their ids, round and round |
| ServiceName.NormalizeCounting | meshcall-go/service.go:127-163 | the Go loop computes the normal form |
| ServiceName.NormalizeLooking | meshcall-ts/src/contract.ts:590-626 | the TypeScript loop and its test afterwards compute the same, with the same errors |
| ServiceName.NormalizeReads | docs/protocol.md:109-118 | what a name is normalised to, or why it is refused, follows from reading its segments as names, one version group, names, and then the end or a segment that cannot be read |
| ServiceName.ReadingExists | docs/protocol.md:109-118 | every name has such a reading |
| ServiceName.NormalizeIdempotent | docs/protocol.md:109-118 | normalising again changes neither name nor version |
| ServiceName.NormalizedHasOneVersion | docs/protocol.md:109-118 | a normal form is names, one version group, which spells the version, and names, with at least one name |

## Left out

- Sockets, the WebSocket handshake, HTTP transports, frame encoding, processes, the command line: a wire is a sequence.
- Wall-clock time: deadlines, idle timeouts and pings are steps that may happen at any time.
- Payload validation, JSON text and Go reflection: whether a payload is valid or a frame too large is a parameter of the
  step; a type is a datatype with an environment of named structs, and a JSON number carries whether it is whole.
- Interceptors are taken to be absent: one could skip the handler or delay it past the end of the call.
- `call.open` refused by the client's own writer as too large, and metadata and trailers.
- The client's `pumpInput` bumps its counter after the await and `sendInput` before it; with one item at a time both
  number the items alike, and the model has the second. Unary and client-stream calls share the client half of `Stream`
  but have no class of their own.
- Fields that no step reads: timers, abort listeners, loggers, descriptions, defaults and titles of schemas.
- `fieldsOf`: parsing tags and flattening embedded structs. A field here is what it returns; duplicate names are kept.
- Names of slices, maps and pointers: `SchemaEnds` has them, and the compiler proved in `SchemaBuilder` gets types in which
  they are written out. The root loop of `schemaOf` over pointers is not part of `SchemaEnds`.
- `sortedKeys`: the members of a JSON object are listed in the order of their keys to begin with.
- Messages of violations and errors.
- `depScope.resolveMeta`: reading a header is a parameter, and so is what a provider returns.
- `dependencyRegistry` refusing a provider of a foreign type.
- What the deprecated Router sends outside its lock, its stop, and the hash of a sticky key, which is a parameter; a
  pool lists ids, which are unique among registered instances, where the original lists the instances.
- Publishing to a `Topic` in Python, and subscriptions over several instances.
- The second implementations of the stream protocol in Go, the path-set cycle check of the TypeScript runtime, backoff
  and retries, and the Router's own flow control: they would add no harder property.
- StreamProgress.SendIsSafeIffOpen: about open calls over a connection that is up; after the end of a call a send is refused.
- Subscription.MeshCallSubscription.Next: delays are counted, not timed, and a cancel while it waits is not modelled.
