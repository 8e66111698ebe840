# Request lifecycle, buffers, sink and logger of the luwes Envoy SDK

The project models the stateful parts of luwes, a Go SDK for Envoy dynamic
modules, and proves properties of them.

**Request lifecycle** (`WriterModel`, `Lifecycle*`, `Calls`, `HostLog`,
`DeadStream`, `Observers`, `Reachable`, `Deliveries`, `Settled`,
`ResolutionBudget`, `AsyncGuards`, `HandlerGuards`, `WakeUps`, `RequestEnd`,
`Bodyless`, `RequestMutations`, `Failures`, `Sahl`, `Scheduling`, `Pools`,
`WriterReuse`). One HTTP request passes through two
layers: the ABI handle, which keeps callout and stream callbacks and drops events
after stream completion, and the sahl filter with its Writer, which queues mutations
and flushes them. `Lifecycle` describes both as one state machine. Envoy is an
adversary that keeps only the callback order of `Orderly`; callout, stream and
scheduler events may carry any ID, repeat and come late. User code is an
arbitrary finite list of Writer calls, chosen anew for every handler,
continuation and goroutine. `Sahl` holds the same layers as classes whose
methods take exactly the steps of the state machine, and `Pools` runs any number
of requests over shared pools. `Passed` in the host log is the Continue returned
by the callback that ran the handler. `Released` is the Continue of a body or
trailers callback for a request that the host was holding: the headers callback
stopped it and nothing sent it on since (shared/api.go:12-16, 37-40, 57-60). A
resolution is a ContinueRequest, a SendLocalResponse, a `Passed` or a `Released`;
the first two are decisions. `Due` is the number of resolutions there are if
everything outstanding is delivered: those so far, the live operations, and one
if a body or trailers callback can still release the request.

`Calls` and `HostLog` read a run off its events alone, without the callbacks of
the state machine: which code runs and with which calls, what is then started,
pending and answered, and every effect the host sees. They do so for every
orderly run; the other theorems say what follows for the request.

**Buffers and the SSE scan** (`RingModel`, `Buffer`, `Sse`, `LlmProxy`). The ring
with its block copies and in-place rotation, the head/tail pair, the line
scanner over truncated data and the token counts read from it. Lines end at LF,
which is a part of the rule in section 9.2 of the WHATWG HTML standard.

**Record sink** (`Records`, `MemStore`, `Pagination`, `Sink`). The in-memory
store as a ring that answers like a list, cursor paging over a changing store,
the batching writer and the lossy fan-out.

**Request logger** (`HandOffModel`, `RequestLogger`, `Flags`). Records deposited
by filters, consumed by the access logger and cleaned up on destroy, and the
response-flag printer with its substring test.

**Shared data and decimals** (`SharedData`, `Decimal`). The sharded address table
behind `SetData`/`GetData`, and status-code printing and parsing with 64-bit
wrap-around.

Findings where the code does less or more than its comments say:

- Metrics queued before `Send` are never applied unless the filter has a response
  observer (sahl/writer.go:314-316), although sahl/README.md shows that order in
  its examples. `ExactEffects` states what is applied.
- With a response observer, stream completion applies again what the request
  phase already applied, and also applies metadata queued before `Send`
  (sahl/filter.go:316-318); `MetadataAppliedTwice`. `ObservedOnceIff`: every
  metadata write queued before `Send` and every metric takes effect once if and
  only if the request was never decided, or was answered, or had queued no
  metadata and no metric when it was decided. Header sets and the route-cache
  request are never applied at completion: the request carries them if and only
  if its decision comes after the calls that ask for them and is what sends it on
  (`RequestMutationsAre`, `HeadersOnceIff`, `HeaderLostOnDisconnect`).
- A filter that is not body-aware returns Continue for every body chunk
  (sahl/filter.go:185-186), and for trailers (shared/api.go:153-155), also while
  Go, HTTPCallout or HTTPStream is holding the request. The first such callback
  sends the request on without its mutations, and the later flush continues it a
  second time, which the comment at sahl/writer.go:282-283 calls corrupting.
  One callout and one body chunk are enough (`BodyThenCallout`), and a header
  queued beside the callout is set too late (`HeaderSetTooLate`). A run resolves
  its request at most once if and only if nothing released it before it was
  decided (`AtMostOneResolution`, `ReleasedIff`). A handler can rule that out,
  as long as nothing more is started, exactly by answering on the spot, leaving
  nothing in flight, or leaving one operation in flight only if the headers ended
  the request (`HandlerResolvedTwiceIff`).
- A body-aware filter ignores the end-of-stream flag of the request headers
  (sahl/filter.go:129, 145-147). If the headers end the request it waits for a
  body that does not come, and only its observer can still answer
  (`BodyAwareCanBeDecidedIff`, `BodylessWaits`).
- Trailers that end a body-aware request send it on although its handler has not
  run, and it never does (`TrailersSkipHandler`, `ReleasedIff`).
- A body-aware handler that answers still makes the body callback return
  Continue (sahl/filter.go:172-180); `BodyAwarePassesAfterAnswer`,
  `AnsweredAndPassed`.
- `HTTPCalloutE` does not look for a running stream and `Go` looks only for `Go`,
  against "mutually exclusive". Without any body, one callout whose continuation
  calls `Go` is already enough to continue a request twice (`CalloutThenGo`).
  `ResolvedTwiceIff` and `ResolvedTwiceByAnyCodeIff` say of every reachable state
  whether the request can still be resolved twice.
- An observer that sends resolves its request again exactly if the request was
  decided or released without an answer, no local reply was sent and `Go` was not
  called (`ObserverAnswersAgainIff`, `ResolvedAgainIffOverruled`).
- A callout or stream started with a nil continuation pauses the request, and
  neither the finished callout nor the reset stream resumes it
  (sahl/filter.go:226-228, 286-288); `NilContinuationIsLost`, `WakeUpResolves`,
  `CanBeDecidedIff`.
- A goroutine that outlives the destroy of its request keeps a pooled Writer, and
  its calls can land in another request; `GoroutineOutlives`, `CanCrossIff`,
  `DestroyReuseCall`.
- Two completed requests with one request ID share one pending record, the later
  one; `LogsOwnRecordIff`, `CollidingIDs`.
- The comments in sahl/callout.go:86-87 and sahl/stream.go:137 expect inline
  callbacks; the ABI layer registers a callback only after the host call returns
  (abi_impl/internal.go:1517-1524), so the model delivers none earlier.
- `Ring.Bytes` empties the ring if it had wrapped and leaves it alone otherwise
  (buffer/buffer.go:73-84).
- `statusStr(parseStatus(s))` gives s back exactly for digit strings without a
  leading zero whose value is below 2^63.

## Model

| member | source | states |
|---|---|---|
| Calls.CallsAreDue | sahl/filter.go:129-324 | in every orderly run, whatever code it carries, the calls made and continuations run are exactly those due: the handler's on headers or last body chunk, the observer's until a reply has reached the host, the goroutine's, and those of each delivery whose request is open, whose ID is registered and whose slot is set; these and the order of events determine the answer, the operations, what is pending and the stored local-reply details |
| HostLog.HostSees | sahl/writer.go:309-337 | in every orderly run, with any number of operations, the host's log is read off the events: immediate replies, deferred replies at every flush, mutations and the resumption at every other flush, the Continue of request callbacks, releases, and an observer's mutations at completion |
| LifecycleTheorems.AtMostOneResolution | sahl/writer.go:309-337 | over every run with at most one asynchronous operation whose observers overrule nothing, ContinueRequest and SendLocalResponse together happen at most once, and a filter that is not body-aware resolves at most once in all if and only if no body or trailers callback released its request before the decision |
| RequestEnd.ReleasedIff | sahl/filter.go:168-187 | in every orderly run a request was released if and only if a trailers callback, or a body callback of a filter that is not body-aware, came while the host was holding it; a released body-aware request's handler never ran |
| LifecycleTheorems.NoLostWakeUp | sahl/filter.go:129-166 | a paused, undecided, uncompleted request has exactly one outstanding callback, goroutine or scheduled flush; only an operation started with a nil continuation can leave it none |
| LifecycleTheorems.WakeUpResolves | sahl/filter.go:213-294 | delivering that one thing decides the request, whatever the continuation does, if and only if the callout or reset stream had a continuation or the event needs none; otherwise nothing is left to wait for |
| WakeUps.CanBeDecidedIff | sahl/filter.go:213-294 | a paused request can still be decided or sent on if and only if a goroutine, a scheduled flush, a stream or a callout with a continuation is outstanding, or more of the request is to come, or an observer's Send would still reach the host |
| WakeUps.LostStaysLost | sahl/filter.go:226-228 | with none of these the request stays unresolved, whatever arrives, and without an observer the host sees nothing more |
| Failures.NilContinuationIsLost | sahl/callout.go:88 | one callout with a nil continuation for a request without a body: its end leaves a paused request that waits for nothing, and that can still be decided if and only if there is an observer |
| LifecycleTheorems.GoReturnHandsOver | sahl/writer.go:214-231 | a returning goroutine turns its token into exactly one scheduled flush |
| LifecycleTheorems.ExactEffects | sahl/writer.go:309-337 | without an observer the host has seen, after the release if there was one, nothing, or exactly the calls' header sets, metadata, one route-cache clear, metrics and the resumption in that order, or only the reply of the first Send |
| LifecycleTheorems.ObservedEffects | sahl/writer.go:237-254 | with an observer, completion appends all metadata queued before Send and all metrics to the release and the effects of the decision |
| LifecycleTheorems.ObservedOnceIff | sahl/filter.go:307-318 | under an observer every metadata write queued before Send and every metric takes effect once if and only if the request was never decided, or was answered, or had queued no metadata and no metric when it was decided |
| Failures.MetadataAppliedTwice | sahl/writer.go:237-254 | one metadata write of a synchronous handler is applied at its return and again at completion |
| RequestMutations.RequestMutationsAre | sahl/writer.go:317-327 | with or without an observer the host sees the header sets queued when the request was decided, in order, and one route-cache clear if asked for by then, and none if it was answered or never decided; it sees them before it sends the request on if and only if no body or trailers callback had released it |
| RequestMutations.HeadersOnceIff | sahl/writer.go:151-171 | the host sees every header set queued before Send and the route-cache request exactly once before it sends the request on if and only if every call that asked for one was made before the decision and that decision is what sent the request on |
| RequestMutations.SeenInOrder | sahl/writer.go:317-327 | in every good run the host sees header sets, then metadata, then the route-cache clear, then metrics, before it sends the request on |
| Failures.HeaderLostOnDisconnect | sahl/filter.go:307-324 | a header queued beside a callout is never set if the client goes away first |
| Failures.HeaderSetTooLate | sahl/filter.go:185-186 | a header queued beside a callout, and a body: the host releases the request, then sets the header, then is told to continue |
| LifecycleTheorems.BodyAwarePassesAfterAnswer | sahl/filter.go:168-187 | a body-aware filter returns Continue once its handler has run, also after an answer |
| Failures.AnsweredAndPassed | sahl/filter.go:172-180 | a body-aware handler that answers: the host sees the reply and Continue |
| Bodyless.BodyAwareCanBeDecidedIff | sahl/filter.go:129-147 | a body-aware request is decided or can still be decided before completion if and only if neither its headers nor its trailers ended it, or it was decided, or its observer can answer |
| Bodyless.BodylessIsNeverDecided | sahl/filter.go:129-147 | an undecided body-aware request that has ended, with no observer that can answer, is never decided, in any orderly run |
| Bodyless.BodyAwareNeedsBody | sahl/filter.go:168-187 | without a body or trailers callback no undecided body-aware request is decided, unless its observer answers |
| Failures.BodylessWaits | sahl/filter.go:145-147 | such a run: headers only, and the request can be decided if and only if there is an observer |
| Failures.TrailersSkipHandler | shared/api.go:153-155 | headers, then trailers: the host sends the body-aware request on, and whatever arrives its handler does not run |
| LifecyclePreservation.StepKeeps | sahl/filter.go:129-318 | every orderly callback keeps the request invariant: queues mirror the calls, the log is exact, tokens are accounted for |
| LifecycleTheorems.RunKeeps | abi_impl/internal.go:2117-2366 | every state of every run satisfies that invariant |
| LifecycleInvariant.RunOpsKeeps | sahl/writer.go:109-183 | any list of Writer calls keeps queues, answer, log and token count consistent with the calls made |
| LifecycleInvariant.FlushDecides | sahl/writer.go:309-337 | a flush decides the request and leaves exactly the promised effects |
| LifecycleInvariant.SilentOp | sahl/writer.go:109-183 | no Writer call but an immediate Send reaches the host |
| LifecyclePreservation.CalloutDoneKeeps | sahl/filter.go:213-233 | a finished callout keeps the invariant, and decides the request if it has a continuation |
| LifecyclePreservation.StreamCompleteKeeps | sahl/filter.go:264-277 | a completed upstream stream keeps the invariant and decides the request, with or without an event function |
| LifecyclePreservation.StreamResetKeeps | sahl/filter.go:281-294 | a reset stream keeps the invariant, and decides the request if it has an event function |
| LifecyclePreservation.ScheduledKeeps | abi_impl/internal.go:2220-2230 | so does the scheduled flush of a goroutine |
| DeadStream.NothingTouchesDeadStream | abi_impl/internal.go:2202-2366 | after stream completion no continuation, event function or scheduled flush runs and the host sees nothing, for every handler and every late event |
| DeadStream.DisconnectCancels | sahl/filter.go:320-323 | once the stream is complete the context of a goroutine is cancelled |
| AsyncGuards.ResolvedTwiceIff | sahl/callout.go:78-99 | in every reachable state, whatever was started: delivering what is outstanding, body and trailers included, can resolve the request twice if and only if it already was, or it is neither complete nor answered on the spot and two or more resolutions are due |
| AsyncGuards.ResolvedTwiceByAnyCodeIff | sahl/writer.go:214-217 | the same for arbitrary continuations and observers, counting also the operations the guards still let running code start |
| HandlerGuards.HandlerResolvedTwiceIff | sahl/stream.go:126-148 | right after the handler that means: no answer on the spot, and two operations in flight, or one operation and a request that its headers did not end |
| HandlerGuards.CalloutThenGo | sahl/callout.go:78-99 | for a request without a body, one callout whose continuation calls Go resolves the request twice, in an orderly run |
| HandlerGuards.BodyThenCallout | sahl/filter.go:185-186 | one callout and one body chunk, the last or not, resolve the request twice |
| Reachable.RunReaches | sahl/writer.go:214-231 | in every orderly run of a filter that is not body-aware each kind of operation has at most one callback, goroutine or task outstanding, and an undecided and unreleased request has seen no resolution |
| Settled.AnswerIsFinal | sahl/writer.go:109-131 | in every orderly run an answer on the spot stays the last resolution, whatever was started |
| Deliveries.EverythingDelivered | sahl/writer.go:309-337 | releasing an open request first and then delivering everything outstanding resolves it exactly as often as is due |
| HandlerGuards.ObserverMayAnswerAgain | sahl/response.go:113 | one continued callout and an observer that sends: two resolutions with a single operation |
| Observers.ObserverAnswersAgainIff | sahl/writer.go:109-132 | a response callback resolves a request again if and only if its observer sends and the request is decided or released, unanswered, without local reply and without goroutine; body-aware or not |
| Observers.ResolvedAgainIffOverruled | sahl/response.go:113 | over every run whose observers start nothing, a request with at most one operation is resolved more than once if and only if some observer sent in such a state, or the request was released before it was decided |
| Observers.BodyAwareDecidesOnce | sahl/sahl.go:158-167 | a body-aware filter with any synchronous handler and observer calls ContinueRequest and SendLocalResponse together at most once |
| Sahl.Writer.SetRequestHeader | sahl/writer.go:151-155 | takes the state machine's step: queued unless answered |
| Sahl.Writer.SetResponseHeader | sahl/writer.go:138-142 | takes the state machine's step |
| Sahl.Writer.SetMetadata | sahl/writer.go:160-164 | takes the state machine's step |
| Sahl.Writer.ClearRouteCache | sahl/writer.go:169-171 | takes the state machine's step |
| Sahl.Writer.AddMetric | sahl/writer.go:175-183 | takes the state machine's step: counters and histograms are queued even after an answer |
| Sahl.Writer.SendBytes | sahl/writer.go:109-132 | answers at once, or leaves the reply to the flush in goroutine mode; later calls change nothing |
| Sahl.Writer.Go | sahl/writer.go:214-231 | refuses a second goroutine and nothing else |
| Sahl.Writer.GoReturn | sahl/writer.go:223-230 | schedules one flush and cancels the context |
| Sahl.Writer.HTTPCallout | sahl/callout.go:78-99 | guards, continuation slot (nil or not) and callback registration of a callout |
| Sahl.Writer.HTTPStream | sahl/stream.go:126-148 | guards, event-function slot (nil or not) and callback registration of a stream |
| Sahl.Writer.Run | sahl/sahl.go:57-60 | any list of calls amounts to the state machine's steps |
| Sahl.Writer.Flush | sahl/writer.go:309-337 | the loops over the queues have exactly the effects of the state machine's flush |
| Sahl.Writer.FlushResponseMutations | sahl/writer.go:237-254 | applies and empties the metadata and metric queues |
| Sahl.Writer.Reset | sahl/writer.go:76-96 | a reused Writer is indistinguishable from a new one |
| Sahl.SahlFilter.OnRequestHeaders | sahl/filter.go:129-166 | acquires scheduler and Writer, runs the handler, flushes only the synchronous unanswered case |
| Sahl.SahlFilter.OnRequestBody | sahl/filter.go:168-187 | runs a body-aware handler on the last chunk only; any other Continue releases a request that the host is holding |
| Sahl.SahlFilter.OnHttpCalloutDone | sahl/filter.go:213-233 | guards, continuation and flush of a finished callout |
| Sahl.SahlFilter.OnHttpStreamEvent | sahl/filter.go:236-260 | delivers upstream headers, data and trailers to the event function |
| Sahl.SahlFilter.OnHttpStreamComplete | sahl/filter.go:264-277 | last event, then flush |
| Sahl.SahlFilter.OnHttpStreamReset | sahl/filter.go:281-294 | last event, then flush unless answered |
| Sahl.SahlFilter.OnStreamComplete | sahl/filter.go:307-324 | marks the stream done, flushes an observer's mutations, cancels the goroutine |
| Sahl.SahlFilter.OnDestroy | sahl/filter.go:326-338 | returns the Writer and blanks the filter |
| Sahl.Handle.HttpCallout | abi_impl/internal.go:1494-1525 | registers the callback only when the host accepted |
| Sahl.Handle.StartHttpStream | abi_impl/internal.go:1529-1563 | registers the callback only when the host accepted |
| Sahl.Handle.Reset | abi_impl/internal.go:1718-1761 | the corruption panics fire exactly on a set plugin or scheduler; otherwise nothing of the earlier request remains |
| Sahl.Handle.OnRequestBodyCallback | abi_impl/internal.go:2134-2145 | takes the step of a body chunk, the host's reaction to Continue included |
| Sahl.Handle.OnRequestTrailersCallback | abi_impl/internal.go:2148-2158 | takes the step of the trailers: a held request is released |
| Sahl.Handle.OnScheduledCallback | abi_impl/internal.go:2220-2230 | drops late tasks, otherwise runs the flush of the Writer that scheduled it |
| Sahl.Handle.OnCalloutDoneCallback | abi_impl/internal.go:2233-2261 | removes the callback before invoking it, drops late ones |
| Sahl.Handle.OnStreamEventCallback | abi_impl/internal.go:2264-2329 | delivers to a registered callback, drops late ones; `CallsAreDue` says when the event function runs |
| Sahl.Handle.OnStreamCompleteCallback | abi_impl/internal.go:2332-2347 | removes the callback before invoking it, drops late ones |
| Sahl.Handle.OnStreamResetCallback | abi_impl/internal.go:2350-2366 | removes the callback before invoking it, drops late ones |
| Sahl.Handle.OnStreamDoneCallback | abi_impl/internal.go:2202-2217 | marks completion, then tells the filter |
| Sahl.Handle.Dispatch | abi_impl/internal.go:2117-2366 | every callback on real objects takes exactly the state machine's step |
| Pools.Module.FilterNew | abi_impl/internal.go:2078-2093 | whatever the pools hand out, no corruption panic is raised and the request starts in the initial state |
| Pools.Module.Deliver | abi_impl/internal.go:2117-2366 | a step of one request leaves every other live request unchanged |
| Pools.Module.FilterDestroy | abi_impl/internal.go:2096-2115 | whether or not the goroutine has returned, the objects go back to their pools and other requests are unchanged; a second destroy does nothing as long as the handle is not reused |
| Pools.PartsDisjoint | abi_impl/internal.go:673-698 | two live requests share no object |
| Pools.LiveRequestIsSafe | abi_impl/internal.go:2078-2366 | every live request among many keeps at most one decision, at most one resolution exactly if it was not released before it was decided, and its one wake-up |
| Pools.LiveRequestIsReadOff | abi_impl/internal.go:2117-2366 | what each live request's host has seen and which calls were made on its Writer is read off the callbacks it received |
| WriterReuse.CanCrossIff | sahl/filter.go:331-334 | in every run, even if every later destroy waits for its goroutine, a goroutine call can land in another request if and only if some goroutine was started, has not returned, and its request was destroyed |
| WriterReuse.GoroutineOutlives | sahl/filter.go:331-334 | a goroutine started and left behind by a destroy: its calls can cross |
| Pools.Module.StaleCall | sahl/writer.go:76-96 | on the real objects, a call on a Writer acts on the live request that holds it now, whoever makes it, and on no other |
| Pools.Module.DestroyReuseCall | sahl/filter.go:331-334 | a request is destroyed, another begins: if it is handed the same Writer, a call of the first one's goroutine becomes a call of the second |
| WriterReuse.WaitingKeepsApart | sahl/writer.go:214-231 | in every run whose destroys all wait no goroutine call lands in another request |
| Scheduling.Scheduler.Schedule | abi_impl/internal.go:496-506 | files the function under the next number, which is unused as long as the numbers have not wrapped at 64 bits |
| Scheduling.Scheduler.OnScheduled | abi_impl/internal.go:508-516 | hands out and forgets the function of a number, at most once |
| Scheduling.EachRunsAtMostOnce | abi_impl/internal.go:496-516 | in every interleaving each scheduled function runs at most once, even after the numbers wrap |
| Scheduling.CommittedFindsOwn | abi_impl/internal.go:496-516 | before wrapping, a committed number finds its own function exactly until it is first delivered |
| Scheduling.RunsWhatIsDelivered | abi_impl/internal.go:496-516 | before wrapping, the functions run are exactly those delivered after they were committed, each at its first delivery, in that order |
| SharedData.Manager.Record | abi_impl/internal.go:105-113 | the 32 shards behave like one map |
| SharedData.Manager.Search | abi_impl/internal.go:119-124 | finds what the one map holds |
| SharedData.Manager.Remove | abi_impl/internal.go:126-131 | removes from the one map |
| SharedData.DataHandle.SetData | abi_impl/internal.go:1124-1132 | the value can be read back at once through the metadata text |
| SharedData.DataHandle.GetData | abi_impl/internal.go:1103-1122 | follows the metadata text into the table |
| SharedData.DataHandle.ClearData | abi_impl/internal.go:1134-1138 | removes exactly the recorded addresses |
| SharedData.Streams.SetData | abi_impl/internal.go:1124-1132 | on the real handles of all streams, takes exactly the step of the table |
| SharedData.Streams.GetData | abi_impl/internal.go:1103-1122 | reads what the table says |
| SharedData.Streams.StreamComplete | abi_impl/internal.go:2210-2211 | takes exactly the step of the table |
| SharedData.GetsLastSet | abi_impl/internal.go:1103-1138 | GetData returns the last value set since the stream began or completed, whatever other requests do and even if released addresses are reused |
| SharedData.GetsExactlyLastSet | abi_impl/internal.go:2210-2211 | with addresses never reused, also nil for everything set before completion |
| SharedData.GetReadsTheHolder | abi_impl/internal.go:1103-1138 | in every run GetData returns exactly what the address last stored for the key holds by then: nothing once released, another request's value once reused |
| RingModel.RingHoldsLastBytes | buffer/buffer.go:46-97 | after any history of Write, WriteChunks, Bytes and Reset the ring holds the last min(size, k) of the k bytes since it was cleared, oldest first |
| RingModel.PutAllKeepsLast | buffer/buffer.go:46-56 | writing keeps the last size bytes |
| RingModel.ThreeReversalsRotate | buffer/buffer.go:77-79 | three reversals rotate |
| RingModel.EndsOfStream | buffer/buffer.go:135-152 | head and tail depend on the concatenated stream only, not on its chunking |
| RingModel.RebuildCovers | buffer/buffer.go:100-116 | a stream no longer than both capacities together is rebuilt from its ends |
| RingModel.EndsDetermineIff | buffer/buffer.go:100-116 | ends and length determine the stream if and only if it is no longer than that |
| Buffer.CopyInto | buffer/buffer.go:48 | block copy into an array |
| Buffer.ReverseRange | buffer/buffer.go:77-79 | reversal in place of a range |
| Buffer.Ring.Write | buffer/buffer.go:46-56 | terminates, and the wrapping block copies equal writing byte after byte |
| Buffer.Ring.WriteChunks | buffer/buffer.go:63-67 | equals writing the concatenation |
| Buffer.Ring.Bytes | buffer/buffer.go:73-84 | returns the contents; a wrapped ring is rotated in place and restarts empty |
| Buffer.Ring.Reset | buffer/buffer.go:86-89 | empties the ring |
| Buffer.Ring.Len | buffer/buffer.go:92-97 | counts the contents |
| Buffer.HeadTail.Write | buffer/buffer.go:135-141 | fills the head first and always writes the tail |
| Buffer.HeadTail.WriteChunks | buffer/buffer.go:148-152 | equals writing chunk after chunk |
| Buffer.HeadTail.Head | buffer/buffer.go:156-158 | the head bytes |
| Buffer.HeadTail.Tail | buffer/buffer.go:162-164 | the tail bytes, linearised |
| Buffer.HeadTail.Reset | buffer/buffer.go:168-171 | empties both ends |
| Sse.ScanLines | examples/llm-proxy/sse.go:93-102 | the loop feeds exactly the complete lines to the callback, in order |
| Sse.LinesAcrossCut | examples/llm-proxy/sse.go:93-102 | the lines of a cut stream: those before, the line the cut went through, and the tail's lines but its first |
| Sse.TruncationSafe | examples/llm-proxy/sse.go:93-102 | the head shows a prefix of the stream's lines, the tail without its first line a suffix |
| Sse.FirstLineIntactIff | examples/llm-proxy/sse.go:93-102 | the tail's first line is whole if and only if the cut fell on a line start or lost only CRs of an empty line |
| Sse.ExtractUsage | examples/llm-proxy/sse.go:18-91 | both scans as folds over the lines, for any JSON decoder; the counts are those the lines report |
| Sse.UsageIsReported | examples/llm-proxy/sse.go:24-91 | input: the first positive count of a message_start line of the head, or else the first nonzero prompt plus input tokens of a data line of the tail; output: the first nonzero completion plus output tokens, or message_delta count, of a data line of the tail |
| Sse.PrefixStableInput | examples/llm-proxy/sse.go:18-91 | an input count found in the head is that of the whole stream, whatever the tail and the decoder |
| Sse.TailOutputIff | examples/llm-proxy/sse.go:40-91 | wherever the stream was cut, the output counts of the complete scan and of the tail are each the first of two: that of the lines they do not share, continued to the next event line, and the shared one from there; they agree if and only if the former agree or one is absent and the other is the shared one |
| Sse.CleanCutOutputIff | examples/llm-proxy/sse.go:40-91 | after a cut whose first tail line reports no count and whose event name does not matter: if and only if the lost lines reported none or the same |
| Sse.OutputIsFinal | examples/llm-proxy/sse.go:60-88 | the first output count found is final, for any decoder |
| LlmProxy.Filter.OnResponseBody | examples/llm-proxy/llm_proxy.go:162-190 | at the end of the stream the input counter grows by the usage's input and the output counter by its output, each if defined, for the filter's cluster, in at most one call and never by zero; the usage is that of the first 8 KiB and last 64 KiB, whatever the chunking |
| LlmProxy.Filter.Create | examples/llm-proxy/llm_proxy.go:102-109 | a pooled filter starts with an empty ring |
| LlmProxy.ReportedInputIsTrue | examples/llm-proxy/llm_proxy.go:177-184 | an input count seen in the head is the complete response's |
| MemStore.MemStore.Insert | sahl/examples/request-ui/sink/sink.go:508-528 | records get consecutive IDs, and the time of insertion if they carry none, and the ring holds the last cap of them |
| MemStore.MemStore.Snapshot | sahl/examples/request-ui/sink/sink.go:530-540 | the backwards modular index stays in range and lists the records newest first |
| MemStore.MemStore.Query | sahl/examples/request-ui/sink/sink.go:530-574 | the result is the first limit of the stored records that match since, errorsOnly and search, in the order asked for: oldest or newest first |
| Records.AnswerSelects | sahl/examples/request-ui/sink/sink.go:543-573 | filtering, ordering and cutting a list with increasing IDs selects exactly those records |
| MemStore.Reverse | sahl/examples/request-ui/sink/sink.go:564-568 | the exchange loop reverses |
| MemStore.ConsecutiveIds | sahl/examples/request-ui/sink/sink.go:486-496 | stored IDs are consecutive and end at the last one given out |
| Records.FilterReversed | sahl/examples/request-ui/sink/sink.go:543-568 | filtering newest first and reversing equals filtering oldest first |
| Pagination.PagingIsExact | sahl/examples/request-ui/sink/sink.go:530-574 | while the store changes between pages, IDs received strictly increase, and a record every snapshot held was received exactly if the cursor passed it |
| Pagination.PagingAGrowingStore | sahl/examples/request-ui/sink/sink.go:508-574 | over one growing store of any capacity, inserts between pages included: every matching record still stored was received exactly if the cursor passed it, and all of them once a page comes back empty |
| Pagination.ReceivedIff | sahl/examples/request-ui/sink/sink.go:530-574 | for any matching record, still stored or gone: it was received if and only if some page moved the cursor past it from a snapshot that held it |
| Pagination.DeliveredFromGrowingStoreIff | sahl/examples/request-ui/sink/sink.go:508-574 | over one growing store: if and only if it had been given, and not cap more, when the cursor moved past it |
| Pagination.PagingTerminates | sahl/examples/request-ui/sink/sink.go:530-574 | on a store at rest seq - since + 1 pages reach the empty page |
| Pagination.PagingCollectsAll | sahl/examples/request-ui/sink/sink.go:530-574 | and the pages together are exactly the matching records |
| Sink.Sink.Send | sahl/examples/request-ui/sink/sink.go:138-143 | accepts or drops, and counts either way |
| Sink.Sink.WriterReceive | sahl/examples/request-ui/sink/sink.go:237-241 | keeps the batch below 100 and the order of accepted records; the hundredth stores exactly the batch |
| Sink.Sink.WriterTick | sahl/examples/request-ui/sink/sink.go:242-244 | stores exactly the batch |
| Sink.Sink.Flush | sahl/examples/request-ui/sink/sink.go:222-229 | stores the batch, whose records then wait to be broadcast; sent = dropped + stored + batch + channel stays true, in order |
| Sink.Sink.BroadcastNext | sahl/examples/request-ui/sink/sink.go:230-232 | broadcasts the next stored record to those subscribed by then; a subscriber gets it unless its channel is full |
| Sink.Sink.Subscribe | sahl/examples/request-ui/sink/sink.go:598-604 | a client may join between any two broadcasts of a batch |
| Sink.Sink.Receive | sahl/examples/request-ui/sink/sink.go:304-312 | it may take records at any time |
| Sink.Sink.Unsubscribe | sahl/examples/request-ui/sink/sink.go:606-610 | and leave |
| Sink.Broadcaster.Subscribe | sahl/examples/request-ui/sink/sink.go:598-604 | a new empty channel |
| Sink.Broadcaster.Unsubscribe | sahl/examples/request-ui/sink/sink.go:606-610 | ends the span of a subscription |
| Sink.Broadcaster.Send | sahl/examples/request-ui/sink/sink.go:612-621 | offers the record to every subscriber, losing it only for full channels |
| Sink.ReceivesSubsequence | sahl/examples/request-ui/sink/sink.go:612-621 | a subscriber gets a subsequence of what was broadcast while it was subscribed |
| Sink.ReceivesAllIff | sahl/examples/request-ui/sink/sink.go:612-621 | received, queued and lost records add up, and a subscriber gets everything broadcast in its span if and only if its channel was never full when offered a record |
| HandOffModel.EveryRun | examples/request-logger/request_logger.go:272-335 | pending keys belong to completed, undestroyed filters and every deposit is pending or emitted at most once |
| HandOffModel.NothingLeaks | examples/request-logger/request_logger.go:329-335 | once all filters are destroyed nothing is pending, even with colliding IDs |
| HandOffModel.EmittedAtMostOnce | examples/request-logger/accesslogger.go:64-68 | no deposit is emitted twice |
| HandOffModel.LogsOwnRecord | examples/request-logger/accesslogger.go:49-94 | with distinct IDs a log emits its own request's record, enriched, once, despite pool reuse |
| HandOffModel.StandingIsPending | examples/request-logger/request_logger.go:316-335 | in every orderly run, colliding IDs included, the entry under a key is the last deposit not yet logged or removed by a destroy with that ID, and its request is still there |
| HandOffModel.LogEmitsStanding | examples/request-logger/accesslogger.go:64-94 | a log emits that deposit, enriched, or nothing |
| HandOffModel.LogsOwnRecordIff | examples/request-logger/accesslogger.go:49-94 | logging a completed request emits its own data if and only if that deposit carries it |
| HandOffModel.LivesAreReadOff | examples/request-logger/request_logger.go:155-335 | in every orderly run the live filters, their last observed records and their completion are what the events say |
| HandOffModel.EnrichIsLine | examples/request-logger/accesslogger.go:71-91 | a log line field by field: sizes received and sent; duration, code, flags, details and failure where given and nonzero or non-empty; everything else from the deposit |
| HandOffModel.CollidingIDs | examples/request-logger/request_logger.go:316-325 | two requests with one ID: the log of that ID, for the first request too, emits the record of the second, enriched |
| RequestLogger.Factory.Create | examples/request-logger/request_logger.go:155-160 | takes the hand-off model's step on a pooled or new filter |
| RequestLogger.Factory.OnStreamComplete | examples/request-logger/request_logger.go:316-325 | deposits a copy of the record |
| RequestLogger.Factory.OnLog | examples/request-logger/accesslogger.go:49-94 | consumes the pending record and writes its line, with every field from where it belongs |
| RequestLogger.Factory.OnDestroy | examples/request-logger/request_logger.go:329-335 | removes what was not consumed and returns the filter |
| Flags.ResponseFlags | examples/request-logger/accesslogger.go:117-139 | both loops print the names of exactly the set bits |
| Flags.FlagsSpell | examples/request-logger/accesslogger.go:117-139 | split at its commas, the printed string is the names of exactly the set bits, in increasing order |
| Flags.UnnamedFlag | examples/request-logger/accesslogger.go:133-137 | a bit without a name is printed as its value in hexadecimal |
| Flags.ContainsErrorFlag | examples/request-logger/request_logger.go:367-374 | searches the six error flags |
| Flags.ErrorFlagIff | examples/request-logger/request_logger.go:367-374 | the substring test on printed flags holds if and only if bit 1, 2, 5, 6, 7 or 8 is set |
| Flags.FlagStringInjective | examples/request-logger/accesslogger.go:117-139 | no two masks print alike |
| Decimal.ParseStatus | sahl/response.go:138-148 | the wrapped value of the leading digits |
| Decimal.StatusStr | sahl/examples/request-ui/filter.go:216-226 | for a positive code digits without a leading zero that denote it, else nothing |
| Decimal.Itoa | examples/error-handling/error_handling.go:318-330 | for any uint32 digits without a leading zero that denote it, and 0 for zero |
| Decimal.FillBackwards | examples/error-handling/error_handling.go:322-329 | ten bytes suffice and the index never goes below zero |
| Decimal.ParsePrintIff | sahl/response.go:138-148 | printing what was parsed gives a string back if and only if it is all digits, has no leading zero and its value is below 2^63 |
| Decimal.PrintParse | examples/error-handling/error_handling.go:318-330 | every uint32 printed is parsed back |
| Decimal.NumeralUnique | sahl/examples/request-ui/filter.go:216-226 | a number has one numeral without leading zero |

## Left out

- Concurrent memory access: a goroutine's Writer calls are atomic steps between callbacks, not racing machine accesses.
- Panics: a "called twice" or "mutually exclusive" panic leaves the state unchanged and the run goes on, which covers handlers that recover.
- Body-aware handlers that start asynchronous work: body-aware handlers are synchronous in every theorem about runs.
- LifecycleTheorems.AtMostOneResolution: runs with several operations or with observers that start work or overrule a decision are covered by `ResolvedTwiceIff`, `ResolvedTwiceByAnyCodeIff`, `ResolvedAgainIffOverruled` and, for body-aware filters, `BodyAwareDecidesOnce` instead.
- Body and trailers callbacks of body-aware filters: shared/api.go:19-24 says that none comes after StopAllAndBuffer, while sahl/filter.go:145-147 and 168-187 rely on them; the model follows sahl. `BodyAwareNeedsBody` says what is left if none comes.
- A nil function passed to Go: the goroutine it starts crashes the process.
- Sahl.Writer.GoReturn: the flush that a goroutine schedules after its request was destroyed is not modelled; its scheduler belongs to a stream that is gone.
- Response trailers: they have no event.
- Sahl.SahlFilter.OnDestroy: returning the request object and clearing the response state are not modelled.
- Sahl.Handle.Reset: header and body wrappers, watermark callbacks and recorded shared data are not part of the handle here.
- Sahl.Handle.OnStreamDoneCallback: releasing the shared data is modelled in `SharedData.Streams.StreamComplete`, not on this class.
- RequestLogger.Factory.OnStreamComplete: span tags and metadata writes are not modelled.
- Sahl.Writer: the mutation queues, the answer and the asynchronous flags are three record-valued fields instead of one field each; string and byte payloads are opaque.
- Request and Header: the pooled request and its header cache are not part of this model.
- Response chunk contents (onResponseHeaders, onResponseBody, SetResponseBody): only the observer's Writer calls are modelled.
- HTTPStream.Send, SendTrailers and Reset: plain host calls.
- Buffer.Ring.constructor: capacity zero is excluded, since Write would not terminate on it.
- Buffer.Ring.Bytes: returns the bytes as a value, so that the returned slice aliases the ring until the next Write is not captured.
- Buffer.HeadTail.Tail: returns the bytes as a value, like Buffer.Ring.Bytes.
- MemStore.MemStore.Insert: records are values; that insert writes ID and timestamp into the caller's objects is not captured. IDs are unbounded.
- Records.Query: lower-casing and substring search are an arbitrary predicate.
- Sink.Sink: the store is the in-memory one and is present whenever the writer is; channels are bounded sequences and each select branch is one step.
- RequestLogger.Factory.Observe: stands for all request, response and local-reply callbacks that copy data into the record; what it copies is one opaque step.
- LlmProxy: the request side (model lookup, cluster routing) and the Content-Type check that sets skipSSE.
- Sse.Decoder: JSON decoding is an arbitrary function.
- Decimal: status strings are single-byte characters.
- The config-level and per-route managers, network filters, the access-logger ABI, the Postgres store, the HTTP server and the CGO accessors: marshalling, I/O, or the same patterns with fewer states.
