/** One request as a state machine: the ABI handle, the sahl filter and its
    Writer, driven by an adversarial Envoy and an arbitrary handler. */
module Lifecycle {
  import opened Common
  import opened WriterModel

  datatype Def = Def(bodyAware: bool, observer: bool)

  datatype Continuation = CalloutRan | StreamRan | TaskRan

  /** How and after which Writer calls a request was decided. */
  datatype Resolution = Resolution(ops: seq<Op>, via: Effect)

  /** The abi_impl handle. */
  datatype Abi = Abi(completed: bool, destroyed: bool, localResponseSent: bool)

  /** What can still resume the request: callbacks registered with the handle,
      the running goroutine, and committed scheduler tasks. */
  datatype Pending = Pending(callouts: set<nat>, streams: set<nat>, goRunning: bool, tasks: set<nat>, nextTask: nat)

  /** The sahl filter, without its Writer. */
  datatype Filter = Filter(streamDone: bool, bodyDone: bool, hasWriter: bool)

  /** What the host saw and which continuations ran; then history: every Writer
      call so far, the calls made when the request was decided, the calls made
      when the stream completed under an observer, whether the headers or trailers
      ended the request, so that nothing more of it follows, and whether a body or
      trailers callback released it. */
  datatype Trace = Trace(
    log: seq<Effect>, ran: seq<Continuation>, issued: seq<Op>,
    resolved: Option<Resolution>, observed: Option<seq<Op>>, ended: bool, released: bool)

  datatype Sys = Sys(def: Def, abi: Abi, pending: Pending, filter: Filter, w: WriterState, trace: Trace)

  function InitSys(def: Def): Sys {
    Sys(def, Abi(false, false, false), Pending({}, {}, false, {}, 0), Filter(false, false, false), FRESH_WRITER,
        Trace([], [], [], None, None, false, false))
  }

  datatype Event =
    | RequestHeaders(endStream: bool, script: seq<Op>)
    | RequestBody(endStream: bool, script: seq<Op>)
    | RequestTrailers
    | Response(script: seq<Op>)              // response headers or a body chunk, with the observer's calls
    | LocalReplyNotice(details: string)
    | GoOp(op: Op)                           // the goroutine makes one call
    | GoReturn                               // the goroutine returns and schedules the flush
    | Scheduled(task: nat)
    | CalloutDone(id: nat, script: seq<Op>)
    | StreamEvent(id: nat, script: seq<Op>)  // upstream headers, data or trailers
    | StreamComplete(id: nat, script: seq<Op>)
    | StreamReset(id: nat, script: seq<Op>)
    | Complete
    | Destroy

  // ----- the Writer -----

  function Emit(s: Sys, effects: seq<Effect>): Sys {
    s.(trace := s.trace.(log := s.trace.log + effects))
  }

  function Decide(s: Sys, via: Effect): Sys {
    if s.trace.resolved.None? then s.(trace := s.trace.(resolved := Some(Resolution(s.trace.issued, via)))) else s
  }

  function SendNow(s: Sys, r: Reply): Sys {
    Decide(Emit(s.(abi := s.abi.(localResponseSent := true)), [Replied(r)]), Continued)
  }

  function SendBytes(s: Sys, status: int, body: string): Sys {
    if s.w.answer.responded then s
    else
      var r := Reply(status % UINT32, s.w.queues.respHdrMuts, body);
      if s.w.async.goStarted then s.(w := s.w.(answer := Answer(true, Some(r))))
      else SendNow(s.(w := s.w.(answer := s.w.answer.(responded := true))), r)
  }

  /** The "called twice" and "mutually exclusive" panics leave the state as it
      was, so a run covers handlers that recover from them. */
  function StartGo(s: Sys): Sys {
    if s.w.async.goStarted then s
    else s.(w := s.w.(async := s.w.async.(goStarted := true)), pending := s.pending.(goRunning := true))
  }

  function StartCallout(s: Sys, init: Init, hasFn: bool): Sys {
    if s.w.async.calloutStarted || s.w.async.goStarted then s
    else match init
      case Refused => s.(w := s.w.(async := s.w.async.(calloutFn := false)))
      case Accepted(id) => s.(w := s.w.(async := s.w.async.(calloutFn := hasFn, calloutStarted := true)),
                              pending := s.pending.(callouts := s.pending.callouts + {id}))
  }

  function StartStream(s: Sys, init: Init, hasFn: bool): Sys {
    if s.w.async.streamStarted || s.w.async.calloutStarted || s.w.async.goStarted then s
    else match init
      case Refused => s.(w := s.w.(async := s.w.async.(streamEventFn := false)))
      case Accepted(id) => s.(w := s.w.(async := s.w.async.(streamEventFn := hasFn, streamStarted := true)),
                              pending := s.pending.(streams := s.pending.streams + {id}))
  }

  /** The queueing calls. Metrics and the route-cache request are queued even
      after Send. */
  function Enqueue(q: Queues, responded: bool, op: Op): Queues {
    match op
    case SetRequestHeader(h) => if responded then q else q.(reqMuts := q.reqMuts + [h])
    case SetResponseHeader(h) => if responded then q else q.(respHdrMuts := q.respHdrMuts + [h])
    case SetMetadata(m) => if responded then q else q.(metaMuts := q.metaMuts + [m])
    case ClearRouteCache => q.(routeCleared := true)
    case AddMetric(m) => q.(counterMuts := q.counterMuts + [m])
    case _ => q
  }

  function Apply(s: Sys, op: Op): Sys {
    match op
    case Send(status, body) => SendBytes(s, status, body)
    case Go => StartGo(s)
    case Callout(init, hasFn) => StartCallout(s, init, hasFn)
    case Stream(init, hasFn) => StartStream(s, init, hasFn)
    case _ => s.(w := s.w.(queues := Enqueue(s.w.queues, s.w.answer.responded, op)))
  }

  function Record(s: Sys, op: Op): Sys {
    s.(trace := s.trace.(issued := s.trace.issued + [op]))
  }

  function RunOp(s: Sys, op: Op): Sys {
    Apply(Record(s, op), op)
  }

  function RunOps(s: Sys, ops: seq<Op>): Sys {
    if ops == [] then s else RunOp(RunOps(s, ops[..|ops| - 1]), ops[|ops| - 1])
  }

  function QueueEffects(q: Queues): seq<Effect> {
    HeaderEffects(q.reqMuts) + MetaEffects(q.metaMuts)
    + (if q.routeCleared then [RouteCacheCleared] else []) + MetricEffects(q.counterMuts)
  }

  function Flush(s: Sys, continueReq: bool): Sys {
    match s.w.answer.localResp
    case Some(r) => SendNow(s, r)
    case None =>
      if s.w.answer.responded then s
      else if continueReq then Decide(Emit(s, QueueEffects(s.w.queues) + [Continued]), Continued)
      else Emit(s, QueueEffects(s.w.queues))
  }

  function FlushResponse(s: Sys): Sys {
    s.(w := s.w.(queues := s.w.queues.(metaMuts := [], counterMuts := [])),
       trace := s.trace.(log := s.trace.log + MetaEffects(s.w.queues.metaMuts) + MetricEffects(s.w.queues.counterMuts),
                         observed := Some(s.trace.issued)))
  }

  // ----- the callbacks -----

  /** A request callback returns Continue. */
  function Pass(s: Sys): Sys {
    Decide(Emit(s, [Passed]), Passed)
  }

  function Arrived(s: Sys, endStream: bool): Sys {
    s.(trace := s.trace.(ended := endStream))
  }

  /** The filter does not look at the flag. */
  function OnRequestHeaders(s: Sys, script: seq<Op>): Sys {
    var s1 := s.(filter := s.filter.(hasWriter := true), w := FRESH_WRITER);
    if s.def.bodyAware then s1
    else
      var s2 := RunOps(s1, script);
      if s2.w.async.Started() > 0 || s2.w.answer.responded then s2 else Pass(Flush(s2, false))
  }

  /** The host holds the request: the headers callback stopped it, and it was
      neither decided nor released since. */
  predicate Held(s: Sys) {
    s.filter.hasWriter && s.trace.resolved.None? && !s.trace.released
  }

  /** A body or trailers callback returns Continue. If the host was holding the
      request, it sends it on. */
  function Release(s: Sys): Sys {
    if Held(s) then s.(trace := s.trace.(log := s.trace.log + [Released], released := true)) else s
  }

  function OnRequestTrailers(s: Sys): Sys {
    Release(s.(trace := s.trace.(ended := true)))
  }

  function OnRequestBody(s: Sys, endStream: bool, script: seq<Op>): Sys {
    var s1 := if endStream then s.(filter := s.filter.(bodyDone := true)) else s;
    if s.def.bodyAware && endStream then
      var s2 := RunOps(s1, script);
      Pass(if s2.w.answer.responded then s2 else Flush(s2, false))
    else if s.def.bodyAware then s1
    else Release(s1)
  }

  function OnResponse(s: Sys, script: seq<Op>): Sys {
    if s.abi.localResponseSent || !s.def.observer then s else RunOps(s, script)
  }

  function OnLocalReply(s: Sys, details: string): Sys {
    if s.filter.hasWriter && details != "" then s.(w := s.w.(localReplyDetails := details)) else s
  }

  function OnGoReturn(s: Sys): Sys {
    s.(w := s.w.(async := s.w.async.(goCancelled := true)),
       pending := s.pending.(goRunning := false, tasks := s.pending.tasks + {s.pending.nextTask},
                             nextTask := (s.pending.nextTask + 1) % UINT64))
  }

  function Ran(s: Sys, c: Continuation): Sys {
    s.(trace := s.trace.(ran := s.trace.ran + [c]))
  }

  function DropTask(s: Sys, id: nat): Sys {
    s.(pending := s.pending.(tasks := s.pending.tasks - {id}))
  }

  function DropCallout(s: Sys, id: nat): Sys {
    s.(pending := s.pending.(callouts := s.pending.callouts - {id}))
  }

  function DropStream(s: Sys, id: nat): Sys {
    s.(pending := s.pending.(streams := s.pending.streams - {id}))
  }

  function ClearCalloutFn(s: Sys): Sys {
    s.(w := s.w.(async := s.w.async.(calloutFn := false)))
  }

  function ClearStreamFn(s: Sys): Sys {
    s.(w := s.w.(async := s.w.async.(streamEventFn := false)))
  }

  function OnScheduled(s: Sys, id: nat): Sys {
    if !s.filter.hasWriter || s.abi.completed || id !in s.pending.tasks then s
    else Flush(Ran(DropTask(s, id), TaskRan), true)
  }

  function OnCalloutDone(s: Sys, id: nat, script: seq<Op>): Sys {
    if s.abi.completed || id !in s.pending.callouts then s
    else
      var s1 := DropCallout(s, id);
      if s1.filter.streamDone || !s1.filter.hasWriter || !s1.w.async.calloutFn then s1
      else Flush(RunOps(Ran(ClearCalloutFn(s1), CalloutRan), script), true)
  }

  function OnStreamEvent(s: Sys, id: nat, script: seq<Op>): Sys {
    if s.abi.completed || id !in s.pending.streams || !s.filter.hasWriter || !s.w.async.streamEventFn then s
    else RunOps(Ran(s, StreamRan), script)
  }

  /** Runs the event function one last time and drops it. */
  function LastStreamEvent(s: Sys, script: seq<Op>): Sys {
    ClearStreamFn(RunOps(Ran(s, StreamRan), script))
  }

  function OnStreamComplete(s: Sys, id: nat, script: seq<Op>): Sys {
    if s.abi.completed || id !in s.pending.streams then s
    else
      var s1 := DropStream(s, id);
      if s1.filter.streamDone || !s1.filter.hasWriter then s1
      else Flush(if s1.w.async.streamEventFn then LastStreamEvent(s1, script) else s1, true)
  }

  function OnStreamReset(s: Sys, id: nat, script: seq<Op>): Sys {
    if s.abi.completed || id !in s.pending.streams then s
    else
      var s1 := DropStream(s, id);
      if s1.filter.streamDone || !s1.filter.hasWriter || !s1.w.async.streamEventFn then s1
      else
        var s2 := LastStreamEvent(s1, script);
        Flush(s2, !s2.w.answer.responded)
  }

  function MarkComplete(s: Sys): Sys {
    s.(abi := s.abi.(completed := true), filter := s.filter.(streamDone := true))
  }

  function CancelGo(s: Sys): Sys {
    if s.filter.hasWriter && s.w.async.goStarted then s.(w := s.w.(async := s.w.async.(goCancelled := true))) else s
  }

  function OnComplete(s: Sys): Sys {
    CancelGo(if s.def.observer && s.filter.hasWriter then FlushResponse(MarkComplete(s)) else MarkComplete(s))
  }

  function Step(s: Sys, e: Event): Sys {
    match e
    case RequestHeaders(endStream, script) => OnRequestHeaders(Arrived(s, endStream), script)
    case RequestBody(endStream, script) => OnRequestBody(s, endStream, script)
    case RequestTrailers => OnRequestTrailers(s)
    case Response(script) => OnResponse(s, script)
    case LocalReplyNotice(details) => OnLocalReply(s, details)
    case GoOp(op) => RunOp(s, op)
    case GoReturn => OnGoReturn(s)
    case Scheduled(id) => OnScheduled(s, id)
    case CalloutDone(id, script) => OnCalloutDone(s, id, script)
    case StreamEvent(id, script) => OnStreamEvent(s, id, script)
    case StreamComplete(id, script) => OnStreamComplete(s, id, script)
    case StreamReset(id, script) => OnStreamReset(s, id, script)
    case Complete => OnComplete(s)
    case Destroy => s.(abi := s.abi.(destroyed := true))
  }

  /** The order Envoy keeps. Callout, stream and scheduler events may carry any
      ID, repeat, and arrive late. */
  predicate Orderly(s: Sys, e: Event) {
    && !s.abi.destroyed
    && match e
       case RequestHeaders(_, _) => !s.filter.hasWriter && !s.abi.completed
       case RequestBody(_, _) =>
         s.filter.hasWriter && !s.filter.bodyDone && !s.trace.ended && !s.abi.completed
       case RequestTrailers =>
         s.filter.hasWriter && !s.filter.bodyDone && !s.trace.ended && !s.abi.completed
       case Response(_) => s.filter.hasWriter && !s.abi.completed
       case GoOp(_) => s.pending.goRunning
       case GoReturn => s.pending.goRunning
       case Complete => !s.abi.completed
       case Destroy => s.abi.completed
       case _ => true
  }

  predicate Synchronous(script: seq<Op>) {
    forall op | op in script :: !op.Async()
  }

  /** An observer's Send would reach the host although the request is decided or
      released: no earlier Send, no local reply, and no goroutine to defer it to. */
  predicate Overrules(s: Sys) {
    && s.def.observer && (s.trace.resolved.Some? || s.trace.released)
    && !s.abi.localResponseSent && !s.w.answer.responded && !s.w.async.goStarted
  }

  /** Body-aware handlers are synchronous; observers start nothing and send only
      where that does not overrule a decision. */
  predicate Disciplined(s: Sys, e: Event) {
    match e
    case RequestBody(_, script) => s.def.bodyAware ==> Synchronous(script)
    case Response(script) => Synchronous(script) && (HasSend(script) ==> !Overrules(s))
    case _ => true
  }

  function Resume(s: Sys, events: seq<Event>): Sys {
    if events == [] then s else Step(Resume(s, events[..|events| - 1]), events[|events| - 1])
  }

  function Exec(def: Def, events: seq<Event>): Sys {
    Resume(InitSys(def), events)
  }

  predicate OrderlyFrom(s: Sys, events: seq<Event>) {
    events == [] ||
    (OrderlyFrom(s, events[..|events| - 1]) && Orderly(Resume(s, events[..|events| - 1]), events[|events| - 1]))
  }

  predicate DisciplinedFrom(s: Sys, events: seq<Event>) {
    events == [] ||
    (DisciplinedFrom(s, events[..|events| - 1]) && Disciplined(Resume(s, events[..|events| - 1]), events[|events| - 1]))
  }
}
