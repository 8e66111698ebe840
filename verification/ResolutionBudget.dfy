/** How many resolutions a request can still come to: each live operation is worth
    one, and code that runs can only turn room left by the guards into more. */
module ResolutionBudget {
  import opened Common
  import opened WriterModel
  import opened Lifecycle
  import opened LifecycleInvariant
  import opened LifecycleTheorems
  import opened Observers
  import opened Reachable
  import opened Deliveries
  import opened Settled

  /** The operations the guards still let code start: all three, a callout and a
      goroutine beside a stream, a goroutine beside a callout. */
  function Room(a: AsyncState): nat {
    if a.goStarted then 0 else if a.calloutStarted then 1 else if a.streamStarted then 2 else 3
  }

  /** Code other than a goroutine can still run. */
  predicate CodeMayRun(s: Sys) {
    || (s.w.async.calloutFn && s.pending.callouts != {})
    || (s.w.async.streamEventFn && s.pending.streams != {})
    || (s.def.observer && !s.abi.localResponseSent)
  }

  function Startable(s: Sys): nat {
    if CodeMayRun(s) then Room(s.w.async) else 0
  }

  // ----- what a script can add -----

  lemma OpBudget(s: Sys, op: Op)
    requires Reach(s) && s.filter.hasWriter && !s.w.Settled()
    ensures var t := RunOp(s, op);
            if t.w.Settled() then
              SendsAtOnce(s) && op.Send? && Resolutions(t.trace.log) == Resolutions(s.trace.log) + 1
            else
              && t.trace.log == s.trace.log
              && Live(t) + Room(t.w.async) <= Live(s) + Room(s.w.async)
              && (SendsAtOnce(t) ==> SendsAtOnce(s))
  {
    if op.Send? && SendsAtOnce(s) {
      LoudSend(s, op);
      var r := Replied(Reply(op.status % UINT32, s.w.queues.respHdrMuts, op.body));
      OneResolves(r);
      ResolutionsConcat(s.trace.log, [r]);
    }
  }

  /** Running user code either answers on the spot, or resolves nothing and only
      turns room into operations. */
  lemma {:induction false} ScriptBudget(s: Sys, ops: seq<Op>)
    requires Reach(s) && s.filter.hasWriter && !s.w.Settled()
    ensures var t := RunOps(s, ops);
            if t.w.Settled() then
              SendsAtOnce(s) && HasSend(ops) && Resolutions(t.trace.log) == Resolutions(s.trace.log) + 1
            else
              && t.trace.log == s.trace.log
              && Live(t) + Room(t.w.async) <= Live(s) + Room(s.w.async)
              && (SendsAtOnce(t) ==> SendsAtOnce(s))
    decreases |ops|
  {
    hide RunOp, Resolutions, Reach, HasSend, SendsAtOnce, Live, Room;
    if ops != [] {
      var p, op := ops[..|ops| - 1], ops[|ops| - 1];
      assert ops == p + [op];
      HasSendSnoc(p, op);
      ScriptBudget(s, p);
      OpsReach(s, p);
      var t := RunOps(s, p);
      if t.w.Settled() {
        SilentOp(t, op);
      } else {
        OpBudget(t, op);
      }
    }
  }

  /** A script that starts nothing, or comes after Go, leaves the operations as
      they are. */
  lemma {:induction false} NothingStarts(s: Sys, ops: seq<Op>)
    requires Synchronous(ops) || s.w.async.goStarted
    ensures RunOps(s, ops).w.async == s.w.async && RunOps(s, ops).pending == s.pending
    decreases |ops|
  {
    hide RunOp;
    if ops != [] {
      NothingStarts(s, ops[..|ops| - 1]);
      OpStartsNothing(RunOps(s, ops[..|ops| - 1]), ops[|ops| - 1]);
    }
  }

  lemma OpStartsNothing(s: Sys, op: Op)
    requires !op.Async() || s.w.async.goStarted
    ensures RunOp(s, op).w.async == s.w.async && RunOp(s, op).pending == s.pending
  {
  }

  // ----- what a step can add -----

  /** After s at most one resolution, and, while t is open, no more resolutions
      to come than before. */
  predicate Within(s: Sys, t: Sys) {
    && Resolutions(t.trace.log) <= 1
    && (Open(t) ==> Resolutions(t.trace.log) + Live(t) <= Resolutions(s.trace.log) + Live(s))
  }

  predicate OneToCome(s: Sys) {
    Ready(s) && Resolutions(s.trace.log) + Live(s) <= 1
  }

  /** A continuation that starts nothing, before its flush. */
  lemma ContinuationRan(s: Sys, script: seq<Op>)
    requires Ready(s) && Resolutions(s.trace.log) == 0
    requires s.w.async.goStarted || Synchronous(script)
    ensures var u := RunOps(s, script);
            && Reach(u) && u.filter == s.filter && u.abi.completed == s.abi.completed
            && Live(u) == Live(s) && Resolutions(u.trace.log) == (if u.w.Settled() then 1 else 0)
  {
    hide RunOps, Resolutions, Reach;
    OpsReach(s, script);
    NothingStarts(s, script);
    ScriptBudget(s, script);
  }

  lemma CalloutWithin(s: Sys, id: nat, script: seq<Op>)
    requires OneToCome(s) && id in s.pending.callouts
    requires s.w.async.goStarted || Synchronous(script) || !s.w.async.calloutFn
    ensures Within(s, OnCalloutDone(s, id, script))
  {
    hide RunOps, Flush, Resolutions;
    DropReach(s, id);
    SetOfOne(s.pending.callouts, id);
    if s.w.async.calloutFn {
      var s1 := Ran(ClearCalloutFn(DropCallout(s, id)), CalloutRan);
      ContinuationRan(s1, script);
      FlushResolves(RunOps(s1, script));
    }
  }

  lemma StreamEventWithin(s: Sys, id: nat, script: seq<Op>)
    requires OneToCome(s) && id in s.pending.streams
    requires s.w.async.goStarted || Synchronous(script) || !s.w.async.streamEventFn
    ensures Within(s, OnStreamEvent(s, id, script))
  {
    hide RunOps, Resolutions;
    SetOfOne(s.pending.streams, id);
    if s.w.async.streamEventFn {
      ContinuationRan(Ran(s, StreamRan), script);
    }
  }

  lemma StreamEndWithin(s: Sys, id: nat, script: seq<Op>)
    requires OneToCome(s) && id in s.pending.streams
    requires s.w.async.goStarted || Synchronous(script) || !s.w.async.streamEventFn
    ensures Within(s, OnStreamComplete(s, id, script)) && Within(s, OnStreamReset(s, id, script))
  {
    hide RunOps, Flush, Resolutions;
    DropReach(s, id);
    SetOfOne(s.pending.streams, id);
    if s.w.async.streamEventFn {
      ContinuationRan(Ran(DropStream(s, id), StreamRan), script);
      var t := LastStreamEvent(DropStream(s, id), script);
      FlushResolves(t);
      ResetFlushes(t);
    } else {
      FlushResolves(DropStream(s, id));
    }
  }

  lemma TaskWithin(s: Sys, id: nat)
    requires OneToCome(s) && id in s.pending.tasks
    ensures Within(s, OnScheduled(s, id))
  {
    TaskFires(s, id);
  }

  lemma GoOpWithin(s: Sys, op: Op)
    requires OneToCome(s) && s.pending.goRunning
    ensures Within(s, RunOp(s, op))
  {
    hide Resolutions;
    OpStartsNothing(s, op);
    SilentOp(s, op);
  }

  lemma ResponseWithin(s: Sys, script: seq<Op>)
    requires OneToCome(s) && s.def.observer && (s.w.async.goStarted || Synchronous(script))
    requires SendsAtOnce(s) && HasSend(script) ==> Resolutions(s.trace.log) == 0
    ensures Within(s, RunOps(s, script))
  {
    hide RunOps, Resolutions, HasSend;
    NothingStarts(s, script);
    ScriptBudget(s, script);
  }

  lemma CompleteWithin(s: Sys)
    requires OneToCome(s)
    ensures Within(s, OnComplete(s))
  {
    CompleteResolvesNothing(s);
    hide Resolutions;
  }

  /** No code that e makes run starts anything. */
  predicate StartsNothing(s: Sys, e: Event) {
    s.w.async.goStarted
    || match e
       case CalloutDone(id, script) => Synchronous(script) || id !in s.pending.callouts || !s.w.async.calloutFn
       case StreamEvent(id, script) => Synchronous(script) || id !in s.pending.streams || !s.w.async.streamEventFn
       case StreamComplete(id, script) => Synchronous(script) || id !in s.pending.streams || !s.w.async.streamEventFn
       case StreamReset(id, script) => Synchronous(script) || id !in s.pending.streams || !s.w.async.streamEventFn
       case Response(script) => Synchronous(script) || !s.def.observer || s.abi.localResponseSent
       case _ => true
  }

  /** An observer's Send reaches the host. */
  predicate ObserverSends(s: Sys, e: Event) {
    e.Response? && HasSend(e.script) && s.def.observer && !s.abi.localResponseSent && SendsAtOnce(s)
  }

  /** A step in which no code starts anything keeps the request within what was
      to come. */
  lemma StepWithin(s: Sys, e: Event)
    requires OneToCome(s) && Orderly(s, e) && StartsNothing(s, e) && !e.RequestBody? && !e.RequestTrailers?
    requires ObserverSends(s, e) ==> Resolutions(s.trace.log) == 0
    ensures Within(s, Step(s, e))
  {
    hide RunOp, RunOps, OnCalloutDone, OnStreamComplete, OnStreamReset, OnStreamEvent, OnScheduled, OnComplete,
         Resolutions, HasSend;
    match e
    case Response(script) =>
      if s.def.observer && !s.abi.localResponseSent { ResponseWithin(s, script); }
    case GoOp(op) => GoOpWithin(s, op);
    case GoReturn => GoReturns(s);
    case Scheduled(id) => if id in s.pending.tasks { TaskWithin(s, id); } else { LateEvent(s, e); }
    case CalloutDone(id, script) =>
      if id in s.pending.callouts { CalloutWithin(s, id, script); } else { LateEvent(s, e); }
    case StreamEvent(id, script) =>
      if id in s.pending.streams { StreamEventWithin(s, id, script); } else { LateEvent(s, e); }
    case StreamComplete(id, script) =>
      if id in s.pending.streams { StreamEndWithin(s, id, script); } else { LateEvent(s, e); }
    case StreamReset(id, script) =>
      if id in s.pending.streams { StreamEndWithin(s, id, script); } else { LateEvent(s, e); }
    case Complete => CompleteWithin(s);
    case _ =>
  }

  lemma LateEvent(s: Sys, e: Event)
    requires match e
             case Scheduled(id) => id !in s.pending.tasks
             case CalloutDone(id, _) => id !in s.pending.callouts
             case StreamEvent(id, _) => id !in s.pending.streams
             case StreamComplete(id, _) => id !in s.pending.streams
             case StreamReset(id, _) => id !in s.pending.streams
             case _ => false
    ensures Step(s, e) == s
  {
  }

  // ----- what only grows -----

  /** Flags that are set stay set: the operations started, the decision, the
      release, and the end of the request. */
  predicate Grew(s: Sys, t: Sys) {
    && (s.w.async.goStarted ==> t.w.async.goStarted) && (s.w.async.calloutStarted ==> t.w.async.calloutStarted)
    && (s.w.async.streamStarted ==> t.w.async.streamStarted)
    && (s.trace.resolved.Some? ==> t.trace.resolved.Some?) && (s.trace.released ==> t.trace.released)
    && (s.trace.ended ==> t.trace.ended) && (s.filter.bodyDone ==> t.filter.bodyDone)
    && t.filter.hasWriter == s.filter.hasWriter
  }

  lemma OpGrew(s: Sys, op: Op)
    ensures Grew(s, RunOp(s, op))
  {
  }

  lemma {:induction false} OpsGrew(s: Sys, ops: seq<Op>)
    ensures Grew(s, RunOps(s, ops))
    decreases |ops|
  {
    hide RunOp;
    if ops != [] {
      OpsGrew(s, ops[..|ops| - 1]);
      OpGrew(RunOps(s, ops[..|ops| - 1]), ops[|ops| - 1]);
    }
  }

  lemma FlushGrew(s: Sys, cont: bool)
    ensures Grew(s, Flush(s, cont))
  {
  }

  lemma StreamEndGrew(s: Sys, id: nat, script: seq<Op>)
    ensures Grew(s, OnStreamComplete(s, id, script)) && Grew(s, OnStreamReset(s, id, script))
  {
    hide RunOps, Flush;
    OpsGrew(Ran(DropStream(s, id), StreamRan), script);
    var t := LastStreamEvent(DropStream(s, id), script);
    FlushGrew(t, true);
    FlushGrew(t, !t.w.answer.responded);
    FlushGrew(DropStream(s, id), true);
  }

  lemma StepGrew(s: Sys, e: Event)
    requires s.filter.hasWriter && !s.def.bodyAware && Orderly(s, e)
    ensures Grew(s, Step(s, e))
  {
    hide RunOp, RunOps, Flush, OnStreamComplete, OnStreamReset;
    match e
    case Response(script) => OpsGrew(s, script);
    case GoOp(op) => OpGrew(s, op);
    case Scheduled(id) => FlushGrew(Ran(DropTask(s, id), TaskRan), true);
    case CalloutDone(id, script) =>
      var s1 := Ran(ClearCalloutFn(DropCallout(s, id)), CalloutRan);
      OpsGrew(s1, script);
      FlushGrew(RunOps(s1, script), true);
    case StreamEvent(id, script) => OpsGrew(Ran(s, StreamRan), script);
    case StreamComplete(id, script) => StreamEndGrew(s, id, script);
    case StreamReset(id, script) => StreamEndGrew(s, id, script);
    case _ =>
  }

  lemma GrewReleasable(s: Sys, t: Sys)
    requires Grew(s, t)
    ensures Releasable(t) <= Releasable(s) && Room(t.w.async) <= Room(s.w.async)
  {
  }

  /** A body or trailers callback turns what is releasable into a resolution. */
  lemma BodyWithin(s: Sys, e: Event)
    requires Ready(s) && Orderly(s, e) && (e.RequestBody? || e.RequestTrailers?)
    ensures var t := Step(s, e);
            && Resolutions(t.trace.log) + Releasable(t) <= Resolutions(s.trace.log) + Releasable(s)
            && Live(t) == Live(s) && t.w == s.w && t.pending == s.pending && t.abi == s.abi && t.def == s.def
  {
    hide Resolutions;
    ResolutionsConcat(s.trace.log, [Released]);
    OneResolves(Released);
  }

  /** Once no code but a goroutine's may run, none ever does. */
  lemma NoCodeStays(s: Sys, e: Event)
    requires Ready(s) && !CodeMayRun(s) && !s.w.async.goStarted && Orderly(s, e)
    ensures !CodeMayRun(Step(s, e)) && StartsNothing(s, e) && !ObserverSends(s, e)
  {
    hide RunOps, Flush, Resolutions;
    match e
    case StreamComplete(id, script) =>
      DropReach(s, id);
      FlushResolves(DropStream(s, id));
    case _ =>
  }

  // ----- both conditions are kept -----

  predicate Spent(s: Sys) {
    Resolutions(s.trace.log) <= 1 && (Open(s) ==> Due(s) <= 1)
  }

  predicate SpentForGood(s: Sys) {
    Resolutions(s.trace.log) <= 1 && (Open(s) ==> Due(s) + Startable(s) <= 1)
  }

  /** No step in which no code starts anything makes more due. */
  lemma DueStays(s: Sys, e: Event)
    requires Ready(s) && Due(s) <= 1 && Orderly(s, e) && StartsNothing(s, e)
    requires ObserverSends(s, e) ==> Resolutions(s.trace.log) == 0
    ensures var t := Step(s, e);
            Resolutions(t.trace.log) <= 1 && (Open(t) ==> Due(t) <= Due(s)) && Room(t.w.async) <= Room(s.w.async)
  {
    StepGrew(s, e);
    GrewReleasable(s, Step(s, e));
    if e.RequestBody? || e.RequestTrailers? {
      BodyWithin(s, e);
    } else {
      StepWithin(s, e);
    }
    hide Step, Live, Resolutions, HasSend, StartsNothing, Releasable, Orderly, Reach, Room;
  }

  lemma SpentStays(s: Sys, e: Event)
    requires Reach(s) && s.filter.hasWriter && Spent(s)
    requires Orderly(s, e) && Disciplined(s, e) && SynchronousContinuation(e)
    ensures Spent(Step(s, e))
  {
    hide Step, Live, Resolutions, HasSend, Due;
    if Open(s) {
      DisciplinedStartsNothing(s, e);
      DueStays(s, e);
    } else {
      ClosedStep(s, e);
    }
  }

  lemma DisciplinedStartsNothing(s: Sys, e: Event)
    requires Reach(s) && Disciplined(s, e) && SynchronousContinuation(e)
    ensures StartsNothing(s, e) && (ObserverSends(s, e) ==> Resolutions(s.trace.log) == 0)
  {
    hide Resolutions, HasSend;
  }

  lemma ObserverBudget(s: Sys, script: seq<Op>)
    requires Ready(s) && SpentForGood(s) && s.def.observer && !s.abi.localResponseSent && !s.w.async.goStarted
    ensures SpentForGood(Step(s, Response(script)))
  {
    hide RunOps, Resolutions, HasSend;
    ScriptBudget(s, script);
    OpsGrew(s, script);
    GrewReleasable(s, RunOps(s, script));
  }

  lemma SpentForGoodStays(s: Sys, e: Event)
    requires Reach(s) && s.filter.hasWriter && SpentForGood(s) && Orderly(s, e)
    ensures SpentForGood(Step(s, e))
  {
    hide Step, Resolutions, HasSend, Orderly, StartsNothing, Due;
    if !Open(s) {
      ClosedStep(s, e);
      return;
    }
    if s.w.async.goStarted {
      GoStartsNothing(s, e);
      DueStays(s, e);
    } else if !CodeMayRun(s) {
      NoCodeStays(s, e);
      DueStays(s, e);
    } else if e.Response? && s.def.observer && !s.abi.localResponseSent {
      ObserverBudget(s, e.script);
      assert e == Response(e.script);
    } else {
      NothingDue(s);
      NothingOutstanding(s, e);
      DueStays(s, e);
    }
  }

  lemma NothingDue(s: Sys)
    requires Due(s) == 0
    ensures Live(s) == 0 && Resolutions(s.trace.log) == 0
  {
  }

  lemma GoStartsNothing(s: Sys, e: Event)
    requires s.w.async.goStarted
    ensures StartsNothing(s, e) && !ObserverSends(s, e)
  {
  }

  lemma NothingOutstanding(s: Sys, e: Event)
    requires Live(s) == 0 && !(e.Response? && s.def.observer && !s.abi.localResponseSent)
    ensures StartsNothing(s, e) && !ObserverSends(s, e)
  {
  }

  lemma {:induction false} SpentRun(s: Sys, events: seq<Event>)
    requires Reach(s) && s.filter.hasWriter && Spent(s) && PlainRun(s, events)
    ensures Reach(Resume(s, events)) && Resume(s, events).filter.hasWriter && Spent(Resume(s, events))
    decreases |events|
  {
    hide Step, Orderly, Disciplined, Reach, Spent;
    if events != [] {
      var p, e := events[..|events| - 1], events[|events| - 1];
      SpentRun(s, p);
      StepReach(Resume(s, p), e);
      SpentStays(Resume(s, p), e);
    }
  }

  lemma {:induction false} SpentForGoodRun(s: Sys, events: seq<Event>)
    requires Reach(s) && s.filter.hasWriter && SpentForGood(s) && OrderlyFrom(s, events)
    ensures Reach(Resume(s, events)) && Resume(s, events).filter.hasWriter && SpentForGood(Resume(s, events))
    decreases |events|
  {
    hide Step, Orderly, Reach, SpentForGood;
    if events != [] {
      var p, e := events[..|events| - 1], events[|events| - 1];
      SpentForGoodRun(s, p);
      StepReach(Resume(s, p), e);
      SpentForGoodStays(Resume(s, p), e);
    }
  }
}
