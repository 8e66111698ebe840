/** What holds of a request that is not body-aware in every state Envoy can
    drive it to, whatever its handler, continuations and observers start. */
module Reachable {
  import opened WriterModel
  import opened Lifecycle
  import opened LifecycleTheorems

  /** At most one callback, goroutine or task is outstanding for each kind of
      operation, and none for a kind that was not started. */
  predicate Outstanding(p: Pending, a: AsyncState) {
    && |p.callouts| <= 1 && (p.callouts != {} || a.calloutFn ==> a.calloutStarted)
    && |p.streams| <= 1 && (p.streams != {} || a.streamEventFn ==> a.streamStarted)
    && |p.tasks| + (if p.goRunning then 1 else 0) <= 1 && (p.tasks != {} || p.goRunning ==> a.goStarted)
  }

  predicate Reach(s: Sys) {
    && !s.def.bodyAware && s.filter.streamDone == s.abi.completed && (s.abi.destroyed ==> s.abi.completed)
    && (s.w.answer.localResp.Some? ==> s.w.answer.responded && s.w.async.goStarted)
    && Outstanding(s.pending, s.w.async)
    && (!s.filter.hasWriter ==> s.w == FRESH_WRITER)
    && (s.trace.resolved.None? && !s.trace.released ==> Resolutions(s.trace.log) == 0)
    && (s.w.Settled() ==> s.trace.resolved.Some?)
  }

  lemma OpReach(s: Sys, op: Op)
    requires Reach(s) && s.filter.hasWriter
    ensures Reach(RunOp(s, op)) && RunOp(s, op).filter == s.filter && RunOp(s, op).abi.completed == s.abi.completed
    ensures RunOp(s, op).def == s.def
  {
    hide Resolutions;
    if op.Send? {
      SendReach(s, op);
    } else if op.Async() {
      AsyncReach(s, op);
    }
  }

  lemma SendReach(s: Sys, op: Op)
    requires Reach(s) && s.filter.hasWriter && op.Send?
    ensures Reach(RunOp(s, op)) && RunOp(s, op).filter == s.filter && RunOp(s, op).abi.completed == s.abi.completed
    ensures RunOp(s, op).def == s.def
  {
    hide Resolutions, Outstanding;
  }

  lemma AsyncReach(s: Sys, op: Op)
    requires Reach(s) && s.filter.hasWriter && op.Async()
    ensures Reach(RunOp(s, op)) && RunOp(s, op).filter == s.filter && RunOp(s, op).abi.completed == s.abi.completed
    ensures RunOp(s, op).def == s.def
  {
    hide Resolutions;
  }

  lemma {:induction false} OpsReach(s: Sys, ops: seq<Op>)
    requires Reach(s) && s.filter.hasWriter
    ensures Reach(RunOps(s, ops)) && RunOps(s, ops).filter == s.filter
    ensures RunOps(s, ops).abi.completed == s.abi.completed && RunOps(s, ops).def == s.def
    decreases |ops|
  {
    hide RunOp, Reach;
    if ops != [] {
      OpsReach(s, ops[..|ops| - 1]);
      OpReach(RunOps(s, ops[..|ops| - 1]), ops[|ops| - 1]);
    }
  }

  lemma QueueResolvesNothing(q: Queues)
    ensures Resolutions(QueueEffects(q)) == 0 && Resolutions(QueueEffects(q) + [Continued]) == 1
  {
    HeaderEffectsDecideNothing(q.reqMuts);
    MetaEffectsDecideNothing(q.metaMuts);
    MetricEffectsDecideNothing(q.counterMuts);
    var effects := QueueEffects(q);
    assert forall e | e in effects :: !e.Resolves();
    hide QueueEffects;
    NoResolution(effects);
    ResolutionsConcat(effects, [Continued]);
    OneResolves(Continued);
  }

  /** A flush that continues resolves the request, unless it was answered on the
      spot. */
  lemma FlushResolves(s: Sys)
    requires Reach(s)
    ensures Resolutions(Flush(s, true).trace.log) == Resolutions(s.trace.log) + (if s.w.Settled() then 0 else 1)
    ensures Reach(Flush(s, true)) && Flush(s, true).w == s.w && Flush(s, true).pending == s.pending
    ensures Flush(s, true).filter == s.filter && Flush(s, true).def == s.def
    ensures Flush(s, true).abi.completed == s.abi.completed && Flush(s, true).abi.destroyed == s.abi.destroyed
    ensures s.abi.localResponseSent ==> Flush(s, true).abi.localResponseSent
  {
    hide QueueEffects, Resolutions;
    QueueResolvesNothing(s.w.queues);
    ResolutionsConcat(s.trace.log, QueueEffects(s.w.queues) + [Continued]);
    if s.w.answer.localResp.Some? {
      OneResolves(Replied(s.w.answer.localResp.value));
      ResolutionsConcat(s.trace.log, [Replied(s.w.answer.localResp.value)]);
    }
  }

  lemma PassResolves(s: Sys)
    requires Reach(s) && !s.w.answer.responded
    ensures var t := Pass(Flush(s, false));
            && Reach(t) && Resolutions(t.trace.log) == Resolutions(s.trace.log) + 1
            && t.w == s.w && t.pending == s.pending && t.filter == s.filter && t.def == s.def
            && t.abi == s.abi
  {
    hide QueueEffects, Resolutions;
    QueueResolvesNothing(s.w.queues);
    ResolutionsConcat(s.trace.log, QueueEffects(s.w.queues));
    ResolutionsConcat(s.trace.log + QueueEffects(s.w.queues), [Passed]);
    OneResolves(Passed);
  }

  lemma CompleteResolvesNothing(s: Sys)
    requires Reach(s)
    ensures Reach(OnComplete(s)) && Resolutions(OnComplete(s).trace.log) == Resolutions(s.trace.log)
    ensures OnComplete(s).filter.hasWriter == s.filter.hasWriter
  {
    hide Resolutions;
    var m, n := MetaEffects(s.w.queues.metaMuts), MetricEffects(s.w.queues.counterMuts);
    MetaEffectsDecideNothing(s.w.queues.metaMuts);
    MetricEffectsDecideNothing(s.w.queues.counterMuts);
    NoResolution(m);
    NoResolution(n);
    ResolutionsConcat(s.trace.log, m);
    ResolutionsConcat(s.trace.log + m, n);
  }

  lemma DropReach(s: Sys, id: nat)
    requires Reach(s)
    ensures Reach(DropTask(s, id)) && Reach(DropCallout(s, id)) && Reach(DropStream(s, id))
  {
    hide Resolutions;
    assert |s.pending.tasks - {id}| <= |s.pending.tasks|;
    assert |s.pending.callouts - {id}| <= |s.pending.callouts|;
    assert |s.pending.streams - {id}| <= |s.pending.streams|;
  }

  lemma ArrivalReach(s: Sys, endStream: bool)
    requires Reach(s)
    ensures Reach(Arrived(s, endStream))
  {
  }

  lemma HeadersReach(s: Sys, script: seq<Op>)
    requires Reach(s) && !s.filter.hasWriter
    ensures Reach(OnRequestHeaders(s, script)) && OnRequestHeaders(s, script).filter.hasWriter
  {
    var s1 := s.(filter := s.filter.(hasWriter := true), w := FRESH_WRITER);
    hide RunOps, Resolutions, Flush, Pass;
    OpsReach(s1, script);
    if !RunOps(s1, script).w.answer.responded {
      PassResolves(RunOps(s1, script));
    }
  }

  lemma CalloutReach(s: Sys, id: nat, script: seq<Op>)
    requires Reach(s)
    ensures Reach(OnCalloutDone(s, id, script)) && OnCalloutDone(s, id, script).filter == s.filter
  {
    hide RunOps, Resolutions, Flush;
    DropReach(s, id);
    var s1 := Ran(ClearCalloutFn(DropCallout(s, id)), CalloutRan);
    if s.filter.hasWriter {
      OpsReach(s1, script);
      FlushResolves(RunOps(s1, script));
    }
  }

  lemma StreamReach(s: Sys, id: nat, script: seq<Op>)
    requires Reach(s)
    ensures Reach(OnStreamComplete(s, id, script)) && Reach(OnStreamReset(s, id, script))
    ensures OnStreamComplete(s, id, script).filter == s.filter && OnStreamReset(s, id, script).filter == s.filter
  {
    hide RunOps, Resolutions, Flush;
    DropReach(s, id);
    if s.filter.hasWriter {
      OpsReach(Ran(DropStream(s, id), StreamRan), script);
      var t := LastStreamEvent(DropStream(s, id), script);
      FlushResolves(t);
      ResetFlushes(t);
      FlushResolves(DropStream(s, id));
    }
  }

  /** The flush of a reset continues exactly when one that continues would have
      an effect. */
  lemma ResetFlushes(t: Sys)
    ensures Flush(t, !t.w.answer.responded) == Flush(t, true)
  {
  }

  lemma GoReturnReach(s: Sys)
    requires Reach(s) && s.pending.goRunning
    ensures Reach(OnGoReturn(s)) && OnGoReturn(s).pending.tasks == {s.pending.nextTask}
    ensures OnGoReturn(s).filter == s.filter
  {
    hide Resolutions;
    assert s.pending.tasks == {};
  }

  lemma ScheduledReach(s: Sys, id: nat)
    requires Reach(s)
    ensures Reach(OnScheduled(s, id)) && OnScheduled(s, id).filter == s.filter
  {
    DropReach(s, id);
    FlushResolves(Ran(DropTask(s, id), TaskRan));
    hide Flush, Resolutions;
  }

  lemma ScriptReach(s: Sys, script: seq<Op>)
    requires Reach(s) && s.filter.hasWriter
    ensures Reach(OnResponse(s, script)) && OnResponse(s, script).filter == s.filter
    ensures forall id :: Reach(OnStreamEvent(s, id, script)) && OnStreamEvent(s, id, script).filter == s.filter
  {
    OpsReach(s, script);
    OpsReach(Ran(s, StreamRan), script);
    hide RunOps, Resolutions;
  }

  lemma NoticeReach(s: Sys, e: Event)
    requires Reach(s) && Orderly(s, e)
    requires e.RequestBody? || e.RequestTrailers? || e.LocalReplyNotice? || e.Destroy?
    ensures Reach(Step(s, e)) && Step(s, e).filter.hasWriter == s.filter.hasWriter
  {
    hide Resolutions;
  }

  lemma StepReach(s: Sys, e: Event)
    requires Reach(s) && Orderly(s, e)
    ensures Reach(Step(s, e)) && (s.filter.hasWriter ==> Step(s, e).filter.hasWriter) && Step(s, e).def == s.def
  {
    StepGrows(s, e);
    ReachHasWriter(s);
    hide RunOp, Reach, OnRequestHeaders, OnResponse, OnScheduled, OnCalloutDone, OnStreamEvent, OnStreamComplete,
         OnStreamReset, OnComplete, OnGoReturn;
    match e
    case RequestHeaders(endStream, script) =>
      ArrivalReach(s, endStream);
      HeadersReach(Arrived(s, endStream), script);
    case Response(script) => ScriptReach(s, script);
    case GoOp(op) => OpReach(s, op);
    case GoReturn => GoReturnReach(s);
    case Scheduled(id) => ScheduledReach(s, id);
    case CalloutDone(id, script) => CalloutReach(s, id, script);
    case StreamEvent(id, script) => if s.filter.hasWriter { ScriptReach(s, script); } else { EventLost(s, id, script); }
    case StreamComplete(id, script) => StreamReach(s, id, script);
    case StreamReset(id, script) => StreamReach(s, id, script);
    case Complete => CompleteResolvesNothing(s);
    case _ => NoticeReach(s, e);
  }

  /** Only a request with a Writer has a goroutine. */
  lemma ReachHasWriter(s: Sys)
    requires Reach(s)
    ensures s.pending.goRunning ==> s.filter.hasWriter
    ensures Untouched(s)
  {
  }

  lemma EventLost(s: Sys, id: nat, script: seq<Op>)
    requires !s.filter.hasWriter
    ensures OnStreamEvent(s, id, script) == s
  {
  }

  lemma {:induction false} RunReaches(def: Def, events: seq<Event>)
    requires OrderlyFrom(InitSys(def), events) && !def.bodyAware
    ensures Reach(Exec(def, events)) && Exec(def, events).def == def
    decreases |events|
  {
    hide Step, Orderly, Reach;
    if events == [] {
      StartReach(def);
    } else {
      RunGrows(def, events);
      RunReaches(def, events[..|events| - 1]);
      StepReach(Exec(def, events[..|events| - 1]), events[|events| - 1]);
    }
  }

  lemma StartReach(def: Def)
    requires !def.bodyAware
    ensures Reach(InitSys(def))
  {
  }
}
