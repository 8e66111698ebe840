/** Every orderly callback keeps the invariant. */
module LifecyclePreservation {
  import opened Common
  import opened WriterModel
  import opened Lifecycle
  import opened LifecycleInvariant

  /** With a token outstanding, code may run: the Writer is in order. */
  lemma TokenMeansRunning(s: Sys)
    requires Inv(s) && Tokens(s.pending) > 0 && (!s.abi.completed || s.pending.goRunning)
    ensures Running(s) && s.filter.hasWriter && !s.def.bodyAware && s.w.async.Started() >= 1
    ensures !s.abi.completed ==> s.trace.observed.None?
  {
  }

  /** The synchronous path: the handler started nothing and did not answer. */
  lemma SynchronousPass(t: Sys)
    requires Running(t) && Tokens(t.pending) == 0 && t.w.async.Started() == 0 && !t.w.answer.responded
    requires t.filter.hasWriter && !t.abi.completed && !t.filter.streamDone && t.trace.observed.None?
    requires t.def.bodyAware ==> t.filter.bodyDone
    ensures Inv(Pass(Flush(t, false))) && Pass(Flush(t, false)).w == t.w
  {
    PassDecides(t);
    var u := Pass(Flush(t, false));
    assert Inv(u) by {
      hide Pass, Flush;
    }
  }

  lemma HandlerReturned(t: Sys)
    requires Running(t) && Tokens(t.pending) == t.w.async.Started() <= 1 && !t.def.bodyAware
    requires t.filter.hasWriter && !t.abi.completed && !t.filter.streamDone && t.trace.observed.None?
    requires t.w.async.Started() > 0 || t.w.answer.responded
    ensures Inv(t)
  {
  }

  lemma HeadersKeep(s: Sys, script: seq<Op>)
    requires Inv(s) && !s.filter.hasWriter && !s.abi.completed
    requires OnRequestHeaders(s, script).w.async.Started() <= 1
    ensures Inv(OnRequestHeaders(s, script))
  {
    var s1 := s.(filter := s.filter.(hasWriter := true), w := FRESH_WRITER);
    if s.def.bodyAware {
      assert Inv(s1);
    } else {
      var t := RunOps(s1, script);
      assert Running(s1) && Tokens(s1.pending) == 0;
      FlushKeepsWriter(t);
      RunOpsKeeps(s1, script);
      if t.w.async.Started() > 0 || t.w.answer.responded {
        HandlerReturned(t);
      } else {
        SynchronousPass(t);
      }
    }
  }

  lemma ArrivalKeeps(s: Sys, endStream: bool)
    requires Inv(s) && !s.filter.hasWriter
    ensures Inv(Arrived(s, endStream))
  {
  }

  lemma FlushKeepsWriter(t: Sys)
    ensures Pass(Flush(t, false)).w == t.w && Flush(t, true).w == t.w
  {
  }

  // ----- body-aware handlers and observers -----

  lemma {:induction false} SynchronousOps(s: Sys, ops: seq<Op>)
    requires Synchronous(ops)
    ensures RunOps(s, ops).w.async == s.w.async
    decreases |ops|
  {
    if ops != [] {
      SynchronousOps(s, ops[..|ops| - 1]);
      SynchronousOp(RunOps(s, ops[..|ops| - 1]), ops[|ops| - 1]);
    }
  }

  lemma SynchronousOp(s: Sys, op: Op)
    requires !op.Async()
    ensures RunOp(s, op).w.async == s.w.async
  {
  }

  lemma BodyKeeps(s: Sys, endStream: bool, script: seq<Op>)
    requires Inv(s) && s.filter.hasWriter && !s.filter.bodyDone && !s.abi.completed
    requires s.def.bodyAware ==> Synchronous(script)
    ensures Inv(OnRequestBody(s, endStream, script))
  {
    if s.def.bodyAware && endStream {
      var s1 := s.(filter := s.filter.(bodyDone := true));
      var t := RunOps(s1, script);
      SynchronousOps(s1, script);
      assert Running(s1);
      RunOpsKeeps(s1, script);
      if t.w.answer.responded {
        AnsweredPass(t);
      } else {
        SynchronousPass(t);
      }
    } else if !s.def.bodyAware {
      var s1 := if endStream then s.(filter := s.filter.(bodyDone := true)) else s;
      assert Inv(s1);
      ReleaseKeeps(s1);
    }
  }

  lemma ReleaseKeeps(s: Sys)
    requires Inv(s) && !s.abi.completed
    ensures Inv(Release(s))
  {
    if Held(s) {
      ReleasedLog(s.trace, Release(s).trace, Passes(s));
    }
    hide Queued, Shape, LogIs, SomeFnLacking;
  }

  lemma ReleasedLog(t: Trace, u: Trace, passes: bool)
    requires LogIs(t, passes) && t.resolved.None? && t.observed.None? && !t.released
    requires u.resolved.None? && u.observed.None? && u.released && u.log == t.log + [Released]
    ensures LogIs(u, passes)
  {
  }

  lemma TrailersKeep(s: Sys)
    requires Inv(s) && !s.abi.completed
    ensures Inv(OnRequestTrailers(s))
  {
    var s1 := s.(trace := s.trace.(ended := true));
    assert Inv(s1);
    ReleaseKeeps(s1);
    hide Inv, Release;
  }

  /** A body-aware handler that answered still returns Continue. */
  lemma AnsweredPass(t: Sys)
    requires Running(t) && Tokens(t.pending) == 0 && t.w.async.Started() == 0 && t.w.answer.responded
    requires t.filter.hasWriter && !t.abi.completed && !t.filter.streamDone && t.trace.observed.None?
    requires t.def.bodyAware && t.filter.bodyDone
    ensures Inv(Pass(t))
  {
  }

  /** A quiet call only appends to a queue. */
  lemma QuietOp(s: Sys, op: Op)
    requires op.Quiet()
    ensures RunOp(s, op) == Record(s, op).(w := s.w.(queues := Enqueue(s.w.queues, s.w.answer.responded, op)))
  {
  }

  /** What a Send never touches. */
  lemma SendOutside(s: Sys, op: Op)
    requires op.Send?
    ensures SameOutside(s, RunOp(s, op)) && RunOp(s, op).pending == s.pending && RunOp(s, op).w.async == s.w.async
  {
  }

  /** A Send would not overrule a decision. */
  predicate Harmless(s: Sys) {
    s.trace.resolved.None? || s.w.answer.responded || s.w.async.goStarted
  }

  lemma QuietOpKeeps(s: Sys, op: Op)
    requires Inv(s) && op.Quiet() && s.def.observer && s.filter.hasWriter && !s.abi.completed
    ensures Inv(RunOp(s, op)) && SameOutside(s, RunOp(s, op))
    ensures Harmless(s) ==> Harmless(RunOp(s, op))
  {
    QuietOp(s, op);
    RunOpQueues(s, op);
    LackingSnoc(s.trace.issued, op);
  }

  lemma SendOpKeeps(s: Sys, op: Op)
    requires Inv(s) && op.Send? && s.def.observer && s.filter.hasWriter && !s.abi.completed
    requires Harmless(s)
    ensures Inv(RunOp(s, op)) && SameOutside(s, RunOp(s, op)) && Harmless(RunOp(s, op))
  {
    SendOutside(s, op);
    RunOpQueues(s, op);
    LackingSnoc(s.trace.issued, op);
    hide RunOp, Inv, Queued, SomeFnLacking;
    if s.w.answer.responded || s.w.async.goStarted {
      SilentOp(s, op);
      SilentSendKeeps(s, RunOp(s, op));
    } else {
      assert Queued(s) by { QueuedOf(s); }
      LoudSend(s, op);
      SendReplies(s, op);
      LoudSendKeeps(s, RunOp(s, op));
    }
  }

  lemma QueuedOf(s: Sys)
    requires Inv(s)
    ensures Queued(s)
  {
  }

  lemma SilentSendKeeps(s: Sys, t: Sys)
    requires Inv(s) && s.filter.hasWriter && !s.abi.completed && s.trace.issued <= t.trace.issued
    requires SameOutside(s, t) && t.pending == s.pending && t.w.async == s.w.async && t.w.Settled() == s.w.Settled()
    requires t.trace == s.trace.(issued := t.trace.issued) && s.def.observer
    requires Queued(t) && SomeFnLacking(t.trace.issued) == SomeFnLacking(s.trace.issued)
    ensures Inv(t)
  {
    hide Queued, Shape, SomeFnLacking, RequestLog, ResponseLog, HasSend;
  }

  lemma LoudSendKeeps(s: Sys, t: Sys)
    requires Inv(s) && s.filter.hasWriter && !s.abi.completed && s.trace.resolved.None?
    requires SameOutside(s, t) && t.pending == s.pending && t.w.async == s.w.async && t.w.Settled()
    requires t.trace.resolved == Some(Resolution(t.trace.issued, Continued)) && HasSend(t.trace.issued)
    requires t.trace.log == s.trace.log + [Replied(FirstReply(t.trace.issued))]
    requires !s.w.async.goStarted && Queued(t) && SomeFnLacking(t.trace.issued) == SomeFnLacking(s.trace.issued)
    ensures Inv(t)
  {
    hide Shape, SomeFnLacking, HasSend, FirstReply;
  }

  lemma SendReplies(s: Sys, op: Op)
    requires Queued(s) && op.Send? && !s.w.answer.responded
    ensures var ops := s.trace.issued + [op];
            HasSend(ops) && FirstReply(ops) == Reply(op.status % UINT32, s.w.queues.respHdrMuts, op.body)
  {
    FirstReplyIs(s.w.queues, s.trace.issued, s.trace.observed.Some?, op);
  }

  lemma {:induction false} ObserverKeeps(s: Sys, script: seq<Op>)
    requires Inv(s) && s.def.observer && s.filter.hasWriter && !s.abi.completed
    requires Synchronous(script) && (HasSend(script) ==> Harmless(s))
    ensures Inv(RunOps(s, script)) && SameOutside(s, RunOps(s, script))
    ensures Harmless(s) ==> Harmless(RunOps(s, script))
    decreases |script|
  {
    hide Inv, RunOp, Harmless, HasSend;
    if script != [] {
      var p, op := script[..|script| - 1], script[|script| - 1];
      assert script == p + [op];
      HasSendSnoc(p, op);
      ObserverKeeps(s, p);
      if op.Send? {
        SendOpKeeps(RunOps(s, p), op);
      } else {
        QuietOpKeeps(RunOps(s, p), op);
      }
    }
  }

  lemma ResponseKeeps(s: Sys, script: seq<Op>)
    requires Inv(s) && s.filter.hasWriter && !s.abi.completed && Disciplined(s, Response(script))
    ensures Inv(OnResponse(s, script))
  {
    hide Inv, RunOps, HasSend;
    if !s.abi.localResponseSent && s.def.observer {
      ObserverKeeps(s, script);
    }
  }

  lemma LocalReplyKeeps(s: Sys, details: string)
    requires Inv(s)
    ensures Inv(OnLocalReply(s, details))
  {
  }

  // ----- the goroutine and the scheduler -----

  lemma GoOpKeeps(s: Sys, op: Op)
    requires Inv(s) && s.pending.goRunning && RunOp(s, op).w.async.Started() <= 1
    ensures Inv(RunOp(s, op))
  {
    TokenMeansRunning(s);
    RunOpKeeps(s, op);
    StartGrows(s, op);
    InFlightInv(s, RunOp(s, op));
  }

  /** A script ran while the token stays outstanding. */
  lemma InFlightInv(s: Sys, t: Sys)
    requires Inv(s) && Tokens(s.pending) == 1 && SameOutside(s, t)
    requires Running(t) && t.w.async.Started() == s.w.async.Started() == 1 && Tokens(t.pending) == 1
    ensures Inv(t)
  {
  }

  lemma GoReturnKeeps(s: Sys)
    requires Inv(s) && s.pending.goRunning
    ensures Inv(OnGoReturn(s))
    ensures OnGoReturn(s).pending.tasks == {s.pending.nextTask} && !OnGoReturn(s).pending.goRunning
    ensures OnGoReturn(s).trace == s.trace
  {
    assert s.pending.callouts == {} && s.pending.streams == {} && s.pending.tasks == {};
  }

  lemma OneTask(p: Pending, id: nat)
    requires Tokens(p) <= 1 && id in p.tasks
    ensures p.callouts == {} && p.streams == {} && !p.goRunning && p.tasks - {id} == {}
  {
    assert |p.tasks - {id}| == |p.tasks| - 1;
  }

  lemma OneCallout(p: Pending, id: nat)
    requires Tokens(p) <= 1 && id in p.callouts
    ensures p.tasks == {} && p.streams == {} && !p.goRunning && p.callouts - {id} == {}
  {
    assert |p.callouts - {id}| == |p.callouts| - 1;
  }

  lemma OneStream(p: Pending, id: nat)
    requires Tokens(p) <= 1 && id in p.streams
    ensures p.tasks == {} && p.callouts == {} && !p.goRunning && p.streams - {id} == {}
  {
    assert |p.streams - {id}| == |p.streams| - 1;
  }

  /** After the last script of an asynchronous operation, flushing decides. */
  lemma ResumptionDecides(t: Sys)
    requires Running(t) && Tokens(t.pending) == 0 && t.w.async.Started() == 1 && !t.def.bodyAware
    requires t.filter.hasWriter && !t.abi.completed && !t.filter.streamDone && t.trace.observed.None?
    ensures Inv(Flush(t, true)) && Flush(t, true).trace.resolved.Some?
  {
    FlushDecides(t);
    var u := Flush(t, true);
    hide Flush;
    DecidedInv(t, u);
  }

  lemma ScheduledKeeps(s: Sys, id: nat)
    requires Inv(s) && s.w.async.Started() <= 1
    ensures Inv(OnScheduled(s, id))
    ensures !s.abi.completed && id in s.pending.tasks ==> OnScheduled(s, id).trace.resolved.Some?
  {
    if s.filter.hasWriter && !s.abi.completed && id in s.pending.tasks {
      TokenMeansRunning(s);
      OneTask(s.pending, id);
      var t := Ran(DropTask(s, id), TaskRan);
      assert Running(t) && Tokens(t.pending) == 0;
      ResumptionDecides(t);
    }
  }

  lemma CalloutDoneKeeps(s: Sys, id: nat, script: seq<Op>)
    requires Inv(s) && s.w.async.Started() <= 1 && OnCalloutDone(s, id, script).w.async.Started() <= 1
    ensures Inv(OnCalloutDone(s, id, script))
    ensures !s.abi.completed && id in s.pending.callouts && s.w.async.calloutFn ==>
              OnCalloutDone(s, id, script).trace.resolved.Some?
  {
    if !s.abi.completed && id in s.pending.callouts {
      TokenMeansRunning(s);
      OneCallout(s.pending, id);
      if !s.w.async.calloutFn {
        DropKeeps(s, DropCallout(s, id));
        return;
      }
      var s1 := Ran(ClearCalloutFn(DropCallout(s, id)), CalloutRan);
      assert Running(s1) && Tokens(s1.pending) == 0;
      var t := RunOps(s1, script);
      FlushKeepsWriter(t);
      ResumeKeeps(s1, t, script);
      ResumptionDecides(t);
    }
  }

  /** A token consumed without a continuation: the request stays as it was. */
  lemma DropKeeps(s: Sys, t: Sys)
    requires Inv(s) && SomeFnLacking(s.trace.issued) && t == s.(pending := t.pending)
    requires t.pending.callouts == {} && t.pending.streams == {} && t.pending.tasks == {} && !t.pending.goRunning
    ensures Inv(t)
  {
  }

  // ----- streams -----

  lemma StreamEventKeeps(s: Sys, id: nat, script: seq<Op>)
    requires Inv(s) && s.w.async.Started() <= 1 && OnStreamEvent(s, id, script).w.async.Started() <= 1
    ensures Inv(OnStreamEvent(s, id, script))
  {
    if !s.abi.completed && id in s.pending.streams && s.w.async.streamEventFn {
      TokenMeansRunning(s);
      OneStream(s.pending, id);
      var s1 := Ran(s, StreamRan);
      assert Inv(s1) && Running(s1) && Tokens(s1.pending) == 1;
      StartedGrows(s1, script);
      RunOpsKeeps(s1, script);
      InFlightInv(s1, RunOps(s1, script));
    }
  }

  lemma LastEventKeeps(s: Sys, id: nat, script: seq<Op>)
    requires Inv(s) && !s.abi.completed && id in s.pending.streams && s.w.async.Started() <= 1
    requires s.w.async.streamEventFn
    requires LastStreamEvent(DropStream(s, id), script).w.async.Started() <= 1
    ensures var t := LastStreamEvent(DropStream(s, id), script);
            && Running(t) && Tokens(t.pending) == 0 && t.w.async.Started() == 1 && !t.def.bodyAware
            && t.filter.hasWriter && !t.abi.completed && !t.filter.streamDone && t.trace.observed.None?
            && !t.w.async.goStarted
    ensures s.filter.hasWriter && !s.filter.streamDone
  {
    TokenMeansRunning(s);
    OneStream(s.pending, id);
    var s1 := Ran(DropStream(s, id), StreamRan);
    assert Running(s1) && Tokens(s1.pending) == 0;
    ResumeKeeps(s1, RunOps(s1, script), script);
    StreamStays(s1, script);
  }

  lemma {:induction false} StreamStays(s: Sys, ops: seq<Op>)
    requires s.w.async.streamStarted
    ensures RunOps(s, ops).w.async.streamStarted
    decreases |ops|
  {
    if ops != [] {
      StreamStays(s, ops[..|ops| - 1]);
      StreamStays1(RunOps(s, ops[..|ops| - 1]), ops[|ops| - 1]);
    }
  }

  lemma StreamStays1(s: Sys, op: Op)
    requires s.w.async.streamStarted
    ensures RunOp(s, op).w.async.streamStarted
  {
  }

  lemma StreamCompleteKeeps(s: Sys, id: nat, script: seq<Op>)
    requires Inv(s) && s.w.async.Started() <= 1 && OnStreamComplete(s, id, script).w.async.Started() <= 1
    ensures Inv(OnStreamComplete(s, id, script))
    ensures !s.abi.completed && id in s.pending.streams ==> OnStreamComplete(s, id, script).trace.resolved.Some?
  {
    if !s.abi.completed && id in s.pending.streams {
      TokenMeansRunning(s);
      if !s.w.async.streamEventFn {
        OneStream(s.pending, id);
        FlushKeepsWriter(DropStream(s, id));
        ResumptionDecides(DropStream(s, id));
        return;
      }
      var t := LastStreamEvent(DropStream(s, id), script);
      FlushKeepsWriter(t);
      assert OnStreamComplete(s, id, script) == Flush(t, true);
      hide LastStreamEvent, Flush, OnStreamComplete;
      LastEventKeeps(s, id, script);
      ResumptionDecides(t);
    }
  }

  lemma StreamResetKeeps(s: Sys, id: nat, script: seq<Op>)
    requires Inv(s) && s.w.async.Started() <= 1 && OnStreamReset(s, id, script).w.async.Started() <= 1
    ensures Inv(OnStreamReset(s, id, script))
    ensures !s.abi.completed && id in s.pending.streams && s.w.async.streamEventFn ==>
              OnStreamReset(s, id, script).trace.resolved.Some?
  {
    if !s.abi.completed && id in s.pending.streams {
      TokenMeansRunning(s);
      if !s.w.async.streamEventFn {
        OneStream(s.pending, id);
        DropKeeps(s, DropStream(s, id));
        return;
      }
      var t := LastStreamEvent(DropStream(s, id), script);
      FlushKeepsWriter(t);
      assert OnStreamReset(s, id, script) == Flush(t, !t.w.answer.responded);
      hide LastStreamEvent, OnStreamReset;
      LastEventKeeps(s, id, script);
      assert Flush(t, !t.w.answer.responded) == Flush(t, true);
      hide Flush;
      ResumptionDecides(t);
    }
  }

  // ----- the end of the stream -----

  lemma FlushResponseKeeps(s: Sys)
    requires Inv(s) && s.abi.completed && s.def.observer && s.trace.observed.None? && s.filter.hasWriter
    ensures Inv(FlushResponse(s))
  {
    CompletionLog(s, FlushResponse(s));
    hide LogIs, Shape, SomeFnLacking, Tokens;
  }

  lemma CompletionLog(s: Sys, t: Sys)
    requires Inv(s) && s.trace.observed.None? && t == FlushResponse(s)
    ensures LogIs(t.trace, Passes(t))
  {
    hide RequestLog, MetaEffects, MetricEffects, Metas, Metrics, Shape, Tokens;
  }

  lemma CancelKeeps(s: Sys)
    requires Inv(s)
    ensures Inv(CancelGo(s))
  {
  }

  lemma CompleteKeeps(s: Sys)
    requires Inv(s) && !s.abi.completed
    ensures Inv(OnComplete(s))
  {
    var s1 := MarkComplete(s);
    assert Inv(s1);
    if s.def.observer && s.filter.hasWriter {
      FlushResponseKeeps(s1);
      CancelKeeps(FlushResponse(s1));
    } else {
      CancelKeeps(s1);
    }
  }

  lemma StepKeeps(s: Sys, e: Event)
    requires Inv(s) && Orderly(s, e) && Disciplined(s, e)
    requires s.w.async.Started() <= 1 && Step(s, e).w.async.Started() <= 1
    ensures Inv(Step(s, e))
  {
    hide Inv, RunOp, RunOps, OnRequestHeaders, OnRequestBody, OnRequestTrailers, OnResponse, OnLocalReply,
         OnGoReturn, OnScheduled, OnCalloutDone, OnStreamEvent, OnStreamComplete, OnStreamReset, OnComplete;
    match e
    case RequestHeaders(endStream, script) =>
      ArrivalKeeps(s, endStream);
      HeadersKeep(Arrived(s, endStream), script);
    case RequestBody(endStream, script) => BodyKeeps(s, endStream, script);
    case RequestTrailers => TrailersKeep(s);
    case Response(script) => ResponseKeeps(s, script);
    case LocalReplyNotice(details) => LocalReplyKeeps(s, details);
    case GoOp(op) => GoOpKeeps(s, op);
    case GoReturn => GoReturnKeeps(s);
    case Scheduled(id) => ScheduledKeeps(s, id);
    case CalloutDone(id, script) => CalloutDoneKeeps(s, id, script);
    case StreamEvent(id, script) => StreamEventKeeps(s, id, script);
    case StreamComplete(id, script) => StreamCompleteKeeps(s, id, script);
    case StreamReset(id, script) => StreamResetKeeps(s, id, script);
    case Complete => CompleteKeeps(s);
    case Destroy => DestroyKeeps(s);
  }

  lemma DestroyKeeps(s: Sys)
    requires Inv(s)
    ensures Inv(s.(abi := s.abi.(destroyed := true)))
  {
  }
}
