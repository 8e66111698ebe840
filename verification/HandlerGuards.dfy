/** What a handler's request can still come to, and how one operation can be
    enough to resolve it twice. */
module HandlerGuards {
  import opened WriterModel
  import opened Lifecycle
  import opened LifecycleInvariant
  import opened LifecycleTheorems
  import opened Observers
  import opened Reachable
  import opened RequestEnd
  import opened Deliveries
  import opened ResolutionBudget
  import opened AsyncGuards

  // ----- right after the handler -----

  /** The operations a handler left in flight, without those whose callback would
      resume nothing. */
  function InFlight(a: AsyncState): nat {
    (if a.calloutFn then 1 else 0) + (if a.streamStarted then 1 else 0) + (if a.goStarted then 1 else 0)
  }

  /** While the handler runs, every started operation is in flight. */
  predicate Handling(s: Sys) {
    && Reach(s) && s.filter.hasWriter && !s.abi.completed
    && |s.pending.callouts| == (if s.w.async.calloutStarted then 1 else 0)
    && |s.pending.streams| == (if s.w.async.streamStarted then 1 else 0)
    && s.pending.goRunning == s.w.async.goStarted && s.pending.tasks == {}
    && Resolutions(s.trace.log) == (if s.w.Settled() then 1 else 0)
    && (s.trace.resolved.Some? <==> s.w.Settled()) && !s.trace.released && !s.filter.bodyDone
  }

  lemma HandlingOp(s: Sys, op: Op)
    requires Handling(s)
    ensures Handling(RunOp(s, op))
  {
    hide Resolutions;
    OpReach(s, op);
    if s.w.Settled() {
      SilentOp(s, op);
    } else {
      OpBudget(s, op);
    }
  }

  lemma {:induction false} HandlingOps(s: Sys, ops: seq<Op>)
    requires Handling(s)
    ensures Handling(RunOps(s, ops))
    decreases |ops|
  {
    hide Handling, RunOp;
    if ops != [] {
      HandlingOps(s, ops[..|ops| - 1]);
      HandlingOp(RunOps(s, ops[..|ops| - 1]), ops[|ops| - 1]);
    }
  }

  /** A handler's request can be resolved twice without anything more being started
      if and only if it did not answer on the spot and left two operations in
      flight, or one while more of the request is to come: the first body or
      trailers callback then releases the request, and the operation continues it
      again. */
  lemma HandlerResolvedTwiceIff(def: Def, endStream: bool, script: seq<Op>)
    requires !def.bodyAware
    ensures var s := Exec(def, [RequestHeaders(endStream, script)]);
            CanResolveTwice(s) <==>
            !s.w.Settled() && InFlight(s.w.async) + (if endStream then 0 else 1) >= 2
  {
    var s := OnRequestHeaders(Arrived(InitSys(def), endStream), script);
    hide OnRequestHeaders, Resolutions;
    FirstStep(def, endStream, script);
    HandlerLeaves(def, endStream, script);
    ResolvedTwiceIff(def, [RequestHeaders(endStream, script)]);
  }

  lemma FirstStep(def: Def, endStream: bool, script: seq<Op>)
    ensures var run := [RequestHeaders(endStream, script)];
            && OrderlyFrom(InitSys(def), run) && DisciplinedFrom(InitSys(def), run)
            && Exec(def, run) == OnRequestHeaders(Arrived(InitSys(def), endStream), script)
  {
    hide OnRequestHeaders;
    assert [RequestHeaders(endStream, script)][..0] == [];
  }

  /** What a handler leaves, due or resolved. */
  predicate Left(s: Sys, endStream: bool) {
    && s.filter.hasWriter && !s.abi.completed && Live(s) == InFlight(s.w.async)
    && (s.w.Settled() ==> Resolutions(s.trace.log) == 1)
    && (!s.w.Settled() && InFlight(s.w.async) > 0 ==>
          Resolutions(s.trace.log) == 0 && Releasable(s) == if endStream then 0 else 1)
    && Resolutions(s.trace.log) + Releasable(s) <= 1
  }

  lemma HandlerLeaves(def: Def, endStream: bool, script: seq<Op>)
    requires !def.bodyAware
    ensures Left(OnRequestHeaders(Arrived(InitSys(def), endStream), script), endStream)
  {
    var s0 := Arrived(InitSys(def), endStream);
    var s1 := s0.(filter := s0.filter.(hasWriter := true), w := FRESH_WRITER);
    assert Handling(s1);
    HandlingOps(s1, script);
    OpsSameBody(s1, script);
    var t := RunOps(s1, script);
    hide RunOps, Handling, Left;
    if t.w.async.Started() > 0 || t.w.answer.responded {
      StoppedLeaves(t, endStream);
    } else {
      PassedLeaves(t, endStream);
    }
  }

  lemma StoppedLeaves(t: Sys, endStream: bool)
    requires Handling(t) && t.trace.ended == endStream
    ensures Left(t, endStream)
  {
    hide Resolutions;
  }

  lemma PassedLeaves(t: Sys, endStream: bool)
    requires Handling(t) && t.w.async.Started() == 0 && !t.w.answer.responded
    ensures Left(Pass(Flush(t, false)), endStream)
  {
    PassResolves(t);
    assert Pass(Flush(t, false)).trace.resolved.Some?;
    hide Resolutions, Flush, Pass;
  }

  // ----- one operation is not enough of a guard -----

  const ONE_CALLOUT: seq<Op> := [Callout(Accepted(0), true)]

  /** A handler that starts one callout, whose continuation calls Go, for a request
      without a body: delivering the callout alone cannot resolve the request twice,
      but the callout and the goroutine each continue it. */
  lemma CalloutThenGo(def: Def)
    requires !def.bodyAware
    ensures var s := Exec(def, [RequestHeaders(true, ONE_CALLOUT)]);
            var rest := [CalloutDone(0, GO), GoReturn, Scheduled(0)];
            && s.w.async.Started() == 1 && !CanResolveTwice(s)
            && OrderlyFrom(s, rest) && DisciplinedFrom(s, rest)
            && Resolutions(Resume(s, rest).trace.log) == 2
  {
    var s := Exec(def, [RequestHeaders(true, ONE_CALLOUT)]);
    CalloutPaused(def, true);
    HandlerResolvedTwiceIff(def, true, ONE_CALLOUT);
    hide Exec, Step, Resolutions, Reach, CanResolveTwice, Live;
    CalloutContinues(s);
    var t := Step(s, CalloutDone(0, GO));
    GoReturns(t);
    LastTask(t);
    var u := Step(t, GoReturn);
    TaskFires(u, 0);
    DeliverLast(u, Scheduled(0));
    Prepend(t, GoReturn, [Scheduled(0)]);
    assert [GoReturn] + [Scheduled(0)] == [GoReturn, Scheduled(0)];
    Prepend(s, CalloutDone(0, GO), [GoReturn, Scheduled(0)]);
    assert [CalloutDone(0, GO)] + [GoReturn, Scheduled(0)] == [CalloutDone(0, GO), GoReturn, Scheduled(0)];
  }

  lemma CalloutPaused(def: Def, endStream: bool)
    requires !def.bodyAware
    ensures var s := Exec(def, [RequestHeaders(endStream, ONE_CALLOUT)]);
            && Ready(s) && s.trace.log == [] && s.pending == Pending({0}, {}, false, {}, 0)
            && s.w.async == AsyncState(false, false, true, true, false, false) && !s.abi.destroyed
            && s.def == def && !s.w.answer.responded && !s.abi.localResponseSent
            && Releasable(s) == if endStream then 0 else 1
  {
    FirstStep(def, endStream, ONE_CALLOUT);
    RunReaches(def, [RequestHeaders(endStream, ONE_CALLOUT)]);
    var s0 := Arrived(InitSys(def), endStream);
    var s1 := s0.(filter := s0.filter.(hasWriter := true), w := FRESH_WRITER);
    OneCall(s1, ONE_CALLOUT[0]);
    hide Exec, Reach;
  }

  lemma CalloutContinues(s: Sys)
    requires Ready(s) && s.trace.log == [] && s.pending == Pending({0}, {}, false, {}, 0)
    requires s.w.async == AsyncState(false, false, true, true, false, false)
    ensures var t := Step(s, CalloutDone(0, GO));
            && Ready(t) && Resolutions(t.trace.log) == 1 && t.pending.goRunning && t.pending.nextTask == 0
            && !t.abi.destroyed
  {
    CalloutGoes(s, 0);
    var s1 := Ran(ClearCalloutFn(DropCallout(s, 0)), CalloutRan);
    OneCall(s1, Go);
    FlushUntouched(RunOp(s1, Go), true);
    hide Flush, Resolutions;
  }

  lemma LastTask(t: Sys)
    requires Ready(t) && t.pending.goRunning && t.pending.nextTask == 0 && !t.abi.destroyed
    ensures 0 in Step(t, GoReturn).pending.tasks && !Step(t, GoReturn).abi.destroyed
  {
  }

  /** One callout, and a body: its first callback releases the request, and the end
      of the callout continues it again. */
  lemma BodyThenCallout(def: Def, endOfBody: bool)
    requires !def.bodyAware
    ensures var s := Exec(def, [RequestHeaders(false, ONE_CALLOUT)]);
            var rest := [RequestBody(endOfBody, []), CalloutDone(0, [])];
            && OrderlyFrom(s, rest) && DisciplinedFrom(s, rest) && Resume(s, rest).w.async.Started() == 1
            && Resolutions(Resume(s, rest).trace.log) == 2
  {
    var s := Exec(def, [RequestHeaders(false, ONE_CALLOUT)]);
    var e, f := RequestBody(endOfBody, []), CalloutDone(0, []);
    CalloutPaused(def, false);
    hide Exec, Resolutions, Reach, Live;
    BodyReleases(s, endOfBody);
    CalloutFires(Step(s, e), 0);
    hide Step;
    DeliverLast(Step(s, e), f);
    Prepend(s, e, [f]);
    assert [e] + [f] == [e, f];
  }

  lemma BodyReleases(s: Sys, endOfBody: bool)
    requires Ready(s) && Releasable(s) == 1 && !s.abi.destroyed
    ensures var e := RequestBody(endOfBody, []);
            var t := Step(s, e);
            && Orderly(s, e) && Ready(t) && Resolutions(t.trace.log) == Resolutions(s.trace.log) + 1
            && t.w == s.w && t.pending == s.pending && t.abi == s.abi && t.def == s.def
  {
    StepReach(s, RequestBody(endOfBody, []));
    hide Resolutions, Reach;
    ResolutionsConcat(s.trace.log, [Released]);
    OneResolves(Released);
  }

  const OBSERVED := Def(false, true)

  /** One callout, continued; then the observer sends a reply: two resolutions
      with a single asynchronous operation. */
  lemma ObserverMayAnswerAgain(script: seq<Op>)
    requires Synchronous(script) && HasSend(script)
    ensures var s := Exec(OBSERVED, [RequestHeaders(false, ONE_CALLOUT)]);
            var rest := [CalloutDone(0, []), Response(script)];
            && OrderlyFrom(s, rest) && Resume(s, rest).w.async.Started() == 1
            && Resolutions(Resume(s, rest).trace.log) == 2
  {
    var s := Exec(OBSERVED, [RequestHeaders(false, ONE_CALLOUT)]);
    var e := CalloutDone(0, []);
    CalloutPaused(OBSERVED, false);
    hide Exec, Resolutions, Reach, Live, HasSend;
    CalloutFires(s, 0);
    StillUnanswered(s);
    ObserverSendsNow(Step(s, e), script);
    hide Step;
    DeliverLast(Step(s, e), Response(script));
    Prepend(s, e, [Response(script)]);
    assert [e] + [Response(script)] == [e, Response(script)];
  }

  lemma StillUnanswered(s: Sys)
    requires Ready(s) && SendsAtOnce(s) && !s.abi.localResponseSent && !s.abi.destroyed
    ensures var t := Step(s, CalloutDone(0, []));
            && SendsAtOnce(t) && !t.abi.localResponseSent && !t.abi.destroyed && t.def == s.def
  {
    hide QueueEffects, Resolutions;
  }

  lemma ObserverSendsNow(t: Sys, script: seq<Op>)
    requires SendsAtOnce(t) && t.def.observer && !t.abi.localResponseSent && Synchronous(script) && HasSend(script)
    ensures var u := Step(t, Response(script));
            && u.w.async == t.w.async && Resolutions(u.trace.log) == Resolutions(t.trace.log) + 1
  {
    hide RunOps, Resolutions;
    NothingStarts(t, script);
    ScriptResolves(t, script);
  }
}
