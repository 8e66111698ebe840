/** What holds of one request over every run. */
module LifecycleTheorems {
  import opened WriterModel
  import opened Lifecycle
  import opened LifecycleInvariant
  import opened LifecyclePreservation

  /** A run Envoy may produce, with at most one asynchronous operation. */
  predicate GoodRun(def: Def, events: seq<Event>) {
    && OrderlyFrom(InitSys(def), events)
    && DisciplinedFrom(InitSys(def), events)
    && Exec(def, events).w.async.Started() <= 1
  }

  // ----- every run keeps the invariant -----

  predicate Untouched(s: Sys) {
    && (!s.filter.hasWriter ==> s.w == FRESH_WRITER)
    && (s.pending.goRunning ==> s.w.async.goStarted)
  }

  lemma RunOpUntouched(s: Sys, op: Op)
    ensures RunOp(s, op).filter == s.filter && RunOp(s, op).def == s.def
    ensures s.pending.goRunning ==> RunOp(s, op).pending.goRunning
    ensures (s.pending.goRunning ==> s.w.async.goStarted) ==>
              (RunOp(s, op).pending.goRunning ==> RunOp(s, op).w.async.goStarted)
  {
  }

  lemma {:induction false} RunOpsUntouched(s: Sys, ops: seq<Op>)
    requires s.pending.goRunning ==> s.w.async.goStarted
    ensures RunOps(s, ops).filter == s.filter && RunOps(s, ops).def == s.def
    ensures RunOps(s, ops).pending.goRunning ==> RunOps(s, ops).w.async.goStarted
    decreases |ops|
  {
    hide RunOp;
    if ops != [] {
      RunOpsUntouched(s, ops[..|ops| - 1]);
      RunOpUntouched(RunOps(s, ops[..|ops| - 1]), ops[|ops| - 1]);
    }
  }

  lemma FlushUntouched(s: Sys, cont: bool)
    ensures Flush(s, cont).w == s.w && Flush(s, cont).filter == s.filter && Flush(s, cont).pending == s.pending
    ensures Flush(s, cont).def == s.def && Flush(s, cont).abi.completed == s.abi.completed
    ensures Pass(s).w == s.w && Pass(s).filter == s.filter && Pass(s).pending == s.pending
    ensures Pass(s).def == s.def && Pass(s).abi.completed == s.abi.completed
  {
  }

  lemma HeadersGrow(s: Sys, script: seq<Op>)
    requires Untouched(s) && !s.filter.hasWriter
    ensures s.w.async.Started() <= OnRequestHeaders(s, script).w.async.Started()
    ensures Untouched(OnRequestHeaders(s, script))
    ensures OnRequestHeaders(s, script).def == s.def
  {
    var s1 := s.(filter := s.filter.(hasWriter := true), w := FRESH_WRITER);
    var t := RunOps(s1, script);
    StartedGrows(s1, script);
    RunOpsUntouched(s1, script);
    FlushUntouched(t, false);
    FlushUntouched(Flush(t, false), false);
  }

  lemma ScriptGrows(s: Sys, script: seq<Op>, c: Continuation)
    requires Untouched(s) && s.filter.hasWriter
    ensures forall t | t == RunOps(Ran(s, c), script) ::
              s.w.async.Started() <= t.w.async.Started() && Untouched(t) && t.filter == s.filter && t.def == s.def
    ensures forall t | t == RunOps(s, script) ::
              s.w.async.Started() <= t.w.async.Started() && Untouched(t) && t.filter == s.filter && t.def == s.def
  {
    StartedGrows(s, script);
    StartedGrows(Ran(s, c), script);
    RunOpsUntouched(s, script);
    RunOpsUntouched(Ran(s, c), script);
  }

  lemma BodyGrows(s: Sys, endStream: bool, script: seq<Op>)
    requires Untouched(s) && s.filter.hasWriter
    ensures s.w.async.Started() <= OnRequestBody(s, endStream, script).w.async.Started()
    ensures Untouched(OnRequestBody(s, endStream, script)) && OnRequestBody(s, endStream, script).def == s.def
  {
    var s1 := s.(filter := s.filter.(bodyDone := true));
    ScriptGrows(s1, script, TaskRan);
    var t := RunOps(s1, script);
    hide RunOps;
    FlushUntouched(t, false);
    FlushUntouched(if t.w.answer.responded then t else Flush(t, false), false);
  }

  lemma CalloutGrows(s: Sys, id: nat, script: seq<Op>)
    requires Untouched(s)
    ensures s.w.async.Started() <= OnCalloutDone(s, id, script).w.async.Started()
    ensures Untouched(OnCalloutDone(s, id, script)) && OnCalloutDone(s, id, script).def == s.def
  {
    var s1 := ClearCalloutFn(DropCallout(s, id));
    if s.filter.hasWriter {
      ScriptGrows(s1, script, CalloutRan);
      FlushUntouched(RunOps(Ran(s1, CalloutRan), script), true);
    }
  }

  lemma StreamGrows(s: Sys, id: nat, script: seq<Op>, cont: bool)
    requires Untouched(s) && s.filter.hasWriter
    ensures var t := Flush(LastStreamEvent(DropStream(s, id), script), cont);
            s.w.async.Started() <= t.w.async.Started() && Untouched(t) && t.def == s.def
  {
    ScriptGrows(DropStream(s, id), script, StreamRan);
    FlushUntouched(LastStreamEvent(DropStream(s, id), script), cont);
  }

  lemma StreamEventsGrow(s: Sys, id: nat, script: seq<Op>)
    requires Untouched(s)
    ensures s.w.async.Started() <= OnStreamComplete(s, id, script).w.async.Started()
    ensures Untouched(OnStreamComplete(s, id, script)) && OnStreamComplete(s, id, script).def == s.def
    ensures s.w.async.Started() <= OnStreamReset(s, id, script).w.async.Started()
    ensures Untouched(OnStreamReset(s, id, script)) && OnStreamReset(s, id, script).def == s.def
  {
    if s.filter.hasWriter {
      StreamGrows(s, id, script, true);
      StreamGrows(s, id, script, false);
      FlushUntouched(DropStream(s, id), true);
      hide LastStreamEvent, Flush;
    }
  }

  lemma StepGrows(s: Sys, e: Event)
    requires Untouched(s) && Orderly(s, e)
    ensures s.w.async.Started() <= Step(s, e).w.async.Started() && Untouched(Step(s, e))
    ensures Step(s, e).def == s.def
  {
    hide RunOps, OnRequestHeaders, OnRequestBody, OnCalloutDone, OnStreamComplete, OnStreamReset, Flush, RunOp,
         OnComplete;
    match e
    case RequestHeaders(endStream, script) => HeadersGrow(Arrived(s, endStream), script);
    case RequestBody(endStream, script) => BodyGrows(s, endStream, script);
    case RequestTrailers =>
    case Response(script) => ScriptGrows(s, script, TaskRan);
    case GoOp(op) => StartGrows(s, op); RunOpUntouched(s, op);
    case Scheduled(id) => FlushUntouched(Ran(DropTask(s, id), TaskRan), true);
    case CalloutDone(id, script) => CalloutGrows(s, id, script);
    case StreamEvent(id, script) => if s.filter.hasWriter { ScriptGrows(s, script, StreamRan); }
    case StreamComplete(id, script) => StreamEventsGrow(s, id, script);
    case StreamReset(id, script) => StreamEventsGrow(s, id, script);
    case Complete => CompleteGrows(s);
    case _ =>
  }

  lemma CompleteGrows(s: Sys)
    requires Untouched(s)
    ensures s.w.async.Started() <= OnComplete(s).w.async.Started() && Untouched(OnComplete(s))
    ensures OnComplete(s).def == s.def
  {
  }

  lemma {:induction false} RunGrows(def: Def, events: seq<Event>)
    requires OrderlyFrom(InitSys(def), events)
    ensures Untouched(Exec(def, events)) && Exec(def, events).def == def
    ensures events != [] ==> Exec(def, events[..|events| - 1]).w.async.Started() <= Exec(def, events).w.async.Started()
    decreases |events|
  {
    hide Step;
    if events != [] {
      var p, e := events[..|events| - 1], events[|events| - 1];
      RunGrows(def, p);
      StepGrows(Exec(def, p), e);
    }
  }

  lemma {:induction false} RunKeeps(def: Def, events: seq<Event>)
    requires GoodRun(def, events)
    ensures Inv(Exec(def, events)) && Exec(def, events).def == def
    decreases |events|
  {
    hide Step, Inv, Orderly, Disciplined;
    RunGrows(def, events);
    if events == [] {
      InitKeeps(def);
    } else {
      var p, e := events[..|events| - 1], events[|events| - 1];
      RunKeeps(def, p);
      StepKeeps(Exec(def, p), e);
    }
  }

  lemma InitKeeps(def: Def)
    ensures Inv(InitSys(def))
  {
  }

  // ----- at most one resolution -----

  lemma OneDecides(e: Effect)
    ensures Decisions([e]) == (if e.Decides() then 1 else 0)
  {
  }

  lemma RequestLogDecides(r: Resolution, passes: bool)
    requires r.via == Continued || r.via == Passed
    requires HasSend(r.ops) ==> r.via == Continued
    ensures Decisions(RequestLog(r, passes)) == (if r.via == Continued then 1 else 0)
    ensures Passed in RequestLog(r, passes) <==> r.via == Passed || (passes && HasSend(r.ops))
    ensures Released !in RequestLog(r, passes)
  {
    hide Decisions, Mutations;
    MutationsDecideNothing(r.ops);
    DecisionsConcat(Mutations(r.ops), [r.via]);
    OneDecides(r.via);
    OneDecides(Passed);
    if HasSend(r.ops) {
      var reply := Replied(FirstReply(r.ops));
      OneDecides(reply);
      DecisionsConcat([reply], [Passed]);
      assert [reply] + [] == [reply];
    }
  }

  lemma ResponseLogDecides(ops: seq<Op>)
    ensures Decisions(ResponseLog(ops)) == 0 && Passed !in ResponseLog(ops) && Released !in ResponseLog(ops)
  {
    MetaEffectsDecideNothing(Metas(BeforeSend(ops)));
    MetricEffectsDecideNothing(Metrics(ops));
    NoDecision(ResponseLog(ops));
  }

  function RequestPart(s: Sys): seq<Effect> {
    match s.trace.resolved case None => [] case Some(r) => RequestLog(r, Passes(s))
  }

  function ResponsePart(s: Sys): seq<Effect> {
    match s.trace.observed case None => [] case Some(ops) => ResponseLog(ops)
  }

  /** The host saw a release, then the decision, then the completion. */
  lemma LogParts(s: Sys)
    requires Inv(s)
    ensures s.trace.log == ReleaseLog(s.trace.released) + RequestPart(s) + ResponsePart(s)
  {
  }

  /** The log of an invariant state decides as often as the request was decided. */
  lemma LogDecides(s: Sys)
    requires Inv(s)
    ensures Released in s.trace.log <==> s.trace.released
    ensures s.trace.resolved.None? ==> Decisions(s.trace.log) == 0 && Passed !in s.trace.log
    ensures s.trace.resolved.Some? ==>
              var r := s.trace.resolved.value;
              && Decisions(s.trace.log) == (if r.via == Continued then 1 else 0)
              && (Passed in s.trace.log <==> r.via == Passed || (Passes(s) && HasSend(r.ops)))
  {
    LogParts(s);
    var r, a, b := ReleaseLog(s.trace.released), RequestPart(s), ResponsePart(s);
    DecisionsConcat(r, a);
    DecisionsConcat(r + a, b);
    if s.trace.resolved.Some? {
      ResolutionVia(s);
      RequestLogDecides(s.trace.resolved.value, Passes(s));
    }
    if s.trace.observed.Some? {
      ResponseLogDecides(s.trace.observed.value);
    }
    ReleaseLogDecides(s.trace.released);
    hide Inv, Decisions, RequestLog, ResponseLog, ReleaseLog;
  }

  lemma ReleaseLogDecides(released: bool)
    ensures Decisions(ReleaseLog(released)) == 0 && Passed !in ReleaseLog(released)
    ensures Released in ReleaseLog(released) <==> released
  {
    OneDecides(Released);
  }

  /** The request was sent on by a body or trailers callback and also decided. */
  predicate DoublyResolved(s: Sys) {
    s.trace.released && s.trace.resolved.Some?
  }

  /** ContinueRequest and SendLocalResponse together happen at most once. Counting
      the Continue that callbacks return, a filter that is not body-aware resolves
      at most once if and only if no body or trailers callback released its request
      before it was decided. */
  lemma AtMostOneResolution(def: Def, events: seq<Event>)
    requires GoodRun(def, events)
    ensures Decisions(Exec(def, events).trace.log) <= 1
    ensures !def.bodyAware ==>
              (Resolutions(Exec(def, events).trace.log) <= 1 <==> !DoublyResolved(Exec(def, events)))
  {
    hide Exec, Inv, Decisions, Resolutions;
    RunKeeps(def, events);
    LogDecides(Exec(def, events));
    LogResolves(Exec(def, events));
  }

  lemma RequestLogResolves(r: Resolution, passes: bool)
    requires r.via == Continued || r.via == Passed
    ensures Resolutions(RequestLog(r, passes)) == (if passes && HasSend(r.ops) then 2 else 1)
  {
    hide Mutations, Resolutions, FirstReply, HasSend;
    MutationsDecideNothing(r.ops);
    NoResolution(Mutations(r.ops));
    ResolutionsConcat(Mutations(r.ops), [r.via]);
    OneResolves(r.via);
    if HasSend(r.ops) {
      var reply := Replied(FirstReply(r.ops));
      OneResolves(reply);
      OneResolves(Passed);
      ResolutionsConcat([reply], [Passed]);
      assert [reply] + [] == [reply];
    }
  }

  lemma OneResolves(e: Effect)
    ensures Resolutions([e]) == (if e.Resolves() then 1 else 0)
  {
  }

  lemma ResponseLogResolves(ops: seq<Op>)
    ensures Resolutions(ResponseLog(ops)) == 0
  {
    MetaEffectsDecideNothing(Metas(BeforeSend(ops)));
    MetricEffectsDecideNothing(Metrics(ops));
    NoResolution(ResponseLog(ops));
  }

  lemma ReleaseLogResolves(released: bool)
    ensures Resolutions(ReleaseLog(released)) == (if released then 1 else 0)
  {
    OneResolves(Released);
  }

  /** The log of an invariant state resolves once for a release, once for the
      decision, and once more for the Continue after a body-aware answer. */
  lemma LogResolves(s: Sys)
    requires Inv(s)
    ensures Resolutions(s.trace.log) ==
            (if s.trace.released then 1 else 0)
            + match s.trace.resolved case None => 0 case Some(r) => if Passes(s) && HasSend(r.ops) then 2 else 1
  {
    LogParts(s);
    var r, a, b := ReleaseLog(s.trace.released), RequestPart(s), ResponsePart(s);
    ReleaseLogResolves(s.trace.released);
    ResolutionsConcat(r, a);
    ResolutionsConcat(r + a, b);
    if s.trace.resolved.Some? {
      ResolutionVia(s);
      RequestLogResolves(s.trace.resolved.value, Passes(s));
    }
    if s.trace.observed.Some? {
      ResponseLogResolves(s.trace.observed.value);
    }
    hide Inv, Resolutions, RequestLog, ResponseLog, ReleaseLog, HasSend;
  }

  /** A body-aware filter passes exactly when its handler has run, so after an
      answer the host sees both the reply and Continue. */
  lemma BodyAwarePassesAfterAnswer(def: Def, events: seq<Event>)
    requires GoodRun(def, events) && def.bodyAware
    ensures var s := Exec(def, events);
            && (Passed in s.trace.log <==> s.filter.hasWriter && s.filter.bodyDone)
            && (Decisions(s.trace.log) == 1 <==> s.trace.resolved.Some? && HasSend(s.trace.resolved.value.ops))
  {
    RunKeeps(def, events);
    LogDecides(Exec(def, events));
  }

  // ----- no lost wake-up -----

  /** The host has neither been told to go on, by whatever means, nor been given
      an answer. */
  predicate Undecided(s: Sys) {
    Resolutions(s.trace.log) == 0
  }

  predicate PausedUndecided(s: Sys) {
    s.filter.hasWriter && !s.def.bodyAware && !s.abi.completed && Undecided(s)
  }

  /** A paused request is waiting for exactly one thing. Only a callout or stream
      that was given no continuation can leave it waiting for nothing. */
  lemma NoLostWakeUp(def: Def, events: seq<Event>)
    requires GoodRun(def, events) && PausedUndecided(Exec(def, events))
    ensures var s := Exec(def, events);
            && Tokens(s.pending) <= 1
            && (!SomeFnLacking(s.trace.issued) ==> Tokens(s.pending) == 1)
  {
    RunKeeps(def, events);
    ResolvedIsDecided(Exec(def, events));
  }

  /** What delivering e does for the request: a finished callout and a reset
      stream need their continuation, a finished stream and a scheduled flush
      do not. */
  predicate Resumes(a: AsyncState, e: Event) {
    match e
    case CalloutDone(_, _) => a.calloutFn
    case StreamReset(_, _) => a.streamEventFn
    case _ => true
  }

  /** Delivering that one thing decides the request, whatever the continuation
      does short of starting more asynchronous work, if and only if there is a
      continuation or none is needed; otherwise nothing is left to wait for. */
  lemma WakeUpResolves(def: Def, events: seq<Event>, e: Event)
    requires GoodRun(def, events + [e]) && PausedUndecided(Exec(def, events))
    requires match e
             case Scheduled(id) => id in Exec(def, events).pending.tasks
             case CalloutDone(id, _) => id in Exec(def, events).pending.callouts
             case StreamComplete(id, _) => id in Exec(def, events).pending.streams
             case StreamReset(id, _) => id in Exec(def, events).pending.streams
             case _ => false
    ensures !Undecided(Exec(def, events + [e])) <==> Resumes(Exec(def, events).w.async, e)
    ensures Undecided(Exec(def, events + [e])) ==>
              PausedUndecided(Exec(def, events + [e])) && Tokens(Exec(def, events + [e]).pending) == 0
  {
    hide Inv, Undecided;
    GoodPrefix(def, events, e);
    RunKeeps(def, events);
    RunKeeps(def, events + [e]);
    var s := Exec(def, events);
    match e {
      case Scheduled(id) => ScheduledKeeps(s, id);
      case CalloutDone(id, script) => CalloutDoneKeeps(s, id, script);
      case StreamComplete(id, script) => StreamCompleteKeeps(s, id, script);
      case StreamReset(id, script) => StreamResetKeeps(s, id, script);
    }
    if !Resumes(s.w.async, e) {
      TokenLost(s, e);
    }
    hide Step;
    ResolvedIsDecided(Step(s, e));
  }

  lemma TokenLost(s: Sys, e: Event)
    requires Inv(s) && PausedUndecided(s) && !Resumes(s.w.async, e)
    requires match e
             case CalloutDone(id, _) => id in s.pending.callouts
             case StreamReset(id, _) => id in s.pending.streams
             case _ => false
    ensures PausedUndecided(Step(s, e)) && Tokens(Step(s, e).pending) == 0
  {
    hide Resolutions;
    match e {
      case CalloutDone(id, _) => OneCallout(s.pending, id);
      case StreamReset(id, _) => OneStream(s.pending, id);
    }
  }

  lemma ResolvedIsDecided(s: Sys)
    requires Inv(s)
    ensures s.trace.resolved.Some? || s.trace.released <==> !Undecided(s)
  {
    LogResolves(s);
  }

  lemma GoodPrefix(def: Def, events: seq<Event>, e: Event)
    requires GoodRun(def, events + [e])
    ensures GoodRun(def, events) && Orderly(Exec(def, events), e)
    ensures Exec(def, events + [e]) == Step(Exec(def, events), e)
  {
    hide Step, Orderly;
    assert (events + [e])[..|events|] == events;
    RunGrows(def, events + [e]);
  }

  /** A goroutine's token turns into its scheduled task. */
  lemma GoReturnHandsOver(def: Def, events: seq<Event>)
    requires GoodRun(def, events + [GoReturn]) && PausedUndecided(Exec(def, events))
    ensures var s, t := Exec(def, events), Exec(def, events + [GoReturn]);
            t.pending.tasks == {s.pending.nextTask} && PausedUndecided(t)
  {
    GoodPrefix(def, events, GoReturn);
    RunKeeps(def, events);
    GoReturnKeeps(Exec(def, events));
    hide Exec, Inv, Resolutions;
  }

  // ----- the exact effects -----

  /** What the host must have seen of a decided request, read off the Writer calls
      alone. */
  function ExpectedLog(passes: bool, ops: seq<Op>, async: AsyncState): seq<Effect> {
    if HasSend(ops) then [Replied(FirstReply(ops))] + (if passes then [Passed] else [])
    else Mutations(ops) + [Via(async)]
  }

  /** Without an observer the host has seen, after a possible release, nothing, or
      exactly what all the Writer calls together ask for, each mutation once and in
      call order. */
  lemma ExactEffects(def: Def, events: seq<Event>)
    requires GoodRun(def, events) && !def.observer
    ensures var s := Exec(def, events);
            s.trace.log == ReleaseLog(s.trace.released)
                           + (if s.trace.resolved.None? then []
                              else ExpectedLog(Passes(s), s.trace.issued, s.w.async))
    ensures Exec(def, events).trace.resolved.None? && !Exec(def, events).trace.released
            <==> Undecided(Exec(def, events))
  {
    hide Exec, FirstReply, Mutations, Resolutions, ReleaseLog;
    RunKeeps(def, events);
    var s := Exec(def, events);
    LogParts(s);
    ResolvedIsDecided(s);
    if s.trace.resolved.Some? {
      var r := s.trace.resolved.value;
      if HasSend(r.ops) {
        BeforeSendPrefix(r.ops, s.trace.issued);
      }
    }
  }

  /** With an observer, stream completion adds all metadata queued before any
      Send and every metric, whether or not they were already applied. */
  lemma ObservedEffects(def: Def, events: seq<Event>)
    requires GoodRun(def, events) && def.observer && Exec(def, events).trace.observed.Some?
    ensures var s := Exec(def, events);
            s.trace.log == ReleaseLog(s.trace.released) + RequestPart(s) + ResponseLog(s.trace.observed.value)
  {
    RunKeeps(def, events);
    LogParts(Exec(def, events));
  }

  function AppliedMetas(log: seq<Effect>): seq<Meta> {
    if log == [] then []
    else AppliedMetas(log[..|log| - 1]) + (if log[|log| - 1].MetadataSet? then [log[|log| - 1].meta] else [])
  }

  function AppliedMetrics(log: seq<Effect>): seq<Metric> {
    if log == [] then []
    else AppliedMetrics(log[..|log| - 1]) + (if log[|log| - 1].MetricRecorded? then [log[|log| - 1].metric] else [])
  }

  lemma {:induction false} AppliedConcat(a: seq<Effect>, b: seq<Effect>)
    ensures AppliedMetas(a + b) == AppliedMetas(a) + AppliedMetas(b)
    ensures AppliedMetrics(a + b) == AppliedMetrics(a) + AppliedMetrics(b)
    decreases |b|
  {
    if b == [] {
      assert a + b == a;
    } else {
      var p, e := b[..|b| - 1], b[|b| - 1];
      assert b == p + [e] && a + b == (a + p) + [e];
      AppliedConcat(a, p);
      hide AppliedMetas, AppliedMetrics;
      AppliedSnoc(a + p, e);
      AppliedSnoc(p, e);
    }
  }

  lemma AppliedSnoc(log: seq<Effect>, e: Effect)
    ensures AppliedMetas(log + [e]) == AppliedMetas(log) + (if e.MetadataSet? then [e.meta] else [])
    ensures AppliedMetrics(log + [e]) == AppliedMetrics(log) + (if e.MetricRecorded? then [e.metric] else [])
  {
    assert (log + [e])[..|log|] == log;
  }

  lemma {:induction false} AppliedMetaEffects(ms: seq<Meta>)
    ensures AppliedMetas(MetaEffects(ms)) == ms && AppliedMetrics(MetaEffects(ms)) == []
    decreases |ms|
  {
    hide AppliedMetas, AppliedMetrics;
    if ms == [] {
      AppliedNothing();
    } else {
      var p := ms[..|ms| - 1];
      AppliedMetaEffects(p);
      AppliedSnoc(MetaEffects(p), MetadataSet(ms[|p|]));
    }
  }

  lemma {:induction false} AppliedMetricEffects(ms: seq<Metric>)
    ensures AppliedMetrics(MetricEffects(ms)) == ms && AppliedMetas(MetricEffects(ms)) == []
    decreases |ms|
  {
    hide AppliedMetas, AppliedMetrics;
    if ms == [] {
      AppliedNothing();
    } else {
      var p := ms[..|ms| - 1];
      AppliedMetricEffects(p);
      AppliedSnoc(MetricEffects(p), MetricRecorded(ms[|p|]));
    }
  }

  lemma {:induction false} AppliedHeaderEffects(hs: seq<Header>)
    ensures AppliedMetas(HeaderEffects(hs)) == [] && AppliedMetrics(HeaderEffects(hs)) == []
    decreases |hs|
  {
    hide AppliedMetas, AppliedMetrics;
    if hs == [] {
      AppliedNothing();
    } else {
      var p := hs[..|hs| - 1];
      AppliedHeaderEffects(p);
      AppliedSnoc(HeaderEffects(p), HeaderSet(hs[|p|]));
    }
  }

  lemma AppliedNothing()
    ensures AppliedMetas([]) == [] && AppliedMetrics([]) == []
  {
  }

  lemma AppliedNeither(e: Effect)
    requires !e.MetadataSet? && !e.MetricRecorded?
    ensures AppliedMetas([e]) == [] && AppliedMetrics([e]) == []
  {
    AppliedSnoc([], e);
    assert [] + [e] == [e];
  }

  lemma AppliedMutations(ops: seq<Op>, via: Effect)
    requires via == Continued || via == Passed
    ensures AppliedMetas(Mutations(ops) + [via]) == Metas(ops)
    ensures AppliedMetrics(Mutations(ops) + [via]) == Metrics(ops)
  {
    hide AppliedMetas, AppliedMetrics, HeaderEffects, MetaEffects, MetricEffects, HeadersSet, Metas, Metrics;
    var h, m, n := HeaderEffects(HeadersSet(ops)), MetaEffects(Metas(ops)), MetricEffects(Metrics(ops));
    var c := if ClearRouteCache in ops then [RouteCacheCleared] else [];
    AppliedHeaderEffects(HeadersSet(ops));
    AppliedMetaEffects(Metas(ops));
    AppliedMetricEffects(Metrics(ops));
    AppliedNothing();
    AppliedNeither(RouteCacheCleared);
    AppliedNeither(via);
    AppliedConcat(h, m);
    AppliedConcat(h + m, c);
    AppliedConcat(h + m + c, n);
    AppliedConcat(h + m + c + n, [via]);
  }

  lemma AppliedReply(r: Reply)
    ensures AppliedMetas([Replied(r)]) == [] && AppliedMetrics([Replied(r)]) == []
    ensures AppliedMetas([Replied(r), Passed]) == [] && AppliedMetrics([Replied(r), Passed]) == []
  {
    assert [Replied(r), Passed] == [Replied(r)] + [Passed];
    AppliedConcat([Replied(r)], [Passed]);
  }

  lemma AppliedRequestLog(r: Resolution, passes: bool)
    requires r.via == Continued || r.via == Passed
    ensures AppliedMetas(RequestLog(r, passes)) == (if HasSend(r.ops) then [] else Metas(r.ops))
    ensures AppliedMetrics(RequestLog(r, passes)) == (if HasSend(r.ops) then [] else Metrics(r.ops))
  {
    if HasSend(r.ops) {
      AppliedReply(FirstReply(r.ops));
      assert [Replied(FirstReply(r.ops))] + [Passed] == [Replied(FirstReply(r.ops)), Passed];
    } else {
      hide Mutations, AppliedMetas, AppliedMetrics, Metas, Metrics;
      AppliedMutations(r.ops, r.via);
    }
  }

  lemma AppliedResponseLog(ops: seq<Op>)
    ensures AppliedMetas(ResponseLog(ops)) == Metas(BeforeSend(ops))
    ensures AppliedMetrics(ResponseLog(ops)) == Metrics(ops)
  {
    hide AppliedMetas, AppliedMetrics, Metas, Metrics;
    var m, n := MetaEffects(Metas(BeforeSend(ops))), MetricEffects(Metrics(ops));
    AppliedMetaEffects(Metas(BeforeSend(ops)));
    AppliedMetricEffects(Metrics(ops));
    AppliedConcat(m, n);
  }

  /** Under an observer every metadata write and metric takes effect exactly
      once if and only if the request phase applied none: it was never decided,
      or it answered, or it had queued no metadata and no metric by then. */
  lemma ObservedOnceIff(def: Def, events: seq<Event>)
    requires GoodRun(def, events) && def.observer
    requires Exec(def, events).trace.observed.Some?
    ensures var t := Exec(def, events).trace;
            var all := t.observed.value;
            AppliedMetas(t.log) == Metas(BeforeSend(all)) && AppliedMetrics(t.log) == Metrics(all)
            <==> match t.resolved
                 case None => true
                 case Some(r) => HasSend(r.ops) || (Metas(r.ops) == [] && Metrics(r.ops) == [])
  {
    hide AppliedMetas, AppliedMetrics, Metas, Metrics, RequestLog, ResponseLog, ReleaseLog, Inv, Exec, HasSend;
    RunKeeps(def, events);
    ObservedEffects(def, events);
    var s := Exec(def, events);
    var t := s.trace;
    var q := t.observed.value;
    AppliedResponseLog(q);
    AppliedRelease(t.released);
    AppliedNothing();
    AppliedConcat(ReleaseLog(t.released), RequestPart(s));
    AppliedConcat(ReleaseLog(t.released) + RequestPart(s), ResponseLog(q));
    match t.resolved
    case None =>
    case Some(r) =>
      ResolutionVia(s);
      AppliedRequestLog(r, Passes(s));
      OnceOrTwice(Metas(r.ops), Metas(BeforeSend(q)));
      OnceOrTwice(Metrics(r.ops), Metrics(q));
  }

  lemma AppliedRelease(released: bool)
    ensures AppliedMetas(ReleaseLog(released)) == [] && AppliedMetrics(ReleaseLog(released)) == []
  {
    AppliedNeither(Released);
    AppliedNothing();
  }

  lemma ResolutionVia(s: Sys)
    requires Inv(s) && s.trace.resolved.Some?
    ensures s.trace.resolved.value.via == Continued || s.trace.resolved.value.via == Passed
    ensures HasSend(s.trace.resolved.value.ops) ==> s.trace.resolved.value.via == Continued
  {
  }

  lemma OnceOrTwice<T>(first: seq<T>, again: seq<T>)
    ensures first + again == again <==> first == []
  {
    if first + again == again {
      assert |first| == 0;
    }
  }
}
