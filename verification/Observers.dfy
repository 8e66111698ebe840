/** Exactly when a response observer that sends resolves its request again. */
module Observers {
  import opened Common
  import opened WriterModel
  import opened Lifecycle
  import opened LifecycleInvariant
  import opened LifecyclePreservation
  import opened LifecycleTheorems

  /** A Send would reach the host at once. */
  predicate SendsAtOnce(s: Sys) {
    !s.w.answer.responded && !s.w.async.goStarted
  }

  lemma OpResolves(s: Sys, op: Op)
    requires !op.Async()
    ensures Resolutions(RunOp(s, op).trace.log)
         == Resolutions(s.trace.log) + (if SendsAtOnce(s) && op.Send? then 1 else 0)
    ensures SendsAtOnce(RunOp(s, op)) <==> SendsAtOnce(s) && !op.Send?
  {
    SynchronousOp(s, op);
    if op.Send? && SendsAtOnce(s) {
      LoudSend(s, op);
      var r := Replied(Reply(op.status % UINT32, s.w.queues.respHdrMuts, op.body));
      OneResolves(r);
      ResolutionsConcat(s.trace.log, [r]);
    } else {
      SilentOp(s, op);
    }
  }

  /** A script's first Send, if any, resolves once; the others do nothing. */
  lemma {:induction false} ScriptResolves(s: Sys, script: seq<Op>)
    requires Synchronous(script)
    ensures Resolutions(RunOps(s, script).trace.log)
         == Resolutions(s.trace.log) + (if SendsAtOnce(s) && HasSend(script) then 1 else 0)
    ensures SendsAtOnce(RunOps(s, script)) <==> SendsAtOnce(s) && !HasSend(script)
    decreases |script|
  {
    hide RunOp, Resolutions, HasSend, SendsAtOnce;
    if script == [] {
      NoSend();
    } else {
      var p, op := script[..|script| - 1], script[|script| - 1];
      assert script == p + [op];
      HasSendSnoc(p, op);
      ScriptResolves(s, p);
      OpResolves(RunOps(s, p), op);
    }
  }

  lemma NoSend()
    ensures !HasSend([])
  {
  }

  /** An observer could answer: its Send would reach the host. */
  predicate ObserverCanAnswer(s: Sys) {
    s.def.observer && SendsAtOnce(s) && !s.abi.localResponseSent
  }

  /** In every state a response callback whose observer starts nothing resolves
      the request once more if and only if it sends and can answer. */
  lemma ResponseResolves(s: Sys, script: seq<Op>)
    requires Synchronous(script)
    ensures Resolutions(Step(s, Response(script)).trace.log)
         == Resolutions(s.trace.log) + (if HasSend(script) && ObserverCanAnswer(s) then 1 else 0)
  {
    hide RunOps, Resolutions, HasSend;
    ScriptResolves(s, script);
  }

  /** A response callback resolves a request again if and only if the observer
      sends, and nothing stops that Send: the request is decided or released, it
      was not answered, no local reply was sent and no goroutine was started. */
  lemma ObserverAnswersAgainIff(def: Def, events: seq<Event>, script: seq<Op>)
    requires GoodRun(def, events)
    requires Orderly(Exec(def, events), Response(script)) && Synchronous(script)
    ensures var s := Exec(def, events);
            var n := Resolutions(Step(s, Response(script)).trace.log);
            n >= 2 && n > Resolutions(s.trace.log) <==>
            HasSend(script) && Overrules(s)
  {
    var s := Exec(def, events);
    hide Inv, RunOps, Resolutions, HasSend, Exec, Step;
    RunKeeps(def, events);
    ResolvedIsDecided(s);
    ResponseResolves(s, script);
  }

  // ----- over whole runs -----

  predicate ObserversStartNothing(events: seq<Event>) {
    forall e | e in events :: e.Response? ==> Synchronous(e.script)
  }

  /** Some observer sent where that overrules a decision. */
  predicate Overruled(def: Def, events: seq<Event>) {
    events != [] &&
    (var p, e := events[..|events| - 1], events[|events| - 1];
     Overruled(def, p) || (e.Response? && HasSend(e.script) && Overrules(Exec(def, p))))
  }

  lemma {:induction false} OpsLogGrows(s: Sys, ops: seq<Op>)
    ensures s.trace.log <= RunOps(s, ops).trace.log
    decreases |ops|
  {
    hide RunOp;
    if ops != [] {
      OpsLogGrows(s, ops[..|ops| - 1]);
      OpLogGrows(RunOps(s, ops[..|ops| - 1]), ops[|ops| - 1]);
    }
  }

  lemma OpLogGrows(s: Sys, op: Op)
    ensures s.trace.log <= RunOp(s, op).trace.log
  {
  }

  lemma FlushLogGrows(s: Sys, cont: bool)
    ensures s.trace.log <= Flush(s, cont).trace.log
  {
  }

  lemma PassLogGrows(s: Sys)
    ensures s.trace.log <= Pass(s).trace.log
  {
  }

  lemma CompleteLogGrows(s: Sys)
    ensures s.trace.log <= OnComplete(s).trace.log
  {
  }

  lemma StreamEndLogGrows(s: Sys, id: nat, script: seq<Op>)
    ensures s.trace.log <= OnStreamComplete(s, id, script).trace.log
    ensures s.trace.log <= OnStreamReset(s, id, script).trace.log
  {
    hide RunOps, Flush;
    OpsLogGrows(Ran(DropStream(s, id), StreamRan), script);
    var t := LastStreamEvent(DropStream(s, id), script);
    FlushLogGrows(t, true);
    FlushLogGrows(t, !t.w.answer.responded);
    FlushLogGrows(DropStream(s, id), true);
  }

  /** What the host has seen stays seen. */
  lemma StepLogGrows(s: Sys, e: Event)
    ensures s.trace.log <= Step(s, e).trace.log
  {
    hide RunOp, RunOps, Flush, Pass, OnComplete, OnStreamComplete, OnStreamReset;
    match e
    case RequestHeaders(endStream, script) =>
      var s1 := Arrived(s, endStream).(filter := s.filter.(hasWriter := true), w := FRESH_WRITER);
      OpsLogGrows(s1, script);
      FlushLogGrows(RunOps(s1, script), false);
      PassLogGrows(Flush(RunOps(s1, script), false));
    case RequestBody(endStream, script) =>
      var s1 := s.(filter := s.filter.(bodyDone := true));
      var t := RunOps(s1, script);
      OpsLogGrows(s1, script);
      FlushLogGrows(t, false);
      PassLogGrows(if t.w.answer.responded then t else Flush(t, false));
    case RequestTrailers =>
    case Response(script) => OpsLogGrows(s, script);
    case GoOp(op) => OpLogGrows(s, op);
    case Scheduled(id) => FlushLogGrows(Ran(DropTask(s, id), TaskRan), true);
    case CalloutDone(id, script) =>
      var s1 := Ran(ClearCalloutFn(DropCallout(s, id)), CalloutRan);
      OpsLogGrows(s1, script);
      FlushLogGrows(RunOps(s1, script), true);
    case StreamEvent(id, script) => OpsLogGrows(Ran(s, StreamRan), script);
    case StreamComplete(id, script) => StreamEndLogGrows(s, id, script);
    case StreamReset(id, script) => StreamEndLogGrows(s, id, script);
    case Complete => CompleteLogGrows(s);
    case _ =>
  }

  lemma ResolutionsGrow(s: Sys, e: Event)
    ensures Resolutions(s.trace.log) <= Resolutions(Step(s, e).trace.log)
  {
    StepLogGrows(s, e);
    var a, b := s.trace.log, Step(s, e).trace.log;
    hide Step, Resolutions;
    assert b == a + b[|a|..];
    ResolutionsConcat(a, b[|a|..]);
  }

  /** Over every run in which observers start nothing: the request is resolved
      more than once if and only if some observer sent where that overrules, or a
      body or trailers callback released the request before it was decided. */
  lemma {:induction false} ResolvedAgainIffOverruled(def: Def, events: seq<Event>)
    requires OrderlyFrom(InitSys(def), events) && !def.bodyAware && ObserversStartNothing(events)
    requires Exec(def, events).w.async.Started() <= 1
    ensures Resolutions(Exec(def, events).trace.log) >= 2 <==>
            Overruled(def, events) || DoublyResolved(Exec(def, events))
    ensures Overruled(def, events) <==> !DisciplinedFrom(InitSys(def), events)
    decreases |events|
  {
    hide Step, Orderly, Overrules, Resolutions, HasSend, DoublyResolved;
    if events != [] {
      var p, e := events[..|events| - 1], events[|events| - 1];
      RunGrows(def, events);
      RunGrows(def, p);
      ResolvedAgainIffOverruled(def, p);
      ResolutionsGrow(Exec(def, p), e);
      if !Overruled(def, p) && e.Response? && HasSend(e.script) && Overrules(Exec(def, p)) {
        OverrulingResponse(def, p, e.script);
      }
      OnlyObserversOverrule(Exec(def, p), e);
    }
    if DisciplinedFrom(InitSys(def), events) {
      AtMostOneResolution(def, events);
    }
  }

  lemma OverrulingResponse(def: Def, p: seq<Event>, script: seq<Op>)
    requires GoodRun(def, p) && Orderly(Exec(def, p), Response(script)) && Synchronous(script)
    requires HasSend(script) && Overrules(Exec(def, p))
    ensures Resolutions(Step(Exec(def, p), Response(script)).trace.log) >= 2
  {
    hide Step, Orderly, Resolutions, HasSend, Inv;
    RunKeeps(def, p);
    ResolvedIsDecided(Exec(def, p));
    ResponseResolves(Exec(def, p), script);
  }

  lemma OnlyObserversOverrule(s: Sys, e: Event)
    requires !s.def.bodyAware && (e.Response? ==> Synchronous(e.script))
    ensures Disciplined(s, e) <==> !(e.Response? && HasSend(e.script) && Overrules(s))
  {
  }

  // ----- body-aware filters -----

  predicate SynchronousScripts(events: seq<Event>) {
    forall e | e in events :: (e.Response? || e.RequestBody?) ==> Synchronous(e.script)
  }

  /** Every answer of a synchronous filter is given on the spot, and only the first
      Send is one. */
  predicate AnsweredOnce(s: Sys) {
    && s.def.bodyAware && s.w.async.Started() == 0 && s.w.answer.localResp.None?
    && s.pending.callouts == {} && s.pending.streams == {} && s.pending.tasks == {} && !s.pending.goRunning
    && Decisions(s.trace.log) == (if s.w.answer.responded then 1 else 0)
    && (!s.filter.hasWriter ==> s.w == FRESH_WRITER)
  }

  lemma OpAnswersOnce(s: Sys, op: Op)
    requires AnsweredOnce(s) && !op.Async()
    ensures AnsweredOnce(RunOp(s, op)) || !s.filter.hasWriter
    ensures RunOp(s, op).filter == s.filter
  {
    SynchronousOp(s, op);
    RunOpUntouched(s, op);
    if op.Send? && SendsAtOnce(s) {
      LoudSend(s, op);
      var r := Replied(Reply(op.status % UINT32, s.w.queues.respHdrMuts, op.body));
      OneDecides(r);
      DecisionsConcat(s.trace.log, [r]);
    } else {
      SilentOp(s, op);
    }
  }

  lemma {:induction false} OpsAnswerOnce(s: Sys, ops: seq<Op>)
    requires AnsweredOnce(s) && Synchronous(ops) && s.filter.hasWriter
    ensures AnsweredOnce(RunOps(s, ops)) && RunOps(s, ops).filter == s.filter
    decreases |ops|
  {
    hide RunOp, AnsweredOnce;
    if ops != [] {
      OpsAnswerOnce(s, ops[..|ops| - 1]);
      OpAnswersOnce(RunOps(s, ops[..|ops| - 1]), ops[|ops| - 1]);
    }
  }

  lemma QueuesDecideNothing(q: Queues)
    ensures Decisions(QueueEffects(q)) == 0
  {
    HeaderEffectsDecideNothing(q.reqMuts);
    MetaEffectsDecideNothing(q.metaMuts);
    MetricEffectsDecideNothing(q.counterMuts);
    NoDecision(QueueEffects(q));
  }

  lemma BodyAnswersOnce(s: Sys, endStream: bool, script: seq<Op>)
    requires AnsweredOnce(s) && s.filter.hasWriter && Synchronous(script)
    ensures AnsweredOnce(OnRequestBody(s, endStream, script))
  {
    var s1 := if endStream then s.(filter := s.filter.(bodyDone := true)) else s;
    if endStream {
      var t := RunOps(s1, script);
      hide RunOps, QueueEffects, Decisions;
      OpsAnswerOnce(s1, script);
      QueuesDecideNothing(t.w.queues);
      DecisionsConcat(t.trace.log, QueueEffects(t.w.queues));
      var u := if t.w.answer.responded then t else Flush(t, false);
      DecisionsConcat(u.trace.log, [Passed]);
      OneDecides(Passed);
    }
  }

  lemma CompleteAnswersOnce(s: Sys)
    requires AnsweredOnce(s)
    ensures AnsweredOnce(OnComplete(s))
  {
    var m, n := MetaEffects(s.w.queues.metaMuts), MetricEffects(s.w.queues.counterMuts);
    MetaEffectsDecideNothing(s.w.queues.metaMuts);
    MetricEffectsDecideNothing(s.w.queues.counterMuts);
    NoDecision(m);
    NoDecision(n);
    hide Decisions, MetaEffects, MetricEffects;
    DecisionsConcat(s.trace.log, m);
    DecisionsConcat(s.trace.log + m, n);
  }

  lemma TrailersAnswerOnce(s: Sys)
    requires AnsweredOnce(s)
    ensures AnsweredOnce(OnRequestTrailers(s))
  {
    hide Decisions;
    DecisionsConcat(s.trace.log, [Released]);
    OneDecides(Released);
  }

  lemma StepAnswersOnce(s: Sys, e: Event)
    requires AnsweredOnce(s) && Orderly(s, e) && ((e.Response? || e.RequestBody?) ==> Synchronous(e.script))
    ensures AnsweredOnce(Step(s, e))
  {
    hide RunOp, RunOps, OnRequestBody, OnRequestTrailers, OnComplete, Decisions;
    match e
    case RequestBody(endStream, script) => BodyAnswersOnce(s, endStream, script);
    case RequestTrailers => TrailersAnswerOnce(s);
    case Response(script) => OpsAnswerOnce(s, script);
    case Complete => CompleteAnswersOnce(s);
    case _ =>
  }

  /** A body-aware filter with any synchronous handler and observer calls
      ContinueRequest and SendLocalResponse together at most once, whatever its
      observer overrules. */
  lemma {:induction false} BodyAwareDecidesOnce(def: Def, events: seq<Event>)
    requires OrderlyFrom(InitSys(def), events) && def.bodyAware && SynchronousScripts(events)
    ensures AnsweredOnce(Exec(def, events)) && Decisions(Exec(def, events).trace.log) <= 1
    decreases |events|
  {
    hide Step, Orderly, AnsweredOnce;
    if events == [] {
      NothingAnswered(def);
    } else {
      BodyAwareDecidesOnce(def, events[..|events| - 1]);
      StepAnswersOnce(Exec(def, events[..|events| - 1]), events[|events| - 1]);
    }
    AtMostOneAnswer(Exec(def, events));
  }

  lemma AtMostOneAnswer(s: Sys)
    requires AnsweredOnce(s)
    ensures Decisions(s.trace.log) <= 1
  {
  }

  lemma NothingAnswered(def: Def)
    requires def.bodyAware
    ensures AnsweredOnce(InitSys(def))
  {
  }
}
