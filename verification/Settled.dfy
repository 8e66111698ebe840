/** An answer on the spot, and completion, end what can happen to a request. */
module Settled {
  import opened WriterModel
  import opened Lifecycle
  import opened LifecycleInvariant
  import opened LifecycleTheorems
  import opened Reachable
  import opened Deliveries
  import DeadStream

  lemma {:induction false} SettledOps(s: Sys, ops: seq<Op>)
    requires s.w.Settled()
    ensures RunOps(s, ops).w.Settled() && RunOps(s, ops).trace.log == s.trace.log
    ensures RunOps(s, ops).filter == s.filter && RunOps(s, ops).def == s.def
    ensures RunOps(s, ops).trace.resolved == s.trace.resolved
    decreases |ops|
  {
    if ops != [] {
      var p := ops[..|ops| - 1];
      SettledOps(s, p);
      var t := RunOps(s, p);
      hide RunOp;
      SilentOp(t, ops[|p|]);
      RunOpUntouched(t, ops[|p|]);
    }
  }

  predicate StillSettled(s: Sys, t: Sys) {
    && t.w.Settled() && t.filter == s.filter && t.def == s.def && t.trace.log == s.trace.log
    && t.trace.resolved == s.trace.resolved
  }

  lemma SettledScripts(s: Sys, script: seq<Op>)
    requires s.w.Settled()
    ensures forall c :: StillSettled(s, RunOps(Ran(s, c), script))
    ensures StillSettled(s, RunOps(s, script))
  {
    SettledOps(s, script);
    forall c ensures StillSettled(s, RunOps(Ran(s, c), script)) {
      SettledOps(Ran(s, c), script);
    }
  }

  lemma SettledFlush(s: Sys, cont: bool)
    requires s.w.Settled()
    ensures Flush(s, cont) == s
  {
  }

  lemma SettledComplete(s: Sys)
    requires s.w.Settled() && s.filter.hasWriter
    ensures OnComplete(s).w.Settled() && OnComplete(s).filter.hasWriter && OnComplete(s).def == s.def
    ensures OnComplete(s).trace.resolved == s.trace.resolved
    ensures Decisions(OnComplete(s).trace.log) == Decisions(s.trace.log)
    ensures Resolutions(OnComplete(s).trace.log) == Resolutions(s.trace.log)
  {
    var m, n := MetaEffects(s.w.queues.metaMuts), MetricEffects(s.w.queues.counterMuts);
    MetaEffectsDecideNothing(s.w.queues.metaMuts);
    MetricEffectsDecideNothing(s.w.queues.counterMuts);
    NoDecision(m);
    NoDecision(n);
    NoResolution(m);
    NoResolution(n);
    hide MetaEffects, MetricEffects, Decisions, Resolutions;
    DecisionsConcat(s.trace.log, m);
    DecisionsConcat(s.trace.log + m, n);
    ResolutionsConcat(s.trace.log, m);
    ResolutionsConcat(s.trace.log + m, n);
  }

  lemma SettledStream(s: Sys, id: nat, script: seq<Op>)
    requires s.w.Settled() && s.filter.hasWriter
    ensures StillSettled(s, OnStreamComplete(s, id, script)) && StillSettled(s, OnStreamReset(s, id, script))
    ensures StillSettled(s, OnStreamEvent(s, id, script))
  {
    SettledScripts(DropStream(s, id), script);
    SettledScripts(s, script);
    var t := LastStreamEvent(DropStream(s, id), script);
    hide RunOps;
    SettledFlush(t, true);
    SettledFlush(t, !t.w.answer.responded);
    SettledFlush(DropStream(s, id), true);
  }

  lemma SettledStep(s: Sys, e: Event)
    requires s.w.Settled() && s.trace.resolved.Some? && s.filter.hasWriter && !s.def.bodyAware && Orderly(s, e)
    ensures Step(s, e).w.Settled() && Step(s, e).filter.hasWriter && Step(s, e).def == s.def
    ensures Step(s, e).trace.resolved == s.trace.resolved
    ensures Decisions(Step(s, e).trace.log) == Decisions(s.trace.log)
    ensures Resolutions(Step(s, e).trace.log) == Resolutions(s.trace.log)
  {
    hide RunOp, RunOps, OnComplete, OnStreamComplete, OnStreamReset, OnStreamEvent, Flush, Decisions, Resolutions;
    match e
    case Response(script) => SettledScripts(s, script);
    case GoOp(op) => SilentOp(s, op); RunOpUntouched(s, op);
    case Scheduled(id) => SettledFlush(Ran(DropTask(s, id), TaskRan), true);
    case CalloutDone(id, script) =>
      SettledScripts(ClearCalloutFn(DropCallout(s, id)), script);
      SettledFlush(RunOps(Ran(ClearCalloutFn(DropCallout(s, id)), CalloutRan), script), true);
    case StreamEvent(id, script) => SettledStream(s, id, script);
    case StreamComplete(id, script) => SettledStream(s, id, script);
    case StreamReset(id, script) => SettledStream(s, id, script);
    case Complete => SettledComplete(s);
    case _ =>
  }

  /** From a settled and resolved state nothing resolves the request again. */
  lemma {:induction false} SettledIsFinal(s: Sys, events: seq<Event>)
    requires s.w.Settled() && s.trace.resolved.Some? && s.filter.hasWriter && !s.def.bodyAware && OrderlyFrom(s, events)
    ensures var t := Resume(s, events);
            && t.w.Settled() && t.filter.hasWriter && t.def == s.def && t.trace.resolved == s.trace.resolved
            && Decisions(t.trace.log) == Decisions(s.trace.log)
            && Resolutions(t.trace.log) == Resolutions(s.trace.log)
    decreases |events|
  {
    hide Step, Orderly;
    if events != [] {
      SettledIsFinal(s, events[..|events| - 1]);
      SettledStep(Resume(s, events[..|events| - 1]), events[|events| - 1]);
    }
  }

  /** In every orderly run, whatever was started and whatever happens next, an
      answer given on the spot stays the last resolution. */
  lemma AnswerIsFinal(def: Def, events: seq<Event>, later: seq<Event>)
    requires OrderlyFrom(InitSys(def), events) && !def.bodyAware && Exec(def, events).w.Settled()
    requires OrderlyFrom(Exec(def, events), later)
    ensures var s, t := Exec(def, events), Resume(Exec(def, events), later);
            && Decisions(t.trace.log) == Decisions(s.trace.log)
            && Resolutions(t.trace.log) == Resolutions(s.trace.log)
            && s.trace.resolved.Some? && t.trace.resolved == s.trace.resolved
  {
    hide Exec, Decisions, Resolutions;
    RunReaches(def, events);
    SettledIsFinal(Exec(def, events), later);
  }

  lemma ClosedStep(s: Sys, e: Event)
    requires Reach(s) && s.filter.hasWriter && !Open(s) && Orderly(s, e)
    ensures !Open(Step(s, e)) && Resolutions(Step(s, e).trace.log) == Resolutions(s.trace.log)
  {
    hide Step, Resolutions;
    if s.abi.completed {
      DeadStream.StepIsSilent(s, e);
    } else {
      SettledStep(s, e);
    }
  }
}
