/** Body-aware requests wait for the end of a body, also when the headers said
    that there is none. */
module Bodyless {
  import opened WriterModel
  import opened Lifecycle
  import opened LifecycleInvariant
  import opened LifecycleTheorems
  import opened Observers
  import opened RequestEnd
  import opened WakeUps
  import opened Deliveries

  /** A body-aware request with nothing in flight and no observer that can act. */
  predicate Waiting(s: Sys) {
    && s.def.bodyAware && s.filter.hasWriter && (s.def.observer ==> s.abi.localResponseSent)
    && s.pending.callouts == {} && s.pending.streams == {} && s.pending.tasks == {} && !s.pending.goRunning
  }

  lemma WaitingStep(s: Sys, e: Event)
    requires Waiting(s) && Orderly(s, e) && !e.RequestBody? && !e.RequestTrailers?
    ensures Waiting(Step(s, e)) && Resolutions(Step(s, e).trace.log) == Resolutions(s.trace.log)
  {
    hide RunOps, Resolutions, OnComplete;
    if e.Complete? {
      WaitingCompletes(s);
    }
  }

  lemma WaitingCompletes(s: Sys)
    requires Waiting(s)
    ensures Waiting(OnComplete(s)) && Resolutions(OnComplete(s).trace.log) == Resolutions(s.trace.log)
  {
    var m, n := MetaEffects(s.w.queues.metaMuts), MetricEffects(s.w.queues.counterMuts);
    MetaEffectsDecideNothing(s.w.queues.metaMuts);
    MetricEffectsDecideNothing(s.w.queues.counterMuts);
    NoResolution(m);
    NoResolution(n);
    hide Resolutions, MetaEffects, MetricEffects;
    ResolutionsConcat(s.trace.log, m);
    ResolutionsConcat(s.trace.log + m, n);
  }

  predicate NoBodyComes(events: seq<Event>) {
    forall e | e in events :: !e.RequestBody? && !e.RequestTrailers?
  }

  /** Nothing but a body or trailers callback resolves such a request. */
  lemma {:induction false} WaitingStays(s: Sys, later: seq<Event>)
    requires Waiting(s) && OrderlyFrom(s, later) && NoBodyComes(later)
    ensures Waiting(Resume(s, later)) && Resolutions(Resume(s, later).trace.log) == Resolutions(s.trace.log)
    decreases |later|
  {
    hide Step, Orderly, Waiting, Resolutions;
    if later != [] {
      WaitingStays(s, later[..|later| - 1]);
      WaitingStep(Resume(s, later[..|later| - 1]), later[|later| - 1]);
    }
  }

  lemma {:induction false} EndedHasNoBody(s: Sys, later: seq<Event>)
    requires BodyOrder(s) && s.filter.hasWriter && s.trace.ended && OrderlyFrom(s, later)
    ensures NoBodyComes(later)
    ensures BodyOrder(Resume(s, later)) && Resume(s, later).filter.hasWriter && Resume(s, later).trace.ended
    decreases |later|
  {
    hide Step, BodyOrder, Releases;
    if later != [] {
      var p, e := later[..|later| - 1], later[|later| - 1];
      EndedHasNoBody(s, p);
      StepBodyOrder(Resume(s, p), e);
      assert later == p + [e];
    }
  }

  lemma UndecidedWaits(s: Sys)
    requires Inv(s) && s.def.bodyAware && s.filter.hasWriter && Undecided(s) && !ObserverCanAnswer(s)
    ensures Waiting(s) && !s.filter.bodyDone
  {
    ResolvedIsDecided(s);
    hide Undecided, Queued;
    assert s.pending.callouts == {};
    AnsweredIsResolved(s);
  }

  lemma AnsweredIsResolved(s: Sys)
    requires Inv(s) && s.def.bodyAware && s.trace.resolved.None?
    ensures !s.w.answer.responded && !s.w.async.goStarted
  {
  }

  /** Without a body or trailers callback an undecided body-aware request stays
      undecided unless its observer answers, in every orderly run. */
  lemma BodyAwareNeedsBody(def: Def, events: seq<Event>, later: seq<Event>)
    requires GoodRun(def, events) && def.bodyAware && Exec(def, events).filter.hasWriter
    requires Undecided(Exec(def, events)) && !ObserverCanAnswer(Exec(def, events))
    requires OrderlyFrom(Exec(def, events), later) && NoBodyComes(later)
    ensures Undecided(Resume(Exec(def, events), later))
  {
    RunKeeps(def, events);
    UndecidedWaits(Exec(def, events));
    WaitingStays(Exec(def, events), later);
  }

  /** A body-aware request whose headers or trailers ended it, undecided, with no
      observer that can answer, is never decided: its last body chunk does not
      come. */
  lemma BodylessIsNeverDecided(def: Def, events: seq<Event>, later: seq<Event>)
    requires GoodRun(def, events) && def.bodyAware && Exec(def, events).filter.hasWriter
    requires Exec(def, events).trace.ended
    requires Undecided(Exec(def, events)) && !ObserverCanAnswer(Exec(def, events))
    requires OrderlyFrom(Exec(def, events), later)
    ensures Undecided(Resume(Exec(def, events), later))
  {
    ReleasedIff(def, events);
    EndedHasNoBody(Exec(def, events), later);
    BodyAwareNeedsBody(def, events, later);
  }

  /** Before completion, a body-aware request with its Writer is decided or can
      still be decided if and only if more of it may come, or it was decided, or
      its observer can answer. */
  lemma BodyAwareCanBeDecidedIff(def: Def, events: seq<Event>)
    requires GoodRun(def, events) && def.bodyAware
    requires Exec(def, events).filter.hasWriter && !Exec(def, events).abi.completed
    ensures var s := Exec(def, events);
            CanBeDecided(def, events) <==> !s.trace.ended || !Undecided(s) || ObserverCanAnswer(s)
  {
    var s := Exec(def, events);
    ReleasedIff(def, events);
    RunGrows(def, events);
    hide Step, Undecided, Exec, ObserverCanAnswer;
    if !Undecided(s) {
      assert events + [] == events;
    } else if ObserverCanAnswer(s) {
      ObserverDecides(def, events);
    } else if !s.trace.ended {
      TrailersDecide(def, events);
    } else if CanBeDecided(def, events) {
      var later :| GoodRun(def, events + later) && !Undecided(Exec(def, events + later));
      RunOn(def, events, later);
      BodylessIsNeverDecided(def, events, later);
      assert false;
    }
  }

  /** Trailers release a body-aware request, whose handler then never runs. */
  lemma TrailersDecide(def: Def, events: seq<Event>)
    requires GoodRun(def, events) && def.bodyAware && !Exec(def, events).abi.destroyed
    requires Exec(def, events).filter.hasWriter && !Exec(def, events).abi.completed
    requires Exec(def, events).def == def && Undecided(Exec(def, events)) && !Exec(def, events).trace.ended
    ensures CanBeDecided(def, events)
  {
    var s, e := Exec(def, events), RequestTrailers;
    RunKeeps(def, events);
    ResolvedIsDecided(s);
    HeldHasNoBody(s);
    RunOn(def, events, [e]);
    DeliverLast(s, e);
    assert Step(s, e).trace.log == s.trace.log + [Released] && Step(s, e).w == s.w;
    hide Step, Exec, Inv, Resolutions;
    ResolutionsConcat(s.trace.log, [Released]);
    OneResolves(Released);
  }

  lemma HeldHasNoBody(s: Sys)
    requires Inv(s) && s.def.bodyAware && s.trace.resolved.None?
    ensures !s.filter.bodyDone
  {
  }
}
