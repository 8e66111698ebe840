/** Exactly when a paused request can still be decided. */
module WakeUps {
  import opened WriterModel
  import opened Lifecycle
  import opened LifecycleInvariant
  import opened LifecycleTheorems
  import opened Observers
  import opened Reachable
  import opened Deliveries
  import opened ResolutionBudget

  /** Nothing outstanding resumes the request, none of it is to come that would
      release it, and no observer can answer it. */
  predicate Lost(s: Sys) {
    Reach(s) && s.filter.hasWriter && Live(s) == 0 && Releasable(s) == 0 && !ObserverCanAnswer(s)
  }

  /** An observer that cannot answer and starts nothing changes nothing. */
  lemma LostResponse(s: Sys, script: seq<Op>)
    requires Lost(s) && Synchronous(script) && s.def.observer && !s.abi.localResponseSent
    ensures var t := RunOps(s, script);
            && Reach(t) && t.filter == s.filter && t.def == s.def && Live(t) == 0 && !SendsAtOnce(t)
            && Resolutions(t.trace.log) == Resolutions(s.trace.log)
  {
    hide RunOps, Resolutions, Reach;
    OpsReach(s, script);
    ScriptResolves(s, script);
    NothingStarts(s, script);
  }

  lemma LostQuietly(s: Sys, e: Event)
    requires Lost(s) && Orderly(s, e) && !e.Response? && !e.Complete?
    ensures var t := Step(s, e);
            && t.trace.log == s.trace.log && Live(t) == 0 && t.def == s.def
            && t.abi.localResponseSent == s.abi.localResponseSent && SendsAtOnce(t) == SendsAtOnce(s)
  {
    hide RunOps, Flush, Resolutions;
  }

  lemma LostComplete(s: Sys)
    requires Lost(s)
    ensures var t := OnComplete(s);
            && Live(t) == 0 && t.def == s.def && t.abi.localResponseSent == s.abi.localResponseSent
            && SendsAtOnce(t) == SendsAtOnce(s) && (!s.def.observer ==> t.trace.log == s.trace.log)
  {
    hide Resolutions;
  }

  lemma LostStep(s: Sys, e: Event)
    requires Lost(s) && Orderly(s, e) && (s.def.observer ==> Disciplined(s, e))
    ensures Lost(Step(s, e)) && Resolutions(Step(s, e).trace.log) == Resolutions(s.trace.log)
    ensures Step(s, e).def == s.def && (!s.def.observer ==> Step(s, e).trace.log == s.trace.log)
  {
    StepReach(s, e);
    StepGrew(s, e);
    GrewReleasable(s, Step(s, e));
    hide RunOps, Reach, Resolutions, Live, SendsAtOnce, OnComplete, Releasable, OnRequestBody, OnRequestTrailers;
    match e
    case Response(script) =>
      if s.def.observer && !s.abi.localResponseSent { LostResponse(s, script); }
    case Complete =>
      LostComplete(s);
      CompleteResolvesNothing(s);
    case _ =>
      LostQuietly(s, e);
  }

  /** A lost request stays lost: whatever arrives, the host is neither told to go
      on nor given an answer; without an observer it sees nothing at all. */
  lemma {:induction false} LostStaysLost(s: Sys, later: seq<Event>)
    requires Lost(s) && OrderlyFrom(s, later) && (s.def.observer ==> DisciplinedFrom(s, later))
    ensures Lost(Resume(s, later)) && Resume(s, later).def == s.def
    ensures Resolutions(Resume(s, later).trace.log) == Resolutions(s.trace.log)
    ensures !s.def.observer ==> Resume(s, later).trace.log == s.trace.log
    decreases |later|
  {
    hide Step, Orderly, Disciplined, Lost, Resolutions;
    if later != [] {
      var p, e := later[..|later| - 1], later[|later| - 1];
      LostStaysLost(s, p);
      LostStep(Resume(s, p), e);
    }
  }

  lemma {:induction false} RunOn(def: Def, events: seq<Event>, later: seq<Event>)
    ensures Exec(def, events + later) == Resume(Exec(def, events), later)
    ensures OrderlyFrom(InitSys(def), events + later) <==>
            OrderlyFrom(InitSys(def), events) && OrderlyFrom(Exec(def, events), later)
    ensures DisciplinedFrom(InitSys(def), events + later) <==>
            DisciplinedFrom(InitSys(def), events) && DisciplinedFrom(Exec(def, events), later)
    decreases |later|
  {
    hide Step, Orderly, Disciplined;
    if later == [] {
      assert events + later == events;
    } else {
      var p, e := later[..|later| - 1], later[|later| - 1];
      var all := events + later;
      RunOn(def, events, p);
      assert all[..|all| - 1] == events + p && all[|all| - 1] == e;
    }
  }

  /** Some way for Envoy to go on decides the request. */
  ghost predicate CanBeDecided(def: Def, events: seq<Event>) {
    exists later :: GoodRun(def, events + later) && !Undecided(Exec(def, events + later))
  }

  /** A paused request can still be decided if and only if one thing it waits for
      is live, or more of the request is to come, or an observer can answer it; a
      callout without a continuation is not live. */
  lemma CanBeDecidedIff(def: Def, events: seq<Event>)
    requires GoodRun(def, events) && PausedUndecided(Exec(def, events))
    ensures var s := Exec(def, events);
            CanBeDecided(def, events) <==> Live(s) == 1 || Releasable(s) == 1 || ObserverCanAnswer(s)
  {
    var s := Exec(def, events);
    RunGrows(def, events);
    RunReaches(def, events);
    PausedIsReady(def, events);
    hide Exec, Resolutions, Live, Reach, Resume, Open, Releasable, ObserverCanAnswer;
    if Live(s) == 1 || Releasable(s) == 1 {
      var later := EverythingDelivered(s);
      RunOn(def, events, later);
    } else if ObserverCanAnswer(s) {
      ObserverDecides(def, events);
    } else if CanBeDecided(def, events) {
      var later :| GoodRun(def, events + later) && !Undecided(Exec(def, events + later));
      RunOn(def, events, later);
      LostStaysLost(s, later);
      assert false;
    }
  }

  /** The observer answers with its next response callback. */
  lemma ObserverDecides(def: Def, events: seq<Event>)
    requires GoodRun(def, events) && Undecided(Exec(def, events)) && ObserverCanAnswer(Exec(def, events))
    requires var s := Exec(def, events); s.filter.hasWriter && !s.abi.completed && !s.abi.destroyed
    ensures CanBeDecided(def, events)
  {
    var s, script := Exec(def, events), [Send(200, "")];
    var e := Response(script);
    assert script[0].Send? && HasSend(script);
    RunKeeps(def, events);
    ResolvedIsDecided(s);
    RunOn(def, events, [e]);
    DeliverLast(s, e);
    NothingStarts(s, script);
    hide Exec, Inv, RunOps, Resolutions, HasSend;
    ResponseResolves(s, script);
  }

  lemma PausedIsReady(def: Def, events: seq<Event>)
    requires GoodRun(def, events) && PausedUndecided(Exec(def, events))
    ensures var s := Exec(def, events);
            Open(s) && Live(s) <= Tokens(s.pending) <= 1 && Releasable(s) <= 1
  {
    hide Exec;
    RunKeeps(def, events);
    ResolvedIsDecided(Exec(def, events));
  }
}
