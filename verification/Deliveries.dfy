/** Delivering the callbacks, goroutines and tasks a request is waiting for. */
module Deliveries {
  import opened WriterModel
  import opened Lifecycle
  import opened LifecycleTheorems
  import opened Reachable

  /** Continuations start no further asynchronous work. */
  predicate SynchronousContinuation(e: Event) {
    match e
    case CalloutDone(_, script) => Synchronous(script)
    case StreamEvent(_, script) => Synchronous(script)
    case StreamComplete(_, script) => Synchronous(script)
    case StreamReset(_, script) => Synchronous(script)
    case _ => true
  }

  predicate PlainRun(s: Sys, events: seq<Event>) {
    && OrderlyFrom(s, events)
    && DisciplinedFrom(s, events)
    && forall e | e in events :: SynchronousContinuation(e)
  }

  /** Callbacks, goroutines and tasks that can resume the request. */
  function Live(s: Sys): nat {
    (if s.w.async.calloutFn then |s.pending.callouts| else 0) + |s.pending.streams| + |s.pending.tasks|
    + (if s.pending.goRunning then 1 else 0)
  }

  /** A body or trailers callback can still release the request. */
  function Releasable(s: Sys): nat {
    if Held(s) && !s.filter.bodyDone && !s.trace.ended then 1 else 0
  }

  /** The resolutions the host has seen, and those to come if everything is
      delivered. */
  function Due(s: Sys): nat {
    Resolutions(s.trace.log) + Live(s) + Releasable(s)
  }

  /** Neither complete nor answered on the spot. */
  predicate Open(s: Sys) {
    !s.abi.completed && !s.w.Settled()
  }

  predicate Ready(s: Sys) {
    Reach(s) && s.filter.hasWriter && Open(s)
  }

  // ----- delivering what is outstanding -----

  lemma {:induction false} Prepend(s: Sys, e: Event, rest: seq<Event>)
    requires Orderly(s, e) && OrderlyFrom(Step(s, e), rest)
    ensures OrderlyFrom(s, [e] + rest) && Resume(s, [e] + rest) == Resume(Step(s, e), rest)
    ensures Disciplined(s, e) && DisciplinedFrom(Step(s, e), rest) ==> DisciplinedFrom(s, [e] + rest)
    decreases |rest|
  {
    hide Step, Orderly, Disciplined;
    var all := [e] + rest;
    if rest == [] {
      assert all == [e] && all[..0] == [];
    } else {
      Prepend(s, e, rest[..|rest| - 1]);
      assert all[..|all| - 1] == [e] + rest[..|rest| - 1] && all[|all| - 1] == rest[|rest| - 1];
    }
  }

  lemma DeliverLast(u: Sys, e: Event)
    requires Orderly(u, e)
    ensures OrderlyFrom(u, [e]) && (Disciplined(u, e) ==> DisciplinedFrom(u, [e])) && Resume(u, [e]) == Step(u, e)
  {
    hide Step, Orderly, Disciplined;
    assert [e][..0] == [];
  }

  lemma CalloutFires(s: Sys, id: nat)
    requires Ready(s) && id in s.pending.callouts && s.w.async.calloutFn
    ensures var t := Step(s, CalloutDone(id, []));
            && Ready(t) && Resolutions(t.trace.log) == Resolutions(s.trace.log) + 1 && Live(t) == Live(s) - 1
            && t.w.async.Started() == s.w.async.Started()
  {
    hide Flush, Resolutions;
    DropReach(s, id);
    FlushResolves(Ran(ClearCalloutFn(DropCallout(s, id)), CalloutRan));
    SetOfOne(s.pending.callouts, id);
  }

  lemma SetOfOne(ids: set<nat>, id: nat)
    requires |ids| <= 1 && id in ids
    ensures |ids - {id}| == 0 && |ids| == 1
  {
    assert |ids - {id}| == |ids| - 1;
  }

  lemma StreamFires(s: Sys, id: nat)
    requires Ready(s) && id in s.pending.streams
    ensures var t := Step(s, StreamComplete(id, []));
            && Ready(t) && Resolutions(t.trace.log) == Resolutions(s.trace.log) + 1 && Live(t) == Live(s) - 1
            && t.w.async.Started() == s.w.async.Started()
  {
    hide Flush, Resolutions;
    DropReach(s, id);
    var s1 := DropStream(s, id);
    FlushResolves(if s1.w.async.streamEventFn then LastStreamEvent(s1, []) else s1);
    SetOfOne(s.pending.streams, id);
  }

  lemma TaskFires(s: Sys, id: nat)
    requires Ready(s) && id in s.pending.tasks
    ensures var t := Step(s, Scheduled(id));
            && Ready(t) && Resolutions(t.trace.log) == Resolutions(s.trace.log) + 1 && Live(t) == Live(s) - 1
            && t.w.async.Started() == s.w.async.Started()
  {
    hide Flush, Resolutions;
    DropReach(s, id);
    FlushResolves(Ran(DropTask(s, id), TaskRan));
    SetOfOne(s.pending.tasks, id);
  }

  lemma GoReturns(s: Sys)
    requires Ready(s) && s.pending.goRunning
    ensures var t := Step(s, GoReturn);
            && Ready(t) && t.trace == s.trace && Live(t) == Live(s) && !t.pending.goRunning
            && t.w.async.Started() == s.w.async.Started()
  {
    GoReturnReach(s);
    assert s.pending.tasks == {};
  }

  lemma OneDelivery(s: Sys) returns (e: Event)
    requires Ready(s) && Live(s) > 0
    ensures Orderly(s, e) && Disciplined(s, e) && SynchronousContinuation(e)
    ensures var t := Step(s, e);
            && Ready(t) && Resolutions(t.trace.log) + Live(t) == Resolutions(s.trace.log) + Live(s)
            && t.w.async.Started() == s.w.async.Started()
            && (Live(t) < Live(s) || (Live(t) == Live(s) && s.pending.goRunning && !t.pending.goRunning))
  {
    hide Step, Resolutions, Reach;
    if s.w.async.calloutFn && s.pending.callouts != {} {
      var id :| id in s.pending.callouts;
      e := CalloutDone(id, []);
      CalloutFires(s, id);
    } else if s.pending.streams != {} {
      var id :| id in s.pending.streams;
      e := StreamComplete(id, []);
      StreamFires(s, id);
    } else if s.pending.tasks != {} {
      var id :| id in s.pending.tasks;
      e := Scheduled(id);
      TaskFires(s, id);
    } else {
      e := GoReturn;
      GoReturns(s);
    }
    ReadyIsAlive(s);
  }

  lemma ReadyIsAlive(s: Sys)
    requires Ready(s)
    ensures !s.abi.destroyed
  {
  }

  /** Delivering everything resolves the request once for each thing that was
      outstanding. */
  lemma {:induction false} AllDelivered(s: Sys) returns (events: seq<Event>)
    requires Ready(s)
    ensures PlainRun(s, events) && Resume(s, events).w.async.Started() == s.w.async.Started()
    ensures Resolutions(Resume(s, events).trace.log) == Resolutions(s.trace.log) + Live(s)
    decreases Live(s), s.pending.goRunning
  {
    hide Step, Resolutions, Ready, Orderly, Disciplined, Live, SynchronousContinuation;
    if Live(s) == 0 {
      events := [];
    } else {
      var e := OneDelivery(s);
      var rest := AllDelivered(Step(s, e));
      events := [e] + rest;
      Prepend(s, e, rest);
    }
  }

  lemma TrailersRelease(s: Sys)
    requires Ready(s) && Releasable(s) == 1
    ensures Orderly(s, RequestTrailers)
    ensures var t := Step(s, RequestTrailers);
            && Ready(t) && Resolutions(t.trace.log) == Resolutions(s.trace.log) + 1
            && Live(t) == Live(s) && Releasable(t) == 0 && t.w == s.w
  {
    StepReach(s, RequestTrailers);
    hide Resolutions, Reach;
    ResolutionsConcat(s.trace.log, [Released]);
    OneResolves(Released);
    ReadyIsAlive(s);
  }

  /** Releasing the request first and then delivering everything resolves it as
      often as is due. */
  lemma EverythingDelivered(s: Sys) returns (events: seq<Event>)
    requires Ready(s)
    ensures PlainRun(s, events) && Resume(s, events).w.async.Started() == s.w.async.Started()
    ensures Resolutions(Resume(s, events).trace.log) == Due(s)
  {
    if Releasable(s) == 0 {
      events := AllDelivered(s);
    } else {
      TrailersRelease(s);
      var rest := AllDelivered(Step(s, RequestTrailers));
      hide Step, Orderly, Disciplined, Resume, Resolutions, Live, Ready, Releasable;
      events := [RequestTrailers] + rest;
      TrailersDisciplined(s);
      Prepend(s, RequestTrailers, rest);
    }
  }

  lemma TrailersDisciplined(s: Sys)
    ensures Disciplined(s, RequestTrailers)
  {
  }
}
