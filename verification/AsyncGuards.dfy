/** Exactly when a request can still be resolved twice. The guards are not
    symmetric: HTTPCallout does not look for a running stream and Go looks for
    nothing but Go, so a handler can start several operations, and so can a
    continuation or an observer. */
module AsyncGuards {
  import opened WriterModel
  import opened Lifecycle
  import opened Reachable
  import opened Deliveries
  import opened ResolutionBudget

  /** By delivering what is outstanding, nothing more being started. */
  ghost predicate CanResolveTwice(s: Sys) {
    exists events :: PlainRun(s, events) && Resolutions(Resume(s, events).trace.log) >= 2
  }

  /** By any continuations and observers. */
  ghost predicate CanResolveTwiceByAnyCode(s: Sys) {
    exists events :: OrderlyFrom(s, events) && Resolutions(Resume(s, events).trace.log) >= 2
  }

  // ----- the exact conditions -----

  /** In every state Envoy can reach: releasing the request and delivering what is
      outstanding can resolve it twice if and only if it was resolved twice
      already, or it is open and two or more resolutions are due. */
  lemma ResolvedTwiceIff(def: Def, events: seq<Event>)
    requires OrderlyFrom(InitSys(def), events) && !def.bodyAware && Exec(def, events).filter.hasWriter
    ensures var s := Exec(def, events);
            CanResolveTwice(s) <==>
            Resolutions(s.trace.log) >= 2 || (Open(s) && Due(s) >= 2)
  {
    hide Exec, Resolutions, Due, Reach, Open, Resume, PlainRun;
    var s := Exec(def, events);
    RunReaches(def, events);
    if Open(s) && Due(s) >= 2 {
      var rest := EverythingDelivered(s);
    } else if Resolutions(s.trace.log) >= 2 {
      NothingMore(s);
    } else if CanResolveTwice(s) {
      var rest :| PlainRun(s, rest) && Resolutions(Resume(s, rest).trace.log) >= 2;
      SpentRun(s, rest);
      assert false;
    }
  }

  lemma NothingMore(s: Sys)
    ensures PlainRun(s, []) && Resume(s, []) == s
  {
  }

  /** By any code: if and only if it was resolved twice already, or it is open
      and enough is due or still startable. */
  lemma ResolvedTwiceByAnyCodeIff(def: Def, events: seq<Event>)
    requires OrderlyFrom(InitSys(def), events) && !def.bodyAware && Exec(def, events).filter.hasWriter
    ensures var s := Exec(def, events);
            CanResolveTwiceByAnyCode(s) <==>
            Resolutions(s.trace.log) >= 2 || (Open(s) && Due(s) + Startable(s) >= 2)
  {
    hide Exec, Resolutions, Due, Startable, Reach, Open, Resume, PlainRun, OrderlyFrom;
    var s := Exec(def, events);
    RunReaches(def, events);
    if Resolutions(s.trace.log) >= 2 {
      NothingMore(s);
      PlainIsOrderly(s, []);
    } else if Open(s) && Due(s) >= 2 {
      var rest := EverythingDelivered(s);
      PlainIsOrderly(s, rest);
    } else if Open(s) && Due(s) + Startable(s) >= 2 {
      StartingMore(s);
    } else if CanResolveTwiceByAnyCode(s) {
      var rest :| OrderlyFrom(s, rest) && Resolutions(Resume(s, rest).trace.log) >= 2;
      SpentForGoodRun(s, rest);
      assert false;
    }
  }

  lemma PlainIsOrderly(s: Sys, events: seq<Event>)
    requires PlainRun(s, events)
    ensures OrderlyFrom(s, events)
  {
  }

  // ----- starting another operation -----

  const GO: seq<Op> := [Go]
  const CALLOUT_AND_GO: seq<Op> := [Callout(Accepted(0), true), Go]

  lemma GoStarts(s: Sys)
    requires Ready(s) && !s.w.async.goStarted
    ensures var u := RunOps(s, GO);
            && Ready(u) && u.trace.log == s.trace.log && u.def == s.def && Live(u) == Live(s) + 1
            && u.w.Settled() == s.w.Settled() && Releasable(u) == Releasable(s)
  {
    OneCall(s, Go);
    OpReach(s, Go);
    assert !s.pending.goRunning;
    hide Resolutions;
  }

  lemma CalloutAndGoStart(s: Sys)
    requires Ready(s) && !s.w.async.goStarted && !s.w.async.calloutStarted
    ensures var u := RunOps(s, CALLOUT_AND_GO);
            && Ready(u) && u.trace.log == s.trace.log && u.def == s.def && Live(u) == Live(s) + 2
            && Releasable(u) == Releasable(s)
  {
    var op := Callout(Accepted(0), true);
    hide RunOp, Live, Ready, Resolutions, Releasable;
    TwoCalls(s, op, Go);
    CalloutStarts(s);
    OneCall(RunOp(s, op), Go);
    GoStarts(RunOp(s, op));
  }

  lemma OneCall(s: Sys, op: Op)
    ensures RunOps(s, [op]) == RunOp(s, op)
  {
    hide RunOp;
    assert [op][..0] == [];
  }

  lemma TwoCalls(s: Sys, first: Op, second: Op)
    ensures RunOps(s, [first, second]) == RunOp(RunOp(s, first), second)
  {
    hide RunOp;
    assert [first, second][..1] == [first];
    OneCall(s, first);
  }

  lemma CalloutStarts(s: Sys)
    requires Ready(s) && !s.w.async.goStarted && !s.w.async.calloutStarted
    ensures var t := RunOp(s, Callout(Accepted(0), true));
            && Ready(t) && t.trace.log == s.trace.log && t.def == s.def && Live(t) == Live(s) + 1
            && !t.w.async.goStarted && Releasable(t) == Releasable(s)
  {
    OpReach(s, Callout(Accepted(0), true));
    hide Resolutions;
    assert s.pending.callouts == {};
    assert |{0}| == 1;
  }

  lemma CalloutGoes(s: Sys, id: nat)
    requires Ready(s) && id in s.pending.callouts && s.w.async.calloutFn && !s.w.async.goStarted
    ensures var t := Step(s, CalloutDone(id, GO));
            Ready(t) && Resolutions(t.trace.log) == Resolutions(s.trace.log) + 1 && Live(t) >= 1
  {
    hide RunOps, Flush, Resolutions;
    DropReach(s, id);
    var s1 := Ran(ClearCalloutFn(DropCallout(s, id)), CalloutRan);
    GoStarts(s1);
    FlushResolves(RunOps(s1, GO));
  }

  lemma StreamGoes(s: Sys, id: nat)
    requires Ready(s) && id in s.pending.streams && s.w.async.streamEventFn && !s.w.async.goStarted
    ensures var t := Step(s, StreamComplete(id, GO));
            Ready(t) && Resolutions(t.trace.log) == Resolutions(s.trace.log) + 1 && Live(t) >= 1
  {
    hide RunOps, Flush, Resolutions;
    DropReach(s, id);
    GoStarts(Ran(DropStream(s, id), StreamRan));
    FlushResolves(LastStreamEvent(DropStream(s, id), GO));
  }

  lemma ObserverStarts(s: Sys, script: seq<Op>)
    requires Ready(s) && s.def.observer && !s.abi.localResponseSent && !s.w.async.goStarted
    requires script == GO || (script == CALLOUT_AND_GO && !s.w.async.calloutStarted)
    ensures var t := Step(s, Response(script));
            && Ready(t) && Resolutions(t.trace.log) == Resolutions(s.trace.log)
            && Live(t) == Live(s) + |script| && Releasable(t) == Releasable(s)
  {
    hide RunOps, Resolutions;
    if script == GO { GoStarts(s); } else { CalloutAndGoStart(s); }
  }

  /** The code that may run starts what is missing for a second resolution. */
  lemma StartingMore(s: Sys)
    requires Ready(s) && Due(s) < 2 && Due(s) + Startable(s) >= 2
    ensures CanResolveTwiceByAnyCode(s)
  {
    var e: Event;
    hide Step, Resolutions, Ready, Live, Releasable;
    ReadyIsAlive(s);
    RoomIs(s);
    if s.w.async.calloutFn && s.pending.callouts != {} {
      var id :| id in s.pending.callouts;
      e := CalloutDone(id, GO);
      CalloutGoes(s, id);
    } else if s.w.async.streamEventFn && s.pending.streams != {} {
      var id :| id in s.pending.streams;
      e := StreamComplete(id, GO);
      StreamGoes(s, id);
    } else if Due(s) >= 1 {
      e := Response(GO);
      ObserverStarts(s, GO);
    } else {
      e := Response(CALLOUT_AND_GO);
      ObserverStarts(s, CALLOUT_AND_GO);
    }
    var rest := EverythingDelivered(Step(s, e));
    Prepend(s, e, rest);
    assert OrderlyFrom(s, [e] + rest);
  }

  lemma RoomIs(s: Sys)
    requires Ready(s)
    ensures s.filter.hasWriter && !s.abi.completed
    ensures s.w.async.calloutFn && s.pending.callouts != {} ==> Live(s) >= 1
    ensures s.w.async.streamEventFn && s.pending.streams != {} ==> Live(s) >= 1
  {
  }
}
