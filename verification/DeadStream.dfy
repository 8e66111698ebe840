/** Nothing reaches a completed stream, under any handler and any late event. */
module DeadStream {
  import opened WriterModel
  import opened Lifecycle
  import opened LifecycleInvariant
  import opened LifecycleTheorems

  /** A completed request: only its goroutine may still be running. */
  predicate Dead(s: Sys) {
    && s.abi.completed
    && (s.pending.goRunning ==> s.w.async.goStarted)
  }

  predicate NothingSeen(s: Sys, t: Sys) {
    t.trace.log == s.trace.log && t.trace.ran == s.trace.ran
  }

  lemma GoroutineIsSilent(s: Sys, op: Op)
    requires Dead(s) && s.pending.goRunning
    ensures Dead(RunOp(s, op)) && NothingSeen(s, RunOp(s, op))
  {
    SilentOp(s, op);
    RunOpUntouched(s, op);
  }

  lemma StepIsSilent(s: Sys, e: Event)
    requires Dead(s) && Orderly(s, e)
    ensures Dead(Step(s, e)) && NothingSeen(s, Step(s, e))
  {
    hide RunOp, RunOps;
    if e.GoOp? {
      GoroutineIsSilent(s, e.op);
    }
  }

  lemma {:induction false} SilentAfterwards(s: Sys, later: seq<Event>)
    requires Dead(s) && OrderlyFrom(s, later)
    ensures Dead(Resume(s, later)) && NothingSeen(s, Resume(s, later))
    decreases |later|
  {
    hide Step, Dead, Orderly;
    if later != [] {
      SilentAfterwards(s, later[..|later| - 1]);
      StepIsSilent(Resume(s, later[..|later| - 1]), later[|later| - 1]);
    }
  }

  /** After stream_complete no continuation, event function or scheduled task
      runs and the host sees no further effect, whatever the handler started
      and however late, often or out of order callbacks arrive. */
  lemma NothingTouchesDeadStream(def: Def, events: seq<Event>, later: seq<Event>)
    requires OrderlyFrom(InitSys(def), events) && Exec(def, events).abi.completed
    requires OrderlyFrom(Exec(def, events), later)
    ensures NothingSeen(Exec(def, events), Resume(Exec(def, events), later))
  {
    RunGrows(def, events);
    SilentAfterwards(Exec(def, events), later);
  }

  /** The goroutine's context is cancelled once the stream is complete. */
  predicate Cancelled(s: Sys) {
    s.abi.completed && s.w.async.goStarted ==> s.w.async.goCancelled
  }

  lemma GoroutineStartsNothing(s: Sys, op: Op)
    requires s.w.async.goStarted
    ensures RunOp(s, op).w.async == s.w.async && RunOp(s, op).abi.completed == s.abi.completed
  {
  }

  lemma {:induction false} ScriptsDoNotComplete(s: Sys, ops: seq<Op>)
    ensures RunOps(s, ops).abi.completed == s.abi.completed
    decreases |ops|
  {
    if ops != [] {
      ScriptsDoNotComplete(s, ops[..|ops| - 1]);
      OpDoesNotComplete(RunOps(s, ops[..|ops| - 1]), ops[|ops| - 1]);
    }
  }

  lemma OpDoesNotComplete(s: Sys, op: Op)
    ensures RunOp(s, op).abi.completed == s.abi.completed
  {
  }

  lemma OnlyCompleteCompletes(s: Sys, e: Event)
    requires !s.abi.completed && !e.Complete?
    ensures !Step(s, e).abi.completed
  {
    hide RunOp, RunOps, Flush, Pass;
    match e
    case RequestHeaders(endStream, script) =>
      var s1 := Arrived(s, endStream).(filter := s.filter.(hasWriter := true), w := FRESH_WRITER);
      ScriptsDoNotComplete(s1, script);
      FlushUntouched(RunOps(s1, script), false);
      FlushUntouched(Flush(RunOps(s1, script), false), false);
    case RequestBody(endStream, script) =>
      var s1 := s.(filter := s.filter.(bodyDone := true));
      ScriptsDoNotComplete(s1, script);
      FlushUntouched(RunOps(s1, script), false);
      FlushUntouched(Flush(RunOps(s1, script), false), false);
    case Response(script) => ScriptsDoNotComplete(s, script);
    case GoOp(op) => OpDoesNotComplete(s, op);
    case Scheduled(id) => FlushUntouched(Ran(DropTask(s, id), TaskRan), true);
    case CalloutDone(id, script) =>
      var s1 := Ran(ClearCalloutFn(DropCallout(s, id)), CalloutRan);
      ScriptsDoNotComplete(s1, script);
      FlushUntouched(RunOps(s1, script), true);
    case StreamEvent(id, script) => ScriptsDoNotComplete(Ran(s, StreamRan), script);
    case StreamComplete(id, script) => StreamEndDoesNotComplete(s, id, script);
    case StreamReset(id, script) => StreamEndDoesNotComplete(s, id, script);
    case _ =>
  }

  lemma StreamEndDoesNotComplete(s: Sys, id: nat, script: seq<Op>)
    requires !s.abi.completed
    ensures !OnStreamComplete(s, id, script).abi.completed && !OnStreamReset(s, id, script).abi.completed
  {
    hide RunOps, Flush;
    ScriptsDoNotComplete(Ran(DropStream(s, id), StreamRan), script);
    var t := LastStreamEvent(DropStream(s, id), script);
    FlushUntouched(t, true);
    FlushUntouched(t, !t.w.answer.responded);
    FlushUntouched(DropStream(s, id), true);
  }

  lemma CompleteCancels(s: Sys)
    requires Untouched(s)
    ensures Cancelled(OnComplete(s))
  {
  }

  lemma CancelledStays(s: Sys, e: Event)
    requires s.abi.completed && Cancelled(s) && Untouched(s) && Orderly(s, e)
    ensures Cancelled(Step(s, e))
  {
    hide RunOp, RunOps;
    if e.GoOp? {
      GoroutineStartsNothing(s, e.op);
    }
  }

  /** A client that disconnects cancels the context of a goroutine it left
      behind. */
  lemma {:induction false} DisconnectCancels(def: Def, events: seq<Event>)
    requires OrderlyFrom(InitSys(def), events)
    ensures Cancelled(Exec(def, events))
    decreases |events|
  {
    hide Step, Cancelled, Orderly, Untouched;
    if events == [] {
      StartsUncancelled(def);
    } else {
      var p, e := events[..|events| - 1], events[|events| - 1];
      RunGrows(def, p);
      DisconnectCancels(def, p);
      CancelledNext(Exec(def, p), e);
    }
  }

  lemma StartsUncancelled(def: Def)
    ensures Cancelled(InitSys(def))
  {
  }

  lemma CancelledNext(s: Sys, e: Event)
    requires Cancelled(s) && Untouched(s) && Orderly(s, e)
    ensures Cancelled(Step(s, e))
  {
    if s.abi.completed {
      CancelledStays(s, e);
    } else if e.Complete? {
      CompleteCancels(s);
    } else {
      OnlyCompleteCompletes(s, e);
    }
  }
}
