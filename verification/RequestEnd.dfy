/** When the request itself has ended, and what releases it. */
module RequestEnd {
  import opened WriterModel
  import opened Lifecycle

  /** No body ends where the headers or trailers ended the request, only trailers
      release a body-aware one, and nothing is destroyed before it is complete. */
  predicate BodyOrder(s: Sys) {
    && (s.filter.bodyDone ==> s.filter.hasWriter && !s.trace.ended)
    && (s.def.bodyAware && s.trace.released ==> s.trace.ended)
    && (s.trace.released ==> s.filter.hasWriter)
    && (s.abi.destroyed ==> s.abi.completed)
  }

  /** The callback e returns Continue for a request that the host was holding. */
  predicate Releases(s: Sys, e: Event) {
    Held(s) && (e.RequestTrailers? || (e.RequestBody? && !s.def.bodyAware))
  }

  predicate SameBody(s: Sys, t: Sys) {
    && t.filter == s.filter && t.trace.ended == s.trace.ended && t.trace.released == s.trace.released
    && t.abi.completed == s.abi.completed && t.abi.destroyed == s.abi.destroyed && t.def == s.def
  }

  lemma OpSameBody(s: Sys, op: Op)
    ensures SameBody(s, RunOp(s, op))
  {
  }

  lemma {:induction false} OpsSameBody(s: Sys, ops: seq<Op>)
    ensures SameBody(s, RunOps(s, ops))
    decreases |ops|
  {
    hide RunOp;
    if ops != [] {
      OpsSameBody(s, ops[..|ops| - 1]);
      OpSameBody(RunOps(s, ops[..|ops| - 1]), ops[|ops| - 1]);
    }
  }

  lemma FlushSameBody(s: Sys, cont: bool)
    ensures SameBody(s, Flush(s, cont)) && SameBody(s, Pass(s))
  {
  }

  lemma StreamEndSameBody(s: Sys, id: nat, script: seq<Op>)
    ensures SameBody(s, OnStreamComplete(s, id, script)) && SameBody(s, OnStreamReset(s, id, script))
  {
    hide RunOps, Flush;
    OpsSameBody(Ran(DropStream(s, id), StreamRan), script);
    var t := LastStreamEvent(DropStream(s, id), script);
    FlushSameBody(t, true);
    FlushSameBody(t, !t.w.answer.responded);
    FlushSameBody(DropStream(s, id), true);
  }

  lemma HeadersBody(s: Sys, endStream: bool, script: seq<Op>)
    ensures var t := OnRequestHeaders(Arrived(s, endStream), script);
            SameBody(Arrived(s, endStream).(filter := s.filter.(hasWriter := true)), t)
  {
    hide RunOps, Flush, Pass;
    var s0 := Arrived(s, endStream);
    var s1 := s0.(filter := s.filter.(hasWriter := true), w := FRESH_WRITER);
    OpsSameBody(s1, script);
    FlushSameBody(RunOps(s1, script), false);
    FlushSameBody(Flush(RunOps(s1, script), false), false);
  }

  lemma BodyBody(s: Sys, endStream: bool, script: seq<Op>)
    ensures var t := OnRequestBody(s, endStream, script);
            var released := s.trace.released || (Held(s) && !s.def.bodyAware);
            SameBody(s.(filter := s.filter.(bodyDone := endStream || s.filter.bodyDone),
                        trace := s.trace.(released := released)), t)
  {
    hide RunOps, Flush, Pass;
    var s1 := s.(filter := s.filter.(bodyDone := true));
    OpsSameBody(s1, script);
    FlushSameBody(RunOps(s1, script), false);
    FlushSameBody(Flush(RunOps(s1, script), false), false);
  }

  /** What each step does to the end and the release of the request. */
  lemma StepBodyOrder(s: Sys, e: Event)
    requires BodyOrder(s) && Orderly(s, e)
    ensures BodyOrder(Step(s, e)) && Step(s, e).def == s.def
    ensures Step(s, e).trace.released <==> s.trace.released || Releases(s, e)
    ensures s.filter.hasWriter ==>
              Step(s, e).filter.hasWriter && (Step(s, e).trace.ended <==> s.trace.ended || e.RequestTrailers?)
  {
    hide RunOp, RunOps, Flush, Pass, OnRequestHeaders, OnRequestBody, OnStreamComplete, OnStreamReset;
    match e
    case RequestHeaders(endStream, script) => HeadersBody(s, endStream, script);
    case RequestBody(endStream, script) => BodyBody(s, endStream, script);
    case RequestTrailers =>
    case Response(script) => OpsSameBody(s, script);
    case GoOp(op) => OpSameBody(s, op);
    case Scheduled(id) => FlushSameBody(Ran(DropTask(s, id), TaskRan), true);
    case CalloutDone(id, script) =>
      var s1 := Ran(ClearCalloutFn(DropCallout(s, id)), CalloutRan);
      OpsSameBody(s1, script);
      FlushSameBody(RunOps(s1, script), true);
    case StreamEvent(id, script) => OpsSameBody(Ran(s, StreamRan), script);
    case StreamComplete(id, script) => StreamEndSameBody(s, id, script);
    case StreamReset(id, script) => StreamEndSameBody(s, id, script);
    case _ =>
  }

  /** Some body or trailers callback released the request. */
  predicate ReleasedEarly(def: Def, events: seq<Event>) {
    events != [] &&
    (var p := events[..|events| - 1];
     ReleasedEarly(def, p) || Releases(Exec(def, p), events[|events| - 1]))
  }

  /** In every orderly run the request was released if and only if a trailers
      callback, or a body callback of a filter that is not body-aware, came while
      the host was holding it. A body-aware handler then never runs. */
  lemma {:induction false} ReleasedIff(def: Def, events: seq<Event>)
    requires OrderlyFrom(InitSys(def), events)
    ensures BodyOrder(Exec(def, events)) && Exec(def, events).def == def
    ensures Exec(def, events).trace.released <==> ReleasedEarly(def, events)
    ensures def.bodyAware && ReleasedEarly(def, events) ==> !Exec(def, events).filter.bodyDone
    decreases |events|
  {
    hide Step, Orderly, Releases;
    if events != [] {
      ReleasedIff(def, events[..|events| - 1]);
      StepBodyOrder(Exec(def, events[..|events| - 1]), events[|events| - 1]);
    }
  }
}
