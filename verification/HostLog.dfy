/** Everything the host sees of a request, read off the events of any run, whatever
    operations its code starts. */
module HostLog {
  import opened Common
  import opened WriterModel
  import opened Lifecycle
  import opened LifecycleInvariant
  import opened Calls

  predicate Unresolved(log: seq<Effect>) {
    forall e | e in log :: !e.Resolves()
  }

  /** The reply that reaches the host while the code runs whose calls follow
      before: that of the first Send, unless it is deferred. */
  function Answers(before: seq<Op>, calls: seq<Op>): seq<Effect> {
    if !HasSend(before) && SentAtOnce(calls) then [Replied(FirstReply(calls))] else []
  }

  /** A flush that continues: a deferred reply, and again at every flush; nothing
      after an answer on the spot; else the mutations and ContinueRequest. */
  function FlushDue(calls: seq<Op>): seq<Effect> {
    if !HasSend(calls) then Mutations(calls) + [Continued]
    else if Go in BeforeSend(calls) then [Replied(FirstReply(calls))]
    else []
  }

  function ReleaseDue(log: seq<Effect>): seq<Effect> {
    if Unresolved(log) then [Released] else []
  }

  predicate StartsSome(calls: seq<Op>) {
    Go in calls || TheCallout(calls).Some? || TheStream(calls).Some?
  }

  /** What the host sees because of e. */
  function EffectsDue(def: Def, l: Ledger, log: seq<Effect>, e: Event): seq<Effect> {
    var calls := l.calls + CallsDue(def, l, e);
    match e
    case RequestHeaders(_, _) =>
      if def.bodyAware then []
      else if HasSend(calls) || StartsSome(calls) then Answers(l.calls, calls)
      else Mutations(calls) + [Passed]
    case RequestBody(endStream, _) =>
      if !def.bodyAware then ReleaseDue(log)
      else if !endStream then []
      else if HasSend(calls) then Answers(l.calls, calls) + [Passed]
      else Mutations(calls) + [Passed]
    case RequestTrailers => ReleaseDue(log)
    case Complete => if def.observer && l.begun then ResponseLog(calls) else []
    case _ => Answers(l.calls, calls) + (if Flushes(l, e) then FlushDue(calls) else [])
  }

  function Seen(def: Def, events: seq<Event>): seq<Effect> {
    if events == [] then []
    else
      var p, e := events[..|events| - 1], events[|events| - 1];
      Seen(def, p) + EffectsDue(def, Read(def, p), Seen(def, p), e)
  }

  // ----- one call, flush or status -----

  predicate Tracks(s: Sys) {
    && Queued(s) && (s.w.async.goStarted <==> Go in s.trace.issued)
    && (s.trace.resolved.None? && !s.trace.released <==> Unresolved(s.trace.log))
  }

  lemma Grouped(a: seq<Effect>, b: seq<Effect>, c: seq<Effect>)
    ensures (a + b) + c == a + (b + c) && [] + c == c && a + [] == a
  {
  }

  lemma GoIs(s: Sys, op: Op)
    ensures RunOp(s, op).w.async.goStarted == (s.w.async.goStarted || op.Go?)
    ensures RunOp(s, op).trace.issued == s.trace.issued + [op]
  {
  }

  lemma UnresolvedConcat(a: seq<Effect>, b: seq<Effect>)
    ensures Unresolved(a + b) <==> Unresolved(a) && Unresolved(b)
  {
    if Unresolved(a + b) {
      forall e | e in a ensures !e.Resolves() {
        assert e in a + b;
      }
      forall e | e in b ensures !e.Resolves() {
        assert e in a + b;
      }
    }
  }

  lemma OneUnresolved(e: Effect)
    ensures Unresolved([e]) <==> !e.Resolves()
  {
    assert e in [e];
  }

  lemma OpLogs(s: Sys, op: Op)
    requires Tracks(s)
    ensures var t := RunOp(s, op);
            && Tracks(t) && t.trace.issued == s.trace.issued + [op]
            && t.trace.log == s.trace.log + Answers(s.trace.issued, t.trace.issued)
            && t.trace.observed == s.trace.observed
  {
    RunOpQueues(s, op);
    GoIs(s, op);
    SentSnoc(s.trace.issued, op);
    hide RunOp, FirstReply, QueuesAre, HasSend, BeforeSend;
    if op.Send? && !s.w.answer.responded && !s.w.async.goStarted {
      LoudSend(s, op);
      var r := Replied(Reply(op.status % UINT32, s.w.queues.respHdrMuts, op.body));
      FirstReplyIs(s.w.queues, s.trace.issued, s.trace.observed.Some?, op);
      UnresolvedConcat(s.trace.log, [r]);
      OneUnresolved(r);
    } else {
      SilentOp(s, op);
    }
  }

  lemma NoAnswer(ops: seq<Op>)
    ensures Answers(ops, ops) == []
  {
  }

  lemma AnswersSnoc(before: seq<Op>, p: seq<Op>, op: Op)
    ensures Answers(before, before + p) + Answers(before + p, before + p + [op]) == Answers(before, before + p + [op])
  {
    var q := before + p;
    SentSnoc(q, op);
    if HasSend(q) {
      BeforeSendPrefix(q, q + [op]);
    }
    if HasSend(before) {
      BeforeSendPrefix(before, q);
    }
    hide FirstReply, BeforeSend, HasSend;
  }

  lemma {:induction false} OpsLog(s: Sys, ops: seq<Op>)
    requires Tracks(s)
    ensures var t := RunOps(s, ops);
            && Tracks(t) && t.trace.issued == s.trace.issued + ops
            && t.trace.log == s.trace.log + Answers(s.trace.issued, t.trace.issued)
            && t.trace.observed == s.trace.observed
    decreases |ops|
  {
    hide RunOp, Tracks, Answers;
    if ops == [] {
      NoAnswer(s.trace.issued);
      assert s.trace.issued + [] == s.trace.issued && s.trace.log + [] == s.trace.log;
    } else {
      var p, op := ops[..|ops| - 1], ops[|ops| - 1];
      OpsLog(s, p);
      OpLogs(RunOps(s, p), op);
      AnswersSnoc(s.trace.issued, p, op);
      assert s.trace.issued + ops == s.trace.issued + p + [op];
    }
  }

  lemma QueuedMutations(s: Sys)
    requires Queued(s) && !HasSend(s.trace.issued) && s.trace.observed.None?
    ensures QueueEffects(s.w.queues) == Mutations(s.trace.issued)
  {
  }

  lemma FlushLogs(s: Sys, cont: bool)
    requires Tracks(s) && s.trace.observed.None?
    requires s.w.answer.localResp.Some? <==> HasSend(s.trace.issued) && Go in BeforeSend(s.trace.issued)
    ensures var t := Flush(s, cont);
            && Tracks(t) && t.trace.issued == s.trace.issued && t.trace.observed.None?
            && t.trace.log == s.trace.log +
               if cont || HasSend(s.trace.issued) then FlushDue(s.trace.issued) else Mutations(s.trace.issued)
  {
    var calls := s.trace.issued;
    hide HasSend, BeforeSend, FirstReply, QueuesAre, Mutations, QueueEffects;
    if HasSend(calls) {
      if s.w.answer.localResp.Some? {
        UnresolvedConcat(s.trace.log, [Replied(FirstReply(calls))]);
        OneUnresolved(Replied(FirstReply(calls)));
      }
    } else {
      QueuedMutations(s);
      MutationsDecideNothing(calls);
      UnresolvedConcat(s.trace.log, Mutations(calls));
      UnresolvedConcat(s.trace.log, Mutations(calls) + [Continued]);
      UnresolvedConcat(Mutations(calls), [Continued]);
      OneUnresolved(Continued);
    }
  }

  lemma PassLogs(s: Sys)
    requires Tracks(s)
    ensures Tracks(Pass(s)) && Pass(s).trace.log == s.trace.log + [Passed] && Pass(s).trace.issued == s.trace.issued
    ensures s.filter.hasWriter ==>
              Tracks(Release(s)) && Release(s).trace.log == s.trace.log + ReleaseDue(s.trace.log)
              && Release(s).trace.issued == s.trace.issued
  {
    hide QueuesAre, AnswerIs;
    UnresolvedConcat(s.trace.log, [Passed]);
    UnresolvedConcat(s.trace.log, [Released]);
    OneUnresolved(Passed);
    OneUnresolved(Released);
  }

  // ----- one event -----

  lemma ReadsTells(s: Sys, l: Ledger)
    requires Reads(s, l)
    ensures s.w.answer.localResp.Some? <==> HasSend(s.trace.issued) && Go in BeforeSend(s.trace.issued)
    ensures s.w.answer.responded <==> HasSend(s.trace.issued)
    ensures s.w.async.Started() > 0 <==> StartsSome(s.trace.issued)
    ensures s.trace.issued == l.calls && (!l.completed ==> s.trace.observed.None?)
    ensures s.filter == Filter(l.completed, l.bodyDone, l.begun) && s.abi == Abi(l.completed, l.destroyed, l.replied)
    ensures !l.begun ==> l.calls == []
  {
    hide TheCallout, TheStream, HasSend, BeforeSend;
  }

  lemma BeginTracks(s: Sys, l: Ledger, endStream: bool)
    requires Reads(s, l) && Tracks(s) && !l.begun
    ensures Tracks(Arrived(s, endStream).(filter := s.filter.(hasWriter := true), w := FRESH_WRITER))
  {
    hide Unresolved;
  }

  lemma HandlerRan(s: Sys, l: Ledger, script: seq<Op>)
    requires Reads(s, l) && Tracks(s) && l.begun && !l.completed
    ensures var t, calls := RunOps(s, script), l.calls + script;
            && Tracks(t) && t.trace.log == s.trace.log + Answers(l.calls, calls) && t.trace.issued == calls
            && (t.w.answer.responded <==> HasSend(calls)) && (t.w.async.Started() > 0 <==> StartsSome(calls))
            && (t.w.answer.localResp.Some? <==> HasSend(calls) && Go in BeforeSend(calls)) && t.trace.observed.None?
  {
    ReadsTells(s, l);
    OpsLog(s, script);
    OpsReads(s, l, script);
    hide Reads, Tracks, RunOps, StartsSome, HasSend, BeforeSend, Answers;
    ReadsTells(RunOps(s, script), WithCalls(l, script));
  }

  lemma NotSent(before: seq<Op>, calls: seq<Op>)
    ensures !HasSend(calls) ==> Answers(before, calls) == []
  {
  }

  /** A request callback has run the handler and passes, after a flush if nothing
      was answered. */
  lemma HandlerPasses(s: Sys, l: Ledger, script: seq<Op>)
    requires Reads(s, l) && Tracks(s) && l.begun && !l.completed
    ensures var t, calls := RunOps(s, script), l.calls + script;
            if HasSend(calls) then
              Tracks(Pass(t)) && Pass(t).trace.log == s.trace.log + (Answers(l.calls, calls) + [Passed])
            else
              && Tracks(Pass(Flush(t, false)))
              && Pass(Flush(t, false)).trace.log == s.trace.log + (Mutations(calls) + [Passed])
  {
    var t, calls := RunOps(s, script), l.calls + script;
    HandlerRan(s, l, script);
    NotSent(l.calls, calls);
    hide Reads, Tracks, RunOps, Flush, Pass, HasSend, BeforeSend, Answers, Mutations, FlushDue, Release, ReleaseDue;
    if HasSend(calls) {
      PassLogs(t);
      Grouped(s.trace.log, Answers(l.calls, calls), [Passed]);
    } else {
      FlushLogs(t, false);
      PassLogs(Flush(t, false));
      Grouped(s.trace.log, [], Mutations(calls));
      Grouped(s.trace.log, Mutations(calls), [Passed]);
    }
  }

  lemma HeadersDue(def: Def, l: Ledger, log: seq<Effect>, e: Event)
    requires e.RequestHeaders? && l.calls == []
    ensures EffectsDue(def, l, log, e) ==
            if def.bodyAware then []
            else if HasSend(e.script) || StartsSome(e.script) then Answers([], e.script)
            else Mutations(e.script) + [Passed]
  {
    assert [] + e.script == e.script;
    hide HasSend, StartsSome, Answers, Mutations;
  }

  lemma HeadersLog(def: Def, s: Sys, l: Ledger, e: Event)
    requires Reads(s, l) && Tracks(s) && s.def == def && e.RequestHeaders? && Orderly(s, e)
    ensures Tracks(Step(s, e)) && Step(s, e).trace.log == s.trace.log + EffectsDue(def, l, s.trace.log, e)
  {
    var s1 := Arrived(s, e.endStream).(filter := s.filter.(hasWriter := true), w := FRESH_WRITER);
    var l1 := l.(begun := true);
    ReadsTells(s, l);
    HeadersDue(def, l, s.trace.log, e);
    BeginReads(s, l, e.endStream);
    BeginTracks(s, l, e.endStream);
    hide Reads, Tracks, RunOps, Flush, Pass, Mutations, StartsSome, HasSend, Answers, EffectsDue;
    if !def.bodyAware {
      assert [] + e.script == e.script;
      HandlerRan(s1, l1, e.script);
      HandlerPasses(s1, l1, e.script);
    }
  }

  lemma BodyDue(def: Def, l: Ledger, log: seq<Effect>, e: Event)
    requires e.RequestBody?
    ensures EffectsDue(def, l, log, e) ==
            if !def.bodyAware then ReleaseDue(log)
            else if !e.endStream then []
            else if HasSend(l.calls + e.script) then Answers(l.calls, l.calls + e.script) + [Passed]
            else Mutations(l.calls + e.script) + [Passed]
  {
    hide HasSend, Answers, Mutations, ReleaseDue;
  }

  lemma BodyTracks(s: Sys, endStream: bool)
    requires Tracks(s)
    ensures Tracks(if endStream then s.(filter := s.filter.(bodyDone := true)) else s)
  {
  }

  lemma BodyLog(def: Def, s: Sys, l: Ledger, e: Event)
    requires Reads(s, l) && Tracks(s) && s.def == def && e.RequestBody? && Orderly(s, e)
    ensures Tracks(Step(s, e)) && Step(s, e).trace.log == s.trace.log + EffectsDue(def, l, s.trace.log, e)
  {
    var s1 := if e.endStream then s.(filter := s.filter.(bodyDone := true)) else s;
    var l1 := l.(bodyDone := l.bodyDone || e.endStream);
    ReadsTells(s, l);
    BodyDue(def, l, s.trace.log, e);
    BodyBegins(s, l, e.endStream);
    BodyTracks(s, e.endStream);
    hide Reads, Tracks, RunOps, Flush, Pass, Release, ReleaseDue, Mutations, HasSend, Answers, EffectsDue;
    if def.bodyAware && e.endStream {
      HandlerRan(s1, l1, e.script);
      HandlerPasses(s1, l1, e.script);
    } else {
      PassLogs(s1);
    }
  }

  /** Nothing that the host's log depends on. */
  predicate SameView(s: Sys, t: Sys) {
    && t.w.queues == s.w.queues && t.w.answer == s.w.answer && t.w.async.goStarted == s.w.async.goStarted
    && t.trace.issued == s.trace.issued && t.trace.log == s.trace.log && t.trace.resolved == s.trace.resolved
    && t.trace.released == s.trace.released && t.trace.observed == s.trace.observed
  }

  lemma SameViewTracks(s: Sys, t: Sys)
    requires Tracks(s) && SameView(s, t)
    ensures Tracks(t)
  {
  }

  /** Code runs in some callback, which may end with a flush. */
  lemma CodeLogs(s: Sys, script: seq<Op>)
    requires Tracks(s)
    ensures var t, calls := RunOps(s, script), s.trace.issued + script;
            Tracks(t) && t.trace.log == s.trace.log + Answers(s.trace.issued, calls) && t.trace.issued == calls
  {
    OpsLog(s, script);
    hide Tracks, RunOps, Answers;
  }

  lemma FlushedLog(s: Sys, t: Sys, u: Sys, l: Ledger, m: Ledger, cont: bool)
    requires Tracks(t) && Reads(t, m) && !m.completed && SameView(t, u)
    requires t.trace.log == s.trace.log + Answers(l.calls, m.calls)
    requires cont || HasSend(m.calls)
    ensures Tracks(Flush(u, cont))
    ensures Flush(u, cont).trace.log == s.trace.log + (Answers(l.calls, m.calls) + FlushDue(m.calls))
  {
    ReadsTells(t, m);
    hide Reads, Tracks, Flush, HasSend, BeforeSend, Answers, Mutations, FlushDue;
    SameViewTracks(t, u);
    FlushLogs(u, cont);
    Grouped(s.trace.log, Answers(l.calls, m.calls), FlushDue(m.calls));
  }

  /** A continuation runs and its callback flushes. */
  lemma ContinuationLog(s: Sys, l: Ledger, c: Continuation, script: seq<Op>, cont: bool)
    requires Reads(s, l) && Tracks(s) && l.begun && !l.completed
    ensures var t, calls := RunOps(Ran(s, c), script), l.calls + script;
            && Tracks(t) && t.trace.log == s.trace.log + Answers(l.calls, calls)
            && (cont || HasSend(calls) ==>
                  && Tracks(Flush(t, cont))
                  && Flush(t, cont).trace.log == s.trace.log + (Answers(l.calls, calls) + FlushDue(calls)))
  {
    var t, m := RunOps(Ran(s, c), script), WithCalls(l.(ran := l.ran + [c]), script);
    ReadsTells(s, l);
    ContinuationReads(s, l, c, script, cont);
    SameViewTracks(s, Ran(s, c));
    CodeLogs(Ran(s, c), script);
    assert m.calls == l.calls + script && !m.completed;
    hide Reads, Tracks, RunOps, Flush, HasSend, Answers, FlushDue, WithCalls;
    if cont || HasSend(m.calls) {
      FlushedLog(s, t, t, l, m, cont);
    }
  }

  /** The effects due after one of the other callbacks. */
  lemma CodeDue(def: Def, l: Ledger, log: seq<Effect>, e: Event)
    requires e.CalloutDone? || e.StreamEvent? || e.StreamComplete? || e.StreamReset?
    ensures EffectsDue(def, l, log, e) ==
            if Woken(l, e).Some? then
              Answers(l.calls, l.calls + e.script) + (if Flushes(l, e) then FlushDue(l.calls + e.script) else [])
            else if Flushes(l, e) then FlushDue(l.calls)
            else []
  {
    assert l.calls + [] == l.calls;
    NoAnswer(l.calls);
    Grouped([], FlushDue(l.calls), []);
    hide Answers, FlushDue, TheCallout, TheStream;
  }

  lemma CalloutGone(s: Sys, l: Ledger, id: nat, script: seq<Op>)
    requires Reads(s, l) && !CalloutWaits(l, id)
    ensures OnCalloutDone(s, id, script) == s
  {
    assert s.abi.completed || id !in s.pending.callouts;
    hide TheCallout, TheStream, HasSend, BeforeSend;
  }

  lemma CalloutLog(def: Def, s: Sys, l: Ledger, e: Event)
    requires Reads(s, l) && Tracks(s) && s.def == def && e.CalloutDone?
    ensures Tracks(Step(s, e)) && Step(s, e).trace.log == s.trace.log + EffectsDue(def, l, s.trace.log, e)
  {
    CodeDue(def, l, s.trace.log, e);
    ReadsTells(s, l);
    Grouped(s.trace.log, [], []);
    hide Reads, Tracks, RunOps, Flush, Answers, FlushDue, EffectsDue, HasFn;
    if CalloutWaits(l, e.id) {
      CalloutOverReads(s, l, e.id);
      var s1, l1 := ClearCalloutFn(DropCallout(s, e.id)), l.(calloutOver := true);
      SameViewTracks(s, s1);
      SameViewTracks(s, DropCallout(s, e.id));
      if s.w.async.calloutFn {
        ContinuationLog(s1, l1, CalloutRan, e.script, true);
      }
    } else {
      CalloutGone(s, l, e.id, e.script);
    }
  }

  lemma StreamEventLog(s: Sys, l: Ledger, id: nat, script: seq<Op>)
    requires Reads(s, l) && Tracks(s) && StreamWaits(l, id)
    ensures var t := OnStreamEvent(s, id, script);
            && Tracks(t)
            && t.trace.log == s.trace.log +
               if HasFn(TheStream(l.calls)) then Answers(l.calls, l.calls + script) else []
  {
    StreamBegun(s, l, StreamEvent(id, script));
    StreamOverReads(s, l, id);
    Grouped(s.trace.log, [], []);
    hide Reads, Tracks, RunOps, Flush, Answers, FlushDue, StreamWaits, HasFn;
    if s.w.async.streamEventFn {
      ContinuationLog(s, l, StreamRan, script, true);
    }
  }

  lemma LastEventLog(s: Sys, l: Ledger, id: nat, script: seq<Op>, cont: bool)
    requires Reads(s, l) && Tracks(s) && StreamWaits(l, id) && HasFn(TheStream(l.calls))
    ensures var t, calls := LastStreamEvent(DropStream(s, id), script), l.calls + script;
            && (t.w.answer.responded <==> HasSend(calls))
            && (cont || HasSend(calls) ==>
                  && Tracks(Flush(t, cont))
                  && Flush(t, cont).trace.log == s.trace.log + (Answers(l.calls, calls) + FlushDue(calls)))
  {
    var s1 := DropStream(s, id);
    var t, m := RunOps(Ran(s1, StreamRan), script),
                WithCalls(l.(streamOver := true, ran := l.ran + [StreamRan]), script);
    StreamBegun(s, l, StreamComplete(id, script));
    LastEventReads(s, l, id, script, cont);
    ReadsTells(s, l);
    SameViewTracks(s, Ran(s1, StreamRan));
    CodeLogs(Ran(s1, StreamRan), script);
    assert m.calls == l.calls + script && !m.completed;
    var u := ClearStreamFn(t);
    assert SameView(t, u);
    hide Reads, Tracks, RunOps, Flush, HasSend, Answers, FlushDue, WithCalls;
    SameViewTracks(t, u);
    ReadsTells(u, m);
    if cont || HasSend(m.calls) {
      FlushedLog(s, u, u, l, m, cont);
    }
  }

  lemma StreamEndLog(s: Sys, l: Ledger, id: nat, script: seq<Op>)
    requires Reads(s, l) && Tracks(s) && StreamWaits(l, id)
    ensures var due := Answers(l.calls, l.calls + script) + FlushDue(l.calls + script);
            var t, u := OnStreamComplete(s, id, script), OnStreamReset(s, id, script);
            && Tracks(t) && Tracks(u)
            && t.trace.log == s.trace.log + (if HasFn(TheStream(l.calls)) then due else FlushDue(l.calls))
            && u.trace.log == s.trace.log + if HasFn(TheStream(l.calls)) then due else []
  {
    StreamBegun(s, l, StreamComplete(id, script));
    StreamOverReads(s, l, id);
    ReadsTells(s, l);
    Grouped(s.trace.log, [], []);
    var s1 := DropStream(s, id);
    SameViewTracks(s, s1);
    hide Reads, Tracks, RunOps, Flush, Answers, FlushDue, StreamWaits, HasFn, HasSend;
    if s.w.async.streamEventFn {
      LastEventLog(s, l, id, script, true);
      LastEventLog(s, l, id, script, !LastStreamEvent(s1, script).w.answer.responded);
    } else {
      FlushLogs(s1, true);
    }
  }

  lemma StreamLog(def: Def, s: Sys, l: Ledger, e: Event)
    requires Reads(s, l) && Tracks(s) && s.def == def && (e.StreamEvent? || e.StreamComplete? || e.StreamReset?)
    ensures Tracks(Step(s, e)) && Step(s, e).trace.log == s.trace.log + EffectsDue(def, l, s.trace.log, e)
  {
    CodeDue(def, l, s.trace.log, e);
    Grouped(s.trace.log, [], []);
    Grouped(Answers(l.calls, l.calls + e.script), [], []);
    hide Reads, Tracks, Answers, FlushDue, EffectsDue, HasFn, StreamWaits;
    hide OnStreamEvent, OnStreamComplete, OnStreamReset;
    if !StreamWaits(l, e.id) {
      StreamGone(s, l, e.id, e.script);
    } else if e.StreamEvent? {
      StreamEventLog(s, l, e.id, e.script);
    } else {
      StreamEndLog(s, l, e.id, e.script);
    }
  }

  lemma QuietDue(def: Def, l: Ledger, log: seq<Effect>, e: Event)
    requires e.Scheduled? || e.LocalReplyNotice? || e.GoReturn? || e.Destroy? || e.Response? || e.GoOp?
    ensures EffectsDue(def, l, log, e) ==
            match e
            case Scheduled(id) => if FlushWaits(l, id) then FlushDue(l.calls) else []
            case Response(script) => if def.observer && !l.replied then Answers(l.calls, l.calls + script) else []
            case GoOp(op) => Answers(l.calls, l.calls + [op])
            case _ => []
  {
    assert l.calls + [] == l.calls;
    NoAnswer(l.calls);
    Grouped([], FlushDue(l.calls), []);
    match e
    case Response(script) => Grouped(Answers(l.calls, l.calls + script), [], []);
    case GoOp(op) => Grouped(Answers(l.calls, l.calls + [op]), [], []);
    case _ =>
    hide Answers, FlushDue;
  }

  lemma ScheduledLog(s: Sys, l: Ledger, id: nat)
    requires Reads(s, l) && Tracks(s)
    ensures var t := OnScheduled(s, id);
            Tracks(t) && t.trace.log == s.trace.log + if FlushWaits(l, id) then FlushDue(l.calls) else []
  {
    var s1 := Ran(DropTask(s, id), TaskRan);
    ReadsTells(s, l);
    SameViewTracks(s, s1);
    Grouped(s.trace.log, [], []);
    if FlushWaits(l, id) {
      BegunIs(l);
      hide Tracks, Flush, FlushDue, HasSend, BeforeSend;
      FlushLogs(s1, true);
    }
  }

  lemma UserLog(def: Def, s: Sys, l: Ledger, script: seq<Op>, op: Op)
    requires Reads(s, l) && Tracks(s) && s.def == def
    ensures var t := OnResponse(s, script);
            && Tracks(t)
            && t.trace.log == s.trace.log +
               if def.observer && !l.replied then Answers(l.calls, l.calls + script) else []
    ensures var t := RunOp(s, op);
            Tracks(t) && t.trace.log == s.trace.log + Answers(l.calls, l.calls + [op])
  {
    ReadsTells(s, l);
    hide Reads, Tracks, RunOps, RunOp, Answers;
    CodeLogs(s, script);
    OpLogs(s, op);
    Grouped(s.trace.log, [], []);
  }

  lemma BareLog(s: Sys, e: Event)
    requires Tracks(s) && (e.LocalReplyNotice? || e.GoReturn? || e.Destroy?)
    ensures Tracks(Step(s, e)) && Step(s, e).trace.log == s.trace.log + []
  {
    SameViewTracks(s, Step(s, e));
    Grouped(s.trace.log, [], []);
  }

  lemma QuietLog(def: Def, s: Sys, l: Ledger, e: Event)
    requires Reads(s, l) && Tracks(s) && s.def == def && Orderly(s, e)
    requires e.Scheduled? || e.LocalReplyNotice? || e.GoReturn? || e.Destroy? || e.Response? || e.GoOp?
    ensures Tracks(Step(s, e)) && Step(s, e).trace.log == s.trace.log + EffectsDue(def, l, s.trace.log, e)
  {
    QuietDue(def, l, s.trace.log, e);
    hide EffectsDue, Reads, Tracks, Answers, FlushDue, OnScheduled, OnResponse, RunOp, FlushWaits, Orderly;
    match e
    case Scheduled(id) => ScheduledLog(s, l, id);
    case Response(script) => UserLog(def, s, l, script, Go);
    case GoOp(op) => UserLog(def, s, l, [], op);
    case _ => BareLog(s, e);
  }

  lemma CompleteDue(def: Def, l: Ledger, log: seq<Effect>, e: Event)
    requires e.Complete?
    ensures EffectsDue(def, l, log, e) == if def.observer && l.begun then ResponseLog(l.calls) else []
  {
    assert l.calls + [] == l.calls;
    hide ResponseLog;
  }

  lemma CompletionTracks(s: Sys)
    requires Tracks(s) && s.trace.observed.None?
    ensures Tracks(OnComplete(s))
    ensures OnComplete(s).trace.log ==
            s.trace.log + if s.def.observer && s.filter.hasWriter then ResponseLog(s.trace.issued) else []
  {
    var m, n := MetaEffects(s.w.queues.metaMuts), MetricEffects(s.w.queues.counterMuts);
    MetaEffectsDecideNothing(s.w.queues.metaMuts);
    MetricEffectsDecideNothing(s.w.queues.counterMuts);
    hide MetaEffects, MetricEffects, BeforeSend, HasSend, FirstReply;
    UnresolvedConcat(s.trace.log, m);
    UnresolvedConcat(s.trace.log + m, n);
    Grouped(s.trace.log, m, n);
    Grouped(s.trace.log, [], []);
  }

  lemma CompleteLog(def: Def, s: Sys, l: Ledger, e: Event)
    requires Reads(s, l) && Tracks(s) && s.def == def && e.Complete? && Orderly(s, e)
    ensures Tracks(Step(s, e)) && Step(s, e).trace.log == s.trace.log + EffectsDue(def, l, s.trace.log, e)
  {
    ReadsTells(s, l);
    CompleteDue(def, l, s.trace.log, e);
    CompletionTracks(s);
    Grouped(s.trace.log, [], []);
    hide EffectsDue, ResponseLog, Tracks, Reads, OnComplete;
  }

  lemma TrailersLog(def: Def, s: Sys, l: Ledger, e: Event)
    requires Reads(s, l) && Tracks(s) && e.RequestTrailers? && Orderly(s, e)
    ensures Tracks(Step(s, e)) && Step(s, e).trace.log == s.trace.log + EffectsDue(def, l, s.trace.log, e)
  {
    var s1 := s.(trace := s.trace.(ended := true));
    SameViewTracks(s, s1);
    PassLogs(s1);
    hide Reads, Tracks, Release, ReleaseDue;
  }

  lemma StepLog(def: Def, s: Sys, l: Ledger, e: Event)
    requires Reads(s, l) && Tracks(s) && s.def == def && Orderly(s, e)
    ensures Tracks(Step(s, e)) && Step(s, e).trace.log == s.trace.log + EffectsDue(def, l, s.trace.log, e)
  {
    hide Reads, Tracks, Step, EffectsDue, Orderly;
    match e
    case RequestHeaders(_, _) => HeadersLog(def, s, l, e);
    case RequestBody(_, _) => BodyLog(def, s, l, e);
    case RequestTrailers => TrailersLog(def, s, l, e);
    case CalloutDone(_, _) => CalloutLog(def, s, l, e);
    case StreamEvent(_, _) => StreamLog(def, s, l, e);
    case StreamComplete(_, _) => StreamLog(def, s, l, e);
    case StreamReset(_, _) => StreamLog(def, s, l, e);
    case Complete => CompleteLog(def, s, l, e);
    case _ => QuietLog(def, s, l, e);
  }

  lemma NothingTracked(def: Def)
    ensures Tracks(InitSys(def))
  {
  }

  /** In every orderly run, whatever its code starts, sends or leaves out, the host
      sees exactly what the events make due. */
  lemma {:induction false} HostSees(def: Def, events: seq<Event>)
    requires OrderlyFrom(InitSys(def), events)
    ensures Exec(def, events).trace.log == Seen(def, events) && Tracks(Exec(def, events))
    decreases |events|
  {
    CallsAreDue(def, events);
    if events == [] {
      NothingTracked(def);
    } else {
      var p, e := events[..|events| - 1], events[|events| - 1];
      HostSees(def, p);
      CallsAreDue(def, p);
      hide Reads, Tracks, Step, Orderly, EffectsDue, Read;
      StepLog(def, Exec(def, p), Read(def, p), e);
    }
  }
}
