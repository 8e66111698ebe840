/** Which code runs, and what state that leaves, read off the events of a run. The
    reading knows the order of the events and the lists of calls they carry, and
    nothing of the callbacks that Lifecycle models. */
module Calls {
  import opened Common
  import opened WriterModel
  import opened Lifecycle
  import opened LifecycleTheorems

  // ----- what a list of calls has started -----

  /** The first accepted callout, if Go was not called before it. */
  function TheCallout(ops: seq<Op>): Option<Op> {
    if ops == [] then None
    else
      var p, op := ops[..|ops| - 1], ops[|ops| - 1];
      if TheCallout(p).Some? then TheCallout(p)
      else if op.Callout? && op.init.Accepted? && Go !in p then Some(op)
      else None
  }

  /** The first accepted stream, if neither Go nor a callout came before it. */
  function TheStream(ops: seq<Op>): Option<Op> {
    if ops == [] then None
    else
      var p, op := ops[..|ops| - 1], ops[|ops| - 1];
      if TheStream(p).Some? then TheStream(p)
      else if op.Stream? && op.init.Accepted? && Go !in p && TheCallout(p).None? then Some(op)
      else None
  }

  predicate Names(o: Option<Op>, id: nat) {
    o.Some? && (o.value.Callout? || o.value.Stream?) && o.value.init == Accepted(id)
  }

  predicate HasFn(o: Option<Op>) {
    o.Some? && (o.value.Callout? || o.value.Stream?) && o.value.hasFn
  }

  /** The first Send came before any Go: it is not deferred. */
  predicate SentAtOnce(ops: seq<Op>) {
    HasSend(ops) && Go !in BeforeSend(ops)
  }

  // ----- reading the events -----

  /** calls and ran: the calls and continuations that were due so far; over: the
      operation has reported its end; returned: the goroutine has; flushed: its
      flush has run; replied: a reply has reached the host; details: of the last
      local-reply notice; atEnd: the calls when an observed stream completed. */
  datatype Ledger = Ledger(
    calls: seq<Op>, ran: seq<Continuation>,
    begun: bool, bodyDone: bool, completed: bool, destroyed: bool,
    calloutOver: bool, streamOver: bool, returned: bool, flushed: bool,
    replied: bool, details: string, atEnd: Option<seq<Op>>)

  const BLANK := Ledger([], [], false, false, false, false, false, false, false, false, false, "", None)

  predicate CalloutWaits(l: Ledger, id: nat) {
    !l.completed && !l.calloutOver && Names(TheCallout(l.calls), id)
  }

  predicate StreamWaits(l: Ledger, id: nat) {
    !l.completed && !l.streamOver && Names(TheStream(l.calls), id)
  }

  /** A request commits one flush, under the number 0. */
  predicate FlushWaits(l: Ledger, id: nat) {
    !l.completed && l.returned && !l.flushed && id == 0
  }

  /** The continuation that e wakes. */
  function Woken(l: Ledger, e: Event): Option<Continuation> {
    match e
    case CalloutDone(id, _) => if CalloutWaits(l, id) && HasFn(TheCallout(l.calls)) then Some(CalloutRan) else None
    case StreamEvent(id, _) => if StreamWaits(l, id) && HasFn(TheStream(l.calls)) then Some(StreamRan) else None
    case StreamComplete(id, _) => if StreamWaits(l, id) && HasFn(TheStream(l.calls)) then Some(StreamRan) else None
    case StreamReset(id, _) => if StreamWaits(l, id) && HasFn(TheStream(l.calls)) then Some(StreamRan) else None
    case Scheduled(id) => if FlushWaits(l, id) then Some(TaskRan) else None
    case _ => None
  }

  /** The calls made because of e: the handler runs on the headers, or on the last
      body chunk if it is body-aware; an observer as long as no reply has reached
      the host; a continuation if e wakes it. */
  function CallsDue(def: Def, l: Ledger, e: Event): seq<Op> {
    match e
    case RequestHeaders(_, script) => if def.bodyAware then [] else script
    case RequestBody(endStream, script) => if def.bodyAware && endStream then script else []
    case Response(script) => if def.observer && !l.replied then script else []
    case GoOp(op) => [op]
    case CalloutDone(_, script) => if Woken(l, e).Some? then script else []
    case StreamEvent(_, script) => if Woken(l, e).Some? then script else []
    case StreamComplete(_, script) => if Woken(l, e).Some? then script else []
    case StreamReset(_, script) => if Woken(l, e).Some? then script else []
    case _ => []
  }

  /** e ends with a flush, which sends a deferred reply. */
  predicate Flushes(l: Ledger, e: Event) {
    match e
    case StreamEvent(_, _) => false
    case StreamComplete(id, _) => StreamWaits(l, id)
    case _ => Woken(l, e).Some?
  }

  function Entered(def: Def, l: Ledger, e: Event): Ledger {
    var calls := l.calls + CallsDue(def, l, e);
    Ledger(calls,
           l.ran + (match Woken(l, e) case None => [] case Some(c) => [c]),
           l.begun || e.RequestHeaders?,
           l.bodyDone || (e.RequestBody? && e.endStream),
           l.completed || e.Complete?,
           l.destroyed || e.Destroy?,
           l.calloutOver || (e.CalloutDone? && CalloutWaits(l, e.id)),
           l.streamOver || ((e.StreamComplete? || e.StreamReset?) && StreamWaits(l, e.id)),
           l.returned || e.GoReturn?,
           l.flushed || Woken(l, e) == Some(TaskRan),
           l.replied || SentAtOnce(calls) || (Flushes(l, e) && HasSend(calls)),
           if e.LocalReplyNotice? && e.details != "" && l.begun then e.details else l.details,
           if e.Complete? && def.observer && l.begun then Some(calls) else l.atEnd)
  }

  function Read(def: Def, events: seq<Event>): Ledger {
    if events == [] then BLANK else Entered(def, Read(def, events[..|events| - 1]), events[|events| - 1])
  }

  // ----- the state is what was read -----

  function AsyncOf(l: Ledger): AsyncState {
    AsyncState(
      Go in l.calls, Go in l.calls && (l.returned || l.completed),
      TheCallout(l.calls).Some?, HasFn(TheCallout(l.calls)) && !l.calloutOver,
      TheStream(l.calls).Some?, HasFn(TheStream(l.calls)) && !l.streamOver)
  }

  function IDs(o: Option<Op>, over: bool): set<nat> {
    if o.Some? && !over && (o.value.Callout? || o.value.Stream?) && o.value.init.Accepted? then {o.value.init.id}
    else {}
  }

  function PendingOf(l: Ledger): Pending {
    Pending(IDs(TheCallout(l.calls), l.calloutOver), IDs(TheStream(l.calls), l.streamOver),
            Go in l.calls && !l.returned,
            if l.returned && !l.flushed then {0} else {}, if l.returned then 1 else 0)
  }

  /** What the Writer says of itself, but for its queues. */
  predicate WriterIs(w: WriterState, l: Ledger) {
    && w.async == AsyncOf(l)
    && (w.answer.responded <==> HasSend(l.calls))
    && (w.answer.localResp.Some? <==> HasSend(l.calls) && Go in BeforeSend(l.calls))
    && w.localReplyDetails == l.details
  }

  predicate Reads(s: Sys, l: Ledger) {
    && s.trace.issued == l.calls && s.trace.ran == l.ran && s.trace.observed == l.atEnd
    && s.filter == Filter(l.completed, l.bodyDone, l.begun)
    && s.abi == Abi(l.completed, l.destroyed, l.replied)
    && s.pending == PendingOf(l) && WriterIs(s.w, l)
    && Ordered(l)
  }

  /** What the order of the events implies. */
  predicate Ordered(l: Ledger) {
    && (!l.begun ==> l.calls == [] && l.details == "")
    && (l.calloutOver ==> TheCallout(l.calls).Some?) && (l.streamOver ==> TheStream(l.calls).Some?)
    && (l.returned ==> Go in l.calls) && (l.flushed ==> l.returned) && (l.atEnd.Some? ==> l.completed)
    && (SentAtOnce(l.calls) ==> l.replied)
    && (TheCallout(l.calls).Some? ==> TheCallout(l.calls).value.Callout? && TheCallout(l.calls).value.init.Accepted?)
    && (TheStream(l.calls).Some? ==> TheStream(l.calls).value.Stream? && TheStream(l.calls).value.init.Accepted?)
  }

  function WithCalls(l: Ledger, ops: seq<Op>): Ledger {
    l.(calls := l.calls + ops, replied := l.replied || SentAtOnce(l.calls + ops))
  }

  lemma StartsSnoc(ops: seq<Op>, op: Op)
    ensures TheCallout(ops + [op]) ==
            if TheCallout(ops).None? && op.Callout? && op.init.Accepted? && Go !in ops then Some(op)
            else TheCallout(ops)
    ensures TheStream(ops + [op]) ==
            if TheStream(ops).None? && op.Stream? && op.init.Accepted? && Go !in ops && TheCallout(ops).None?
            then Some(op)
            else TheStream(ops)
    ensures Go in ops + [op] <==> Go in ops || op.Go?
  {
    assert (ops + [op])[..|ops|] == ops;
  }

  lemma SentSnoc(ops: seq<Op>, op: Op)
    ensures SentAtOnce(ops + [op]) <==> SentAtOnce(ops) || (!HasSend(ops) && op.Send? && Go !in ops)
    ensures HasSend(ops + [op]) && Go in BeforeSend(ops + [op]) <==>
            (HasSend(ops) && Go in BeforeSend(ops)) || (!HasSend(ops) && op.Send? && Go in ops)
    ensures HasSend(ops + [op]) <==> HasSend(ops) || op.Send?
  {
    HasSendSnoc(ops, op);
    BeforeSendSnoc(ops, op);
  }

  lemma QuietReads(s: Sys, l: Ledger, op: Op)
    requires Reads(s, l) && l.begun && op.Quiet()
    ensures Reads(RunOp(s, op), WithCalls(l, [op]))
  {
    StartsSnoc(l.calls, op);
    SentSnoc(l.calls, op);
    hide TheCallout, TheStream, HasSend, BeforeSend, SentAtOnce, Enqueue;
  }

  /** A call that starts nothing leaves what the ledger says of operations. */
  lemma NothingStarted(l: Ledger, op: Op)
    requires !op.Async()
    ensures AsyncOf(WithCalls(l, [op])) == AsyncOf(l) && PendingOf(WithCalls(l, [op])) == PendingOf(l)
    ensures Ordered(l) && l.begun ==> Ordered(WithCalls(l, [op]))
  {
    StartsSnoc(l.calls, op);
    SentSnoc(l.calls, op);
    hide TheCallout, TheStream, HasSend, BeforeSend, SentAtOnce;
  }

  lemma SendShape(s: Sys, op: Op)
    requires op.Send?
    ensures var t := RunOp(s, op);
            && t.filter == s.filter && t.pending == s.pending && t.w.async == s.w.async
            && t.w.localReplyDetails == s.w.localReplyDetails
            && t.trace.issued == s.trace.issued + [op] && t.trace.ran == s.trace.ran
            && t.trace.observed == s.trace.observed
            && t.abi == s.abi.(localResponseSent :=
                                 s.abi.localResponseSent || (!s.w.answer.responded && !s.w.async.goStarted))
            && t.w.answer.responded
            && (t.w.answer.localResp.Some? <==>
                s.w.answer.localResp.Some? || (!s.w.answer.responded && s.w.async.goStarted))
  {
  }

  lemma SendReads(s: Sys, l: Ledger, op: Op)
    requires Reads(s, l) && l.begun && op.Send?
    ensures Reads(RunOp(s, op), WithCalls(l, [op]))
  {
    SendShape(s, op);
    NothingStarted(l, op);
    SentSnoc(l.calls, op);
    assert s.w.async.goStarted == (Go in l.calls);
    hide RunOp, TheCallout, TheStream, HasSend, BeforeSend, SentAtOnce, AsyncOf, PendingOf, Ordered;
  }

  lemma AsyncShape(s: Sys, op: Op)
    requires op.Async()
    ensures var t := RunOp(s, op);
            && t.filter == s.filter && t.abi == s.abi && t.w.answer == s.w.answer
            && t.w.localReplyDetails == s.w.localReplyDetails
            && t.trace == s.trace.(issued := s.trace.issued + [op])
  {
  }

  /** An operation is started, or one of the guards holds. */
  lemma StartReads(s: Sys, l: Ledger, op: Op)
    requires s.w.async == AsyncOf(l) && s.pending == PendingOf(l) && Ordered(l) && op.Async()
    requires l.begun && (l.completed ==> Go in l.calls)
    ensures RunOp(s, op).w.async == AsyncOf(WithCalls(l, [op]))
    ensures RunOp(s, op).pending == PendingOf(WithCalls(l, [op]))
    ensures Ordered(WithCalls(l, [op]))
  {
    StartsSnoc(l.calls, op);
    SentSnoc(l.calls, op);
    hide TheCallout, TheStream, HasSend, BeforeSend, SentAtOnce;
  }

  lemma AsyncReads(s: Sys, l: Ledger, op: Op)
    requires Reads(s, l) && l.begun && op.Async() && (l.completed ==> Go in l.calls)
    ensures Reads(RunOp(s, op), WithCalls(l, [op]))
  {
    AsyncShape(s, op);
    StartReads(s, l, op);
    SentSnoc(l.calls, op);
    hide RunOp, TheCallout, TheStream, HasSend, BeforeSend, AsyncOf, PendingOf, Ordered;
  }

  /** One call. */
  lemma OpReads(s: Sys, l: Ledger, op: Op)
    requires Reads(s, l) && l.begun && (l.completed ==> Go in l.calls)
    ensures Reads(RunOp(s, op), WithCalls(l, [op]))
  {
    hide RunOp, Reads, WithCalls;
    if op.Send? {
      SendReads(s, l, op);
    } else if op.Async() {
      AsyncReads(s, l, op);
    } else {
      QuietReads(s, l, op);
    }
  }

  lemma {:induction false} OpsReads(s: Sys, l: Ledger, ops: seq<Op>)
    requires Reads(s, l) && l.begun && (l.completed ==> Go in l.calls)
    ensures Reads(RunOps(s, ops), WithCalls(l, ops))
    decreases |ops|
  {
    WithNoCalls(l);
    hide RunOp, Reads, WithCalls;
    if ops != [] {
      var p, op := ops[..|ops| - 1], ops[|ops| - 1];
      OpsReads(s, l, p);
      WithCallsSnoc(l, p, op);
      OpReads(RunOps(s, p), WithCalls(l, p), op);
      assert ops == p + [op];
    }
  }

  lemma WithNoCalls(l: Ledger)
    requires Ordered(l)
    ensures WithCalls(l, []) == l
  {
    assert l.calls + [] == l.calls;
    hide TheCallout, TheStream, SentAtOnce;
  }

  lemma WithCallsSnoc(l: Ledger, p: seq<Op>, op: Op)
    ensures WithCalls(WithCalls(l, p), [op]) == WithCalls(l, p + [op])
    ensures WithCalls(l, p).begun == l.begun && WithCalls(l, p).completed == l.completed
    ensures Go in l.calls ==> Go in WithCalls(l, p).calls
  {
    SentSnoc(l.calls + p, op);
    assert l.calls + (p + [op]) == l.calls + p + [op];
    hide SentAtOnce, HasSend, BeforeSend;
  }

  function Flushed(l: Ledger): Ledger {
    l.(replied := l.replied || HasSend(l.calls))
  }

  lemma FlushShape(s: Sys, cont: bool)
    ensures var t := Flush(s, cont);
            && t.filter == s.filter && t.pending == s.pending && t.w == s.w
            && t.trace.issued == s.trace.issued && t.trace.ran == s.trace.ran && t.trace.observed == s.trace.observed
            && t.abi == s.abi.(localResponseSent := s.abi.localResponseSent || s.w.answer.localResp.Some?)
  {
    hide QueueEffects;
  }

  lemma FlushReads(s: Sys, l: Ledger, cont: bool)
    requires Reads(s, l)
    ensures Reads(Flush(s, cont), Flushed(l))
    ensures !s.w.answer.responded ==> Flushed(l) == l
  {
    FlushShape(s, cont);
    hide Flush, HasSend, TheCallout, TheStream, BeforeSend;
  }

  lemma PassReads(s: Sys, l: Ledger)
    requires Reads(s, l)
    ensures Reads(Pass(s), l) && Reads(Release(s), l)
  {
    hide HasSend, TheCallout, TheStream, AsyncOf, PendingOf, WriterIs, Ordered;
  }

  // ----- one event -----

  /** The handler runs and the callback may flush, if nothing was answered, and
      pass. */
  lemma HandlerReads(s: Sys, l: Ledger, script: seq<Op>)
    requires Reads(s, l) && l.begun && (l.completed ==> Go in l.calls)
    ensures var t, m := RunOps(s, script), WithCalls(l, script);
            Reads(t, m) && Reads(Pass(t), m) && (!t.w.answer.responded ==> Reads(Pass(Flush(t, false)), m))
  {
    var t, m := RunOps(s, script), WithCalls(l, script);
    OpsReads(s, l, script);
    hide RunOps, Flush, Pass, Reads, WithCalls;
    PassReads(t, m);
    FlushReads(t, m, false);
    PassReads(Flush(t, false), Flushed(m));
  }

  lemma BeginReads(s: Sys, l: Ledger, endStream: bool)
    requires Reads(s, l) && !l.begun
    ensures Reads(Arrived(s, endStream).(filter := s.filter.(hasWriter := true), w := FRESH_WRITER), l.(begun := true))
  {
  }

  lemma HeadersEntered(def: Def, l: Ledger, e: Event)
    requires e.RequestHeaders? && Ordered(l) && !l.begun
    ensures Entered(def, l, e) == if def.bodyAware then l.(begun := true) else WithCalls(l.(begun := true), e.script)
  {
    assert l.calls + [] == l.calls && l.ran + [] == l.ran;
    hide TheCallout, TheStream;
  }

  lemma HeadersRead(def: Def, s: Sys, l: Ledger, e: Event)
    requires Reads(s, l) && s.def == def && e.RequestHeaders? && Orderly(s, e)
    ensures Reads(Step(s, e), Entered(def, l, e))
  {
    var s1 := Arrived(s, e.endStream).(filter := s.filter.(hasWriter := true), w := FRESH_WRITER);
    assert !l.begun && !l.completed;
    HeadersEntered(def, l, e);
    BeginReads(s, l, e.endStream);
    hide Reads, RunOps, Flush, Pass, Entered, WithCalls;
    if !def.bodyAware {
      HandlerReads(s1, l.(begun := true), e.script);
    }
  }

  lemma BodyEntered(def: Def, l: Ledger, e: Event)
    requires e.RequestBody? && Ordered(l)
    ensures var l1 := l.(bodyDone := l.bodyDone || e.endStream);
            Entered(def, l, e) == if def.bodyAware && e.endStream then WithCalls(l1, e.script) else l1
  {
    assert l.calls + [] == l.calls && l.ran + [] == l.ran;
    hide TheCallout, TheStream;
  }

  lemma BodyBegins(s: Sys, l: Ledger, endStream: bool)
    requires Reads(s, l)
    ensures Reads(if endStream then s.(filter := s.filter.(bodyDone := true)) else s,
                  l.(bodyDone := l.bodyDone || endStream))
  {
    hide TheCallout, TheStream, HasSend, BeforeSend, SentAtOnce;
  }

  lemma BodyReads(def: Def, s: Sys, l: Ledger, e: Event)
    requires Reads(s, l) && s.def == def && e.RequestBody? && Orderly(s, e)
    ensures Reads(Step(s, e), Entered(def, l, e))
  {
    var s1 := if e.endStream then s.(filter := s.filter.(bodyDone := true)) else s;
    var l1 := l.(bodyDone := l.bodyDone || e.endStream);
    assert l.begun && !l.completed;
    BodyEntered(def, l, e);
    BodyBegins(s, l, e.endStream);
    hide Reads, RunOps, Flush, Pass, Release, Entered, WithCalls;
    if def.bodyAware && e.endStream {
      HandlerReads(s1, l1, e.script);
    } else {
      PassReads(s1, l1);
    }
  }

  /** A continuation runs and its callback may flush. */
  lemma ContinuationReads(s: Sys, l: Ledger, c: Continuation, script: seq<Op>, cont: bool)
    requires Reads(s, l) && l.begun && !l.completed
    ensures var m := WithCalls(l.(ran := l.ran + [c]), script);
            Reads(RunOps(Ran(s, c), script), m) && Reads(Flush(RunOps(Ran(s, c), script), cont), Flushed(m))
  {
    var m := WithCalls(l.(ran := l.ran + [c]), script);
    assert Reads(Ran(s, c), l.(ran := l.ran + [c]));
    OpsReads(Ran(s, c), l.(ran := l.ran + [c]), script);
    hide RunOps, Flush, Reads, WithCalls;
    FlushReads(RunOps(Ran(s, c), script), m, cont);
  }

  lemma BegunIs(l: Ledger)
    requires Ordered(l) && (TheCallout(l.calls).Some? || TheStream(l.calls).Some? || Go in l.calls)
    ensures l.begun
  {
  }

  lemma CalloutOverReads(s: Sys, l: Ledger, id: nat)
    requires Reads(s, l) && CalloutWaits(l, id)
    ensures l.begun && id in s.pending.callouts && s.w.async.calloutFn == HasFn(TheCallout(l.calls))
    ensures Reads(ClearCalloutFn(DropCallout(s, id)), l.(calloutOver := true))
    ensures !s.w.async.calloutFn ==> Reads(DropCallout(s, id), l.(calloutOver := true))
  {
    hide HasSend, BeforeSend, SentAtOnce;
    BegunIs(l);
    hide TheCallout, TheStream;
  }

  lemma CalloutEntered(def: Def, l: Ledger, e: Event)
    requires e.CalloutDone? && Ordered(l)
    ensures var l1 := l.(calloutOver := true);
            Entered(def, l, e) ==
            if !CalloutWaits(l, e.id) then l
            else if HasFn(TheCallout(l.calls)) then Flushed(WithCalls(l1.(ran := l.ran + [CalloutRan]), e.script))
            else l1
  {
    assert l.calls + [] == l.calls && l.ran + [] == l.ran;
    hide TheCallout, TheStream, HasSend, BeforeSend;
  }

  lemma CalloutReads(def: Def, s: Sys, l: Ledger, e: Event)
    requires Reads(s, l) && s.def == def && e.CalloutDone?
    ensures Reads(Step(s, e), Entered(def, l, e))
  {
    CalloutEntered(def, l, e);
    if CalloutWaits(l, e.id) {
      CalloutOverReads(s, l, e.id);
      assert s.filter.hasWriter && !s.filter.streamDone && !s.abi.completed;
      hide Reads, RunOps, Flush, Entered, WithCalls, Flushed;
      if s.w.async.calloutFn {
        var s1, l1 := ClearCalloutFn(DropCallout(s, e.id)), l.(calloutOver := true);
        ContinuationReads(s1, l1, CalloutRan, e.script, true);
      }
    } else {
      assert s.abi.completed || e.id !in s.pending.callouts;
    }
  }

  lemma StreamOverReads(s: Sys, l: Ledger, id: nat)
    requires Reads(s, l) && StreamWaits(l, id)
    ensures l.begun && id in s.pending.streams && s.w.async.streamEventFn == HasFn(TheStream(l.calls))
    ensures Reads(ClearStreamFn(DropStream(s, id)), l.(streamOver := true))
    ensures !s.w.async.streamEventFn ==> Reads(DropStream(s, id), l.(streamOver := true))
  {
    hide HasSend, BeforeSend, SentAtOnce;
    BegunIs(l);
    hide TheCallout, TheStream;
  }

  lemma ClearOpCommutes(s: Sys, op: Op)
    requires s.w.async.streamStarted
    ensures RunOp(ClearStreamFn(s), op) == ClearStreamFn(RunOp(s, op)) && RunOp(s, op).w.async.streamStarted
  {
    hide Enqueue;
    if op.Send? {
      ClearSendCommutes(Record(s, op), op.status, op.body);
      hide SendBytes;
    }
  }

  lemma ClearSendCommutes(s: Sys, status: int, body: string)
    ensures SendBytes(ClearStreamFn(s), status, body) == ClearStreamFn(SendBytes(s, status, body))
    ensures SendBytes(s, status, body).w.async == s.w.async
  {
  }

  /** A started stream's slot can as well be emptied before the last event. */
  lemma {:induction false} ClearCommutes(s: Sys, ops: seq<Op>)
    requires s.w.async.streamStarted
    ensures RunOps(ClearStreamFn(s), ops) == ClearStreamFn(RunOps(s, ops)) && RunOps(s, ops).w.async.streamStarted
    decreases |ops|
  {
    hide RunOp;
    if ops != [] {
      ClearCommutes(s, ops[..|ops| - 1]);
      ClearOpCommutes(RunOps(s, ops[..|ops| - 1]), ops[|ops| - 1]);
    }
  }

  lemma LastEventReads(s: Sys, l: Ledger, id: nat, script: seq<Op>, cont: bool)
    requires Reads(s, l) && StreamWaits(l, id) && HasFn(TheStream(l.calls))
    ensures var t, m := LastStreamEvent(DropStream(s, id), script),
                        WithCalls(l.(streamOver := true, ran := l.ran + [StreamRan]), script);
            Reads(t, m) && Reads(Flush(t, cont), Flushed(m))
  {
    var s1, l1 := DropStream(s, id), l.(streamOver := true);
    StreamOverReads(s, l, id);
    assert s1.w.async.streamStarted && !l.completed;
    assert ClearStreamFn(Ran(s1, StreamRan)) == Ran(ClearStreamFn(s1), StreamRan);
    hide Reads, RunOps, Flush, WithCalls, Flushed;
    ClearCommutes(Ran(s1, StreamRan), script);
    ContinuationReads(ClearStreamFn(s1), l1, StreamRan, script, cont);
  }

  lemma WokenStream(l: Ledger, e: Event)
    requires e.StreamEvent? || e.StreamComplete? || e.StreamReset?
    ensures Woken(l, e) == if StreamWaits(l, e.id) && HasFn(TheStream(l.calls)) then Some(StreamRan) else None
  {
    hide TheCallout, TheStream;
  }

  lemma SentIsReplied(l: Ledger)
    requires Ordered(l)
    ensures SentAtOnce(l.calls) ==> l.replied
  {
    hide TheCallout, TheStream, SentAtOnce;
  }

  lemma StreamEventEntered(def: Def, l: Ledger, e: Event)
    requires e.StreamEvent? && Ordered(l)
    ensures Entered(def, l, e) ==
            if StreamWaits(l, e.id) && HasFn(TheStream(l.calls))
            then WithCalls(l.(ran := l.ran + [StreamRan]), e.script) else l
  {
    assert l.calls + [] == l.calls && l.ran + [] == l.ran;
    WokenStream(l, e);
    SentIsReplied(l);
    hide Woken, StreamWaits, HasFn, Ordered, TheCallout, TheStream, HasSend, BeforeSend, SentAtOnce;
  }

  lemma StreamEndEntered(def: Def, l: Ledger, e: Event)
    requires (e.StreamComplete? || e.StreamReset?) && Ordered(l)
    ensures var l1 := l.(streamOver := true);
            Entered(def, l, e) ==
            if !StreamWaits(l, e.id) then l
            else if HasFn(TheStream(l.calls)) then Flushed(WithCalls(l1.(ran := l.ran + [StreamRan]), e.script))
            else if e.StreamComplete? then Flushed(l1)
            else l1
  {
    assert l.calls + [] == l.calls && l.ran + [] == l.ran;
    WokenStream(l, e);
    SentIsReplied(l);
    hide Woken, StreamWaits, HasFn, Ordered, TheCallout, TheStream, HasSend, BeforeSend, SentAtOnce;
  }

  lemma StreamGone(s: Sys, l: Ledger, id: nat, script: seq<Op>)
    requires Reads(s, l) && !StreamWaits(l, id)
    ensures OnStreamEvent(s, id, script) == OnStreamComplete(s, id, script) == OnStreamReset(s, id, script) == s
  {
    assert s.abi.completed || id !in s.pending.streams;
    hide TheCallout, TheStream, HasSend, BeforeSend;
  }

  lemma StreamBegun(s: Sys, l: Ledger, e: Event)
    requires Reads(s, l) && (e.StreamEvent? || e.StreamComplete? || e.StreamReset?)
    ensures Ordered(l)
    ensures StreamWaits(l, e.id) ==>
              s.filter.hasWriter && !s.filter.streamDone && !s.abi.completed && !l.completed && l.begun
  {
    if TheStream(l.calls).Some? {
      BegunIs(l);
    }
  }

  lemma StreamEventReads(s: Sys, l: Ledger, id: nat, script: seq<Op>)
    requires Reads(s, l) && StreamWaits(l, id)
    ensures Reads(OnStreamEvent(s, id, script),
                  if HasFn(TheStream(l.calls)) then WithCalls(l.(ran := l.ran + [StreamRan]), script) else l)
  {
    StreamBegun(s, l, StreamEvent(id, script));
    StreamOverReads(s, l, id);
    hide Reads, RunOps, Flush, WithCalls, StreamWaits, Ordered, HasFn;
    if s.w.async.streamEventFn {
      ContinuationReads(s, l, StreamRan, script, true);
    }
  }

  lemma StreamEndReads(s: Sys, l: Ledger, id: nat, script: seq<Op>)
    requires Reads(s, l) && StreamWaits(l, id)
    ensures var l1 := l.(streamOver := true);
            var m := Flushed(WithCalls(l1.(ran := l.ran + [StreamRan]), script));
            && Reads(OnStreamComplete(s, id, script), if HasFn(TheStream(l.calls)) then m else Flushed(l1))
            && Reads(OnStreamReset(s, id, script), if HasFn(TheStream(l.calls)) then m else l1)
  {
    StreamBegun(s, l, StreamComplete(id, script));
    StreamOverReads(s, l, id);
    hide Reads, RunOps, Flush, WithCalls, Flushed, StreamWaits, Ordered, HasFn;
    if s.w.async.streamEventFn {
      LastEventReads(s, l, id, script, true);
      LastEventReads(s, l, id, script, !LastStreamEvent(DropStream(s, id), script).w.answer.responded);
    } else {
      FlushReads(DropStream(s, id), l.(streamOver := true), true);
    }
  }

  lemma StreamReads(def: Def, s: Sys, l: Ledger, e: Event)
    requires Reads(s, l) && s.def == def && (e.StreamEvent? || e.StreamComplete? || e.StreamReset?)
    ensures Reads(Step(s, e), Entered(def, l, e))
  {
    StreamBegun(s, l, e);
    hide Reads, Entered, WithCalls, Flushed, StreamWaits, HasFn, OnStreamEvent, OnStreamComplete, OnStreamReset;
    if !StreamWaits(l, e.id) {
      StreamGone(s, l, e.id, e.script);
    } else if e.StreamEvent? {
      StreamEventReads(s, l, e.id, e.script);
    } else {
      StreamEndReads(s, l, e.id, e.script);
    }
    if e.StreamEvent? {
      StreamEventEntered(def, l, e);
    } else {
      StreamEndEntered(def, l, e);
    }
  }

  lemma FlushEntered(def: Def, l: Ledger, e: Event)
    requires e.Scheduled? && Ordered(l)
    ensures Entered(def, l, e) ==
            if FlushWaits(l, e.task) then Flushed(l.(flushed := true, ran := l.ran + [TaskRan])) else l
  {
    assert l.calls + [] == l.calls && l.ran + [] == l.ran;
    hide TheCallout, TheStream, HasSend, BeforeSend;
  }

  lemma TaskTaken(s: Sys, l: Ledger, id: nat)
    requires Reads(s, l) && FlushWaits(l, id)
    ensures Reads(Ran(DropTask(s, id), TaskRan), l.(flushed := true, ran := l.ran + [TaskRan]))
  {
    hide TheCallout, TheStream, HasSend, BeforeSend, SentAtOnce;
  }

  lemma ScheduledReads(def: Def, s: Sys, l: Ledger, e: Event)
    requires Reads(s, l) && e.Scheduled?
    ensures Reads(Step(s, e), Entered(def, l, e))
  {
    FlushEntered(def, l, e);
    if FlushWaits(l, e.task) {
      BegunIs(l);
      var s1, l1 := Ran(DropTask(s, e.task), TaskRan), l.(flushed := true, ran := l.ran + [TaskRan]);
      TaskTaken(s, l, e.task);
      hide Reads, Flush, Flushed;
      FlushReads(s1, l1, true);
    }
  }

  lemma ObserverReads(def: Def, s: Sys, l: Ledger, e: Event)
    requires Reads(s, l) && s.def == def && e.Response? && Orderly(s, e)
    ensures Reads(Step(s, e), Entered(def, l, e))
  {
    assert l.calls + [] == l.calls && l.ran + [] == l.ran;
    assert l.begun && !l.completed;
    OpsReads(s, l, e.script);
    hide TheCallout, TheStream, HasSend, BeforeSend, RunOps;
  }

  lemma GoOpReads(def: Def, s: Sys, l: Ledger, e: Event)
    requires Reads(s, l) && e.GoOp? && Orderly(s, e)
    ensures Reads(Step(s, e), Entered(def, l, e))
  {
    assert l.ran + [] == l.ran && Go in l.calls;
    BegunIs(l);
    OpReads(s, l, e.op);
    hide TheCallout, TheStream, HasSend, BeforeSend, RunOp;
  }

  /** Events that wake no continuation and bring no calls. */
  lemma QuietlyEntered(def: Def, l: Ledger, e: Event)
    requires Ordered(l)
    requires e.RequestTrailers? || e.LocalReplyNotice? || e.GoReturn? || e.Destroy? || e.Complete?
    ensures Entered(def, l, e) ==
            match e
            case LocalReplyNotice(d) => l.(details := if d != "" && l.begun then d else l.details)
            case GoReturn => l.(returned := true)
            case Destroy => l.(destroyed := true)
            case Complete => l.(completed := true, atEnd := if def.observer && l.begun then Some(l.calls) else l.atEnd)
            case _ => l
  {
    assert l.calls + [] == l.calls && l.ran + [] == l.ran;
    hide TheCallout, TheStream, HasSend, BeforeSend, SentAtOnce;
  }

  lemma CompletionShape(s: Sys)
    ensures var t := OnComplete(s);
            && t.filter == s.filter.(streamDone := true) && t.abi == s.abi.(completed := true)
            && t.pending == s.pending && t.w.answer == s.w.answer && t.w.localReplyDetails == s.w.localReplyDetails
            && t.w.async == s.w.async.(goCancelled :=
                                         s.w.async.goCancelled || (s.filter.hasWriter && s.w.async.goStarted))
            && t.trace.issued == s.trace.issued && t.trace.ran == s.trace.ran
            && t.trace.observed ==
               if s.def.observer && s.filter.hasWriter then Some(s.trace.issued) else s.trace.observed
  {
    hide MetaEffects, MetricEffects;
  }

  lemma CompletionReads(s: Sys, l: Ledger)
    requires Reads(s, l)
    ensures Reads(OnComplete(s), l.(completed := true,
                                    atEnd := if s.def.observer && l.begun then Some(l.calls) else l.atEnd))
  {
    CompletionShape(s);
    hide OnComplete, TheCallout, TheStream, HasSend, BeforeSend, SentAtOnce;
  }

  lemma NoticeReads(s: Sys, l: Ledger, d: string)
    requires Reads(s, l)
    ensures Reads(OnLocalReply(s, d), l.(details := if d != "" && l.begun then d else l.details))
  {
    hide TheCallout, TheStream, HasSend, BeforeSend, SentAtOnce;
  }

  lemma DestroyReads(s: Sys, l: Ledger)
    requires Reads(s, l)
    ensures Reads(s.(abi := s.abi.(destroyed := true)), l.(destroyed := true))
  {
    hide TheCallout, TheStream, HasSend, BeforeSend, SentAtOnce;
  }

  lemma ReturnReads(s: Sys, l: Ledger)
    requires Reads(s, l) && s.pending.goRunning
    ensures Reads(OnGoReturn(s), l.(returned := true))
  {
    hide TheCallout, TheStream, HasSend, BeforeSend, SentAtOnce;
  }

  lemma TrailersRead(s: Sys, l: Ledger)
    requires Reads(s, l)
    ensures Reads(OnRequestTrailers(s), l)
  {
    assert Reads(s.(trace := s.trace.(ended := true)), l);
    hide Reads, Release;
    PassReads(s.(trace := s.trace.(ended := true)), l);
  }

  lemma PlainReads(def: Def, s: Sys, l: Ledger, e: Event)
    requires Reads(s, l) && s.def == def && Orderly(s, e)
    requires e.RequestTrailers? || e.LocalReplyNotice? || e.GoReturn? || e.Destroy? || e.Complete?
    ensures Reads(Step(s, e), Entered(def, l, e))
  {
    QuietlyEntered(def, l, e);
    hide Reads, Entered, OnGoReturn, OnRequestTrailers, OnLocalReply, OnComplete;
    match e
    case RequestTrailers => TrailersRead(s, l);
    case LocalReplyNotice(d) => NoticeReads(s, l, d);
    case GoReturn => ReturnReads(s, l);
    case Complete => CompletionReads(s, l);
    case Destroy => DestroyReads(s, l);
  }

  lemma StepReads(def: Def, s: Sys, l: Ledger, e: Event)
    requires Reads(s, l) && s.def == def && Orderly(s, e)
    ensures Reads(Step(s, e), Entered(def, l, e))
  {
    hide Reads, Step, Entered, Orderly;
    match e
    case RequestHeaders(_, _) => HeadersRead(def, s, l, e);
    case RequestBody(_, _) => BodyReads(def, s, l, e);
    case Response(_) => ObserverReads(def, s, l, e);
    case GoOp(_) => GoOpReads(def, s, l, e);
    case Scheduled(_) => ScheduledReads(def, s, l, e);
    case CalloutDone(_, _) => CalloutReads(def, s, l, e);
    case StreamEvent(_, _) => StreamReads(def, s, l, e);
    case StreamComplete(_, _) => StreamReads(def, s, l, e);
    case StreamReset(_, _) => StreamReads(def, s, l, e);
    case _ => PlainReads(def, s, l, e);
  }

  /** In every orderly run, whatever code it carries, the calls made and the
      continuations run are exactly those that were due, and with the order of the
      events they determine the answer, the operations and what is still pending. */
  lemma {:induction false} CallsAreDue(def: Def, events: seq<Event>)
    requires OrderlyFrom(InitSys(def), events)
    ensures var s, l := Exec(def, events), Read(def, events);
            && s.trace.issued == l.calls && s.trace.ran == l.ran && s.trace.observed == l.atEnd
            && s.def == def && s.filter == Filter(l.completed, l.bodyDone, l.begun)
            && s.abi == Abi(l.completed, l.destroyed, l.replied)
            && s.pending == PendingOf(l) && WriterIs(s.w, l)
    ensures Reads(Exec(def, events), Read(def, events))
    decreases |events|
  {
    RunGrows(def, events);
    if events == [] {
      assert TheCallout([]) == None && TheStream([]) == None;
    } else {
      var p, e := events[..|events| - 1], events[|events| - 1];
      CallsAreDue(def, p);
      StepReads(def, Exec(def, p), Read(def, p), e);
      hide Step, Orderly, Entered;
    }
  }
}
