/** The invariant of a request that starts at most one asynchronous operation,
    and its preservation by every callback. */
module LifecycleInvariant {
  import opened Common
  import opened WriterModel
  import opened Lifecycle

  function Tokens(p: Pending): nat {
    |p.callouts| + |p.streams| + (if p.goRunning then 1 else 0) + |p.tasks|
  }

  /** What the host must have seen of a decided request. A body-aware callback
      passes even when the handler answered. */
  function RequestLog(r: Resolution, passes: bool): seq<Effect> {
    if HasSend(r.ops) then [Replied(FirstReply(r.ops))] + (if passes then [Passed] else [])
    else Mutations(r.ops) + [r.via]
  }

  function ResponseLog(ops: seq<Op>): seq<Effect> {
    MetaEffects(Metas(BeforeSend(ops))) + MetricEffects(Metrics(ops))
  }

  /** What the host was told before any decision. */
  function ReleaseLog(released: bool): seq<Effect> {
    if released then [Released] else []
  }

  predicate LogIs(t: Trace, passes: bool) {
    t.log == ReleaseLog(t.released)
             + (match t.resolved case None => [] case Some(r) => RequestLog(r, passes))
             + (match t.observed case None => [] case Some(ops) => ResponseLog(ops))
  }

  /** The Writer's queues say what the calls so far asked for. */
  predicate QueuesAre(q: Queues, ops: seq<Op>, cleared: bool) {
    var before := BeforeSend(ops);
    && q.reqMuts == HeadersSet(before)
    && q.respHdrMuts == ReplyHeaders(before)
    && q.routeCleared == (ClearRouteCache in ops)
    && (!cleared ==> q.metaMuts == Metas(before) && q.counterMuts == Metrics(ops))
  }

  predicate AnswerIs(a: Answer, ops: seq<Op>) {
    && a.responded == HasSend(ops)
    && (a.localResp.Some? ==> a.responded && a.localResp.value == FirstReply(ops))
  }

  predicate Queued(s: Sys) {
    && QueuesAre(s.w.queues, s.trace.issued, s.trace.observed.Some?)
    && AnswerIs(s.w.answer, s.trace.issued)
    && (s.w.answer.localResp.Some? ==> s.w.async.goStarted)
  }

  /** Tokens exist only for operations that were started, and have their
      continuation unless one was started without. */
  predicate Shape(p: Pending, a: AsyncState, lacking: bool) {
    && (!a.calloutStarted ==> p.callouts == {} && !a.calloutFn)
    && (!a.streamStarted ==> p.streams == {} && !a.streamEventFn)
    && (!a.goStarted ==> !p.goRunning && p.tasks == {})
    && (p.callouts != {} ==> a.calloutFn || lacking)
    && (p.streams != {} ==> a.streamEventFn || lacking)
  }

  /** Decided during the running script exactly if answered on the spot. */
  predicate DecidedBySend(s: Sys) {
    && (s.w.Settled() <==> s.trace.resolved.Some?)
    && (s.trace.resolved.Some? ==>
          var r := s.trace.resolved.value; HasSend(r.ops) && r.ops <= s.trace.issued && r.via == Continued)
    && (s.trace.observed.None? || s.w.async.goStarted)
  }

  /** Holds while handler or continuation code is running. */
  predicate Running(s: Sys) {
    Queued(s) && Shape(s.pending, s.w.async, SomeFnLacking(s.trace.issued)) && LogIs(s.trace, false) && DecidedBySend(s)
  }

  /** What Writer calls never touch. */
  predicate SameOutside(s: Sys, t: Sys) {
    && t.def == s.def && t.filter == s.filter
    && t.abi.completed == s.abi.completed && t.abi.destroyed == s.abi.destroyed
    && t.pending.tasks == s.pending.tasks && t.pending.nextTask == s.pending.nextTask
    && t.trace.ran == s.trace.ran && t.trace.observed == s.trace.observed && t.trace.released == s.trace.released
    && t.w.localReplyDetails == s.w.localReplyDetails
  }

  lemma EnqueueKeeps(q: Queues, ops: seq<Op>, cleared: bool, op: Op)
    requires QueuesAre(q, ops, cleared)
    ensures QueuesAre(Enqueue(q, HasSend(ops), op), ops + [op], cleared)
  {
    BeforeSendSnoc(ops, op);
    QueuesSnoc(ops, op);
    QueuesSnoc(BeforeSend(ops), op);
  }

  lemma AnswerKeeps(a: Answer, ops: seq<Op>, op: Op)
    requires AnswerIs(a, ops) && (!op.Send? || a.responded)
    ensures AnswerIs(a, ops + [op])
  {
    HasSendSnoc(ops, op);
    if HasSend(ops) {
      BeforeSendPrefix(ops, ops + [op]);
    }
  }

  lemma FirstReplyIs(q: Queues, ops: seq<Op>, cleared: bool, op: Op)
    requires QueuesAre(q, ops, cleared) && !HasSend(ops) && op.Send?
    ensures HasSend(ops + [op])
    ensures FirstReply(ops + [op]) == Reply(op.status % UINT32, q.respHdrMuts, op.body)
  {
    HasSendSnoc(ops, op);
    BeforeSendSnoc(ops, op);
    assert (ops + [op])[|ops|] == op;
  }

  lemma SendKeepsQueues(s: Sys, op: Op)
    requires op.Send?
    ensures RunOp(s, op).w.queues == s.w.queues && RunOp(s, op).w.async == s.w.async
    ensures RunOp(s, op).trace.issued == s.trace.issued + [op] && RunOp(s, op).trace.observed == s.trace.observed
    ensures RunOp(s, op).w.answer ==
            if s.w.answer.responded then s.w.answer
            else if s.w.async.goStarted then
              Answer(true, Some(Reply(op.status % UINT32, s.w.queues.respHdrMuts, op.body)))
            else s.w.answer.(responded := true)
  {
  }

  lemma SendQueues(s: Sys, op: Op)
    requires Queued(s) && op.Send?
    ensures Queued(RunOp(s, op))
  {
    hide RunOp;
    SendKeepsQueues(s, op);
    EnqueueKeeps(s.w.queues, s.trace.issued, s.trace.observed.Some?, op);
    if s.w.answer.responded {
      AnswerKeeps(s.w.answer, s.trace.issued, op);
    } else {
      FirstReplyIs(s.w.queues, s.trace.issued, s.trace.observed.Some?, op);
    }
  }

  lemma AsyncQueues(s: Sys, op: Op)
    requires op.Async()
    ensures RunOp(s, op).w.queues == s.w.queues && RunOp(s, op).w.answer == s.w.answer
    ensures RunOp(s, op).trace == s.trace.(issued := s.trace.issued + [op])
    ensures s.w.async.goStarted ==> RunOp(s, op).w.async.goStarted
  {
  }

  lemma RunOpQueues(s: Sys, op: Op)
    requires Queued(s)
    ensures Queued(RunOp(s, op))
  {
    if op.Send? {
      SendQueues(s, op);
    } else if op.Async() {
      hide RunOp;
      AsyncQueues(s, op);
      EnqueueKeeps(s.w.queues, s.trace.issued, s.trace.observed.Some?, op);
      AnswerKeeps(s.w.answer, s.trace.issued, op);
    } else {
      EnqueueKeeps(s.w.queues, s.trace.issued, s.trace.observed.Some?, op);
      AnswerKeeps(s.w.answer, s.trace.issued, op);
      assert RunOp(s, op).w == s.w.(queues := Enqueue(s.w.queues, s.w.answer.responded, op));
    }
  }

  /** Every started operation adds its token. */
  predicate TokensFollow(s: Sys, t: Sys, lacking: bool) {
    && Shape(t.pending, t.w.async, lacking)
    && Tokens(t.pending) + s.w.async.Started() == Tokens(s.pending) + t.w.async.Started()
  }

  lemma GoTokens(s: Sys, lacking: bool)
    requires Shape(s.pending, s.w.async, lacking)
    ensures TokensFollow(s, StartGo(s), lacking)
  {
  }

  lemma CalloutTokens(s: Sys, init: Init, hasFn: bool, lacking: bool)
    requires Shape(s.pending, s.w.async, lacking) && StartCallout(s, init, hasFn).w.async.Started() <= 1
    ensures TokensFollow(s, StartCallout(s, init, hasFn), lacking || (init.Accepted? && !hasFn))
  {
    if !s.w.async.calloutStarted && init.Accepted? {
      assert |s.pending.callouts + {init.id}| == 1;
    }
  }

  lemma StreamTokens(s: Sys, init: Init, hasFn: bool, lacking: bool)
    requires Shape(s.pending, s.w.async, lacking) && StartStream(s, init, hasFn).w.async.Started() <= 1
    ensures TokensFollow(s, StartStream(s, init, hasFn), lacking || (init.Accepted? && !hasFn))
  {
    if !s.w.async.streamStarted && init.Accepted? {
      assert |s.pending.streams + {init.id}| == 1;
    }
  }

  lemma RunOpOutside(s: Sys, op: Op)
    ensures SameOutside(s, RunOp(s, op))
  {
  }

  lemma RunOpTokens(s: Sys, op: Op, lacking: bool)
    requires Shape(s.pending, s.w.async, lacking) && RunOp(s, op).w.async.Started() <= 1
    ensures TokensFollow(s, RunOp(s, op), lacking || op.LacksFn()) && SameOutside(s, RunOp(s, op))
  {
    RunOpOutside(s, op);
    var r := Record(s, op);
    hide StartGo, StartCallout, StartStream, Enqueue, SameOutside;
    match op
    case Go => GoTokens(r, lacking);
    case Callout(init, hasFn) => CalloutTokens(r, init, hasFn, lacking);
    case Stream(init, hasFn) => StreamTokens(r, init, hasFn, lacking);
    case _ =>
  }

  lemma LackingSnoc(ops: seq<Op>, op: Op)
    ensures SomeFnLacking(ops + [op]) <==> SomeFnLacking(ops) || op.LacksFn()
  {
    if op.LacksFn() {
      assert op in ops + [op];
    }
  }

  /** Only an immediate Send is visible to the host. */
  lemma SilentOp(s: Sys, op: Op)
    requires !op.Send? || s.w.answer.responded || s.w.async.goStarted
    ensures RunOp(s, op).trace == s.trace.(issued := s.trace.issued + [op])
    ensures RunOp(s, op).w.Settled() == s.w.Settled()
    ensures RunOp(s, op).abi == s.abi
    ensures s.w.async.goStarted ==> RunOp(s, op).w.async.goStarted
  {
  }

  lemma LoudSend(s: Sys, op: Op)
    requires op.Send? && !s.w.answer.responded && !s.w.async.goStarted
    ensures var t := RunOp(s, op);
            var r := Reply(op.status % UINT32, s.w.queues.respHdrMuts, op.body);
            && t.trace.issued == s.trace.issued + [op]
            && t.trace.log == s.trace.log + [Replied(r)]
            && t.trace.observed == s.trace.observed && t.trace.released == s.trace.released
            && t.trace.resolved ==
               (if s.trace.resolved.None? then Some(Resolution(s.trace.issued + [op], Continued)) else s.trace.resolved)
            && t.w.answer.responded && t.w.answer.localResp == s.w.answer.localResp
  {
  }

  lemma RunOpLog(s: Sys, op: Op)
    requires Running(s)
    ensures RunOp(s, op).trace.issued == s.trace.issued + [op]
    ensures LogIs(RunOp(s, op).trace, false) && DecidedBySend(RunOp(s, op))
  {
    hide RunOp, LogIs, FirstReply;
    if op.Send? && !s.w.answer.responded && !s.w.async.goStarted {
      LoudSend(s, op);
      FirstReplyIs(s.w.queues, s.trace.issued, s.trace.observed.Some?, op);
      ReplyLog(s.trace, RunOp(s, op).trace, false);
    } else {
      SilentOp(s, op);
      SameLog(s.trace, RunOp(s, op).trace, false);
    }
  }

  /** The first reply, given on the spot, is all the host gets to see. */
  lemma ReplyLog(t: Trace, u: Trace, passes: bool)
    requires LogIs(t, passes) && !passes && t.resolved.None? && t.observed.None?
    requires u.released == t.released && u.observed == t.observed && HasSend(u.issued)
    requires u.resolved == Some(Resolution(u.issued, Continued)) && u.log == t.log + [Replied(FirstReply(u.issued))]
    ensures LogIs(u, passes)
  {
    hide HasSend, FirstReply;
  }

  lemma SameLog(t: Trace, u: Trace, passes: bool)
    requires LogIs(t, passes) && u.log == t.log && u.released == t.released
    requires u.resolved == t.resolved && u.observed == t.observed
    ensures LogIs(u, passes)
  {
  }

  lemma RunOpKeeps(s: Sys, op: Op)
    requires Running(s) && RunOp(s, op).w.async.Started() <= 1
    ensures Running(RunOp(s, op)) && SameOutside(s, RunOp(s, op))
    ensures RunOp(s, op).trace.issued == s.trace.issued + [op]
    ensures Tokens(RunOp(s, op).pending) + s.w.async.Started() == Tokens(s.pending) + RunOp(s, op).w.async.Started()
  {
    hide RunOp;
    RunOpQueues(s, op);
    RunOpTokens(s, op, SomeFnLacking(s.trace.issued));
    LackingSnoc(s.trace.issued, op);
    RunOpLog(s, op);
  }

  lemma StartGrows(s: Sys, op: Op)
    ensures s.w.async.Started() <= RunOp(s, op).w.async.Started()
  {
  }

  lemma {:induction false} StartedGrows(s: Sys, ops: seq<Op>)
    ensures s.w.async.Started() <= RunOps(s, ops).w.async.Started()
    decreases |ops|
  {
    if ops != [] {
      StartedGrows(s, ops[..|ops| - 1]);
      StartGrows(RunOps(s, ops[..|ops| - 1]), ops[|ops| - 1]);
    }
  }

  lemma {:induction false} RunOpsKeeps(s: Sys, ops: seq<Op>)
    requires Running(s) && RunOps(s, ops).w.async.Started() <= 1
    ensures Running(RunOps(s, ops)) && SameOutside(s, RunOps(s, ops))
    ensures RunOps(s, ops).trace.issued == s.trace.issued + ops
    ensures Tokens(RunOps(s, ops).pending) + s.w.async.Started()
         == Tokens(s.pending) + RunOps(s, ops).w.async.Started()
    decreases |ops|
  {
    hide RunOp, Running;
    if ops != [] {
      var p, op := ops[..|ops| - 1], ops[|ops| - 1];
      var t := RunOps(s, p);
      assert RunOps(s, ops) == RunOp(t, op);
      StartGrows(t, op);
      RunOpsKeeps(s, p);
      RunOpKeeps(t, op);
      assert s.trace.issued + ops == (s.trace.issued + p) + [op];
    }
  }

  // ----- the invariant between callbacks -----

  /** Exactly one token while the request is paused and undecided, unless it was
      consumed without a continuation to run. */
  predicate Accounted(s: Sys) {
    && Tokens(s.pending) <= 1
    && (s.w.Settled() ==> s.trace.resolved.Some?)
    && (s.trace.resolved.Some? && Tokens(s.pending) > 0 ==> s.w.Settled() && HasSend(s.trace.resolved.value.ops))
    && (s.filter.hasWriter && !s.abi.completed && !s.def.bodyAware && s.trace.resolved.None? ==>
          Tokens(s.pending) == 1 || SomeFnLacking(s.trace.issued))
  }

  /** A request that asynchronous work was started for is continued by a host
      call, any other by the callback's return value. */
  function Via(a: AsyncState): Effect {
    if a.Started() > 0 then Continued else Passed
  }

  predicate History(s: Sys) {
    && (s.trace.resolved.Some? ==>
          var r := s.trace.resolved.value;
          r.ops <= s.trace.issued && (HasSend(r.ops) || s.def.observer || r.ops == s.trace.issued)
          && r.via == (if HasSend(r.ops) then Continued else Via(s.w.async)))
    && (s.trace.observed.Some? ==> s.abi.completed && s.def.observer)
  }

  predicate Phases(s: Sys) {
    && s.filter.streamDone == s.abi.completed
    && (!s.filter.hasWriter ==>
          && !s.filter.bodyDone && s.w == FRESH_WRITER
          && s.trace.issued == [] && s.trace.resolved.None? && s.trace.observed.None? && !s.trace.released)
    && (s.def.bodyAware ==>
          && s.w.async.Started() == 0 && (s.filter.bodyDone ==> s.trace.resolved.Some?)
          && (s.trace.resolved.Some? && !s.filter.bodyDone ==> HasSend(s.trace.resolved.value.ops) && s.w.Settled()))
  }

  /** The body callback that ran a body-aware handler has returned Continue. */
  predicate Passes(s: Sys) {
    s.def.bodyAware && s.filter.bodyDone
  }

  predicate Inv(s: Sys) {
    && Queued(s) && Shape(s.pending, s.w.async, SomeFnLacking(s.trace.issued)) && LogIs(s.trace, Passes(s))
    && Accounted(s) && History(s) && Phases(s)
  }

  // ----- running a script, then flushing -----

  /** The state right after a flush that must decide the request. */
  predicate Decided(t: Sys, u: Sys) {
    && u.def == t.def && u.pending == t.pending && u.filter == t.filter && u.w == t.w
    && u.abi.completed == t.abi.completed && u.abi.destroyed == t.abi.destroyed
    && u.trace.issued == t.trace.issued && u.trace.observed == t.trace.observed
    && u.trace.released == t.trace.released
    && u.trace.resolved.Some?
    && var r := u.trace.resolved.value;
       r.ops <= u.trace.issued && (HasSend(r.ops) || r.ops == u.trace.issued) && (HasSend(r.ops) ==> r.via == Continued)
  }

  lemma QueueEffectsAre(q: Queues, ops: seq<Op>)
    requires QueuesAre(q, ops, false) && !HasSend(ops)
    ensures QueueEffects(q) == Mutations(ops)
  {
  }

  lemma FlushDecides(t: Sys)
    requires Running(t) && t.trace.observed.None?
    ensures Decided(t, Flush(t, true)) && LogIs(Flush(t, true).trace, false)
    ensures t.trace.resolved.None? ==> Flush(t, true).trace.resolved.value.via == Continued
  {
    if t.w.answer.localResp.None? && !t.w.answer.responded {
      QueueEffectsAre(t.w.queues, t.trace.issued);
    }
  }

  lemma PassDecides(t: Sys)
    requires Running(t) && t.trace.observed.None? && !t.w.answer.responded
    ensures Decided(t, Pass(Flush(t, false))) && LogIs(Pass(Flush(t, false)).trace, true)
    ensures LogIs(Pass(Flush(t, false)).trace, false)
    ensures Pass(Flush(t, false)).trace.resolved.value.via == Passed
  {
    QueueEffectsAre(t.w.queues, t.trace.issued);
  }

  /** A resumption: the single token was consumed and the script has run. */
  lemma ResumeKeeps(s: Sys, t: Sys, script: seq<Op>)
    requires Running(s) && Tokens(s.pending) == 0 && s.w.async.Started() == 1
    requires t == RunOps(s, script) && t.w.async.Started() <= 1
    requires !s.def.bodyAware && s.trace.observed.None?
    requires s.filter.hasWriter && !s.abi.completed && !s.filter.streamDone
    ensures Tokens(t.pending) == 0 && Running(t) && SameOutside(s, t) && t.w.async.Started() == 1
  {
    StartedGrows(s, script);
    RunOpsKeeps(s, script);
  }

  lemma DecidedInv(t: Sys, u: Sys)
    requires Running(t) && Decided(t, u) && LogIs(u.trace, false)
    requires Tokens(t.pending) == 0 && !t.def.bodyAware && t.trace.observed.None?
    requires t.filter.hasWriter && !t.abi.completed && !t.filter.streamDone
    requires !HasSend(u.trace.resolved.value.ops) ==> u.trace.resolved.value.via == Via(t.w.async)
    ensures Inv(u)
  {
  }
}
