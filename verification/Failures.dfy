/** Real inputs on which the code does less, or more, than its comments say. */
module Failures {
  import opened Common
  import opened WriterModel
  import opened Lifecycle
  import opened LifecycleInvariant
  import opened LifecycleTheorems
  import opened Deliveries
  import opened AsyncGuards
  import opened HandlerGuards
  import opened WakeUps
  import opened RequestEnd
  import opened Bodyless

  lemma TwoEvents(def: Def, first: Event, second: Event)
    requires Orderly(InitSys(def), first) && Disciplined(InitSys(def), first)
    requires var s := Step(InitSys(def), first); Orderly(s, second) && Disciplined(s, second)
    ensures OrderlyFrom(InitSys(def), [first, second]) && DisciplinedFrom(InitSys(def), [first, second])
    ensures Exec(def, [first, second]) == Step(Step(InitSys(def), first), second)
  {
    hide Step, Orderly, Disciplined, InitSys;
    DeliverLast(Step(InitSys(def), first), second);
    Prepend(InitSys(def), first, [second]);
    assert [first] + [second] == [first, second];
  }

  /** The request as its handler finds it. */
  function Begun(def: Def, endStream: bool): Sys {
    Arrived(InitSys(def), endStream).(filter := Filter(false, false, true))
  }

  lemma HandlerRuns(def: Def, endStream: bool, op: Op)
    requires !def.bodyAware
    ensures Step(InitSys(def), RequestHeaders(endStream, [op])) ==
            var t := RunOp(Begun(def, endStream), op);
            if t.w.async.Started() > 0 || t.w.answer.responded then t else Pass(Flush(t, false))
  {
    OneCall(Begun(def, endStream), op);
    hide RunOp, Flush, Pass;
  }

  // ----- a nil continuation -----

  /** One callout without a continuation, for a request without a body; its end
      leaves the request waiting for nothing, and it can still be decided if and
      only if there is an observer. */
  lemma NilContinuationIsLost(observer: bool, id: nat)
    ensures var def := Def(false, observer);
            var run := [RequestHeaders(true, [Callout(Accepted(id), false)]), CalloutDone(id, [])];
            var s := Exec(def, run);
            && GoodRun(def, run) && PausedUndecided(s) && Tokens(s.pending) == 0 && Live(s) == 0
            && (CanBeDecided(def, run) <==> observer)
  {
    var def, op := Def(false, observer), Callout(Accepted(id), false);
    HandlerRuns(def, true, op);
    var s1 := Step(InitSys(def), RequestHeaders(true, [op]));
    assert s1 == RunOp(Begun(def, true), op);
    var s2 := Step(s1, CalloutDone(id, []));
    assert s2.pending.callouts == {} && s2.trace.log == [];
    TwoEvents(def, RequestHeaders(true, [op]), CalloutDone(id, []));
    CanBeDecidedIff(def, [RequestHeaders(true, [op]), CalloutDone(id, [])]);
  }

  // ----- metadata applied twice, a header never -----

  /** Under an observer one metadata write takes effect when the handler returns
      and again when the stream completes. */
  lemma MetadataAppliedTwice(m: Meta)
    ensures var def, run := Def(false, true), [RequestHeaders(false, [SetMetadata(m)]), Complete];
            GoodRun(def, run) && Exec(def, run).trace.log == [MetadataSet(m), Passed, MetadataSet(m)]
  {
    var def, op := Def(false, true), SetMetadata(m);
    HandlerRuns(def, false, op);
    var t := RunOp(Begun(def, false), op);
    assert t == Record(Begun(def, false), op).(w := FRESH_WRITER.(queues := FRESH_WRITER.queues.(metaMuts := [m])));
    OneMeta(m);
    assert QueueEffects(t.w.queues) == [MetadataSet(m)];
    TwoEvents(def, RequestHeaders(false, [op]), Complete);
  }

  lemma OneMeta(m: Meta)
    ensures MetaEffects([m]) == [MetadataSet(m)]
  {
    assert [m][..0] == [];
  }

  /** A header queued for a request whose client goes away is never set. */
  lemma HeaderLostOnDisconnect(h: Header, id: nat)
    ensures var def := Def(false, true);
            var run := [RequestHeaders(false, [SetRequestHeader(h), Callout(Accepted(id), true)]), Complete];
            && GoodRun(def, run) && Exec(def, run).trace.log == [] && Undecided(Exec(def, run))
            && HeadersSet(BeforeSend(Exec(def, run).trace.issued)) == [h]
  {
    var def, first, second := Def(false, true), SetRequestHeader(h), Callout(Accepted(id), true);
    TwoCalls(Begun(def, false), first, second);
    TwoEvents(def, RequestHeaders(false, [first, second]), Complete);
    var ops := [first, second];
    assert Exec(def, [RequestHeaders(false, ops), Complete]).trace.issued == ops;
    NeverSends(ops);
    assert [] + [first] == [first] && [first] + [second] == ops;
    QueuesSnoc([], first);
    QueuesSnoc([first], second);
  }

  /** A header queued beside a callout, and a body: the request goes on with the
      first body callback, and the header is set when it has gone. */
  lemma HeaderSetTooLate(h: Header, id: nat, endOfBody: bool)
    ensures var def := Def(false, false);
            var run := [RequestHeaders(false, [SetRequestHeader(h), Callout(Accepted(id), true)]),
                        RequestBody(endOfBody, []), CalloutDone(id, [])];
            && GoodRun(def, run) && Exec(def, run).trace.log == [Released, HeaderSet(h), Continued]
  {
    var def, first, second := Def(false, false), SetRequestHeader(h), Callout(Accepted(id), true);
    var e, body, done := RequestHeaders(false, [first, second]), RequestBody(endOfBody, []), CalloutDone(id, []);
    TwoCalls(Begun(def, false), first, second);
    var s1 := Step(InitSys(def), e);
    assert s1 == RunOp(RunOp(Begun(def, false), first), second);
    OneHeader(h);
    BodyThenFlush(s1, id, h, endOfBody);
    hide Step, InitSys, RunOp, Disciplined;
    DeliverLast(Step(s1, body), done);
    Prepend(s1, body, [done]);
    assert [body] + [done] == [body, done];
    Prepend(InitSys(def), e, [body, done]);
    assert [e] + [body, done] == [e, body, done];
  }

  lemma OneHeader(h: Header)
    ensures HeaderEffects([h]) == [HeaderSet(h)]
  {
    assert [h][..0] == [];
  }

  lemma BodyThenFlush(s: Sys, id: nat, h: Header, endOfBody: bool)
    requires Held(s) && !s.def.bodyAware && !s.filter.bodyDone && !s.trace.ended && s.trace.log == []
    requires !s.abi.completed && !s.abi.destroyed && !s.filter.streamDone && !s.w.answer.responded
    requires id in s.pending.callouts && s.w.async == AsyncState(false, false, true, true, false, false)
    requires s.w.queues == Queues([h], [], [], [], false) && s.w.answer.localResp.None?
    ensures var e, f := RequestBody(endOfBody, []), CalloutDone(id, []);
            && Orderly(s, e) && Orderly(Step(s, e), f)
            && Disciplined(s, e) && Disciplined(Step(s, e), f)
            && Step(Step(s, e), f).trace.log == [Released, HeaderSet(h), Continued]
            && Step(Step(s, e), f).w.async.Started() == 1
  {
    OneHeader(h);
    assert QueueEffects(s.w.queues) == [HeaderSet(h)];
    hide QueueEffects;
    var t := Step(s, RequestBody(endOfBody, []));
    assert t.trace.log == [Released] && t.w == s.w;
  }

  lemma NeverSends(ops: seq<Op>)
    requires forall op | op in ops :: !op.Send?
    ensures BeforeSend(ops) == ops
  {
  }

  // ----- body-aware filters -----

  /** A request whose headers end it: a body-aware filter waits for a body, and
      only an observer can still decide the request. */
  lemma BodylessWaits(observer: bool, script: seq<Op>)
    ensures var def, run := Def(true, observer), [RequestHeaders(true, script)];
            && GoodRun(def, run) && Exec(def, run).filter.hasWriter && Undecided(Exec(def, run))
            && (CanBeDecided(def, run) <==> observer)
  {
    var def, run := Def(true, observer), [RequestHeaders(true, script)];
    FirstStep(def, true, script);
    assert Exec(def, run) == Begun(def, true);
    hide Exec;
    BodyAwareCanBeDecidedIff(def, run);
  }

  /** Trailers come instead of an end of the body: the request goes on, and the
      body-aware handler never runs, whatever arrives. */
  lemma TrailersSkipHandler(observer: bool, script: seq<Op>, later: seq<Event>)
    requires var def, run := Def(true, observer), [RequestHeaders(false, script), RequestTrailers];
             OrderlyFrom(Exec(def, run), later)
    ensures var def, run := Def(true, observer), [RequestHeaders(false, script), RequestTrailers];
            && GoodRun(def, run) && Exec(def, run).trace.log == [Released]
            && !Resume(Exec(def, run), later).filter.bodyDone
  {
    var def, run := Def(true, observer), [RequestHeaders(false, script), RequestTrailers];
    TwoEvents(def, run[0], run[1]);
    var s := Exec(def, run);
    assert s.trace.log == [] + [Released] && s.filter.hasWriter && s.trace.ended;
    ReleasedIff(def, run);
    hide Exec;
    EndedHasNoBody(s, later);
  }

  /** A body-aware handler that answers: the reply, and Continue as well. */
  lemma AnsweredAndPassed(status: int, body: string)
    ensures var def, run := Def(true, false), [RequestHeaders(false, []), RequestBody(true, [Send(status, body)])];
            GoodRun(def, run) && Resolutions(Exec(def, run).trace.log) == 2
  {
    var def, op := Def(true, false), Send(status, body);
    var s1 := Step(InitSys(def), RequestHeaders(false, []));
    assert s1 == Begun(def, false);
    var s2 := s1.(filter := s1.filter.(bodyDone := true));
    OneCall(s2, op);
    var r := Replied(Reply(status % UINT32, [], body));
    assert RunOp(s2, op).trace.log == [r];
    TwoEvents(def, RequestHeaders(false, []), RequestBody(true, [op]));
    assert Exec(def, [RequestHeaders(false, []), RequestBody(true, [op])]).trace.log == [r] + [Passed];
    hide Resolutions, Exec;
    ResolutionsConcat([r], [Passed]);
    OneResolves(r);
    OneResolves(Passed);
  }
}
