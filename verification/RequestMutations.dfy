/** What becomes of queued request headers and of a route-cache request: whether
    the host sees them, and whether it does before it sends the request on. */
module RequestMutations {
  import opened WriterModel
  import opened Lifecycle
  import opened LifecycleInvariant
  import opened LifecycleTheorems

  function AppliedHeaders(log: seq<Effect>): seq<Header> {
    if log == [] then []
    else AppliedHeaders(log[..|log| - 1]) + (if log[|log| - 1].HeaderSet? then [log[|log| - 1].header] else [])
  }

  function RouteClears(log: seq<Effect>): nat {
    if log == [] then 0
    else RouteClears(log[..|log| - 1]) + (if log[|log| - 1].RouteCacheCleared? then 1 else 0)
  }

  lemma {:induction false} EffectsConcat(a: seq<Effect>, b: seq<Effect>)
    ensures AppliedHeaders(a + b) == AppliedHeaders(a) + AppliedHeaders(b)
    ensures RouteClears(a + b) == RouteClears(a) + RouteClears(b)
    decreases |b|
  {
    if b == [] {
      assert a + b == a;
    } else {
      var p, e := b[..|b| - 1], b[|b| - 1];
      assert b == p + [e] && a + b == (a + p) + [e];
      EffectsConcat(a, p);
      hide AppliedHeaders, RouteClears;
      EffectsSnoc(a + p, e);
      EffectsSnoc(p, e);
    }
  }

  lemma EffectsSnoc(log: seq<Effect>, e: Effect)
    ensures AppliedHeaders(log + [e]) == AppliedHeaders(log) + (if e.HeaderSet? then [e.header] else [])
    ensures RouteClears(log + [e]) == RouteClears(log) + (if e.RouteCacheCleared? then 1 else 0)
  {
    assert (log + [e])[..|log|] == log;
  }

  lemma {:induction false} HeadersApply(hs: seq<Header>)
    ensures AppliedHeaders(HeaderEffects(hs)) == hs && RouteClears(HeaderEffects(hs)) == 0
    decreases |hs|
  {
    hide AppliedHeaders, RouteClears;
    if hs == [] {
      NoEffects();
    } else {
      var p := hs[..|hs| - 1];
      HeadersApply(p);
      EffectsSnoc(HeaderEffects(p), HeaderSet(hs[|p|]));
    }
  }

  lemma NoEffects()
    ensures AppliedHeaders([]) == [] && RouteClears([]) == 0
  {
  }

  /** Effects of other kinds. */
  lemma {:induction false} OthersApply(log: seq<Effect>)
    requires forall e | e in log :: !e.HeaderSet? && !e.RouteCacheCleared?
    ensures AppliedHeaders(log) == [] && RouteClears(log) == 0
    decreases |log|
  {
    if log != [] {
      OthersApply(log[..|log| - 1]);
    }
  }

  lemma MutationsApply(ops: seq<Op>)
    ensures AppliedHeaders(Mutations(ops)) == HeadersSet(ops)
    ensures RouteClears(Mutations(ops)) == (if ClearRouteCache in ops then 1 else 0)
  {
    var h, m, n := HeaderEffects(HeadersSet(ops)), MetaEffects(Metas(ops)), MetricEffects(Metrics(ops));
    var c := if ClearRouteCache in ops then [RouteCacheCleared] else [];
    MetaEffectsDecideNothing(Metas(ops));
    MetricEffectsDecideNothing(Metrics(ops));
    hide AppliedHeaders, RouteClears, HeaderEffects, MetaEffects, MetricEffects, HeadersSet, Metas, Metrics;
    HeadersApply(HeadersSet(ops));
    OthersApply(m);
    OthersApply(n);
    NoEffects();
    EffectsSnoc([], RouteCacheCleared);
    assert [] + [RouteCacheCleared] == [RouteCacheCleared];
    EffectsConcat(h, m);
    EffectsConcat(h + m, c);
    EffectsConcat(h + m + c, n);
  }

  lemma RequestLogApplies(r: Resolution, passes: bool)
    requires r.via == Continued || r.via == Passed
    ensures AppliedHeaders(RequestLog(r, passes)) == (if HasSend(r.ops) then [] else HeadersSet(r.ops))
    ensures RouteClears(RequestLog(r, passes)) == (if !HasSend(r.ops) && ClearRouteCache in r.ops then 1 else 0)
  {
    hide AppliedHeaders, RouteClears, Mutations, HeadersSet, FirstReply;
    if HasSend(r.ops) {
      OthersApply(RequestLog(r, passes));
    } else {
      MutationsApply(r.ops);
      EffectsSnoc(Mutations(r.ops), r.via);
    }
  }

  lemma ResponseLogApplies(ops: seq<Op>)
    ensures AppliedHeaders(ResponseLog(ops)) == [] && RouteClears(ResponseLog(ops)) == 0
  {
    MetaEffectsDecideNothing(Metas(BeforeSend(ops)));
    MetricEffectsDecideNothing(Metrics(ops));
    OthersApply(ResponseLog(ops));
  }

  // ----- before the request goes on -----

  /** What the host saw before it sent the request on or answered it. */
  function Beforehand(log: seq<Effect>): seq<Effect> {
    if log == [] || log[0].Resolves() then [] else [log[0]] + Beforehand(log[1..])
  }

  lemma {:induction false} BeforehandConcat(a: seq<Effect>, b: seq<Effect>)
    requires forall e | e in a :: !e.Resolves()
    ensures Beforehand(a + b) == a + Beforehand(b)
    decreases |a|
  {
    if a == [] {
      assert a + b == b;
    } else {
      assert (a + b)[1..] == a[1..] + b;
      BeforehandConcat(a[1..], b);
    }
  }

  lemma NothingBeforehand(e: Effect, rest: seq<Effect>)
    requires e.Resolves()
    ensures Beforehand([e] + rest) == []
  {
  }

  lemma DecidedBeforehand(r: Resolution, passes: bool, rest: seq<Effect>)
    requires r.via == Continued || r.via == Passed
    ensures Beforehand(RequestLog(r, passes) + rest) == if HasSend(r.ops) then [] else Mutations(r.ops)
  {
    hide Beforehand, Mutations, FirstReply, HasSend;
    if HasSend(r.ops) {
      var e, passed := Replied(FirstReply(r.ops)), if passes then [Passed] else [];
      NothingBeforehand(e, passed + rest);
      assert [e] + passed + rest == [e] + (passed + rest);
    } else {
      MutationsDecideNothing(r.ops);
      NothingBeforehand(r.via, rest);
      BeforehandConcat(Mutations(r.ops), [r.via] + rest);
      assert Mutations(r.ops) + [r.via] + rest == Mutations(r.ops) + ([r.via] + rest);
    }
  }

  lemma ResponseBeforehand(s: Sys)
    ensures Beforehand(ResponsePart(s)) == ResponsePart(s)
  {
    if s.trace.observed.Some? {
      MetaEffectsDecideNothing(Metas(BeforeSend(s.trace.observed.value)));
      MetricEffectsDecideNothing(Metrics(s.trace.observed.value));
    }
    BeforehandConcat(ResponsePart(s), []);
    assert ResponsePart(s) + [] == ResponsePart(s);
  }

  /** The host saw the queued mutations beforehand, unless a body or trailers
      callback had already released the request, or it was answered. */
  lemma SeenBeforehand(s: Sys)
    requires Inv(s)
    ensures Beforehand(s.trace.log) ==
            if s.trace.released then []
            else match s.trace.resolved
                 case None => ResponsePart(s)
                 case Some(r) => if HasSend(r.ops) then [] else Mutations(r.ops)
  {
    hide Inv, Beforehand, Mutations, RequestLog, ResponsePart, HasSend;
    LogParts(s);
    var a, b := RequestPart(s), ResponsePart(s);
    NothingBeforehand(Released, a + b);
    assert [Released] + a + b == [Released] + (a + b) && [] + a + b == a + b;
    ResponseBeforehand(s);
    match s.trace.resolved
    case None => assert [] + b == b;
    case Some(r) =>
      ResolutionVia(s);
      DecidedBeforehand(r, Passes(s), b);
  }

  /** The request was decided without an answer. */
  predicate WentOn(t: Trace) {
    t.resolved.Some? && !HasSend(t.resolved.value.ops)
  }

  /** It went on with that decision and not before. */
  predicate Carried(t: Trace) {
    WentOn(t) && !t.released
  }

  /** In every good run, with or without an observer, the host has seen the header
      sets queued when the request was decided, in order, and one route-cache clear
      if one was asked for by then; nothing if it was answered or not decided. It
      saw them before it sent the request on if and only if no body or trailers
      callback had released it. */
  lemma RequestMutationsAre(def: Def, events: seq<Event>)
    requires GoodRun(def, events)
    ensures var t := Exec(def, events).trace;
            && AppliedHeaders(t.log) == (if WentOn(t) then HeadersSet(t.resolved.value.ops) else [])
            && RouteClears(t.log) == (if WentOn(t) && ClearRouteCache in t.resolved.value.ops then 1 else 0)
    ensures var t := Exec(def, events).trace;
            && AppliedHeaders(Beforehand(t.log)) == (if Carried(t) then HeadersSet(t.resolved.value.ops) else [])
            && RouteClears(Beforehand(t.log))
               == (if Carried(t) && ClearRouteCache in t.resolved.value.ops then 1 else 0)
  {
    hide Exec, Inv, AppliedHeaders, RouteClears, Beforehand, HeadersSet, HasSend, ResponsePart, Mutations;
    RunKeeps(def, events);
    var s := Exec(def, events);
    LogApplies(s);
    SeenBeforehand(s);
    NoEffects();
    ResponsePartApplies(s);
    if s.trace.resolved.Some? {
      MutationsApply(s.trace.resolved.value.ops);
    }
  }

  lemma ResponsePartApplies(s: Sys)
    ensures AppliedHeaders(ResponsePart(s)) == [] && RouteClears(ResponsePart(s)) == 0
  {
    NoEffects();
    if s.trace.observed.Some? {
      ResponseLogApplies(s.trace.observed.value);
    }
  }

  lemma LogApplies(s: Sys)
    requires Inv(s)
    ensures var t := s.trace;
            && AppliedHeaders(t.log) == (if WentOn(t) then HeadersSet(t.resolved.value.ops) else [])
            && RouteClears(t.log) == (if WentOn(t) && ClearRouteCache in t.resolved.value.ops then 1 else 0)
  {
    hide AppliedHeaders, RouteClears, RequestLog, ResponsePart, ReleaseLog, HeadersSet, Inv, HasSend;
    var r, a, b := ReleaseLog(s.trace.released), RequestPart(s), ResponsePart(s);
    LogParts(s);
    EffectsConcat(r, a);
    EffectsConcat(r + a, b);
    NoEffects();
    ReleaseApplies(s.trace.released);
    ResponsePartApplies(s);
    if s.trace.resolved.Some? {
      ResolutionVia(s);
      RequestLogApplies(s.trace.resolved.value, Passes(s));
    }
  }

  lemma ReleaseApplies(released: bool)
    ensures AppliedHeaders(ReleaseLog(released)) == [] && RouteClears(ReleaseLog(released)) == 0
  {
    OthersApply(ReleaseLog(released));
  }

  // ----- the promised order -----

  /** Header sets, metadata, the route-cache clear, metrics. */
  function Rank(e: Effect): nat {
    match e
    case HeaderSet(_) => 0
    case MetadataSet(_) => 1
    case RouteCacheCleared => 2
    case MetricRecorded(_) => 3
    case _ => 4
  }

  predicate InOrder(log: seq<Effect>) {
    forall i, j | 0 <= i < j < |log| :: Rank(log[i]) <= Rank(log[j])
  }

  lemma InOrderConcat(a: seq<Effect>, b: seq<Effect>, n: nat)
    requires InOrder(a) && InOrder(b)
    requires (forall e | e in a :: Rank(e) <= n) && (forall e | e in b :: Rank(e) > n)
    ensures InOrder(a + b)
  {
    hide Rank;
  }

  lemma OneKind(log: seq<Effect>, n: nat)
    requires forall e | e in log :: Rank(e) == n
    ensures InOrder(log)
  {
    hide Rank;
  }

  lemma MutationsInOrder(ops: seq<Op>)
    ensures InOrder(Mutations(ops)) && forall e | e in Mutations(ops) :: Rank(e) <= 3
  {
    var h, m, n := HeaderEffects(HeadersSet(ops)), MetaEffects(Metas(ops)), MetricEffects(Metrics(ops));
    var c := if ClearRouteCache in ops then [RouteCacheCleared] else [];
    HeaderEffectsDecideNothing(HeadersSet(ops));
    MetaEffectsDecideNothing(Metas(ops));
    MetricEffectsDecideNothing(Metrics(ops));
    hide HeaderEffects, MetaEffects, MetricEffects, HeadersSet, Metas, Metrics, InOrder;
    OneKind(h, 0);
    OneKind(m, 1);
    OneKind(c, 2);
    OneKind(n, 3);
    InOrderConcat(h, m, 0);
    InOrderConcat(h + m, c, 1);
    InOrderConcat(h + m + c, n, 2);
  }

  lemma ResponseInOrder(s: Sys)
    ensures InOrder(ResponsePart(s))
  {
    if s.trace.observed.Some? {
      var ops := s.trace.observed.value;
      MetaEffectsDecideNothing(Metas(BeforeSend(ops)));
      MetricEffectsDecideNothing(Metrics(ops));
      hide InOrder, MetaEffects, MetricEffects;
      OneKind(MetaEffects(Metas(BeforeSend(ops))), 1);
      OneKind(MetricEffects(Metrics(ops)), 3);
      InOrderConcat(MetaEffects(Metas(BeforeSend(ops))), MetricEffects(Metrics(ops)), 1);
    }
  }

  /** In every good run the host saw the mutations in the promised order before it
      sent the request on. */
  lemma SeenInOrder(def: Def, events: seq<Event>)
    requires GoodRun(def, events)
    ensures InOrder(Beforehand(Exec(def, events).trace.log))
  {
    hide Exec, Inv, Beforehand, Mutations, ResponsePart;
    RunKeeps(def, events);
    var s := Exec(def, events);
    SeenBeforehand(s);
    ResponseInOrder(s);
    if s.trace.resolved.Some? {
      MutationsInOrder(s.trace.resolved.value.ops);
    }
  }

  // ----- exactly once -----

  /** The i-th call asks for a change of the request: a header set that no Send
      comes before, or the first request to clear the route cache. */
  predicate Asks(ops: seq<Op>, i: nat)
    requires i < |ops|
  {
    match ops[i]
    case SetRequestHeader(_) => !HasSend(ops[..i])
    case ClearRouteCache => ClearRouteCache !in ops[..i]
    case _ => false
  }

  /** The i-th call was made before the decision that sent the request on. */
  predicate InTime(t: Trace, i: nat) {
    Carried(t) && i < |t.resolved.value.ops|
  }

  /** The k-th call and those after it ask for nothing. */
  predicate NothingAskedFrom(ops: seq<Op>, k: nat) {
    forall i | k <= i < |ops| :: !Asks(ops, i)
  }

  lemma AskedSnoc(p: seq<Op>, op: Op, k: nat)
    requires k <= |p|
    ensures NothingAskedFrom(p + [op], k) <==>
            && NothingAskedFrom(p, k) && (op.SetRequestHeader? ==> HasSend(p))
            && (op.ClearRouteCache? ==> ClearRouteCache in p)
  {
    var ops := p + [op];
    assert ops[..|p|] == p && ops[|p|] == op;
    assert Asks(ops, |p|) <==>
           (op.SetRequestHeader? && !HasSend(p)) || (op.ClearRouteCache? && ClearRouteCache !in p);
    forall i | 0 <= i < |p| ensures Asks(ops, i) == Asks(p, i) {
      assert ops[..i] == p[..i] && ops[i] == p[i];
    }
  }

  /** Leaving out the calls from the k-th on loses nothing exactly if they ask for
      nothing. */
  lemma {:induction false} LaterCallsLost(ops: seq<Op>, k: nat)
    requires k <= |ops| && !HasSend(ops[..k])
    ensures HeadersSet(ops[..k]) <= HeadersSet(BeforeSend(ops))
    ensures NothingAskedFrom(ops, k) <==>
            && HeadersSet(ops[..k]) == HeadersSet(BeforeSend(ops))
            && (ClearRouteCache in ops ==> ClearRouteCache in ops[..k])
    decreases |ops|
  {
    hide HeadersSet, HasSend, BeforeSend;
    if k == |ops| {
      assert ops[..k] == ops;
      assert BeforeSend(ops) == ops;
    } else {
      var p, op := ops[..|ops| - 1], ops[|ops| - 1];
      assert ops == p + [op] && p[..k] == ops[..k] && ops[..|p|] == p;
      LaterCallsLost(p, k);
      AskedSnoc(p, op, k);
      BeforeSendSnoc(p, op);
      QueuesSnoc(BeforeSend(p), op);
    }
  }

  /** The host sees every header set queued before Send, and the route-cache
      request, exactly once before it sends the request on if and only if every
      call that asked for one was made before the decision, and that decision is
      what sent the request on. */
  lemma HeadersOnceIff(def: Def, events: seq<Event>)
    requires GoodRun(def, events)
    ensures var t := Exec(def, events).trace;
            && AppliedHeaders(Beforehand(t.log)) == HeadersSet(BeforeSend(t.issued))
            && RouteClears(Beforehand(t.log)) == (if ClearRouteCache in t.issued then 1 else 0)
            <==> forall i | 0 <= i < |t.issued| && Asks(t.issued, i) :: InTime(t, i)
  {
    RequestMutationsAre(def, events);
    RunKeeps(def, events);
    IssuedBefore(Exec(def, events));
    hide Exec, Inv, AppliedHeaders, RouteClears, Beforehand, HeadersSet, BeforeSend, Carried, Asks, InTime;
    AskedInTime(Exec(def, events).trace);
  }

  lemma AskedInTime(t: Trace)
    requires Carried(t) ==> t.resolved.value.ops <= t.issued
    ensures var carried := if Carried(t) then t.resolved.value.ops else [];
            && HeadersSet(carried) == HeadersSet(BeforeSend(t.issued))
            && (ClearRouteCache in carried <==> ClearRouteCache in t.issued)
            <==> forall i | 0 <= i < |t.issued| && Asks(t.issued, i) :: InTime(t, i)
  {
    var carried := if Carried(t) then t.resolved.value.ops else [];
    assert t.issued[..|carried|] == carried;
    LaterCallsLost(t.issued, |carried|);
    hide Asks, BeforeSend, HeadersSet;
  }

  lemma IssuedBefore(s: Sys)
    requires Inv(s)
    ensures Carried(s.trace) ==> s.trace.resolved.value.ops <= s.trace.issued
  {
  }
}
