/** The vocabulary of sahl's Writer: what a handler may ask for, what the host
    sees, and what a list of requests is supposed to amount to. */
module WriterModel {
  import opened Common

  datatype Header = Header(key: string, value: string)
  datatype Meta = Meta(namespace: string, key: string, value: string)
  datatype Metric = Metric(id: nat, n: nat, tags: seq<string>, histogram: bool)
  datatype Reply = Reply(status: nat, headers: seq<Header>, body: string)

  /** The host's answer to starting a callout or a stream. */
  datatype Init = Refused | Accepted(id: nat)

  /** One call a handler, continuation or goroutine makes on its Writer; hasFn
      says whether the continuation passed is not nil. */
  datatype Op =
    | SetRequestHeader(header: Header)
    | SetResponseHeader(header: Header)
    | SetMetadata(meta: Meta)
    | ClearRouteCache
    | AddMetric(metric: Metric)
    | Send(status: int, body: string)
    | Go
    | Callout(init: Init, hasFn: bool)
    | Stream(init: Init, hasFn: bool)
  {
    predicate Async() { Go? || Callout? || Stream? }

    /** Neither answers the request nor starts asynchronous work. */
    predicate Quiet() { !Async() && !Send? }

    /** Starts a callout or stream without a continuation. */
    predicate LacksFn() { (Callout? || Stream?) && init.Accepted? && !hasFn }
  }

  /** What the host observes. Passed is the Continue of the callback that ran the
      handler; Released is the Continue of a body or trailers callback that the
      host takes as the go-ahead for a request it was holding. */
  datatype Effect =
    | HeaderSet(header: Header)
    | MetadataSet(meta: Meta)
    | RouteCacheCleared
    | MetricRecorded(metric: Metric)
    | Continued
    | Replied(reply: Reply)
    | Passed
    | Released
  {
    /** A host call that decides the fate of the request. */
    predicate Decides() { Continued? || Replied? }

    /** Sends the request on or answers it, by a host call or by a status. */
    predicate Resolves() { Decides() || Passed? || Released? }
  }

  /** The mutation queues. */
  datatype Queues = Queues(
    reqMuts: seq<Header>, respHdrMuts: seq<Header>, metaMuts: seq<Meta>, counterMuts: seq<Metric>, routeCleared: bool)

  /** Send/SendBytes was called, and the reply that still waits for a flush. */
  datatype Answer = Answer(responded: bool, localResp: Option<Reply>)

  /** The Go, HTTPCallout and HTTPStream state; the fields named Fn say whether
      the continuation slot is set. */
  datatype AsyncState = AsyncState(
    goStarted: bool, goCancelled: bool,
    calloutStarted: bool, calloutFn: bool,
    streamStarted: bool, streamEventFn: bool)
  {
    function Started(): nat {
      (if goStarted then 1 else 0) + (if calloutStarted then 1 else 0) + (if streamStarted then 1 else 0)
    }
  }

  datatype WriterState = WriterState(queues: Queues, answer: Answer, async: AsyncState, localReplyDetails: string)
  {
    /** Answered on the spot: no reply is waiting for a flush. */
    predicate Settled() { answer.responded && answer.localResp.None? }
  }

  predicate SomeFnLacking(ops: seq<Op>) {
    exists op :: op in ops && op.LacksFn()
  }

  const FRESH_WRITER := WriterState(
    Queues([], [], [], [], false), Answer(false, None), AsyncState(false, false, false, false, false, false), "")

  // ----- effects of the queues, in order -----

  function HeaderEffects(hs: seq<Header>): seq<Effect> {
    if hs == [] then [] else HeaderEffects(hs[..|hs| - 1]) + [HeaderSet(hs[|hs| - 1])]
  }

  function MetaEffects(ms: seq<Meta>): seq<Effect> {
    if ms == [] then [] else MetaEffects(ms[..|ms| - 1]) + [MetadataSet(ms[|ms| - 1])]
  }

  function MetricEffects(ms: seq<Metric>): seq<Effect> {
    if ms == [] then [] else MetricEffects(ms[..|ms| - 1]) + [MetricRecorded(ms[|ms| - 1])]
  }

  // ----- what a list of calls asks for, read off the list alone -----

  predicate HasSend(ops: seq<Op>) {
    exists i :: 0 <= i < |ops| && ops[i].Send?
  }

  /** The calls made before the first Send. */
  function BeforeSend(ops: seq<Op>): (r: seq<Op>)
    ensures r <= ops
    ensures !HasSend(ops) ==> r == ops
    ensures HasSend(ops) ==> |r| < |ops| && ops[|r|].Send? && !HasSend(r)
  {
    if ops == [] then []
    else
      var p := ops[..|ops| - 1];
      assert ops == p + [ops[|p|]];
      if HasSend(p) then BeforeSend(p)
      else if ops[|p|].Send? then p
      else ops
  }

  function HeadersSet(ops: seq<Op>): seq<Header> {
    if ops == [] then []
    else
      var p, op := HeadersSet(ops[..|ops| - 1]), ops[|ops| - 1];
      if op.SetRequestHeader? then p + [op.header] else p
  }

  function ReplyHeaders(ops: seq<Op>): seq<Header> {
    if ops == [] then []
    else
      var p, op := ReplyHeaders(ops[..|ops| - 1]), ops[|ops| - 1];
      if op.SetResponseHeader? then p + [op.header] else p
  }

  function Metas(ops: seq<Op>): seq<Meta> {
    if ops == [] then []
    else
      var p, op := Metas(ops[..|ops| - 1]), ops[|ops| - 1];
      if op.SetMetadata? then p + [op.meta] else p
  }

  function Metrics(ops: seq<Op>): seq<Metric> {
    if ops == [] then []
    else
      var p, op := Metrics(ops[..|ops| - 1]), ops[|ops| - 1];
      if op.AddMetric? then p + [op.metric] else p
  }

  /** The reply the first Send asks for: its own status and body, and the
      response headers queued before it. */
  function FirstReply(ops: seq<Op>): Reply
    requires HasSend(ops)
  {
    var before := BeforeSend(ops);
    var send := ops[|before|];
    Reply(send.status % UINT32, ReplyHeaders(before), send.body)
  }

  /** The mutations an unanswered request asks for, in the promised order. */
  function Mutations(ops: seq<Op>): seq<Effect> {
    HeaderEffects(HeadersSet(ops)) + MetaEffects(Metas(ops))
    + (if ClearRouteCache in ops then [RouteCacheCleared] else [])
    + MetricEffects(Metrics(ops))
  }

  // ----- how the reading grows with one more call -----

  lemma HasSendSnoc(ops: seq<Op>, op: Op)
    ensures HasSend(ops + [op]) == (HasSend(ops) || op.Send?)
  {
    var all := ops + [op];
    if HasSend(ops) {
      var i :| 0 <= i < |ops| && ops[i].Send?;
      assert all[i].Send?;
    }
    if op.Send? {
      assert all[|ops|].Send?;
    }
  }

  lemma BeforeSendSnoc(ops: seq<Op>, op: Op)
    ensures BeforeSend(ops + [op]) == if HasSend(ops) || op.Send? then BeforeSend(ops) else ops + [op]
  {
    assert (ops + [op])[..|ops|] == ops;
  }

  lemma {:induction false} BeforeSendPrefix(p: seq<Op>, ops: seq<Op>)
    requires p <= ops && HasSend(p)
    ensures HasSend(ops) && BeforeSend(ops) == BeforeSend(p)
    ensures FirstReply(ops) == FirstReply(p)
    decreases |ops|
  {
    if p != ops {
      var q := ops[..|ops| - 1];
      assert p <= q && ops == q + [ops[|q|]];
      BeforeSendPrefix(p, q);
      HasSendSnoc(q, ops[|q|]);
    }
  }

  lemma QueuesSnoc(ops: seq<Op>, op: Op)
    ensures HeadersSet(ops + [op]) == HeadersSet(ops) + (if op.SetRequestHeader? then [op.header] else [])
    ensures ReplyHeaders(ops + [op]) == ReplyHeaders(ops) + (if op.SetResponseHeader? then [op.header] else [])
    ensures Metas(ops + [op]) == Metas(ops) + (if op.SetMetadata? then [op.meta] else [])
    ensures Metrics(ops + [op]) == Metrics(ops) + (if op.AddMetric? then [op.metric] else [])
    ensures ClearRouteCache in ops + [op] <==> ClearRouteCache in ops || op == ClearRouteCache
  {
    assert (ops + [op])[..|ops|] == ops;
  }

  // ----- counting decisions -----

  function Decisions(log: seq<Effect>): nat {
    if log == [] then 0
    else Decisions(log[..|log| - 1]) + (if log[|log| - 1].Decides() then 1 else 0)
  }

  lemma {:induction false} DecisionsConcat(a: seq<Effect>, b: seq<Effect>)
    ensures Decisions(a + b) == Decisions(a) + Decisions(b)
    decreases |b|
  {
    if b == [] {
      assert a + b == a;
    } else {
      var i := b[..|b| - 1];
      DecisionsConcat(a, i);
      assert (a + b)[..|a + b| - 1] == a + i;
    }
  }

  lemma {:induction false} NoDecision(log: seq<Effect>)
    requires forall e | e in log :: !e.Decides()
    ensures Decisions(log) == 0
    decreases |log|
  {
    if log != [] {
      NoDecision(log[..|log| - 1]);
    }
  }

  /** How often the request was sent on or answered. */
  function Resolutions(log: seq<Effect>): nat {
    if log == [] then 0
    else
      var e := log[|log| - 1];
      Resolutions(log[..|log| - 1]) + (if e.Resolves() then 1 else 0)
  }

  lemma {:induction false} ResolutionsConcat(a: seq<Effect>, b: seq<Effect>)
    ensures Resolutions(a + b) == Resolutions(a) + Resolutions(b)
    decreases |b|
  {
    if b == [] {
      assert a + b == a;
    } else {
      var i := b[..|b| - 1];
      ResolutionsConcat(a, i);
      assert (a + b)[..|a + b| - 1] == a + i;
    }
  }

  lemma {:induction false} NoResolution(log: seq<Effect>)
    requires forall e | e in log :: !e.Resolves()
    ensures Resolutions(log) == 0
    decreases |log|
  {
    if log != [] {
      NoResolution(log[..|log| - 1]);
    }
  }

  /** Without Passed and Released the resolutions are the host calls. */
  lemma {:induction false} ResolutionsAreDecisions(log: seq<Effect>)
    ensures Decisions(log) <= Resolutions(log)
    ensures Passed !in log && Released !in log ==> Resolutions(log) == Decisions(log)
    ensures Passed in log || Released in log ==> Decisions(log) < Resolutions(log)
    decreases |log|
  {
    if log != [] {
      var p := log[..|log| - 1];
      assert log == p + [log[|p|]];
      ResolutionsAreDecisions(p);
    }
  }

  lemma {:induction false} HeaderEffectsDecideNothing(hs: seq<Header>)
    ensures forall e | e in HeaderEffects(hs) :: e.HeaderSet?
    decreases |hs|
  {
    if hs != [] { HeaderEffectsDecideNothing(hs[..|hs| - 1]); }
  }

  lemma {:induction false} MetaEffectsDecideNothing(ms: seq<Meta>)
    ensures forall e | e in MetaEffects(ms) :: e.MetadataSet?
    decreases |ms|
  {
    if ms != [] { MetaEffectsDecideNothing(ms[..|ms| - 1]); }
  }

  lemma {:induction false} MetricEffectsDecideNothing(ms: seq<Metric>)
    ensures forall e | e in MetricEffects(ms) :: e.MetricRecorded?
    decreases |ms|
  {
    if ms != [] { MetricEffectsDecideNothing(ms[..|ms| - 1]); }
  }

  lemma MutationsDecideNothing(ops: seq<Op>)
    ensures Decisions(Mutations(ops)) == 0
    ensures forall e | e in Mutations(ops) :: !e.Resolves()
  {
    HeaderEffectsDecideNothing(HeadersSet(ops));
    MetaEffectsDecideNothing(Metas(ops));
    MetricEffectsDecideNothing(Metrics(ops));
    NoDecision(Mutations(ops));
  }
}
