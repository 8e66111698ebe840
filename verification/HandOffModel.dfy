/** The hand-off of log records between the request-logger filter and its
    access logger, over any number of interleaved requests. F names filter
    objects; a name may be used again after its request was destroyed. */
module HandOffModel {
  import opened Common
  import opened Flags

  /** The fields only the access logger knows. */
  datatype Final = Final(
    durationMs: real, requestBytes: nat, responseBytes: nat, responseCode: nat,
    flags: string, codeDetails: string, upstreamFailure: string)

  const NO_FINAL := Final(0.0, 0, 0, 0, "", "", "")

  /** details stands for everything the filter callbacks copy. */
  datatype LogRecord = LogRecord(requestID: string, details: string, final: Final)

  const EMPTY := LogRecord("", "", NO_FINAL)

  /** What the access logger handle reports. */
  datatype LogInfo = LogInfo(
    durationNs: int, bytesReceived: nat, bytesSent: nat, code: Option<nat>,
    codeDetails: Option<string>, flags: Mask, upstreamFailure: Option<string>)

  function Enrich(r: LogRecord, info: LogInfo): LogRecord {
    var f := r.final;
    r.(final := Final(
      if info.durationNs >= 0 then info.durationNs as real / 1000000.0 else f.durationMs,
      info.bytesReceived, info.bytesSent,
      if info.code.Some? && info.code.value > 0 then info.code.value else f.responseCode,
      if FlagString(info.flags) != "" then FlagString(info.flags) else f.flags,
      if info.codeDetails.Some? && info.codeDetails.value != "" then info.codeDetails.value else f.codeDetails,
      if info.upstreamFailure.Some? && info.upstreamFailure.value != "" then info.upstreamFailure.value
      else f.upstreamFailure))
  }

  predicate Given(o: Option<string>) {
    o.Some? && o.value != ""
  }

  /** The log line for a deposited record, field by field: sizes, and whatever else
      the access logger was given, from there; the rest from the deposit. */
  predicate LineOf(line: LogRecord, deposit: LogRecord, info: LogInfo) {
    var f, was := line.final, deposit.final;
    && line.requestID == deposit.requestID && line.details == deposit.details
    && f.requestBytes == info.bytesReceived && f.responseBytes == info.bytesSent
    && (info.durationNs >= 0 ==> f.durationMs * 1000000.0 == info.durationNs as real)
    && (info.durationNs < 0 ==> f.durationMs == was.durationMs)
    && (info.code.Some? && info.code.value > 0 ==> f.responseCode == info.code.value)
    && (info.code.None? || info.code.value == 0 ==> f.responseCode == was.responseCode)
    && (info.flags != 0 ==> f.flags == FlagString(info.flags)) && (info.flags == 0 ==> f.flags == was.flags)
    && (Given(info.codeDetails) ==> f.codeDetails == info.codeDetails.value)
    && (!Given(info.codeDetails) ==> f.codeDetails == was.codeDetails)
    && (Given(info.upstreamFailure) ==> f.upstreamFailure == info.upstreamFailure.value)
    && (!Given(info.upstreamFailure) ==> f.upstreamFailure == was.upstreamFailure)
  }

  lemma EnrichIsLine(r: LogRecord, info: LogInfo)
    ensures LineOf(Enrich(r, info), r, info)
  {
    NothingSelected(64);
    assert FlagString(0) == "";
    hide FlagString;
    if FlagString(info.flags) == "" {
      FlagStringInjective(info.flags, 0);
    }
  }

  /** A deposited record and its number. */
  datatype Deposit = Deposit(serial: nat, record: LogRecord)

  /** done: OnStreamComplete has run; logged: the record was emitted since. */
  datatype FilterState = FilterState(record: LogRecord, done: bool, logged: bool)

  datatype Emission = Emission(serial: nat, record: LogRecord)

  datatype State<F(==)> = State(
    pending: map<string, Deposit>, live: map<F, FilterState>, serials: nat, emitted: seq<Emission>)

  datatype Event<F> =
    | Create(f: F)
    | Observe(f: F, requestID: string, details: string)   // a request or response callback
    | Complete(f: F)
    | Log(key: string, info: LogInfo)                     // a stream-end access-log call
    | Destroy(f: F)

  function Init<F(==)>(): State<F> {
    State(map[], map[], 0, [])
  }

  /** Every live filter whose request ID is key has now been logged. */
  function MarkLogged<F(==)>(live: map<F, FilterState>, key: string): map<F, FilterState> {
    map f | f in live :: if live[f].done && live[f].record.requestID == key then live[f].(logged := true) else live[f]
  }

  function Step<F(==)>(s: State<F>, e: Event<F>): State<F> {
    match e
    case Create(f) => s.(live := s.live[f := FilterState(EMPTY, false, false)])
    case Observe(f, id, details) =>
      if f !in s.live then s else s.(live := s.live[f := s.live[f].(record := LogRecord(id, details, NO_FINAL))])
    case Complete(f) =>
      if f !in s.live then s
      else
        var r := s.live[f].record;
        var t := s.(live := s.live[f := s.live[f].(done := true)]);
        if r.requestID == "" then t
        else t.(pending := s.pending[r.requestID := Deposit(s.serials, r)], serials := s.serials + 1)
    case Log(key, info) =>
      if key == "" || key !in s.pending then s
      else
        var d := s.pending[key];
        s.(pending := s.pending - {key}, live := MarkLogged(s.live, key),
           emitted := s.emitted + [Emission(d.serial, Enrich(d.record, info))])
    case Destroy(f) =>
      if f !in s.live then s
      else
        var id := s.live[f].record.requestID;
        s.(live := s.live - {f}, pending := if id != "" then s.pending - {id} else s.pending)
  }

  /** Envoy's order for each filter; the access logger may log any key at any
      time, any number of times. */
  predicate Orderly<F(==)>(s: State<F>, e: Event<F>) {
    match e
    case Create(f) => f !in s.live
    case Observe(f, _, _) => f in s.live && !s.live[f].done
    case Complete(f) => f in s.live && !s.live[f].done
    case Log(_, _) => true
    case Destroy(f) => f in s.live && s.live[f].done
  }

  function Run<F(==)>(events: seq<Event<F>>): State<F> {
    if events == [] then Init() else Step(Run(events[..|events| - 1]), events[|events| - 1])
  }

  predicate OrderlyRun<F(==)>(events: seq<Event<F>>) {
    events == [] ||
    (OrderlyRun(events[..|events| - 1]) && Orderly(Run(events[..|events| - 1]), events[|events| - 1]))
  }

  // ----- every run -----

  /** Pending keys belong to completed, undestroyed filters. */
  ghost predicate KeysAreCompleted<F>(s: State<F>) {
    && "" !in s.pending
    && forall k | k in s.pending :: exists f :: f in s.live && s.live[f].done && s.live[f].record.requestID == k
  }

  /** Serial numbers are pending or emitted at most once. */
  predicate SerialsOnce<F(==)>(s: State<F>) {
    && (forall k | k in s.pending :: s.pending[k].serial < s.serials)
    && (forall i | 0 <= i < |s.emitted| :: s.emitted[i].serial < s.serials)
    && (forall k, l | k in s.pending && l in s.pending && k != l :: s.pending[k].serial != s.pending[l].serial)
    && (forall i, j | 0 <= i < j < |s.emitted| :: s.emitted[i].serial != s.emitted[j].serial)
    && (forall i, k | 0 <= i < |s.emitted| && k in s.pending :: s.emitted[i].serial != s.pending[k].serial)
  }

  lemma KeysStep<F>(s: State<F>, e: Event<F>)
    requires KeysAreCompleted(s) && Orderly(s, e)
    ensures KeysAreCompleted(Step(s, e))
  {
    var t := Step(s, e);
    forall k | k in t.pending
      ensures exists f :: f in t.live && t.live[f].done && t.live[f].record.requestID == k
    {
      if e.Complete? && k !in s.pending {
        assert t.live[e.f].done && t.live[e.f].record.requestID == k;
      } else {
        var f :| f in s.live && s.live[f].done && s.live[f].record.requestID == k;
        assert f in t.live && t.live[f].done && t.live[f].record.requestID == k;
      }
    }
  }

  lemma SerialsComplete<F>(s: State<F>, f: F)
    requires SerialsOnce(s)
    ensures SerialsOnce(Step(s, Complete(f)))
  {
  }

  lemma SerialsLog<F>(s: State<F>, key: string, info: LogInfo)
    requires SerialsOnce(s) && key != "" && key in s.pending
    ensures SerialsOnce(Step(s, Log(key, info)))
  {
    var t := Step(s, Log(key, info));
    assert t.emitted[..|s.emitted|] == s.emitted;
    assert forall k | k in t.pending :: k in s.pending && k != key && t.pending[k] == s.pending[k];
  }

  lemma SerialsStep<F>(s: State<F>, e: Event<F>)
    requires SerialsOnce(s)
    ensures SerialsOnce(Step(s, e))
  {
    match e
    case Complete(f) => hide *; SerialsComplete(s, f);
    case Log(key, info) => if key != "" && key in s.pending { hide *; SerialsLog(s, key, info); }
    case _ =>
  }

  lemma {:induction false} EveryRun<F>(events: seq<Event<F>>)
    requires OrderlyRun(events)
    ensures KeysAreCompleted(Run(events)) && SerialsOnce(Run(events))
    decreases |events|
  {
    hide Step, Orderly, SerialsOnce, KeysAreCompleted;
    if events == [] {
      Start<F>();
    } else {
      EveryRun(events[..|events| - 1]);
      KeysStep(Run(events[..|events| - 1]), events[|events| - 1]);
      SerialsStep(Run(events[..|events| - 1]), events[|events| - 1]);
    }
  }

  lemma Start<F>()
    ensures KeysAreCompleted<F>(Init()) && SerialsOnce<F>(Init())
  {
  }

  /** No record outlives its request, even if IDs collide. */
  lemma NothingLeaks<F>(events: seq<Event<F>>)
    requires OrderlyRun(events) && Run(events).live == map[]
    ensures Run(events).pending == map[]
  {
    EveryRun(events);
  }

  /** Each deposit is emitted at most once. */
  lemma EmittedAtMostOnce<F>(events: seq<Event<F>>, i: nat, j: nat)
    requires OrderlyRun(events) && i < j < |Run(events).emitted|
    ensures Run(events).emitted[i].serial != Run(events).emitted[j].serial
  {
    EveryRun(events);
  }

  // ----- runs with distinct request IDs -----

  predicate DistinctIDs<F(==)>(live: map<F, FilterState>) {
    forall f, g | f in live && g in live && f != g && live[f].record.requestID != "" ::
      live[f].record.requestID != live[g].record.requestID
  }

  predicate DistinctRun<F(==)>(events: seq<Event<F>>) {
    DistinctIDs(Run(events).live) && (events == [] || DistinctRun(events[..|events| - 1]))
  }

  /** A completed request's own record is pending exactly until it is logged. */
  predicate OwnPending<F(==)>(s: State<F>) {
    forall f | f in s.live && s.live[f].record.requestID != "" ::
      var id := s.live[f].record.requestID;
      && (id in s.pending <==> s.live[f].done && !s.live[f].logged)
      && (id in s.pending ==> s.pending[id].record == s.live[f].record)
      && (s.live[f].logged ==> s.live[f].done)
  }

  lemma OwnStep<F>(s: State<F>, e: Event<F>)
    requires OwnPending(s) && KeysAreCompleted(s) && Orderly(s, e)
    requires DistinctIDs(s.live) && DistinctIDs(Step(s, e).live)
    requires forall f | f in s.live :: s.live[f].logged ==> s.live[f].done
    ensures OwnPending(Step(s, e))
    ensures forall f | f in Step(s, e).live :: Step(s, e).live[f].logged ==> Step(s, e).live[f].done
  {
    match e
    case Create(f) =>
    case Observe(f, id, _) => hide OwnPending, Step; ObserveOwn(s, e);
    case Complete(f) => hide OwnPending, Step; CompleteOwn(s, e);
    case Log(_, _) =>
    case Destroy(f) =>
  }

  lemma ObserveOwn<F>(s: State<F>, e: Event<F>)
    requires e.Observe? && OwnPending(s) && KeysAreCompleted(s) && Orderly(s, e)
    requires DistinctIDs(Step(s, e).live)
    requires forall f | f in s.live :: s.live[f].logged ==> s.live[f].done
    ensures OwnPending(Step(s, e))
    ensures forall f | f in Step(s, e).live :: Step(s, e).live[f].logged ==> Step(s, e).live[f].done
  {
    var t := Step(s, e);
    if e.requestID in s.pending {
      var g :| g in s.live && s.live[g].done && s.live[g].record.requestID == e.requestID;
      assert t.live[g] == s.live[g];
    }
  }

  lemma CompleteOwn<F>(s: State<F>, e: Event<F>)
    requires e.Complete? && OwnPending(s) && Orderly(s, e) && DistinctIDs(s.live)
    requires forall f | f in s.live :: s.live[f].logged ==> s.live[f].done
    ensures OwnPending(Step(s, e))
    ensures forall f | f in Step(s, e).live :: Step(s, e).live[f].logged ==> Step(s, e).live[f].done
  {
  }

  lemma {:induction false} OwnRun<F>(events: seq<Event<F>>)
    requires OrderlyRun(events) && DistinctRun(events)
    ensures OwnPending(Run(events))
    ensures forall f | f in Run(events).live :: Run(events).live[f].logged ==> Run(events).live[f].done
    decreases |events|
  {
    hide Step, Orderly, OwnPending, KeysAreCompleted, DistinctIDs;
    if events == [] {
      OwnStart<F>();
    } else {
      OwnRun(events[..|events| - 1]);
      EveryRun(events[..|events| - 1]);
      OwnStep(Run(events[..|events| - 1]), events[|events| - 1]);
    }
  }

  lemma OwnStart<F>()
    ensures OwnPending<F>(Init())
  {
  }

  /** With distinct IDs, logging a completed request's ID emits that request's
      own record, enriched, the first time and nothing afterwards, however its
      filter object was used before. */
  lemma LogsOwnRecord<F>(events: seq<Event<F>>, f: F, info: LogInfo)
    requires OrderlyRun(events) && DistinctRun(events)
    requires f in Run(events).live && Run(events).live[f].done && Run(events).live[f].record.requestID != ""
    ensures var s := Run(events);
            var r := s.live[f].record;
            var t := Step(s, Log(r.requestID, info));
            if s.live[f].logged then t == s
            else
              && |t.emitted| == |s.emitted| + 1 && t.emitted[..|s.emitted|] == s.emitted
              && t.emitted[|s.emitted|].record == Enrich(r, info)
              && t.live[f].logged && r.requestID !in t.pending
  {
    OwnRun(events);
  }

  // ----- any run, colliding IDs included -----

  /** The request ID a live filter's record carries; empty for other names. */
  function IDOf<F(==)>(s: State<F>, f: F): string {
    if f in s.live then s.live[f].record.requestID else ""
  }

  /** The last deposit under a key that was neither logged nor removed by a
      destroy with the same ID: whose it is, and the record. */
  function Standing<F(==)>(events: seq<Event<F>>, key: string): Option<(F, LogRecord)> {
    if events == [] || key == "" then None
    else
      var p, e := events[..|events| - 1], events[|events| - 1];
      match e
      case Complete(f) => if IDOf(Run(p), f) == key then Some((f, Run(p).live[f].record)) else Standing(p, key)
      case Log(k, _) => if k == key then None else Standing(p, key)
      case Destroy(f) => if IDOf(Run(p), f) == key then None else Standing(p, key)
      case _ => Standing(p, key)
  }

  /** The entry under a key is the standing deposit, and its request is still
      there, completed, with that record. */
  predicate Stands<F(==)>(s: State<F>, key: string, d: Option<(F, LogRecord)>) {
    match d
    case None => key !in s.pending
    case Some((f, r)) =>
      && key in s.pending && s.pending[key].record == r
      && f in s.live && s.live[f].done && s.live[f].record == r && r.requestID == key
  }

  lemma StandsStep<F>(s: State<F>, e: Event<F>, key: string, d: Option<(F, LogRecord)>)
    requires Orderly(s, e) && key != "" && Stands(s, key, d)
    ensures Stands(Step(s, e), key,
                   match e
                   case Complete(f) => if IDOf(s, f) == key then Some((f, s.live[f].record)) else d
                   case Log(k, _) => if k == key then None else d
                   case Destroy(f) => if IDOf(s, f) == key then None else d
                   case _ => d)
  {
  }

  lemma {:induction false} StandingIsPending<F>(events: seq<Event<F>>, key: string)
    requires OrderlyRun(events)
    ensures Stands(Run(events), key, Standing(events, key))
    decreases |events|
  {
    hide Step, Orderly, Stands, IDOf, KeysAreCompleted, SerialsOnce;
    if events == [] || key == "" {
      EveryRun(events);
      NothingStands(Run(events), key, events == []);
    } else {
      var p, e := events[..|events| - 1], events[|events| - 1];
      StandingIsPending(p, key);
      StandsStep(Run(p), e, key, Standing(p, key));
    }
  }

  lemma NothingStands<F>(s: State<F>, key: string, start: bool)
    requires KeysAreCompleted(s) && (start ==> s == Init()) && (start || key == "")
    ensures Stands(s, key, None)
  {
  }

  /** In every orderly run a log emits the standing deposit under its key,
      enriched, or nothing if none stands. */
  lemma LogEmitsStanding<F>(events: seq<Event<F>>, key: string, info: LogInfo)
    requires OrderlyRun(events)
    ensures var s := Run(events);
            var t := Step(s, Log(key, info));
            match Standing(events, key)
            case None => t == s
            case Some((f, r)) =>
              && |t.emitted| == |s.emitted| + 1 && t.emitted[..|s.emitted|] == s.emitted
              && t.emitted[|s.emitted|].record == Enrich(r, info) && key !in t.pending
              && f in s.live && s.live[f].done && s.live[f].record == r
  {
    StandingIsPending(events, key);
    EveryRun(events);
  }

  // ----- the live filters, read off the events -----

  /** What the events say of f: nothing if it was not created or was destroyed
      since; else the record last observed, and whether it completed. */
  function LifeOf<F(==)>(events: seq<Event<F>>, f: F): Option<(LogRecord, bool)> {
    if events == [] then None
    else
      var before := LifeOf(events[..|events| - 1], f);
      match events[|events| - 1]
      case Create(g) => if g == f then Some((EMPTY, false)) else before
      case Observe(g, id, details) => if g == f then Some((LogRecord(id, details, NO_FINAL), false)) else before
      case Complete(g) => if g == f && before.Some? then Some((before.value.0, true)) else before
      case Destroy(g) => if g == f then None else before
      case Log(_, _) => before
  }

  /** In every orderly run the live filters, their records and their completion are
      what the events say. */
  lemma {:induction false} LivesAreReadOff<F>(events: seq<Event<F>>, f: F)
    requires OrderlyRun(events)
    ensures var live := Run(events).live;
            match LifeOf(events, f)
            case None => f !in live
            case Some((r, done)) => f in live && live[f].record == r && live[f].done == done
    decreases |events|
  {
    if events != [] {
      LivesAreReadOff(events[..|events| - 1], f);
    }
  }

  /** Live records carry no final fields, so enriching loses nothing of them. */
  lemma {:induction false} LiveIsUnfinished<F>(events: seq<Event<F>>)
    ensures forall f | f in Run(events).live :: Run(events).live[f].record.final == NO_FINAL
    decreases |events|
  {
    if events != [] {
      LiveIsUnfinished(events[..|events| - 1]);
    }
  }

  lemma EnrichInjective(r: LogRecord, q: LogRecord, info: LogInfo)
    requires r.final == q.final
    ensures Enrich(r, info) == Enrich(q, info) <==> r == q
  {
  }

  /** So in every orderly run, whatever IDs collide, logging a completed request's
      ID emits that request's own data if and only if the standing deposit carries
      it. */
  lemma LogsOwnRecordIff<F>(events: seq<Event<F>>, f: F, info: LogInfo)
    requires OrderlyRun(events) && f in Run(events).live && Run(events).live[f].done
    requires Run(events).live[f].record.requestID != ""
    ensures var s := Run(events);
            var r := s.live[f].record;
            var t := Step(s, Log(r.requestID, info));
            var d := Standing(events, r.requestID);
            |t.emitted| > |s.emitted| && t.emitted[|s.emitted|].record == Enrich(r, info)
            <==> d.Some? && d.value.1 == r
  {
    var s := Run(events);
    var r := s.live[f].record;
    LogEmitsStanding(events, r.requestID, info);
    LiveIsUnfinished(events);
    var d := Standing(events, r.requestID);
    if d.Some? {
      EnrichInjective(d.value.1, r, info);
    }
    hide Enrich, Run, Step;
  }

  lemma Snoc<F>(events: seq<Event<F>>, e: Event<F>, key: string)
    ensures Run(events + [e]) == Step(Run(events), e)
    ensures OrderlyRun(events + [e]) <==> OrderlyRun(events) && Orderly(Run(events), e)
    ensures e.Complete? && key != "" && IDOf(Run(events), e.f) == key ==>
              Standing(events + [e], key) == Some((e.f, Run(events).live[e.f].record))
  {
    assert (events + [e])[..|events|] == events;
    hide Step, Orderly, Standing, IDOf;
    StandingSnoc(events, e, key);
  }

  lemma StandingSnoc<F>(events: seq<Event<F>>, e: Event<F>, key: string)
    ensures e.Complete? && key != "" && IDOf(Run(events), e.f) == key ==>
              Standing(events + [e], key) == Some((e.f, Run(events).live[e.f].record))
  {
    assert (events + [e])[..|events|] == events;
    hide Step, IDOf;
  }

  /** A log of key after events emits r, enriched. */
  predicate Emits<F(==)>(events: seq<Event<F>>, key: string, info: LogInfo, r: LogRecord) {
    var s, t := Run(events), Step(Run(events), Log(key, info));
    |t.emitted| == |s.emitted| + 1 && t.emitted[|s.emitted|].record == Enrich(r, info)
  }

  lemma StandingIsEmitted<F>(events: seq<Event<F>>, key: string, info: LogInfo)
    requires OrderlyRun(events) && Standing(events, key).Some?
    ensures Emits(events, key, info, Standing(events, key).value.1)
  {
    LogEmitsStanding(events, key, info);
  }

  /** Two requests with one ID arrive. */
  lemma SameIDs(id: string, x: string, y: string) returns (events: seq<Event<nat>>)
    ensures OrderlyRun(events)
    ensures Run(events) == State(map[], map[0 := FilterState(LogRecord(id, x, NO_FINAL), false, false),
                                             1 := FilterState(LogRecord(id, y, NO_FINAL), false, false)], 0, [])
  {
    var e0: seq<Event<nat>> := [];
    var a, b, c, d := Create(0), Observe(0, id, x), Create(1), Observe(1, id, y);
    var e1 := e0 + [a];
    var e2 := e1 + [b];
    var e3 := e2 + [c];
    Snoc(e0, a, id);
    Snoc(e1, b, id);
    Snoc(e2, c, id);
    Snoc(e3, d, id);
    assert Run(e0) == Init();
    events := e3 + [d];
    hide Run, OrderlyRun;
  }

  /** Two requests with one ID complete one after the other: logging that ID, also
      for the first request, emits the second one's record. */
  lemma CollidingIDs(id: string, x: string, y: string, info: LogInfo)
    requires id != "" && x != y
    ensures exists events: seq<Event<nat>> ::
              && OrderlyRun(events) && 0 in Run(events).live && Run(events).live[0].done
              && Run(events).live[0].record == LogRecord(id, x, NO_FINAL)
              && Emits(events, id, info, LogRecord(id, y, NO_FINAL))
  {
    hide Standing, Emits, Run, OrderlyRun;
    var arrived := SameIDs(id, x, y);
    Snoc(arrived, Complete(0), id);
    Snoc(arrived + [Complete(0)], Complete(1), id);
    var events := arrived + [Complete(0)] + [Complete(1)];
    StandingIsEmitted(events, id, info);
    assert OrderlyRun(events);
  }
}
