/** The objects behind one request: the Envoy stream, the ABI handle, the sahl
    filter and its Writer. Every method is proved to take exactly the step that
    Lifecycle describes. */
module Sahl {
  import opened Common
  import opened WriterModel
  import opened Lifecycle
  import Scheduling

  /** One Envoy stream: the host calls it received, whether it was decided (and
      after which calls) or released, and history. */
  class Host {
    var log: seq<Effect>
    ghost var ran: seq<Continuation>
    var issued: seq<Op>
    var resolved: Option<Resolution>
    ghost var observed: Option<seq<Op>>
    ghost var ended: bool     // the headers or trailers ended the request
    var released: bool  // a body or trailers callback released it
    ghost var owner: Handle?
    ghost var events: seq<Event>  // the callbacks and goroutine steps so far

    constructor ()
      ensures Trace() == Lifecycle.Trace([], [], [], None, None, false, false) && owner == null && events == []
    {
      log, ran, issued, resolved, observed := [], [], [], None, None;
      ended, released, owner, events := false, false, null, [];
    }

    ghost function Trace(): Trace
      reads this
    {
      Lifecycle.Trace(log, ran, issued, resolved, observed, ended, released)
    }

    twostate predicate SameOwner()
      reads this
    {
      owner == old(owner) && events == old(events)
    }

    method Decide(via: Effect)
      modifies this`resolved
      ensures resolved == if old(resolved).None? then Some(Resolution(issued, via)) else old(resolved)
    {
      if resolved.None? {
        resolved := Some(Resolution(issued, via));
      }
    }
  }

  class Writer {
    var handle: Handle?
    var scheduler: Scheduling.Scheduler?<Writer>
    var queues: Queues        // reqMuts, respHdrMuts, metaMuts, counterMuts, routeCleared
    var answer: Answer        // responded, localResp
    var async: AsyncState     // the Go, HTTPCallout and HTTPStream flags and slots
    var localReplyDetails: string
    var calloutCB: SahlFilter?
    var streamCB: SahlFilter?
    var goRunning: bool  // the goroutine of the request served now has not returned

    constructor ()
    {
      handle, scheduler, calloutCB, streamCB, goRunning := null, null, null, null, false;
      queues, answer := Queues([], [], [], [], false), Answer(false, None);
      async, localReplyDetails := AsyncState(false, false, false, false, false, false), "";
    }

    ghost function State(): WriterState
      reads this
    {
      WriterState(queues, answer, async, localReplyDetails)
    }

    /** Prepares a Writer for a request; nothing of an earlier one remains. */
    method Reset(handle: Handle, scheduler: Scheduling.Scheduler<Writer>)
      modifies this
      ensures State() == FRESH_WRITER
      ensures this.handle == handle && this.scheduler == scheduler
      ensures calloutCB == null && streamCB == null && !goRunning
    {
      this.handle, this.scheduler := handle, scheduler;
      queues, answer := Queues([], [], [], [], false), Answer(false, None);
      async, localReplyDetails := AsyncState(false, false, false, false, false, false), "";
      calloutCB, streamCB, goRunning := null, null, false;
    }

    ghost predicate Live()
      reads this, if handle == null then {} else handle.Parts()
    {
      handle != null && handle.Wired() && handle.plugin.writer == this
    }

    method SetRequestHeader(h: Header)
      requires Live()
      modifies this`queues, handle.host`issued
      ensures Live() && handle.View() == RunOp(old(handle.View()), Op.SetRequestHeader(h))
    {
      handle.host.issued := handle.host.issued + [Op.SetRequestHeader(h)];
      if !answer.responded {
        queues := queues.(reqMuts := queues.reqMuts + [h]);
      }
    }

    method SetResponseHeader(h: Header)
      requires Live()
      modifies this`queues, handle.host`issued
      ensures Live() && handle.View() == RunOp(old(handle.View()), Op.SetResponseHeader(h))
    {
      handle.host.issued := handle.host.issued + [Op.SetResponseHeader(h)];
      if !answer.responded {
        queues := queues.(respHdrMuts := queues.respHdrMuts + [h]);
      }
    }

    method SetMetadata(m: Meta)
      requires Live()
      modifies this`queues, handle.host`issued
      ensures Live() && handle.View() == RunOp(old(handle.View()), Op.SetMetadata(m))
    {
      handle.host.issued := handle.host.issued + [Op.SetMetadata(m)];
      if !answer.responded {
        queues := queues.(metaMuts := queues.metaMuts + [m]);
      }
    }

    method ClearRouteCache()
      requires Live()
      modifies this`queues, handle.host`issued
      ensures Live() && handle.View() == RunOp(old(handle.View()), Op.ClearRouteCache)
    {
      handle.host.issued := handle.host.issued + [Op.ClearRouteCache];
      queues := queues.(routeCleared := true);
    }

    /** IncrementCounter and RecordHistogram. */
    method AddMetric(m: Metric)
      requires Live()
      modifies this`queues, handle.host`issued
      ensures Live() && handle.View() == RunOp(old(handle.View()), Op.AddMetric(m))
    {
      handle.host.issued := handle.host.issued + [Op.AddMetric(m)];
      queues := queues.(counterMuts := queues.counterMuts + [m]);
    }

    method SendBytes(status: int, body: string)
      requires Live()
      modifies this`answer, handle`localResponseSent, handle.host
      ensures Live() && handle.host.SameOwner()
      ensures handle.View() == RunOp(old(handle.View()), Op.Send(status, body))
    {
      handle.host.issued := handle.host.issued + [Op.Send(status, body)];
      ghost var s1 := Record(old(handle.View()), Op.Send(status, body));
      assert handle.View() == s1;
      assert RunOp(old(handle.View()), Op.Send(status, body)) == Lifecycle.SendBytes(s1, status, body);
      hide RunOp, Record;
      if answer.responded {
        return;
      }
      answer := answer.(responded := true);
      var reply := Reply(status % UINT32, queues.respHdrMuts, body);
      if async.goStarted {
        answer := answer.(localResp := Some(reply));
        return;
      }
      handle.SendLocalResponse(reply);
    }

    /** Starts the goroutine; false stands for the "called twice" panic. */
    method Go() returns (ok: bool)
      requires Live()
      modifies this`async, this`goRunning, handle.host`issued
      ensures Live() && ok == !old(async.goStarted)
      ensures handle.View() == RunOp(old(handle.View()), Op.Go)
    {
      handle.host.issued := handle.host.issued + [Op.Go];
      if async.goStarted {
        return false;
      }
      async, goRunning := async.(goStarted := true), true;
      return true;
    }

    /** What the goroutine does once fn has returned. */
    method GoReturn()
      requires Live() && goRunning
      modifies this`goRunning, this`async, scheduler
      ensures Live() && handle.View() == OnGoReturn(old(handle.View()))
    {
      var _ := scheduler.Schedule(this);
      goRunning, async := false, async.(goCancelled := true);
    }

    /** HTTPCalloutE; hasFn: fn is not nil; None stands for the panics. */
    method HTTPCallout(init: Init, hasFn: bool) returns (r: Option<Init>)
      requires Live()
      modifies this`async, handle`calloutCallbacks, handle.host`issued
      ensures Live() && (r.None? <==> old(async.calloutStarted) || old(async.goStarted))
      ensures r.Some? ==> r.value == init
      ensures handle.View() == RunOp(old(handle.View()), Op.Callout(init, hasFn))
    {
      var op := Op.Callout(init, hasFn);
      handle.host.issued := handle.host.issued + [op];
      ghost var s1 := Record(old(handle.View()), op);
      assert handle.View() == s1 && RunOp(old(handle.View()), op) == StartCallout(s1, init, hasFn);
      assert async.calloutStarted || async.goStarted ==> StartCallout(s1, init, hasFn) == s1;
      hide RunOp, Record, Apply, StartCallout;
      if async.calloutStarted || async.goStarted {
        return None;
      }
      InitCallout(init, hasFn);
      return Some(init);
    }

    method InitCallout(init: Init, hasFn: bool)
      requires Live() && !async.calloutStarted && !async.goStarted
      modifies this`async, handle`calloutCallbacks
      ensures Live() && handle.View() == StartCallout(old(handle.View()), init, hasFn)
    {
      async := async.(calloutFn := hasFn);
      handle.HttpCallout(init, calloutCB);
      if init.Refused? {
        async := async.(calloutFn := false);
        return;
      }
      async := async.(calloutStarted := true);
    }

    method HTTPStream(init: Init, hasFn: bool) returns (r: Option<Init>)
      requires Live()
      modifies this`async, handle`streamCallbacks, handle.host`issued
      ensures Live()
      ensures r.None? <==> old(async.streamStarted) || old(async.calloutStarted) || old(async.goStarted)
      ensures r.Some? ==> r.value == init
      ensures handle.View() == RunOp(old(handle.View()), Op.Stream(init, hasFn))
    {
      var op := Op.Stream(init, hasFn);
      handle.host.issued := handle.host.issued + [op];
      ghost var s1 := Record(old(handle.View()), op);
      assert handle.View() == s1 && RunOp(old(handle.View()), op) == StartStream(s1, init, hasFn);
      assert async.streamStarted || async.calloutStarted || async.goStarted ==> StartStream(s1, init, hasFn) == s1;
      hide RunOp, Record, Apply, StartStream;
      if async.streamStarted || async.calloutStarted || async.goStarted {
        return None;
      }
      InitStream(init, hasFn);
      return Some(init);
    }

    method InitStream(init: Init, hasFn: bool)
      requires Live() && !async.streamStarted && !async.calloutStarted && !async.goStarted
      modifies this`async, handle`streamCallbacks
      ensures Live() && handle.View() == StartStream(old(handle.View()), init, hasFn)
    {
      async := async.(streamEventFn := hasFn);
      handle.StartHttpStream(init, streamCB);
      if init.Refused? {
        async := async.(streamEventFn := false);
        return;
      }
      async := async.(streamStarted := true);
    }

    /** One call of a handler, continuation or goroutine. */
    method Call(op: Op)
      requires Live()
      modifies this, handle`localResponseSent, handle`calloutCallbacks, handle`streamCallbacks, handle.host
      ensures Live() && handle == old(handle) && scheduler == old(scheduler)
      ensures handle.host.SameOwner()
      ensures handle.View() == RunOp(old(handle.View()), op)
    {
      hide RunOp;
      match op
      case SetRequestHeader(h) => SetRequestHeader(h);
      case SetResponseHeader(h) => SetResponseHeader(h);
      case SetMetadata(m) => SetMetadata(m);
      case ClearRouteCache => ClearRouteCache();
      case AddMetric(m) => AddMetric(m);
      case Send(status, body) => SendBytes(status, body);
      case Go => var _ := Go();
      case Callout(init, hasFn) => var _ := HTTPCallout(init, hasFn);
      case Stream(init, hasFn) => var _ := HTTPStream(init, hasFn);
    }

    /** User code: an arbitrary finite list of calls. */
    method Run(script: seq<Op>)
      requires Live()
      modifies this, handle`localResponseSent, handle`calloutCallbacks, handle`streamCallbacks, handle.host
      ensures Live() && handle == old(handle) && scheduler == old(scheduler)
      ensures handle.host.SameOwner()
      ensures handle.View() == RunOps(old(handle.View()), script)
    {
      hide RunOp;
      for i := 0 to |script|
        invariant Live() && handle == old(handle) && scheduler == old(scheduler)
        invariant handle.host == old(handle.host) && handle.host.SameOwner()
        invariant handle.View() == RunOps(old(handle.View()), script[..i])
      {
        assert script[..i + 1][..i] == script[..i];
        Call(script[i]);
      }
      assert script[..|script|] == script;
    }

    method ApplyHeaders()
      requires Live()
      modifies handle.host`log
      ensures handle.host.log == old(handle.host.log) + HeaderEffects(queues.reqMuts)
    {
      for i := 0 to |queues.reqMuts|
        invariant handle.host.log == old(handle.host.log) + HeaderEffects(queues.reqMuts[..i])
      {
        assert queues.reqMuts[..i + 1][..i] == queues.reqMuts[..i];
        handle.host.log := handle.host.log + [HeaderSet(queues.reqMuts[i])];
      }
      assert queues.reqMuts[..|queues.reqMuts|] == queues.reqMuts;
    }

    method ApplyMetadata()
      requires Live()
      modifies handle.host`log
      ensures handle.host.log == old(handle.host.log) + MetaEffects(queues.metaMuts)
    {
      for i := 0 to |queues.metaMuts|
        invariant handle.host.log == old(handle.host.log) + MetaEffects(queues.metaMuts[..i])
      {
        assert queues.metaMuts[..i + 1][..i] == queues.metaMuts[..i];
        handle.host.log := handle.host.log + [MetadataSet(queues.metaMuts[i])];
      }
      assert queues.metaMuts[..|queues.metaMuts|] == queues.metaMuts;
    }

    method ApplyMetrics()
      requires Live()
      modifies handle.host`log
      ensures handle.host.log == old(handle.host.log) + MetricEffects(queues.counterMuts)
    {
      for i := 0 to |queues.counterMuts|
        invariant handle.host.log == old(handle.host.log) + MetricEffects(queues.counterMuts[..i])
      {
        assert queues.counterMuts[..i + 1][..i] == queues.counterMuts[..i];
        handle.host.log := handle.host.log + [MetricRecorded(queues.counterMuts[i])];
      }
      assert queues.counterMuts[..|queues.counterMuts|] == queues.counterMuts;
    }

    method Flush(continueReq: bool)
      requires Live()
      modifies handle`localResponseSent, handle.host
      ensures Live() && handle.host.SameOwner()
      ensures handle.View() == Lifecycle.Flush(old(handle.View()), continueReq)
    {
      if answer.localResp.Some? {
        handle.SendLocalResponse(answer.localResp.value);
        return;
      }
      if answer.responded {
        return;
      }
      ApplyQueues();
      if continueReq {
        handle.host.log := handle.host.log + [Continued];
        handle.host.Decide(Continued);
        ghost var q := QueueEffects(old(handle.View()).w.queues);
        hide QueueEffects;
        assert handle.host.log == old(handle.host.log) + (q + [Continued]);
      }
    }

    method ApplyQueues()
      requires Live()
      modifies handle.host`log
      ensures handle.host.log == old(handle.host.log) + QueueEffects(State().queues)
    {
      ApplyHeaders();
      ApplyMetadata();
      if queues.routeCleared {
        handle.host.log := handle.host.log + [RouteCacheCleared];
      }
      ApplyMetrics();
    }

    method FlushResponseMutations()
      requires Live()
      modifies this`queues, handle.host
      ensures Live() && handle.host.SameOwner()
      ensures handle.View() == FlushResponse(old(handle.View()))
    {
      ApplyMetadata();
      ApplyMetrics();
      queues := queues.(metaMuts := [], counterMuts := []);
      handle.host.observed := Some(handle.host.issued);
    }
  }

  /** sync.Pool of Writers: Get returns any pooled Writer or a new one. */
  class WriterPool {
    var items: set<Writer>

    constructor ()
      ensures items == {}
    {
      items := {};
    }

    method Get() returns (w: Writer)
      modifies this
      ensures fresh(w) || w in old(items)
      ensures items == old(items) - {w}
    {
      if * {
        if items != {} {
          w :| w in items;
          items := items - {w};
          return;
        }
      }
      w := new Writer();
    }

    method Put(w: Writer)
      modifies this
      ensures items == old(items) + {w}
    {
      items := items + {w};
    }
  }

  datatype HeadersStatus = HeadersContinue | HeadersStop | HeadersStopAllAndBuffer
  datatype BodyStatus = BodyContinue | BodyStopAndBuffer
  datatype TrailersStatus = TrailersContinue | TrailersStop

  class SahlFilter {
    var def: Option<Def>   // the source's handler field: nil in the pool
    var handle: Handle?
    var writer: Writer?
    var bodyDone: bool
    var streamDone: bool

    constructor ()
      ensures def.None? && writer == null
    {
      def, handle, writer := None, null, null;
    }

    /** newSahlFilter on a pooled filter; false stands for the pool-corruption
        panic. */
    method Reset(def: Def, handle: Handle) returns (ok: bool)
      modifies this
      ensures ok <==> old(this.def).None?
      ensures ok ==> this.def == Some(def) && this.handle == handle && !bodyDone && !streamDone
      ensures writer == old(writer)
    {
      if this.def.Some? {
        return false;
      }
      this.def, this.handle := Some(def), handle;
      bodyDone, streamDone := false, false;
      return true;
    }

    ghost predicate Live()
      reads this, if handle == null then {} else handle.Parts()
    {
      handle != null && handle.Wired() && handle.plugin == this
    }

    /** Takes the scheduler and a pooled Writer for this request. */
    method AcquireWriter(pool: WriterPool)
      requires Live() && writer == null
      modifies this`writer, handle`scheduler, pool, pool.items
      ensures Live() && handle == old(handle)
      ensures writer != null && (fresh(writer) || writer in old(pool.items)) && pool.items == old(pool.items) - {writer}
      ensures fresh(handle.scheduler)
      ensures forall w | w in pool.items :: unchanged(w)
      ensures var s := old(handle.View());
              handle.View() == s.(filter := s.filter.(hasWriter := true), w := FRESH_WRITER)
    {
      var scheduler := handle.GetScheduler();
      var w := pool.Get();
      w.Reset(handle, scheduler);
      w.calloutCB := this;
      w.streamCB := this;
      writer := w;
    }

    method OnRequestHeaders(pool: WriterPool, endStream: bool, script: seq<Op>) returns (status: HeadersStatus)
      requires Live() && writer == null
      modifies this`writer, handle, handle.host, pool, pool.items
      ensures Live() && handle == old(handle) && handle.SameIdentity()
      ensures writer != null && (fresh(writer) || writer in old(pool.items)) && pool.items == old(pool.items) - {writer}
      ensures fresh(handle.scheduler)
      ensures forall w | w in pool.items :: unchanged(w)
      ensures (if status == HeadersContinue then Pass(handle.View()) else handle.View())
           == Lifecycle.OnRequestHeaders(old(handle.View()), script)
    {
      ghost var s := old(handle.View());
      AcquireWriter(pool);
      if def.value.bodyAware {
        return HeadersStopAllAndBuffer;
      }
      writer.Run(script);
      hide RunOps, Lifecycle.Flush, Pass;
      if writer.async.goStarted || writer.async.calloutStarted || writer.async.streamStarted {
        return HeadersStop;
      }
      if !writer.answer.responded {
        writer.Flush(false);
        return HeadersContinue;
      }
      return HeadersStop;
    }

    /** passed: the callback that ran the handler returned Continue. A Continue
        without the handler only releases a request that the host is holding. */
    method OnRequestBody(endStream: bool, script: seq<Op>) returns (status: BodyStatus, passed: bool)
      requires Live() && writer != null
      modifies this`bodyDone, writer,
               handle`localResponseSent, handle`calloutCallbacks, handle`streamCallbacks, handle.host
      ensures Live() && handle == old(handle) && handle.host.SameOwner()
      ensures status == BodyStopAndBuffer <==> def.value.bodyAware && !endStream
      ensures passed <==> def.value.bodyAware && endStream
      ensures (if passed then Pass(handle.View())
               else if status == BodyContinue then Release(handle.View()) else handle.View())
           == Lifecycle.OnRequestBody(old(handle.View()), endStream, script)
    {
      if endStream {
        bodyDone := true;
      }
      if def.value.bodyAware && endStream {
        ghost var s1 := handle.View();
        writer.Run(script);
        assert handle.View() == RunOps(s1, script);
        if !writer.answer.responded {
          writer.Flush(false);
        }
        return BodyContinue, true;
      }
      if def.value.bodyAware {
        return BodyStopAndBuffer, false;
      }
      return BodyContinue, false;
    }

    /** The embedded EmptyHttpFilter's: a sahl filter defines none of its own. */
    method OnRequestTrailers() returns (status: TrailersStatus)
      ensures status == TrailersContinue
    {
      return TrailersContinue;
    }

    /** OnResponseHeaders and OnResponseBody: the observer's calls. */
    method OnResponse(script: seq<Op>)
      requires Live() && writer != null
      modifies writer, handle`localResponseSent, handle`calloutCallbacks, handle`streamCallbacks, handle.host
      ensures Live() && handle.host.SameOwner()
      ensures handle.View() == if def.value.observer then RunOps(old(handle.View()), script) else old(handle.View())
    {
      if def.value.observer {
        writer.Run(script);
      }
    }

    method OnLocalReply(details: string)
      requires Live()
      modifies writer
      ensures Live() && handle.View() == Lifecycle.OnLocalReply(old(handle.View()), details)
    {
      if writer != null && details != "" {
        writer.localReplyDetails := details;
      }
    }

    method OnHttpCalloutDone(script: seq<Op>)
      requires Live()
      modifies writer, handle`localResponseSent, handle`calloutCallbacks, handle`streamCallbacks, handle.host
      ensures Live() && handle.host.SameOwner()
      ensures var s := old(handle.View());
              handle.View() ==
                if s.filter.streamDone || !s.filter.hasWriter || !s.w.async.calloutFn then s
                else Lifecycle.Flush(RunOps(Ran(ClearCalloutFn(s), CalloutRan), script), true)
    {
      if streamDone {
        return;
      }
      var w := writer;
      if w == null || !w.async.calloutFn {
        return;
      }
      w.async := w.async.(calloutFn := false);
      handle.host.ran := handle.host.ran + [CalloutRan];
      ghost var s1 := handle.View();
      assert s1 == Ran(ClearCalloutFn(old(handle.View())), CalloutRan);
      w.Run(script);
      w.Flush(true);
    }

    /** OnHttpStreamHeaders, OnHttpStreamData and OnHttpStreamTrailers. */
    method OnHttpStreamEvent(script: seq<Op>)
      requires Live()
      modifies writer, handle`localResponseSent, handle`calloutCallbacks, handle`streamCallbacks, handle.host
      ensures Live() && handle.host.SameOwner()
      ensures var s := old(handle.View());
              handle.View() ==
                if !s.filter.hasWriter || !s.w.async.streamEventFn then s else RunOps(Ran(s, StreamRan), script)
    {
      var w := writer;
      if w == null || !w.async.streamEventFn {
        return;
      }
      handle.host.ran := handle.host.ran + [StreamRan];
      assert handle.View() == Ran(old(handle.View()), StreamRan);
      w.Run(script);
    }

    method OnHttpStreamComplete(script: seq<Op>)
      requires Live()
      modifies writer, handle`localResponseSent, handle`calloutCallbacks, handle`streamCallbacks, handle.host
      ensures Live() && handle.host.SameOwner()
      ensures var s := old(handle.View());
              handle.View() ==
                if s.filter.streamDone || !s.filter.hasWriter then s
                else Lifecycle.Flush(if s.w.async.streamEventFn then LastStreamEvent(s, script) else s, true)
    {
      if streamDone {
        return;
      }
      var w := writer;
      if w == null {
        return;
      }
      if w.async.streamEventFn {
        LastEvent(script);
      }
      w.Flush(true);
    }

    method LastEvent(script: seq<Op>)
      requires Live() && writer != null && writer.async.streamEventFn
      modifies writer, handle`localResponseSent, handle`calloutCallbacks, handle`streamCallbacks, handle.host
      ensures Live() && handle.host.SameOwner()
      ensures handle.View() == LastStreamEvent(old(handle.View()), script)
    {
      handle.host.ran := handle.host.ran + [StreamRan];
      assert handle.View() == Ran(old(handle.View()), StreamRan);
      writer.Run(script);
      writer.async := writer.async.(streamEventFn := false);
    }

    method OnHttpStreamReset(script: seq<Op>)
      requires Live()
      modifies writer, handle`localResponseSent, handle`calloutCallbacks, handle`streamCallbacks, handle.host
      ensures Live() && handle.host.SameOwner()
      ensures var s := old(handle.View());
              handle.View() ==
                if s.filter.streamDone || !s.filter.hasWriter || !s.w.async.streamEventFn then s
                else var t := LastStreamEvent(s, script); Lifecycle.Flush(t, !t.w.answer.responded)
    {
      if streamDone {
        return;
      }
      var w := writer;
      if w == null || !w.async.streamEventFn {
        return;
      }
      LastEvent(script);
      w.Flush(!w.answer.responded);
    }

    method OnStreamComplete()
      requires Live()
      modifies this`streamDone, writer, handle.host
      ensures Live() && handle.host.SameOwner()
      ensures var s := old(handle.View());
              var s1 := s.(filter := s.filter.(streamDone := true));
              handle.View() == CancelGo(if s.def.observer && s.filter.hasWriter then FlushResponse(s1) else s1)
    {
      streamDone := true;
      if def.value.observer && writer != null {
        writer.FlushResponseMutations();
      }
      if writer != null && writer.async.goStarted {
        writer.async := writer.async.(goCancelled := true);
      }
    }

    /** Returns the Writer and then this filter to their pools. */
    method OnDestroy(writers: WriterPool) returns (put: Writer?)
      modifies this`writer, this`def, writers
      ensures put == old(writer) && writer == null && def.None?
      ensures writers.items == old(writers.items) + (if put == null then {} else {put})
    {
      put := writer;
      if writer != null {
        writers.Put(writer);
        writer := null;
      }
      def := None;
    }
  }

  class Handle {
    var host: Host?
    var plugin: SahlFilter?
    var scheduler: Scheduling.Scheduler?<Writer>
    var streamCompleted: bool
    var streamDestroyed: bool
    var localResponseSent: bool
    var calloutCallbacks: map<nat, SahlFilter>
    var streamCallbacks: map<nat, SahlFilter>

    constructor ()
      ensures plugin == null && scheduler == null
    {
      host, plugin, scheduler := null, null, null;
    }

    /** Readies a handle for a new stream; false stands for the pool-corruption
        panics. */
    method Reset(host: Host) returns (ok: bool)
      modifies this
      ensures ok <==> old(plugin) == null && old(scheduler) == null
      ensures ok ==>
                && this.host == host && plugin == null && scheduler == null
                && !streamCompleted && !streamDestroyed && !localResponseSent
                && calloutCallbacks == map[] && streamCallbacks == map[]
    {
      this.host := host;
      if plugin != null || scheduler != null {
        return false;
      }
      streamCompleted, streamDestroyed, localResponseSent := false, false, false;
      calloutCallbacks, streamCallbacks := map[], map[];
      return true;
    }

    ghost function Parts(): set<object>
      reads this, plugin
    {
      {this} + (if host == null then {} else {host}) + (if scheduler == null then {} else {scheduler})
      + (if plugin == null then {} else {plugin} + (if plugin.writer == null then {} else {plugin.writer}))
    }

    /** The parts of one request know each other and nothing else. */
    ghost predicate Wired()
      reads this, plugin, Parts()
    {
      && host != null && host.owner == this
      && plugin != null && plugin.handle == this && plugin.def.Some?
      && (forall id | id in calloutCallbacks :: calloutCallbacks[id] == plugin)
      && (forall id | id in streamCallbacks :: streamCallbacks[id] == plugin)
      && (plugin.writer == null ==> scheduler == null && calloutCallbacks == map[] && streamCallbacks == map[])
      && (plugin.writer != null ==>
            var w := plugin.writer;
            && w.handle == this && w.calloutCB == plugin && w.streamCB == plugin
            && scheduler != null && w.scheduler == scheduler && scheduler.owner == this
            && forall id | id in scheduler.tasks :: scheduler.tasks[id] == w)
    }

    ghost function View(): Sys
      requires Wired()
      reads this, plugin, Parts()
    {
      var w := plugin.writer;
      Sys(plugin.def.value,
          Abi(streamCompleted, streamDestroyed, localResponseSent),
          Pending(calloutCallbacks.Keys, streamCallbacks.Keys, w != null && w.goRunning,
                  if scheduler == null then {} else scheduler.tasks.Keys,
                  if scheduler == null then 0 else scheduler.nextTaskID),
          Lifecycle.Filter(plugin.streamDone, plugin.bodyDone, w != null),
          if w == null then FRESH_WRITER else w.State(),
          host.Trace())
    }

    /** Notes e in the history. */
    ghost method Note(e: Event)
      requires Wired()
      modifies host`events
      ensures Wired() && View() == old(View()) && host.events == old(host.events) + [e]
    {
      host.events := host.events + [e];
    }

    twostate predicate SameIdentity()
      reads this, host
    {
      && plugin == old(plugin) && host == old(host) && host != null && host.owner == old(host.owner)
      && host.events == old(host.events) && streamDestroyed == old(streamDestroyed)
    }

    /** The same request with the same parts. */
    twostate predicate SameParts()
      reads this, host, plugin
    {
      && SameIdentity() && scheduler == old(scheduler)
      && plugin != null && plugin.writer == old(plugin.writer)
    }

    method SendLocalResponse(reply: Reply)
      requires host != null
      modifies this`localResponseSent, host`log, host`resolved
      ensures localResponseSent && host.log == old(host.log) + [Replied(reply)]
      ensures host.resolved ==
              if old(host.resolved).None? then Some(Resolution(host.issued, Continued)) else old(host.resolved)
    {
      localResponseSent := true;
      host.log := host.log + [Replied(reply)];
      host.Decide(Continued);
    }

    /** Registers the callback once the host has accepted. */
    method HttpCallout(init: Init, cb: SahlFilter?)
      requires cb != null && Wired() && cb == plugin && plugin.writer != null
      modifies this`calloutCallbacks
      ensures Wired()
      ensures var s := old(View());
              View() == if init.Refused? then s
                        else s.(pending := s.pending.(callouts := s.pending.callouts + {init.id}))
      ensures calloutCallbacks == match init
                                  case Refused => old(calloutCallbacks)
                                  case Accepted(id) => old(calloutCallbacks)[id := cb]
    {
      if init.Accepted? {
        calloutCallbacks := calloutCallbacks[init.id := cb];
      }
    }

    method StartHttpStream(init: Init, cb: SahlFilter?)
      requires cb != null && Wired() && cb == plugin && plugin.writer != null
      modifies this`streamCallbacks
      ensures Wired()
      ensures var s := old(View());
              View() == if init.Refused? then s
                        else s.(pending := s.pending.(streams := s.pending.streams + {init.id}))
      ensures streamCallbacks == match init
                                 case Refused => old(streamCallbacks)
                                 case Accepted(id) => old(streamCallbacks)[id := cb]
    {
      if init.Accepted? {
        streamCallbacks := streamCallbacks[init.id := cb];
      }
    }

    method GetScheduler() returns (s: Scheduling.Scheduler<Writer>)
      modifies this`scheduler
      ensures scheduler == s
      ensures old(scheduler) == null ==> fresh(s) && s.owner == this && s.nextTaskID == 0 && s.tasks == map[]
      ensures old(scheduler) != null ==> s == old(scheduler)
    {
      if scheduler == null {
        scheduler := new Scheduling.Scheduler<Writer>(this);
      }
      s := scheduler;
    }

    // ----- the exported callbacks -----

    method OnRequestHeadersCallback(pool: WriterPool, endStream: bool, script: seq<Op>)
      requires Wired() && plugin.writer == null
      modifies Parts(), pool, pool.items
      ensures Wired() && SameIdentity() && plugin.writer != null
      ensures fresh(plugin.writer) || plugin.writer in old(pool.items)
      ensures pool.items == old(pool.items) - {plugin.writer}
      ensures fresh(scheduler) && forall w | w in pool.items :: unchanged(w)
      ensures View() == Step(old(View()), RequestHeaders(endStream, script))
    {
      ghost var s := View();
      host.ended := endStream;
      assert View() == Arrived(s, endStream);
      var status := plugin.OnRequestHeaders(pool, endStream, script);
      hide Lifecycle.OnRequestHeaders, Arrived, View, Lifecycle.Pass;
      if status == HeadersContinue {
        Pass();
      }
    }

    /** The request callback returns Continue. */
    method Pass()
      requires Wired()
      modifies host`log, host`resolved
      ensures Wired() && SameParts() && View() == Lifecycle.Pass(old(View()))
    {
      host.log := host.log + [Passed];
      host.Decide(Passed);
    }

    /** A body or trailers callback returns Continue: the host sends on what it was
        holding. */
    method Release()
      requires Wired()
      modifies host`log, host`released
      ensures Wired() && SameParts() && View() == Lifecycle.Release(old(View()))
    {
      if plugin.writer != null && host.resolved.None? && !host.released {
        host.log, host.released := host.log + [Released], true;
      }
    }

    method OnRequestBodyCallback(endStream: bool, script: seq<Op>)
      requires Wired() && plugin.writer != null
      modifies Parts()
      ensures Wired() && SameParts()
      ensures View() == Step(old(View()), RequestBody(endStream, script))
    {
      hide Lifecycle.OnRequestBody, Lifecycle.Pass, Lifecycle.Release, View;
      var status, passed := plugin.OnRequestBody(endStream, script);
      if passed {
        Pass();
      } else if status == BodyContinue {
        Release();
      }
    }

    method OnRequestTrailersCallback()
      requires Wired() && plugin.writer != null
      modifies host
      ensures Wired() && SameParts()
      ensures View() == Step(old(View()), RequestTrailers)
    {
      host.ended := true;
      assert View() == old(View()).(trace := old(View()).trace.(ended := true));
      var status := plugin.OnRequestTrailers();
      hide Lifecycle.Release, View;
      if status == TrailersContinue {
        Release();
      }
    }

    method OnResponseCallback(script: seq<Op>)
      requires Wired() && plugin.writer != null
      modifies Parts()
      ensures Wired() && SameParts()
      ensures View() == Step(old(View()), Response(script))
    {
      if localResponseSent {
        return;
      }
      plugin.OnResponse(script);
    }

    method OnLocalReplyCallback(details: string)
      requires Wired()
      modifies Parts()
      ensures Wired() && SameParts()
      ensures View() == Step(old(View()), LocalReplyNotice(details))
    {
      plugin.OnLocalReply(details);
    }

    /** Takes a scheduled function back from the scheduler and runs it: the flush of
        the Writer that scheduled it. */
    method OnScheduledCallback(taskID: nat)
      requires Wired()
      modifies Parts()
      ensures Wired() && SameParts()
      ensures View() == Step(old(View()), Scheduled(taskID))
    {
      if scheduler == null || streamCompleted {
        return;
      }
      var task := scheduler.OnScheduled(taskID);
      if task.None? {
        assert scheduler.tasks == old(scheduler.tasks);
        return;
      }
      host.ran := host.ran + [TaskRan];
      assert View() == Ran(DropTask(old(View()), taskID), TaskRan);
      task.value.Flush(true);
    }

    method OnCalloutDoneCallback(calloutID: nat, script: seq<Op>)
      requires Wired()
      modifies Parts()
      ensures Wired() && SameParts()
      ensures View() == Step(old(View()), CalloutDone(calloutID, script))
    {
      if streamCompleted || calloutID !in calloutCallbacks {
        return;
      }
      var cb := calloutCallbacks[calloutID];
      calloutCallbacks := calloutCallbacks - {calloutID};
      assert View() == DropCallout(old(View()), calloutID);
      cb.OnHttpCalloutDone(script);
    }

    method OnStreamEventCallback(streamID: nat, script: seq<Op>)
      requires Wired()
      modifies Parts()
      ensures Wired() && SameParts()
      ensures View() == Step(old(View()), StreamEvent(streamID, script))
    {
      if streamCompleted || streamID !in streamCallbacks {
        return;
      }
      streamCallbacks[streamID].OnHttpStreamEvent(script);
    }

    method OnStreamCompleteCallback(streamID: nat, script: seq<Op>)
      requires Wired()
      modifies Parts()
      ensures Wired() && SameParts()
      ensures View() == Step(old(View()), StreamComplete(streamID, script))
    {
      if streamCompleted || streamID !in streamCallbacks {
        return;
      }
      var cb := streamCallbacks[streamID];
      streamCallbacks := streamCallbacks - {streamID};
      assert View() == DropStream(old(View()), streamID);
      cb.OnHttpStreamComplete(script);
    }

    method OnStreamResetCallback(streamID: nat, script: seq<Op>)
      requires Wired()
      modifies Parts()
      ensures Wired() && SameParts()
      ensures View() == Step(old(View()), StreamReset(streamID, script))
    {
      if streamCompleted || streamID !in streamCallbacks {
        return;
      }
      var cb := streamCallbacks[streamID];
      streamCallbacks := streamCallbacks - {streamID};
      assert View() == DropStream(old(View()), streamID);
      cb.OnHttpStreamReset(script);
    }

    /** The goroutine makes one call. */
    method OnGoOp(op: Op)
      requires Wired() && plugin.writer != null
      modifies Parts()
      ensures Wired() && SameParts()
      ensures View() == Step(old(View()), GoOp(op))
    {
      hide RunOp;
      plugin.writer.Call(op);
    }

    /** The goroutine returns. */
    method OnGoReturn()
      requires Wired() && plugin.writer != null && plugin.writer.goRunning
      modifies Parts()
      ensures Wired() && SameParts()
      ensures View() == Step(old(View()), GoReturn)
    {
      plugin.writer.GoReturn();
    }

    method OnStreamDoneCallback()
      requires Wired()
      modifies Parts()
      ensures Wired() && SameParts()
      ensures View() == Step(old(View()), Complete)
    {
      streamCompleted := true;
      ghost var s := old(View());
      assert View() == s.(abi := s.abi.(completed := true));
      plugin.OnStreamComplete();
      hide FlushResponse, CancelGo;
    }

    /** Dispatches one callback or goroutine step. */
    method Dispatch(pool: WriterPool, e: Event)
      requires Wired() && Orderly(View(), e) && !e.Destroy?
      modifies Parts(), pool, pool.items
      ensures Wired() && SameIdentity() && View() == Step(old(View()), e)
      ensures scheduler == old(scheduler) || fresh(scheduler)
      ensures plugin.writer == old(plugin.writer) || fresh(plugin.writer) || plugin.writer in old(pool.items)
      ensures plugin.writer == old(plugin.writer) ==> pool.items == old(pool.items)
      ensures plugin.writer != old(plugin.writer) ==> pool.items == old(pool.items) - {plugin.writer}
      ensures forall w | w in pool.items && w != old(plugin.writer) :: unchanged(w)
    {
      if e.RequestHeaders? {
        HasWriter();
        OnRequestHeadersCallback(pool, e.endStream, e.script);
        assert e == RequestHeaders(e.endStream, e.script);
      } else {
        DispatchLater(e);
      }
      hide Step, View, Orderly;
    }

    lemma HasWriter()
      requires Wired()
      ensures View().filter.hasWriter <==> plugin.writer != null
      ensures View().pending.goRunning ==> plugin.writer != null && plugin.writer.goRunning
    {
    }

    /** Every step but the first callback keeps the parts of the request. */
    method DispatchLater(e: Event)
      requires Wired() && Orderly(View(), e) && !e.Destroy? && !e.RequestHeaders?
      modifies Parts()
      ensures Wired() && SameParts() && View() == Step(old(View()), e)
    {
      HasWriter();
      hide Step, View;
      match e
      case RequestBody(endStream, script) => OnRequestBodyCallback(endStream, script);
      case RequestTrailers => OnRequestTrailersCallback();
      case Response(script) => OnResponseCallback(script);
      case LocalReplyNotice(details) => OnLocalReplyCallback(details);
      case GoOp(op) => OnGoOp(op);
      case GoReturn => OnGoReturn();
      case Complete => OnStreamDoneCallback();
      case Scheduled(_) => DispatchUpstream(e);
      case CalloutDone(_, _) => DispatchUpstream(e);
      case StreamEvent(_, _) => DispatchUpstream(e);
      case StreamComplete(_, _) => DispatchUpstream(e);
      case StreamReset(_, _) => DispatchUpstream(e);
    }

    /** The events that resume a request. */
    method DispatchUpstream(e: Event)
      requires Wired()
      requires e.Scheduled? || e.CalloutDone? || e.StreamEvent? || e.StreamComplete? || e.StreamReset?
      modifies Parts()
      ensures Wired() && SameParts() && View() == Step(old(View()), e)
    {
      hide Step, View;
      match e
      case Scheduled(id) => OnScheduledCallback(id);
      case CalloutDone(id, script) => OnCalloutDoneCallback(id, script);
      case StreamEvent(id, script) => OnStreamEventCallback(id, script);
      case StreamComplete(id, script) => OnStreamCompleteCallback(id, script);
      case StreamReset(id, script) => OnStreamResetCallback(id, script);
    }
  }
}
