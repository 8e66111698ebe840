/** Many interleaved requests over shared pools: ownership and isolation. */
module Pools {
  import opened Common
  import opened WriterModel
  import opened Lifecycle
  import opened LifecycleInvariant
  import opened LifecycleTheorems
  import opened RequestEnd
  import opened Calls
  import opened HostLog
  import opened Sahl

  /** Two requests share no part. */
  lemma PartsDisjoint(g: Handle, h: Handle)
    requires g != h && g.Wired() && h.Wired()
    ensures g.Parts() !! h.Parts()
  {
  }

  /** A state reached by an orderly run. */
  ghost predicate IsRun(s: Sys, def: Def, events: seq<Event>) {
    s == Exec(def, events) && OrderlyFrom(InitSys(def), events)
  }

  lemma RunBegins(def: Def)
    ensures IsRun(InitSys(def), def, [])
  {
  }

  lemma RunGoesOn(s: Sys, def: Def, events: seq<Event>, e: Event)
    requires IsRun(s, def, events) && Orderly(s, e)
    ensures IsRun(Step(s, e), def, events + [e])
  {
    assert (events + [e])[..|events|] == events;
    hide Step, Orderly;
  }

  lemma RunHasDef(s: Sys, def: Def, events: seq<Event>)
    requires IsRun(s, def, events)
    ensures s.def == def
  {
    RunGrows(def, events);
  }

  lemma ViewHasDef(h: Handle)
    requires h.Wired()
    ensures h.View().def == h.plugin.def.value
  {
  }

  /** The loaded module: its pools, and the handles Envoy holds. */
  class Module {
    var handlePool: set<Handle>
    var filterPool: set<SahlFilter>
    var writers: WriterPool
    var live: set<Handle>  // the pluginManager's entries

    constructor ()
      ensures Valid() && live == {}
    {
      handlePool, filterPool, live := {}, {}, {};
      writers := new WriterPool();
    }

    /** A live handle owns its parts, none of them is pooled, and its state is
        what the callbacks it received make of a new request. */
    ghost predicate Owned(h: Handle)
      reads this`handlePool, this`filterPool, this`writers, writers, h, h.plugin, h.Parts()
    {
      && h.Wired() && !h.streamDestroyed && h !in handlePool
      && h.plugin !in filterPool
      && (h.plugin.writer != null ==> h.plugin.writer !in writers.items)
      && IsRun(h.View(), h.plugin.def.value, h.host.events)
    }

    /** What is pooled is blank wherever reuse depends on it. */
    ghost predicate Blank()
      reads this`handlePool, this`filterPool, handlePool, filterPool
    {
      && (forall h | h in handlePool :: h.plugin == null && h.scheduler == null && h.streamDestroyed)
      && (forall f | f in filterPool :: f.def.None? && f.writer == null)
    }

    /** Every handle, filter and Writer is either pooled and blank, or owned by
        exactly one live request. */
    ghost predicate Valid()
      reads *
    {
      Blank() && forall h | h in live :: Owned(h)
    }

    /** on_http_filter_new: whatever the pools hand out, no corruption panic is
        raised and the request starts exactly like the first one ever. */
    method FilterNew(def: Def, host: Host) returns (h: Handle, panicked: bool)
      requires Valid()
      requires host.owner == null && host.Trace() == Trace([], [], [], None, None, false, false) && host.events == []
      modifies this`handlePool, this`filterPool, this`live, handlePool, filterPool, host`owner
      ensures Valid() && !panicked
      ensures h !in old(live) && live == old(live) + {h}
      ensures h.View() == InitSys(def)
      ensures forall g | g in old(live) :: g.View() == old(g.View())
    {
      hide Handle.View, IsRun;
      h, panicked := Assemble(def, host);
      forall g | g in old(live)
        ensures Owned(g) && g.View() == old(g.View())
      {
        assert g.Wired() && g.Parts() == old(g.Parts());
      }
    }

    /** Takes a handle and a filter from the pools and wires them to a stream. */
    method Assemble(def: Def, host: Host) returns (h: Handle, panicked: bool)
      requires Blank()
      requires host.owner == null && host.Trace() == Trace([], [], [], None, None, false, false) && host.events == []
      modifies this`handlePool, this`filterPool, this`live, handlePool, filterPool, host`owner
      ensures Blank() && !panicked && live == old(live) + {h}
      ensures h in old(handlePool) || fresh(h)
      ensures Owned(h) && (h.plugin in old(filterPool) || fresh(h.plugin))
      ensures handlePool == old(handlePool) - {h} && filterPool == old(filterPool) - {h.plugin}
      ensures h.View() == InitSys(def)
    {
      h := GetHandle();
      var ok := h.Reset(host);
      host.owner := h;
      var f := GetFilter();
      var ok' := f.Reset(def, h);
      panicked := !ok || !ok';
      h.plugin := f;
      live := live + {h};
      NewRequest(h, def);
      hide IsRun, Handle.View;
    }

    /** A wired handle, filter and stream without history are a new request. */
    lemma NewRequest(h: Handle, def: Def)
      requires h.Wired() && h.plugin.writer == null && h.plugin.def == Some(def)
      requires !h.plugin.streamDone && !h.plugin.bodyDone
      requires !h.streamCompleted && !h.streamDestroyed && !h.localResponseSent
      requires h.host.Trace() == Trace([], [], [], None, None, false, false) && h.host.events == []
      ensures h.View() == InitSys(def) && IsRun(h.View(), h.plugin.def.value, h.host.events)
    {
      RunBegins(def);
      hide IsRun;
    }

    method GetHandle() returns (h: Handle)
      modifies this`handlePool
      ensures h in old(handlePool) || (fresh(h) && h.plugin == null && h.scheduler == null)
      ensures handlePool == old(handlePool) - {h}
    {
      if * {
        if handlePool != {} {
          h :| h in handlePool;
          handlePool := handlePool - {h};
          return;
        }
      }
      h := new Handle();
    }

    method GetFilter() returns (f: SahlFilter)
      modifies this`filterPool
      ensures f in old(filterPool) || (fresh(f) && f.def.None? && f.writer == null)
      ensures filterPool == old(filterPool) - {f}
    {
      if * {
        if filterPool != {} {
          f :| f in filterPool;
          filterPool := filterPool - {f};
          return;
        }
      }
      f := new SahlFilter();
    }

    /** h has the parts it had, except for a new scheduler and a Writer from the
        pool. */
    twostate predicate SameOrPooled(h: Handle)
      reads this`writers, writers, h, h.plugin
    {
      && h.plugin == old(h.plugin) && h.host == old(h.host) && h.plugin != null
      && (h.scheduler == old(h.scheduler) || fresh(h.scheduler))
      && (h.plugin.writer == old(h.plugin.writer) || fresh(h.plugin.writer)
          || h.plugin.writer in old(writers.items))
    }

    /** Any callback or goroutine step of one request: it takes that request's
        step and leaves every other request as it was. */
    method Deliver(h: Handle, e: Event)
      requires Valid() && h in live && Orderly(h.View(), e) && !e.Destroy?
      modifies h.Parts(), writers, writers.items
      ensures Valid() && live == old(live)
      ensures h.View() == Step(old(h.View()), e) && SameOrPooled(h)
      ensures forall g | g in live && g != h :: g.View() == old(g.View())
    {
      hide Handle.View, IsRun;
      forall g | g in live && g != h ensures g.Parts() !! h.Parts() {
        PartsDisjoint(g, h);
      }
      DeliverOwn(h, e);
      forall g | g in live && g != h
        ensures Owned(g) && g.View() == old(g.View())
      {
        assert old(g.Parts()) !! old(h.Parts());
        assert g.Wired() && g.Parts() == old(g.Parts());
      }
    }

    method DeliverOwn(h: Handle, e: Event)
      requires Blank() && Owned(h) && Orderly(h.View(), e) && !e.Destroy?
      modifies h.Parts(), writers, writers.items
      ensures Blank() && Owned(h) && h.View() == Step(old(h.View()), e) && SameOrPooled(h)
      ensures writers.items <= old(writers.items)
    {
      hide Step, IsRun, Orderly, Handle.View;
      ghost var s, def := h.View(), h.plugin.def.value;
      RunGoesOn(s, def, h.host.events, e);
      RunHasDef(Step(s, e), def, h.host.events + [e]);
      h.Dispatch(writers, e);
      h.Note(e);
      ViewHasDef(h);
    }

    /** on_http_filter_destroy: the request's objects go back to their pools; a
        second call for the same handle does nothing. */
    method FilterDestroy(h: Handle)
      requires Valid() && (h in live || h in handlePool)
      modifies this`handlePool, this`filterPool, this`live, h, h.plugin, writers
      ensures Valid()
      ensures old(h.streamDestroyed) ==> live == old(live) && handlePool == old(handlePool)
      ensures !old(h.streamDestroyed) ==> live == old(live) - {h} && handlePool == old(handlePool) + {h}
      ensures !old(h.streamDestroyed) ==> old(h.plugin) in filterPool
      ensures forall g | g in live :: g.View() == old(g.View()) && g.Parts() == old(g.Parts())
      ensures old(h.streamDestroyed) ==> writers.items == old(writers.items)
      ensures !old(h.streamDestroyed) ==>
                writers.items == old(writers.items)
                + (if old(h.plugin.writer) == null then {} else {old(h.plugin.writer)})
    {
      hide Handle.View, IsRun;
      if h.streamDestroyed {
        return;
      }
      forall g | g in live && g != h ensures g.Parts() !! h.Parts() {
        PartsDisjoint(g, h);
      }
      Dismantle(h);
      forall g | g in live
        ensures Owned(g) && g.View() == old(g.View())
      {
        assert old(g.Parts()) !! old(h.Parts());
        assert g.Wired() && g.Parts() == old(g.Parts());
      }
    }

    method Dismantle(h: Handle)
      requires Blank() && Owned(h)
      modifies this`handlePool, this`filterPool, this`live, h, h.plugin, writers
      ensures Blank() && live == old(live) - {h}
      ensures handlePool == old(handlePool) + {h} && filterPool == old(filterPool) + {old(h.plugin)}
      ensures writers.items == old(writers.items)
                               + (if old(h.plugin.writer) == null then {} else {old(h.plugin.writer)})
    {
      h.streamDestroyed := true;
      var f := h.plugin;
      var _ := f.OnDestroy(writers);
      filterPool := filterPool + {f};
      h.plugin, h.scheduler := null, null;
      handlePool := handlePool + {h};
      live := live - {h};
    }

    /** g still serves the request it served, in the same state. */
    twostate predicate SameRequest(g: Handle)
      reads g, g.plugin, g.Parts()
    {
      old(g.Wired()) && g.Wired() && g.View() == old(g.View())
    }

    /** A call on the Writer that serves h, made by a goroutine that some earlier
        request left behind: it acts on h, and on no other request. */
    method StaleCall(h: Handle, op: Op)
      requires Valid() && h in live && h.plugin.writer != null
      modifies h.Parts()
      ensures h.Wired() && h.View() == RunOp(old(h.View()), op) && h.host.issued == old(h.host.issued) + [op]
      ensures h.SameParts()
      ensures forall g | g in live && g != h :: SameRequest(g)
    {
      hide Handle.View, IsRun, RunOp;
      forall g | g in live && g != h ensures g.Parts() !! h.Parts() {
        PartsDisjoint(g, h);
      }
      CallOn(h, op);
      forall g | g in live && g != h ensures SameRequest(g) {
        assert old(g.Parts()) !! old(h.Parts());
        assert g.Wired() && g.Parts() == old(g.Parts());
      }
    }

    method CallOn(h: Handle, op: Op)
      requires h.Wired() && h.plugin.writer != null
      modifies h.Parts()
      ensures h.Wired() && h.SameParts()
      ensures h.View() == RunOp(old(h.View()), op) && h.host.issued == old(h.host.issued) + [op]
    {
      IssuedGrows(h.View(), op);
      hide RunOp;
      h.plugin.writer.Call(op);
    }

    /** g is destroyed, whether or not its goroutine runs, and h then begins:
        h may be handed the Writer that g gave back. */
    method DestroyThenBegin(g: Handle, h: Handle, endStream: bool, script: seq<Op>)
      requires Valid() && g in live && h in live && g != h && g.plugin.writer != null
      requires Orderly(h.View(), RequestHeaders(endStream, script))
      modifies this`handlePool, this`filterPool, this`live, g, g.plugin, g.plugin.writer
      modifies h.Parts(), writers, writers.items
      ensures Valid() && h in live && h.plugin.writer != null
      ensures h.View() == Step(old(h.View()), RequestHeaders(endStream, script))
      ensures h.plugin == old(h.plugin) && h.host == old(h.host)
      ensures h.scheduler == old(h.scheduler) || fresh(h.scheduler)
      ensures h.plugin.writer == old(h.plugin.writer) || fresh(h.plugin.writer)
              || h.plugin.writer in old(writers.items) || h.plugin.writer == old(g.plugin.writer)
    {
      TakesWriter(h.View(), endStream, script);
      PartsDisjoint(g, h);
      hide Handle.View, IsRun, Step, Orderly, Blank;
      FilterDestroy(g);
      Deliver(h, RequestHeaders(endStream, script));
      h.HasWriter();
    }

    /** If it is that Writer, a call of the goroutine that g left behind becomes a
        call of h. */
    method DestroyReuseCall(g: Handle, h: Handle, endStream: bool, script: seq<Op>, op: Op) returns (reused: bool)
      requires Valid() && g in live && h in live && g != h && g.plugin.writer != null
      requires Orderly(h.View(), RequestHeaders(endStream, script))
      modifies this`handlePool, this`filterPool, this`live, g, g.plugin, g.plugin.writer
      modifies h.Parts(), writers, writers.items
      ensures h.Wired() && h.plugin.writer != null && reused == (h.plugin.writer == old(g.plugin.writer))
      ensures var s := Step(old(h.View()), RequestHeaders(endStream, script));
              h.View() == if reused then RunOp(s, op) else s
    {
      hide Handle.View, IsRun, Step, RunOp, Orderly, Blank;
      var kept := g.plugin.writer;
      DestroyThenBegin(g, h, endStream, script);
      reused := h.plugin.writer == kept;
      if reused {
        StaleCall(h, op);
      }
    }
  }

  lemma TakesWriter(s: Sys, endStream: bool, script: seq<Op>)
    ensures Step(s, RequestHeaders(endStream, script)).filter.hasWriter
  {
    HeadersBody(s, endStream, script);
    hide OnRequestHeaders;
  }

  lemma IssuedGrows(s: Sys, op: Op)
    ensures RunOp(s, op).trace.issued == s.trace.issued + [op]
  {
  }

  /** So what holds of every run holds of every live request, whatever else the
      module is doing: at most one decision, at most one resolution if and only if
      it was not released before it was decided, and exactly one thing to wait for
      while it is paused and undecided. */
  lemma LiveRequestIsSafe(m: Module, h: Handle)
    requires m.Valid() && h in m.live
    requires DisciplinedFrom(InitSys(h.plugin.def.value), h.host.events) && h.View().w.async.Started() <= 1
    ensures Decisions(h.host.log) <= 1
    ensures !h.plugin.def.value.bodyAware ==> (Resolutions(h.host.log) <= 1 <==> !DoublyResolved(h.View()))
    ensures PausedUndecided(h.View()) && !SomeFnLacking(h.host.issued) ==> Tokens(h.View().pending) == 1
  {
    assert m.Owned(h);
    var def, events := h.plugin.def.value, h.host.events;
    AtMostOneResolution(def, events);
    if PausedUndecided(h.View()) {
      NoLostWakeUp(def, events);
    }
  }

  /** And what each live request's host has seen, and which calls were made on its
      Writer, is read off the callbacks it received, whatever its code starts. */
  lemma LiveRequestIsReadOff(m: Module, h: Handle)
    requires m.Valid() && h in m.live
    ensures var def, events := h.plugin.def.value, h.host.events;
            && h.host.log == Seen(def, events)
            && h.host.issued == Read(def, events).calls && h.host.ran == Read(def, events).ran
  {
    assert m.Owned(h);
    var def, events := h.plugin.def.value, h.host.events;
    HostSees(def, events);
    CallsAreDue(def, events);
    hide Exec, Read, Seen;
  }
}
