/** The request-logger's two halves over shared objects: filters from a pool,
    one pending map, and the access logger that consumes from it. */
module RequestLogger {
  import opened Common
  import opened Flags
  import opened HandOffModel

  class Filter {
    var handle: bool   // the stream handle is set
    var rec: LogRecord

    constructor ()
      ensures rec == EMPTY && !handle
    {
      handle, rec := false, EMPTY;
    }
  }

  class Factory {
    var pending: map<string, LogRecord>
    var pool: set<Filter>
    ghost var live: set<Filter>
    ghost var logged: set<Filter>
    ghost var serial: map<string, nat>
    ghost var serials: nat
    ghost var emitted: seq<Emission>

    ghost predicate Valid()
      reads this
    {
      live !! pool && logged <= live && serial.Keys == pending.Keys
    }

    ghost function View(): State<Filter>
      requires Valid()
      reads this, live
    {
      State(map k | k in pending :: Deposit(serial[k], pending[k]),
            map f | f in live :: FilterState(f.rec, !f.handle, f in logged),
            serials, emitted)
    }

    constructor ()
      ensures Valid() && View() == Init() && fresh(pool)
    {
      pending, pool, live, logged, serial, serials, emitted := map[], {}, {}, {}, map[], 0, [];
    }

    method Create() returns (f: Filter)
      requires Valid()
      modifies this`pool, this`live, pool
      ensures Valid() && f !in old(live)
      ensures View() == Step(old(View()), HandOffModel.Create(f))
    {
      f := Take();
      f.handle := true;
      f.rec := EMPTY;
      live := live + {f};
    }

    method Take() returns (f: Filter)
      modifies this`pool
      ensures f in old(pool) || fresh(f)
      ensures pool == old(pool) - {f}
    {
      if * {
        if pool != {} {
          f :| f in pool;
          pool := pool - {f};
          return;
        }
      }
      f := new Filter();
    }

    /** OnRequestHeaders, OnRequestBody, OnResponseHeaders, OnResponseBody and
        OnLocalReply: copy request data into the record. */
    method Observe(f: Filter, requestID: string, details: string)
      requires Valid() && f in live && f.handle
      modifies f`rec
      ensures Valid() && View() == Step(old(View()), HandOffModel.Observe(f, requestID, details))
    {
      f.rec := LogRecord(requestID, details, NO_FINAL);
    }

    method OnStreamComplete(f: Filter)
      requires Valid() && f in live && f.handle
      modifies this`pending, this`serial, this`serials, f`handle
      ensures Valid() && View() == Step(old(View()), Complete(f))
    {
      var r := f.rec;
      if r.requestID != "" {
        pending := pending[r.requestID := r];
        serial := serial[r.requestID := serials];
        serials := serials + 1;
      }
      f.handle := false;
      assert View().live == old(View().live)[f := old(View().live[f]).(done := true)];
    }

    /** Deletes a pending entry. */
    method Forget(key: string)
      requires Valid()
      modifies this`pending, this`serial
      ensures Valid() && pending == old(pending) - {key} && serial == old(serial) - {key}
      ensures View() == old(View()).(pending := old(View()).pending - {key})
    {
      pending := pending - {key};
      serial := serial - {key};
    }

    /** The access logger's OnLog for a stream-end event; the returned record is
        the line it writes. */
    method OnLog(key: string, info: LogInfo) returns (line: Option<LogRecord>)
      requires Valid()
      modifies this`pending, this`serial, this`logged, this`emitted
      ensures Valid() && View() == Step(old(View()), Log(key, info))
      ensures line == if key != "" && key in old(pending) then Some(Enrich(old(pending)[key], info)) else None
      ensures line.Some? ==> key in old(pending) && LineOf(line.value, old(pending)[key], info)
    {
      if key == "" || key !in pending {
        return None;
      }
      var r := pending[key];
      ghost var number := serial[key];
      assert View().pending[key] == Deposit(number, r);
      EnrichIsLine(r, info);
      hide Enrich, LineOf, MarkLogged, View;
      Forget(key);
      r := Finalize(r, info);
      NoteLogged(key, Emission(number, r));
      return Some(r);
    }

    /** Notes in the history that e was written, for the requests with that ID. */
    ghost method NoteLogged(key: string, e: Emission)
      requires Valid()
      modifies this`logged, this`emitted
      ensures Valid()
      ensures View() == old(View()).(live := MarkLogged(old(View()).live, key), emitted := old(View()).emitted + [e])
    {
      emitted := emitted + [e];
      logged := logged + set g | g in live && !g.handle && g.rec.requestID == key;
      assert View().live == MarkLogged(old(View()).live, key);
    }

    /** Fills in the fields only the access logger knows. */
    method Finalize(rec: LogRecord, info: LogInfo) returns (r: LogRecord)
      ensures r == Enrich(rec, info)
    {
      var flags := ResponseFlags(info.flags);
      var f := rec.final;
      if info.durationNs >= 0 {
        f := f.(durationMs := info.durationNs as real / 1000000.0);
      }
      f := f.(requestBytes := info.bytesReceived, responseBytes := info.bytesSent);
      if info.code.Some? && info.code.value > 0 {
        f := f.(responseCode := info.code.value);
      }
      if info.codeDetails.Some? && info.codeDetails.value != "" {
        f := f.(codeDetails := info.codeDetails.value);
      }
      if flags != "" {
        f := f.(flags := flags);
      }
      if info.upstreamFailure.Some? && info.upstreamFailure.value != "" {
        f := f.(upstreamFailure := info.upstreamFailure.value);
      }
      return rec.(final := f);
    }

    method OnDestroy(f: Filter)
      requires Valid() && f in live && !f.handle
      modifies this`pending, this`serial, this`pool, this`live, this`logged, f`rec
      ensures Valid() && View() == Step(old(View()), Destroy(f))
      ensures f in pool && f.rec == EMPTY
    {
      if f.rec.requestID != "" {
        Forget(f.rec.requestID);
      }
      f.rec := EMPTY;
      live, logged := live - {f}, logged - {f};
      pool := pool + {f};
      assert View().live == old(View().live) - {f};
    }
  }
}
