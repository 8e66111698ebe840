/** The llm-proxy filter's response side: chunks into a HeadTail, counters out
    at the end of the stream. */
module LlmProxy {
  import opened Common
  import opened RingModel
  import opened Buffer
  import opened Sse

  const HEAD_SIZE: nat := 8 * 1024
  const TAIL_SIZE: nat := 64 * 1024

  datatype CounterEvent = InputTokens(n: uint32, cluster: string) | OutputTokens(n: uint32, cluster: string)

  /** Which counters were defined at configuration time. */
  datatype Metrics = Metrics(input: bool, output: bool)

  function Emitted(m: Metrics, u: Usage, cluster: string): seq<CounterEvent> {
    (if u.input > 0 && m.input then [InputTokens(u.input, cluster)] else [])
    + (if u.output > 0 && m.output then [OutputTokens(u.output, cluster)] else [])
  }

  /** What the events add to a counter. */
  function AddedInput(events: seq<CounterEvent>): nat {
    if events == [] then 0
    else AddedInput(events[1..]) + (if events[0].InputTokens? then events[0].n else 0)
  }

  function AddedOutput(events: seq<CounterEvent>): nat {
    if events == [] then 0
    else AddedOutput(events[1..]) + (if events[0].OutputTokens? then events[0].n else 0)
  }

  /** Each defined counter grows by its count, for that cluster, in at most one
      call, and no call adds nothing. */
  predicate Tallies(m: Metrics, u: Usage, cluster: string, events: seq<CounterEvent>) {
    && AddedInput(events) == (if m.input then u.input else 0)
    && AddedOutput(events) == (if m.output then u.output else 0)
    && (forall e | e in events :: e.n > 0 && e.cluster == cluster)
    && (forall i, j | 0 <= i < j < |events| :: events[i].InputTokens? != events[j].InputTokens?)
  }

  lemma OneAdds(e: CounterEvent)
    ensures AddedInput([e]) == (if e.InputTokens? then e.n else 0)
    ensures AddedOutput([e]) == (if e.OutputTokens? then e.n else 0)
  {
    assert [e][1..] == [];
  }

  lemma EmittedTallies(m: Metrics, u: Usage, cluster: string)
    ensures Tallies(m, u, cluster, Emitted(m, u, cluster))
  {
    var a, b := InputTokens(u.input, cluster), OutputTokens(u.output, cluster);
    OneAdds(a);
    OneAdds(b);
    assert [a, b][1..] == [b] && [a] + [b] == [a, b] && [a] + [] == [a] && [] + [b] == [b];
  }

  class Filter {
    const metrics: Metrics
    const ring: HeadTail
    var cluster: string
    var skipSSE: bool
    var counters: seq<CounterEvent>  // the host's IncrementCounterValue calls
    ghost var stream: Bytes          // response bytes since the ring was reset

    ghost predicate Valid()
      reads this, ring, ring.head, ring.tail, ring.tail.data
    {
      && ring.Valid() && ring.headSize == HEAD_SIZE && ring.tail.size == TAIL_SIZE
      && ring.View().head == FirstN(stream, HEAD_SIZE)
      && ring.View().tail.Contents() == LastN(stream, TAIL_SIZE)
    }

    constructor (metrics: Metrics)
      ensures Valid() && stream == [] && counters == []
    {
      this.metrics := metrics;
      ring := new HeadTail(HEAD_SIZE, TAIL_SIZE);
      cluster, skipSSE, counters, stream := "default", false, [], [];
    }

    /** Factory.Create on a pooled filter. */
    method Create()
      requires Valid()
      modifies this, ring, ring.tail
      ensures Valid() && stream == [] && !skipSSE && cluster == "default" && counters == old(counters)
    {
      cluster, skipSSE := "default", false;
      ring.Reset();
      stream := [];
    }

    /** Feeds every non-empty chunk to the ring. */
    method Tap(chunks: seq<Bytes>)
      requires Valid()
      modifies this`stream, ring, ring.head, ring.tail, ring.tail.data
      ensures Valid() && stream == old(stream) + Flatten(chunks)
    {
      hide Valid;
      for i := 0 to |chunks|
        invariant Valid() && stream == old(stream) + Flatten(chunks[..i])
      {
        assert chunks[..i + 1][..i] == chunks[..i];
        TapOne(chunks[i]);
      }
      assert chunks[..|chunks|] == chunks;
    }

    method TapOne(chunk: Bytes)
      requires Valid()
      modifies this`stream, ring, ring.head, ring.tail, ring.tail.data
      ensures Valid() && stream == old(stream) + chunk
    {
      if |chunk| > 0 {
        WriteOne(chunk);
      }
    }

    method WriteOne(chunk: Bytes)
      requires Valid()
      modifies this`stream, ring, ring.head, ring.tail, ring.tail.data
      ensures Valid() && stream == old(stream) + chunk
    {
      ghost var e := ring.View();
      ring.Write(chunk);
      EndsOfStream(e, HEAD_SIZE, [chunk]);
      assert [chunk][..0] == [];
      assert Flatten([chunk]) == chunk;
      FirstNAppend(stream, chunk, HEAD_SIZE);
      LastNAppend(stream, chunk, TAIL_SIZE);
      stream := stream + chunk;
    }

    /** Whatever the chunking, the counters at the end of the stream are those
        of its first 8 KiB and last 64 KiB. */
    method OnResponseBody(dec: Decoder, chunks: seq<Bytes>, endStream: bool)
      requires Valid()
      modifies this`counters, this`stream, ring, ring.head, ring.tail, ring.tail.data
      ensures Valid()
      ensures var all := old(stream) + Flatten(chunks);
              if skipSSE then stream == old(stream) && counters == old(counters)
              else if !endStream then stream == all && counters == old(counters)
              else
                && stream == []
                && counters == old(counters)
                     + Emitted(metrics, UsageOf(dec, FirstN(all, HEAD_SIZE), LastN(all, TAIL_SIZE)), cluster)
      ensures !skipSSE && endStream ==>
                var all := old(stream) + Flatten(chunks);
                var usage := UsageOf(dec, FirstN(all, HEAD_SIZE), LastN(all, TAIL_SIZE));
                && Reports(dec, Lines(FirstN(all, HEAD_SIZE)), Lines(LastN(all, TAIL_SIZE)), usage)
                && old(counters) <= counters && Tallies(metrics, usage, cluster, counters[|old(counters)|..])
    {
      if skipSSE {
        return;
      }
      Tap(chunks);
      if !endStream {
        return;
      }
      var head := ring.Head();
      var tail := ring.Tail();
      var usage := ExtractUsage(dec, head, tail);
      ring.Reset();
      stream := [];
      Emit(usage);
      EmittedTallies(metrics, usage, cluster);
      assert counters[|old(counters)|..] == Emitted(metrics, usage, cluster);
    }

    method Emit(usage: Usage)
      modifies this`counters
      ensures counters == old(counters) + Emitted(metrics, usage, cluster)
    {
      if usage.input > 0 && metrics.input {
        counters := counters + [InputTokens(usage.input, cluster)];
      }
      if usage.output > 0 && metrics.output {
        counters := counters + [OutputTokens(usage.output, cluster)];
      }
    }
  }

  /** An input count found in the first 8 KiB is what the complete response
      would have shown. */
  lemma ReportedInputIsTrue(dec: Decoder, all: Bytes)
    requires StartCount(dec, FirstN(all, HEAD_SIZE)) > 0
    ensures UsageOf(dec, FirstN(all, HEAD_SIZE), LastN(all, TAIL_SIZE)).input == StartCount(dec, all)
  {
    PrefixStableInput(dec, all, HEAD_SIZE, LastN(all, TAIL_SIZE));
  }
}
