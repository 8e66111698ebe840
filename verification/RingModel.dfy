/** The ring buffer as a value, one byte at a time, and what any history of
    operations leaves in it. */
module RingModel {
  import opened Common

  /** A byte, written as a character. */
  type Byte = char
  type Bytes = seq<Byte>

  datatype RingState = RingState(data: Bytes, pos: nat, full: bool)
  {
    predicate Valid() {
      |data| > 0 && pos < |data|
    }

    /** Oldest byte first. */
    function Contents(): Bytes
      requires Valid()
    {
      if full then data[pos..] + data[..pos] else data[..pos]
    }
  }

  function Put(s: RingState, b: Byte): (t: RingState)
    requires s.Valid()
    ensures t.Valid() && |t.data| == |s.data|
  {
    var d := s.data[s.pos := b];
    if s.pos + 1 == |d| then RingState(d, 0, true) else RingState(d, s.pos + 1, s.full)
  }

  function PutAll(s: RingState, p: Bytes): (t: RingState)
    requires s.Valid()
    ensures t.Valid() && |t.data| == |s.data|
  {
    if p == [] then s else Put(PutAll(s, p[..|p| - 1]), p[|p| - 1])
  }

  lemma {:induction false} PutAllConcat(s: RingState, p: Bytes, q: Bytes)
    requires s.Valid()
    ensures PutAll(s, p + q) == PutAll(PutAll(s, p), q)
    decreases |q|
  {
    if q == [] {
      assert p + q == p;
    } else {
      PutAllConcat(s, p, q[..|q| - 1]);
      assert (p + q)[..|p + q| - 1] == p + q[..|q| - 1];
    }
  }

  /** A block that fits before the end may be copied at once. */
  lemma {:induction false} PutBlock(s: RingState, p: Bytes)
    requires s.Valid() && s.pos + |p| <= |s.data|
    ensures var d := s.data[..s.pos] + p + s.data[s.pos + |p|..];
            PutAll(s, p) ==
              if s.pos + |p| == |s.data| then RingState(d, 0, true) else RingState(d, s.pos + |p|, s.full)
    decreases |p|
  {
    if p == [] {
      assert s.data[..s.pos] + p + s.data[s.pos..] == s.data;
    } else {
      var q := p[..|p| - 1];
      PutBlock(s, q);
      var d := s.data[..s.pos] + q + s.data[s.pos + |q|..];
      assert d[s.pos + |q| := p[|q|]] == s.data[..s.pos] + p + s.data[s.pos + |p|..];
    }
  }

  // ----- the ring keeps the last bytes -----

  lemma PutKeepsLast(s: RingState, b: Byte)
    requires s.Valid()
    ensures Put(s, b).Contents() == LastN(s.Contents() + [b], |s.data|)
    ensures Put(s, b).full <==> s.full || |s.Contents()| + 1 >= |s.data|
  {
    var d := s.data[s.pos := b];
    if s.full {
      assert d[s.pos + 1..] + d[..s.pos + 1] == (s.Contents() + [b])[1..];
      assert s.pos + 1 == |d| ==> d == (s.Contents() + [b])[1..];
    } else {
      assert d[..s.pos + 1] == s.data[..s.pos] + [b];
      assert s.pos + 1 == |d| ==> d == s.data[..s.pos] + [b];
    }
  }

  lemma PutAllSnoc(s: RingState, q: Bytes, b: Byte)
    requires s.Valid()
    ensures PutAll(s, q + [b]) == Put(PutAll(s, q), b)
  {
    assert (q + [b])[..|q|] == q;
  }

  lemma {:induction false} PutAllKeepsLast(s: RingState, p: Bytes)
    requires s.Valid()
    ensures PutAll(s, p).Contents() == LastN(s.Contents() + p, |s.data|)
    ensures PutAll(s, p).full <==> s.full || |s.Contents()| + |p| >= |s.data|
    decreases |p|
  {
    var c := s.Contents();
    if p == [] {
      assert c + p == c;
    } else {
      hide PutAll, Put, RingState.Contents, LastN;
      var q, b := p[..|p| - 1], p[|p| - 1];
      assert p == q + [b] && c + p == (c + q) + [b];
      PutAllSnoc(s, q, b);
      PutAllKeepsLast(s, q);
      PutKeepsLast(PutAll(s, q), b);
      LastNAppend(c + q, [b], |s.data|);
      LastNLength(c + q, |s.data|);
    }
  }

  lemma LastNLength(s: Bytes, n: nat)
    ensures |LastN(s, n)| == Min(n, |s|)
  {
  }

  // ----- three reversals are a rotation -----

  lemma ThreeReversalsRotate(a: Bytes, b: Bytes)
    ensures Reversed(Reversed(a) + Reversed(b)) == b + a
  {
    ReversedConcat(Reversed(a), Reversed(b));
    ReversedTwice(a);
    ReversedTwice(b);
  }

  // ----- any history -----

  datatype RingOp = Write(p: Bytes) | WriteChunks(chunks: seq<Bytes>) | ReadBytes | ResetRing

  /** Bytes on a wrapped ring leaves the bytes in place but the ring empty. */
  function Linearised(s: RingState): (t: RingState)
    requires s.Valid()
    ensures t.Valid() && |t.data| == |s.data|
  {
    if s.full then RingState(s.Contents(), 0, false) else s
  }

  function RingStep(s: RingState, op: RingOp): (t: RingState)
    requires s.Valid()
    ensures t.Valid() && |t.data| == |s.data|
  {
    match op
    case Write(p) => PutAll(s, p)
    case WriteChunks(chunks) => PutAll(s, Flatten(chunks))
    case ReadBytes => Linearised(s)
    case ResetRing => s.(pos := 0, full := false)
  }

  function RunRing(s: RingState, ops: seq<RingOp>): (t: RingState)
    requires s.Valid()
    ensures t.Valid() && |t.data| == |s.data|
  {
    if ops == [] then s else RingStep(RunRing(s, ops[..|ops| - 1]), ops[|ops| - 1])
  }

  /** The bytes written since the ring was last cleared: by Reset, or by Bytes
      once at least size bytes had been written. */
  function Written(ops: seq<RingOp>, size: nat): Bytes {
    if ops == [] then []
    else
      var before := Written(ops[..|ops| - 1], size);
      match ops[|ops| - 1]
      case Write(p) => before + p
      case WriteChunks(chunks) => before + Flatten(chunks)
      case ReadBytes => if |before| >= size then [] else before
      case ResetRing => []
  }

  /** After any history Bytes returns the last min(size, k) of the k bytes
      written since the ring was last cleared, oldest first. */
  lemma {:induction false} RingHoldsLastBytes(s: RingState, ops: seq<RingOp>)
    requires s.Valid() && s.pos == 0 && !s.full
    ensures RunRing(s, ops).Contents() == LastN(Written(ops, |s.data|), |s.data|)
    ensures RunRing(s, ops).full <==> |Written(ops, |s.data|)| >= |s.data|
    decreases |ops|
  {
    if ops != [] {
      var n, p := |s.data|, ops[..|ops| - 1];
      RingHoldsLastBytes(s, p);
      var t, w := RunRing(s, p), Written(p, n);
      match ops[|p|] {
        case Write(q) => PutAllKeepsLast(t, q); LastNAppend(w, q, n);
        case WriteChunks(chunks) => PutAllKeepsLast(t, Flatten(chunks)); LastNAppend(w, Flatten(chunks), n);
        case ReadBytes =>
        case ResetRing =>
      }
    }
  }

  // ----- head and tail of a stream -----

  function AppendHead(head: Bytes, headSize: nat, p: Bytes): Bytes {
    if |head| < headSize then head + FirstN(p, headSize - |head|) else head
  }

  datatype Ends = Ends(head: Bytes, tail: RingState)

  function WriteEnds(e: Ends, headSize: nat, p: Bytes): (r: Ends)
    requires e.tail.Valid()
    ensures r.tail.Valid() && |r.tail.data| == |e.tail.data|
  {
    Ends(AppendHead(e.head, headSize, p), PutAll(e.tail, p))
  }

  function WriteEndsChunks(e: Ends, headSize: nat, chunks: seq<Bytes>): (r: Ends)
    requires e.tail.Valid()
    ensures r.tail.Valid() && |r.tail.data| == |e.tail.data|
  {
    if chunks == [] then e
    else WriteEnds(WriteEndsChunks(e, headSize, chunks[..|chunks| - 1]), headSize, chunks[|chunks| - 1])
  }

  /** Chunking is irrelevant: only the concatenated stream matters. */
  lemma {:induction false} EndsOfStream(e: Ends, headSize: nat, chunks: seq<Bytes>)
    requires e.tail.Valid() && |e.head| <= headSize
    ensures var r := WriteEndsChunks(e, headSize, chunks);
            && r.head == FirstN(e.head + Flatten(chunks), headSize)
            && r.tail == PutAll(e.tail, Flatten(chunks))
            && r.tail.Contents() == LastN(e.tail.Contents() + Flatten(chunks), |e.tail.data|)
    decreases |chunks|
  {
    PutAllKeepsLast(e.tail, Flatten(chunks));
    if chunks == [] {
      assert e.head + [] == e.head;
    } else {
      var q, c := chunks[..|chunks| - 1], chunks[|chunks| - 1];
      var all := Flatten(q);
      assert Flatten(chunks) == all + c;
      hide PutAll, RingState.Contents;
      EndsOfStream(e, headSize, q);
      PutAllConcat(e.tail, all, c);
      hide Flatten;
      HeadOfStream(e.head, all, c, headSize);
    }
  }

  lemma HeadOfStream(head: Bytes, all: Bytes, c: Bytes, headSize: nat)
    requires |head| <= headSize
    ensures AppendHead(FirstN(head + all, headSize), headSize, c) == FirstN(head + (all + c), headSize)
  {
    FirstNAppend(head + all, c, headSize);
    assert head + (all + c) == head + all + c;
  }

  /** The whole stream, rebuilt from its two ends and its length. */
  function Rebuild(head: Bytes, tail: Bytes, n: nat): Bytes
    requires |head| <= n <= |head| + |tail|
  {
    head + tail[|head| + |tail| - n..]
  }

  lemma RebuildCovers(s: Bytes, headSize: nat, tailSize: nat)
    requires |s| <= headSize + tailSize
    ensures |FirstN(s, headSize)| <= |s| <= |FirstN(s, headSize)| + |LastN(s, tailSize)|
    ensures Rebuild(FirstN(s, headSize), LastN(s, tailSize), |s|) == s
  {
  }

  /** The two ends and the length determine the stream exactly up to
      headSize + tailSize bytes. */
  lemma EndsDetermineIff(headSize: nat, tailSize: nat, n: nat)
    ensures (forall s: Bytes, t: Bytes ::
               |s| == n && |t| == n
               && FirstN(s, headSize) == FirstN(t, headSize) && LastN(s, tailSize) == LastN(t, tailSize)
               ==> s == t)
            <==> n <= headSize + tailSize
  {
    if n <= headSize + tailSize {
      forall s: Bytes, t: Bytes | |s| == n && |t| == n && FirstN(s, headSize) == FirstN(t, headSize)
                                  && LastN(s, tailSize) == LastN(t, tailSize)
        ensures s == t
      {
        RebuildCovers(s, headSize, tailSize);
        RebuildCovers(t, headSize, tailSize);
      }
    } else {
      var s: Bytes := seq(n, i => 'a');
      var t := s[headSize := 'b'];
      assert s[headSize] != t[headSize];
      assert FirstN(s, headSize) == FirstN(t, headSize);
      assert LastN(s, tailSize) == LastN(t, tailSize);
    }
  }
}
