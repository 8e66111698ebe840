/** buffer.Ring and buffer.HeadTail over real arrays. */
module Buffer {
  import opened Common
  import opened RingModel

  /** Go's copy into dst starting at an offset. */
  method CopyInto(dst: array<Byte>, at: nat, src: Bytes) returns (n: nat)
    requires at <= dst.Length
    modifies dst
    ensures n == Min(dst.Length - at, |src|)
    ensures dst[..] == old(dst[..at]) + src[..n] + old(dst[at + n..])
  {
    n := Min(dst.Length - at, |src|);
    forall i | 0 <= i < n {
      dst[at + i] := src[i];
    }
  }

  /** slices.Reverse of dst[lo:hi]. */
  method ReverseRange(dst: array<Byte>, lo: nat, hi: nat)
    requires lo <= hi <= dst.Length
    modifies dst
    ensures dst[..] == old(dst[..lo]) + Reversed(old(dst[lo..hi])) + old(dst[hi..])
  {
    var i, j := lo, hi;
    ghost var all := dst[..];
    while i + 1 < j
      invariant lo <= i <= j <= hi && i - lo == hi - j
      invariant forall k :: 0 <= k < lo || hi <= k < dst.Length || i <= k < j ==> dst[k] == all[k]
      invariant forall k :: lo <= k < i || j <= k < hi ==> dst[k] == all[lo + hi - 1 - k]
    {
      j := j - 1;
      dst[i], dst[j] := dst[j], dst[i];
      i := i + 1;
    }
    ReversedSlice(all, lo, hi, dst[..]);
  }

  lemma ReversedSlice(all: Bytes, lo: nat, hi: nat, now: Bytes)
    requires lo <= hi <= |all| == |now|
    requires forall k :: 0 <= k < lo || hi <= k < |all| ==> now[k] == all[k]
    requires forall k :: lo <= k < hi ==> now[k] == all[lo + hi - 1 - k]
    ensures now == all[..lo] + Reversed(all[lo..hi]) + all[hi..]
  {
    var was := all[lo..hi];
    forall k | 0 <= k < hi - lo ensures now[lo + k] == Reversed(was)[k] {
      ReversedAt(was, k);
    }
    assert now[lo..hi] == Reversed(was);
    assert now[..lo] == all[..lo] && now[hi..] == all[hi..];
    assert now == now[..lo] + now[lo..hi] + now[hi..];
  }

  class Ring {
    const data: array<Byte>
    const size: nat
    var pos: nat
    var full: bool

    ghost predicate Valid()
      reads this, data
    {
      data.Length == size && size > 0 && pos < size
    }

    ghost function View(): (s: RingState)
      requires Valid()
      reads this, data
      ensures s.Valid()
    {
      RingState(data[..], pos, full)
    }

    constructor (size: nat)
      requires size > 0
      ensures Valid() && fresh(data) && this.size == size
      ensures View().Contents() == [] && !full
    {
      this.size := size;
      data := new Byte[size];
      pos, full := 0, false;
    }

    /** Copies what fits before the end and wraps there. */
    method CopyBlock(rest: Bytes) returns (n: nat)
      requires Valid() && |rest| > 0
      modifies this, data
      ensures Valid() && 0 < n <= |rest| && View() == PutAll(old(View()), rest[..n])
    {
      ghost var s := View();
      n := CopyInto(data, pos, rest);
      PutBlock(s, rest[..n]);
      hide PutAll;
      pos := pos + n;
      if pos >= size {
        pos := 0;
        full := true;
      }
    }

    /** The block copies amount to writing one byte after another. */
    method Write(p: Bytes)
      requires Valid()
      modifies this, data
      ensures Valid() && View() == PutAll(old(View()), p)
    {
      var rest := p;
      while |rest| > 0
        invariant Valid() && |rest| <= |p| && rest == p[|p| - |rest|..]
        invariant View() == PutAll(old(View()), p[..|p| - |rest|])
        decreases |rest|
      {
        ghost var done := p[..|p| - |rest|];
        var n := CopyBlock(rest);
        PutAllConcat(old(View()), done, rest[..n]);
        assert p[..|p| - |rest| + n] == done + rest[..n];
        rest := rest[n..];
      }
      assert p[..|p|] == p;
    }

    method WriteChunks(chunks: seq<Bytes>)
      requires Valid()
      modifies this, data
      ensures Valid() && View() == PutAll(old(View()), Flatten(chunks))
    {
      for i := 0 to |chunks|
        invariant Valid() && View() == PutAll(old(View()), Flatten(chunks[..i]))
      {
        Write(chunks[i]);
        assert chunks[..i + 1][..i] == chunks[..i];
        PutAllConcat(old(View()), Flatten(chunks[..i]), chunks[i]);
      }
      assert chunks[..|chunks|] == chunks;
    }

    /** The contents, oldest byte first; a wrapped ring is rotated in place and
        starts again empty. */
    method Bytes() returns (r: Bytes)
      requires Valid()
      modifies this, data
      ensures Valid() && r == old(View()).Contents()
      ensures View() == Linearised(old(View()))
      ensures old(full) ==> data[..] == r && View().Contents() == []
    {
      if !full {
        return data[..pos];
      }
      Rotate();
      pos, full := 0, false;
      return data[..size];
    }

    /** Three reversals in place. */
    method Rotate()
      requires Valid()
      modifies data
      ensures data[..] == old(data[pos..]) + old(data[..pos])
    {
      ghost var a, b := data[..pos], data[pos..];
      ThreeReversalsRotate(a, b);
      var at := pos;
      assert data[0..at] == a;
      ReverseRange(data, 0, at);
      assert data[..] == Reversed(a) + b;
      assert data[..at] == Reversed(a) && data[at..size] == b;
      ReverseRange(data, at, size);
      assert data[0..size] == Reversed(a) + Reversed(b);
      ReverseRange(data, 0, size);
    }

    method Reset()
      requires Valid()
      modifies this
      ensures Valid() && View() == RingStep(old(View()), ResetRing)
      ensures View().Contents() == []
    {
      pos, full := 0, false;
    }

    method Len() returns (n: nat)
      requires Valid()
      ensures n == |View().Contents()|
    {
      return if full then size else pos;
    }
  }

  class HeadTail {
    const head: array<Byte>
    const headSize: nat
    const tail: Ring
    var headN: nat

    ghost predicate Valid()
      reads this, head, tail, tail.data
    {
      head != tail.data && head.Length == headSize && headN <= headSize && tail.Valid()
    }

    ghost function View(): (e: Ends)
      requires Valid()
      reads this, head, tail, tail.data
      ensures e.tail.Valid()
    {
      Ends(head[..headN], tail.View())
    }

    constructor (headSize: nat, tailSize: nat)
      requires tailSize > 0
      ensures Valid() && fresh(head) && fresh(tail) && fresh(tail.data)
      ensures this.headSize == headSize && tail.size == tailSize
      ensures View().head == [] && View().tail.Contents() == [] && !View().tail.full
    {
      this.headSize := headSize;
      head := new Byte[headSize];
      tail := new Ring(tailSize);
      headN := 0;
    }

    method Write(p: Bytes)
      requires Valid()
      modifies this, head, tail, tail.data
      ensures Valid() && View() == WriteEnds(old(View()), headSize, p)
    {
      if headN < headSize {
        var n := CopyInto(head, headN, p);
        headN := headN + n;
        assert head[..headN] == old(head[..headN]) + FirstN(p, headSize - old(headN));
      }
      tail.Write(p);
    }

    method WriteChunks(chunks: seq<Bytes>)
      requires Valid()
      modifies this, head, tail, tail.data
      ensures Valid() && View() == WriteEndsChunks(old(View()), headSize, chunks)
    {
      for i := 0 to |chunks|
        invariant Valid() && View() == WriteEndsChunks(old(View()), headSize, chunks[..i])
      {
        Write(chunks[i]);
        assert chunks[..i + 1][..i] == chunks[..i];
      }
      assert chunks[..|chunks|] == chunks;
    }

    method Head() returns (r: Bytes)
      requires Valid()
      ensures r == View().head
    {
      return head[..headN];
    }

    method Tail() returns (r: Bytes)
      requires Valid()
      modifies tail, tail.data
      ensures Valid() && r == old(View()).tail.Contents()
      ensures View() == Ends(old(View()).head, Linearised(old(View()).tail))
    {
      r := tail.Bytes();
    }

    method Reset()
      requires Valid()
      modifies this, tail
      ensures Valid() && View().head == [] && View().tail.Contents() == [] && !View().tail.full
    {
      headN := 0;
      tail.Reset();
    }
  }
}
