/** The in-memory record store: a ring of records that answers queries like the
    list of the last cap records. */
module MemStore {
  import opened Common
  import opened Records

  lemma NextSlot(head: nat, cap: nat)
    requires head < cap
    ensures (head + 1) % cap == if head + 1 == cap then 0 else head + 1
  {
  }

  lemma BackSlot(head: nat, i: nat, cap: nat)
    requires head < cap && i < cap
    ensures ((head - 1 - i) + cap) % cap == if i < head then head - 1 - i else head - 1 - i + cap
  {
    if i < head {
      assert (head - 1 - i + cap) % cap == (head - 1 - i) % cap;
    }
  }

  lemma NothingReversed()
    ensures Reversed<Record>([]) == []
  {
  }

  lemma OneMoreBack(inserted: seq<Record>, i: nat)
    requires i < |inserted|
    ensures var n := |inserted|;
            Reversed(inserted[n - (i + 1)..]) == Reversed(inserted[n - i..]) + [inserted[n - 1 - i]]
  {
    assert inserted[|inserted| - (i + 1)..][1..] == inserted[|inserted| - i..];
  }

  class MemStore {
    const ring: array<Option<Record>>
    const cap: nat
    var head: nat   // the next slot to write
    var size: nat
    var seqNo: nat  // the source's seq: the last ID given out
    ghost var inserted: seq<Record>

    /** The slot holding the record inserted i-th from last. */
    ghost function Slot(i: nat): int
      reads this
    {
      if i < head then head - 1 - i else head - 1 - i + cap
    }

    ghost predicate Valid()
      reads this, ring
    {
      && ring.Length == cap && cap > 0 && head < cap
      && seqNo == |inserted| && size == Min(cap, |inserted|)
      && Consecutive(inserted)
      && (size < cap ==> head == size)
      && (forall i :: 0 <= i < size ==> Holds(i))
    }

    /** The i-th slot back holds the record inserted i-th from last. */
    ghost predicate Holds(i: nat)
      reads this, ring
    {
      && 0 <= Slot(i) < ring.Length && i < |inserted|
      && ring[Slot(i)] == Some(inserted[|inserted| - 1 - i])
    }

    /** The stored records, oldest first. */
    ghost function Contents(): seq<Record>
      reads this
    {
      LastN(inserted, cap)
    }

    constructor (capacity: int)
      ensures Valid() && inserted == [] && fresh(ring)
      ensures cap == if capacity <= 0 then 2000 else capacity
    {
      var n: nat := if capacity <= 0 then 2000 else capacity;
      cap := n;
      ring := new Option<Record>[n](_ => None);
      head, size, seqNo, inserted := 0, 0, 0, [];
    }

    method InsertOne(r: Record, now: string) returns (stamped: Record)
      requires Valid()
      modifies this, ring
      ensures Valid() && stamped == Stamp(r, |old(inserted)| + 1, now)
      ensures inserted == old(inserted) + [stamped]
    {
      seqNo := seqNo + 1;
      stamped := Stamp(r, seqNo, now);
      NextSlot(head, cap);
      ring[head] := Some(stamped);
      head := (head + 1) % cap;
      if size < cap {
        size := size + 1;
      }
      inserted := inserted + [stamped];
      forall i | 0 <= i < size ensures Holds(i) {
        if i > 0 {
          assert old(Holds(i - 1));
          assert Slot(i) == old(Slot(i - 1)) && Slot(i) != old(head);
        }
      }
    }

    method Insert(batch: seq<Record>, now: string) returns (out: seq<Record>)
      requires Valid()
      modifies this, ring
      ensures Valid() && out == Stamped(batch, |old(inserted)|, now)
      ensures inserted == old(inserted) + out
    {
      out := [];
      for i := 0 to |batch|
        invariant Valid() && inserted == old(inserted) + out
        invariant out == Stamped(batch, |old(inserted)|, now)[..i]
      {
        var r := InsertOne(batch[i], now);
        out := out + [r];
      }
    }

    /** The records newest first, read backwards around the ring. */
    method Snapshot() returns (snap: seq<Record>)
      requires Valid()
      ensures snap == Reversed(Contents())
    {
      hide Consecutive, Reversed;
      snap := [];
      NothingReversed();
      for i := 0 to size
        invariant snap == Reversed(inserted[|inserted| - i..])
      {
        BackSlot(head, i, cap);
        var idx := ((head - 1 - i) + cap) % cap;
        assert Holds(i);
        if ring[idx].Some? {
          snap := snap + [ring[idx].value];
        }
        OneMoreBack(inserted, i);
      }
    }

    method Query(q: Query) returns (result: seq<Record>)
      requires Valid()
      ensures result == Answer(q, Contents()) && Selects(q, Contents(), result)
    {
      ConsecutiveIds(this);
      AnswerSelects(q, Contents());
      hide Selects, Increasing;
      var snap := Snapshot();
      var filtered := ApplyFilters(snap, q);
      FilterReversed(q, Contents());
      if q.ascending {
        filtered := Reverse(filtered);
        ReversedTwice(Filter(q, Contents()));
      }
      if |filtered| > q.limit {
        filtered := filtered[..q.limit];
      }
      return filtered;
    }
  }

  method ApplyFilters(snap: seq<Record>, q: Query) returns (filtered: seq<Record>)
    ensures filtered == Filter(q, snap)
  {
    filtered := [];
    for i := 0 to |snap|
      invariant filtered == Filter(q, snap[..i])
    {
      assert snap[..i + 1][..i] == snap[..i];
      if q.since > 0 && snap[i].id <= q.since {
        continue;
      }
      if q.errorsOnly && !snap[i].content.hasError {
        continue;
      }
      if q.search.Some? && !q.search.value(snap[i].content) {
        continue;
      }
      filtered := filtered + [snap[i]];
    }
    assert snap[..|snap|] == snap;
  }

  /** The exchange loop over a slice. */
  method Reverse(s: seq<Record>) returns (r: seq<Record>)
    ensures r == Reversed(s)
  {
    r := s;
    var i, j := 0, |s| - 1;
    while i < j
      invariant 0 <= i <= |s| && |r| == |s| && j == |s| - 1 - i && i <= j + 2
      invariant forall k :: 0 <= k < i || (j < k < |s|) ==> r[k] == s[|s| - 1 - k]
      invariant forall k :: i <= k <= j ==> r[k] == s[k]
    {
      r := r[i := r[j]][j := r[i]];
      i, j := i + 1, j - 1;
    }
    forall k | 0 <= k < |s| ensures r[k] == Reversed(s)[k] {
      ReversedAt(s, k);
    }
  }

  lemma InsertedIncreasing(m: MemStore)
    requires m.Valid()
    ensures Increasing(m.inserted)
  {
  }

  /** The store's list has consecutive IDs ending at the last one given out. */
  lemma ConsecutiveIds(m: MemStore)
    requires m.Valid()
    ensures Increasing(m.Contents())
    ensures forall k :: 0 <= k < |m.Contents()| ==> m.Contents()[k].id == m.seqNo - |m.Contents()| + 1 + k
  {
  }
}
