/** The sink around the store: a lossy intake channel, a batching writer and
    lossy fan-out to subscribers. Each method is one atomic step of the
    goroutines involved. */
module Sink {
  import opened Common
  import opened Records
  import opened MemStore

  const INTAKE: nat := 4096
  const BATCH: nat := 100
  const FANOUT: nat := 64

  // ----- fan-out -----

  /** A subscriber's channel, with what was already taken from it and the span
      of the broadcast history it was subscribed for. */
  class Subscriber {
    var queue: seq<Record>
    ghost var taken: seq<Record>
    ghost var lost: nat           // offered while the channel was full
    ghost var from: nat
    ghost var until: Option<nat>

    constructor (ghost from: nat)
      ensures queue == [] && taken == [] && lost == 0 && this.from == from && until.None?
    {
      queue, taken, lost, this.from, until := [], [], 0, from, None;
    }

    /** What this subscriber was sent is an increasing selection of what was
        broadcast while it was subscribed, and the rest was lost. */
    ghost predicate Faithful(broadcast: seq<Record>)
      reads this
    {
      var end := if until.Some? then until.value else |broadcast|;
      && from <= end <= |broadcast| && |queue| <= FANOUT
      && |taken + queue| + lost == end - from && Increasing(taken + queue)
      && forall r | r in taken + queue :: r in broadcast[from..end]
    }

    /** One more broadcast record keeps the channel faithful, whether this
        subscriber is still offered it or not. */
    ghost predicate Extends(broadcast: seq<Record>, r: Record)
      reads this
    {
      var all := broadcast + [r];
      if until.Some? then
        from <= until.value <= |broadcast| && |queue| <= FANOUT && Increasing(taken + queue)
        && |taken + queue| + lost == until.value - from
        && forall x | x in taken + queue :: x in all[from..until.value]
      else
        from <= |broadcast| && |Offer(queue, r, FANOUT)| <= FANOUT && Increasing(taken + Offer(queue, r, FANOUT))
        && |taken + Offer(queue, r, FANOUT)| + Missed(queue, lost, FANOUT) == |all| - from
        && forall x | x in taken + Offer(queue, r, FANOUT) :: x in all[from..]
    }

    lemma FaithfulExtends(broadcast: seq<Record>, r: Record)
      requires Faithful(broadcast) && Increasing(broadcast)
      requires broadcast != [] ==> broadcast[|broadcast| - 1].id < r.id
      ensures Extends(broadcast, r)
    {
      if until.Some? {
        assert (broadcast + [r])[from..until.value] == broadcast[from..until.value];
      } else {
        StillFaithful(taken, queue, r, broadcast, from);
      }
    }

    /** The non-blocking send to this channel. */
    method Offered(r: Record, ghost broadcast: seq<Record>)
      requires Extends(broadcast, r) && until.None?
      modifies this`queue, this`lost
      ensures Faithful(broadcast + [r])
      ensures old(|queue|) < FANOUT ==> queue == old(queue) + [r] && lost == old(lost)
      ensures old(|queue|) >= FANOUT ==> queue == old(queue) && lost == old(lost) + 1
    {
      if |queue| < FANOUT {
        queue := queue + [r];
      } else {
        lost := lost + 1;
      }
    }

    method Receive() returns (r: Record)
      requires queue != []
      modifies this`queue, this`taken
      ensures old(queue) == [r] + queue && taken == old(taken) + [r]
      ensures taken + queue == old(taken + queue)
    {
      r := queue[0];
      queue := queue[1..];
      taken := taken + [r];
    }
  }

  /** A channel offered a record takes it unless it is full. */
  function Offer(queue: seq<Record>, r: Record, capacity: nat): seq<Record> {
    if |queue| < capacity then queue + [r] else queue
  }

  /** The number of records lost once the channel was offered one more. */
  function Missed(queue: seq<Record>, lost: nat, capacity: nat): nat {
    if |queue| < capacity then lost else lost + 1
  }

  class Broadcaster {
    var subs: set<Subscriber>
    ghost var everyone: set<Subscriber>   // subscribed now or before
    ghost var broadcast: seq<Record>

    ghost predicate Valid()
      reads this, everyone
    {
      && subs <= everyone && Increasing(broadcast)
      && (forall s | s in everyone :: s.Faithful(broadcast) && (s.until.None? <==> s in subs))
    }

    constructor ()
      ensures Valid() && subs == {} && broadcast == [] && everyone == {}
    {
      subs, everyone, broadcast := {}, {}, [];
    }

    method Subscribe() returns (s: Subscriber)
      requires Valid()
      modifies this
      ensures Valid() && fresh(s) && subs == old(subs) + {s} && everyone == old(everyone) + {s}
      ensures broadcast == old(broadcast) && s.from == |broadcast| && s.queue == [] && s.taken == [] && s.lost == 0
    {
      s := new Subscriber(|broadcast|);
      subs, everyone := subs + {s}, everyone + {s};
    }

    method Unsubscribe(s: Subscriber)
      requires Valid() && s in everyone
      modifies this`subs, s`until
      ensures Valid() && subs == old(subs) - {s}
      ensures old(s.until).None? ==> s.until == Some(|broadcast|)
    {
      subs := subs - {s};
      if s.until.None? {
        s.until := Some(|broadcast|);
      }
    }

    /** A subscriber takes the next record from its channel. */
    method Receive(s: Subscriber) returns (r: Record)
      requires Valid() && s in everyone && s.queue != []
      modifies s`queue, s`taken
      ensures Valid() && old(s.queue) == [r] + s.queue && s.taken == old(s.taken) + [r]
    {
      r := s.Receive();
    }

    /** Offers the record to every current subscriber, in any order. */
    method Offers(r: Record)
      requires forall s | s in subs :: s.Extends(broadcast, r) && s.until.None?
      modifies subs`queue, subs`lost
      ensures forall s | s in subs :: s.Faithful(broadcast + [r])
      ensures forall s | s in subs && old(|s.queue|) < FANOUT ::
                s.queue == old(s.queue) + [r] && s.lost == old(s.lost)
      ensures forall s | s in subs && old(|s.queue|) >= FANOUT ::
                s.queue == old(s.queue) && s.lost == old(s.lost) + 1
    {
      hide Increasing, Offer, Missed, Subscriber.Extends, Subscriber.Faithful;
      var rest := subs;
      while rest != {}
        invariant rest <= subs
        invariant forall s | s in rest ::
                    s.queue == old(s.queue) && s.lost == old(s.lost) && s.Extends(broadcast, r)
        invariant forall s | s in subs - rest :: s.Faithful(broadcast + [r])
        invariant forall s | s in subs - rest && old(|s.queue|) < FANOUT ::
                    s.queue == old(s.queue) + [r] && s.lost == old(s.lost)
        invariant forall s | s in subs - rest && old(|s.queue|) >= FANOUT ::
                    s.queue == old(s.queue) && s.lost == old(s.lost) + 1
        decreases rest
      {
        var s :| s in rest;
        s.Offered(r, broadcast);
        rest := rest - {s};
      }
    }

    method Send(r: Record)
      requires Valid() && (broadcast != [] ==> broadcast[|broadcast| - 1].id < r.id)
      modifies this`broadcast, subs`queue, subs`lost
      ensures Valid() && broadcast == old(broadcast) + [r]
      ensures forall s | s in subs && old(|s.queue|) < FANOUT ::
                s.queue == old(s.queue) + [r] && s.lost == old(s.lost)
      ensures forall s | s in subs && old(|s.queue|) >= FANOUT ::
                s.queue == old(s.queue) && s.lost == old(s.lost) + 1
    {
      IncreasingSnoc(broadcast, r);
      forall s | s in everyone
        ensures s.Extends(broadcast, r) && (s.until.Some? ==> s.Faithful(broadcast + [r]))
      {
        s.FaithfulExtends(broadcast, r);
      }
      hide Increasing, Subscriber.Extends, Subscriber.Faithful;
      Offers(r);
      broadcast := broadcast + [r];
    }
  }

  lemma IncreasingSnoc(s: seq<Record>, r: Record)
    requires Increasing(s) && (s != [] ==> s[|s| - 1].id < r.id)
    ensures Increasing(s + [r])
  {
  }

  lemma StillFaithful(taken: seq<Record>, queue: seq<Record>, r: Record, broadcast: seq<Record>, from: nat)
    requires from <= |broadcast| && Increasing(broadcast) && Increasing(taken + queue)
    requires broadcast != [] ==> broadcast[|broadcast| - 1].id < r.id
    requires forall x | x in taken + queue :: x in broadcast[from..]
    ensures Increasing(taken + Offer(queue, r, FANOUT))
    ensures forall x | x in taken + Offer(queue, r, FANOUT) :: x in (broadcast + [r])[from..]
  {
    var all := taken + queue;
    assert (broadcast + [r])[from..] == broadcast[from..] + [r];
    forall i | 0 <= i < |all| ensures all[i].id < r.id {
      assert all[i] in all;
      var k :| 0 <= k < |broadcast[from..]| && broadcast[from..][k] == all[i];
      assert broadcast[from + k].id <= broadcast[|broadcast| - 1].id;
    }
    assert taken + (queue + [r]) == all + [r];
  }

  /** a can be had from b by leaving records out. */
  predicate Subsequence(a: seq<Record>, b: seq<Record>) {
    a == [] ||
    (b != [] &&
     (if a[|a| - 1] == b[|b| - 1] then Subsequence(a[..|a| - 1], b[..|b| - 1]) else Subsequence(a, b[..|b| - 1])))
  }

  lemma LastIsLargest(a: seq<Record>)
    requires Increasing(a) && a != []
    ensures var p, x := a[..|a| - 1], a[|a| - 1]; Increasing(p) && forall r | r in p :: r.id < x.id
  {
  }

  lemma {:induction false} IncreasingSelection(a: seq<Record>, b: seq<Record>)
    requires Increasing(a) && Increasing(b) && forall r | r in a :: r in b
    ensures Subsequence(a, b)
    decreases |b|
  {
    if a != [] {
      assert a[|a| - 1] in a && a[|a| - 1] in b;
      var x, y := a[|a| - 1], b[|b| - 1];
      var p, c := a[..|a| - 1], b[..|b| - 1];
      assert a == p + [x] && b == c + [y];
      LastIsLargest(a);
      LastIsLargest(b);
      hide Increasing;
      if x == y {
        forall r | r in p ensures r in c {
          assert r in a;
        }
        IncreasingSelection(p, c);
      } else {
        assert x in c;
        forall r | r in a ensures r in c {
        }
        IncreasingSelection(a, c);
      }
    }
  }

  /** A subscriber receives a subsequence of what was broadcast while it was
      subscribed: in order, nothing twice, nothing from outside that span. */
  lemma ReceivesSubsequence(bc: Broadcaster, s: Subscriber)
    requires bc.Valid() && s in bc.everyone
    ensures var end := if s.until.Some? then s.until.value else |bc.broadcast|;
            s.from <= end <= |bc.broadcast| && Subsequence(s.taken + s.queue, bc.broadcast[s.from..end])
  {
    assert s.Faithful(bc.broadcast);
    var end := if s.until.Some? then s.until.value else |bc.broadcast|;
    IncreasingSelection(s.taken + s.queue, bc.broadcast[s.from..end]);
  }

  lemma {:induction false} SubsequenceLength(a: seq<Record>, b: seq<Record>)
    requires Subsequence(a, b)
    ensures |a| <= |b| && (|a| == |b| ==> a == b)
    decreases |b|
  {
    if a != [] {
      var x, y := a[|a| - 1], b[|b| - 1];
      var p, c := a[..|a| - 1], b[..|b| - 1];
      assert a == p + [x] && b == c + [y];
      if x == y {
        SubsequenceLength(p, c);
      } else {
        SubsequenceLength(a, c);
      }
    }
  }

  /** It receives all of that if and only if its channel was never full when it was
      offered a record. */
  lemma ReceivesAllIff(bc: Broadcaster, s: Subscriber)
    requires bc.Valid() && s in bc.everyone
    ensures var end := if s.until.Some? then s.until.value else |bc.broadcast|;
            && s.from <= end <= |bc.broadcast| && |s.taken + s.queue| + s.lost == end - s.from
            && (s.taken + s.queue == bc.broadcast[s.from..end] <==> s.lost == 0)
  {
    ReceivesSubsequence(bc, s);
    assert s.Faithful(bc.broadcast);
    var end := if s.until.Some? then s.until.value else |bc.broadcast|;
    SubsequenceLength(s.taken + s.queue, bc.broadcast[s.from..end]);
    assert |bc.broadcast[s.from..end]| == end - s.from;
  }

  // ----- intake, batching, store -----

  class Sink {
    var ch: seq<Record>
    var batch: seq<Record>
    var outbox: seq<Record>            // stored by the flush in progress, not yet broadcast
    const st: MemStore
    const bcast: Broadcaster
    ghost var sent: nat                // calls of Send
    ghost var dropped: seq<Record>
    ghost var accepted: seq<Record>    // sent and not dropped, in order

    /** Nothing is lost or reordered after the intake: what was accepted is what
        was stored, then the batch, then the channel. */
    ghost predicate Valid()
      reads this, st, st.ring, bcast, bcast.everyone
    {
      && st.Valid() && bcast.Valid()
      && |ch| <= INTAKE && |batch| < BATCH
      && sent == |dropped| + |accepted|
      && |accepted| == |st.inserted| + |batch| + |ch|
      && accepted[|st.inserted|..] == batch + ch
      && (forall i :: 0 <= i < |st.inserted| ==> st.inserted[i].content == accepted[i].content)
      && bcast.broadcast + outbox == st.inserted
    }

    constructor (capacity: int)
      ensures Valid() && sent == 0
    {
      outbox := [];
      ch, batch, sent, dropped, accepted := [], [], 0, [], [];
      st := new MemStore(capacity);
      bcast := new Broadcaster();
    }

    method Send(r: Record)
      requires Valid()
      modifies this`ch, this`sent, this`dropped, this`accepted
      ensures Valid() && sent == old(sent) + 1
      ensures old(|ch|) < INTAKE ==> accepted == old(accepted) + [r] && dropped == old(dropped)
      ensures old(|ch|) >= INTAKE ==> accepted == old(accepted) && dropped == old(dropped) + [r]
    {
      sent := sent + 1;
      if |ch| < INTAKE {
        ch := ch + [r];
        accepted := accepted + [r];
      } else {
        dropped := dropped + [r];
      }
    }

    /** The writer takes a record; the hundredth of a batch starts a flush. */
    method WriterReceive(now: string)
      requires Valid() && ch != [] && outbox == []
      modifies this`ch, this`batch, this`outbox, st, st.ring
      ensures Valid() && ch == old(ch)[1..]
      ensures if old(|batch|) + 1 < BATCH then
                batch == old(batch) + [old(ch)[0]] && st.inserted == old(st.inserted)
              else
                && batch == [] && |outbox| == BATCH
                && st.inserted == old(st.inserted) + Stamped(old(batch) + [old(ch)[0]], old(|st.inserted|), now)
    {
      var r := ch[0];
      ch := ch[1..];
      batch := batch + [r];
      if |batch| >= BATCH {
        Flush(now);
      }
    }

    /** The writer's ticker fires. */
    method WriterTick(now: string)
      requires Valid() && outbox == []
      modifies this`batch, this`outbox, st, st.ring
      ensures Valid() && batch == []
      ensures st.inserted == old(st.inserted) + Stamped(old(batch), old(|st.inserted|), now)
    {
      Flush(now);
    }

    /** The first half of a flush: the batch is stored and its records wait to be
        broadcast. */
    method Flush(now: string)
      requires st.Valid() && bcast.Valid() && outbox == []
      requires |ch| <= INTAKE && |batch| <= BATCH && sent == |dropped| + |accepted|
      requires |accepted| == |st.inserted| + |batch| + |ch| && accepted[|st.inserted|..] == batch + ch
      requires forall i :: 0 <= i < |st.inserted| ==> st.inserted[i].content == accepted[i].content
      requires bcast.broadcast == st.inserted
      modifies this`batch, this`outbox, st, st.ring
      ensures Valid() && batch == [] && |outbox| == old(|batch|)
      ensures st.inserted == old(st.inserted) + Stamped(old(batch), old(|st.inserted|), now)
    {
      hide MemStore.Valid, Broadcaster.Valid, Stamped, Increasing;
      if |batch| == 0 {
        return;
      }
      outbox := st.Insert(batch, now);
      assert st.inserted == bcast.broadcast + outbox;
      batch := [];
    }

    /** The second half, one record at a time: subscribers may come and go, and
        Send may be called, between any two. */
    method BroadcastNext()
      requires Valid() && outbox != []
      modifies this`outbox, bcast`broadcast, bcast.subs
      ensures Valid() && outbox == old(outbox)[1..]
      ensures bcast.broadcast == old(bcast.broadcast) + [old(outbox)[0]]
      ensures forall s | s in bcast.subs && old(|s.queue|) < FANOUT ::
                s.queue == old(s.queue) + [old(outbox)[0]] && s.lost == old(s.lost)
      ensures forall s | s in bcast.subs && old(|s.queue|) >= FANOUT ::
                s.queue == old(s.queue) && s.lost == old(s.lost) + 1
    {
      var r := outbox[0];
      InsertedIncreasing(st);
      assert st.inserted == bcast.broadcast + outbox;
      hide MemStore.Valid, Broadcaster.Valid;
      var n := |bcast.broadcast|;
      assert st.inserted[n] == r && (n > 0 ==> bcast.broadcast[n - 1] == st.inserted[n - 1]);
      bcast.Send(r);
      outbox := outbox[1..];
      assert st.inserted == bcast.broadcast + outbox;
    }

    /** An SSE client connects. */
    method Subscribe() returns (s: Subscriber)
      requires Valid()
      modifies bcast
      ensures Valid() && fresh(s) && s in bcast.subs && s.from == |bcast.broadcast| && s.queue == []
    {
      s := bcast.Subscribe();
    }

    /** It reads its channel. */
    method Receive(s: Subscriber) returns (r: Record)
      requires Valid() && s in bcast.everyone && s.queue != []
      modifies s`queue, s`taken
      ensures Valid() && old(s.queue) == [r] + s.queue
    {
      r := bcast.Receive(s);
    }

    /** It disconnects. */
    method Unsubscribe(s: Subscriber)
      requires Valid() && s in bcast.everyone
      modifies bcast`subs, s`until
      ensures Valid() && s !in bcast.subs
    {
      bcast.Unsubscribe(s);
    }
  }
}
