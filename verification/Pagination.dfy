/** Paging through the store with the last returned ID, while records keep
    arriving and old ones fall out. */
module Pagination {
  import opened Common
  import opened Records

  /** The page after cursor; the client asks with since = cursor. */
  function Page(q: Query, s: seq<Record>, cursor: int): seq<Record> {
    Answer(q.(since := cursor, ascending := true), s)
  }

  function NextCursor(page: seq<Record>, cursor: int): int {
    if page == [] then cursor else page[|page| - 1].id
  }

  /** The cursor after one page from each snapshot of the store. */
  function Cursor(q: Query, snaps: seq<seq<Record>>, since: int): int {
    if snaps == [] then since
    else
      var c := Cursor(q, snaps[..|snaps| - 1], since);
      NextCursor(Page(q, snaps[|snaps| - 1], c), c)
  }

  /** All records received, in order. */
  function Received(q: Query, snaps: seq<seq<Record>>, since: int): seq<Record> {
    if snaps == [] then []
    else Received(q, snaps[..|snaps| - 1], since)
         + Page(q, snaps[|snaps| - 1], Cursor(q, snaps[..|snaps| - 1], since))
  }

  predicate Wanted(q: Query, since: int, r: Record) {
    r.id > since && Accepts(q.(since := 0), r)
  }

  lemma SomeElement<T>(s: seq<T>)
    ensures s == [] <==> !exists x :: x in s
  {
    if s != [] { assert s[0] in s; }
  }

  lemma InPrefix(f: seq<Record>, n: nat)
    requires n <= |f|
    ensures forall k :: 0 <= k < n ==> f[k] in f[..n]
  {
    forall k | 0 <= k < n ensures f[k] in f[..n] {
      assert f[..n][k] == f[k];
    }
  }

  lemma PrefixElement(f: seq<Record>, n: nat, cursor: int, r: Record)
    requires Increasing(f) && n <= |f| && (forall r | r in f :: r.id > cursor) && r in f[..n]
    ensures r in f && r.id <= NextCursor(f[..n], cursor)
  {
    var k :| 0 <= k < n && f[..n][k] == r;
    assert f[k] == r && (k < n - 1 ==> f[k].id < f[n - 1].id);
  }

  lemma BeyondPrefix(f: seq<Record>, n: nat, cursor: int, r: Record)
    requires Increasing(f) && n <= |f| && (forall r | r in f :: r.id > cursor) && r in f && r !in f[..n]
    ensures r.id > NextCursor(f[..n], cursor)
  {
    InPrefix(f, n);
    var k :| 0 <= k < |f| && f[k] == r;
    assert n > 0 ==> f[n - 1].id < f[k].id;
  }

  /** A limited prefix of an increasing list beyond the cursor. */
  lemma PrefixIs(f: seq<Record>, limit: nat, cursor: int)
    requires Increasing(f) && forall r | r in f :: r.id > cursor
    ensures var page := FirstN(f, limit);
            && Increasing(page) && |page| <= limit && cursor <= NextCursor(page, cursor)
            && (forall r | r in page :: r in f && r.id <= NextCursor(page, cursor))
            && (forall r | r in f && r !in page :: r.id > NextCursor(page, cursor))
            && (page == [] <==> limit == 0 || f == [])
  {
    var n := Min(limit, |f|);
    assert Increasing(f[..n]);
    assert n > 0 ==> f[n - 1] in f && f[..n][n - 1] == f[n - 1];
    hide Increasing;
    forall r | r in f[..n] ensures r in f && r.id <= NextCursor(f[..n], cursor) {
      PrefixElement(f, n, cursor, r);
    }
    forall r | r in f && r !in f[..n] ensures r.id > NextCursor(f[..n], cursor) {
      BeyondPrefix(f, n, cursor, r);
    }
  }

  lemma PageIs(q: Query, s: seq<Record>, cursor: int)
    requires Increasing(s) && cursor > 0
    ensures var page := Page(q, s, cursor);
            && Increasing(page) && |page| <= q.limit
            && (forall r | r in page :: r in s && Wanted(q, cursor, r) && cursor < r.id <= NextCursor(page, cursor))
            && (forall r | r in s && Wanted(q, cursor, r) && r !in page :: r.id > NextCursor(page, cursor))
            && cursor <= NextCursor(page, cursor)
            && (page == [] <==> q.limit == 0 || !exists r :: r in s && Wanted(q, cursor, r))
  {
    var q' := q.(since := cursor, ascending := true);
    var f := Filter(q', s);
    assert Page(q, s, cursor) == FirstN(f, q.limit);
    assert forall r :: Accepts(q', r) <==> Wanted(q, cursor, r);
    FilterIs(q', s);
    hide Filter, Page, FirstN, NextCursor, Accepts, Increasing;
    assert forall r | r in f :: r.id > cursor;
    PrefixIs(f, q.limit, cursor);
    SomeElement(f);
  }

  /** However the store changes between pages, the received records have
      strictly increasing IDs, so none comes twice, and a wanted record that
      every snapshot held has been received exactly if the cursor passed it. */
  lemma {:induction false} PagingIsExact(q: Query, snaps: seq<seq<Record>>, since: int)
    requires since > 0 && forall s | s in snaps :: Increasing(s)
    ensures var got := Received(q, snaps, since);
            && Increasing(got) && since <= Cursor(q, snaps, since)
            && (forall r | r in got :: Wanted(q, since, r) && r.id <= Cursor(q, snaps, since))
            && (forall r | r in got :: exists s :: s in snaps && r in s)
    ensures forall r | Wanted(q, since, r) && (forall s | s in snaps :: r in s) ::
              r in Received(q, snaps, since) <==> r.id <= Cursor(q, snaps, since)
    decreases |snaps|
  {
    if snaps != [] {
      var p, s := snaps[..|snaps| - 1], snaps[|snaps| - 1];
      assert snaps == p + [s];
      PagingIsExact(q, p, since);
      PageIs(q, s, Cursor(q, p, since));
    }
  }

  // ----- one growing store -----

  /** What a store of capacity cap shows when it has been given sizes[0], then
      sizes[1], ... of the records all. */
  predicate Shown(snaps: seq<seq<Record>>, all: seq<Record>, cap: nat, sizes: seq<nat>) {
    && |snaps| == |sizes|
    && (forall i :: 0 <= i < |sizes| ==> sizes[i] <= |all| && snaps[i] == LastN(all[..sizes[i]], cap))
    && (forall i, j :: 0 <= i <= j < |sizes| ==> sizes[i] <= sizes[j])
  }

  lemma RetainedAt(all: seq<Record>, cap: nat, n: nat, k: nat)
    requires n <= |all| && k < Min(cap, n)
    ensures var kept := LastN(all[..n], cap);
            |kept| == Min(cap, n) && kept[k] == all[n - |kept| + k]
  {
  }

  lemma RetainedIncrease(all: seq<Record>, cap: nat, n: nat)
    requires Consecutive(all) && n <= |all|
    ensures Increasing(LastN(all[..n], cap))
  {
  }

  /** The store holds a record exactly if it was given it and not cap more. */
  lemma RetainedIs(all: seq<Record>, cap: nat, n: nat, r: Record)
    requires Consecutive(all) && n <= |all|
    ensures r in LastN(all[..n], cap) <==> n - cap < r.id <= n && 0 < r.id && all[r.id - 1] == r
  {
    var kept := LastN(all[..n], cap);
    if r in kept {
      var k :| 0 <= k < |kept| && kept[k] == r;
      RetainedAt(all, cap, n, k);
      IdAt(all, n - |kept| + k);
    } else if n - cap < r.id <= n && 0 < r.id {
      RetainedAt(all, cap, n, r.id - 1 - (n - |kept|));
    }
    hide LastN, Consecutive;
  }

  lemma IdAt(all: seq<Record>, k: nat)
    requires Consecutive(all) && k < |all|
    ensures all[k].id == k + 1
  {
  }

  /** The last snapshot, and the ones before it. */
  lemma LastShown(snaps: seq<seq<Record>>, all: seq<Record>, cap: nat, sizes: seq<nat>)
    requires Consecutive(all) && Shown(snaps, all, cap, sizes) && snaps != []
    ensures var k := |snaps| - 1;
            && sizes[k] <= |all| && snaps[k] == LastN(all[..sizes[k]], cap) && Increasing(snaps[k])
            && Shown(snaps[..k], all, cap, sizes[..k]) && (k > 0 ==> sizes[k - 1] <= sizes[k])
            && forall s | s in snaps :: Increasing(s)
  {
    AllIncreasing(snaps, all, cap, sizes);
  }

  lemma LastPage(q: Query, snaps: seq<seq<Record>>, since: int)
    requires since > 0 && snaps != [] && forall s | s in snaps :: Increasing(s)
    ensures var p, s := snaps[..|snaps| - 1], snaps[|snaps| - 1];
            var c := Cursor(q, p, since);
            && c >= since && (p == [] ==> c == since)
            && Received(q, snaps, since) == Received(q, p, since) + Page(q, s, c)
            && Cursor(q, snaps, since) == NextCursor(Page(q, s, c), c)
  {
    PagingIsExact(q, snaps[..|snaps| - 1], since);
  }

  /** The cursor never runs ahead of the records given out. */
  lemma {:induction false} CursorIsGivenOut(
    q: Query, snaps: seq<seq<Record>>, all: seq<Record>, cap: nat, sizes: seq<nat>, since: int)
    requires since > 0 && Consecutive(all) && Shown(snaps, all, cap, sizes) && snaps != []
    ensures |snaps| == |sizes|
    ensures var c := Cursor(q, snaps, since); c == since || c <= sizes[|sizes| - 1]
    decreases |snaps|
  {
    var p, n := snaps[..|snaps| - 1], sizes[|sizes| - 1];
    var c := Cursor(q, p, since);
    LastShown(snaps, all, cap, sizes);
    LastPage(q, snaps, since);
    hide Shown, Consecutive, Cursor, Page, Increasing, LastN;
    if p != [] {
      CursorIsGivenOut(q, p, all, cap, sizes[..|p|], since);
    }
    PageIs(q, snaps[|p|], c);
    var page := Page(q, snaps[|p|], c);
    if page != [] {
      assert page[|page| - 1] in page;
      RetainedIs(all, cap, n, page[|page| - 1]);
    }
  }

  lemma {:induction false} ReceivedIfPassed(
    q: Query, snaps: seq<seq<Record>>, all: seq<Record>, cap: nat, sizes: seq<nat>, since: int, r: Record)
    requires since > 0 && Consecutive(all) && Shown(snaps, all, cap, sizes) && snaps != []
    requires r in snaps[|snaps| - 1] && Wanted(q, since, r)
    ensures r.id <= Cursor(q, snaps, since) ==> r in Received(q, snaps, since)
    decreases |snaps|
  {
    var p, s := snaps[..|snaps| - 1], snaps[|snaps| - 1];
    var c := Cursor(q, p, since);
    LastShown(snaps, all, cap, sizes);
    LastPage(q, snaps, since);
    hide Cursor, Received, Page, Increasing, LastN, Consecutive, Accepts;
    if r.id > c {
      PageIs(q, s, c);
      WantedBeyond(q, since, c, r);
    } else {
      CursorIsGivenOut(q, p, all, cap, sizes[..|p|], since);
      LastShown(p, all, cap, sizes[..|p|]);
      StillThere(all, cap, sizes[|p| - 1], sizes[|p|], r);
      ReceivedIfPassed(q, p, all, cap, sizes[..|p|], since, r);
    }
  }

  /** A record the store has now, and was given by then, it had then. */
  lemma StillThere(all: seq<Record>, cap: nat, earlier: nat, now: nat, r: Record)
    requires Consecutive(all) && earlier <= now <= |all| && r in LastN(all[..now], cap) && r.id <= earlier
    ensures r in LastN(all[..earlier], cap)
  {
    RetainedIs(all, cap, earlier, r);
    RetainedIs(all, cap, now, r);
  }

  /** While records keep arriving and the oldest fall out, every wanted record
      still in the store has been received exactly if the cursor passed it; so
      once a page comes back empty, all of them have been received. */
  lemma PagingAGrowingStore(
    q: Query, snaps: seq<seq<Record>>, all: seq<Record>, cap: nat, sizes: seq<nat>, since: int)
    requires since > 0 && Consecutive(all) && Shown(snaps, all, cap, sizes) && snaps != []
    ensures forall r | r in snaps[|snaps| - 1] && Wanted(q, since, r) ::
              r in Received(q, snaps, since) <==> r.id <= Cursor(q, snaps, since)
    ensures var s := snaps[|snaps| - 1];
            q.limit > 0 && Page(q, s, Cursor(q, snaps[..|snaps| - 1], since)) == [] ==>
              forall r | r in s && Wanted(q, since, r) :: r in Received(q, snaps, since)
  {
    var p, s := snaps[..|snaps| - 1], snaps[|snaps| - 1];
    AllIncreasing(snaps, all, cap, sizes);
    PagingIsExact(q, snaps, since);
    LastPage(q, snaps, since);
    var c := Cursor(q, p, since);
    PageIs(q, s, c);
    hide Page, Received, Cursor, Shown, Consecutive, Accepts;
    forall r | r in s && Wanted(q, since, r)
      ensures r.id <= Cursor(q, snaps, since) ==> r in Received(q, snaps, since)
      ensures r.id <= c || Wanted(q, c, r)
    {
      ReceivedIfPassed(q, snaps, all, cap, sizes, since, r);
      if r.id > c { WantedBeyond(q, since, c, r); }
    }
  }

  lemma WantedBeyond(q: Query, since: int, c: int, r: Record)
    requires Wanted(q, since, r) && r.id > c
    ensures Wanted(q, c, r)
  {
  }

  lemma AllIncreasing(snaps: seq<seq<Record>>, all: seq<Record>, cap: nat, sizes: seq<nat>)
    requires Consecutive(all) && Shown(snaps, all, cap, sizes)
    ensures forall s | s in snaps :: Increasing(s)
  {
    forall i | 0 <= i < |snaps| ensures Increasing(snaps[i]) {
      RetainedIncrease(all, cap, sizes[i]);
    }
  }

  // ----- every record, kept or not -----

  /** Page i was taken from a snapshot that held r, and moved the cursor past it. */
  predicate DeliversAt(q: Query, snaps: seq<seq<Record>>, since: int, r: Record, i: nat)
    requires i < |snaps|
  {
    r in snaps[i] && Cursor(q, snaps[..i], since) < r.id <= Cursor(q, snaps[..i + 1], since)
  }

  lemma EarlierPage(q: Query, snaps: seq<seq<Record>>, since: int, r: Record, i: nat)
    requires i + 1 < |snaps|
    ensures DeliversAt(q, snaps[..|snaps| - 1], since, r, i) <==> DeliversAt(q, snaps, since, r, i)
  {
    var p := snaps[..|snaps| - 1];
    assert p[..i] == snaps[..i] && p[..i + 1] == snaps[..i + 1];
  }

  lemma LastDelivery(q: Query, snaps: seq<seq<Record>>, since: int, r: Record)
    requires since > 0 && snaps != [] && (forall s | s in snaps :: Increasing(s)) && Wanted(q, since, r)
    ensures var c := Cursor(q, snaps[..|snaps| - 1], since);
            r in Page(q, snaps[|snaps| - 1], c) <==> DeliversAt(q, snaps, since, r, |snaps| - 1)
  {
    var n := |snaps| - 1;
    var c := Cursor(q, snaps[..n], since);
    assert snaps[..n + 1] == snaps;
    LastPage(q, snaps, since);
    PageIs(q, snaps[n], c);
    hide Page, Cursor, Increasing, Accepts;
    if r.id > c {
      WantedBeyond(q, since, c, r);
    }
  }

  predicate SomePageDelivers(q: Query, snaps: seq<seq<Record>>, since: int, r: Record) {
    exists i :: 0 <= i < |snaps| && DeliversAt(q, snaps, since, r, i)
  }

  lemma OneMorePage(q: Query, snaps: seq<seq<Record>>, since: int, r: Record)
    requires snaps != []
    ensures SomePageDelivers(q, snaps, since, r) <==>
            SomePageDelivers(q, snaps[..|snaps| - 1], since, r) || DeliversAt(q, snaps, since, r, |snaps| - 1)
  {
    var n := |snaps| - 1;
    hide DeliversAt;
    if SomePageDelivers(q, snaps, since, r) {
      var i :| 0 <= i < |snaps| && DeliversAt(q, snaps, since, r, i);
      if i < n { EarlierPage(q, snaps, since, r, i); }
    }
    if SomePageDelivers(q, snaps[..n], since, r) {
      var i :| 0 <= i < n && DeliversAt(q, snaps[..n], since, r, i);
      EarlierPage(q, snaps, since, r, i);
    }
  }

  /** For any snapshots, and any wanted record, still stored or long gone: it was
      received if and only if some page moved the cursor past it from a snapshot
      that held it. */
  lemma {:induction false} ReceivedIff(q: Query, snaps: seq<seq<Record>>, since: int, r: Record)
    requires since > 0 && (forall s | s in snaps :: Increasing(s)) && Wanted(q, since, r)
    ensures r in Received(q, snaps, since) <==> SomePageDelivers(q, snaps, since, r)
    decreases |snaps|
  {
    if snaps != [] {
      var p := snaps[..|snaps| - 1];
      assert forall s | s in p :: s in snaps;
      ReceivedIff(q, p, since, r);
      OneMorePage(q, snaps, since, r);
      LastPage(q, snaps, since);
      LastDelivery(q, snaps, since, r);
    }
    hide DeliversAt, Cursor, Page, Wanted, Increasing;
  }

  /** Over one growing store: a record it was given is received if and only if,
      when the cursor moved past it, it had been given and not cap more. */
  lemma DeliveredFromGrowingStoreIff(
    q: Query, snaps: seq<seq<Record>>, all: seq<Record>, cap: nat, sizes: seq<nat>, since: int, k: nat)
    requires since > 0 && Consecutive(all) && Shown(snaps, all, cap, sizes) && k < |all| && Wanted(q, since, all[k])
    ensures all[k] in Received(q, snaps, since) <==>
            exists i :: 0 <= i < |snaps| && sizes[i] - cap <= k < sizes[i] && Passes(q, snaps, since, k + 1, i)
  {
    AllIncreasing(snaps, all, cap, sizes);
    ReceivedIff(q, snaps, since, all[k]);
    IdAt(all, k);
    hide Received, Wanted, Increasing, Consecutive, Passes;
    forall i | 0 <= i < |snaps|
      ensures DeliversAt(q, snaps, since, all[k], i) <==>
              sizes[i] - cap <= k < sizes[i] && Passes(q, snaps, since, k + 1, i)
    {
      DeliveryOf(q, snaps, all, cap, sizes, since, k, i);
    }
    hide Shown, DeliversAt;
  }

  /** Page i moved the cursor past id. */
  predicate Passes(q: Query, snaps: seq<seq<Record>>, since: int, id: int, i: nat)
    requires i < |snaps|
  {
    Cursor(q, snaps[..i], since) < id <= Cursor(q, snaps[..i + 1], since)
  }

  lemma DeliveryOf(
    q: Query, snaps: seq<seq<Record>>, all: seq<Record>, cap: nat, sizes: seq<nat>, since: int, k: nat, i: nat)
    requires Consecutive(all) && Shown(snaps, all, cap, sizes) && k < |all| && i < |snaps| && all[k].id == k + 1
    ensures DeliversAt(q, snaps, since, all[k], i) <==>
            i < |sizes| && sizes[i] - cap <= k < sizes[i] && Passes(q, snaps, since, k + 1, i)
  {
    RetainedIs(all, cap, sizes[i], all[k]);
    hide LastN, Cursor, Consecutive;
  }

  function Quiescent(s: seq<Record>, pages: nat): seq<seq<Record>> {
    if pages == 0 then [] else Quiescent(s, pages - 1) + [s]
  }

  lemma {:induction false} QuiescentIs(s: seq<Record>, pages: nat)
    ensures |Quiescent(s, pages)| == pages && forall t | t in Quiescent(s, pages) :: t == s
    ensures pages > 0 ==> Quiescent(s, pages)[..pages - 1] == Quiescent(s, pages - 1)
  {
    if pages > 0 { QuiescentIs(s, pages - 1); }
  }

  /** Each page of a store at rest moves the cursor on, or nothing is left. */
  lemma {:induction false} PagingMovesOn(q: Query, s: seq<Record>, since: int, pages: nat)
    requires since > 0 && q.limit > 0 && Increasing(s)
    ensures var c := Cursor(q, Quiescent(s, pages), since);
            c >= since && (Page(q, s, c) == [] || since + pages <= c)
    decreases pages
  {
    hide Cursor, Page, Quiescent, NextCursor;
    if pages == 0 {
      CursorStart(q, s, since);
    } else {
      PagingMovesOn(q, s, since, pages - 1);
      CursorStep(q, s, since, pages);
      NextMoves(q, s, Cursor(q, Quiescent(s, pages - 1), since));
    }
  }

  lemma CursorStart(q: Query, s: seq<Record>, since: int)
    ensures Cursor(q, Quiescent(s, 0), since) == since
  {
  }

  lemma CursorStep(q: Query, s: seq<Record>, since: int, pages: nat)
    requires pages > 0
    ensures var c := Cursor(q, Quiescent(s, pages - 1), since);
            Cursor(q, Quiescent(s, pages), since) == NextCursor(Page(q, s, c), c)
  {
    QuiescentIs(s, pages);
  }

  /** So seq - since + 1 pages always reach the empty page. */
  lemma PagingTerminates(q: Query, s: seq<Record>, since: int, seqNo: int, pages: nat)
    requires since > 0 && q.limit > 0 && Increasing(s) && (forall r | r in s :: r.id <= seqNo)
    requires pages > seqNo - since
    ensures Page(q, s, Cursor(q, Quiescent(s, pages), since)) == []
  {
    PagingMovesOn(q, s, since, pages);
    var c := Cursor(q, Quiescent(s, pages), since);
    hide Cursor, Page;
    PageIs(q, s, c);
    var page := Page(q, s, c);
    SomeElement(page);
  }

  lemma NextMoves(q: Query, s: seq<Record>, c: int)
    requires Increasing(s) && c > 0
    ensures var page := Page(q, s, c);
            if page == [] then NextCursor(page, c) == c else NextCursor(page, c) >= c + 1
  {
    PageIs(q, s, c);
    var page := Page(q, s, c);
    if page != [] {
      assert page[|page| - 1] in page;
    }
  }

  /** Once the empty page is reached, a store at rest has been read completely:
      the received records are exactly its wanted ones. */
  lemma PagingCollectsAll(q: Query, s: seq<Record>, since: int, seqNo: int, pages: nat)
    requires since > 0 && q.limit > 0 && Increasing(s) && (forall r | r in s :: r.id <= seqNo)
    requires pages > seqNo - since
    ensures var got := Received(q, Quiescent(s, pages), since);
            && Increasing(got)
            && forall r :: r in got <==> r in s && Wanted(q, since, r)
  {
    var snaps := Quiescent(s, pages);
    QuiescentIs(s, pages);
    PagingIsExact(q, snaps, since);
    PagingTerminates(q, s, since, seqNo, pages);
    var c := Cursor(q, snaps, since);
    PageIs(q, s, c);
    forall r | r in s && Wanted(q, since, r) ensures r in Received(q, snaps, since) {
      assert !Wanted(q, c, r);
    }
  }
}
