/** The records of the request-ui sink and what a query means over a plain
    list of them. */
module Records {
  import opened Common

  /** Everything a record carries besides its ID and timestamp. */
  datatype Content = Content(hasError: bool, payload: string)

  datatype Record = Record(id: int, timestamp: string, content: Content)

  /** search is the substring match of a non-empty search string. */
  datatype Query = Query(search: Option<Content -> bool>, since: int, errorsOnly: bool, limit: nat, ascending: bool)

  predicate Accepts(q: Query, r: Record) {
    && (q.since > 0 ==> r.id > q.since)
    && (q.errorsOnly ==> r.content.hasError)
    && (q.search.Some? ==> q.search.value(r.content))
  }

  function Filter(q: Query, s: seq<Record>): seq<Record> {
    if s == [] then []
    else Filter(q, s[..|s| - 1]) + (if Accepts(q, s[|s| - 1]) then [s[|s| - 1]] else [])
  }

  /** What a query over a list (oldest first) must return. */
  function Answer(q: Query, s: seq<Record>): seq<Record> {
    FirstN(if q.ascending then Filter(q, s) else Reversed(Filter(q, s)), q.limit)
  }

  function Stamp(r: Record, id: int, now: string): Record {
    Record(id, if r.timestamp == "" then now else r.timestamp, r.content)
  }

  /** A batch with consecutive IDs after last. */
  function Stamped(batch: seq<Record>, last: int, now: string): (r: seq<Record>)
    ensures |r| == |batch| && forall i :: 0 <= i < |r| ==> r[i].id == last + 1 + i && r[i].content == batch[i].content
    ensures forall i :: 0 <= i < |r| ==> r[i].timestamp == if batch[i].timestamp != "" then batch[i].timestamp else now
  {
    seq(|batch|, i requires 0 <= i < |batch| => Stamp(batch[i], last + 1 + i, now))
  }

  /** IDs as the store gives them out. */
  predicate Consecutive(all: seq<Record>) {
    forall k :: 0 <= k < |all| ==> all[k].id == k + 1
  }

  predicate Increasing(s: seq<Record>) {
    forall i, j :: 0 <= i < j < |s| ==> s[i].id < s[j].id
  }

  lemma {:induction false} FilterConcat(q: Query, a: seq<Record>, b: seq<Record>)
    ensures Filter(q, a + b) == Filter(q, a) + Filter(q, b)
    decreases |b|
  {
    if b == [] {
      assert a + b == a;
    } else {
      FilterConcat(q, a, b[..|b| - 1]);
      assert (a + b)[..|a + b| - 1] == a + b[..|b| - 1];
    }
  }

  lemma {:induction false} FilterReversed(q: Query, s: seq<Record>)
    ensures Filter(q, Reversed(s)) == Reversed(Filter(q, s))
    decreases |s|
  {
    if s != [] {
      var x, rest := s[0], s[1..];
      assert s == [x] + rest;
      FilterReversed(q, rest);
      FilterConcat(q, Reversed(rest), [x]);
      FilterConcat(q, [x], rest);
      FilterOne(q, x);
      ReversedConcat(Filter(q, [x]), Filter(q, rest));
    }
  }

  lemma FilterOne(q: Query, x: Record)
    ensures Filter(q, [x]) == if Accepts(q, x) then [x] else []
    ensures Reversed(Filter(q, [x])) == Filter(q, [x])
  {
    assert [x][..0] == [];
  }

  lemma {:induction false} FilterIs(q: Query, s: seq<Record>)
    ensures forall r :: r in Filter(q, s) <==> r in s && Accepts(q, r)
    ensures Increasing(s) ==> Increasing(Filter(q, s))
    decreases |s|
  {
    if s != [] {
      var p, x := s[..|s| - 1], s[|s| - 1];
      assert s == p + [x];
      FilterIs(q, p);
      var f := Filter(q, p);
      if Increasing(s) {
        forall i | 0 <= i < |f| ensures f[i].id < x.id {
          assert f[i] in p;
        }
      }
    }
  }

  // ----- a query's result, in terms of the list alone -----

  /** The records a query asks for. */
  function Asked(q: Query, s: seq<Record>): set<Record> {
    set r | r in s && (q.since <= 0 || q.since < r.id) && (!q.errorsOnly || r.content.hasError)
            && (q.search.None? || q.search.value(r.content))
  }

  /** x comes before y in the order a query asks for. */
  predicate Before(q: Query, x: Record, y: Record) {
    if q.ascending then x.id < y.id else y.id < x.id
  }

  /** result is the first limit of the records asked for, in the order asked for. */
  predicate Selects(q: Query, s: seq<Record>, result: seq<Record>) {
    && |result| == Min(q.limit, |Asked(q, s)|)
    && (forall i | 0 <= i < |result| :: result[i] in Asked(q, s))
    && (forall i, j | 0 <= i < j < |result| :: Before(q, result[i], result[j]))
    && (forall r, i | r in Asked(q, s) && r !in result && 0 <= i < |result| :: Before(q, result[i], r))
  }

  lemma {:induction false} ElementsCount(s: seq<Record>)
    requires Increasing(s)
    ensures |set r | r in s| == |s|
    decreases |s|
  {
    if s == [] {
      assert (set r | r in s) == {};
    } else {
      var p, x := s[..|s| - 1], s[|s| - 1];
      assert s == p + [x];
      ElementsCount(p);
      assert (set r | r in s) == (set r | r in p) + {x};
      forall r | r in p ensures r != x {
      }
    }
  }

  lemma FilteredAre(q: Query, s: seq<Record>)
    requires Increasing(s)
    ensures var f := Filter(q, s);
            Increasing(f) && |f| == |Asked(q, s)| && forall r :: r in f <==> r in Asked(q, s)
  {
    FilterIs(q, s);
    var f := Filter(q, s);
    ElementsCount(f);
    assert (set r | r in f) == Asked(q, s);
  }

  lemma IncreasingOrder(f: seq<Record>)
    requires Increasing(f)
    ensures forall i, j | 0 <= i < j < |f| :: f[i].id < f[j].id
  {
  }

  lemma ReversedOrder(f: seq<Record>)
    requires Increasing(f)
    ensures var b := Reversed(f);
            && |b| == |f| && (forall r :: r in b <==> r in f)
            && forall i, j | 0 <= i < j < |b| :: b[i].id > b[j].id
  {
    forall i | 0 <= i < |f| ensures Reversed(f)[i] == f[|f| - 1 - i] {
      ReversedAt(f, i);
    }
    forall r | r in f ensures r in Reversed(f) {
      var i :| 0 <= i < |f| && f[i] == r;
      assert Reversed(f)[|f| - 1 - i] == r;
    }
    hide Reversed;
  }

  /** f lists all records asked for, in the order asked for. */
  ghost predicate Lists(q: Query, s: seq<Record>, f: seq<Record>) {
    && |f| == |Asked(q, s)| && (forall r :: r in f <==> r in Asked(q, s))
    && forall i, j | 0 <= i < j < |f| :: Before(q, f[i], f[j])
  }

  lemma FilterLists(q: Query, s: seq<Record>)
    requires Increasing(s)
    ensures Lists(q, s, if q.ascending then Filter(q, s) else Reversed(Filter(q, s)))
  {
    hide Filter, Asked, Reversed, Increasing;
    FilteredAre(q, s);
    IncreasingOrder(Filter(q, s));
    if !q.ascending {
      ReversedOrder(Filter(q, s));
    }
  }

  lemma PrefixSelects(q: Query, s: seq<Record>, f: seq<Record>)
    requires Lists(q, s, f)
    ensures Selects(q, s, FirstN(f, q.limit))
  {
    hide Asked, Before;
    var n := Min(q.limit, |f|);
    forall i | 0 <= i < n ensures f[i] in f && f[i] in f[..n] {
      assert f[..n][i] == f[i];
    }
    forall r, i | r in f && r !in f[..n] && 0 <= i < n ensures Before(q, f[i], r) {
      var k :| 0 <= k < |f| && f[k] == r;
    }
  }

  /** Over stored records, whose IDs increase, the answer to a query is exactly
      that. */
  lemma AnswerSelects(q: Query, s: seq<Record>)
    requires Increasing(s)
    ensures Selects(q, s, Answer(q, s))
  {
    FilterLists(q, s);
    hide Lists, Selects, FirstN;
    PrefixSelects(q, s, if q.ascending then Filter(q, s) else Reversed(Filter(q, s)));
  }
}
