/** Goroutines and pooled Writers: when a goroutine's call can land in another
    request. A Writer's call acts on the request that holds the Writer now. */
module WriterReuse {
  /** owner: the live request each Writer serves; running: the Writer each
      running goroutine keeps; requests below next have begun. */
  datatype State = State(owner: map<nat, nat>, running: map<nat, nat>, next: nat)

  datatype Event =
    | Begin(w: nat)           // a new request takes a pooled or fresh Writer
    | Go(r: nat, w: nat)      // request r starts its goroutine on its Writer
    | Call(r: nat)            // the goroutine of r calls its Writer
    | Return(r: nat)
    | Destroy(r: nat, w: nat) // request r gives its Writer back

  const INIT := State(map[], map[], 0)

  function Step(s: State, e: Event): State {
    match e
    case Begin(w) => s.(owner := s.owner[w := s.next], next := s.next + 1)
    case Go(r, w) => s.(running := s.running[r := w])
    case Call(_) => s
    case Return(r) => s.(running := s.running - {r})
    case Destroy(_, w) => s.(owner := s.owner - {w})
  }

  predicate Holds(s: State, r: nat, w: nat) {
    w in s.owner && s.owner[w] == r
  }

  predicate Orderly(s: State, e: Event) {
    match e
    case Begin(w) => w !in s.owner
    case Go(r, w) => Holds(s, r, w) && r !in s.running
    case Call(r) => r in s.running
    case Return(r) => r in s.running
    case Destroy(r, w) => Holds(s, r, w)
  }

  /** A destroy comes only after the goroutine of that request has returned. */
  predicate Waits(s: State, e: Event) {
    e.Destroy? ==> e.r !in s.running
  }

  /** A goroutine's call lands in another request. */
  predicate Crosses(s: State, e: Event) {
    e.Call? && e.r in s.running && s.running[e.r] in s.owner && s.owner[s.running[e.r]] != e.r
  }

  /** A running goroutine keeps a Writer its request gave back. */
  predicate Outlived(s: State) {
    exists r :: r in s.running && !Holds(s, r, s.running[r])
  }

  function Resume(s: State, events: seq<Event>): State {
    if events == [] then s else Step(Resume(s, events[..|events| - 1]), events[|events| - 1])
  }

  predicate OrderlyFrom(s: State, events: seq<Event>) {
    events == [] ||
    (OrderlyFrom(s, events[..|events| - 1]) && Orderly(Resume(s, events[..|events| - 1]), events[|events| - 1]))
  }

  predicate WaitsFrom(s: State, events: seq<Event>) {
    events == [] ||
    (WaitsFrom(s, events[..|events| - 1]) && Waits(Resume(s, events[..|events| - 1]), events[|events| - 1]))
  }

  /** From here on every destroy waits, and still some call crosses. */
  ghost predicate CanCross(s: State) {
    exists events, e ::
      && OrderlyFrom(s, events) && WaitsFrom(s, events)
      && Orderly(Resume(s, events), e) && Crosses(Resume(s, events), e)
  }

  predicate Numbered(s: State) {
    && (forall w | w in s.owner :: s.owner[w] < s.next)
    && (forall r | r in s.running :: r < s.next)
    && (forall v, w | v in s.owner && w in s.owner && v != w :: s.owner[v] != s.owner[w])
  }

  lemma {:induction false} RunIsNumbered(events: seq<Event>)
    requires OrderlyFrom(INIT, events)
    ensures Numbered(Resume(INIT, events))
    decreases |events|
  {
    if events != [] {
      RunIsNumbered(events[..|events| - 1]);
    }
  }

  lemma NobodyOutlivesStep(s: State, e: Event)
    requires Numbered(s) && !Outlived(s) && Orderly(s, e) && Waits(s, e)
    ensures Numbered(Step(s, e)) && !Outlived(Step(s, e)) && !Crosses(s, e)
  {
    var t := Step(s, e);
    forall r | r in t.running ensures Holds(t, r, t.running[r]) {
      if r in s.running {
        assert Holds(s, r, s.running[r]);
      }
    }
    if e.Call? {
      assert Holds(s, e.r, s.running[e.r]);
    }
  }

  lemma {:induction false} NobodyOutlives(s: State, events: seq<Event>)
    requires Numbered(s) && !Outlived(s) && OrderlyFrom(s, events) && WaitsFrom(s, events)
    ensures Numbered(Resume(s, events)) && !Outlived(Resume(s, events))
    decreases |events|
  {
    hide Step, Orderly, Waits, Numbered, Outlived;
    if events != [] {
      NobodyOutlives(s, events[..|events| - 1]);
      NobodyOutlivesStep(Resume(s, events[..|events| - 1]), events[|events| - 1]);
    }
  }

  // ----- read off the events -----

  /** The goroutine of r was started and has not returned. */
  predicate Runs(events: seq<Event>, r: nat) {
    events != [] &&
    (match events[|events| - 1]
     case Go(q, _) => q == r || Runs(events[..|events| - 1], r)
     case Return(q) => q != r && Runs(events[..|events| - 1], r)
     case _ => Runs(events[..|events| - 1], r))
  }

  /** Request r was destroyed. */
  predicate Gone(events: seq<Event>, r: nat) {
    exists e | e in events :: e.Destroy? && e.r == r
  }

  predicate ReadOff(s: State, r: nat, runs: bool, gone: bool) {
    && (r in s.running <==> runs) && (gone ==> r < s.next)
    && (gone ==> forall w | w in s.owner :: s.owner[w] != r)
    && (runs && !gone ==> Holds(s, r, s.running[r]))
  }

  lemma GoneSnoc(p: seq<Event>, e: Event, r: nat)
    ensures Gone(p + [e], r) <==> Gone(p, r) || (e.Destroy? && e.r == r)
  {
    if Gone(p, r) {
      var d :| d in p && d.Destroy? && d.r == r;
      assert d in p + [e];
    }
    assert e in p + [e];
  }

  lemma {:induction false} RunIsReadOff(events: seq<Event>, r: nat)
    requires OrderlyFrom(INIT, events)
    ensures ReadOff(Resume(INIT, events), r, Runs(events, r), Gone(events, r))
    decreases |events|
  {
    if events != [] {
      var p, e := events[..|events| - 1], events[|events| - 1];
      assert events == p + [e];
      RunIsReadOff(p, r);
      RunIsNumbered(p);
      GoneSnoc(p, e, r);
      hide Gone;
    }
  }

  /** A goroutine keeps a Writer it should not exactly if it runs although its
      request was destroyed. */
  lemma OutlivedIff(events: seq<Event>)
    requires OrderlyFrom(INIT, events)
    ensures Outlived(Resume(INIT, events)) <==> exists r :: Runs(events, r) && Gone(events, r)
  {
    var s := Resume(INIT, events);
    forall r ensures ReadOff(s, r, Runs(events, r), Gone(events, r)) {
      RunIsReadOff(events, r);
    }
    hide Resume, Runs, Gone, OrderlyFrom;
    if Outlived(s) {
      var r :| r in s.running && !Holds(s, r, s.running[r]);
      assert ReadOff(s, r, Runs(events, r), Gone(events, r));
    }
  }

  /** In every run, even if every destroy waits from now on, some goroutine's call
      can land in another request if and only if a goroutine has already outlived
      the destroy of its own. */
  lemma CanCrossIff(events: seq<Event>)
    requires OrderlyFrom(INIT, events)
    ensures var s := Resume(INIT, events); CanCross(s) <==> Outlived(s)
    ensures CanCross(Resume(INIT, events)) <==> exists r :: Runs(events, r) && Gone(events, r)
  {
    OutlivedIff(events);
    var s := Resume(INIT, events);
    RunIsNumbered(events);
    hide Resume, OrderlyFrom, WaitsFrom, Runs, Gone;
    if Outlived(s) {
      var r :| r in s.running && !Holds(s, r, s.running[r]);
      if s.running[r] in s.owner {
        NoEvents(s);
        assert Crosses(Resume(s, []), Call(r));
      } else {
        OneEvent(s, Begin(s.running[r]));
        assert Crosses(Resume(s, [Begin(s.running[r])]), Call(r));
      }
    } else if CanCross(s) {
      var later, e :| && OrderlyFrom(s, later) && WaitsFrom(s, later)
                      && Orderly(Resume(s, later), e) && Crosses(Resume(s, later), e);
      NobodyOutlives(s, later);
      NobodyOutlivesStep(Resume(s, later), e);
      assert false;
    }
  }

  lemma NoEvents(s: State)
    ensures OrderlyFrom(s, []) && WaitsFrom(s, []) && Resume(s, []) == s
  {
  }

  lemma OneEvent(s: State, e: Event)
    requires Orderly(s, e) && Waits(s, e)
    ensures OrderlyFrom(s, [e]) && WaitsFrom(s, [e]) && Resume(s, [e]) == Step(s, e)
  {
    assert [e][..0] == [];
  }

  /** So requests stay apart in every run whose destroys all wait. */
  lemma {:induction false} WaitingKeepsApart(events: seq<Event>, e: Event)
    requires OrderlyFrom(INIT, events + [e]) && WaitsFrom(INIT, events + [e])
    ensures !Crosses(Resume(INIT, events), e)
  {
    assert (events + [e])[..|events|] == events;
    NobodyOutlives(INIT, events);
    NobodyOutlivesStep(Resume(INIT, events), e);
  }

  /** A request that starts a goroutine and is destroyed before it returns. */
  lemma GoroutineOutlives(w: nat)
    ensures var run := [Begin(w), Go(0, w), Destroy(0, w)];
            OrderlyFrom(INIT, run) && Outlived(Resume(INIT, run)) && CanCross(Resume(INIT, run))
  {
    var run := [Begin(w), Go(0, w), Destroy(0, w)];
    assert run[..2] == [Begin(w), Go(0, w)] && run[..2][..1] == [Begin(w)] && run[..2][..1][..0] == [];
    OneEvent(INIT, Begin(w));
    assert Resume(INIT, run[..2]) == State(map[w := 0], map[0 := w], 1);
    var s := Resume(INIT, run);
    assert 0 in s.running && !Holds(s, 0, s.running[0]);
    CanCrossIff(run);
  }
}
