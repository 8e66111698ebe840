/** Per-request shared data: values pinned in a sharded table and found again
    through an address kept as text in the stream's metadata. */
module SharedData {
  import opened Common
  import opened Decimal

  const SHARDS: nat := 32

  /** The sharded table behaves like one map. */
  class Manager<T> {
    const data: array<map<nat, T>>
    ghost var contents: map<nat, T>

    ghost predicate Valid()
      reads this, data
    {
      && data.Length == SHARDS
      && (forall k | k in contents :: k in data[k % SHARDS] && data[k % SHARDS][k] == contents[k])
      && (forall i | 0 <= i < SHARDS :: forall k | k in data[i] :: k % SHARDS == i && k in contents)
    }

    constructor ()
      ensures Valid() && contents == map[] && fresh(data)
    {
      data := new map<nat, T>[SHARDS](_ => map[]);
      contents := map[];
      new;
      assert forall i :: 0 <= i < SHARDS ==> data[i] == map[];
    }

    method Record(address: nat, item: T)
      requires Valid()
      modifies this, data
      ensures Valid() && contents == old(contents)[address := item]
    {
      var index := address % SHARDS;
      data[index] := data[index][address := item];
      contents := contents[address := item];
    }

    method Search(address: nat) returns (r: Option<T>)
      requires Valid()
      ensures r == Find(contents, address)
    {
      var index := address % SHARDS;
      if address in data[index] {
        assert data[address % SHARDS][address] == contents[address];
        return Some(data[index][address]);
      }
      assert address !in contents;
      return None;
    }

    method Remove(address: nat)
      requires Valid()
      modifies this, data
      ensures Valid() && contents == old(contents) - {address}
    {
      var index := address % SHARDS;
      data[index] := data[index] - {address};
      contents := contents - {address};
    }
  }

  function Find<T>(m: map<nat, T>, address: nat): Option<T> {
    if address in m then Some(m[address]) else None
  }

  /** What a metadata value leads to; an empty value counts as absent. */
  function Resolve<T>(m: map<nat, T>, metadata: map<string, string>, key: string): Option<T> {
    if key in metadata && metadata[key] != "" && Digits(metadata[key]) then Find(m, Value(metadata[key])) else None
  }

  /** own: the addresses this request holds in the table; current: the values
      set since the stream completed, or since it began. */
  datatype Slot<T> = Slot(
    metadata: map<string, string>, recorded: seq<nat>, done: bool, own: set<nat>, current: map<string, T>)

  function AfterSet<T>(s: Slot<T>, key: string, value: T, address: nat): Slot<T> {
    Slot(s.metadata[key := Numeral(address)], s.recorded + [address], s.done, s.own + {address},
         s.current[key := value])
  }

  function AfterComplete<T>(s: Slot<T>): Slot<T> {
    s.(done := true, own := {}, current := map[])
  }

  /** The shared-data part of a handle; metadata is the stream's
      "composer.shared_data" namespace. */
  class DataHandle<T> {
    const manager: Manager<T>
    var metadata: map<string, string>
    var recorded: seq<nat>
    ghost var done: bool               // the stream is complete
    ghost var own: set<nat>            // the addresses held in the table
    ghost var current: map<string, T>  // the values set since it completed, or began

    constructor (manager: Manager<T>)
      ensures this.manager == manager && State() == Slot(map[], [], false, {}, map[])
    {
      this.manager, metadata, recorded := manager, map[], [];
      done, own, current := false, {}, map[];
    }

    ghost function State(): Slot<T>
      reads this
    {
      Slot(metadata, recorded, done, own, current)
    }

    method SetData(key: string, value: T, address: nat)
      requires manager.Valid() && address > 0
      modifies this, manager, manager.data
      ensures manager.Valid() && manager.contents == old(manager.contents)[address := value]
      ensures State() == AfterSet(old(State()), key, value, address)
      ensures Resolve(manager.contents, metadata, key) == Some(value)
    {
      manager.Record(address, value);
      recorded := recorded + [address];
      metadata := metadata[key := Numeral(address)];
      own, current := own + {address}, current[key := value];
    }

    method GetData(key: string) returns (r: Option<T>)
      requires manager.Valid()
      ensures r == Resolve(manager.contents, metadata, key)
    {
      if key !in metadata || metadata[key] == "" || !Digits(metadata[key]) {
        return None;
      }
      r := manager.Search(Value(metadata[key]));
    }

    method ClearData()
      requires manager.Valid()
      modifies this`done, this`own, this`current, manager, manager.data
      ensures manager.Valid() && manager.contents == old(manager.contents) - (set a | a in old(recorded))
      ensures State() == AfterComplete(old(State()))
    {
      for i := 0 to |recorded|
        invariant manager.Valid() && State() == old(State())
        invariant manager.contents == old(manager.contents) - (set a | a in recorded[..i])
      {
        assert recorded[..i + 1] == recorded[..i] + [recorded[i]];
        manager.Remove(recorded[i]);
      }
      assert recorded[..|recorded|] == recorded;
      done, own, current := true, {}, map[];
    }
  }

  // ----- many requests over one table -----

  datatype Table<T> = Table(contents: map<nat, T>, slots: map<nat, Slot<T>>, used: set<nat>)

  datatype Event<T> = Set(h: nat, key: string, value: T, address: nat) | Complete(h: nat)

  function SlotOf<T>(t: Table<T>, h: nat): Slot<T> {
    if h in t.slots then t.slots[h] else Slot(map[], [], false, {}, map[])
  }

  function Step<T>(t: Table<T>, e: Event<T>): Table<T> {
    var s := SlotOf(t, e.h);
    match e
    case Set(h, key, value, a) =>
      Table(t.contents[a := value],
            t.slots[h := AfterSet(s, key, value, a)],
            t.used + {a})
    case Complete(h) =>
      Table(t.contents - (set a | a in s.recorded),
            t.slots[h := AfterComplete(s)],
            t.used)
  }

  /** The handles of all streams over their one manager: each call takes exactly
      the step of the table. */
  class Streams<T> {
    const manager: Manager<T>
    var handles: map<nat, DataHandle<T>>
    ghost var used: set<nat>

    ghost predicate Valid()
      reads this, manager, manager.data, handles.Values
    {
      && manager.Valid()
      && (forall h | h in handles :: handles[h].manager == manager)
      && (forall g, h | g in handles && h in handles && g != h :: handles[g] != handles[h])
    }

    ghost function View(): Table<T>
      reads this, manager, handles.Values
    {
      Table(manager.contents, map h | h in handles :: handles[h].State(), used)
    }

    constructor ()
      ensures Valid() && View() == Table(map[], map[], {})
    {
      manager := new Manager<T>();
      handles, used := map[], {};
    }

    /** A stream's handle exists before its first call. */
    method Open(h: nat)
      requires Valid()
      modifies this`handles
      ensures Valid() && h in handles && View() == Opened(old(View()), h)
      ensures handles[h] in old(handles).Values || fresh(handles[h])
      ensures handles.Values <= old(handles).Values + {handles[h]}
    {
      if h !in handles {
        var d := new DataHandle<T>(manager);
        handles := handles[h := d];
      }
    }

    method SetData(h: nat, key: string, value: T, address: nat)
      requires Valid() && address > 0
      modifies this, manager, manager.data, handles.Values
      ensures Valid() && View() == Step(old(View()), Set(h, key, value, address))
    {
      hide Valid, View, Step, Opened, Manager.Valid;
      OpenedSteps(View(), Set(h, key, value, address));
      Open(h);
      SetOpened(h, key, value, address);
    }

    method SetOpened(h: nat, key: string, value: T, address: nat)
      requires Valid() && address > 0 && h in handles
      modifies this`used, manager, manager.data, handles[h]
      ensures Valid() && View() == Step(old(View()), Set(h, key, value, address))
    {
      hide Manager.Valid, AfterSet, Resolve, Numeral;
      handles[h].SetData(key, value, address);
      used := used + {address};
    }

    method GetData(h: nat, key: string) returns (r: Option<T>)
      requires Valid()
      ensures r == Get(View(), h, key)
    {
      if h in handles {
        r := handles[h].GetData(key);
      } else {
        r := None;
      }
    }

    method StreamComplete(h: nat)
      requires Valid()
      modifies this, manager, manager.data, handles.Values
      ensures Valid() && View() == Step(old(View()), Complete(h))
    {
      hide Valid, View, Step, Opened, Manager.Valid;
      OpenedSteps(View(), Complete(h));
      Open(h);
      CompleteOpened(h);
    }

    method CompleteOpened(h: nat)
      requires Valid() && h in handles
      modifies manager, manager.data, handles[h]
      ensures Valid() && View() == Step(old(View()), Complete(h))
    {
      hide Manager.Valid, AfterComplete;
      handles[h].ClearData();
    }
  }

  function Opened<T>(t: Table<T>, h: nat): Table<T> {
    t.(slots := t.slots[h := SlotOf(t, h)])
  }

  lemma OpenedSteps<T>(t: Table<T>, e: Event<T>)
    ensures Step(Opened(t, e.h), e) == Step(t, e)
  {
  }

  /** The allocator hands out addresses not in the table, and each stream
      completes once. */
  predicate Allowed<T>(t: Table<T>, e: Event<T>) {
    match e
    case Set(_, _, _, a) => a > 0 && a !in t.contents
    case Complete(h) => !SlotOf(t, h).done
  }

  /** Moreover no address is ever handed out twice. */
  predicate Fresh<T>(t: Table<T>, e: Event<T>) {
    e.Set? ==> e.address !in t.used
  }

  function Run<T>(events: seq<Event<T>>): Table<T> {
    if events == [] then Table(map[], map[], {}) else Step(Run(events[..|events| - 1]), events[|events| - 1])
  }

  predicate AllowedRun<T>(events: seq<Event<T>>) {
    events == [] ||
    (AllowedRun(events[..|events| - 1]) && Allowed(Run(events[..|events| - 1]), events[|events| - 1]))
  }

  predicate FreshRun<T>(events: seq<Event<T>>) {
    events == [] ||
    (FreshRun(events[..|events| - 1]) && Fresh(Run(events[..|events| - 1]), events[|events| - 1]))
  }

  /** The last value set for a key since the stream completed or began. */
  function LastSet<T>(events: seq<Event<T>>, h: nat, key: string): Option<T> {
    if events == [] then None
    else
      var before := LastSet(events[..|events| - 1], h, key);
      match events[|events| - 1]
      case Set(g, k, v, _) => if g == h && k == key then Some(v) else before
      case Complete(g) => if g == h then None else before
  }

  function Get<T>(t: Table<T>, h: nat, key: string): Option<T> {
    Resolve(t.contents, SlotOf(t, h).metadata, key)
  }

  ghost predicate HoldsCurrent<T>(t: Table<T>, s: Slot<T>) {
    && (forall a | a in s.own :: a in t.contents)
    && (!s.done ==> s.own == set a | a in s.recorded)
    && (forall k | k in s.current ::
          && k in s.metadata && s.metadata[k] != "" && Digits(s.metadata[k])
          && Value(s.metadata[k]) in s.own
          && t.contents[Value(s.metadata[k])] == s.current[k])
  }

  predicate Separate<T>(t: Table<T>) {
    forall g, h | g in t.slots && h in t.slots && g != h :: t.slots[g].own !! t.slots[h].own
  }

  ghost predicate Valid<T>(t: Table<T>) {
    Separate(t) && forall h | h in t.slots :: HoldsCurrent(t, t.slots[h])
  }

  lemma SetKeeps<T>(t: Table<T>, e: Event<T>)
    requires Valid(t) && Allowed(t, e) && e.Set?
    ensures Valid(Step(t, e))
  {
    var u := Step(t, e);
    forall h | h in u.slots ensures HoldsCurrent(u, u.slots[h]) {
      if h in t.slots {
        assert HoldsCurrent(t, t.slots[h]);
      }
    }
    forall g, h | g in u.slots && h in u.slots && g != h ensures u.slots[g].own !! u.slots[h].own {
      if g in t.slots { assert HoldsCurrent(t, t.slots[g]); }
      if h in t.slots { assert HoldsCurrent(t, t.slots[h]); }
    }
  }

  lemma CompleteKeeps<T>(t: Table<T>, e: Event<T>)
    requires Valid(t) && Allowed(t, e) && e.Complete?
    ensures Valid(Step(t, e))
  {
    var u := Step(t, e);
    var s := SlotOf(t, e.h);
    assert s.own == set a | a in s.recorded;
    forall h | h in u.slots ensures HoldsCurrent(u, u.slots[h]) {
      if h != e.h {
        assert HoldsCurrent(t, t.slots[h]);
        assert e.h in t.slots ==> t.slots[h].own !! s.own;
      }
    }
  }

  lemma {:induction false} RunIsValid<T>(events: seq<Event<T>>)
    requires AllowedRun(events)
    ensures Valid(Run(events))
    decreases |events|
  {
    hide Valid, Step;
    if events == [] {
      EmptyIsValid<T>();
    } else {
      var p, e := events[..|events| - 1], events[|events| - 1];
      RunIsValid(p);
      if e.Set? { SetKeeps(Run(p), e); } else { CompleteKeeps(Run(p), e); }
    }
  }

  lemma EmptyIsValid<T>()
    ensures Valid<T>(Table(map[], map[], {}))
  {
  }

  lemma {:induction false} CurrentIsLast<T>(events: seq<Event<T>>, h: nat, key: string)
    ensures var c := SlotOf(Run(events), h).current;
            LastSet(events, h, key) == if key in c then Some(c[key]) else None
    decreases |events|
  {
    if events != [] {
      CurrentIsLast(events[..|events| - 1], h, key);
    }
  }

  /** GetData returns the last value this request set, whatever other requests
      store or release, even if released addresses are handed out again. */
  lemma GetsLastSet<T>(events: seq<Event<T>>, h: nat, key: string)
    requires AllowedRun(events) && LastSet(events, h, key).Some?
    ensures Get(Run(events), h, key) == LastSet(events, h, key)
  {
    RunIsValid(events);
    CurrentIsLast(events, h, key);
    var t := Run(events);
    assert HoldsCurrent(t, SlotOf(t, h));
  }

  /** Metadata values that no longer count lead nowhere. */
  predicate StaleIsGone<T>(t: Table<T>) {
    && (forall a | a in t.contents :: a in t.used)
    && (forall h | h in t.slots :: forall k | k in t.slots[h].metadata ::
          && t.slots[h].metadata[k] != "" && Digits(t.slots[h].metadata[k])
          && Value(t.slots[h].metadata[k]) in t.used
          && (k !in t.slots[h].current ==> Value(t.slots[h].metadata[k]) !in t.contents))
  }

  lemma StaleStep<T>(t: Table<T>, e: Event<T>)
    requires StaleIsGone(t) && Valid(t) && Allowed(t, e) && Fresh(t, e)
    ensures StaleIsGone(Step(t, e))
  {
    var u := Step(t, e);
    var s := SlotOf(t, e.h);
    forall h | h in u.slots
      ensures forall k | k in u.slots[h].metadata ::
                && u.slots[h].metadata[k] != "" && Digits(u.slots[h].metadata[k])
                && Value(u.slots[h].metadata[k]) in u.used
                && (k !in u.slots[h].current ==> Value(u.slots[h].metadata[k]) !in u.contents)
    {
      if h in t.slots {
        assert HoldsCurrent(t, t.slots[h]);
      }
    }
  }

  lemma {:induction false} RunLeavesNothingStale<T>(events: seq<Event<T>>)
    requires AllowedRun(events) && FreshRun(events)
    ensures StaleIsGone(Run(events))
    decreases |events|
  {
    hide Valid, Step, StaleIsGone;
    if events == [] {
      EmptyLeavesNothingStale<T>();
    } else {
      var p := events[..|events| - 1];
      RunLeavesNothingStale(p);
      RunIsValid(p);
      StaleStep(Run(p), events[|events| - 1]);
    }
  }

  lemma EmptyLeavesNothingStale<T>()
    ensures StaleIsGone<T>(Table(map[], map[], {}))
  {
  }

  /** If addresses are never handed out twice, GetData is exactly the last value
      set, and nil for every key not set since the stream completed. */
  lemma GetsExactlyLastSet<T>(events: seq<Event<T>>, h: nat, key: string)
    requires AllowedRun(events) && FreshRun(events)
    ensures Get(Run(events), h, key) == LastSet(events, h, key)
  {
    CurrentIsLast(events, h, key);
    if LastSet(events, h, key).Some? {
      GetsLastSet(events, h, key);
    } else {
      RunLeavesNothingStale(events);
    }
  }

  // ----- what a released address leads to -----

  /** The address a request last stored for a key. */
  function LastAddress<T>(events: seq<Event<T>>, h: nat, key: string): Option<nat> {
    if events == [] then None
    else
      var before := LastAddress(events[..|events| - 1], h, key);
      match events[|events| - 1]
      case Set(g, k, _, a) => if g == h && k == key then Some(a) else before
      case Complete(_) => before
  }

  /** Which request holds an address, and the value it put there. */
  function Holder<T>(events: seq<Event<T>>, address: nat): Option<(nat, T)> {
    if events == [] then None
    else
      var before := Holder(events[..|events| - 1], address);
      match events[|events| - 1]
      case Set(g, _, v, a) => if a == address then Some((g, v)) else before
      case Complete(g) => if before.Some? && before.value.0 == g then None else before
  }

  lemma {:induction false} AddressIsKept<T>(events: seq<Event<T>>, h: nat, key: string)
    requires AllowedRun(events)
    ensures var m := SlotOf(Run(events), h).metadata;
            match LastAddress(events, h, key)
            case None => key !in m
            case Some(a) => a > 0 && key in m && m[key] == Numeral(a)
    decreases |events|
  {
    if events != [] {
      AddressIsKept(events[..|events| - 1], h, key);
    }
  }

  /** The holder's value is in the table and the address among its own. */
  ghost predicate HeldIs<T>(t: Table<T>, address: nat, holder: Option<(nat, T)>) {
    match holder
    case None => address !in t.contents
    case Some((h, v)) => address in t.contents && t.contents[address] == v && address in SlotOf(t, h).own
  }

  lemma HeldStep<T>(t: Table<T>, e: Event<T>, address: nat, before: Option<(nat, T)>)
    requires Valid(t) && Allowed(t, e) && HeldIs(t, address, before)
    ensures HeldIs(Step(t, e), address,
                   match e
                   case Set(g, _, v, a) => if a == address then Some((g, v)) else before
                   case Complete(g) => if before.Some? && before.value.0 == g then None else before)
  {
    var s := SlotOf(t, e.h);
    if e.Complete? {
      assert e.h in t.slots ==> HoldsCurrent(t, s);
      assert s.own == set a | a in s.recorded;
      assert address in s.recorded <==> address in s.own;
    }
  }

  lemma {:induction false} TableIsHeld<T>(events: seq<Event<T>>, address: nat)
    requires AllowedRun(events)
    ensures HeldIs(Run(events), address, Holder(events, address))
    decreases |events|
  {
    hide Valid, Step, HeldIs, Allowed;
    if events == [] {
      NothingHeld<T>(address);
    } else {
      var p := events[..|events| - 1];
      TableIsHeld(p, address);
      RunIsValid(p);
      HeldStep(Run(p), events[|p|], address, Holder(p, address));
    }
  }

  lemma NothingHeld<T>(address: nat)
    ensures HeldIs<T>(Table(map[], map[], {}), address, None)
  {
  }

  /** In every run GetData returns exactly what the address last stored for the
      key holds by then: nothing once it is released, and another request's value
      once it is handed out again. */
  lemma GetReadsTheHolder<T>(events: seq<Event<T>>, h: nat, key: string)
    requires AllowedRun(events)
    ensures Get(Run(events), h, key) ==
            match LastAddress(events, h, key)
            case None => None
            case Some(a) => match Holder(events, a) case None => None case Some((_, v)) => Some(v)
  {
    AddressIsKept(events, h, key);
    var last := LastAddress(events, h, key);
    if last.Some? {
      TableIsHeld(events, last.value);
    }
  }
}
