/** abi_impl's dymScheduler: functions handed to the host by number and taken back
    by number, from any thread and in any order. */
module Scheduling {
  import opened Common

  /** The lock makes Schedule and onScheduled atomic; the caller of OnScheduled
      runs the function it gets. */
  class Scheduler<T> {
    var nextTaskID: nat
    var tasks: map<nat, T>
    ghost const owner: object

    constructor (ghost owner: object)
      ensures nextTaskID == 0 && tasks == map[] && this.owner == owner
    {
      nextTaskID, tasks := 0, map[];
      this.owner := owner;
    }

    /** The numbers have not wrapped: those in use are below the next one. */
    ghost predicate InOrder()
      reads this
    {
      forall id | id in tasks :: id < nextTaskID
    }

    method Schedule(task: T) returns (taskID: nat)
      modifies this
      ensures taskID == old(nextTaskID)
      ensures (nextTaskID, tasks) == Added(old(nextTaskID), old(tasks), task)
      ensures old(InOrder()) ==> taskID !in old(tasks)
      ensures old(InOrder()) && taskID + 1 < UINT64 ==> InOrder()
    {
      taskID := nextTaskID;
      nextTaskID := (nextTaskID + 1) % UINT64;
      tasks := tasks[taskID := task];
    }

    method OnScheduled(taskID: nat) returns (task: Option<T>)
      modifies this`tasks
      ensures task == (if taskID in old(tasks) then Some(old(tasks)[taskID]) else None)
      ensures tasks == old(tasks) - {taskID}
      ensures old(InOrder()) ==> InOrder()
    {
      task := if taskID in tasks then Some(tasks[taskID]) else None;
      tasks := tasks - {taskID};
    }
  }

  function Added<T>(next: nat, tasks: map<nat, T>, task: T): (nat, map<nat, T>) {
    ((next + 1) % UINT64, tasks[next := task])
  }

  // ----- every interleaving -----

  /** Schedule from any thread; deliver any ID, committed or not, repeatedly. */
  datatype Event = Schedule | Deliver(id: nat)

  /** The n-th scheduled function is called n; ran lists them in the order they
      were run. */
  datatype State = State(next: nat, tasks: map<nat, nat>, scheduled: nat, ran: seq<nat>)

  function Step(s: State, e: Event): State {
    match e
    case Schedule =>
      var (next, tasks) := Added(s.next, s.tasks, s.scheduled);
      s.(next := next, tasks := tasks, scheduled := s.scheduled + 1)
    case Deliver(id) =>
      if id in s.tasks then s.(tasks := s.tasks - {id}, ran := s.ran + [s.tasks[id]]) else s
  }

  function Run(events: seq<Event>): State {
    if events == [] then State(0, map[], 0, []) else Step(Run(events[..|events| - 1]), events[|events| - 1])
  }

  predicate Distinct(s: seq<nat>) {
    forall i, j :: 0 <= i < j < |s| ==> s[i] != s[j]
  }

  /** Pending tasks sit under their own number and have not run. */
  predicate Orderly(s: State) {
    && s.next == s.scheduled % UINT64
    && (forall id | id in s.tasks :: s.tasks[id] < s.scheduled && s.tasks[id] % UINT64 == id && s.tasks[id] !in s.ran)
    && (forall n | n in s.ran :: n < s.scheduled)
    && Distinct(s.ran)
  }

  lemma StepOrderly(s: State, e: Event)
    requires Orderly(s)
    ensures Orderly(Step(s, e))
  {
    if e.Schedule? {
      assert (s.scheduled + 1) % UINT64 == (s.next + 1) % UINT64;
    }
  }

  /** Each function runs at most once, in every interleaving and even after the
      numbers wrap around. */
  lemma {:induction false} EachRunsAtMostOnce(events: seq<Event>)
    ensures Orderly(Run(events)) && Distinct(Run(events).ran)
    decreases |events|
  {
    if events != [] {
      EachRunsAtMostOnce(events[..|events| - 1]);
      StepOrderly(Run(events[..|events| - 1]), events[|events| - 1]);
    }
  }

  /** The function with number id is found under id exactly until it has run. */
  predicate FindsOwn(s: State, id: nat) {
    && (id in s.tasks <==> id < s.scheduled && id !in s.ran)
    && (id in s.tasks ==> s.tasks[id] == id)
  }

  lemma StepFindsOwn(s: State, e: Event, id: nat)
    requires Orderly(s) && Step(s, e).scheduled <= UINT64 && FindsOwn(s, id)
    requires e.Deliver? ==> FindsOwn(s, e.id)
    ensures FindsOwn(Step(s, e), id)
  {
    if e.Schedule? {
      assert s.next == s.scheduled;
    }
  }

  /** Until the 64-bit numbers wrap, delivering a committed ID finds the function
      committed under it exactly if it has not been delivered before. */
  lemma {:induction false} CommittedFindsOwn(events: seq<Event>, id: nat)
    requires Run(events).scheduled <= UINT64
    ensures var s := Run(events);
            && (id in s.tasks <==> id < s.scheduled && id !in s.ran)
            && (id in s.tasks ==> s.tasks[id] == id)
    decreases |events|
  {
    if events != [] {
      var p, e := events[..|events| - 1], events[|events| - 1];
      EachRunsAtMostOnce(p);
      assert Run(p).scheduled <= Run(events).scheduled;
      hide Step, Orderly;
      CommittedFindsOwn(p, id);
      if e.Deliver? {
        CommittedFindsOwn(p, e.id);
      }
      StepFindsOwn(Run(p), e, id);
    }
  }

  // ----- the deliveries that count -----

  function Schedules(events: seq<Event>): nat {
    if events == [] then 0
    else Schedules(events[..|events| - 1]) + (if events[|events| - 1].Schedule? then 1 else 0)
  }

  /** The IDs delivered after they were committed, each at its first delivery. */
  function Delivered(events: seq<Event>): seq<nat> {
    if events == [] then []
    else
      var p, e := events[..|events| - 1], events[|events| - 1];
      if e.Deliver? && e.id < Schedules(p) && e.id !in Delivered(p) then Delivered(p) + [e.id] else Delivered(p)
  }

  /** Until the numbers wrap, the functions run are exactly those, in that order. */
  lemma {:induction false} RunsWhatIsDelivered(events: seq<Event>)
    requires Schedules(events) <= UINT64
    ensures Run(events).ran == Delivered(events) && Run(events).scheduled == Schedules(events)
    decreases |events|
  {
    if events != [] {
      var p, e := events[..|events| - 1], events[|events| - 1];
      RunsWhatIsDelivered(p);
      if e.Deliver? {
        CommittedFindsOwn(p, e.id);
      }
    }
  }
}
