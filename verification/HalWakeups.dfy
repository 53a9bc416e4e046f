/** The two condition variables of sensors/multihal.cpp: writers wait for space in their own queue,
    pollers wait for data in any. Any number of sub-modules, each with its writer thread, and any
    number of threads inside `poll`, interleaved wherever the queue mutex is free. */
module HalWakeups {
  import opened HandleMaps
  import RoundRobin
  import Multihal

  /** A writer polls its device into `room` reserved slots without the mutex. */
  datatype Writer = Ready | SpaceAsleep | SpaceWoken | Filling(room: nat)

  datatype Poller = Outside | DataAsleep | DataWoken

  datatype Hal = Hal(capacity: nat, sizes: seq<nat>, writers: seq<Writer>, pollers: seq<Poller>, waitingForData: bool)

  datatype Action =
    | Look(i: nat, room: nat)
    | Done(i: nat, count: int)
    | Round(j: nat, taken: seq<nat>, output: nat)
    | SpuriousSpace(i: nat)
    | SpuriousData(j: nat)

  function Start(capacity: nat, modules: nat, threads: nat): Hal {
    Hal(capacity, seq(modules, _ => 0), seq(modules, _ => Ready), seq(threads, _ => Outside), false)
  }

  ghost predicate Shaped(s: Hal) {
    |s.sizes| == |s.writers|
  }

  function Rest(sizes: seq<nat>, taken: seq<nat>): seq<nat>
    requires |taken| == |sizes| && forall i | 0 <= i < |sizes| :: taken[i] <= sizes[i]
  {
    seq(|sizes|, i requires 0 <= i < |sizes| => sizes[i] - taken[i])
  }

  ghost predicate AllEmpty(sizes: seq<nat>) {
    forall i | 0 <= i < |sizes| :: sizes[i] == 0
  }

  /** What one round of `poll` can take: without output everything goes, with output something. */
  ghost predicate CanTake(sizes: seq<nat>, taken: seq<nat>, output: nat) {
    && |taken| == |sizes| && (forall i | 0 <= i < |sizes| :: taken[i] <= sizes[i])
    && (output == 0 ==> AllEmpty(Rest(sizes, taken)))
    && (output > 0 ==> !AllEmpty(taken))
  }

  ghost predicate Enabled(s: Hal, a: Action)
    requires Shaped(s)
  {
    match a
    case Look(i, room) =>
      && i < |s.writers| && (s.writers[i].Ready? || s.writers[i].SpaceWoken?)
      && (s.sizes[i] != s.capacity ==> 1 <= room <= s.capacity - s.sizes[i])
    case Done(i, count) => i < |s.writers| && s.writers[i].Filling? && count <= s.writers[i].room
    case Round(j, taken, output) => j < |s.pollers| && !s.pollers[j].DataAsleep? && CanTake(s.sizes, taken, output)
    case SpuriousSpace(i) => i < |s.writers| && s.writers[i].SpaceAsleep?
    case SpuriousData(j) => j < |s.pollers| && s.pollers[j].DataAsleep?
  }

  /** `dequeue` broadcasts when it leaves a full queue. */
  function SpaceBroadcast(s: Hal, taken: seq<nat>): seq<Writer>
    requires |s.writers| == |s.sizes| == |taken|
  {
    seq(|s.writers|, i requires 0 <= i < |s.writers| =>
      if s.writers[i].SpaceAsleep? && taken[i] > 0 && s.sizes[i] == s.capacity then SpaceWoken else s.writers[i])
  }

  function DataBroadcast(pollers: seq<Poller>): seq<Poller> {
    seq(|pollers|, j requires 0 <= j < |pollers| => if pollers[j].DataAsleep? then DataWoken else pollers[j])
  }

  ghost function Step(s: Hal, a: Action): Hal
    requires Shaped(s) && Enabled(s, a)
  {
    match a
    case Look(i, room) =>
      s.(writers := s.writers[i := if s.sizes[i] == s.capacity then SpaceAsleep else Filling(room)])
    case Done(i, count) =>
      if count <= 0 then s.(writers := s.writers[i := Ready])
      else s.(writers := s.writers[i := Ready], sizes := s.sizes[i := s.sizes[i] + count],
              pollers := if s.waitingForData then DataBroadcast(s.pollers) else s.pollers)
    case Round(j, taken, output) =>
      s.(sizes := Rest(s.sizes, taken), writers := SpaceBroadcast(s, taken),
         pollers := s.pollers[j := if output == 0 then DataAsleep else Outside],
         waitingForData := output == 0 || (s.waitingForData && s.pollers[j].Outside?))
    case SpuriousSpace(i) => s.(writers := s.writers[i := SpaceWoken])
    case SpuriousData(j) => s.(pollers := s.pollers[j := DataWoken])
  }

  /** Sleeping writers have full queues, and reserved room is room; a sleeping poller has nothing to
      read and the flag that makes writers wake it is up. */
  ghost predicate NoLostWakeup(s: Hal) {
    && Shaped(s)
    && (forall i | 0 <= i < |s.writers| :: s.writers[i].SpaceAsleep? ==> s.sizes[i] == s.capacity)
    && (forall i | 0 <= i < |s.writers| :: s.sizes[i] <= s.capacity)
    && (forall i | 0 <= i < |s.writers| :: s.writers[i].Filling? ==> s.sizes[i] + s.writers[i].room <= s.capacity)
    && (forall j | 0 <= j < |s.pollers| :: s.pollers[j].DataAsleep? ==> s.waitingForData && AllEmpty(s.sizes))
  }

  lemma RoundKeepsWakeups(s: Hal, j: nat, taken: seq<nat>, output: nat)
    requires NoLostWakeup(s) && Enabled(s, Round(j, taken, output))
    ensures NoLostWakeup(Step(s, Round(j, taken, output)))
  {
    if output > 0 {
      var i :| 0 <= i < |s.sizes| && taken[i] > 0;
      assert !AllEmpty(s.sizes);
    }
    if AllEmpty(s.sizes) {
      assert AllEmpty(Rest(s.sizes, taken));
    }
  }

  lemma StepKeepsWakeups(s: Hal, a: Action)
    requires NoLostWakeup(s) && Enabled(s, a)
    ensures NoLostWakeup(Step(s, a)) && Step(s, a).capacity == s.capacity
  {
    if a.Round? {
      RoundKeepsWakeups(s, a.j, a.taken, a.output);
    }
  }

  ghost predicate CanRun(s: Hal, actions: seq<Action>)
    decreases |actions|
  {
    actions == [] || (Shaped(s) && Enabled(s, actions[0]) && CanRun(Step(s, actions[0]), actions[1..]))
  }

  ghost function Run(s: Hal, actions: seq<Action>): Hal
    requires CanRun(s, actions)
    decreases |actions|
  {
    if actions == [] then s else Run(Step(s, actions[0]), actions[1..])
  }

  lemma {:induction false} RunKeepsWakeups(s: Hal, actions: seq<Action>)
    requires NoLostWakeup(s) && CanRun(s, actions)
    ensures NoLostWakeup(Run(s, actions)) && Run(s, actions).capacity == s.capacity
    decreases |actions|
  {
    hide Step, NoLostWakeup, Enabled;
    if actions != [] {
      StepKeepsWakeups(s, actions[0]);
      RunKeepsWakeups(Step(s, actions[0]), actions[1..]);
    }
  }

  /** In every reachable state: a sleeping writer's queue is full, a sleeping poller has nothing to
      read, and so a writer and a poller are never asleep together. */
  lemma NobodySleepsInVain(capacity: nat, modules: nat, threads: nat, actions: seq<Action>, i: nat, j: nat)
    requires CanRun(Start(capacity, modules, threads), actions)
    ensures var s := Run(Start(capacity, modules, threads), actions);
            && |s.sizes| == |s.writers|
            && (i < |s.writers| && s.writers[i].SpaceAsleep? ==> s.sizes[i] == capacity)
            && (j < |s.pollers| && s.pollers[j].DataAsleep? ==> s.waitingForData && AllEmpty(s.sizes))
            && (capacity > 0 && i < |s.writers| && j < |s.pollers| ==>
                  !(s.writers[i].SpaceAsleep? && s.pollers[j].DataAsleep?))
  {
    RunKeepsWakeups(Start(capacity, modules, threads), actions);
  }

  /** The flag is up only while some poller is still in its wait; with one poller, exactly then. */
  ghost predicate FlagIsWaiting(s: Hal) {
    && (s.waitingForData ==> exists j :: 0 <= j < |s.pollers| && !s.pollers[j].Outside?)
    && (|s.pollers| == 1 && !s.pollers[0].Outside? ==> s.waitingForData)
  }

  lemma StepKeepsFlag(s: Hal, a: Action)
    requires Shaped(s) && Enabled(s, a) && FlagIsWaiting(s)
    ensures Shaped(Step(s, a)) && FlagIsWaiting(Step(s, a))
  {
    var s' := Step(s, a);
    assert |s'.pollers| == |s.pollers|;
    if s.waitingForData {
      var j :| 0 <= j < |s.pollers| && !s.pollers[j].Outside?;
      assert (a.Round? && a.j == j) || !s'.pollers[j].Outside?;
    }
    if a.Round? && a.output == 0 {
      assert !s'.pollers[a.j].Outside?;
    }
  }

  lemma {:induction false} RunKeepsFlag(s: Hal, actions: seq<Action>)
    requires Shaped(s) && FlagIsWaiting(s) && CanRun(s, actions)
    ensures FlagIsWaiting(Run(s, actions))
    decreases |actions|
  {
    if actions != [] {
      StepKeepsFlag(s, actions[0]);
      hide Step, FlagIsWaiting;
      RunKeepsFlag(Step(s, actions[0]), actions[1..]);
    }
  }

  /** So writers stop broadcasting when nobody waits. */
  lemma FlagMeansWaiting(capacity: nat, modules: nat, threads: nat, actions: seq<Action>)
    requires CanRun(Start(capacity, modules, threads), actions)
    ensures FlagIsWaiting(Run(Start(capacity, modules, threads), actions))
  {
    RunKeepsFlag(Start(capacity, modules, threads), actions);
  }

  // ---- Nothing is lost, and somebody can always move ------------------------------------------------

  /** What module i's writer has committed in a run, */
  ghost function Committed(s: Hal, actions: seq<Action>, i: nat): nat
    requires CanRun(s, actions)
    decreases |actions|
  {
    if actions == [] then 0
    else
      var a := actions[0];
      (if a.Done? && a.i == i && a.count > 0 then a.count else 0) + Committed(Step(s, a), actions[1..], i)
  }

  /** and what pollers have taken of its queue. */
  ghost function TakenOf(s: Hal, actions: seq<Action>, i: nat): nat
    requires CanRun(s, actions)
    decreases |actions|
  {
    if actions == [] then 0
    else
      var a := actions[0];
      (if a.Round? && i < |a.taken| then a.taken[i] else 0) + TakenOf(Step(s, a), actions[1..], i)
  }

  lemma {:induction false} RunConserves(s: Hal, actions: seq<Action>, i: nat)
    requires Shaped(s) && CanRun(s, actions) && i < |s.sizes|
    ensures |Run(s, actions).sizes| == |s.sizes|
    ensures s.sizes[i] + Committed(s, actions, i) == TakenOf(s, actions, i) + Run(s, actions).sizes[i]
    decreases |actions|
  {
    if actions != [] {
      StepConserves(s, actions[0], i);
      hide Step, Enabled;
      RunConserves(Step(s, actions[0]), actions[1..], i);
    }
  }

  lemma StepConserves(s: Hal, a: Action, i: nat)
    requires Shaped(s) && Enabled(s, a) && i < |s.sizes|
    ensures var s' := Step(s, a);
            && Shaped(s') && |s'.sizes| == |s.sizes|
            && s.sizes[i] + (if a.Done? && a.i == i && a.count > 0 then a.count else 0)
            == (if a.Round? && i < |a.taken| then a.taken[i] else 0) + s'.sizes[i]
  {
  }

  /** Over every run, what a sub-module's writer committed is what was taken of its queue and what is
      left in it. */
  lemma EventsAreConserved(capacity: nat, modules: nat, threads: nat, actions: seq<Action>, i: nat)
    requires CanRun(Start(capacity, modules, threads), actions) && i < modules
    ensures var s0 := Start(capacity, modules, threads);
            var s := Run(s0, actions);
            |s.sizes| == modules && Committed(s0, actions, i) == TakenOf(s0, actions, i) + s.sizes[i]
  {
    RunConserves(Start(capacity, modules, threads), actions, i);
  }

  lemma {:induction false} SameThreads(s: Hal, actions: seq<Action>)
    requires Shaped(s) && CanRun(s, actions)
    ensures |Run(s, actions).writers| == |s.writers| && |Run(s, actions).pollers| == |s.pollers|
    decreases |actions|
  {
    if actions != [] {
      SameThreads(Step(s, actions[0]), actions[1..]);
    }
  }

  /** A step that is more than waking up for no reason. */
  predicate Real(a: Action) {
    !a.SpuriousSpace? && !a.SpuriousData?
  }

  /** There is no deadlock: with a writer and a poller, one of the threads can always go on. */
  lemma SomebodyCanMove(capacity: nat, modules: nat, threads: nat, actions: seq<Action>) returns (a: Action)
    requires capacity > 0 && modules > 0 && threads > 0
    requires CanRun(Start(capacity, modules, threads), actions)
    ensures var s := Run(Start(capacity, modules, threads), actions);
            Shaped(s) && Enabled(s, a) && Real(a)
  {
    hide *;
    var s := Run(Start(capacity, modules, threads), actions);
    StartsAwake(capacity, modules, threads);
    SameThreads(Start(capacity, modules, threads), actions);
    RunKeepsWakeups(Start(capacity, modules, threads), actions);
    a := CanMove(s);
  }

  lemma StartsAwake(capacity: nat, modules: nat, threads: nat)
    ensures var s := Start(capacity, modules, threads);
            NoLostWakeup(s) && Shaped(s) && |s.writers| == modules && |s.pollers| == threads && s.capacity == capacity
  {
  }

  lemma CanMove(s: Hal) returns (a: Action)
    requires NoLostWakeup(s) && s.capacity > 0 && s.writers != [] && s.pollers != []
    ensures Shaped(s) && Enabled(s, a) && Real(a)
  {
    if !s.pollers[0].DataAsleep? {
      a := Round(0, s.sizes, 0);
    } else if s.writers[0].Filling? {
      a := Done(0, 0);
    } else {
      a := Look(0, s.capacity - s.sizes[0]);
    }
  }

  /** A writer that looks at its queue sleeps exactly when that is full, and else fills the room it was
      given; a poller sleeps exactly when it has nothing to return. Nobody else goes to sleep. */
  lemma WhoGoesToSleep(s: Hal, a: Action)
    requires NoLostWakeup(s) && Enabled(s, a)
    ensures var s' := Step(s, a);
            && |s'.writers| == |s.writers| && |s'.pollers| == |s.pollers|
            && (forall i | 0 <= i < |s.writers| && s'.writers[i].SpaceAsleep? && !s.writers[i].SpaceAsleep? ::
                  a.Look? && a.i == i && s.sizes[i] == s.capacity)
            && (forall j | 0 <= j < |s.pollers| && s'.pollers[j].DataAsleep? && !s.pollers[j].DataAsleep? ::
                  a.Round? && a.j == j && a.output == 0)
            && (a.Look? && s.sizes[a.i] < s.capacity ==> s'.writers[a.i] == Filling(a.room))
            && (a.Done? ==> s'.writers[a.i] == Ready)
            && (a.Round? && a.output > 0 ==> s'.pollers[a.j] == Outside)
  {
  }

  /** A sleeping writer is woken exactly when something is taken of its queue, and sleeping pollers exactly
      when something is committed to any; or for no reason. */
  lemma WhoWakesUp(s: Hal, a: Action)
    requires NoLostWakeup(s) && Enabled(s, a)
    ensures var s' := Step(s, a);
            && |s'.writers| == |s.writers| && |s'.pollers| == |s.pollers|
            && (forall i | 0 <= i < |s.writers| && s.writers[i].SpaceAsleep? ::
                  s'.writers[i] == if a == SpuriousSpace(i) || (a.Round? && a.taken[i] > 0) then SpaceWoken
                                   else SpaceAsleep)
            && (forall j | 0 <= j < |s.pollers| && s.pollers[j].DataAsleep? ::
                  s'.pollers[j] == if a == SpuriousData(j) || (a.Done? && a.count > 0) then DataWoken
                                   else DataAsleep)
  {
  }

  // ---- The rounds are those of `poll` -------------------------------------------------------------

  ghost function SizesOf(queues: seq<seq<SensorEvent>>): (sizes: seq<nat>)
    ensures |sizes| == |queues| && forall i | 0 <= i < |sizes| :: sizes[i] == |queues[i]|
  {
    seq(|queues|, i requires 0 <= i < |queues| => |queues[i]|)
  }

  lemma NoVisitNoOutput(handles: seq<FullHandle>, before: seq<seq<SensorEvent>>, start: nat)
    requires start < |before|
    ensures RoundRobin.Output(handles, before, start, 0) == []
  {
  }

  lemma NothingAdded(handles: seq<FullHandle>, before: seq<seq<SensorEvent>>, start: nat, v: nat)
    requires start < |before| && RoundRobin.Taken(before, start, v) == []
    ensures RoundRobin.Output(handles, before, start, v + 1) == RoundRobin.Output(handles, before, start, v)
  {
    hide RoundRobin.Taken, RoundRobin.Turn;
    assert RoundRobin.Passed(handles, [], RoundRobin.Turn(start, v, |before|)) == [];
  }

  /** Visits only grow in number, and the queue that is visited has one more. */
  lemma VisitsGrow(before: seq<seq<SensorEvent>>, start: nat, v: nat, i: nat)
    requires start < |before|
    ensures RoundRobin.Visits(start, v + 1, |before|, i) >= RoundRobin.Visits(start, v, |before|, i)
    ensures i == RoundRobin.Turn(start, v, |before|) ==> RoundRobin.Visits(start, v + 1, |before|, i) > 0
    ensures i == RoundRobin.Turn(start, v, |before|) && RoundRobin.Taken(before, start, v) != [] ==> before[i] != []
  {
    hide RoundRobin.Turn;
  }

  lemma {:induction false} SomethingTaken(handles: seq<FullHandle>, before: seq<seq<SensorEvent>>, start: nat, v: nat)
    returns (i: nat)
    requires start < |before| && RoundRobin.Output(handles, before, start, v) != []
    ensures i < |before| && before[i] != [] && RoundRobin.Visits(start, v, |before|, i) > 0
  {
    hide *;
    if v == 0 {
      NoVisitNoOutput(handles, before, start);
    } else if RoundRobin.Taken(before, start, v - 1) == [] {
      NothingAdded(handles, before, start, v - 1);
      i := SomethingTaken(handles, before, start, v - 1);
      VisitsGrow(before, start, v - 1, i);
    } else {
      i := RoundRobin.Turn(start, v - 1, |before|);
      VisitsGrow(before, start, v - 1, i);
    }
  }

  /** No queue grows in a scan, and a scan with output has taken something. */
  lemma ScanShrinks(handles: seq<FullHandle>, before: seq<seq<SensorEvent>>, start: nat, v: nat,
                    now: seq<seq<SensorEvent>>, next: nat, out: seq<SensorEvent>) returns (i: nat)
    requires Multihal.Follows(handles, before, start, v, now, next, out)
    ensures |now| == |before| && forall k | 0 <= k < |now| :: |now[k]| <= |before[k]|
    ensures out != [] ==> i < |before| && |now[i]| < |before[i]|
  {
    hide RoundRobin.Turn, RoundRobin.Output, RoundRobin.Visits;
    i := 0;
    if out != [] {
      i := SomethingTaken(handles, before, start, v);
    }
  }

  /** A scan, whose contract is `Follows` and "short output means drained", is a round. */
  lemma ScanIsRound(handles: seq<FullHandle>, before: seq<seq<SensorEvent>>, start: nat, v: nat,
                    now: seq<seq<SensorEvent>>, next: nat, out: seq<SensorEvent>) returns (taken: seq<nat>)
    requires Multihal.Follows(handles, before, start, v, now, next, out)
    requires out == [] ==> Multihal.Drained(now)
    ensures CanTake(SizesOf(before), taken, |out|) && Rest(SizesOf(before), taken) == SizesOf(now)
  {
    hide Multihal.Follows;
    var i := ScanShrinks(handles, before, start, v, now, next, out);
    taken := seq(|before|, i requires 0 <= i < |before| => |before[i]| - |now[i]|);
    assert Rest(SizesOf(before), taken) == SizesOf(now);
    assert out != [] ==> taken[i] > 0;
  }
}
