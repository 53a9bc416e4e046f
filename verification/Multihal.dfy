/** `poll` of sensors/multihal.cpp: one pass over the sub-modules' queues under the queue mutex. */
module Multihal {
  import opened HeapRuns
  import opened HandleMaps
  import RoundRobin
  import SensorEventQueues

  type EventQueue = SensorEventQueues.SensorEventQueue<SensorEvent>

  const CAPACITY := 36

  function Total(queues: seq<seq<SensorEvent>>): nat {
    if queues == [] then 0 else |queues[0]| + Total(queues[1..])
  }

  lemma {:induction false} TotalDrop(queues: seq<seq<SensorEvent>>, i: nat)
    requires i < |queues| && queues[i] != []
    ensures Total(queues[i := queues[i][1..]]) == Total(queues) - 1
  {
    if i > 0 {
      assert queues[i := queues[i][1..]][1..] == queues[1..][i - 1 := queues[i][1..]];
      TotalDrop(queues[1..], i - 1);
    }
  }

  /** One more visit takes the head of the queue whose turn it is. */
  lemma LeftStep(queues: seq<seq<SensorEvent>>, start: nat, v: nat)
    requires start < |queues|
    ensures var i, left := RoundRobin.Turn(start, v, |queues|), RoundRobin.Left(queues, start, v);
            && RoundRobin.Left(queues, start, v + 1) == (if left[i] == [] then left else left[i := left[i][1..]])
            && RoundRobin.Taken(queues, start, v) == (if left[i] == [] then [] else [left[i][0]])
  {
  }

  /** One more visit passes on what it took, remapped, unless that is dropped. */
  lemma OutputStep(handles: seq<FullHandle>, queues: seq<seq<SensorEvent>>, start: nat, v: nat)
    requires start < |queues|
    ensures var i, taken := RoundRobin.Turn(start, v, |queues|), RoundRobin.Taken(queues, start, v);
            && (var was := RoundRobin.EventsOf(RoundRobin.Output(handles, queues, start, v));
                RoundRobin.EventsOf(RoundRobin.Output(handles, queues, start, v + 1)) ==
                if taken == [] || Remap(handles, taken[0], i).sensor == UNKNOWN then was
                else was + [Remap(handles, taken[0], i)])
  {
    hide RoundRobin.Turn, RoundRobin.Taken;
    var i, taken := RoundRobin.Turn(start, v, |queues|), RoundRobin.Taken(queues, start, v);
    if taken != [] {
      assert taken == [taken[0]] && taken[..0] == [];
      assert RoundRobin.Passed(handles, [], i) == [];
    }
  }

  /** No visit among the last `empties` ones found anything: once that is all queues, they are empty. */
  ghost predicate EmptySince(left: seq<seq<SensorEvent>>, start: nat, from: int, v: nat)
    requires start < |left|
  {
    forall w: nat | from <= w < v :: left[RoundRobin.Turn(start, w, |left|)] == []
  }

  lemma EmptyStep(left: seq<seq<SensorEvent>>, start: nat, from: int, v: nat)
    requires start < |left| && EmptySince(left, start, from, v)
    ensures left[RoundRobin.Turn(start, v, |left|)] == [] ==> EmptySince(left, start, from, v + 1)
  {
  }

  lemma NoneYet(left: seq<seq<SensorEvent>>, start: nat, v: nat)
    requires start < |left|
    ensures EmptySince(left, start, v, v)
  {
  }

  lemma TurnStep(start: nat, v: nat, n: nat)
    requires start < n
    ensures var i := RoundRobin.Turn(start, v, n);
            RoundRobin.Turn(start, v + 1, n) == if i + 1 == n then 0 else i + 1
  {
  }

  lemma Begin(handles: seq<FullHandle>, queues: seq<seq<SensorEvent>>, start: nat)
    ensures Scanned(handles, queues, start, 0, queues, start, 0, [])
  {
  }

  lemma ScanEnd(handles: seq<FullHandle>, before: seq<seq<SensorEvent>>, start: nat, v: nat,
                now: seq<seq<SensorEvent>>, next: nat, empties: nat, out: seq<SensorEvent>)
    requires start < |before| || before == []
    requires Scanned(handles, before, start, v, now, next, empties, out)
    ensures Follows(handles, before, start, v, now, next, out)
    ensures empties == |before| ==> Drained(now)
  {
    if before != [] && empties == |before| {
      AllEmpty(now, start, v);
    }
  }

  ghost predicate Drained(queues: seq<seq<SensorEvent>>) {
    forall i | 0 <= i < |queues| :: queues[i] == []
  }

  lemma AllEmpty(left: seq<seq<SensorEvent>>, start: nat, v: nat)
    requires start < |left| <= v && EmptySince(left, start, v - |left|, v)
    ensures Drained(left)
  {
    forall i | 0 <= i < |left| ensures left[i] == [] {
      var w := RoundRobin.TurnComes(start, v - |left|, |left|, i);
    }
  }

  /** What one visit to queue `at` does: its oldest event, if any, goes, and is passed on remapped
      unless it is dropped. */
  ghost predicate Visited(handles: seq<FullHandle>, was: seq<seq<SensorEvent>>, at: nat,
                          now: seq<seq<SensorEvent>>, next: nat, found: bool, passed: seq<SensorEvent>)
    requires at < |was|
  {
    && (found <==> was[at] != [])
    && now == (if found then was[at := was[at][1..]] else was)
    && next == (if at + 1 == |was| then 0 else at + 1)
    && passed == (if found && Remap(handles, was[at][0], at).sensor != UNKNOWN
                  then [Remap(handles, was[at][0], at)] else [])
  }

  /** The state after v round-robin visits from `start`: what is left of each queue, whose turn is
      next, and what was passed on. */
  ghost predicate Follows(handles: seq<FullHandle>, before: seq<seq<SensorEvent>>, start: nat, v: nat,
                          now: seq<seq<SensorEvent>>, next: nat, out: seq<SensorEvent>)
  {
    if start >= |before| then now == before && next == start && out == [] && v == 0
    else
      && now == RoundRobin.Left(before, start, v)
      && next == RoundRobin.Turn(start, v, |before|)
      && out == RoundRobin.EventsOf(RoundRobin.Output(handles, before, start, v))
  }

  /** A scan in progress, the last `empties` visits of which found nothing. */
  ghost predicate Scanned(handles: seq<FullHandle>, before: seq<seq<SensorEvent>>, start: nat, v: nat,
                          now: seq<seq<SensorEvent>>, next: nat, empties: nat, out: seq<SensorEvent>)
  {
    && Follows(handles, before, start, v, now, next, out)
    && empties <= v && (start < |now| ==> EmptySince(now, start, v - empties, v))
  }

  lemma ScanStep(handles: seq<FullHandle>, before: seq<seq<SensorEvent>>, start: nat, v: nat,
                 was: seq<seq<SensorEvent>>, at: nat, empties: nat, out: seq<SensorEvent>,
                 now: seq<seq<SensorEvent>>, next: nat, found: bool, passed: seq<SensorEvent>)
    requires Scanned(handles, before, start, v, was, at, empties, out)
    requires at < |was| && Visited(handles, was, at, now, next, found, passed)
    ensures Scanned(handles, before, start, v + 1, now, next, if found then 0 else empties + 1, out + passed)
    ensures |now| == |was| == |before| && next < |before| && |passed| <= 1
    ensures found ==> Total(now) < Total(was)
    ensures !found ==> now == was
  {
    hide RoundRobin.Turn, RoundRobin.Left, RoundRobin.Output, RoundRobin.EventsOf, Remap, EmptySince, Total;
    if found {
      TotalDrop(was, at);
      NoneYet(now, start, v + 1);
    } else {
      EmptyStep(was, start, v - empties, v);
    }
    FollowsStep(handles, before, start, v, was, at, out, now, next, found, passed);
  }

  lemma FollowsStep(handles: seq<FullHandle>, before: seq<seq<SensorEvent>>, start: nat, v: nat,
                    was: seq<seq<SensorEvent>>, at: nat, out: seq<SensorEvent>,
                    now: seq<seq<SensorEvent>>, next: nat, found: bool, passed: seq<SensorEvent>)
    requires start < |before| && Follows(handles, before, start, v, was, at, out)
    requires at < |was| && Visited(handles, was, at, now, next, found, passed)
    ensures Follows(handles, before, start, v + 1, now, next, out + passed)
  {
    hide RoundRobin.Turn, RoundRobin.Left, RoundRobin.Output, RoundRobin.EventsOf, RoundRobin.Taken, Remap;
    LeftStep(before, start, v);
    OutputStep(handles, before, start, v);
    TurnStep(start, v, |before|);
  }

  /** What a writer thread is started with. */
  datatype TaskContext = TaskContext(device: nat, queue: EventQueue)

  class PollContext {
    var subHwDevices: seq<nat>
    var queues: seq<EventQueue>
    /** The writer threads that have been started. */
    var writers: seq<TaskContext>
    const handles: HandleMap
    var nextReadIndex: nat
    var waitingForData: bool
    /** What each queue holds, oldest first. */
    ghost var backlog: seq<seq<SensorEvent>>
    /** The queues' arrays. */
    ghost var buffers: set<array<SensorEvent>>

    ghost predicate Holds(i: nat)
      requires i < |queues| == |backlog|
      reads `queues, `backlog, queues[i], queues[i].data
    {
      queues[i].Valid() && queues[i].Contents() == backlog[i]
    }

    ghost predicate Valid()
      reads `queues, `backlog, `nextReadIndex, `buffers, handles, queues, buffers
    {
      && handles.Valid()
      && |backlog| == |queues|
      && (forall i, j | 0 <= i < j < |queues| :: queues[i] != queues[j])
      && (forall i | 0 <= i < |queues| :: queues[i].data in buffers)
      && (forall i | 0 <= i < |queues| :: Holds(i))
      && (nextReadIndex < |queues| || (queues == [] && nextReadIndex == 0))
    }

    constructor (handles: HandleMap)
      requires handles.Valid()
      ensures Valid() && queues == [] && !waitingForData && this.handles == handles
      ensures subHwDevices == [] && writers == []
    {
      this.handles := handles;
      subHwDevices, writers, waitingForData := [], [], false;
      queues, backlog, buffers, nextReadIndex := [], [], {}, 0;
    }

    method AddQueue()
      requires Valid()
      modifies `queues, `backlog, `buffers
      ensures Valid() && |queues| == |old(queues)| + 1 && queues[..|old(queues)|] == old(queues)
      ensures fresh(queues[|old(queues)|]) && queues[|old(queues)|].data.Length == CAPACITY
      ensures backlog == old(backlog) + [[]]
    {
      var queue := new SensorEventQueues.SensorEventQueue(CAPACITY);
      queues, backlog, buffers := queues + [queue], backlog + [[]], buffers + {queue.data};
      forall i | 0 <= i < |queues| ensures Holds(i) {
        assert i < |old(queues)| ==> old(Holds(i));
      }
    }

    /** A sub-module is added with an empty queue of its own, and a writer thread that fills that. */
    method AddSubHwDevice(device: nat)
      requires Valid()
      modifies `subHwDevices, `queues, `writers, `backlog, `buffers
      ensures Valid() && |queues| == |old(queues)| + 1 && queues[..|old(queues)|] == old(queues)
      ensures fresh(queues[|old(queues)|]) && queues[|old(queues)|].data.Length == CAPACITY
      ensures backlog == old(backlog) + [[]] && subHwDevices == old(subHwDevices) + [device]
      ensures writers == old(writers) + [TaskContext(device, queues[|old(queues)|])]
    {
      hide *;
      subHwDevices := subHwDevices + [device];
      AddQueue();
      writers := writers + [TaskContext(device, queues[|queues| - 1])];
    }

    method DequeueFrom(i: nat)
      requires Valid() && i < |queues| && backlog[i] != []
      modifies queues[i], `backlog
      ensures Valid() && backlog == old(backlog)[i := old(backlog)[i][1..]]
    {
      hide SensorEventQueues.Readable;
      assert Holds(i);
      var broadcast := queues[i].Dequeue();
      backlog := backlog[i := backlog[i][1..]];
      forall j | 0 <= j < |queues| ensures Holds(j) {
        assert old(Holds(j));
      }
    }

    /** The body of the scan loop: one visit to the queue whose turn it is. `passed` is the event
        it adds to the output, if any. */
    method Visit() returns (found: bool, passed: seq<SensorEvent>)
      requires Valid() && queues != []
      modifies queues, `nextReadIndex, `backlog
      ensures Valid()
      ensures |old(backlog)| == |queues| == |backlog| && old(nextReadIndex) < |queues|
      ensures handles.handles == old(handles.handles) && queues == old(queues)
      ensures Visited(handles.handles, old(backlog), old(nextReadIndex), backlog, nextReadIndex, found, passed)
    {
      hide Remap, SensorEventQueues.Readable;
      assert |backlog| == |queues| && nextReadIndex < |queues|;
      passed := [];
      assert Holds(nextReadIndex);
      var event := queues[nextReadIndex].Peek();
      found := event.Some?;
      if found {
        var dest := handles.CopyEventRemapHandle(event.value, nextReadIndex);
        if dest.sensor != UNKNOWN {
          passed := [dest];
        }
        DequeueFrom(nextReadIndex);
      }
      Advance();
    }

    method Advance()
      requires Valid() && queues != []
      modifies `nextReadIndex
      ensures Valid() && nextReadIndex == if old(nextReadIndex) + 1 == |queues| then 0 else old(nextReadIndex) + 1
    {
      SensorEventQueues.WrapIsModulo(nextReadIndex + 1, |queues|);
      nextReadIndex := (nextReadIndex + 1) % |queues|;
      forall i | 0 <= i < |queues| ensures Holds(i) {
        assert old(Holds(i));
      }
    }

    /** The scan loop. `v` is the number of visits it makes, and `out` what it puts in the caller's
        buffer. */
    method Scan(maxReads: int) returns (out: seq<SensorEvent>, ghost v: nat)
      requires Valid()
      modifies queues, `nextReadIndex, `backlog
      ensures Valid() && queues == old(queues) && (out == [] || |out| <= maxReads)
      ensures Follows(handles.handles, old(backlog), old(nextReadIndex), v, backlog, nextReadIndex, out)
      ensures |out| < maxReads ==> Drained(backlog)
    {
      assert |backlog| == |queues| && (nextReadIndex < |backlog| || backlog == []);
      hide *;
      ghost var before, start := backlog, nextReadIndex;
      var empties;
      out, empties, v := ScanLoop(maxReads);
      ScanEnd(handles.handles, before, start, v, backlog, nextReadIndex, empties, out);
    }

    /** The loop itself, up to its exit condition. */
    method ScanLoop(maxReads: int) returns (out: seq<SensorEvent>, empties: nat, ghost v: nat)
      requires Valid() && |backlog| == |queues|
      modifies queues, `nextReadIndex, `backlog
      ensures Valid() && queues == old(queues) && (out == [] || |out| <= maxReads)
      ensures handles.handles == old(handles.handles)
      ensures Scanned(handles.handles, old(backlog), old(nextReadIndex), v, backlog, nextReadIndex, empties, out)
      ensures empties == |queues| || |out| >= maxReads
    {
      hide *;
      ghost var before, start, known := backlog, nextReadIndex, handles.handles;
      var queueCount := |queues|;
      out, empties, v := [], 0, 0;
      Begin(known, before, start);
      while empties < queueCount && |out| < maxReads
        invariant Valid() && |backlog| == |queues| == queueCount && 0 <= empties <= queueCount
        invariant handles.handles == known && queues == old(queues)
        invariant out == [] || |out| <= maxReads
        invariant Scanned(known, before, start, v, backlog, nextReadIndex, empties, out)
        decreases Total(backlog), queueCount - empties
      {
        ghost var was, at := backlog, nextReadIndex;
        var found, passed := Visit();
        ScanStep(known, before, start, v, was, at, empties, out, backlog, nextReadIndex, found, passed);
        out := out + passed;
        empties := if found then 0 else empties + 1;
        v := v + 1;
      }
    }

    /** One turn of poll's outer loop, entered or resumed from the wait: scan, then either return
        with events or go to sleep. */
    method PollRound(maxReads: int, resumed: bool) returns (out: seq<SensorEvent>, asleep: bool, ghost v: nat)
      requires Valid()
      modifies queues, `nextReadIndex, `backlog, `waitingForData
      ensures Valid() && (asleep <==> out == [])
      ensures Follows(handles.handles, old(backlog), old(nextReadIndex), v, backlog, nextReadIndex, out)
      ensures maxReads >= 1 && (asleep || |out| < maxReads) ==> Drained(backlog)
      ensures waitingForData == (asleep || (old(waitingForData) && !resumed))
    {
      hide Follows, Drained;
      if resumed {
        waitingForData := false;
      }
      out, v := Scan(maxReads);
      asleep := out == [];
      if asleep {
        waitingForData := true;
      }
    }
  }
}
