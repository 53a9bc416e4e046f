/** The promises of the timer service, for every run from its start, under any interleaving of
    clients, message task and poll thread. */
module TimerTheorems {
  import opened TimeSpecs
  import opened HeapModel
  import opened HeapRuns
  import opened TimerContainers
  import opened TimerProtocol
  import opened TimerSafety
  import opened TimerArming
  import opened TimerHistory

  ghost predicate Inv(s: State) {
    Sound(s) && Armed(s) && Tracked(s) && Fates(s) && Draining(s)
  }

  lemma InitInv(clock: Clock)
    ensures Inv(Init(clock))
  {
    InitSound(clock);
  }

  lemma StepInv(s: State, a: Action)
    requires Inv(s) && Enabled(s, a)
    ensures Inv(Step(s, a))
  {
    hide Sound, Armed, Tracked, Fates, Draining, Step;
    StepSound(s, a);
    StepArmed(s, a);
    StepTracked(s, a);
    StepFates(s, a);
    StepDraining(s, a);
  }

  lemma {:induction false} RunInv(s0: State, actions: seq<Action>, s: State)
    requires Inv(s0) && Reaches(s0, actions, s)
    ensures Inv(s)
    decreases |actions|
  {
    if actions != [] {
      hide Inv, Step;
      StepInv(s0, actions[0]);
      RunInv(Step(s0, actions[0]), actions[1..], s);
    }
  }

  ghost predicate Reachable(s: State) {
    exists clock: Clock, actions :: Reaches(Init(clock), actions, s)
  }

  lemma ReachableInv(s: State)
    requires Reachable(s)
    ensures Inv(s)
  {
    hide Inv, Init;
    var clock: Clock, actions :| Reaches(Init(clock), actions, s);
    InitInv(clock);
    RunInv(Init(clock), actions, s);
  }

  /** No object is ever used after it was freed, and none is freed twice. */
  lemma NoUseAfterFree(s: State)
    requires Reachable(s)
    ensures !s.fault
  {
    ReachableInv(s);
  }

  /** That needs clients to outlive the calls of the message task, and no more: when one is destroyed,
      the next step of the message task uses it after it was freed exactly when the task is about to
      call it, having read the pointer, or is calling it. */
  lemma ReleaseFaultsIff(s: State, c: ClientId)
    requires Sound(s) && c in s.clients && s.clients[c].None? && !s.task.Idle?
    ensures TaskStep(Release(s, c)).fault <==> Calls(s.task, c)
  {
    hide Sound, TaskStep, Release;
    var s' := Release(s, c);
    ReleasedIsGone(s, c);
    if Calls(s.task, c) {
      GoneClientFaults(s', c);
    } else {
      ReleaseSound(s, c);
      TaskStepSound(s');
      SoundIsNoFault(TaskStep(s'));
    }
  }

  lemma SoundIsNoFault(s: State)
    requires Sound(s)
    ensures !s.fault
  {
  }

  lemma ReleasedIsGone(s: State, c: ClientId)
    ensures var s' := Release(s, c); c !in s'.clients && s'.task == s.task
  {
  }

  lemma GoneClientFaults(s: State, c: ClientId)
    requires c !in s.clients && Calls(s.task, c)
    ensures TaskStep(s).fault
  {
    hide StopTimer;
    StopTimerFaults(s, c);
  }

  lemma StopTimerFaults(s: State, c: ClientId)
    requires c !in s.clients
    ensures StopTimer(s, c) == (s.(fault := true), None)
  {
  }

  /** Nothing leaks: with no message under way and the message task idle, every delegate that is left
      is its client's pending timer, and is in its container's heap. */
  lemma NothingLeaks(s: State, id: nat)
    requires Reachable(s) && s.queue == [] && s.task.Idle? && id in s.delegates
    ensures var d := s.delegates[id];
            && d.owner in s.clients && s.clients[d.owner] == Some(id)
            && d.timer in s.At(d.kind).heap.Contents()
  {
    ReachableInv(s);
    hide Armed, Fates, Draining, Heaps, Ids, Locked, Tree.Contents;
    assert Attached(s.delegates[id]) && Somewhere(s, s.delegates[id]);
  }

  /** A delegate is detached exactly while its removal is on its way, its push comes before that,
      and when it is freed no heap and no message names it. */
  lemma DelegateLifetime(s: State)
    requires Reachable(s)
    ensures forall id | id in s.delegates ::
              var d := s.delegates[id];
              Detached(d) <==> MsgRemove(d.kind, d.timer) in s.queue || Removing(s.task) == Some(d.timer)
    ensures forall i, j | 0 <= i < |s.queue| && 0 <= j < |s.queue| && s.queue[i].MsgPush? && s.queue[j].MsgRemove?
                          && s.queue[i].timer == s.queue[j].timer :: i < j
    ensures s.task.Delete? ==>
              var t := s.task.timer;
              && t.id in s.delegates
              && t !in s.sw.heap.Contents() && t !in s.hw.heap.Contents()
              && forall m | m in s.queue && !m.MsgExpire? :: m.timer != t
  {
    ReachableInv(s);
    assert Linked(s) && Mail(s) && TaskSound(s) && Ids(s);
    hide Inv, Reachable, Linked, Mail, TaskSound, Ids, Names, Tree.Contents, Removing, Attached, Detached;
    forall id | id in s.delegates
      ensures var d := s.delegates[id];
              Detached(d) <==> MsgRemove(d.kind, d.timer) in s.queue || Removing(s.task) == Some(d.timer)
    {
      DetachedWhileRemoving(s, id);
    }
    PushBeforeRemoval(s);
    if s.task.Delete? {
      FreedWhenForgotten(s, s.task.timer);
    }
  }

  lemma DetachedWhileRemoving(s: State, id: nat)
    requires Ids(s) && Linked(s) && Mail(s) && TaskSound(s) && id in s.delegates
    ensures var d := s.delegates[id];
            Detached(d) <==> MsgRemove(d.kind, d.timer) in s.queue || Removing(s.task) == Some(d.timer)
  {
    hide Tree.Contents;
  }

  lemma PushBeforeRemoval(s: State)
    requires Mail(s)
    ensures forall i, j | 0 <= i < |s.queue| && 0 <= j < |s.queue| && s.queue[i].MsgPush? && s.queue[j].MsgRemove?
                          && s.queue[i].timer == s.queue[j].timer :: i < j
  {
  }

  lemma FreedWhenForgotten(s: State, t: Timer)
    requires Mail(s) && TaskSound(s) && s.task == Delete(t)
    ensures t.id in s.delegates && t !in s.sw.heap.Contents() && t !in s.hw.heap.Contents()
    ensures forall m | m in s.queue && !m.MsgExpire? :: m.timer != t
  {
    hide Tree.Contents, Mail;
    forall m | m in s.queue && !m.MsgExpire? ensures m.timer != t {
      assert m == MsgPush(m.kind, m.timer) || m == MsgRemove(m.kind, m.timer);
    }
  }

  /** A client's lock has one reference from the client while it lives and one from each of its
      live delegates, and it is freed when the last of them goes. */
  lemma LockCountsSharers(s: State, c: ClientId)
    requires Reachable(s)
    ensures if Sharers(s, c) == 0 then c !in s.locks else c in s.locks && s.locks[c] == Sharers(s, c)
  {
    ReachableInv(s);
    hide Armed, Tracked, Fates, Draining, Heaps, Linked, Mail, TaskSound, Ids;
    assert LockExact(s, c);
  }

  /** While a heap holds timers, its kernel timer is polled and armed for exactly the head's time,
      unless an expiry is raised or the message task is busy with this container. */
  lemma HeadIsWatched(s: State, k: Kind)
    requires Reachable(s)
    ensures s.At(k).heap.Node? ==>
              || (s.At(k).polled && s.At(k).armed == Some(s.At(k).heap.data.time))
              || Raised(s.poll, s.queue, k)
              || Working(s.task, k)
  {
    ReachableInv(s);
    hide Sound, Tracked, Fates, Draining;
    ArmedAt(s, k);
  }

  /** No pending timer is forgotten: it is about to enter its heap, or its expiry has begun, or it
      is in the heap, with a head due no later than itself that is being watched. */
  lemma NoTimerForgotten(s: State, c: ClientId)
    requires Reachable(s) && c in s.clients && s.clients[c].Some?
    ensures var id := s.clients[c].value;
            && id in s.delegates
            && var d := s.delegates[id];
               || MsgPush(d.kind, d.timer) in s.queue
               || Current(s.task) == Some(d.timer)
               || (&& d.timer in s.At(d.kind).heap.Contents()
                   && s.At(d.kind).heap.Node?
                   && s.At(d.kind).heap.data.time.Nanos() <= d.timer.time.Nanos()
                   && (|| (s.At(d.kind).polled && s.At(d.kind).armed == Some(s.At(d.kind).heap.data.time))
                       || Raised(s.poll, s.queue, d.kind)
                       || Working(s.task, d.kind)))
  {
    ReachableInv(s);
    var id := s.clients[c].value;
    assert id in s.delegates && Attached(s.delegates[id]);
    var d := s.delegates[id];
    assert Somewhere(s, d);
    if d.timer in s.At(d.kind).heap.Contents() {
      HeadIsWatched(s, d.kind);
      HeadIsEarliest(s, d.kind, d.timer);
    }
  }

  /** So once a pending timer in a heap is due, an expiry of that container is raised or in progress, or the
      poll thread can be woken for it as soon as it waits. */
  lemma DueTimerCanExpire(s: State, k: Kind, t: Timer)
    requires Reachable(s) && t in s.At(k).heap.Contents() && t.time.Nanos() <= s.clock.Nanos()
    ensures || Raised(s.poll, s.queue, k) || Working(s.task, k)
            || Enabled(s.(poll := Waiting), DoWake([k]))
  {
    hide Sound, Armed, Tracked, Fates, Draining, Reachable, Tree.Contents, Raised, Working;
    ReachableInv(s);
    HeadIsEarliest(s, k, t);
    HeadIsWatched(s, k);
  }

  lemma HeadIsEarliest(s: State, k: Kind, t: Timer)
    requires Sound(s) && t in s.At(k).heap.Contents()
    ensures s.At(k).heap.Node? && s.At(k).heap.data.time.Nanos() <= t.time.Nanos()
  {
    BothHeaps(s, k);
    hide Sound;
    var heap := s.At(k).heap;
    if heap.Node? {
      TopIsHighest(OutRanks, heap, t);
      OutRanksIsStrictWeak();
    }
  }

  // ---------- Starts, stops and callbacks ----------

  ghost function StartedBy(s: State, c: ClientId): set<nat> {
    set id | id in s.starter && s.starter[id] == c
  }

  /** Every start of a client was ended by exactly one of its stops, or by exactly one callback, or
      is the one still pending; so the numbers add up. */
  lemma StartsAreConserved(s: State, c: ClientId)
    requires Reachable(s)
    ensures s.stopped !! s.called
    ensures |StartedBy(s, c)| ==
            |StartedBy(s, c) * s.stopped| + |StartedBy(s, c) * s.called|
            + if c in s.clients && s.clients[c].Some? then 1 else 0
  {
    ReachableInv(s);
    assert Ids(s) && Linked(s) && Fates(s);
    hide Inv, Reachable, Ids, Linked, Fates, StartedBy;
    var pending := if c in s.clients && s.clients[c].Some? then {s.clients[c].value} else {};
    FatesPartition(s, c, pending);
    ThreeParts(StartedBy(s, c), s.stopped, s.called, pending);
  }

  lemma ThreeParts(started: set<nat>, stopped: set<nat>, called: set<nat>, pending: set<nat>)
    requires started == started * stopped + started * called + pending
    requires stopped !! called && pending !! stopped && pending !! called
    ensures |started| == |started * stopped| + |started * called| + |pending|
  {
    var ended := started * stopped + started * called;
    assert started * stopped !! started * called && ended !! pending && started == ended + pending;
  }

  lemma FatesPartition(s: State, c: ClientId, pending: set<nat>)
    requires Ids(s) && Linked(s) && Fates(s)
    requires pending == if c in s.clients && s.clients[c].Some? then {s.clients[c].value} else {}
    ensures var started := StartedBy(s, c);
            && started == started * s.stopped + started * s.called + pending
            && s.stopped !! s.called && pending !! s.stopped && pending !! s.called
  {
    forall id ensures id in StartedBy(s, c) && Pending(s, id) <==> id in pending {
    }
  }

  /** The timer a callback is for is the one that was popped exactly when its client has not
      stopped it since the message task read the client pointer. */
  lemma CallbackIsForPoppedTimer(s: State, e: Expiry, cur: Timer, c: ClientId)
    requires Reachable(s) && s.task == CallStop(e, cur, c)
    ensures StopTimer(s, c).1 == Some(cur.id) <==> cur.id in s.delegates && Attached(s.delegates[cur.id])
    ensures c in s.clients && StopTimer(s, c).1 == s.clients[c]
  {
    ReachableInv(s);
    SoundFacts(s);
    LiveLock(s, c);
    hide Armed, Tracked, Draining, Fates, Heaps, Mail, Locked;
  }

  // ---------- Expiry ----------

  /** An expiry takes timers out in the order of their times; every one after the first is due by
      its clock reading, and when it is over nothing due is left. What it took out is exactly the
      due timers if and only if the head it found was due. */
  lemma ExpiryTakesDueTimers(s: State, e: Expiry)
    requires Reachable(s) && s.task == PopNext(e)
    requires s.At(e.kind).heap.Empty? || OutRanks(TimerOfNow(e.now), s.At(e.kind).heap.data)
    ensures e.start.Node? && e.popped != [] && e.popped[0] == e.start.data
    ensures multiset(e.popped) + s.At(e.kind).heap.Contents() == e.start.Contents()
    ensures forall i, j | 0 <= i < j < |e.popped| :: e.popped[i].time.Nanos() <= e.popped[j].time.Nanos()
    ensures forall i | 0 < i < |e.popped| :: e.popped[i].time.Nanos() <= e.now.Nanos()
    ensures forall t: Timer | t in s.At(e.kind).heap.Contents() :: e.now.Nanos() < t.time.Nanos()
    ensures (forall i | 0 <= i < |e.popped| :: e.popped[i].time.Nanos() <= e.now.Nanos())
            <==> e.start.data.time.Nanos() <= e.now.Nanos()
  {
    hide *;
    ExpiryIsADrain(s, e);
    DrainTakesDueTimers(e, s.At(e.kind).heap);
  }

  /** The same of the drain of any heap. */
  lemma DrainTakesDueTimers(e: Expiry, heap: Tree<Timer>)
    requires IsHeap(OutRanks, e.start) && e.start.Node?
    requires Drain(OutRanks, e.start, TimerOfNow(e.now)) == (e.popped, heap)
    ensures e.popped != [] && e.popped[0] == e.start.data
    ensures multiset(e.popped) + heap.Contents() == e.start.Contents()
    ensures forall i, j | 0 <= i < j < |e.popped| :: e.popped[i].time.Nanos() <= e.popped[j].time.Nanos()
    ensures forall i | 0 < i < |e.popped| :: e.popped[i].time.Nanos() <= e.now.Nanos()
    ensures forall t: Timer | t in heap.Contents() :: e.now.Nanos() < t.time.Nanos()
    ensures (forall i | 0 <= i < |e.popped| :: e.popped[i].time.Nanos() <= e.now.Nanos())
            <==> e.start.data.time.Nanos() <= e.now.Nanos()
  {
    hide IsHeap, Drain, OutRanks, Tree.Contents;
    DrainIsExact(OutRanks, e.start, TimerOfNow(e.now));
    PoppedInTimeOrder(e.popped);
    PoppedAreDue(e.popped[1..], e.now);
    LeftAreLater(heap.Contents(), e.now);
    assert forall i | 0 < i < |e.popped| :: e.popped[i] == e.popped[1..][i - 1];
    OutRanksIsStrictWeak();
  }

  lemma PoppedInTimeOrder(popped: seq<Timer>)
    requires InOrder(OutRanks, popped)
    ensures forall i, j | 0 <= i < j < |popped| :: popped[i].time.Nanos() <= popped[j].time.Nanos()
  {
    hide OutRanks;
    OutRanksIsStrictWeak();
  }

  lemma PoppedAreDue(popped: seq<Timer>, now: Clock)
    requires AllDue(OutRanks, popped, TimerOfNow(now))
    ensures forall i | 0 <= i < |popped| :: popped[i].time.Nanos() <= now.Nanos()
  {
    hide OutRanks;
    OutRanksIsStrictWeak();
  }

  lemma LeftAreLater(bag: multiset<Timer>, now: Clock)
    requires NoneDue(OutRanks, bag, TimerOfNow(now))
    ensures forall t: Timer | t in bag :: now.Nanos() < t.time.Nanos()
  {
    hide OutRanks;
    OutRanksIsStrictWeak();
  }

  lemma ExpiryIsADrain(s: State, e: Expiry)
    requires Reachable(s) && s.task == PopNext(e)
    requires s.At(e.kind).heap.Empty? || OutRanks(TimerOfNow(e.now), s.At(e.kind).heap.data)
    ensures IsHeap(OutRanks, e.start) && e.start.Node?
    ensures Drain(OutRanks, e.start, TimerOfNow(e.now)) == (e.popped, s.At(e.kind).heap)
  {
    ReachableInv(s);
    hide Reachable, Sound, Armed, Tracked, Fates, IsHeap, Drain;
    assert DrainSoFar(e, s.At(e.kind).heap);
    assert e.popped + [] == e.popped;
  }
}
