/** What every reachable state of the timer service satisfies, part two: no pending timer is
    forgotten. It is on its way to the heap, or in a heap whose head the kernel timer is armed for
    (or is about to be), or just popped. */
module TimerArming {
  import opened TimeSpecs
  import opened HeapModel
  import opened HeapRuns
  import opened TimerContainers
  import opened TimerProtocol
  import opened TimerSafety

  /** An expiry of this container is being raised by the poll thread, or waits in the queue. */
  predicate Raised(poll: PollPc, queue: seq<Msg>, k: Kind) {
    (poll.Expiring? && k in poll.todo) || MsgExpire(k) in queue
  }

  /** The message task is expiring this container's timers, or re-arming its kernel timer. */
  predicate Working(task: TaskPc, k: Kind) {
    match task
    case AddPoll(k', _, _) => k' == k
    case SetTime(k', _, _) => k' == k
    case ReadClient(e, _) => e.kind == k
    case CallStop(e, _, _) => e.kind == k
    case CallBack(e, _) => e.kind == k
    case PopNext(e) => e.kind == k
    case _ => false
  }

  ghost predicate Watched(s: State, k: Kind, c: Container) {
    c.InStep() || Raised(s.poll, s.queue, k) || Working(s.task, k)
  }

  /** While updateSoonestTime runs it arms for the head it saw, on a descriptor that is polled. */
  ghost predicate Arming(s: State) {
    && (s.task.AddPoll? ==>
          s.At(s.task.kind).heap.Node? && s.At(s.task.kind).heap.data.time == s.task.time)
    && (s.task.SetTime? ==>
          && s.At(s.task.kind).heap.Node? && s.At(s.task.kind).heap.data.time == s.task.time
          && (s.At(s.task.kind).polled || Raised(s.poll, s.queue, s.task.kind)))
  }

  ghost predicate Armed(s: State) {
    Watched(s, false, s.sw) && Watched(s, true, s.hw) && Arming(s)
  }

  lemma ArmedFromBoth(s: State, k: Kind)
    requires Watched(s, k, s.At(k)) && Watched(s, !k, s.At(!k)) && Arming(s)
    ensures Armed(s)
  {
    hide Watched, Arming;
  }

  lemma ArmedAt(s: State, k: Kind)
    requires Armed(s)
    ensures Watched(s, k, s.At(k)) && Arming(s)
  {
    hide Watched, Arming;
  }

  /** Steps that touch neither container nor task, and lose no raised expiry. */
  lemma StillArmed(s: State, s': State)
    requires Armed(s) && s'.sw == s.sw && s'.hw == s.hw && s'.task == s.task
    requires forall k :: Raised(s.poll, s.queue, k) ==> Raised(s'.poll, s'.queue, k)
    ensures Armed(s')
  {
    hide Raised, Container.InStep;
  }

  lemma ClientsKeepRaised(s: State, c: ClientId)
    ensures var s' := StopTimer(s, c).0;
            && s'.sw == s.sw && s'.hw == s.hw && s'.task == s.task
            && forall k :: Raised(s.poll, s.queue, k) ==> Raised(s'.poll, s'.queue, k)
  {
  }

  lemma StartArmed(s: State, c: ClientId, ms: int, k: Kind)
    requires Armed(s) && Enabled(s, DoStart(c, ms, k))
    ensures Armed(Start(s, c, ms, k))
  {
    hide FutureTime, InWindow, Armed;
    StillArmed(s, Start(s, c, ms, k));
  }

  lemma ClientArmed(s: State, a: Action)
    requires Armed(s) && Enabled(s, a)
    requires a.DoNewClient? || a.DoStart? || a.DoStop? || a.DoRelease? || a.DoTick? || a.DoWake?
    ensures Armed(Step(s, a))
  {
    hide Armed, Start, StopTimer;
    if a.DoStart? {
      StartArmed(s, a.c, a.timeOutInMs, a.k);
    } else {
      if a.DoStop? {
        ClientsKeepRaised(s, a.c);
      }
      StillArmed(s, Step(s, a));
    }
  }

  lemma WithKeepsQueue(s: State, k: Kind, c: Container)
    ensures s.With(k, c).queue == s.queue
  {
  }

  /** What the poll thread has left to do after a step, and what it has sent. */
  lemma PollStepSends(s: State)
    requires Enabled(s, DoPollStep)
    ensures var s', rest := PollStep(s), s.poll.todo[1..];
            if s.poll.stage.SendExpire? then
              && s'.queue == s.queue + [MsgExpire(s.poll.todo[0])]
              && s'.poll == if rest == [] then Waiting else Expiring(rest, DisarmTimer)
            else s'.queue == s.queue && s'.poll.Expiring? && s'.poll.todo == s.poll.todo
  {
    hide State.With, State.At;
    match s.poll.stage
    case DisarmTimer => WithKeepsQueue(s, s.poll.todo[0], s.At(s.poll.todo[0]).(armed := None));
    case RemovePoll => WithKeepsQueue(s, s.poll.todo[0], s.At(s.poll.todo[0]).(polled := false));
    case SendExpire =>
  }

  /** The thread's three actions keep the container's expiry raised: first by being on its list,
      in the end by the message. */
  lemma PollStepRaised(s: State, k: Kind)
    requires Enabled(s, DoPollStep)
    ensures Raised(PollStep(s).poll, PollStep(s).queue, s.poll.todo[0])
    ensures Raised(s.poll, s.queue, k) ==> Raised(PollStep(s).poll, PollStep(s).queue, k)
  {
    hide PollStep;
    PollStepSends(s);
    assert s.poll.todo == [s.poll.todo[0]] + s.poll.todo[1..];
  }

  lemma PollStepArmed(s: State)
    requires Armed(s) && Enabled(s, DoPollStep)
    ensures Armed(PollStep(s))
  {
    hide Raised, Container.InStep, Armed, PollStep;
    var k := s.poll.todo[0];
    PollStepRaised(s, k);
    PollStepRaised(s, !k);
    PollStepFrame(s);
    ArmedAt(s, k);
    ArmedAt(s, !k);
    ArmedFromBoth(PollStep(s), k);
  }

  // ---------- The message task ----------

  /** The message task goes to work on a container, or leaves it watched; the other is not touched. */
  lemma WorkingArmed(s: State, s': State, k: Kind)
    requires Armed(s) && !Working(s.task, !k) && s'.At(!k) == s.At(!k)
    requires Raised(s.poll, s.queue, !k) ==> Raised(s'.poll, s'.queue, !k)
    requires (Working(s'.task, k) || Watched(s', k, s'.At(k))) && Arming(s')
    ensures Armed(s')
  {
    hide Raised, Container.InStep, Armed, Arming;
    ArmedAt(s, !k);
    ArmedFromBoth(s', k);
  }

  /** Taking a message that is no expiry, or is another container's, loses no raised expiry. */
  lemma TailRaised(s: State, s': State, k: Kind)
    requires s.queue != [] && s'.queue == s.queue[1..] && s'.poll == s.poll
    ensures Raised(s.poll, s.queue, k) && s.queue[0] != MsgExpire(k) ==> Raised(s'.poll, s'.queue, k)
  {
    assert s.queue == [s.queue[0]] + s'.queue;
  }

  lemma ReceivePushArmed(s: State, k: Kind, t: Timer)
    requires Armed(s) && s.task.Idle? && s.queue != [] && s.queue[0] == MsgPush(k, t)
    requires IsHeap(OutRanks, s.At(k).heap)
    ensures Armed(ReceivePush(s.(queue := s.queue[1..]), k, t))
  {
    hide IsHeap, Push, NeededUpdate, OutRanks, Raised, Tree.Contents;
    var s' := ReceivePush(s.(queue := s.queue[1..]), k, t);
    var heap := s.At(k).heap;
    UpdatesNeverDisarm(s.At(k), t, heap);
    PushIsHeap(OutRanks, heap, t);
    TailRaised(s, s', k);
    TailRaised(s, s', !k);
  }

  /** A removal looks at the kernel timer exactly when the head may have changed. */
  lemma RemovedHead(k: Kind, heap: Tree<Timer>, t: Timer)
    requires IsHeap(OutRanks, heap)
    ensures var (found, heap') := Remove(OutRanks, heap, t);
            if Top(heap) == (if found then Some(t) else None) then
              UpdatePc(k, heap', None, Some(t)) ==
                if heap'.Empty? then Delete(t) else AddPoll(k, heap'.data.time, Some(t))
            else
              heap.Node? && heap'.Node? && heap'.data == heap.data
    ensures !Working(Delete(t), k) && (heap.Empty? ==> Remove(OutRanks, heap, t) == (false, heap))
  {
    hide IsHeap, Remove, OutRanks, Tree.Contents;
    RemoveIsComplete(OutRanks, heap, t);
    EmptyContents<Timer>();
  }

  lemma ReceiveRemoveArmed(s: State, k: Kind, t: Timer)
    requires Armed(s) && s.task.Idle? && s.queue != [] && s.queue[0] == MsgRemove(k, t)
    requires IsHeap(OutRanks, s.At(k).heap)
    ensures Armed(ReceiveRemove(s.(queue := s.queue[1..]), k, t))
  {
    hide IsHeap, Remove, Raised, Tree.Contents, Armed, UpdatePc;
    var s' := ReceiveRemove(s.(queue := s.queue[1..]), k, t);
    RemovedHead(k, s.At(k).heap, t);
    assert Watched(s', k, s'.At(k)) && Watched(s', !k, s'.At(!k)) by {
      TailRaised(s, s', k);
      TailRaised(s, s', !k);
      ArmedAt(s, k);
      ArmedAt(s, !k);
    }
    hide Watched;
    assert Arming(s');
    ArmedFromBoth(s', k);
  }

  /** At the end of an expiry the message task re-arms for the head, or there is none. */
  lemma UpdateArming(s: State, k: Kind)
    ensures var heap := s.At(k).heap;
            var pc := UpdatePc(k, heap, None, None);
            if heap.Empty? then pc.Idle? && s.At(k).InStep() else pc == AddPoll(k, heap.data.time, None)
  {
    hide OutRanks;
  }

  lemma PollIsKept(s: State, k: Kind)
    ensures var s' := ReceiveExpire(s, k); s'.poll == s.poll && s'.queue == s.queue
  {
    hide PopTop, UpdatePc;
    if s.At(k).heap.Node? {
      PopTopFrame(s, Expiry(k, s.clock, s.At(k).heap, []));
      PopTopKeepsPoll(s, Expiry(k, s.clock, s.At(k).heap, []));
    }
  }

  lemma ReceiveExpireArmed(s: State, k: Kind)
    requires Armed(s) && s.task.Idle? && s.queue != [] && s.queue[0] == MsgExpire(k)
    ensures Armed(ReceiveExpire(s.(queue := s.queue[1..]), k))
  {
    hide Raised, Armed, UpdatePc, PopTop, Container.InStep;
    var s0 := s.(queue := s.queue[1..]);
    var s' := ReceiveExpire(s0, k);
    PollIsKept(s0, k);
    TailRaised(s, s', !k);
    UpdateArming(s0, k);
    if s.At(k).heap.Node? {
      PopTopFrame(s0, Expiry(k, s.clock, s.At(k).heap, []));
    }
    WorkingArmed(s, s', k);
  }

  lemma ReceiveArmed(s: State)
    requires Sound(s) && Armed(s) && Enabled(s, DoReceive)
    ensures Armed(Receive(s))
  {
    hide Armed, ReceivePush, ReceiveRemove, ReceiveExpire, HeapAlive, Ids, Linked, Locked, Mail, TaskSound;
    hide IsHeap, Tree.Contents;
    SoundFacts(s);
    match s.queue[0]
    case MsgPush(k, t) => ReceivePushArmed(s, k, t);
    case MsgRemove(k, t) => ReceiveRemoveArmed(s, k, t);
    case MsgExpire(k) => ReceiveExpireArmed(s, k);
  }

  lemma PopNextArmed(s: State, e: Expiry)
    requires Armed(s) && s.task == PopNext(e) && HeapAlive(s, e.kind)
    ensures Armed(PopNextStep(s, e))
  {
    hide Raised, Armed, OutRanks, HeapAlive, UpdatePc, PopTop, Container.InStep;
    UpdateArming(s, e.kind);
    if s.At(e.kind).heap.Node? {
      PopTopFrame(s, e);
      PopTopKeepsPoll(s, e);
    }
    WorkingArmed(s, PopNextStep(s, e), e.kind);
  }

  lemma PopTopKeepsPoll(s: State, e: Expiry)
    requires s.At(e.kind).heap.Node?
    ensures PopTop(s, e).poll == s.poll
  {
    hide Pop;
  }

  lemma CallStopKeeps(s: State, e: Expiry, c: ClientId)
    ensures var s1, s' := StopTimer(s, c).0, CallStopStep(s, e, c);
            && s' == s1.(task := s'.task, called := s'.called)
            && (s'.task == PopNext(e) || s'.task == CallBack(e, c))
  {
    hide StopTimer;
  }

  lemma StopKeepsPoll(s: State, c: ClientId)
    ensures StopTimer(s, c).0.poll == s.poll
  {
  }

  lemma CallStopArmed(s: State, e: Expiry, cur: Timer, c: ClientId)
    requires Armed(s) && s.task == CallStop(e, cur, c)
    ensures Armed(CallStopStep(s, e, c))
  {
    hide StopTimer, CallStopStep, Raised, Container.InStep, Armed;
    ClientsKeepRaised(s, c);
    CallStopKeeps(s, e, c);
    StopKeepsPoll(s, c);
    WorkingArmed(s, CallStopStep(s, e, c), e.kind);
  }

  lemma DeleteArmed(s: State, t: Timer)
    requires Armed(s) && s.task == Delete(t)
    ensures Armed(DeleteDelegate(s, t))
  {
  }

  lemma AddPollArmed(s: State, k: Kind, time: TimeSpec, free: Option<Timer>)
    requires Armed(s) && s.task == AddPoll(k, time, free)
    ensures Armed(TaskStep(s))
  {
    hide Raised, Armed, Container.InStep;
    ArmedAt(s, k);
    ArmedAt(s, !k);
    ArmedFromBoth(TaskStep(s), k);
  }

  /** The kernel timer is in step again, unless another expiry has been raised meanwhile. */
  lemma SetTimeArmed(s: State, k: Kind, time: TimeSpec, free: Option<Timer>)
    requires Armed(s) && s.task == SetTime(k, time, free)
    ensures Armed(TaskStep(s))
  {
    hide Raised, Armed;
    ArmedAt(s, k);
    ArmedAt(s, !k);
    ArmedFromBoth(TaskStep(s), k);
  }

  lemma ExpiryGoesOn(s: State, s': State, e: Expiry)
    requires Armed(s) && (s.task.ReadClient? || s.task.CallBack?) && s.task.e == e
    requires s' == s.(task := s'.task)
    requires (s'.task.PopNext? || s'.task.CallStop?) && s'.task.e == e
    ensures Armed(s')
  {
    hide Raised, Container.InStep;
  }

  lemma TaskStepArmed(s: State)
    requires Sound(s) && Armed(s) && Enabled(s, DoTaskStep)
    ensures Armed(TaskStep(s))
  {
    hide Sound, Armed, PopNextStep, CallStopStep, DeleteDelegate, HeapAlive;
    SoundFacts(s);
    match s.task
    case AddPoll(k, time, free) => AddPollArmed(s, k, time, free);
    case SetTime(k, time, free) => SetTimeArmed(s, k, time, free);
    case Delete(t) => DeleteArmed(s, t);
    case ReadClient(e, cur) => ExpiryGoesOn(s, TaskStep(s), e);
    case CallStop(e, cur, c) => CallStopArmed(s, e, cur, c);
    case CallBack(e, c) => ExpiryGoesOn(s, TaskStep(s), e);
    case PopNext(e) => PopNextArmed(s, e);
  }

  lemma StepArmed(s: State, a: Action)
    requires Sound(s) && Armed(s) && Enabled(s, a)
    ensures Armed(Step(s, a))
  {
    hide Sound, Armed, NewClient, Start, Stop, Release, PollStep, Receive, TaskStep;
    match a
    case DoPollStep => PollStepArmed(s);
    case DoReceive => ReceiveArmed(s);
    case DoTaskStep => TaskStepArmed(s);
    case _ => ClientArmed(s, a);
  }
}