/** What every reachable state of the timer service satisfies, part three: where each pending timer
    is, what became of each timer that was ever started, and what an expiry has popped so far. */
module TimerHistory {
  import opened TimeSpecs
  import opened HeapModel
  import opened HeapRuns
  import opened TimerContainers
  import opened TimerProtocol
  import opened TimerSafety

  // ---------- Pending timers are somewhere ----------

  /** The popped timer whose client has not been called yet. */
  function Current(task: TaskPc): Option<Timer> {
    match task
    case ReadClient(_, cur) => Some(cur)
    case CallStop(_, cur, _) => Some(cur)
    case _ => None
  }

  ghost predicate Somewhere(s: State, d: Delegate) {
    || MsgPush(d.kind, d.timer) in s.queue
    || d.timer in s.At(d.kind).heap.Contents()
    || Current(s.task) == Some(d.timer)
  }

  /** A delegate that has not been stopped is on its way to the heap, in it, or being expired. */
  ghost predicate Tracked(s: State) {
    forall id | id in s.delegates && Attached(s.delegates[id]) :: Somewhere(s, s.delegates[id])
  }

  /** No delegate becomes pending again, and none that was loses its place. */
  lemma TrackedStays(s: State, s': State)
    requires Tracked(s)
    requires forall id | id in s'.delegates && Attached(s'.delegates[id]) ::
               || Somewhere(s', s'.delegates[id])
               || (id in s.delegates && s'.delegates[id] == s.delegates[id]
                   && (Somewhere(s, s.delegates[id]) ==> Somewhere(s', s.delegates[id])))
    ensures Tracked(s')
  {
    hide Somewhere;
  }

  lemma QueueGrows(s: State, s': State, d: Delegate)
    requires SameHeaps(s, s') && Current(s'.task) == Current(s.task)
    requires forall m | m in s.queue :: m in s'.queue
    ensures Somewhere(s, d) ==> Somewhere(s', d)
  {
    hide Tree.Contents;
  }

  lemma StartTracked(s: State, c: ClientId, ms: int, k: Kind)
    requires Sound(s) && Tracked(s) && Enabled(s, DoStart(c, ms, k))
    ensures Tracked(Start(s, c, ms, k))
  {
    hide Mail, Heaps, TaskSound, FutureTime, InWindow, Linked, Locked, Tree.Contents;
    var s' := Start(s, c, ms, k);
    forall d: Delegate ensures Somewhere(s, d) ==> Somewhere(s', d) {
      QueueGrows(s, s', d);
    }
    hide Tracked;
    TrackedStays(s, s');
  }

  /** What a stop does to delegates and queue, whether it wins or not. */
  lemma StopTimerKeeps(s: State, c: ClientId)
    ensures var s' := StopTimer(s, c).0;
            && SameHeaps(s, s') && s'.task == s.task && (forall m | m in s.queue :: m in s'.queue)
            && (forall id | id in s'.delegates && Attached(s'.delegates[id]) ::
                  id in s.delegates && s'.delegates[id] == s.delegates[id])
  {
  }

  lemma StopTimerTracked(s: State, c: ClientId)
    requires Tracked(s)
    ensures Tracked(StopTimer(s, c).0)
  {
    hide Tree.Contents, StopTimer, Tracked;
    var s' := StopTimer(s, c).0;
    StopTimerKeeps(s, c);
    forall d: Delegate ensures Somewhere(s, d) ==> Somewhere(s', d) {
      QueueGrows(s, s', d);
    }
    hide Somewhere;
    TrackedStays(s, s');
  }

  /** Steps that leave delegates and heaps alone, lose no push and keep the popped timer. */
  lemma SameTracked(s: State, s': State)
    requires Tracked(s) && SameHeaps(s, s') && Current(s'.task) == Current(s.task)
    requires s'.delegates == s.delegates && forall m | m in s.queue :: m in s'.queue
    ensures Tracked(s')
  {
    forall d: Delegate ensures Somewhere(s, d) ==> Somewhere(s', d) {
      QueueGrows(s, s', d);
    }
    hide Somewhere;
    TrackedStays(s, s');
  }

  lemma ReceivePushTracked(s: State, k: Kind, t: Timer)
    requires Tracked(s) && s.task.Idle? && s.queue != [] && s.queue[0] == MsgPush(k, t)
    requires IsHeap(OutRanks, s.At(k).heap)
    ensures Tracked(ReceivePush(s.(queue := s.queue[1..]), k, t))
  {
    hide Tree.Contents, IsHeap, Push, UpdatePc;
    var s' := ReceivePush(s.(queue := s.queue[1..]), k, t);
    PushIsHeap(OutRanks, s.At(k).heap, t);
    assert s.queue == [s.queue[0]] + s'.queue;
    forall d: Delegate ensures Somewhere(s, d) ==> Somewhere(s', d) {
    }
    hide Somewhere;
    TrackedStays(s, s');
  }

  lemma ReceiveRemoveTracked(s: State, k: Kind, t: Timer)
    requires Tracked(s) && s.task.Idle? && s.queue != [] && s.queue[0] == MsgRemove(k, t)
    requires IsHeap(OutRanks, s.At(k).heap)
    requires t.id in s.delegates && s.delegates[t.id].timer == t && Detached(s.delegates[t.id])
    requires forall id | id in s.delegates :: s.delegates[id].timer.id == id
    ensures Tracked(ReceiveRemove(s.(queue := s.queue[1..]), k, t))
  {
    hide Tree.Contents, IsHeap, Remove, UpdatePc;
    var s' := ReceiveRemove(s.(queue := s.queue[1..]), k, t);
    RemoveIsComplete(OutRanks, s.At(k).heap, t);
    assert s.queue == [s.queue[0]] + s'.queue;
    forall d: Delegate | d.timer != t ensures Somewhere(s, d) ==> Somewhere(s', d) {
    }
    hide Somewhere;
    TrackedStays(s, s');
  }

  lemma PopTopTracked(s: State, s0: State, e: Expiry)
    requires Tracked(s) && Current(s.task).None? && s0.At(e.kind).heap.Node?
    requires IsHeap(OutRanks, s0.At(e.kind).heap)
    requires s0 == s || (s.queue != [] && s.queue[0].MsgExpire? && s0 == s.(queue := s.queue[1..]))
    ensures Tracked(PopTop(s0, e))
  {
    hide Tree.Contents, IsHeap, Pop;
    var s' := PopTop(s0, e);
    DrainStep(OutRanks, s0.At(e.kind).heap);
    assert s0 != s ==> s.queue == [s.queue[0]] + s'.queue;
    forall d: Delegate ensures Somewhere(s, d) ==> Somewhere(s', d) {
    }
    hide Somewhere;
    TrackedStays(s, s');
  }

  lemma ReceiveExpireTracked(s: State, k: Kind)
    requires Tracked(s) && s.task.Idle? && s.queue != [] && s.queue[0] == MsgExpire(k)
    requires IsHeap(OutRanks, s.At(k).heap)
    ensures Tracked(ReceiveExpire(s.(queue := s.queue[1..]), k))
  {
    var s0 := s.(queue := s.queue[1..]);
    var heap := s.At(k).heap;
    if heap.Empty? {
      var s' := s0.(task := UpdatePc(k, heap, None, None));
      assert s.queue == [s.queue[0]] + s'.queue;
      forall d: Delegate ensures Somewhere(s, d) ==> Somewhere(s', d) {
      }
      hide Somewhere;
      TrackedStays(s, s');
    } else {
      hide PopTop, Tracked, IsHeap;
      PopTopTracked(s, s0, Expiry(k, s.clock, heap, []));
    }
  }

  lemma BothHeaps(s: State, k: Kind)
    requires Heaps(s)
    ensures IsHeap(OutRanks, s.At(k).heap)
  {
    hide IsHeap, Tree.Contents;
  }

  lemma ReceiveTracked(s: State)
    requires Sound(s) && Tracked(s) && Enabled(s, DoReceive)
    ensures Tracked(Receive(s))
  {
    hide Tracked, ReceivePush, ReceiveRemove, ReceiveExpire, HeapAlive, Linked, Locked, Mail, TaskSound, IsHeap, Heaps;
    SoundFacts(s);
    BothHeaps(s, s.queue[0].kind);
    match s.queue[0]
    case MsgPush(k, t) => ReceivePushTracked(s, k, t);
    case MsgRemove(k, t) =>
      NextRemove(s, k, t);
      ReceiveRemoveTracked(s, k, t);
    case MsgExpire(k) => ReceiveExpireTracked(s, k);
  }

  lemma ReadClientTracked(s: State, e: Expiry, cur: Timer)
    requires Sound(s) && Tracked(s) && s.task == ReadClient(e, cur)
    ensures Tracked(ReadClientStep(s, e, cur))
  {
    hide Mail, Heaps, Linked, Locked, Tree.Contents;
    var s' := ReadClientStep(s, e, cur);
    if s.delegates[cur.id].client.Some? {
      SameTracked(s, s');
    } else {
      forall d: Delegate | d.timer != cur ensures Somewhere(s, d) ==> Somewhere(s', d) {
      }
      hide Somewhere;
      TrackedStays(s, s');
    }
  }

  /** When stop() comes back, the popped timer is not pending any more, whoever stopped it. */
  lemma CallStopTracked(s: State, e: Expiry, cur: Timer, c: ClientId)
    requires Sound(s) && Tracked(s) && s.task == CallStop(e, cur, c)
    ensures Tracked(CallStopStep(s, e, c))
  {
    hide Sound, StopTimer, Tree.Contents, Tracked;
    StopTimerTracked(s, c);
    StoppedIsNotPending(s, e, cur, c);
    StopTimerFrame(s, c);
    CurrentIsDone(StopTimer(s, c).0, CallStopStep(s, e, c), cur);
  }

  lemma CurrentIsDone(s: State, s': State, cur: Timer)
    requires Tracked(s) && Current(s.task) == Some(cur) && Current(s'.task).None?
    requires SameHeaps(s, s') && s'.queue == s.queue && s'.delegates == s.delegates
    requires forall id | id in s.delegates && Attached(s.delegates[id]) :: s.delegates[id].timer != cur
    ensures Tracked(s')
  {
    hide Tree.Contents, Tracked;
    forall d: Delegate | d.timer != cur ensures Somewhere(s, d) ==> Somewhere(s', d) {
    }
    hide Somewhere;
    TrackedStays(s, s');
  }

  lemma StoppedIsNotPending(s: State, e: Expiry, cur: Timer, c: ClientId)
    requires Sound(s) && s.task == CallStop(e, cur, c)
    ensures var s1 := StopTimer(s, c).0;
            forall id | id in s1.delegates && Attached(s1.delegates[id]) :: s1.delegates[id].timer != cur
  {
    hide Mail, Heaps, Locked, Linked, Tree.Contents;
    var s1 := StopTimer(s, c).0;
    CurIsDetached(s, cur, c);
    hide StopTimer;
    StopTimerKeeps(s, c);
    forall id | id in s1.delegates && Attached(s1.delegates[id]) ensures s1.delegates[id].timer != cur {
      assert s.delegates[id].timer.id == id;
    }
  }

  /** Stopping the client of a popped delegate detaches that delegate, unless it is detached already. */
  lemma CurIsDetached(s: State, cur: Timer, c: ClientId)
    requires Linked(s) && Locked(s) && c in s.clients
    requires cur.id in s.delegates && s.delegates[cur.id].owner == c
    ensures var s1 := StopTimer(s, c).0; cur.id in s1.delegates ==> !Attached(s1.delegates[cur.id])
  {
    LiveLock(s, c);
    hide Locked;
    if s.clients[c].Some? {
      var id := Stopped(s, c);
    }
  }

  lemma UpdateTracked(s: State, k: Kind, heap: Tree<Timer>)
    requires Tracked(s) && Current(s.task) == None
    ensures Tracked(s.(task := UpdatePc(k, heap, None, None)))
  {
    var pc := UpdatePc(k, heap, None, None);
    assert Current(pc) == None;
    hide UpdatePc, Current, Tracked;
    SameTracked(s, s.(task := pc));
  }

  lemma PopNextTracked(s: State, e: Expiry)
    requires Sound(s) && Tracked(s) && s.task == PopNext(e)
    ensures Tracked(PopNextStep(s, e))
  {
    assert HeapAlive(s, e.kind) by {
      SoundFacts(s);
    }
    assert IsHeap(OutRanks, s.At(e.kind).heap) by {
      BothHeaps(s, e.kind);
    }
    hide Sound, PopTop, HeapAlive, OutRanks, Tracked, IsHeap, UpdatePc;
    var heap := s.At(e.kind).heap;
    if heap.Node? && !OutRanks(TimerOfNow(e.now), heap.data) {
      PopTopTracked(s, s, e);
    } else {
      UpdateTracked(s, e.kind, heap);
    }
  }

  lemma DeleteTracked(s: State, t: Timer)
    requires Tracked(s) && s.task == Delete(t)
    ensures Tracked(DeleteDelegate(s, t))
  {
    hide Tree.Contents;
  }

  lemma QuietTracked(s: State)
    requires Tracked(s) && Quiet(s)
    ensures Tracked(TaskStep(s))
  {
    hide TaskStep, Tracked;
    QuietStep(s);
    SameTracked(s, TaskStep(s));
  }

  lemma TaskStepTracked(s: State)
    requires Sound(s) && Tracked(s) && Enabled(s, DoTaskStep)
    ensures Tracked(TaskStep(s))
  {
    hide Sound, Tracked, TaskStep, DeleteDelegate, ReadClientStep, CallStopStep, PopNextStep;
    TaskStepIs(s);
    SoundFacts(s);
    match s.task
    case Delete(t) => DeleteTracked(s, t);
    case ReadClient(e, cur) => ReadClientTracked(s, e, cur);
    case CallStop(e, cur, c) => CallStopTracked(s, e, cur, c);
    case PopNext(e) => PopNextTracked(s, e);
    case CallBack(_, _) => QuietTracked(s);
    case AddPoll(_, _, _) => QuietTracked(s);
    case SetTime(_, _, _) => QuietTracked(s);
  }

  lemma PollStepTracked(s: State)
    requires Tracked(s) && Enabled(s, DoPollStep)
    ensures Tracked(PollStep(s))
  {
    hide Tracked, PollStep;
    PollStepFrame(s);
    SameTracked(s, PollStep(s));
  }

  lemma ReleaseTracked(s: State, c: ClientId)
    requires Tracked(s)
    ensures Tracked(Release(s, c))
  {
    hide Tracked;
    SameTracked(s, Release(s, c));
  }

  lemma StepTracked(s: State, a: Action)
    requires Sound(s) && Tracked(s) && Enabled(s, a)
    ensures Tracked(Step(s, a))
  {
    hide Sound, Tracked, Start, StopTimer, Release, PollStep, Receive, TaskStep;
    match a
    case DoStart(c, ms, k) => StartTracked(s, c, ms, k);
    case DoStop(c) =>
      StopTimerTracked(s, c);
      SameTracked(StopTimer(s, c).0, Stop(s, c));
    case DoRelease(c) => ReleaseTracked(s, c);
    case DoPollStep => PollStepTracked(s);
    case DoReceive => ReceiveTracked(s);
    case DoTaskStep => TaskStepTracked(s);
    case _ => SameTracked(s, Step(s, a));
  }

  // ---------- What became of every timer ----------

  predicate Pending(s: State, id: nat)
    requires id in s.starter
  {
    s.starter[id] in s.clients && s.clients[s.starter[id]] == Some(id)
  }

  predicate OneFate(pending: bool, stopped: bool, called: bool) {
    (pending && !stopped && !called) || (!pending && stopped && !called) || (!pending && !stopped && called)
  }

  /** Every timer ever started is pending, was stopped by its client, or led to a callback, and
      only one of the three. */
  ghost predicate Fates(s: State) {
    && (forall id | id in s.stopped :: id in s.starter)
    && (forall id | id in s.called :: id in s.starter)
    && (forall id | id in s.starter :: OneFate(Pending(s, id), id in s.stopped, id in s.called))
  }

  lemma SameFates(s: State, s': State)
    requires Fates(s)
    requires s'.starter == s.starter && s'.stopped == s.stopped && s'.called == s.called
    requires forall id | id in s.starter :: Pending(s, id) == Pending(s', id)
    ensures Fates(s')
  {
    hide Pending;
  }

  lemma OneTimerBegins(s: State, s': State, c: ClientId, id: nat)
    requires Fates(s) && c in s.clients && s.clients[c].None? && id !in s.starter
    requires s'.starter == s.starter[id := c] && s'.clients == s.clients[c := Some(id)]
    requires s'.stopped == s.stopped && s'.called == s.called
    ensures Fates(s')
  {
    forall i | i in s'.starter ensures OneFate(Pending(s', i), i in s'.stopped, i in s'.called) {
      if i != id {
        assert Pending(s', i) == Pending(s, i);
      }
    }
  }

  lemma StartFates(s: State, c: ClientId, ms: int, k: Kind)
    requires Sound(s) && Fates(s) && Enabled(s, DoStart(c, ms, k))
    ensures Fates(Start(s, c, ms, k))
  {
    LiveLock(s, c);
    if s.clients[c].None? {
      hide Start, Mail, Heaps, TaskSound, Linked, Locked, Fates;
      var d := Started(s, c, ms, k);
      OneTimerBegins(s, Start(s, c, ms, k), c, s.nextId);
    }
  }

  /** The winning stop() ends exactly one timer, a pending one of that client. */
  lemma StopTimerFates(s: State, c: ClientId)
    requires Sound(s) && c in s.clients
    ensures var (s', id) := StopTimer(s, c);
            && s'.starter == s.starter && s'.stopped == s.stopped && s'.called == s.called
            && (id.None? ==> s'.clients == s.clients)
            && (id.Some? ==> s.clients[c] == id && id.value in s.starter && s.starter[id.value] == c
                             && s'.clients == s.clients[c := None])
  {
    LiveLock(s, c);
    hide Mail, Heaps, TaskSound, Locked;
    if s.clients[c].Some? {
      var id := Stopped(s, c);
      hide StopTimer;
    }
  }

  /** Ending a client's pending timer, as stopped or as called. */
  lemma EndOneTimer(s: State, s': State, c: ClientId, id: nat)
    requires Fates(s) && c in s.clients && s.clients[c] == Some(id) && id in s.starter && s.starter[id] == c
    requires s'.starter == s.starter && s'.clients == s.clients[c := None]
    requires || (s'.stopped == s.stopped + {id} && s'.called == s.called)
             || (s'.stopped == s.stopped && s'.called == s.called + {id})
    ensures Fates(s')
  {
    hide Pending, OneFate;
    forall i | i in s.starter ensures OneFate(Pending(s', i), i in s'.stopped, i in s'.called) {
      OneTimerEnds(s, s', c, id, i);
    }
  }

  lemma OneTimerEnds(s: State, s': State, c: ClientId, id: nat, i: nat)
    requires i in s.starter && OneFate(Pending(s, i), i in s.stopped, i in s.called)
    requires c in s.clients && s.clients[c] == Some(id) && id in s.starter && s.starter[id] == c
    requires s'.starter == s.starter && s'.clients == s.clients[c := None]
    requires || (s'.stopped == s.stopped + {id} && s'.called == s.called)
             || (s'.stopped == s.stopped && s'.called == s.called + {id})
    ensures OneFate(Pending(s', i), i in s'.stopped, i in s'.called)
  {
  }

  lemma StopFates(s: State, c: ClientId)
    requires Sound(s) && Fates(s) && c in s.clients
    ensures Fates(Stop(s, c))
  {
    StopTimerFates(s, c);
    hide StopTimer, Sound, Fates;
    var id := StopTimer(s, c).1;
    if id.Some? {
      EndOneTimer(s, Stop(s, c), c, id.value);
    } else {
      SameFates(s, Stop(s, c));
    }
  }

  lemma CallStopFates(s: State, e: Expiry, cur: Timer, c: ClientId)
    requires Sound(s) && Fates(s) && s.task == CallStop(e, cur, c)
    ensures Fates(CallStopStep(s, e, c))
  {
    hide StopTimer, Sound, Fates;
    SoundFacts(s);
    StopTimerFates(s, c);
    var id := StopTimer(s, c).1;
    if id.Some? {
      EndOneTimer(s, CallStopStep(s, e, c), c, id.value);
    } else {
      SameFates(s, CallStopStep(s, e, c));
    }
  }

  lemma NewClientFates(s: State)
    requires Sound(s) && Fates(s)
    ensures Fates(NewClient(s))
  {
    hide Mail, Heaps, TaskSound, Linked, Locked;
    SameFates(s, NewClient(s));
  }

  lemma ReleaseFates(s: State, c: ClientId)
    requires Fates(s) && Enabled(s, DoRelease(c))
    ensures Fates(Release(s, c))
  {
    SameFates(s, Release(s, c));
  }

  /** Steps that leave clients and the history alone, make no delegate, and begin no callback. */
  predicate SameHistory(s: State, s': State) {
    && s'.clients == s.clients && s'.starter == s.starter && s'.stopped == s.stopped && s'.called == s.called
    && s'.nextId == s.nextId && (s'.task.CallBack? ==> s'.task == s.task && s'.delegates == s.delegates)
    && forall id | id in s'.delegates :: id in s.delegates && s'.delegates[id] == s.delegates[id]
  }

  lemma PopTopHistory(s: State, e: Expiry)
    requires s.At(e.kind).heap.Node?
    ensures SameHistory(s, PopTop(s, e))
  {
    hide Pop;
  }

  lemma ReceivedHistory(s: State, k: Kind, t: Timer)
    ensures SameHistory(s, ReceivePush(s, k, t))
    ensures SameHistory(s, ReceiveRemove(s, k, t))
    ensures SameHistory(s, ReceiveExpire(s, k))
  {
    hide Push, PopTop, Remove, UpdatePc;
    var heap := s.At(k).heap;
    UpdatePcNoExpiry(k, Push(OutRanks, heap, t), Top(heap), None);
    UpdatePcNoExpiry(k, Remove(OutRanks, heap, t).1, None, Some(t));
    UpdatePcNoExpiry(k, heap, None, None);
    if heap.Node? {
      PopTopHistory(s, Expiry(k, s.clock, heap, []));
    }
  }

  lemma ReceiveHistory(s: State)
    requires s.queue != []
    ensures SameHistory(s, Receive(s))
  {
    hide ReceivePush, ReceiveRemove, ReceiveExpire, HeapAlive;
    var m, s0 := s.queue[0], s.(queue := s.queue[1..]);
    if m.MsgExpire? {
      ReceivedHistory(s0, m.kind, RawTimer(0, s.clock));
    } else {
      ReceivedHistory(s0, m.kind, m.timer);
    }
  }

  lemma PollHistory(s: State)
    requires Enabled(s, DoPollStep)
    ensures SameHistory(s, PollStep(s))
  {
    match s.poll.stage
    case DisarmTimer =>
    case RemovePoll =>
    case SendExpire =>
  }

  lemma TaskHistory(s: State)
    requires Sound(s) && Enabled(s, DoTaskStep) && !s.task.CallStop?
    ensures SameHistory(s, TaskStep(s))
  {
    hide Sound, TaskStep, PopNextStep, DeleteDelegate;
    TaskStepIs(s);
    SoundFacts(s);
    match s.task
    case AddPoll(_, _, _) => QuietStep(s);
    case SetTime(_, _, _) => QuietStep(s);
    case Delete(t) => DeleteHistory(s, t);
    case ReadClient(e, cur) =>
    case CallBack(_, _) => QuietStep(s);
    case PopNext(e) => PopNextHistory(s, e);
  }

  lemma TaskHistoryOnly(s: State, task: TaskPc)
    requires !task.CallBack?
    ensures SameHistory(s, s.(task := task)) && SameHistory(s, s.(fault := true))
  {
  }

  lemma PopNextHistory(s: State, e: Expiry)
    ensures SameHistory(s, PopNextStep(s, e))
  {
    hide PopTop, UpdatePc, HeapAlive, OutRanks, SameHistory;
    var task := UpdatePc(e.kind, s.At(e.kind).heap, None, None);
    UpdatePcNoExpiry(e.kind, s.At(e.kind).heap, None, None);
    TaskHistoryOnly(s, task);
    if s.At(e.kind).heap.Node? {
      PopTopHistory(s, e);
    }
  }

  lemma DeleteHistory(s: State, t: Timer)
    ensures SameHistory(s, DeleteDelegate(s, t))
  {
  }

  lemma StepFates(s: State, a: Action)
    requires Sound(s) && Fates(s) && Enabled(s, a)
    ensures Fates(Step(s, a))
  {
    hide Sound, Fates, Start, Stop, Release, NewClient, PollStep, Receive, TaskStep, CallStopStep;
    match a
    case DoNewClient => NewClientFates(s);
    case DoStart(c, ms, k) => StartFates(s, c, ms, k);
    case DoStop(c) => StopFates(s, c);
    case DoRelease(c) => ReleaseFates(s, c);
    case DoPollStep =>
      PollHistory(s);
      SameFates(s, Step(s, a));
    case DoReceive =>
      ReceiveHistory(s);
      SameFates(s, Step(s, a));
    case DoTaskStep =>
      if s.task.CallStop? {
        CallStopFates(s, s.task.e, s.task.cur, s.task.client);
        TaskStepIs(s);
      } else {
        TaskHistory(s);
        SameFates(s, Step(s, a));
      }
    case _ => SameFates(s, Step(s, a));
  }

  // ---------- What an expiry has popped ----------

  function TaskExpiry(task: TaskPc): Option<Expiry> {
    match task
    case ReadClient(e, _) => Some(e)
    case CallStop(e, _, _) => Some(e)
    case CallBack(e, _) => Some(e)
    case PopNext(e) => Some(e)
    case _ => None
  }

  /** What has been popped and what would be popped from here on make up the drain of the heap the
      expiry began with. */
  ghost predicate DrainSoFar(e: Expiry, heap: Tree<Timer>) {
    && IsHeap(OutRanks, e.start) && e.start.Node?
    && var (rest, final) := DrainDue(OutRanks, heap, TimerOfNow(e.now));
       Drain(OutRanks, e.start, TimerOfNow(e.now)) == (e.popped + rest, final)
  }

  ghost predicate Draining(s: State) {
    TaskExpiry(s.task).Some? ==>
      var e := TaskExpiry(s.task).value;
      DrainSoFar(e, s.At(e.kind).heap)
  }

  lemma SameDraining(s: State, s': State)
    requires Draining(s) && SameHeaps(s, s')
    requires TaskExpiry(s'.task).Some? ==> TaskExpiry(s'.task) == TaskExpiry(s.task)
    ensures Draining(s')
  {
    hide DrainSoFar;
  }

  lemma FirstPop(k: Kind, now: Clock, heap: Tree<Timer>)
    requires IsHeap(OutRanks, heap) && heap.Node?
    ensures DrainSoFar(Expiry(k, now, heap, [heap.data]), Pop(OutRanks, heap))
  {
    hide DrainDue, Pop, IsHeap;
  }

  lemma NextPop(e: Expiry, heap: Tree<Timer>)
    requires DrainSoFar(e, heap) && heap.Node? && !OutRanks(TimerOfNow(e.now), heap.data)
    ensures DrainSoFar(e.(popped := e.popped + [heap.data]), Pop(OutRanks, heap))
  {
    hide DrainDue, Pop, IsHeap, Drain, OutRanks;
    DrainDueCases(heap, TimerOfNow(e.now));
    var rest := DrainDue(OutRanks, Pop(OutRanks, heap), TimerOfNow(e.now)).0;
    assert e.popped + ([heap.data] + rest) == e.popped + [heap.data] + rest;
  }

  lemma PopTopDraining(s: State, e: Expiry)
    requires s.At(e.kind).heap.Node?
    requires DrainSoFar(e.(popped := e.popped + [s.At(e.kind).heap.data]), Pop(OutRanks, s.At(e.kind).heap))
    ensures Draining(PopTop(s, e))
  {
    hide Pop, DrainSoFar;
  }

  lemma UpdatePcNoExpiry(k: Kind, heap: Tree<Timer>, prior: Option<Timer>, free: Option<Timer>)
    ensures TaskExpiry(UpdatePc(k, heap, prior, free)) == None
  {
  }

  lemma ReceiveExpireDraining(s0: State, k: Kind)
    requires IsHeap(OutRanks, s0.At(k).heap)
    ensures Draining(ReceiveExpire(s0, k))
  {
    hide Pop, UpdatePc, IsHeap, DrainSoFar, PopTop;
    var heap := s0.At(k).heap;
    UpdatePcNoExpiry(k, heap, None, None);
    if heap.Node? {
      FirstPop(k, s0.clock, heap);
      assert [] + [heap.data] == [heap.data];
      PopTopDraining(s0, Expiry(k, s0.clock, heap, []));
    }
  }

  lemma ReceiveOtherDraining(s0: State, k: Kind, t: Timer)
    ensures Draining(ReceivePush(s0, k, t)) && Draining(ReceiveRemove(s0, k, t))
  {
    hide Push, Remove, UpdatePc, DrainSoFar;
    var heap := s0.At(k).heap;
    UpdatePcNoExpiry(k, Push(OutRanks, heap, t), Top(heap), None);
    UpdatePcNoExpiry(k, Remove(OutRanks, heap, t).1, None, Some(t));
  }

  lemma ReceiveDraining(s: State)
    requires Sound(s) && Draining(s) && Enabled(s, DoReceive)
    ensures Draining(Receive(s))
  {
    var m, s0 := s.queue[0], s.(queue := s.queue[1..]);
    assert IsHeap(OutRanks, s0.At(m.kind).heap) by {
      BothHeaps(s, m.kind);
    }
    assert HeapAlive(s, m.kind) && (!m.MsgExpire? ==> m.timer.id in s.delegates) by {
      SoundFacts(s);
    }
    hide Sound, ReceivePush, ReceiveRemove, ReceiveExpire, HeapAlive, IsHeap, Draining;
    if m.MsgExpire? {
      ReceiveExpireDraining(s0, m.kind);
    } else {
      ReceiveOtherDraining(s0, m.kind, m.timer);
    }
  }

  lemma PopNextDraining(s: State, e: Expiry)
    requires Draining(s) && s.task == PopNext(e) && HeapAlive(s, e.kind)
    ensures Draining(PopNextStep(s, e))
  {
    hide Pop, UpdatePc, HeapAlive, DrainSoFar, PopTop, OutRanks;
    var heap := s.At(e.kind).heap;
    UpdatePcNoExpiry(e.kind, heap, None, None);
    if heap.Node? && !OutRanks(TimerOfNow(e.now), heap.data) {
      NextPop(e, heap);
      PopTopDraining(s, e);
    }
  }

  lemma StopTimerHeaps(s: State, c: ClientId)
    ensures SameHeaps(s, StopTimer(s, c).0)
  {
  }

  lemma QuietDraining(s: State)
    requires Draining(s) && Quiet(s)
    ensures Draining(TaskStep(s))
  {
    hide TaskStep, Draining;
    QuietStep(s);
    SameDraining(s, TaskStep(s));
  }

  lemma TaskStepDraining(s: State)
    requires Sound(s) && Draining(s) && Enabled(s, DoTaskStep)
    ensures Draining(TaskStep(s))
  {
    hide Sound, Draining, TaskStep, PopNextStep, HeapAlive, DeleteDelegate, ReadClientStep, CallStopStep;
    TaskStepIs(s);
    SoundFacts(s);
    match s.task
    case PopNext(e) => PopNextDraining(s, e);
    case CallStop(e, cur, c) => CallStopDraining(s, e, c);
    case ReadClient(e, cur) => ReadClientDraining(s, e, cur);
    case Delete(t) => DeleteDraining(s, t);
    case AddPoll(_, _, _) => QuietDraining(s);
    case SetTime(_, _, _) => QuietDraining(s);
    case CallBack(_, _) => QuietDraining(s);
  }

  lemma CallStopDraining(s: State, e: Expiry, c: ClientId)
    requires Draining(s) && s.task.CallStop? && s.task.e == e
    ensures Draining(CallStopStep(s, e, c))
  {
    hide Draining, StopTimer;
    StopTimerHeaps(s, c);
    StopTimerFrame(s, c);
    SameDraining(s, CallStopStep(s, e, c));
  }

  lemma ReadClientDraining(s: State, e: Expiry, cur: Timer)
    requires Draining(s) && s.task == ReadClient(e, cur)
    ensures Draining(ReadClientStep(s, e, cur))
  {
    hide Draining;
    SameDraining(s, ReadClientStep(s, e, cur));
  }

  lemma DeleteDraining(s: State, t: Timer)
    requires Draining(s) && s.task == Delete(t)
    ensures Draining(DeleteDelegate(s, t))
  {
    hide Draining;
    SameDraining(s, DeleteDelegate(s, t));
  }

  lemma StepDraining(s: State, a: Action)
    requires Sound(s) && Draining(s) && Enabled(s, a)
    ensures Draining(Step(s, a))
  {
    hide Sound, Draining, StopTimer, PollStep, Receive, TaskStep, FutureTime, InWindow;
    match a
    case DoStop(c) =>
      StopTimerHeaps(s, c);
      StopTimerFrame(s, c);
      SameDraining(s, Step(s, a));
    case DoPollStep =>
      PollStepFrame(s);
      SameDraining(s, Step(s, a));
    case DoReceive => ReceiveDraining(s);
    case DoTaskStep => TaskStepDraining(s);
    case _ => SameDraining(s, Step(s, a));
  }
}