/** Work that is done without interruption: the steps of the message task for one message, taken one after
    another, come to the one operation that LocTimerContainer carries out on the container, and those of
    the poll thread to raising an expiry of each container it was woken for. */
module TimerMessages {
  import opened TimeSpecs
  import opened HeapModel
  import opened HeapRuns
  import opened TimerContainers
  import opened TimerProtocol
  import opened TimerSafety
  import opened TimerArming
  import opened TimerHistory

  /** `n` steps of the message task and of nobody else, or fewer when its work is done before. */
  ghost function TaskRun(s: State, n: nat): State
    decreases n
  {
    if n == 0 || s.task.Idle? then s else TaskRun(TaskStep(s), n - 1)
  }

  lemma StaysIdle(s: State, n: nat)
    requires s.task.Idle?
    ensures TaskRun(s, n) == s
  {
  }

  lemma OneStep(s: State)
    requires !s.task.Idle?
    ensures TaskRun(s, 1) == TaskStep(s)
  {
    hide TaskStep;
    assert TaskRun(TaskStep(s), 0) == TaskStep(s);
  }

  lemma ThenRun(s: State, n: nat)
    requires !s.task.Idle?
    ensures TaskRun(s, n + 1) == TaskRun(TaskStep(s), n)
  {
    hide TaskStep;
  }

  lemma {:induction false} TaskRunAdds(s: State, m: nat, n: nat)
    ensures TaskRun(TaskRun(s, m), n) == TaskRun(s, m + n)
    decreases m
  {
    hide TaskStep;
    if m == 0 {
      assert TaskRun(s, 0) == s;
    } else if s.task.Idle? {
      StaysIdle(s, m);
      StaysIdle(s, n);
      StaysIdle(s, m + n);
    } else {
      ThenRun(s, m - 1);
      ThenRun(s, m - 1 + n);
      hide TaskRun;
      TaskRunAdds(TaskStep(s), m - 1, n);
    }
  }

  predicate SameContainers(s: State, s': State) {
    s'.sw == s.sw && s'.hw == s.hw
  }

  /** One container has become `c` and the other is as it was. */
  predicate Becomes(s: State, s': State, k: Kind, c: Container) {
    s'.At(k) == c && s'.At(!k) == s.At(!k)
  }

  // ---------- The end of a message ----------

  lemma FinishDone(s: State, free: Option<Timer>) returns (n: nat)
    requires Sound(s) && s.task == Done(free)
    ensures var s' := TaskRun(s, n);
            s'.task.Idle? && SameContainers(s, s') && (free.Some? ==> free.value.id !in s'.delegates)
  {
    hide Ids, Linked, Locked, Mail, Heaps, Tree.Contents;
    n := 0;
    if free.Some? {
      n := 1;
      OneStep(s);
      hide TaskRun;
    }
  }

  lemma ArmingSteps(s: State, k: Kind, time: TimeSpec, free: Option<Timer>)
    requires s.task == AddPoll(k, time, free)
    ensures var s' := TaskStep(TaskStep(s));
            && s'.task == Done(free) && TaskStep(s).task.SetTime?
            && Becomes(s, s', k, s.At(k).(polled := true, armed := KernelTime(time)))
  {
  }

  /** From where updateSoonestTime begins to where the message is done. */
  lemma FinishUpdate(s: State, k: Kind, prior: Option<Timer>, free: Option<Timer>) returns (n: nat)
    requires Sound(s) && s.task == UpdatePc(k, s.At(k).heap, prior, free)
    requires NeededUpdate(s.At(k).heap, prior) != Disarm
    ensures var s' := TaskRun(s, n);
            && s'.task.Idle? && Becomes(s, s', k, s.At(k).Updated(prior))
            && (free.Some? ==> free.value.id !in s'.delegates)
  {
    hide Sound, TaskRun, TaskStep, NeededUpdate;
    match NeededUpdate(s.At(k).heap, prior)
    case Nothing =>
      n := FinishDone(s, free);
    case Arm(time) =>
      QuietSound(s);
      ArmingSteps(s, k, time, free);
      QuietSound(TaskStep(s));
      n := FinishDone(TaskStep(TaskStep(s)), free);
      ThenRun(s, n + 1);
      ThenRun(TaskStep(s), n);
      n := n + 2;
  }

  // ---------- Pushes and removals ----------

  /** What taking the oldest message leads to. */
  lemma Received(s: State)
    requires Sound(s) && Enabled(s, DoReceive)
    ensures Sound(Receive(s)) && IsHeap(OutRanks, s.At(s.queue[0].kind).heap)
    ensures var m, s0 := s.queue[0], s.(queue := s.queue[1..]);
            Receive(s) == match m
                          case MsgPush(k, t) => ReceivePush(s0, k, t)
                          case MsgRemove(k, t) => ReceiveRemove(s0, k, t)
                          case MsgExpire(k) => ReceiveExpire(s0, k)
  {
    hide Ids, Linked, Locked, Mail, TaskSound, Heaps, ReceivePush, ReceiveRemove, ReceiveExpire, HeapAlive, IsHeap;
    BothHeaps(s, s.queue[0].kind);
    hide Sound;
    SoundFacts(s);
    ReceiveSound(s);
  }

  lemma PushIsWhole(s: State, k: Kind, t: Timer) returns (n: nat)
    requires Sound(s) && Enabled(s, DoReceive) && s.queue[0] == MsgPush(k, t)
    ensures var s' := TaskRun(Receive(s), n); s'.task.Idle? && Becomes(s, s', k, s.At(k).Pushed(t))
  {
    hide Sound, Receive, TaskRun, NeededUpdate, UpdatePc, Push, IsHeap, Container.Updated;
    var s1 := ReceivePush(s.(queue := s.queue[1..]), k, t);
    Received(s);
    UpdatesNeverDisarm(s.At(k), t, s.At(k).heap);
    n := FinishUpdate(s1, k, Top(s.At(k).heap), None);
  }

  lemma RemoveIsWhole(s: State, k: Kind, t: Timer) returns (n: nat)
    requires Sound(s) && Enabled(s, DoReceive) && s.queue[0] == MsgRemove(k, t)
    ensures var s' := TaskRun(Receive(s), n);
            s'.task.Idle? && Becomes(s, s', k, s.At(k).Removed(t)) && t.id !in s'.delegates
  {
    hide Sound, Receive, TaskRun, NeededUpdate, UpdatePc, Remove, IsHeap, Container.Updated;
    var s1 := ReceiveRemove(s.(queue := s.queue[1..]), k, t);
    Received(s);
    var (found, heap') := Remove(OutRanks, s.At(k).heap, t);
    UpdatesNeverDisarm(s.At(k), t, heap');
    if Top(s.At(k).heap) == (if found then Some(t) else None) {
      n := FinishUpdate(s1, k, None, Some(t));
    } else {
      n := FinishDone(s1, Some(t));
    }
  }

  // ---------- Expiries ----------

  lemma StopTimerContainers(s: State, c: ClientId)
    ensures SameContainers(s, StopTimer(s, c).0)
  {
  }

  /** Reading the client, stopping its timer and calling back lead on to the next pop, and touch no container. */
  lemma ExpireStep(s: State, e: Expiry)
    requires Sound(s) && (s.task.ReadClient? || s.task.CallStop? || s.task.CallBack?) && s.task.e == e
    ensures var s' := TaskStep(s);
            && SameContainers(s, s')
            && (|| s'.task == PopNext(e)
                || (s.task.ReadClient? && s'.task.CallStop? && s'.task.e == e)
                || (s.task.CallStop? && s'.task.CallBack? && s'.task.e == e))
  {
    hide Sound, StopTimer, CallStopStep;
    SoundFacts(s);
    if s.task.CallStop? {
      var c := s.task.client;
      TaskStepIs(s);
      CallStopKeeps(s, e, c);
      StopTimerContainers(s, c);
    }
  }

  lemma {:induction false} ExpireOne(s: State, e: Expiry) returns (n: nat)
    requires Sound(s) && (s.task.ReadClient? || s.task.CallStop? || s.task.CallBack?) && s.task.e == e
    ensures var s' := TaskRun(s, n); Sound(s') && s'.task == PopNext(e) && SameContainers(s, s')
    decreases s.task.ReadClient?, s.task.CallStop?
  {
    hide Sound, TaskStep, TaskRun;
    var s1 := TaskStep(s);
    TaskStepSound(s);
    ExpireStep(s, e);
    if s1.task == PopNext(e) {
      OneStep(s);
      n := 1;
    } else {
      n := ExpireOne(s1, e);
      ThenRun(s, n);
      n := n + 1;
    }
  }

  lemma PopTopPops(s: State, e: Expiry)
    requires s.At(e.kind).heap.Node?
    ensures var heap, s' := s.At(e.kind).heap, PopTop(s, e);
            && Becomes(s, s', e.kind, s.At(e.kind).(heap := Pop(OutRanks, heap)))
            && s'.task == ReadClient(e.(popped := e.popped + [heap.data]), heap.data)
  {
    hide Pop;
  }

  /** The container at the end of an expiry that has this much left to do. */
  function Drained(c: Container, now: Clock): Container {
    c.(heap := DrainDue(OutRanks, c.heap, TimerOfNow(now)).1).Updated(None)
  }

  /** The next pop, or the end of the expiry. */
  lemma PopNextIs(s: State, e: Expiry)
    requires Sound(s) && s.task == PopNext(e)
    ensures var heap, s' := s.At(e.kind).heap, TaskStep(s);
            if heap.Node? && !OutRanks(TimerOfNow(e.now), heap.data) then s' == PopTop(s, e)
            else s' == s.(task := UpdatePc(e.kind, heap, None, None))
  {
    hide Sound, HeapAlive, PopTop, UpdatePc, OutRanks;
    SoundFacts(s);
  }

  /** The loop of an expiry: it ends, with the heap drained and the kernel timer armed for the head. */
  lemma {:induction false} ExpireAll(s: State, e: Expiry) returns (n: nat)
    requires Sound(s) && s.task == PopNext(e)
    ensures var s' := TaskRun(s, n);
            s'.task.Idle? && Becomes(s, s', e.kind, Drained(s.At(e.kind), e.now))
    decreases s.At(e.kind).heap.Count(), 1
  {
    hide Sound, TaskStep, DrainDue, Pop, PopTop, UpdatePc, OutRanks, Container.Updated, TaskRun, Becomes;
    TaskStepSound(s);
    var heap, s1 := s.At(e.kind).heap, TaskStep(s);
    PopNextIs(s, e);
    DrainDueCases(heap, TimerOfNow(e.now));
    if heap.Node? && !OutRanks(TimerOfNow(e.now), heap.data) {
      n := ExpireFrom(s, e);
    } else {
      n := EndExpiry(s, e);
    }
    ThenRun(s, n);
    n := n + 1;
  }

  lemma EndExpiry(s: State, e: Expiry) returns (n: nat)
    requires var s1 := s.(task := UpdatePc(e.kind, s.At(e.kind).heap, None, None)); Sound(s1)
    ensures var s' := TaskRun(s.(task := UpdatePc(e.kind, s.At(e.kind).heap, None, None)), n);
            s'.task.Idle? && Becomes(s, s', e.kind, s.At(e.kind).Updated(None))
  {
    hide Sound, UpdatePc, TaskRun, Container.Updated;
    var s1 := s.(task := UpdatePc(e.kind, s.At(e.kind).heap, None, None));
    n := FinishUpdate(s1, e.kind, None, None);
  }

  lemma {:induction false} ExpireFrom(s: State, e: Expiry) returns (n: nat)
    requires s.At(e.kind).heap.Node? && Sound(PopTop(s, e))
    ensures var c, s' := s.At(e.kind), TaskRun(PopTop(s, e), n);
            s'.task.Idle? && Becomes(s, s', e.kind, Drained(c.(heap := Pop(OutRanks, c.heap)), e.now))
    decreases s.At(e.kind).heap.Count(), 0
  {
    hide Sound, TaskStep, Pop, PopTop, OutRanks, TaskRun, Drained;
    var s1 := PopTop(s, e);
    PopTopPops(s, e);
    var m := ExpireOne(s1, s1.task.e);
    var s2 := TaskRun(s1, m);
    n := ExpireAll(s2, s2.task.e);
    TaskRunAdds(s1, m, n);
    n := m + n;
  }

  lemma ExpireIsWhole(s: State, k: Kind) returns (n: nat)
    requires Sound(s) && Enabled(s, DoReceive) && s.queue[0] == MsgExpire(k)
    ensures var s' := TaskRun(Receive(s), n); s'.task.Idle? && Becomes(s, s', k, s.At(k).Expired(s.clock))
  {
    hide Sound, Receive, TaskRun, UpdatePc, PopTop, DrainDue, Container.Updated;
    var s0, heap := s.(queue := s.queue[1..]), s.At(k).heap;
    var e := Expiry(k, s.clock, heap, []);
    Received(s);
    if heap.Node? {
      n := ExpireFrom(s0, e);
    } else {
      n := EndExpiry(s0, e);
    }
  }

  // ---------- Any message ----------

  function Processed(c: Container, m: Msg, now: Clock): Container {
    match m
    case MsgPush(_, t) => c.Pushed(t)
    case MsgRemove(_, t) => c.Removed(t)
    case MsgExpire(_) => c.Expired(now)
  }

  /** From any sound state, the message task finishes the oldest message in finitely many steps, and
      if nobody comes in between, the message's container is then what the container's own operation
      makes of it, the other one is untouched, and a removed timer has been freed. */
  lemma MessageIsWhole(s: State) returns (n: nat)
    requires Sound(s) && Enabled(s, DoReceive)
    ensures var m, s' := s.queue[0], TaskRun(Receive(s), n);
            && s'.task.Idle?
            && s'.At(m.kind) == Processed(s.At(m.kind), m, s.clock)
            && s'.At(!m.kind) == s.At(!m.kind)
            && (m.MsgRemove? ==> m.timer.id !in s'.delegates)
  {
    hide Sound, Receive, TaskRun, Container.Pushed, Container.Removed, Container.Expired, State.At;
    match s.queue[0]
    case MsgPush(k, t) => n := PushIsWhole(s, k, t);
    case MsgRemove(k, t) => n := RemoveIsWhole(s, k, t);
    case MsgExpire(k) => n := ExpireIsWhole(s, k);
  }

  // ---------- The poll thread ----------

  /** What one action of the poll thread does: its container's kernel timer is disarmed, or its poll
      removed, or its expiry sent. Nothing else changes but the thread's own position. */
  lemma PollStepDoes(s: State)
    requires Enabled(s, DoPollStep)
    ensures var k, s' := s.poll.todo[0], PollStep(s);
            && s' == s.(sw := s'.sw, hw := s'.hw, queue := s'.queue, poll := s'.poll)
            && s'.At(!k) == s.At(!k) && s'.At(k).heap == s.At(k).heap
            && s'.At(k).armed == (if s.poll.stage.DisarmTimer? then None else s.At(k).armed)
            && s'.At(k).polled == (s.At(k).polled && !s.poll.stage.RemovePoll?)
            && s'.queue == s.queue + (if s.poll.stage.SendExpire? then [MsgExpire(k)] else [])
            && s'.poll == match s.poll.stage
                          case DisarmTimer => Expiring(s.poll.todo, RemovePoll)
                          case RemovePoll => Expiring(s.poll.todo, SendExpire)
                          case SendExpire =>
                            if |s.poll.todo| == 1 then Waiting else Expiring(s.poll.todo[1..], DisarmTimer)
  {
    assert s.queue + [] == s.queue;
  }

  /** `n` actions of the poll thread and of nobody else, or fewer when it has no more to do. */
  ghost function PollRun(s: State, n: nat): State
    decreases n
  {
    if n == 0 || !s.poll.Expiring? || s.poll.todo == [] then s else PollRun(PollStep(s), n - 1)
  }

  lemma PollRunThree(s: State, n: nat)
    requires s.poll.Expiring? && s.poll.todo != [] && s.poll.stage.DisarmTimer?
    ensures var s1 := PollStep(s);
            Enabled(s1, DoPollStep) && Enabled(PollStep(s1), DoPollStep)
            && PollRun(s, n + 3) == PollRun(PollStep(PollStep(s1)), n)
  {
    hide PollStep;
    PollStepDoes(s);
    PollStepDoes(PollStep(s));
    assert PollRun(s, n + 3) == PollRun(PollStep(s), n + 2);
    assert PollRun(PollStep(s), n + 2) == PollRun(PollStep(PollStep(s)), n + 1);
  }

  ghost function Expiries(todo: seq<Kind>): (msgs: seq<Msg>)
    ensures |msgs| == |todo| && forall i | 0 <= i < |todo| :: msgs[i] == MsgExpire(todo[i])
  {
    seq(|todo|, i requires 0 <= i < |todo| => MsgExpire(todo[i]))
  }

  /** A container whose expiry has been raised. */
  function Silenced(c: Container): Container {
    c.(polled := false, armed := None)
  }

  /** From s to s' the expiry of each of these containers was raised, and nothing else was done. */
  ghost predicate Raises(s: State, todo: seq<Kind>, s': State) {
    && s'.queue == s.queue + Expiries(todo)
    && (forall k :: s'.At(k) == if k in todo then Silenced(s.At(k)) else s.At(k))
    && s' == s.(sw := s'.sw, hw := s'.hw, queue := s'.queue, poll := s'.poll)
  }

  function Next(todo: seq<Kind>): PollPc {
    if todo == [] then Waiting else Expiring(todo, DisarmTimer)
  }

  /** The three actions for the first container. */
  lemma RaiseOne(s: State, todo: seq<Kind>)
    requires todo != [] && s.poll == Next(todo)
    ensures var s1 := PollStep(s);
            Enabled(s1, DoPollStep) && Enabled(PollStep(s1), DoPollStep)
            && Raises(s, [todo[0]], PollStep(PollStep(s1))) && PollStep(PollStep(s1)).poll == Next(todo[1..])
  {
    hide PollStep;
    PollStepDoes(s);
    PollStepDoes(PollStep(s));
    PollStepDoes(PollStep(PollStep(s)));
  }

  lemma RaisesMore(s: State, s3: State, s': State, todo: seq<Kind>)
    requires todo != [] && Raises(s, [todo[0]], s3) && Raises(s3, todo[1..], s')
    ensures Raises(s, todo, s')
  {
    hide Expiries;
    FirstAndRest(s.queue, todo);
  }

  lemma FirstAndRest(queue: seq<Msg>, todo: seq<Kind>)
    requires todo != []
    ensures queue + Expiries([todo[0]]) + Expiries(todo[1..]) == queue + Expiries(todo)
    ensures forall k :: k in todo <==> k in [todo[0]] || k in todo[1..]
  {
    assert todo == [todo[0]] + todo[1..];
    assert Expiries([todo[0]]) + Expiries(todo[1..]) == Expiries(todo);
  }

  lemma RaisesNone(s: State)
    ensures PollRun(s, 0) == s && Raises(s, [], s)
  {
    assert s.queue + Expiries([]) == s.queue;
  }

  lemma {:induction false} RaiseAll(s: State, todo: seq<Kind>)
    requires s.poll == Next(todo)
    ensures var s' := PollRun(s, 3 * |todo|); s'.poll.Waiting? && Raises(s, todo, s')
    decreases |todo|
  {
    hide PollStep, PollRun, Raises;
    if todo == [] {
      RaisesNone(s);
    } else {
      PollRunThree(s, 3 * (|todo| - 1));
      RaiseOne(s, todo);
      var s3 := PollStep(PollStep(PollStep(s)));
      RaiseAll(s3, todo[1..]);
      RaisesMore(s, s3, PollRun(s, 3 * |todo|), todo);
    }
  }

  /** Woken for one container or for both, the poll thread, if nobody comes in between, disarms the kernel
      timer of each, removes its poll, and sends its expiry, in the order it was told of them; a container
      it was not woken for is untouched, and so is everything else. */
  lemma RaiseIsWhole(s: State, todo: seq<Kind>)
    requires Enabled(s, DoWake(todo))
    ensures var s' := PollRun(Step(s, DoWake(todo)), 3 * |todo|);
            && s'.queue == s.queue + Expiries(todo)
            && (forall k :: s'.At(k) == if k in todo then Silenced(s.At(k)) else s.At(k))
            && s' == s.(sw := s'.sw, hw := s'.hw, queue := s'.queue)
  {
    hide PollRun, Expiries;
    var s1 := Step(s, DoWake(todo));
    RaiseAll(s1, todo);
    forall k ensures PollRun(s1, 3 * |todo|).At(k) == if k in todo then Silenced(s.At(k)) else s.At(k) {
      assert s1.At(k) == s.At(k);
    }
  }
}
