/** Two runs of the timer service in which a callback comes before its time. */
module TimerExamples {
  import opened TimeSpecs
  import opened HeapModel
  import opened HeapRuns
  import opened TimerContainers
  import opened TimerProtocol
  import opened TimerTheorems

  lemma {:induction false} OneMore(s0: State, actions: seq<Action>, s: State, a: Action)
    requires Reaches(s0, actions, s) && Enabled(s, a)
    ensures Reaches(s0, actions + [a], Step(s, a))
    decreases |actions|
  {
    if actions == [] {
      assert Reaches(Step(s0, a), [], Step(s0, a));
      assert ([] + [a])[1..] == [];
    } else {
      hide Step;
      OneMore(Step(s0, actions[0]), actions[1..], s, a);
      assert (actions + [a])[1..] == actions[1..] + [a];
    }
  }

  lemma Next(s: State, a: Action)
    requires Reachable(s) && Enabled(s, a)
    ensures Reachable(Step(s, a))
  {
    hide Step, Enabled;
    var clock: Clock, actions :| Reaches(Init(clock), actions, s);
    OneMore(Init(clock), actions, s, a);
  }

  lemma MoveTo(s: State, a: Action, s': State)
    requires Reachable(s) && Enabled(s, a) && Step(s, a) == s'
    ensures Reachable(s')
  {
    hide Step, Enabled, Reachable;
    Next(s, a);
  }

  const ONE: TimeSpec := TimeSpec(1, 0)
  const TWO: TimeSpec := TimeSpec(2, 0)
  const LATE: TimeSpec := TimeSpec(62, 0)

  const NOBODY: Container := Container(Empty, false, None)

  function DueAtTwo(): Timer {
    RawTimer(0, TWO)
  }

  function OneClient(): State {
    Init(ONE).(clients := map[0 := None], locks := map[0 := 1], nextClient := 1)
  }

  /** One client has asked, at one second, for a timer in one second. */
  function Asked(): State {
    State(ONE, map[0 := Some(0)], map[0 := 2], map[0 := Delegate(0, false, DueAtTwo(), Some(0), Some(false))],
          1, 1, [MsgPush(false, DueAtTwo())], NOBODY, NOBODY, Idle, Waiting, map[0 := 0], {}, {}, false)
  }

  lemma OneClientIsReachable()
    ensures Reachable(OneClient())
  {
    assert Reaches(Init(ONE), [], Init(ONE));
    assert Reachable(Init(ONE));
    hide Reachable;
    MoveTo(Init(ONE), DoNewClient, OneClient());
  }

  lemma AskedIsReachable()
    ensures Reachable(Asked())
  {
    hide Reachable;
    OneClientIsReachable();
    assert FutureTime(ONE, 1000) == TWO;
    MoveTo(OneClient(), DoStart(0, 1000, false), Asked());
  }

  /** The timer is in its heap and the kernel timer is armed for it. */
  function Started(): State {
    Asked().(queue := [], sw := Container(Single(DueAtTwo()), true, Some(TWO)))
  }

  function Pushed(): State {
    Asked().(queue := [], sw := NOBODY.(heap := Single(DueAtTwo())), task := AddPoll(false, TWO, None))
  }

  /** Taking the push of the first timer of a container. */
  lemma PushOntoEmpty(s: State, t: Timer)
    requires s.queue == [MsgPush(false, t)] && s.task.Idle? && s.sw.heap.Empty? && t.id in s.delegates
    ensures Enabled(s, DoReceive)
    ensures Step(s, DoReceive) == s.(queue := [], sw := s.sw.(heap := Single(t)), task := AddPoll(false, t.time, None))
  {
    assert HeapAlive(s, false);
    hide HeapAlive;
  }

  lemma PushedIsReachable()
    ensures Reachable(Pushed())
  {
    hide Reachable;
    AskedIsReachable();
    PushOntoEmpty(Asked(), DueAtTwo());
    hide Step;
    MoveTo(Asked(), DoReceive, Pushed());
  }

  /** The two steps that arm the kernel timer for a new head. */
  lemma ArmForHead(s: State, time: TimeSpec)
    requires Reachable(s) && s.task == AddPoll(false, time, None) && time != TimeSpec(0, 0)
    ensures Reachable(s.(sw := Container(s.sw.heap, true, Some(time)), task := Idle))
  {
    hide Reachable;
    var s' := s.(sw := s.sw.(polled := true), task := SetTime(false, time, None));
    MoveTo(s, DoTaskStep, s');
    MoveTo(s', DoTaskStep, s'.(sw := s'.sw.(armed := Some(time)), task := Idle));
  }

  lemma StartedIsReachable()
    ensures Reachable(Started())
  {
    hide Reachable;
    PushedIsReachable();
    ArmForHead(Pushed(), TWO);
  }

  /** The poll thread raising an expiry of the first container, all three actions in a row. */
  lemma RaiseExpiry(s: State)
    requires Reachable(s) && s.poll == Expiring([false], DisarmTimer)
    ensures Reachable(s.(sw := s.sw.(polled := false, armed := None),
                         queue := s.queue + [MsgExpire(false)], poll := Waiting))
  {
    hide Reachable;
    var s1 := s.(sw := s.sw.(armed := None), poll := Expiring([false], RemovePoll));
    MoveTo(s, DoPollStep, s1);
    var s2 := s1.(sw := s1.sw.(polled := false), poll := Expiring([false], SendExpire));
    MoveTo(s1, DoPollStep, s2);
    MoveTo(s2, DoPollStep, s2.(queue := s2.queue + [MsgExpire(false)], poll := Waiting));
  }

  /** The message task takes an expiry, pops the only timer of the heap and reads its client. */
  lemma PopOnlyTimer(s: State, t: Timer, c: ClientId) returns (s': State)
    requires Reachable(s) && s.task.Idle? && s.queue == [MsgExpire(false)] && s.sw.heap == Single(t)
    requires t.id in s.delegates && s.delegates[t.id].client == Some(c)
    ensures Reachable(s')
    ensures s' == s.(queue := [], sw := s.sw.(heap := Empty),
                     task := CallStop(Expiry(false, s.clock, Single(t), [t]), t, c))
  {
    hide Reachable;
    SingleContents(t);
    assert s.queue[1..] == [] && [] + [t] == [t];
    var read := s.(queue := [], sw := s.sw.(heap := Empty),
                   task := ReadClient(Expiry(false, s.clock, Single(t), [t]), t));
    MoveTo(s, DoReceive, read);
    s' := read.(task := CallStop(read.task.e, t, c));
    MoveTo(read, DoTaskStep, s');
  }

  /** The message task stops whatever timer the client has, and is about to call back for it. */
  lemma StopAndCallBack(s: State, id: nat) returns (s': State)
    requires Reachable(s) && s.task.CallStop? && s.task.client in s.clients && s.task.client in s.locks
    requires s.clients[s.task.client] == Some(id) && id in s.delegates
    ensures Reachable(s') && s'.task == CallBack(s.task.e, s.task.client)
    ensures s'.called == s.called + {id} && s'.stopped == s.stopped && s'.clock == s.clock
    ensures id in s'.delegates && s'.delegates[id].timer == s.delegates[id].timer
  {
    hide Reachable;
    s' := Step(s, DoTaskStep);
    MoveTo(s, DoTaskStep, s');
  }

  // ---------- A callback for a timer that was never popped ----------

  function FirstExpiry(): Expiry {
    Expiry(false, TWO, Single(DueAtTwo()), [DueAtTwo()])
  }

  /** The timer has been popped, and its client pointer read. */
  function AboutToStop(): State {
    Started().(clock := TWO, sw := NOBODY, task := CallStop(FirstExpiry(), DueAtTwo(), 0))
  }

  /** The timer is due, and the poll thread has been woken. */
  function Due(): State {
    Started().(clock := TWO, poll := Expiring([false], DisarmTimer))
  }

  lemma DueIsReachable()
    ensures Reachable(Due())
  {
    hide Reachable;
    StartedIsReachable();
    var s := Started().(clock := TWO);
    MoveTo(Started(), DoTick(TWO), s);
    MoveTo(s, DoWake([false]), Due());
  }

  lemma AboutToStopIsReachable()
    ensures Reachable(AboutToStop())
  {
    hide Reachable;
    DueIsReachable();
    RaiseExpiry(Due());
    assert Due().queue + [MsgExpire(false)] == [MsgExpire(false)];
    var s := Started().(clock := TWO, sw := Container(Single(DueAtTwo()), false, None), queue := [MsgExpire(false)]);
    assert Reachable(s);
    var s' := PopOnlyTimer(s, DueAtTwo(), 0);
  }

  /** The client stops its timer just then, */
  function StoppedInBetween(): State {
    AboutToStop().(clients := map[0 := None], delegates := map[0 := Delegate(0, false, DueAtTwo(), None, None)],
                   queue := [MsgRemove(false, DueAtTwo())], stopped := {0})
  }

  lemma StoppedIsReachable()
    ensures Reachable(StoppedInBetween())
  {
    hide Reachable;
    AboutToStopIsReachable();
    MoveTo(AboutToStop(), DoStop(0), StoppedInBetween());
  }

  /** and starts another one. */
  function StartedAnother(): State {
    StoppedInBetween().(
      clients := map[0 := Some(1)], locks := map[0 := 3], nextId := 2, starter := map[0 := 0, 1 := 0],
      delegates := map[0 := Delegate(0, false, DueAtTwo(), None, None),
                       1 := Delegate(0, false, DueLate(), Some(0), Some(false))],
      queue := [MsgRemove(false, DueAtTwo()), MsgPush(false, DueLate())])
  }

  lemma StartedAnotherIsReachable()
    ensures Reachable(StartedAnother())
  {
    hide Reachable;
    StoppedIsReachable();
    assert FutureTime(TWO, 60000) == LATE;
    MoveTo(StoppedInBetween(), DoStart(0, 60000, false), StartedAnother());
  }

  /** Then the message task stops that one, and calls back, a minute before it is due and without it
      ever having been popped. */
  lemma CallbackForAnotherTimer() returns (s: State)
    ensures Reachable(s) && s.task.CallBack?
    ensures s.stopped == {0} && s.called == {1} && s.task.e.popped == [DueAtTwo()]
    ensures 1 in s.delegates && s.delegates[1].timer.time == LATE && s.clock == TWO
  {
    hide Reachable;
    StartedAnotherIsReachable();
    s := StopAndCallBack(StartedAnother(), 1);
  }

  // ---------- A timer called back before it is due ----------

  function DueLate(): Timer {
    RawTimer(1, LATE)
  }

  /** The only timer has been stopped. */
  function StoppedInTime(): State {
    Started().(clients := map[0 := None], delegates := map[0 := Delegate(0, false, DueAtTwo(), None, None)],
               queue := [MsgRemove(false, DueAtTwo())], stopped := {0})
  }

  /** It has been freed, and the kernel timer was left armed for it. */
  function Freed(): State {
    StoppedInTime().(delegates := map[], locks := map[0 := 1], queue := [], sw := Container(Empty, true, Some(TWO)))
  }

  lemma StoppedInTimeIsReachable()
    ensures Reachable(StoppedInTime())
  {
    hide Reachable;
    StartedIsReachable();
    MoveTo(Started(), DoStop(0), StoppedInTime());
  }

  lemma FreedIsReachable()
    ensures Reachable(Freed())
  {
    hide Reachable;
    StoppedInTimeIsReachable();
    var s := StoppedInTime();
    assert HeapAlive(s, false);
    var s' := s.(queue := [], sw := Container(Empty, true, Some(TWO)), task := Delete(DueAtTwo()));
    MoveTo(s, DoReceive, s');
    FreeLast(s');
  }

  lemma FreeLast(s: State)
    requires Reachable(s)
    requires s == StoppedInTime().(queue := [], sw := Container(Empty, true, Some(TWO)), task := Delete(DueAtTwo()))
    ensures Reachable(Freed())
  {
    hide Reachable;
    MoveTo(s, DoTaskStep, Freed());
  }

  /** The poll thread has just been woken by it. */
  function LeftArmed(): State {
    Freed().(clock := TWO, poll := Expiring([false], DisarmTimer))
  }

  lemma LeftArmedIsReachable()
    ensures Reachable(LeftArmed())
  {
    hide Reachable;
    FreedIsReachable();
    MoveTo(Freed(), DoTick(TWO), Freed().(clock := TWO));
    MoveTo(Freed().(clock := TWO), DoWake([false]), LeftArmed());
  }

  /** A new timer has entered the heap before the poll thread acts. */
  function NewHead(): State {
    AskedAgain().(queue := [], sw := Container(Single(DueLate()), true, Some(LATE)))
  }

  function AskedAgain(): State {
    LeftArmed().(clients := map[0 := Some(1)], locks := map[0 := 2],
                 delegates := map[1 := Delegate(0, false, DueLate(), Some(0), Some(false))], nextId := 2,
                 queue := [MsgPush(false, DueLate())], starter := map[0 := 0, 1 := 0])
  }

  lemma AskedAgainIsReachable()
    ensures Reachable(AskedAgain())
  {
    hide Reachable;
    LeftArmedIsReachable();
    assert FutureTime(TWO, 60000) == LATE;
    MoveTo(LeftArmed(), DoStart(0, 60000, false), AskedAgain());
  }

  lemma NewHeadIsReachable()
    ensures Reachable(NewHead())
  {
    hide Reachable;
    NewHeadIsPushed();
    ArmForHead(PushedAgain(), LATE);
  }

  function PushedAgain(): State {
    AskedAgain().(queue := [], sw := Container(Single(DueLate()), true, Some(TWO)), task := AddPoll(false, LATE, None))
  }

  lemma NewHeadIsPushed()
    ensures Reachable(PushedAgain())
  {
    hide Reachable;
    AskedAgainIsReachable();
    PushOntoEmpty(AskedAgain(), DueLate());
    hide Step;
    MoveTo(AskedAgain(), DoReceive, PushedAgain());
  }

  /** The stale wake-up makes the message task pop the new timer a minute early, since the first pop
      does not look at times, */
  lemma TimerPoppedEarly() returns (s: State)
    ensures Reachable(s) && s == NewHead().(sw := NOBODY, poll := Waiting,
                                            task := CallStop(Expiry(false, TWO, Single(DueLate()), [DueLate()]),
                                                             DueLate(), 0))
  {
    hide Reachable;
    NewHeadIsReachable();
    RaiseExpiry(NewHead());
    assert NewHead().queue + [MsgExpire(false)] == [MsgExpire(false)];
    var s1 := NewHead().(sw := Container(Single(DueLate()), false, None), queue := [MsgExpire(false)],
                         poll := Waiting);
    assert Reachable(s1);
    s := PopOnlyTimer(s1, DueLate(), 0);
  }

  /** and call back for it. */
  lemma CallbackTooEarly() returns (s: State)
    ensures Reachable(s) && s.task.CallBack? && s.task.e.popped == [DueLate()]
    ensures s.stopped == {0} && s.called == {1}
    ensures s.task.e.now.Nanos() < DueLate().time.Nanos() && s.clock == s.task.e.now
  {
    hide Reachable;
    var s1 := TimerPoppedEarly();
    s := StopAndCallBack(s1, 1);
  }
}
