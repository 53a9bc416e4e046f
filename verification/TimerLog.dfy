/** What clients see of the timer service over a whole run: a log of the starts that succeeded, the
    stops that succeeded and the callbacks that were made, taken down beside the run. */
module TimerLog {
  import opened TimeSpecs
  import opened HeapModel
  import opened HeapRuns
  import opened TimerContainers
  import opened TimerProtocol
  import opened TimerSafety
  import opened TimerArming
  import opened TimerHistory
  import opened TimerTheorems

  datatype StartRecord = StartRecord(client: ClientId, kind: Kind, at: Clock, timeOutInMs: int)

  /** Starts in the order in which their delegates were numbered. */
  datatype Log = Log(starts: seq<StartRecord>, stops: seq<ClientId>, callbacks: seq<ClientId>)

  const NOTHING: Log := Log([], [], [])

  /** A start succeeds when the client has no timer, a stop when it has one; a callback is made when the
      message task moves on from it. */
  function Noted(log: Log, s: State, a: Action): Log
    requires Enabled(s, a)
  {
    match a
    case DoStart(c, ms, k) =>
      if s.clients[c].None? then log.(starts := log.starts + [StartRecord(c, k, s.clock, ms)]) else log
    case DoStop(c) => if s.clients[c].Some? then log.(stops := log.stops + [c]) else log
    case DoTaskStep => if s.task.CallBack? then log.(callbacks := log.callbacks + [s.task.client]) else log
    case _ => log
  }

  ghost function LogOf(s0: State, log: Log, actions: seq<Action>, s: State): Log
    requires Reaches(s0, actions, s)
    decreases |actions|
  {
    if actions == [] then log
    else LogOf(Step(s0, actions[0]), Noted(log, s0, actions[0]), actions[1..], s)
  }

  function Times(clients: seq<ClientId>, c: ClientId): nat {
    if clients == [] then 0
    else Times(clients[..|clients| - 1], c) + if clients[|clients| - 1] == c then 1 else 0
  }

  lemma TimesMore(clients: seq<ClientId>, x: ClientId, c: ClientId)
    ensures Times(clients + [x], c) == Times(clients, c) + if x == c then 1 else 0
  {
    assert (clients + [x])[..|clients|] == clients;
  }

  // ---------- One step ----------

  /** A delegate is what was asked for: its client's, in the container asked for, and due at the time of
      the start plus the timeout, to the nanosecond. */
  ghost predicate AsAsked(d: Delegate, r: StartRecord) {
    && d.owner == r.client && d.kind == r.kind && d.timer.time.Normal()
    && d.timer.time.Nanos() == r.at.Nanos() + r.timeOutInMs * 1_000_000
  }

  lemma StartedAsAsked(s: State, c: ClientId, ms: int, k: Kind)
    requires Enabled(s, DoStart(c, ms, k)) && c in s.locks && s.clients[c].None?
    ensures var s', id := Start(s, c, ms, k), s.nextId;
            id in s'.delegates && AsAsked(s'.delegates[id], StartRecord(c, k, s.clock, ms))
  {
    hide FutureTime;
    FutureTimeAddsTimeout(s.clock, ms);
    hide InWindow;
  }

  /** A start of a client without a timer makes one as asked and queues its push last; of a client that
      has one, it changes nothing. */
  lemma StartDoesAsAsked(s: State, c: ClientId, ms: int, k: Kind)
    requires Reachable(s) && Enabled(s, DoStart(c, ms, k))
    ensures var s' := Step(s, DoStart(c, ms, k));
            if s.clients[c].Some? then s' == s
            else
              && s'.clients[c].Some? && s'.clients[c].value !in s.delegates
              && var id := s'.clients[c].value;
                 && id in s'.delegates
                 && var d := s'.delegates[id];
                    && d.timer.id == id && Attached(d) && AsAsked(d, StartRecord(c, k, s.clock, ms))
                    && s'.clients == s.clients[c := Some(id)] && s'.delegates == s.delegates[id := d]
                    && s'.queue == s.queue + [MsgPush(k, d.timer)]
                    && s'.clock == s.clock && s'.task == s.task && s'.poll == s.poll
                    && s'.sw == s.sw && s'.hw == s.hw
  {
    ReachableInv(s);
    LiveLock(s, c);
    NextIdIsFree(s);
    hide Sound, Inv, Reachable;
    if s.clients[c].None? {
      StartedAsAsked(s, c, ms, k);
      hide AsAsked, FutureTime, InWindow;
      var d := Started(s, c, ms, k);
    }
  }

  /** A stop takes back whatever timer the client has. */
  lemma StopWins(s: State, c: ClientId)
    requires Sound(s) && c in s.clients
    ensures StopTimer(s, c).1 == s.clients[c]
  {
    LiveLock(s, c);
    hide Ids, Locked, Mail, Heaps, TaskSound;
    if s.clients[c].Some? {
      var id := Stopped(s, c);
    }
  }

  lemma LiveClient(s: State, c: ClientId)
    requires Sound(s) && c in s.clients
    ensures c in s.locks
  {
    LiveLock(s, c);
  }

  lemma CallStopClient(s: State, e: Expiry, cur: Timer, c: ClientId)
    requires Sound(s) && s.task == CallStop(e, cur, c)
    ensures c in s.clients && cur.id in s.starter && c == s.starter[cur.id]
  {
    hide Locked, Mail, Heaps, Linked, Tree.Contents;
  }

  /** The message task goes on to stop a popped timer's client exactly if that timer is still what its
      client waits for. */
  lemma StopsClientIffPending(s: State, e: Expiry, cur: Timer)
    requires Reachable(s) && s.task == ReadClient(e, cur)
    ensures Enabled(s, DoTaskStep) && cur.id in s.starter
    ensures var c, s' := s.starter[cur.id], Step(s, DoTaskStep);
            && s' == s.(task := s'.task)
            && s'.task == if c in s.clients && s.clients[c] == Some(cur.id) then CallStop(e, cur, c) else PopNext(e)
  {
    hide *;
    ReachableInv(s);
    InvIs(s);
    PoppedPointsAtClient(s, e, cur);
    ReadClientStepOf(s, e, cur);
  }

  /** A popped timer points at its client exactly while that waits for it. */
  lemma PoppedPointsAtClient(s: State, e: Expiry, cur: Timer)
    requires Sound(s) && s.task == ReadClient(e, cur)
    ensures cur.id in s.starter && cur.id in s.delegates
    ensures var c := s.starter[cur.id];
            s.delegates[cur.id].client ==
            if c in s.clients && s.clients[c] == Some(cur.id) then Some(c) else None
  {
    hide Locked, Mail, Heaps, Tree.Contents;
    assert Attached(s.delegates[cur.id]) || Detached(s.delegates[cur.id]);
  }

  lemma ReadClientStepOf(s: State, e: Expiry, cur: Timer)
    requires s.task == ReadClient(e, cur) && cur.id in s.delegates
    ensures Enabled(s, DoTaskStep)
    ensures var s', client := Step(s, DoTaskStep), s.delegates[cur.id].client;
            s' == s.(task := if client.Some? then CallStop(e, cur, client.value) else PopNext(e))
  {
    hide TaskStep;
    TaskStepIs(s);
  }

  lemma PendingIsNew(s: State, c: ClientId, id: nat)
    requires Fates(s) && c in s.clients && s.clients[c] == Some(id) && id in s.starter && s.starter[id] == c
    ensures id !in s.called && id !in s.stopped
  {
    assert Pending(s, id);
  }

  /** When the message task stops the timer of the popped timer's client, it goes on to call that client
      back exactly if the client has a timer; that one is then the timer it was called for. */
  lemma CalledBackIffPending(s: State, e: Expiry, cur: Timer, c: ClientId)
    requires Reachable(s) && s.task == CallStop(e, cur, c)
    ensures cur.id in s.starter && c == s.starter[cur.id] && c in s.clients
    ensures var s' := Step(s, DoTaskStep);
            && s'.clients == s.clients[c := None] && s'.stopped == s.stopped
            && (match s.clients[c]
                case None => s'.task == PopNext(e) && s'.called == s.called
                case Some(id) => s'.task == CallBack(e, c) && s'.called == s.called + {id} && id !in s.called)
  {
    hide *;
    ReachableInv(s);
    InvIs(s);
    CallStopClient(s, e, cur, c);
    CallStopGoesOn(s, e, c);
    TaskStepOf(s, e, cur, c);
  }

  lemma InvIs(s: State)
    requires Inv(s)
    ensures Sound(s) && Fates(s)
  {
  }

  lemma TaskStepOf(s: State, e: Expiry, cur: Timer, c: ClientId)
    requires s.task == CallStop(e, cur, c)
    ensures Enabled(s, DoTaskStep) && Step(s, DoTaskStep) == CallStopStep(s, e, c)
  {
    hide TaskStep;
    TaskStepIs(s);
  }

  lemma CallStopGoesOn(s: State, e: Expiry, c: ClientId)
    requires Sound(s) && Fates(s) && c in s.clients
    ensures var s' := CallStopStep(s, e, c);
            && s'.clients == s.clients[c := None] && s'.stopped == s.stopped
            && (match s.clients[c]
                case None => s'.task == PopNext(e) && s'.called == s.called
                case Some(id) => s'.task == CallBack(e, c) && s'.called == s.called + {id} && id !in s.called)
  {
    hide Sound, Fates, StopTimer;
    StopWins(s, c);
    StopTimerFates(s, c);
    if s.clients[c].Some? {
      PendingIsNew(s, c, s.clients[c].value);
    }
  }

  // ---------- The log agrees with the state ----------

  /** Every timer ever started is in the log, and every live delegate is as asked. */
  ghost predicate StartsLogged(s: State, log: Log) {
    && |log.starts| == s.nextId
    && (forall id | id in s.starter :: id < |log.starts| && log.starts[id].client == s.starter[id])
    && (forall id | id in s.delegates :: id < |log.starts| && AsAsked(s.delegates[id], log.starts[id]))
  }

  predicate InCallback(task: TaskPc, c: ClientId) {
    task.CallBack? && task.client == c
  }

  /** Every stop that won is in the log, and every callback, unless it is still to come. */
  ghost predicate EndsLogged(s: State, log: Log, c: ClientId) {
    && Times(log.stops, c) == |StartedBy(s, c) * s.stopped|
    && Times(log.callbacks, c) + (if InCallback(s.task, c) then 1 else 0) == |StartedBy(s, c) * s.called|
  }

  lemma StartedLogged(s: State, log: Log, c: ClientId, ms: int, k: Kind)
    requires Sound(s) && StartsLogged(s, log) && Enabled(s, DoStart(c, ms, k)) && s.clients[c].None?
    ensures StartsLogged(Start(s, c, ms, k), Noted(log, s, DoStart(c, ms, k)))
  {
    hide AsAsked, FutureTime, InWindow, Sound;
    LiveClient(s, c);
    StartedAsAsked(s, c, ms, k);
    StartAddsOne(s, c, ms, k);
    hide Start;
  }

  lemma StartAddsOne(s: State, c: ClientId, ms: int, k: Kind)
    requires Enabled(s, DoStart(c, ms, k)) && c in s.locks && s.clients[c].None?
    ensures var s' := Start(s, c, ms, k);
            && s'.nextId == s.nextId + 1 && s'.starter == s.starter[s.nextId := c]
            && s.nextId in s'.delegates && s'.delegates == s.delegates[s.nextId := s'.delegates[s.nextId]]
  {
    hide FutureTime, InWindow;
  }

  /** Steps that make no delegate, and change none but for what it points at. */
  predicate NoneStarted(s: State, s': State) {
    && s'.starter == s.starter && s'.nextId == s.nextId
    && forall id | id in s'.delegates ::
         && id in s.delegates
         && s'.delegates[id] == s.delegates[id].(client := s'.delegates[id].client,
                                                 container := s'.delegates[id].container)
  }

  lemma NoneStartedLogged(s: State, s': State, log: Log, log': Log)
    requires StartsLogged(s, log) && NoneStarted(s, s') && log'.starts == log.starts
    ensures StartsLogged(s', log')
  {
  }

  lemma StopStartsNone(s: State, c: ClientId)
    ensures NoneStarted(s, StopTimer(s, c).0)
  {
  }

  lemma OtherStartsNone(s: State, a: Action)
    requires Sound(s) && Enabled(s, a) && !a.DoStart?
    ensures NoneStarted(s, Step(s, a))
  {
    hide Sound, StopTimer, Receive, TaskStep, PollStep;
    match a
    case DoStop(c) => StopStartsNone(s, c);
    case DoReceive => ReceiveHistory(s);
    case DoPollStep => PollHistory(s);
    case DoTaskStep =>
      if s.task.CallStop? {
        StopStartsNone(s, s.task.client);
        TaskStepIs(s);
      } else {
        TaskHistory(s);
      }
    case _ =>
  }

  lemma StepStartsLogged(s: State, log: Log, a: Action)
    requires Sound(s) && StartsLogged(s, log) && Enabled(s, a)
    ensures StartsLogged(Step(s, a), Noted(log, s, a))
  {
    hide Sound, StartsLogged, NoneStarted;
    if a.DoStart? && s.clients[a.c].None? {
      StartedLogged(s, log, a.c, a.timeOutInMs, a.k);
    } else if a.DoStart? {
      LiveClient(s, a.c);
    } else {
      OtherStartsNone(s, a);
      hide Step;
      NoneStartedLogged(s, Step(s, a), log, Noted(log, s, a));
    }
  }

  lemma OneMoreOf(all: set<nat>, some: set<nat>, id: nat)
    requires id in all && id !in some
    ensures |all * (some + {id})| == |all * some| + 1
  {
    assert all * (some + {id}) == all * some + {id};
  }

  lemma NoMoreOf(all: set<nat>, some: set<nat>, id: nat)
    requires id !in all
    ensures all * (some + {id}) == all * some
  {
  }

  /** A stop takes back one timer of that client, and none of the others. */
  lemma StopLogged(s: State, log: Log, a: Action, x: ClientId)
    requires Sound(s) && Fates(s) && EndsLogged(s, log, x) && a.DoStop? && Enabled(s, a)
    ensures EndsLogged(Step(s, a), Noted(log, s, a), x)
  {
    hide Sound, Fates, Stop, Times;
    var c := a.c;
    StopTakesOne(s, c);
    TimesMore(log.stops, c, x);
    if s.clients[c].Some? {
      var id := s.clients[c].value;
      if x == c {
        OneMoreOf(StartedBy(s, x), s.stopped, id);
      } else {
        NoMoreOf(StartedBy(s, x), s.stopped, id);
      }
    }
  }

  lemma StopTakesOne(s: State, c: ClientId)
    requires Sound(s) && Fates(s) && c in s.clients
    ensures var s' := Stop(s, c);
            && s'.starter == s.starter && s'.called == s.called && s'.task == s.task
            && (match s.clients[c]
                case None => s'.stopped == s.stopped
                case Some(id) => id in s.starter && s.starter[id] == c
                                 && id !in s.stopped && s'.stopped == s.stopped + {id})
  {
    hide Sound, Fates, StopTimer;
    StopWins(s, c);
    StopTimerFates(s, c);
    StopTimerFrame(s, c);
    if s.clients[c].Some? {
      PendingIsNew(s, c, s.clients[c].value);
    }
  }

  /** So does the stop before a callback, which is then still to come. */
  lemma CallStopStartsNone(s: State, e: Expiry, c: ClientId)
    requires Sound(s) && Fates(s) && c in s.clients
    ensures CallStopStep(s, e, c).starter == s.starter
    ensures s.clients[c].Some? ==> s.clients[c].value in s.starter && s.starter[s.clients[c].value] == c
  {
    hide Sound, Fates, StopTimer;
    StopWins(s, c);
    StopTimerFates(s, c);
  }

  lemma CallStopLogged(s: State, log: Log, e: Expiry, c: ClientId, x: ClientId)
    requires Sound(s) && Fates(s) && EndsLogged(s, log, x) && s.task.CallStop? && c in s.clients
    ensures EndsLogged(CallStopStep(s, e, c), log, x)
  {
    hide Sound, Fates, StopTimer, Times, CallStopStep;
    CallStopGoesOn(s, e, c);
    CallStopStartsNone(s, e, c);
    if s.clients[c].Some? {
      var id := s.clients[c].value;
      if x == c {
        OneMoreOf(StartedBy(s, x), s.called, id);
      } else {
        NoMoreOf(StartedBy(s, x), s.called, id);
      }
    }
  }

  lemma NewTimerEndsNone(s: State, s': State, log: Log, log': Log, c: ClientId, x: ClientId)
    requires EndsLogged(s, log, x) && s.nextId !in s.stopped && s.nextId !in s.called
    requires s'.starter == s.starter[s.nextId := c] && s.nextId !in s.starter
    requires s'.stopped == s.stopped && s'.called == s.called && s'.task == s.task
    requires log'.stops == log.stops && log'.callbacks == log.callbacks
    ensures EndsLogged(s', log', x)
  {
    hide Times, StartedBy;
    StartedByGrows(s, s', c, x);
    NewIsOutside(StartedBy(s, x), StartedBy(s', x), s.stopped, s.nextId);
    NewIsOutside(StartedBy(s, x), StartedBy(s', x), s.called, s.nextId);
  }

  lemma StartedByGrows(s: State, s': State, c: ClientId, x: ClientId)
    requires s'.starter == s.starter[s.nextId := c] && s.nextId !in s.starter
    ensures forall id: nat | id != s.nextId :: id in StartedBy(s', x) <==> id in StartedBy(s, x)
  {
  }

  lemma NewIsOutside(all: set<nat>, more: set<nat>, some: set<nat>, id: nat)
    requires id !in some && forall i: nat | i != id :: i in more <==> i in all
    ensures more * some == all * some
  {
  }

  /** A start adds a timer that has not ended. */
  lemma StartEndsLogged(s: State, log: Log, a: Action, x: ClientId)
    requires Sound(s) && Fates(s) && EndsLogged(s, log, x) && a.DoStart? && Enabled(s, a)
    ensures EndsLogged(Step(s, a), Noted(log, s, a), x)
  {
    hide Sound, Fates, Start, EndsLogged;
    LiveClient(s, a.c);
    if s.clients[a.c].None? {
      var d := Started(s, a.c, a.timeOutInMs, a.k);
      NewIdNotEnded(s);
      NewTimerEndsNone(s, Start(s, a.c, a.timeOutInMs, a.k), log, Noted(log, s, a), a.c, x);
    } else {
      StartOfStarted(s, a.c, a.timeOutInMs, a.k);
    }
  }

  lemma StartOfStarted(s: State, c: ClientId, ms: int, k: Kind)
    requires Enabled(s, DoStart(c, ms, k)) && c in s.locks && s.clients[c].Some?
    ensures Start(s, c, ms, k) == s
  {
    hide FutureTime, InWindow;
  }

  lemma NewIdNotEnded(s: State)
    requires Sound(s) && Fates(s)
    ensures s.nextId !in s.starter && s.nextId !in s.stopped && s.nextId !in s.called
  {
    hide Linked, Locked, Mail, Heaps, TaskSound;
  }

  lemma SameEnds(s: State, s': State, log: Log, log': Log, x: ClientId)
    requires EndsLogged(s, log, x)
    requires s'.starter == s.starter && s'.stopped == s.stopped && s'.called == s.called && log'.stops == log.stops
    requires Times(log'.callbacks, x) + (if InCallback(s'.task, x) then 1 else 0)
          == Times(log.callbacks, x) + (if InCallback(s.task, x) then 1 else 0)
    ensures EndsLogged(s', log', x)
  {
    hide Times;
  }

  lemma TaskLogged(s: State, log: Log, x: ClientId)
    requires Sound(s) && EndsLogged(s, log, x) && Enabled(s, DoTaskStep) && !s.task.CallStop?
    ensures EndsLogged(TaskStep(s), Noted(log, s, DoTaskStep), x)
  {
    TaskHistory(s);
    if s.task.CallBack? {
      CallBackEnds(s);
      TimesMore(log.callbacks, s.task.client, x);
    }
    hide Sound, TaskStep, EndsLogged, Times;
    SameEnds(s, TaskStep(s), log, Noted(log, s, DoTaskStep), x);
  }

  lemma CallBackEnds(s: State)
    requires Sound(s) && s.task.CallBack?
    ensures TaskStep(s).task.PopNext?
  {
    hide Ids, Linked, Locked, Mail, Heaps;
  }

  lemma OtherLogged(s: State, log: Log, a: Action, x: ClientId)
    requires EndsLogged(s, log, x) && Enabled(s, a)
    requires !a.DoStart? && !a.DoStop? && !a.DoTaskStep?
    ensures EndsLogged(Step(s, a), Noted(log, s, a), x)
  {
    hide Receive, PollStep, EndsLogged, Times;
    if a.DoReceive? {
      ReceiveHistory(s);
    } else if a.DoPollStep? {
      PollHistory(s);
      PollStepFrame(s);
    }
    SameEnds(s, Step(s, a), log, Noted(log, s, a), x);
  }

  lemma StepEndsLogged(s: State, log: Log, a: Action, x: ClientId)
    requires Sound(s) && Fates(s) && EndsLogged(s, log, x) && Enabled(s, a)
    ensures EndsLogged(Step(s, a), Noted(log, s, a), x)
  {
    hide Sound, Fates, EndsLogged, TaskStep, CallStopStep;
    match a
    case DoStart(_, _, _) => StartEndsLogged(s, log, a, x);
    case DoStop(_) => StopLogged(s, log, a, x);
    case DoTaskStep =>
      if s.task.CallStop? {
        TaskStepOf(s, s.task.e, s.task.cur, s.task.client);
        CallStopClient(s, s.task.e, s.task.cur, s.task.client);
        CallStopLogged(s, log, s.task.e, s.task.client, x);
      } else {
        TaskLogged(s, log, x);
      }
    case _ => OtherLogged(s, log, a, x);
  }

  // ---------- Clients and time ----------

  /** What the clock shows after these actions: the last time it was moved to. */
  function ClockAfter(clock: Clock, actions: seq<Action>): Clock
    decreases |actions|
  {
    if actions == [] then clock
    else ClockAfter(if actions[0].DoTick? then actions[0].now else clock, actions[1..])
  }

  /** How many clients these actions create. */
  function Created(actions: seq<Action>): nat
    decreases |actions|
  {
    if actions == [] then 0
    else (if actions[0].DoNewClient? then 1 else 0) + Created(actions[1..])
  }

  predicate SameWorld(s: State, s': State) {
    s'.clock == s.clock && s'.nextClient == s.nextClient && s'.clients.Keys == s.clients.Keys
  }

  lemma PopTopWorld(s: State, e: Expiry)
    requires s.At(e.kind).heap.Node?
    ensures SameWorld(s, PopTop(s, e))
  {
    hide Pop;
  }

  lemma ReceivedWorld(s: State, k: Kind, t: Timer)
    ensures SameWorld(s, ReceivePush(s, k, t)) && SameWorld(s, ReceiveRemove(s, k, t))
    ensures SameWorld(s, ReceiveExpire(s, k))
  {
    hide Push, PopTop, Remove, UpdatePc;
    if s.At(k).heap.Node? {
      PopTopWorld(s, Expiry(k, s.clock, s.At(k).heap, []));
    }
  }

  lemma ReceiveWorld(s: State)
    requires s.queue != []
    ensures SameWorld(s, Receive(s))
  {
    hide ReceivePush, ReceiveRemove, ReceiveExpire, HeapAlive;
    var m, s0 := s.queue[0], s.(queue := s.queue[1..]);
    ReceivedWorld(s0, m.kind, if m.MsgExpire? then RawTimer(0, s.clock) else m.timer);
  }

  lemma StopWorld(s: State, c: ClientId)
    ensures SameWorld(s, StopTimer(s, c).0) && SameWorld(s, Stop(s, c))
  {
  }

  lemma CallStopWorld(s: State, e: Expiry, c: ClientId)
    ensures SameWorld(s, CallStopStep(s, e, c))
  {
    hide StopTimer;
    StopWorld(s, c);
  }

  lemma DeleteWorld(s: State, t: Timer)
    ensures SameWorld(s, DeleteDelegate(s, t))
  {
  }

  lemma PopNextWorld(s: State, e: Expiry)
    ensures SameWorld(s, PopNextStep(s, e))
  {
    hide PopTop, UpdatePc, HeapAlive, OutRanks;
    if s.At(e.kind).heap.Node? {
      PopTopWorld(s, e);
    }
  }

  lemma TaskWorld(s: State)
    requires !s.task.Idle?
    ensures SameWorld(s, TaskStep(s))
  {
    hide PopNextStep, CallStopStep, DeleteDelegate;
    match s.task
    case Delete(t) => DeleteWorld(s, t);
    case CallStop(e, _, c) => CallStopWorld(s, e, c);
    case PopNext(e) => PopNextWorld(s, e);
    case _ =>
  }

  lemma StartWorld(s: State, c: ClientId, ms: int, k: Kind)
    requires Enabled(s, DoStart(c, ms, k))
    ensures SameWorld(s, Start(s, c, ms, k))
  {
    hide FutureTime, InWindow;
  }

  lemma PollWorld(s: State)
    requires Enabled(s, DoPollStep)
    ensures SameWorld(s, PollStep(s))
  {
  }

  /** Nothing but their own actions moves the clock, makes a client or destroys one. */
  lemma StepWorld(s: State, a: Action)
    requires Enabled(s, a)
    ensures var s' := Step(s, a);
            && s'.clock == (if a.DoTick? then a.now else s.clock)
            && s'.nextClient == s.nextClient + (if a.DoNewClient? then 1 else 0)
            && s'.clients.Keys ==
               s.clients.Keys + (if a.DoNewClient? then {s.nextClient} else {}) - (if a.DoRelease? then {a.c} else {})
  {
    hide Start, Stop, PollStep, Receive, TaskStep;
    match a
    case DoStart(c, ms, k) => StartWorld(s, c, ms, k);
    case DoPollStep => PollWorld(s);
    case DoStop(c) => StopWorld(s, c);
    case DoReceive => ReceiveWorld(s);
    case DoTaskStep => TaskWorld(s);
    case _ =>
  }

  lemma {:induction false} ClockIs(s0: State, actions: seq<Action>, s: State)
    requires Reaches(s0, actions, s)
    ensures s.clock == ClockAfter(s0.clock, actions)
    decreases |actions|
  {
    if actions != [] {
      StepWorld(s0, actions[0]);
      hide Step;
      ClockIs(Step(s0, actions[0]), actions[1..], s);
    }
  }

  lemma {:induction false} ClientsAreFrom(s0: State, actions: seq<Action>, s: State, c: ClientId)
    requires Reaches(s0, actions, s) && forall x | x in s0.clients :: x < s0.nextClient
    ensures s.nextClient == s0.nextClient + Created(actions)
    ensures c in s.clients <==>
              (c in s0.clients || s0.nextClient <= c < s.nextClient) && DoRelease(c) !in actions
    decreases |actions|
  {
    if actions != [] {
      StepWorld(s0, actions[0]);
      hide Step;
      assert actions == [actions[0]] + actions[1..];
      var s1 := Step(s0, actions[0]);
      forall x | x in s1.clients ensures x < s1.nextClient {
        assert x in s1.clients.Keys;
      }
      assert c in s1.clients <==> c in s1.clients.Keys;
      ClientsAreFrom(s1, actions[1..], s, c);
    }
  }

  /** The clients there are, are those created and not destroyed since. */
  lemma ClientsAre(clock: Clock, actions: seq<Action>, s: State, c: ClientId)
    requires Reaches(Init(clock), actions, s)
    ensures c in s.clients <==> c < Created(actions) && DoRelease(c) !in actions
  {
    hide Reaches;
    ClientsAreFrom(Init(clock), actions, s, c);
  }

  // ---------- Whole runs ----------

  lemma {:induction false} RunLogged(s0: State, log: Log, actions: seq<Action>, s: State, x: ClientId)
    requires Inv(s0) && StartsLogged(s0, log) && EndsLogged(s0, log, x) && Reaches(s0, actions, s)
    ensures Inv(s) && StartsLogged(s, LogOf(s0, log, actions, s)) && EndsLogged(s, LogOf(s0, log, actions, s), x)
    decreases |actions|
  {
    if actions != [] {
      hide Inv, StartsLogged, EndsLogged, Step, Noted;
      InvIs(s0);
      StepInv(s0, actions[0]);
      StepStartsLogged(s0, log, actions[0]);
      StepEndsLogged(s0, log, actions[0], x);
      RunLogged(Step(s0, actions[0]), Noted(log, s0, actions[0]), actions[1..], s, x);
    }
  }

  lemma InitLogged(clock: Clock, x: ClientId)
    ensures StartsLogged(Init(clock), NOTHING) && EndsLogged(Init(clock), NOTHING, x)
  {
    assert StartedBy(Init(clock), x) == {};
  }

  lemma LogAgrees(clock: Clock, actions: seq<Action>, s: State, x: ClientId)
    requires Reaches(Init(clock), actions, s)
    ensures var log := LogOf(Init(clock), NOTHING, actions, s);
            Inv(s) && StartsLogged(s, log) && EndsLogged(s, log, x)
  {
    hide *;
    InitInv(clock);
    InitLogged(clock, x);
    RunLogged(Init(clock), NOTHING, actions, s, x);
  }

  /** The starts of a client that succeeded. */
  ghost function StartsOf(log: Log, c: ClientId): set<nat> {
    set id | 0 <= id < |log.starts| && log.starts[id].client == c
  }

  /** Over every run: the starts of a client that succeeded are as many as its stops that succeeded and
      the callbacks made to it, and one more while it has a timer, and one more while a callback to it is
      about to be made. */
  lemma StartsStopsAndCallbacks(clock: Clock, actions: seq<Action>, s: State, c: ClientId)
    requires Reaches(Init(clock), actions, s)
    ensures var log := LogOf(Init(clock), NOTHING, actions, s);
            |StartsOf(log, c)| ==
            Times(log.stops, c) + Times(log.callbacks, c)
            + (if c in s.clients && s.clients[c].Some? then 1 else 0) + (if InCallback(s.task, c) then 1 else 0)
  {
    hide Inv, StartsLogged, LogOf, Times;
    LogAgrees(clock, actions, s, c);
    StartsAreStarted(s, LogOf(Init(clock), NOTHING, actions, s), c);
    assert Reachable(s);
    StartsAreConserved(s, c);
  }

  lemma StartsAreStarted(s: State, log: Log, c: ClientId)
    requires Inv(s) && StartsLogged(s, log)
    ensures StartsOf(log, c) == StartedBy(s, c)
  {
    StarterIds(s);
    hide Inv, AsAsked;
  }

  lemma StarterIds(s: State)
    requires Inv(s)
    ensures forall id: nat :: id in s.starter <==> id < s.nextId
  {
    hide Armed, Tracked, Fates, Draining, Linked, Locked, Mail, Heaps, TaskSound;
  }

  /** Over every run: the delegates that are left, in a heap, in a message or stopped, were asked for by
      the start with their number, and are due when that start said. */
  lemma TimersAreAsAsked(clock: Clock, actions: seq<Action>, s: State)
    requires Reaches(Init(clock), actions, s)
    ensures var log := LogOf(Init(clock), NOTHING, actions, s);
            && (forall id | id in s.delegates :: id < |log.starts| && AsAsked(s.delegates[id], log.starts[id]))
            && forall k: Kind, t: Timer | t in s.At(k).heap.Contents() ::
                 t.id < |log.starts| && log.starts[t.id].kind == k
                 && t.time.Nanos() == log.starts[t.id].at.Nanos() + log.starts[t.id].timeOutInMs * 1_000_000
  {
    LogAgrees(clock, actions, s, 0);
    hide LogOf;
    forall k: Kind, t: Timer | t in s.At(k).heap.Contents()
      ensures t.id in s.delegates && s.delegates[t.id].timer == t && s.delegates[t.id].kind == k
    {
      HeapNames(s, k, t);
    }
    hide Inv, EndsLogged;
  }

  lemma HeapNames(s: State, k: Kind, t: Timer)
    requires Inv(s) && t in s.At(k).heap.Contents()
    ensures Names(s, k, t)
  {
    hide Armed, Tracked, Fates, Draining, Linked, Locked, Mail, Ids, TaskSound, Tree.Contents, IsHeap;
  }
}
