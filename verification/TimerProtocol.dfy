/** The timer service of gps/utils/LocTimer.cpp as a state machine: clients that start and stop
    timers under their lock, the message task, which processes one message at a time, and the thread that
    polls the kernel timers, interleaved in any order.

    An object is named by a number. Using one that has been freed, or freeing one twice, sets
    `fault`; nothing else in the model assumes that pointers are good. */
module TimerProtocol {
  import opened TimeSpecs
  import opened HeapModel
  import opened HeapRuns
  import opened TimerContainers

  /** `false` names the container of timers, `true` the container of alarms. */
  type Kind = bool

  type ClientId = nat

  /** A LocTimerDelegate. `owner` is the client whose lock it shares and `kind` the container it
      was created for; `client` and `container` are its two pointers, which `stop` clears. */
  datatype Delegate = Delegate(owner: ClientId, kind: Kind, timer: Timer, client: Option<ClientId>,
                               container: Option<Kind>)

  datatype Msg =
    | MsgPush(kind: Kind, timer: Timer)
    | MsgRemove(kind: Kind, timer: Timer)
    | MsgExpire(kind: Kind)

  /** An expire message in processing: when it began, on which heap, and what it has popped. */
  datatype Expiry = Expiry(kind: Kind, now: Clock, start: Tree<Timer>, popped: seq<Timer>)

  /** What the message task does next. */
  datatype TaskPc =
    | Idle
    | AddPoll(kind: Kind, time: TimeSpec, free: Option<Timer>)
    | SetTime(kind: Kind, time: TimeSpec, free: Option<Timer>)
    | Delete(timer: Timer)
    | ReadClient(e: Expiry, cur: Timer)
    | CallStop(e: Expiry, cur: Timer, client: ClientId)
    | CallBack(e: Expiry, client: ClientId)
    | PopNext(e: Expiry)

  /** What the poll thread does next: for each container in `todo`, three actions in turn. */
  datatype PollPc = Waiting | Expiring(todo: seq<Kind>, stage: PollStage)

  datatype PollStage = DisarmTimer | RemovePoll | SendExpire

  datatype State = State(
    clock: Clock,
    clients: map<ClientId, Option<nat>>,   // live LocTimers, with the delegate mTimer points to
    locks: map<ClientId, int>,             // live LocSharedLocks, with mRef
    delegates: map<nat, Delegate>,         // live LocTimerDelegates
    nextClient: nat,
    nextId: nat,
    queue: seq<Msg>,
    sw: Container,
    hw: Container,
    task: TaskPc,
    poll: PollPc,
    starter: map<nat, ClientId>,           // history: who started which timer,
    stopped: set<nat>,                     // which ones a client's stop() took back,
    called: set<nat>,                      // and which ones were called back
    fault: bool)
  {
    function At(k: Kind): Container {
      if k then hw else sw
    }

    function With(k: Kind, c: Container): State {
      this.(sw := if k then sw else c, hw := if k then c else hw)
    }
  }

  function Init(clock: Clock): State {
    var c := Container(Empty, false, None);
    State(clock, map[], map[], map[], 0, 0, [], c, c, Idle, Waiting, map[], {}, {}, false)
  }

  // ---------- What clients do ----------

  function NewClient(s: State): State {
    s.(clients := s.clients[s.nextClient := None], locks := s.locks[s.nextClient := 1],
       nextClient := s.nextClient + 1)
  }

  /** LocTimer::start, whole because it runs under the client's lock. */
  function Start(s: State, c: ClientId, timeOutInMs: int, k: Kind): State
    requires 0 <= timeOutInMs < TWO_TO_THE_32
  {
    if c !in s.clients || c !in s.locks then
      s.(fault := true)
    else if s.clients[c].Some? then
      s
    else
      FutureTimeOfClock(s.clock, timeOutInMs);
      var id := s.nextId;
      var t := RawTimer(id, FutureTime(s.clock, timeOutInMs));
      s.(clients := s.clients[c := Some(id)],
         locks := s.locks[c := s.locks[c] + 1],
         delegates := s.delegates[id := Delegate(c, k, t, Some(c), Some(k))],
         nextId := id + 1,
         queue := s.queue + [MsgPush(k, t)],
         starter := s.starter[id := c])
  }

  /** LocTimer::stop, whole because it runs under the client's lock: the state after it, and the
      timer it stopped. */
  function StopTimer(s: State, c: ClientId): (State, Option<nat>) {
    if c !in s.clients || c !in s.locks then
      (s.(fault := true), None)
    else if s.clients[c].None? then
      (s, None)
    else
      var id := s.clients[c].value;
      if id !in s.delegates then
        (s.(fault := true), None)
      else
        var d := s.delegates[id];
        var s' := s.(clients := s.clients[c := None],
                     delegates := s.delegates[id := d.(client := None, container := None)]);
        (if d.container.None? then s' else s'.(queue := s.queue + [MsgRemove(d.container.value, d.timer)]), Some(id))
  }

  function Stop(s: State, c: ClientId): State {
    var (s', id) := StopTimer(s, c);
    if id.None? then s' else s'.(stopped := s.stopped + {id.value})
  }

  /** LocSharedLock::drop. */
  function Drop(s: State, c: ClientId): State {
    if c !in s.locks then s.(fault := true)
    else if s.locks[c] == 1 then s.(locks := s.locks - {c})
    else s.(locks := s.locks[c := s.locks[c] - 1])
  }

  /** The end of a client, after the stop() its destructor begins with. */
  function Release(s: State, c: ClientId): State {
    Drop(s.(clients := s.clients - {c}), c)
  }

  // ---------- What the poll thread does ----------

  predicate Readable(s: State, k: Kind) {
    var c := s.At(k);
    c.polled && c.armed.Some? && c.armed.value.Nanos() <= s.clock.Nanos()
  }

  function PollStep(s: State): State
    requires s.poll.Expiring? && s.poll.todo != []
  {
    var k := s.poll.todo[0];
    match s.poll.stage
    case DisarmTimer => s.With(k, s.At(k).(armed := None)).(poll := s.poll.(stage := RemovePoll))
    case RemovePoll => s.With(k, s.At(k).(polled := false)).(poll := s.poll.(stage := SendExpire))
    case SendExpire =>
      var rest := s.poll.todo[1..];
      s.(queue := s.queue + [MsgExpire(k)], poll := if rest == [] then Waiting else Expiring(rest, DisarmTimer))
  }

  // ---------- What the message task does ----------

  /** Every object the heap refers to still exists. */
  ghost predicate HeapAlive(s: State, k: Kind) {
    forall t: Timer | t in s.At(k).heap.Contents() :: t.id in s.delegates
  }

  function Done(free: Option<Timer>): TaskPc {
    if free.Some? then Delete(free.value) else Idle
  }

  /** Where updateSoonestTime goes. It never disarms here: see UpdatesNeverDisarm. */
  function UpdatePc(k: Kind, heap: Tree<Timer>, prior: Option<Timer>, free: Option<Timer>): TaskPc {
    match NeededUpdate(heap, prior)
    case Arm(time) => AddPoll(k, time, free)
    case _ => Done(free)
  }

  /** Popping the top during an expiry. */
  function PopTop(s: State, e: Expiry): State
    requires s.At(e.kind).heap.Node?
  {
    var heap := s.At(e.kind).heap;
    s.With(e.kind, s.At(e.kind).(heap := Pop(OutRanks, heap)))
    .(task := ReadClient(e.(popped := e.popped + [heap.data]), heap.data))
  }

  function ReceivePush(s: State, k: Kind, t: Timer): State {
    var heap := s.At(k).heap;
    var heap' := Push(OutRanks, heap, t);
    s.With(k, s.At(k).(heap := heap')).(task := UpdatePc(k, heap', Top(heap), None))
  }

  function ReceiveRemove(s: State, k: Kind, t: Timer): State {
    var heap := s.At(k).heap;
    var (found, heap') := Remove(OutRanks, heap, t);
    s.With(k, s.At(k).(heap := heap'))
    .(task := if Top(heap) == (if found then Some(t) else None) then UpdatePc(k, heap', None, Some(t)) else Delete(t))
  }

  function ReceiveExpire(s: State, k: Kind): State {
    var heap := s.At(k).heap;
    if heap.Empty? then s.(task := UpdatePc(k, heap, None, None))
    else PopTop(s, Expiry(k, s.clock, heap, []))
  }

  /** Taking the oldest message and doing its work on the heap. */
  ghost function Receive(s: State): State
    requires s.queue != []
  {
    var m := s.queue[0];
    var s' := s.(queue := s.queue[1..]);
    if !HeapAlive(s, m.kind) || (!m.MsgExpire? && m.timer.id !in s.delegates) then
      s.(fault := true)
    else
      match m
      case MsgPush(k, t) => ReceivePush(s', k, t)
      case MsgRemove(k, t) => ReceiveRemove(s', k, t)
      case MsgExpire(k) => ReceiveExpire(s', k)
  }

  function DeleteDelegate(s: State, t: Timer): State {
    if t.id !in s.delegates then s.(fault := true)
    else Drop(s.(delegates := s.delegates - {t.id}, task := Idle), s.delegates[t.id].owner)
  }

  /** LocTimerDelegate::expire reads the client pointer without the lock, */
  function ReadClientStep(s: State, e: Expiry, cur: Timer): State {
    if cur.id !in s.delegates then s.(fault := true)
    else
      match s.delegates[cur.id].client
      case None => s.(task := PopNext(e))
      case Some(c) => s.(task := CallStop(e, cur, c))
  }

  /** and stops whatever timer that client has by then. */
  function CallStopStep(s: State, e: Expiry, c: ClientId): State {
    var (s', id) := StopTimer(s, c);
    if id.None? then s'.(task := PopNext(e))
    else s'.(task := CallBack(e, c), called := s.called + {id.value})
  }

  ghost function PopNextStep(s: State, e: Expiry): State {
    var heap := s.At(e.kind).heap;
    if !HeapAlive(s, e.kind) then s.(fault := true)
    else if heap.Node? && !OutRanks(TimerOfNow(e.now), heap.data) then PopTop(s, e)
    else s.(task := UpdatePc(e.kind, heap, None, None))
  }

  ghost function TaskStep(s: State): State
    requires !s.task.Idle?
  {
    match s.task
    case AddPoll(k, time, free) => s.With(k, s.At(k).(polled := true)).(task := SetTime(k, time, free))
    case SetTime(k, time, free) => s.With(k, s.At(k).(armed := KernelTime(time))).(task := Done(free))
    case Delete(t) => DeleteDelegate(s, t)
    case ReadClient(e, cur) => ReadClientStep(s, e, cur)
    case CallStop(e, _, c) => CallStopStep(s, e, c)
    case CallBack(e, c) => if c in s.clients then s.(task := PopNext(e)) else s.(fault := true)
    case PopNext(e) => PopNextStep(s, e)
  }

  // ---------- Runs ----------

  datatype Action =
    | DoNewClient
    | DoStart(c: ClientId, timeOutInMs: int, k: Kind)
    | DoStop(c: ClientId)
    | DoRelease(c: ClientId)
    | DoTick(now: Clock)
    | DoWake(todo: seq<Kind>)
    | DoPollStep
    | DoReceive
    | DoTaskStep

  /** The client the message task is about to call, or is calling. */
  predicate Calls(task: TaskPc, c: ClientId) {
    (task.CallStop? || task.CallBack?) && task.client == c
  }

  /** When an action may happen. Clients call methods of objects they have not destroyed, destroy
      one only while the message task is not calling it, and time does not run backwards. */
  predicate Enabled(s: State, a: Action) {
    match a
    case DoNewClient => true
    case DoStart(c, ms, _) => c in s.clients && 0 <= ms < TWO_TO_THE_32
    case DoStop(c) => c in s.clients
    case DoRelease(c) => c in s.clients && s.clients[c].None? && !Calls(s.task, c)
    case DoTick(now) => s.clock.Nanos() <= now.Nanos()
    case DoWake(todo) =>
      && s.poll.Waiting? && todo != [] && |todo| <= 2 && (|todo| == 2 ==> todo[0] != todo[1])
      && forall k | k in todo :: Readable(s, k)
    case DoPollStep => s.poll.Expiring? && s.poll.todo != []
    case DoReceive => s.task.Idle? && s.queue != []
    case DoTaskStep => !s.task.Idle?
  }

  ghost function Step(s: State, a: Action): State
    requires Enabled(s, a)
  {
    match a
    case DoNewClient => NewClient(s)
    case DoStart(c, ms, k) => Start(s, c, ms, k)
    case DoStop(c) => Stop(s, c)
    case DoRelease(c) => Release(s, c)
    case DoTick(now) => s.(clock := now)
    case DoWake(todo) => s.(poll := Expiring(todo, DisarmTimer))
    case DoPollStep => PollStep(s)
    case DoReceive => Receive(s)
    case DoTaskStep => TaskStep(s)
  }

  /** Some run from `s0`, one action after another, ends in `s`. */
  ghost predicate Reaches(s0: State, actions: seq<Action>, s: State)
    decreases |actions|
  {
    if actions == [] then s == s0
    else Enabled(s0, actions[0]) && Reaches(Step(s0, actions[0]), actions[1..], s)
  }
}
