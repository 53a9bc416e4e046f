/** What every reachable state of the timer service satisfies, part one: no object is used after
    it is freed or freed twice, and each delegate is in exactly one place of its life. */
module TimerSafety {
  import opened TimeSpecs
  import opened HeapModel
  import opened HeapRuns
  import opened TimerContainers
  import opened TimerProtocol

  /** The delegate whose remove message is being processed, until it is freed. */
  function Removing(task: TaskPc): Option<Timer> {
    match task
    case AddPoll(_, _, free) => free
    case SetTime(_, _, free) => free
    case Delete(t) => Some(t)
    case _ => None
  }

  ghost predicate Ids(s: State) {
    && (forall id | id in s.delegates :: id < s.nextId && s.delegates[id].timer.id == id)
    && (forall id: nat :: id in s.starter <==> id < s.nextId)
    && (forall id | id in s.delegates :: s.starter[id] == s.delegates[id].owner)
    && (forall c | c in s.clients :: c < s.nextClient)
    && (forall c | c in s.locks :: c < s.nextClient)
    && (forall id | id in s.starter :: s.starter[id] < s.nextClient)
  }

  predicate Attached(d: Delegate) {
    d.client == Some(d.owner) && d.container == Some(d.kind)
  }

  predicate Detached(d: Delegate) {
    d.client.None? && d.container.None?
  }

  /** Clients and their delegates point at each other, until stop() clears both ways at once. */
  ghost predicate Linked(s: State) {
    && (forall id | id in s.delegates :: Attached(s.delegates[id]) || Detached(s.delegates[id]))
    && (forall c | c in s.clients && s.clients[c].Some? ::
          s.clients[c].value in s.delegates && s.delegates[s.clients[c].value].client == Some(c))
    && (forall id | id in s.delegates && Attached(s.delegates[id]) ::
          s.delegates[id].owner in s.clients && s.clients[s.delegates[id].owner] == Some(id))
  }

  ghost function Owned(delegates: map<nat, Delegate>, c: ClientId): set<nat> {
    set id | id in delegates && delegates[id].owner == c
  }

  /** Who refers to a lock: its client while it lives, and every live delegate of that client. */
  ghost function Sharers(s: State, c: ClientId): nat {
    (if c in s.clients then 1 else 0) + |Owned(s.delegates, c)|
  }

  /** A lock's reference count is the number of its sharers, and it is gone when there are none. */
  ghost predicate LockExact(s: State, c: ClientId) {
    if Sharers(s, c) == 0 then c !in s.locks else c in s.locks && s.locks[c] == Sharers(s, c)
  }

  ghost predicate Locked(s: State) {
    forall c: ClientId :: LockExact(s, c)
  }

  predicate Names(s: State, k: Kind, t: Timer) {
    t.id in s.delegates && s.delegates[t.id].timer == t && s.delegates[t.id].kind == k
  }

  /** Messages name live delegates, each at most once per kind of message, and a delegate's push
      comes before its removal, which is there exactly when the delegate has been detached. */
  ghost predicate Mail(s: State) {
    && (forall m | m in s.queue && !m.MsgExpire? :: Names(s, m.kind, m.timer))
    && (forall m | m in s.queue && m.MsgRemove? :: Detached(s.delegates[m.timer.id]))
    && (forall i, j | 0 <= i < j < |s.queue| && s.queue[i] == s.queue[j] :: s.queue[i].MsgExpire?)
    && (forall i, j | 0 <= i < j < |s.queue| && s.queue[i].MsgRemove? && s.queue[j].MsgPush? ::
          s.queue[i].timer != s.queue[j].timer)
    && (forall id | id in s.delegates && Detached(s.delegates[id]) ::
          MsgRemove(s.delegates[id].kind, s.delegates[id].timer) in s.queue
          || Removing(s.task) == Some(s.delegates[id].timer))
  }

  /** What a heap holds: live delegates of its kind, once each, whose push has been processed. */
  ghost predicate HeapHolds(s: State, k: Kind, heap: Tree<Timer>) {
    && IsHeap(OutRanks, heap)
    && (forall t: Timer | t in heap.Contents() ::
          Names(s, k, t) && heap.Contents()[t] == 1 && MsgPush(k, t) !in s.queue)
  }

  ghost predicate Heaps(s: State) {
    HeapHolds(s, false, s.sw.heap) && HeapHolds(s, true, s.hw.heap)
  }

  /** The delegate being removed is in no heap and no message any more; clients being called live. */
  ghost predicate TaskSound(s: State) {
    && (Removing(s.task).Some? ==>
          var t := Removing(s.task).value;
          && t.id in s.delegates && s.delegates[t.id].timer == t && Detached(s.delegates[t.id])
          && t !in s.sw.heap.Contents() && t !in s.hw.heap.Contents()
          && (forall k: Kind :: MsgPush(k, t) !in s.queue && MsgRemove(k, t) !in s.queue))
    && (s.task.ReadClient? ==> Names(s, s.task.e.kind, s.task.cur))
    && (s.task.CallStop? ==>
          Names(s, s.task.e.kind, s.task.cur) && s.task.client == s.delegates[s.task.cur.id].owner)
    && (s.task.CallStop? || s.task.CallBack? ==> s.task.client in s.clients)
  }

  ghost predicate Sound(s: State) {
    !s.fault && Ids(s) && Linked(s) && Locked(s) && Mail(s) && Heaps(s) && TaskSound(s)
  }

  /** Delegates stay what they are, except that stop() detaches them. */
  ghost predicate Keeps(s: State, s': State) {
    forall id | id in s.delegates ::
      && id in s'.delegates
      && s'.delegates[id].timer == s.delegates[id].timer && s'.delegates[id].kind == s.delegates[id].kind
      && s'.delegates[id].owner == s.delegates[id].owner
      && (Detached(s.delegates[id]) ==> Detached(s'.delegates[id]))
  }

  predicate SameHeaps(s: State, s': State) {
    s'.sw.heap == s.sw.heap && s'.hw.heap == s.hw.heap
  }

  lemma InitSound(clock: Clock)
    ensures Sound(Init(clock))
  {
    OutRanksIsStrictWeak();
  }

  lemma LiveLock(s: State, c: ClientId)
    requires Locked(s)
    ensures c in s.clients ==> c in s.locks
    ensures forall id | id in s.delegates && s.delegates[id].owner == c :: c in s.locks
  {
    assert LockExact(s, c);
    forall id | id in s.delegates && s.delegates[id].owner == c ensures c in s.locks {
      assert id in Owned(s.delegates, c);
    }
  }

  /** Locks keep their counts when clients and delegates only change what they point at. */
  lemma SameLocked(s: State, s': State)
    requires Locked(s) && s'.locks == s.locks
    requires s'.clients.Keys == s.clients.Keys && s'.delegates.Keys == s.delegates.Keys
    requires forall id | id in s.delegates :: s'.delegates[id].owner == s.delegates[id].owner
    ensures Locked(s')
  {
    forall c: ClientId ensures LockExact(s', c) {
      assert LockExact(s, c);
      assert Owned(s'.delegates, c) == Owned(s.delegates, c);
      assert c in s'.clients.Keys <==> c in s.clients.Keys;
    }
  }

  lemma SameMail(s: State, s': State)
    requires Mail(s) && s'.queue == s.queue && s'.delegates == s.delegates
    requires Removing(s.task).Some? ==> Removing(s'.task) == Removing(s.task)
    ensures Mail(s')
  {
  }

  /** The queue has lost its head or gained `m` at most; a push that comes in is a new delegate's. */
  ghost predicate QueueMoves(s: State, s': State, m: Msg) {
    || s'.queue == s.queue
    || (s.queue != [] && s'.queue == s.queue[1..])
    || (s'.queue == s.queue + [m] && (m.MsgPush? ==> m.timer.id !in s.delegates))
  }

  lemma SameHeapHolds(s: State, s': State, m: Msg, k: Kind, heap: Tree<Timer>)
    requires HeapHolds(s, k, heap) && Keeps(s, s') && QueueMoves(s, s', m)
    ensures HeapHolds(s', k, heap)
  {
    hide IsHeap, Tree.Contents;
  }

  lemma KeepsHeaps(s: State, s': State, m: Msg)
    requires Heaps(s) && Keeps(s, s') && SameHeaps(s, s') && QueueMoves(s, s', m)
    ensures Heaps(s')
  {
    hide HeapHolds, Keeps, QueueMoves;
    SameHeapHolds(s, s', m, false, s.sw.heap);
    SameHeapHolds(s, s', m, true, s.hw.heap);
  }

  lemma KeepsTask(s: State, s': State, m: Msg)
    requires TaskSound(s) && Keeps(s, s') && SameHeaps(s, s') && s'.task == s.task
    requires QueueMoves(s, s', m)
    requires m.MsgRemove? ==> m.timer.id in s.delegates && !Detached(s.delegates[m.timer.id])
    requires forall c | Calls(s.task, c) && c in s.clients :: c in s'.clients
    ensures TaskSound(s')
  {
    hide Tree.Contents;
  }

  lemma NewClientLocked(s: State)
    requires Locked(s) && Ids(s)
    ensures Locked(NewClient(s))
  {
    var s' := NewClient(s);
    assert Owned(s.delegates, s.nextClient) == {};
    forall c: ClientId ensures LockExact(s', c) {
      assert LockExact(s, c);
      assert Owned(s'.delegates, c) == Owned(s.delegates, c);
    }
  }

  lemma NewClientSound(s: State)
    requires Sound(s)
    ensures Sound(NewClient(s))
  {
    hide Mail, Heaps, TaskSound;
    var s' := NewClient(s);
    NewClientLocked(s);
    hide Locked;
    assert Mail(s') by {
      SameMail(s, s');
    }
    assert Heaps(s') by {
      KeepsHeaps(s, s', MsgExpire(false));
    }
    assert TaskSound(s') by {
      KeepsTask(s, s', MsgExpire(false));
    }
  }

  /** Sending one more message keeps the mailbox in order. */
  lemma SendKeepsMail(s: State, s': State, m: Msg)
    requires Mail(s) && Keeps(s, s')
    requires s'.queue == s.queue + [m] && s'.task == s.task
    requires forall id | id in s'.delegates && Detached(s'.delegates[id]) ::
               || (id in s.delegates && Detached(s.delegates[id]))
               || m == MsgRemove(s'.delegates[id].kind, s'.delegates[id].timer)
    requires !m.MsgExpire? ==> m !in s.queue && Names(s', m.kind, m.timer)
    requires m.MsgRemove? ==> Detached(s'.delegates[m.timer.id])
    requires m.MsgPush? ==> forall k :: MsgRemove(k, m.timer) !in s.queue
    ensures Mail(s')
  {
    forall i, j | 0 <= i < j < |s'.queue| && s'.queue[i].MsgRemove? && s'.queue[j].MsgPush?
      ensures s'.queue[i].timer != s'.queue[j].timer
    {
      if j == |s.queue| {
        assert MsgRemove(s'.queue[i].kind, s'.queue[i].timer) in s.queue;
      }
    }
    forall i, j | 0 <= i < j < |s'.queue| && s'.queue[i] == s'.queue[j]
      ensures s'.queue[i].MsgExpire?
    {
      if j == |s.queue| {
        assert s'.queue[i] in s.queue;
      }
    }
  }

  /** No message names a delegate that does not exist yet, and only removals name detached ones. */
  lemma NotMailed(s: State, k: Kind, t: Timer)
    requires Mail(s)
    ensures t.id !in s.delegates ==> MsgPush(k, t) !in s.queue && MsgRemove(k, t) !in s.queue
    ensures t.id in s.delegates && !Detached(s.delegates[t.id]) ==> MsgRemove(k, t) !in s.queue
  {
  }

  /** What a start leaves behind when the client had no timer. */
  lemma Started(s: State, c: ClientId, ms: int, k: Kind) returns (d: Delegate)
    requires Enabled(s, DoStart(c, ms, k)) && c in s.locks && s.clients[c].None?
    ensures var s', id := Start(s, c, ms, k), s.nextId;
            && d.owner == c && d.kind == k && d.timer.id == id && Attached(d)
            && s'.clients == s.clients[c := Some(id)] && s'.locks == s.locks[c := s.locks[c] + 1]
            && s'.delegates == s.delegates[id := d] && s'.nextId == id + 1 && s'.nextClient == s.nextClient
            && s'.queue == s.queue + [MsgPush(k, d.timer)] && s'.starter == s.starter[id := c]
            && s'.task == s.task && SameHeaps(s, s') && s'.fault == s.fault
            && s'.stopped == s.stopped && s'.called == s.called
  {
    hide FutureTime, InWindow;
    d := Start(s, c, ms, k).delegates[s.nextId];
  }

  lemma StartIds(s: State, c: ClientId, ms: int, k: Kind)
    requires Ids(s) && Enabled(s, DoStart(c, ms, k)) && c in s.locks && s.clients[c].None?
    ensures Ids(Start(s, c, ms, k)) && Keeps(s, Start(s, c, ms, k))
  {
    hide Start;
    var d := Started(s, c, ms, k);
  }

  lemma StartLinks(s: State, c: ClientId, ms: int, k: Kind)
    requires Ids(s) && Linked(s) && Enabled(s, DoStart(c, ms, k)) && c in s.locks && s.clients[c].None?
    ensures Linked(Start(s, c, ms, k))
  {
    hide Start;
    var d := Started(s, c, ms, k);
  }

  lemma OwnedGrows(ds: map<nat, Delegate>, ds': map<nat, Delegate>, id: nat, x: ClientId)
    requires id !in ds && ds'.Keys == ds.Keys + {id}
    requires forall i | i in ds :: ds'[i].owner == ds[i].owner
    ensures |Owned(ds', x)| == |Owned(ds, x)| + if ds'[id].owner == x then 1 else 0
  {
    forall i: nat ensures i in Owned(ds', x) <==> i in Owned(ds, x) || (i == id && ds'[id].owner == x) {
      OwnedGrowsAt(ds, ds', id, x, i);
    }
    assert id !in Owned(ds, x);
    hide Owned;
    SetGrows(Owned(ds, x), Owned(ds', x), id, ds'[id].owner == x);
  }

  lemma SetGrows(a: set<nat>, b: set<nat>, id: nat, more: bool)
    requires id !in a && forall i: nat :: i in b <==> i in a || (i == id && more)
    ensures |b| == |a| + if more then 1 else 0
  {
    assert b == a + if more then {id} else {};
  }

  lemma OwnedGrowsAt(ds: map<nat, Delegate>, ds': map<nat, Delegate>, id: nat, x: ClientId, i: nat)
    requires id !in ds && ds'.Keys == ds.Keys + {id}
    requires forall i | i in ds :: ds'[i].owner == ds[i].owner
    ensures i in Owned(ds', x) <==> i in Owned(ds, x) || (i == id && ds'[id].owner == x)
  {
    assert i in ds'.Keys <==> i in ds.Keys || i == id;
  }

  lemma ShareLocked(s: State, s': State, c: ClientId, id: nat)
    requires Locked(s) && c in s.clients && s'.clients.Keys == s.clients.Keys
    requires c in s.locks && s'.locks == s.locks[c := s.locks[c] + 1]
    requires id !in s.delegates && s'.delegates.Keys == s.delegates.Keys + {id} && s'.delegates[id].owner == c
    requires forall i | i in s.delegates :: s'.delegates[i].owner == s.delegates[i].owner
    ensures Locked(s')
  {
    hide Owned;
    forall x: ClientId ensures LockExact(s', x) {
      OwnedGrows(s.delegates, s'.delegates, id, x);
      assert LockExact(s, x);
      assert x in s'.clients.Keys <==> x in s.clients.Keys;
    }
  }

  lemma SendPushKeepsMail(s: State, s': State, m: Msg)
    requires Mail(s) && Keeps(s, s')
    requires s'.queue == s.queue + [m] && s'.task == s.task
    requires forall id | id in s'.delegates && Detached(s'.delegates[id]) ::
               id in s.delegates && Detached(s.delegates[id])
    requires m.MsgPush? && m.timer.id !in s.delegates && Names(s', m.kind, m.timer)
    ensures Mail(s')
  {
    hide Mail, Keeps;
    forall k ensures MsgRemove(k, m.timer) !in s.queue && MsgPush(k, m.timer) !in s.queue {
      NotMailed(s, k, m.timer);
    }
    SendKeepsMail(s, s', m);
  }

  lemma StartSound(s: State, c: ClientId, ms: int, k: Kind)
    requires Sound(s) && Enabled(s, DoStart(c, ms, k))
    ensures Sound(Start(s, c, ms, k))
  {
    LiveLock(s, c);
    if s.clients[c].None? {
      FreshStartSound(s, c, ms, k);
    }
  }

  lemma NextIdIsFree(s: State)
    requires Ids(s)
    ensures s.nextId !in s.delegates
  {
  }

  lemma FreshStartSound(s: State, c: ClientId, ms: int, k: Kind)
    requires Sound(s) && Enabled(s, DoStart(c, ms, k)) && c in s.locks && s.clients[c].None?
    ensures Sound(Start(s, c, ms, k))
  {
    hide Start, Mail, Heaps, TaskSound, Keeps, Ids, Linked, Locked;
    var s' := Start(s, c, ms, k);
    var d := Started(s, c, ms, k);
    StartIds(s, c, ms, k);
    StartLinks(s, c, ms, k);
    NextIdIsFree(s);
    var m := MsgPush(k, d.timer);
    assert s'.clients.Keys == s.clients.Keys && s'.delegates.Keys == s.delegates.Keys + {s.nextId};
    assert Locked(s') by {
      ShareLocked(s, s', c, s.nextId);
    }
    assert Mail(s') by {
      SendPushKeepsMail(s, s', m);
    }
    assert Heaps(s') by {
      KeepsHeaps(s, s', m);
    }
    assert TaskSound(s') by {
      KeepsTask(s, s', m);
    }
  }

  /** What a stop leaves behind when the client had a timer. */
  lemma Stopped(s: State, c: ClientId) returns (id: nat)
    requires Linked(s) && c in s.clients && c in s.locks && s.clients[c].Some?
    ensures id == s.clients[c].value && id in s.delegates && Attached(s.delegates[id]) && s.delegates[id].owner == c
    ensures var (s', r) := StopTimer(s, c);
            var d := s.delegates[id];
            && r == Some(id) && s' == s.(clients := s.clients[c := None],
                                        delegates := s.delegates[id := d.(client := None, container := None)],
                                        queue := s.queue + [MsgRemove(d.kind, d.timer)])
  {
    id := s.clients[c].value;
  }

  /** Detaching a client's delegate keeps who points at whom. */
  lemma DetachLinks(s: State, s': State, c: ClientId, id: nat)
    requires Ids(s) && Linked(s) && c in s.clients && s.clients[c] == Some(id)
    requires id in s.delegates && Attached(s.delegates[id]) && s.delegates[id].owner == c
    requires s' == s.(clients := s.clients[c := None], queue := s'.queue,
                      delegates := s.delegates[id := s.delegates[id].(client := None, container := None)])
    ensures Ids(s') && Linked(s') && Keeps(s, s')
  {
    hide Ids, Keeps;
    DetachClients(s, s', c, id);
    DetachOwner(s, s', c, id);
    assert Linked(s');
    hide Linked;
    DetachKeeps(s, s', id);
  }

  lemma DetachOwner(s: State, s': State, c: ClientId, id: nat)
    requires Linked(s) && c in s.clients && s.clients[c] == Some(id) && id in s.delegates
    requires s'.clients == s.clients[c := None]
    requires s'.delegates == s.delegates[id := s.delegates[id].(client := None, container := None)]
    ensures forall i | i in s'.delegates && Attached(s'.delegates[i]) ::
              s'.delegates[i].owner in s'.clients && s'.clients[s'.delegates[i].owner] == Some(i)
  {
    forall i | i in s'.delegates && Attached(s'.delegates[i])
      ensures s'.delegates[i].owner in s'.clients && s'.clients[s'.delegates[i].owner] == Some(i)
    {
      assert i != id && s.delegates[i].owner != c;
    }
  }

  lemma DetachClients(s: State, s': State, c: ClientId, id: nat)
    requires Linked(s) && c in s.clients && s.clients[c] == Some(id) && id in s.delegates
    requires s.delegates[id].client == Some(c)
    requires s'.clients == s.clients[c := None]
    requires s'.delegates == s.delegates[id := s.delegates[id].(client := None, container := None)]
    ensures forall x | x in s'.clients && s'.clients[x].Some? ::
              s'.clients[x].value in s'.delegates && s'.delegates[s'.clients[x].value].client == Some(x)
  {
    forall x | x in s'.clients && s'.clients[x].Some?
      ensures s'.clients[x].value in s'.delegates && s'.delegates[s'.clients[x].value].client == Some(x)
    {
      assert x != c && s.clients[x].value != id;
    }
  }

  lemma DetachKeeps(s: State, s': State, id: nat)
    requires Ids(s) && id in s.delegates && s'.clients.Keys == s.clients.Keys && s'.locks == s.locks
    requires s'.delegates == s.delegates[id := s.delegates[id].(client := None, container := None)]
    requires s'.starter == s.starter && s'.nextId == s.nextId && s'.nextClient == s.nextClient
    ensures Ids(s') && Keeps(s, s')
  {
    assert forall x | x in s'.clients :: x in s.clients.Keys;
  }

  lemma StopTimerSound(s: State, c: ClientId)
    requires Sound(s) && c in s.clients
    ensures Sound(StopTimer(s, c).0)
  {
    LiveLock(s, c);
    if s.clients[c].Some? {
      WinningStopSound(s, c);
    }
  }

  lemma IdsAreKeys(s: State, id: nat)
    requires Ids(s) && id in s.delegates
    ensures s.delegates[id].timer.id == id
  {
  }

  lemma WinningStopSound(s: State, c: ClientId)
    requires Sound(s) && c in s.clients && c in s.locks && s.clients[c].Some?
    ensures Sound(StopTimer(s, c).0)
  {
    hide StopTimer, Mail, Heaps, TaskSound, Locked, Ids, Linked;
    var id := Stopped(s, c);
    var s', d := StopTimer(s, c).0, s.delegates[id];
    IdsAreKeys(s, id);
    DetachLinks(s, s', c, id);
    hide Keeps;
    var m := MsgRemove(d.kind, d.timer);
    assert s'.clients.Keys == s.clients.Keys && s'.delegates.Keys == s.delegates.Keys;
    assert Locked(s') by {
      SameLocked(s, s');
    }
    assert Mail(s') by {
      RemovalKeepsMail(s, s', id, m);
    }
    assert Heaps(s') by {
      KeepsHeaps(s, s', m);
    }
    assert TaskSound(s') by {
      KeepsTask(s, s', m);
    }
  }

  lemma RemovalKeepsMail(s: State, s': State, id: nat, m: Msg)
    requires Ids(s) && Mail(s) && Keeps(s, s') && id in s.delegates && Attached(s.delegates[id])
    requires s'.delegates == s.delegates[id := s.delegates[id].(client := None, container := None)]
    requires m == MsgRemove(s.delegates[id].kind, s.delegates[id].timer)
    requires s'.queue == s.queue + [m] && s'.task == s.task
    ensures Mail(s')
  {
    NotMailed(s, m.kind, m.timer);
    hide Mail, Keeps;
    SendKeepsMail(s, s', m);
  }

  lemma StopSound(s: State, c: ClientId)
    requires Sound(s) && c in s.clients
    ensures Sound(Stop(s, c))
  {
    hide Mail, Heaps, TaskSound, Locked, Linked, Ids, StopTimer, Sound;
    StopTimerSound(s, c);
    SoundFrame(StopTimer(s, c).0, Stop(s, c));
  }

  /** Everything but the message task, the kernel timers, the poll thread, the clock and the history. */
  predicate SameBooks(s: State, s': State) {
    && s'.clients == s.clients && s'.locks == s.locks && s'.delegates == s.delegates
    && s'.nextClient == s.nextClient && s'.nextId == s.nextId && s'.starter == s.starter
    && SameHeaps(s, s') && s'.fault == s.fault
  }

  lemma TaskMoves(s: State, s': State)
    requires Sound(s) && SameBooks(s, s') && s'.queue == s.queue && TaskSound(s')
    requires Removing(s.task).Some? ==> Removing(s'.task) == Removing(s.task)
    ensures Sound(s')
  {
    hide Mail, Heaps, TaskSound, Locked;
    assert Locked(s') by {
      SameLocked(s, s');
    }
    assert Mail(s') by {
      SameMail(s, s');
    }
    assert Heaps(s') by {
      KeepsHeaps(s, s', MsgExpire(false));
    }
  }

  lemma SoundFrame(s: State, s': State)
    requires Sound(s) && SameBooks(s, s') && s'.queue == s.queue && s'.task == s.task
    ensures Sound(s')
  {
    hide Mail, Heaps, Locked, Ids, Linked, TaskSound;
    assert TaskSound(s') by {
      KeepsTask(s, s', MsgExpire(false));
    }
    TaskMoves(s, s');
  }

  lemma DropAt(s: State, s1: State, c: ClientId, x: ClientId)
    requires LockExact(s, x) && LockExact(s, c) && s1.locks == s.locks && Sharers(s, c) > 0
    requires Sharers(s1, x) == Sharers(s, x) - if x == c then 1 else 0
    ensures LockExact(Drop(s1, c), x)
  {
    assert Sharers(Drop(s1, c), x) == Sharers(s1, x);
    hide Sharers;
  }

  lemma DropLocked(s: State, s1: State, c: ClientId)
    requires Locked(s) && s1.locks == s.locks && Sharers(s, c) > 0
    requires forall x: ClientId :: Sharers(s1, x) == Sharers(s, x) - if x == c then 1 else 0
    ensures var s' := Drop(s1, c);
            && Locked(s') && s' == s1.(locks := s'.locks)
            && (forall x | x in s'.locks :: x in s.locks)
  {
    hide Sharers;
    assert LockExact(s, c);
    forall x: ClientId ensures LockExact(Drop(s1, c), x) {
      assert LockExact(s, x);
      DropAt(s, s1, c, x);
    }
  }

  lemma ReleaseLinks(s: State, s': State, c: ClientId)
    requires Ids(s) && Linked(s) && c in s.clients && s.clients[c].None?
    requires s' == s.(clients := s.clients - {c}, locks := s'.locks) && forall x | x in s'.locks :: x in s.locks
    ensures Ids(s') && Linked(s') && Keeps(s, s')
  {
  }

  lemma ReleaseLocked(s: State, c: ClientId)
    requires Locked(s) && c in s.clients
    ensures var s' := Release(s, c);
            && Locked(s') && s' == s.(clients := s.clients - {c}, locks := s'.locks)
            && (forall x | x in s'.locks :: x in s.locks)
  {
    var s1 := s.(clients := s.clients - {c});
    assert forall x: ClientId :: Sharers(s1, x) == Sharers(s, x) - if x == c then 1 else 0;
    hide Sharers, Drop;
    assert Sharers(s, c) > 0 by {
      OneSharer(s, c);
    }
    DropLocked(s, s1, c);
  }

  lemma OneSharer(s: State, c: ClientId)
    ensures c in s.clients ==> Sharers(s, c) > 0
  {
  }

  lemma ReleaseSound(s: State, c: ClientId)
    requires Sound(s) && Enabled(s, DoRelease(c))
    ensures Sound(Release(s, c))
  {
    hide Mail, Heaps, TaskSound, Locked, Release, Ids, Linked;
    ReleaseLocked(s, c);
    var s' := Release(s, c);
    ReleaseLinks(s, s', c);
    hide Keeps;
    assert Mail(s') by {
      SameMail(s, s');
    }
    assert Heaps(s') by {
      KeepsHeaps(s, s', MsgExpire(false));
    }
    assert TaskSound(s') by {
      KeepsTask(s, s', MsgExpire(false));
    }
  }

  lemma SendExpireSound(s: State, s': State, k: Kind)
    requires Sound(s) && SameBooks(s, s') && s'.queue == s.queue + [MsgExpire(k)] && s'.task == s.task
    ensures Sound(s')
  {
    hide Mail, Heaps, TaskSound, Locked;
    assert Locked(s') by {
      SameLocked(s, s');
    }
    assert Mail(s') by {
      SendKeepsMail(s, s', MsgExpire(k));
    }
    assert Heaps(s') by {
      KeepsHeaps(s, s', MsgExpire(k));
    }
    assert TaskSound(s') by {
      KeepsTask(s, s', MsgExpire(k));
    }
  }

  /** Putting a container back with its heap unchanged. */
  lemma KernelStepFrame(s: State, k: Kind, c: Container, poll: PollPc)
    requires c.heap == s.At(k).heap
    ensures var s' := s.With(k, c).(poll := poll);
            && SameBooks(s, s') && s'.task == s.task && s'.queue == s.queue
            && s'.At(!k) == s.At(!k) && s'.At(k).heap == s.At(k).heap
  {
  }

  lemma SendStepFrame(s: State, k: Kind, poll: PollPc)
    ensures var s' := s.(queue := s.queue + [MsgExpire(k)], poll := poll);
            && SameBooks(s, s') && s'.task == s.task && s'.At(!k) == s.At(!k) && s'.At(k) == s.At(k)
  {
  }

  lemma PollStepFrame(s: State)
    requires Enabled(s, DoPollStep)
    ensures var k, s' := s.poll.todo[0], PollStep(s);
            && SameBooks(s, s') && s'.task == s.task && s'.At(!k) == s.At(!k) && s'.At(k).heap == s.At(k).heap
            && s'.queue == (if s.poll.stage.SendExpire? then s.queue + [MsgExpire(k)] else s.queue)
  {
    hide State.With, State.At, SameBooks;
    var k := s.poll.todo[0];
    match s.poll.stage
    case DisarmTimer => KernelStepFrame(s, k, s.At(k).(armed := None), s.poll.(stage := RemovePoll));
    case RemovePoll => KernelStepFrame(s, k, s.At(k).(polled := false), s.poll.(stage := SendExpire));
    case SendExpire => SendStepFrame(s, k, PollStep(s).poll);
  }

  lemma PollStepSound(s: State)
    requires Sound(s) && Enabled(s, DoPollStep)
    ensures Sound(PollStep(s))
  {
    hide Sound, PollStep;
    PollStepFrame(s);
    if s.poll.stage.SendExpire? {
      SendExpireSound(s, PollStep(s), s.poll.todo[0]);
    } else {
      SoundFrame(s, PollStep(s));
    }
  }

  lemma OwnedShrinks(ds: map<nat, Delegate>, id: nat, x: ClientId)
    requires id in ds
    ensures |Owned(ds - {id}, x)| == |Owned(ds, x)| - if ds[id].owner == x then 1 else 0
  {
    assert id in Owned(ds, x) <==> ds[id].owner == x;
    assert Owned(ds - {id}, x) == Owned(ds, x) - {id};
  }

  lemma DeleteLocked(s: State, id: nat)
    requires Locked(s) && id in s.delegates
    ensures var s1 := s.(delegates := s.delegates - {id}, task := Idle);
            var s' := Drop(s1, s.delegates[id].owner);
            && Locked(s') && s' == s1.(locks := s'.locks)
            && (forall x | x in s'.locks :: x in s.locks)
  {
    var s1 := s.(delegates := s.delegates - {id}, task := Idle);
    var c := s.delegates[id].owner;
    assert id in Owned(s.delegates, c);
    forall x: ClientId ensures Sharers(s1, x) == Sharers(s, x) - if x == c then 1 else 0 {
      OwnedShrinks(s.delegates, id, x);
    }
    DropLocked(s, s1, c);
  }

  lemma DeleteMail(s: State, s': State, t: Timer)
    requires Ids(s) && Mail(s) && TaskSound(s) && s.task == Delete(t)
    requires s'.queue == s.queue && s'.delegates == s.delegates - {t.id}
    ensures Mail(s')
  {
    hide Tree.Contents;
    forall m | m in s'.queue && !m.MsgExpire? ensures Names(s', m.kind, m.timer) {
      assert m.timer != t;
    }
  }

  lemma DeleteHeapHolds(s: State, s': State, k: Kind, heap: Tree<Timer>, t: Timer)
    requires HeapHolds(s, k, heap) && t !in heap.Contents()
    requires t.id in s.delegates && s.delegates[t.id].timer == t
    requires s'.queue == s.queue && s'.delegates == s.delegates - {t.id}
    ensures HeapHolds(s', k, heap)
  {
    hide IsHeap, Tree.Contents;
  }

  lemma DeleteHeaps(s: State, s': State, t: Timer)
    requires Heaps(s) && TaskSound(s) && s.task == Delete(t)
    requires s'.queue == s.queue && s'.delegates == s.delegates - {t.id} && SameHeaps(s, s')
    ensures Heaps(s')
  {
    hide HeapHolds, Tree.Contents;
    DeleteHeapHolds(s, s', false, s.sw.heap, t);
    DeleteHeapHolds(s, s', true, s.hw.heap, t);
  }

  lemma DeleteLinks(s: State, s': State, t: Timer)
    requires Ids(s) && Linked(s) && t.id in s.delegates && Detached(s.delegates[t.id])
    requires s' == s.(delegates := s.delegates - {t.id}, locks := s'.locks, task := Idle)
    requires forall x | x in s'.locks :: x in s.locks
    ensures Ids(s') && Linked(s')
  {
  }

  lemma IdleTask(s: State)
    ensures s.task.Idle? ==> TaskSound(s)
  {
  }

  lemma DeleteSound(s: State, t: Timer)
    requires Sound(s) && s.task == Delete(t)
    ensures Sound(DeleteDelegate(s, t))
  {
    assert t.id in s.delegates && Detached(s.delegates[t.id]);
    var s' := DeleteDelegate(s, t);
    assert s' == Drop(s.(delegates := s.delegates - {t.id}, task := Idle), s.delegates[t.id].owner);
    hide Mail, Heaps, TaskSound, DeleteDelegate, Drop, Locked, Ids, Linked;
    IdleTask(s');
    DeleteLocked(s, t.id);
    DeleteLinks(s, s', t);
    assert Mail(s') by {
      DeleteMail(s, s', t);
    }
    assert Heaps(s') by {
      DeleteHeaps(s, s', t);
    }
  }

  // ---------- Receiving a message ----------

  predicate SameObjects(s: State, s': State) {
    && s'.clients == s.clients && s'.locks == s.locks && s'.delegates == s.delegates
    && s'.nextClient == s.nextClient && s'.nextId == s.nextId && s'.starter == s.starter
  }

  lemma SameObjectsSound(s: State, s': State)
    requires Ids(s) && Linked(s) && Locked(s) && SameObjects(s, s')
    ensures Ids(s') && Linked(s') && Locked(s')
  {
    SameLocked(s, s');
  }

  lemma TailMail(s: State, s': State)
    requires Mail(s) && s.task.Idle? && s.queue != []
    requires s'.queue == s.queue[1..] && s'.delegates == s.delegates
    requires s.queue[0].MsgRemove? ==> Removing(s'.task) == Some(s.queue[0].timer)
    ensures Mail(s')
  {
    assert s.queue == [s.queue[0]] + s'.queue;
    forall m | m in s'.queue ensures m in s.queue {
    }
    forall i, j | 0 <= i < j < |s'.queue|
      ensures s'.queue[i] == s'.queue[j] ==> s'.queue[i].MsgExpire?
      ensures s'.queue[i].MsgRemove? && s'.queue[j].MsgPush? ==> s'.queue[i].timer != s'.queue[j].timer
    {
      assert s'.queue[i] == s.queue[i + 1] && s'.queue[j] == s.queue[j + 1];
    }
  }

  /** The head of the queue is not in it again, and what follows a removal does not push. */
  lemma HeadIsLast(s: State)
    requires Mail(s) && s.queue != [] && !s.queue[0].MsgExpire?
    ensures var m := s.queue[0];
            && Names(s, m.kind, m.timer)
            && m !in s.queue[1..]
            && (m.MsgRemove? ==>
                  Detached(s.delegates[m.timer.id])
                  && forall k :: MsgPush(k, m.timer) !in s.queue[1..] && MsgRemove(k, m.timer) !in s.queue[1..])
  {
    var m, tail := s.queue[0], s.queue[1..];
    forall j | 0 <= j < |tail|
      ensures tail[j] != m
      ensures m.MsgRemove? && !tail[j].MsgExpire? ==> tail[j].timer != m.timer
    {
      assert tail[j] == s.queue[j + 1];
    }
  }

  lemma HeapsAlive(s: State)
    requires Heaps(s)
    ensures HeapAlive(s, false) && HeapAlive(s, true)
  {
    hide IsHeap, Tree.Contents;
  }

  lemma PushHolds(s: State, s': State, k: Kind, heap: Tree<Timer>, t: Timer)
    requires HeapHolds(s, k, heap) && t !in heap.Contents() && Names(s, k, t)
    requires s.queue != [] && s'.queue == s.queue[1..] && MsgPush(k, t) !in s'.queue
    requires s'.delegates == s.delegates
    ensures HeapHolds(s', k, Push(OutRanks, heap, t))
  {
    hide IsHeap, Tree.Contents, Push;
    PushIsHeap(OutRanks, heap, t);
  }

  lemma RemoveHolds(s: State, s': State, k: Kind, heap: Tree<Timer>, heap': Tree<Timer>, t: Timer)
    requires HeapHolds(s, k, heap) && IsHeap(OutRanks, heap') && heap'.Contents() == heap.Contents() - multiset{t}
    requires s'.queue == s.queue || (s.queue != [] && s'.queue == s.queue[1..])
    requires s'.delegates == s.delegates
    ensures HeapHolds(s', k, heap') && t !in heap'.Contents()
  {
    hide IsHeap, Tree.Contents;
  }

  /** Going to updateSoonestTime with the delegate to free afterwards. */
  lemma UpdatePcRemoving(k: Kind, heap: Tree<Timer>, prior: Option<Timer>, free: Option<Timer>)
    ensures var pc := UpdatePc(k, heap, prior, free);
            && Removing(pc) == free && !pc.ReadClient? && !pc.CallStop? && !pc.CallBack?
  {
  }

  lemma NotInHeap(s: State, k: Kind, heap: Tree<Timer>, t: Timer)
    requires HeapHolds(s, k, heap)
    ensures MsgPush(k, t) in s.queue ==> t !in heap.Contents()
    ensures !Names(s, k, t) ==> t !in heap.Contents()
  {
    hide IsHeap, Tree.Contents;
  }

  /** A push that is next in the queue is for a live delegate that is not in the heap yet. */
  lemma NextPush(s: State, k: Kind, t: Timer)
    requires Mail(s) && Heaps(s) && s.queue != [] && s.queue[0] == MsgPush(k, t)
    ensures Names(s, k, t) && MsgPush(k, t) !in s.queue[1..] && t !in s.At(k).heap.Contents()
  {
    hide Mail, HeapHolds, Tree.Contents;
    HeadIsLast(s);
    NotInHeap(s, k, s.At(k).heap, t);
  }

  lemma ReceivePushSound(s: State, k: Kind, t: Timer)
    requires Sound(s) && s.task.Idle? && s.queue != [] && s.queue[0] == MsgPush(k, t)
    ensures Sound(ReceivePush(s.(queue := s.queue[1..]), k, t))
  {
    hide Ids, Linked, Mail, Locked, Tree.Contents, Push, HeapHolds, UpdatePc;
    NextPush(s, k, t);
    var s' := ReceivePush(s.(queue := s.queue[1..]), k, t);
    var heap := s.At(k).heap;
    UpdatePcRemoving(k, Push(OutRanks, heap, t), Top(heap), None);
    assert Ids(s') && Linked(s') && Locked(s') by {
      SameObjectsSound(s, s');
    }
    assert Mail(s') by {
      TailMail(s, s');
    }
    assert Heaps(s') by {
      PushHolds(s, s', k, heap, t);
      SameHeapHolds(s, s', MsgExpire(k), !k, s.At(!k).heap);
    }
  }

  /** A removal that is next in the queue is for a live, detached delegate that no other message
      and no heap but its own can name. */
  lemma NextRemove(s: State, k: Kind, t: Timer)
    requires Mail(s) && Heaps(s) && s.queue != [] && s.queue[0] == MsgRemove(k, t)
    ensures Names(s, k, t) && Detached(s.delegates[t.id]) && t !in s.At(!k).heap.Contents()
    ensures forall k' :: MsgPush(k', t) !in s.queue[1..] && MsgRemove(k', t) !in s.queue[1..]
  {
    hide Mail, HeapHolds, Tree.Contents;
    HeadIsLast(s);
    NotInHeap(s, !k, s.At(!k).heap, t);
  }

  lemma ReceiveRemoveSound(s: State, k: Kind, t: Timer)
    requires Sound(s) && s.task.Idle? && s.queue != [] && s.queue[0] == MsgRemove(k, t)
    ensures Sound(ReceiveRemove(s.(queue := s.queue[1..]), k, t))
  {
    hide Ids, Linked, Mail, Locked, Tree.Contents, Remove, HeapHolds, UpdatePc;
    NextRemove(s, k, t);
    var s' := ReceiveRemove(s.(queue := s.queue[1..]), k, t);
    var heap, heap' := s.At(k).heap, Remove(OutRanks, s.At(k).heap, t).1;
    assert Removing(s'.task) == Some(t) && !s'.task.ReadClient? && !s'.task.CallStop? && !s'.task.CallBack? by {
      UpdatePcRemoving(k, heap', None, Some(t));
    }
    hide NeededUpdate, Removing;
    assert Ids(s') && Linked(s') && Locked(s') by {
      SameObjectsSound(s, s');
    }
    assert Mail(s') by {
      TailMail(s, s');
    }
    assert Heaps(s') && t !in heap'.Contents() by {
      RemovedHeap(s, s', k, heap, t);
      SameHeapHolds(s, s', MsgExpire(k), !k, s.At(!k).heap);
    }
  }

  lemma RemovedHeap(s: State, s': State, k: Kind, heap: Tree<Timer>, t: Timer)
    requires HeapHolds(s, k, heap)
    requires s.queue != [] && s'.queue == s.queue[1..] && s'.delegates == s.delegates
    ensures var heap' := Remove(OutRanks, heap, t).1;
            HeapHolds(s', k, heap') && t !in heap'.Contents()
  {
    hide IsHeap, Tree.Contents, Remove;
    RemoveIsComplete(OutRanks, heap, t);
    RemoveHolds(s, s', k, heap, Remove(OutRanks, heap, t).1, t);
  }

  lemma PoppedHeap(s: State, k: Kind, heap: Tree<Timer>)
    requires HeapHolds(s, k, heap) && heap.Node?
    ensures var heap' := Pop(OutRanks, heap);
            IsHeap(OutRanks, heap') && heap'.Contents() == heap.Contents() - multiset{heap.data}
    ensures Names(s, k, heap.data)
  {
    DrainStep(OutRanks, heap);
  }

  /** Popping the top, possibly as the first thing after taking a message from the queue. */
  lemma PopTopSound(s: State, s0: State, e: Expiry)
    requires Sound(s) && (s.task.Idle? || s.task.PopNext?)
    requires s0.At(e.kind).heap.Node?
    requires s0 == s || (s.task.Idle? && s.queue != [] && s.queue[0].MsgExpire? && s0 == s.(queue := s.queue[1..]))
    ensures Sound(PopTop(s0, e))
  {
    hide Ids, Linked, Mail, Locked, Tree.Contents, Pop, HeapHolds, PopTop;
    var s' := PopTop(s0, e);
    PopTopFrame(s0, e);
    assert Ids(s') && Linked(s') && Locked(s') by {
      SameObjectsSound(s, s');
    }
    assert Mail(s') by {
      if s0 == s {
        SameMail(s, s');
      } else {
        TailMail(s, s');
      }
    }
    PopTopHeaps(s, s', e);
  }

  lemma PopTopFrame(s: State, e: Expiry)
    requires s.At(e.kind).heap.Node?
    ensures var s', heap := PopTop(s, e), s.At(e.kind).heap;
            && SameObjects(s, s') && s'.queue == s.queue && s'.fault == s.fault
            && s'.At(e.kind).heap == Pop(OutRanks, heap) && s'.At(!e.kind) == s.At(!e.kind)
            && s'.task.ReadClient? && s'.task.cur == heap.data && s'.task.e.kind == e.kind
  {
    hide Pop;
  }

  /** The two containers' heaps, whichever is named first. */
  lemma HeapsAt(s: State, k: Kind)
    ensures Heaps(s) <==> HeapHolds(s, k, s.At(k).heap) && HeapHolds(s, !k, s.At(!k).heap)
  {
    hide HeapHolds;
  }

  lemma PopTopHeaps(s: State, s': State, e: Expiry)
    requires Heaps(s) && SameObjects(s, s') && (s'.queue == s.queue || (s.queue != [] && s'.queue == s.queue[1..]))
    requires s.At(e.kind).heap.Node? && s'.At(e.kind).heap == Pop(OutRanks, s.At(e.kind).heap)
    requires s'.At(!e.kind) == s.At(!e.kind)
    ensures Heaps(s') && Names(s', e.kind, s.At(e.kind).heap.data)
  {
    hide HeapHolds, Pop, Heaps, Tree.Contents, IsHeap, State.At;
    var k, heap := e.kind, s.At(e.kind).heap;
    HeapsAt(s, k);
    HeapsAt(s', k);
    PoppedHeap(s, k, heap);
    RemoveHolds(s, s', k, heap, Pop(OutRanks, heap), heap.data);
    SameHeapHolds(s, s', MsgExpire(k), !k, s.At(!k).heap);
  }

  lemma IdleSound(s: State, s': State)
    requires Sound(s) && SameBooks(s, s') && s'.queue == s.queue
    requires Removing(s.task).None? && Removing(s'.task).None?
    requires !s'.task.ReadClient? && !s'.task.CallStop? && (s'.task.CallBack? ==> s'.task.client in s.clients)
    ensures Sound(s')
  {
    hide Ids, Linked, Locked, Mail, Heaps;
    TaskMoves(s, s');
  }

  lemma TailSound(s: State)
    requires Sound(s) && s.task.Idle? && s.queue != [] && s.queue[0].MsgExpire?
    ensures Sound(s.(queue := s.queue[1..]))
  {
    hide Mail, Heaps, Ids, Linked, Locked;
    var s' := s.(queue := s.queue[1..]);
    assert Ids(s') && Linked(s') && Locked(s') by {
      SameObjectsSound(s, s');
    }
    assert Mail(s') by {
      TailMail(s, s');
    }
    assert Heaps(s') by {
      KeepsHeaps(s, s', MsgExpire(false));
    }
  }

  lemma ReceiveExpireSound(s: State, k: Kind)
    requires Sound(s) && s.task.Idle? && s.queue != [] && s.queue[0] == MsgExpire(k)
    ensures Sound(ReceiveExpire(s.(queue := s.queue[1..]), k))
  {
    hide Sound, PopTop;
    var s0 := s.(queue := s.queue[1..]);
    var heap := s.At(k).heap;
    if heap.Empty? {
      TailSound(s);
      IdleSound(s0, s0.(task := UpdatePc(k, heap, None, None)));
    } else {
      PopTopSound(s, s0, Expiry(k, s.clock, heap, []));
    }
  }

  /** What a step of the message task relies on: the objects it is about to use are there. */
  lemma SoundFacts(s: State)
    requires Sound(s)
    ensures HeapAlive(s, false) && HeapAlive(s, true)
    ensures s.queue != [] && !s.queue[0].MsgExpire? ==> s.queue[0].timer.id in s.delegates
    ensures s.task.ReadClient? ==> s.task.cur.id in s.delegates
    ensures s.task.CallStop? || s.task.CallBack? ==> s.task.client in s.clients
  {
    hide Tree.Contents, IsHeap, HeapAlive, Locked, Linked;
    HeapsAlive(s);
    assert s.queue != [] ==> s.queue[0] in s.queue;
  }

  lemma ReceiveSound(s: State)
    requires Sound(s) && Enabled(s, DoReceive)
    ensures Sound(Receive(s))
  {
    hide Sound, ReceivePush, ReceiveRemove, ReceiveExpire, HeapAlive;
    SoundFacts(s);
    match s.queue[0]
    case MsgPush(k, t) => ReceivePushSound(s, k, t);
    case MsgRemove(k, t) => ReceiveRemoveSound(s, k, t);
    case MsgExpire(k) => ReceiveExpireSound(s, k);
  }

  lemma ReadClientSound(s: State, e: Expiry, cur: Timer)
    requires Sound(s) && s.task == ReadClient(e, cur)
    ensures Sound(ReadClientStep(s, e, cur))
  {
    hide Locked, Mail, Heaps, Ids, Linked, TaskSound;
    var s' := ReadClientStep(s, e, cur);
    ReadClientTask(s, e, cur);
    TaskMoves(s, s');
  }

  lemma ReadClientTask(s: State, e: Expiry, cur: Timer)
    requires Linked(s) && TaskSound(s) && s.task == ReadClient(e, cur)
    ensures var s' := ReadClientStep(s, e, cur);
            TaskSound(s') && s' == s.(task := s'.task) && Removing(s'.task).None?
  {
    hide Tree.Contents;
  }

  lemma StopTimerFrame(s: State, c: ClientId)
    ensures var s' := StopTimer(s, c).0;
            s'.task == s.task && s'.clients.Keys == s.clients.Keys
  {
    assert c in s.clients ==> s.clients[c := None].Keys == s.clients.Keys;
  }

  lemma CallStopSound(s: State, e: Expiry, cur: Timer, c: ClientId)
    requires Sound(s) && s.task == CallStop(e, cur, c)
    ensures Sound(CallStopStep(s, e, c))
  {
    hide Sound, StopTimer;
    SoundFacts(s);
    StopTimerSound(s, c);
    StopTimerFrame(s, c);
    var s1 := StopTimer(s, c).0;
    assert c in s1.clients.Keys;
    IdleSound(s1, CallStopStep(s, e, c));
  }

  lemma PopNextSound(s: State, e: Expiry)
    requires Sound(s) && s.task == PopNext(e)
    ensures Sound(PopNextStep(s, e))
  {
    hide Sound, PopTop, HeapAlive, OutRanks;
    SoundFacts(s);
    var heap := s.At(e.kind).heap;
    if heap.Node? && !OutRanks(TimerOfNow(e.now), heap.data) {
      PopTopSound(s, s, e);
    } else {
      IdleSound(s, s.(task := UpdatePc(e.kind, heap, None, None)));
    }
  }

  lemma FreeSound(s: State, s': State)
    requires Sound(s) && SameBooks(s, s') && s'.queue == s.queue
    requires s.task.AddPoll? || s.task.SetTime?
    requires s'.task.AddPoll? || s'.task.SetTime? || s'.task.Delete? || s'.task.Idle?
    requires Removing(s'.task) == Removing(s.task)
    ensures Sound(s')
  {
    hide Locked, Mail, Heaps, Ids, Linked, Tree.Contents;
    TaskMoves(s, s');
  }

  /** Which of its steps the message task takes. */
  lemma TaskStepIs(s: State)
    requires !s.task.Idle?
    ensures s.task.Delete? ==> TaskStep(s) == DeleteDelegate(s, s.task.timer)
    ensures s.task.ReadClient? ==> TaskStep(s) == ReadClientStep(s, s.task.e, s.task.cur)
    ensures s.task.CallStop? ==> TaskStep(s) == CallStopStep(s, s.task.e, s.task.client)
    ensures s.task.PopNext? ==> TaskStep(s) == PopNextStep(s, s.task.e)
  {
    hide DeleteDelegate, ReadClientStep, CallStopStep, PopNextStep;
  }

  /** The steps that touch no object and no heap. */
  predicate Quiet(s: State) {
    s.task.AddPoll? || s.task.SetTime? || (s.task.CallBack? && s.task.client in s.clients)
  }

  lemma QuietStep(s: State)
    requires Quiet(s)
    ensures var s' := TaskStep(s);
            && SameBooks(s, s') && s'.queue == s.queue && s'.stopped == s.stopped && s'.called == s.called
            && s'.poll == s.poll
            && s'.task == match s.task
                          case AddPoll(k, time, free) => SetTime(k, time, free)
                          case SetTime(k, time, free) => Done(free)
                          case CallBack(e, _) => PopNext(e)
                          case _ => Idle
  {
    match s.task
    case AddPoll(k, time, free) => KernelStepFrame(s, k, s.At(k).(polled := true), s.poll);
    case SetTime(k, time, free) => KernelStepFrame(s, k, s.At(k).(armed := KernelTime(time)), s.poll);
    case CallBack(e, c) =>
  }

  lemma QuietSound(s: State)
    requires Sound(s) && Quiet(s)
    ensures Sound(TaskStep(s))
  {
    hide Sound, TaskStep, SameBooks;
    QuietStep(s);
    if s.task.CallBack? {
      IdleSound(s, TaskStep(s));
    } else {
      FreeSound(s, TaskStep(s));
    }
  }

  lemma TaskStepSound(s: State)
    requires Sound(s) && Enabled(s, DoTaskStep)
    ensures Sound(TaskStep(s))
  {
    hide Sound, TaskStep, DeleteDelegate, ReadClientStep, CallStopStep, PopNextStep;
    TaskStepIs(s);
    SoundFacts(s);
    match s.task
    case AddPoll(k, time, free) => QuietSound(s);
    case SetTime(k, time, free) => QuietSound(s);
    case Delete(t) => DeleteSound(s, t);
    case ReadClient(e, cur) => ReadClientSound(s, e, cur);
    case CallStop(e, cur, c) => CallStopSound(s, e, cur, c);
    case CallBack(e, c) => QuietSound(s);
    case PopNext(e) => PopNextSound(s, e);
  }

  /** Every action of every participant keeps the state sound. */
  lemma StepSound(s: State, a: Action)
    requires Sound(s) && Enabled(s, a)
    ensures Sound(Step(s, a))
  {
    hide Sound, NewClient, Start, Stop, Release, PollStep, Receive, TaskStep;
    match a
    case DoNewClient => NewClientSound(s);
    case DoStart(c, ms, k) => StartSound(s, c, ms, k);
    case DoStop(c) => StopSound(s, c);
    case DoRelease(c) => ReleaseSound(s, c);
    case DoTick(now) => SoundFrame(s, Step(s, a));
    case DoWake(todo) => SoundFrame(s, Step(s, a));
    case DoPollStep => PollStepSound(s);
    case DoReceive => ReceiveSound(s);
    case DoTaskStep => TaskStepSound(s);
  }
}
