/** The blocking message queue of gps/utils/msg_q.c: a mutex, a condition variable and a list. */
module MsgQueues {
  import opened HeapRuns
  import opened LinkedLists

  datatype MsgError = MsgSuccess | MsgInvalidParameter | MsgUnavailableResource

  datatype Receipt<+T> = Received(data: T) | Failed(error: MsgError) | Waiting

  /** The queue as its mutex protects it: messages oldest first, and the threads inside `msg_q_rcv`
      that sleep on the condition variable or have been woken and must still take the mutex. */
  datatype Queue<T> = Queue(queued: seq<Item<T>>, unblocked: bool, asleep: nat, woken: nat) {
    function Signalled(): Queue<T> {
      if asleep == 0 then this else this.(asleep := asleep - 1, woken := woken + 1)
    }

    function Snd(msg: Option<Item<T>>): (Queue<T>, MsgError) {
      if msg.None? then (this, MsgInvalidParameter)
      else if unblocked then (this, MsgUnavailableResource)
      else (this.(queued := queued + [msg.value]).Signalled(), MsgSuccess)
    }

    /** One look at the queue under the mutex: wait, or leave the wait loop and remove. */
    function TryRcv(): (Queue<T>, Receipt<T>) {
      if queued != [] then (this.(queued := queued[1..]), Received(queued[0].data))
      else if unblocked then (this, Failed(MsgUnavailableResource))
      else (this.(asleep := asleep + 1), Waiting)
    }

    function RcvEnter(): (Queue<T>, Receipt<T>) {
      if unblocked then (this, Failed(MsgUnavailableResource)) else TryRcv()
    }

    function RcvResume(): (Queue<T>, Receipt<T>)
      requires woken > 0
    {
      this.(woken := woken - 1).TryRcv()
    }

    function Unblock(): (Queue<T>, MsgError) {
      if unblocked then (this, MsgUnavailableResource)
      else (this.(unblocked := true, woken := woken + asleep, asleep := 0), MsgSuccess)
    }
  }

  ghost function Reversed<T>(s: seq<T>): (r: seq<T>)
    ensures |r| == |s| && forall i | 0 <= i < |s| :: r[i] == s[|s| - 1 - i]
  {
    seq(|s|, i requires 0 <= i < |s| => s[|s| - 1 - i])
  }

  lemma ReversedCons<T>(x: T, s: seq<T>)
    ensures Reversed([x] + s) == Reversed(s) + [x]
  {
  }

  lemma ReversedFront<T>(s: seq<T>)
    requires s != []
    ensures Reversed(s) == [s[|s| - 1]] + Reversed(s[..|s| - 1])
  {
  }

  lemma ReversedTwice<T>(s: seq<T>)
    ensures Reversed(Reversed(s)) == s
  {
  }

  lemma {:induction false} DeallocatedReversed<T>(items: seq<Item<T>>)
    ensures multiset(Deallocated(Reversed(items))) == multiset(Deallocated(items))
  {
    if items != [] {
      var first := if items[0].hasDealloc then [items[0].data] else [];
      assert Reversed(items) == Reversed(items[1..]) + [items[0]];
      DeallocatedAppend(Reversed(items[1..]), items[0]);
      DeallocatedReversed(items[1..]);
    }
  }

  class MsgQueue<T> {
    const list: LinkedList<T>
    var unblocked: bool
    /** The waiters of `list_cond`: sleeping, and woken but without the mutex yet. */
    var asleep: nat
    var woken: nat

    ghost predicate Valid()
      reads this, list, list.spine
    {
      list.Valid()
    }

    ghost function Contents(): Queue<T>
      reads this, list
    {
      Queue(Reversed(list.Items()), unblocked, asleep, woken)
    }

    constructor ()
      ensures Valid() && Contents() == Queue([], false, 0, 0)
      ensures fresh(list)
    {
      list := new LinkedList();
      unblocked, asleep, woken := false, 0, 0;
    }

    method Snd(msg: Option<Item<T>>) returns (err: MsgError)
      requires Valid()
      modifies this, list, list.spine
      ensures Valid() && (Contents(), err) == old(Contents()).Snd(msg)
    {
      hide Reversed;
      if msg.None? {
        return MsgInvalidParameter;
      }
      if unblocked {
        return MsgUnavailableResource;
      }
      ReversedCons(msg.value, list.Items());
      var added := list.Add(msg);
      if asleep > 0 {
        asleep, woken := asleep - 1, woken + 1;
      }
      err := MsgSuccess;
    }

    method TryRcv() returns (receipt: Receipt<T>)
      requires Valid()
      modifies this, list, list.spine
      ensures Valid() && (Contents(), receipt) == old(Contents()).TryRcv()
    {
      hide Reversed;
      ghost var items := list.Items();
      if items != [] {
        ReversedFront(items);
      }
      var empty := list.IsEmpty();
      if empty && !unblocked {
        asleep := asleep + 1;
        return Waiting;
      }
      var err, data := list.Remove();
      if err != ListSuccess {
        return Failed(MsgUnavailableResource);
      }
      receipt := Received(data.value);
    }

    method RcvEnter() returns (receipt: Receipt<T>)
      requires Valid()
      modifies this, list, list.spine
      ensures Valid() && (Contents(), receipt) == old(Contents()).RcvEnter()
    {
      if unblocked {
        return Failed(MsgUnavailableResource);
      }
      receipt := TryRcv();
    }

    method RcvResume() returns (receipt: Receipt<T>)
      requires Valid() && woken > 0
      modifies this, list, list.spine
      ensures Valid() && (Contents(), receipt) == old(Contents()).RcvResume()
    {
      woken := woken - 1;
      receipt := TryRcv();
    }

    /** Frees everything queued, newest first. */
    method Flush() returns (freed: seq<T>)
      requires Valid()
      modifies list
      ensures Valid() && Contents() == old(Contents()).(queued := [])
      ensures freed == Deallocated(Reversed(old(Contents()).queued))
    {
      ReversedTwice(list.Items());
      freed := list.Flush();
    }

    method Unblock() returns (err: MsgError)
      requires Valid()
      modifies this
      ensures Valid() && (Contents(), err) == old(Contents()).Unblock()
    {
      if unblocked {
        return MsgUnavailableResource;
      }
      unblocked := true;
      woken, asleep := woken + asleep, 0;
      return MsgSuccess;
    }
  }

  // ---- Runs -------------------------------------------------------------------------------------

  /** What can happen next, by any thread. A thread may also wake for no reason. */
  datatype Event<+T> =
    | SndEvent(msg: Option<Item<T>>)
    | EnterEvent
    | ResumeEvent
    | SpuriousWake
    | FlushEvent
    | UnblockEvent

  /** How an accepted message left the queue. */
  datatype Exit<+T> = Delivered(item: Item<T>) | Flushed(item: Item<T>)

  datatype History<T> = History(q: Queue<T>, accepted: seq<Item<T>>, received: seq<T>, freed: seq<T>)

  function Start<T>(): History<T> {
    History(Queue([], false, 0, 0), [], [], [])
  }

  ghost predicate Possible<T>(q: Queue<T>, e: Event<T>) {
    && (e.ResumeEvent? ==> q.woken > 0)
    && (e.SpuriousWake? ==> q.asleep > 0)
  }

  function Got<T>(h: History<T>, answer: (Queue<T>, Receipt<T>)): History<T> {
    h.(q := answer.0, received := h.received + if answer.1.Received? then [answer.1.data] else [])
  }

  ghost function Next<T>(h: History<T>, e: Event<T>): History<T>
    requires Possible(h.q, e)
  {
    match e
    case SndEvent(msg) =>
      var (q, err) := h.q.Snd(msg);
      h.(q := q, accepted := h.accepted + if err.MsgSuccess? then [msg.value] else [])
    case EnterEvent => Got(h, h.q.RcvEnter())
    case ResumeEvent => Got(h, h.q.RcvResume())
    case SpuriousWake => h.(q := h.q.Signalled())
    case FlushEvent => h.(q := h.q.(queued := []), freed := h.freed + Deallocated(Reversed(h.q.queued)))
    case UnblockEvent => h.(q := h.q.Unblock().0)
  }

  ghost predicate CanRun<T>(h: History<T>, events: seq<Event<T>>)
    decreases |events|
  {
    events == [] || (Possible(h.q, events[0]) && CanRun(Next(h, events[0]), events[1..]))
  }

  ghost function Run<T>(h: History<T>, events: seq<Event<T>>): History<T>
    requires CanRun(h, events)
    decreases |events|
  {
    if events == [] then h else Run(Next(h, events[0]), events[1..])
  }

  ghost function Exits<T>(exits: seq<Exit<T>>): (items: seq<Item<T>>)
    ensures |items| == |exits| && forall i | 0 <= i < |exits| :: items[i] == exits[i].item
  {
    seq(|exits|, i requires 0 <= i < |exits| => exits[i].item)
  }

  ghost function DeliveredOf<T>(exits: seq<Exit<T>>): seq<T> {
    if exits == [] then []
    else (if exits[0].Delivered? then [exits[0].item.data] else []) + DeliveredOf(exits[1..])
  }

  ghost function FlushedOf<T>(exits: seq<Exit<T>>): seq<Item<T>> {
    if exits == [] then []
    else (if exits[0].Flushed? then [exits[0].item] else []) + FlushedOf(exits[1..])
  }

  /** Every accepted message has left in the order it came or is still queued; what was received is
      what left by delivery, and what was flushed had its deallocator called once each. */
  ghost predicate Explains<T>(h: History<T>, exits: seq<Exit<T>>) {
    && h.accepted == Exits(exits) + h.q.queued
    && h.received == DeliveredOf(exits)
    && multiset(h.freed) == multiset(Deallocated(FlushedOf(exits)))
  }

  /** While a receiver sleeps, each queued message has a woken receiver coming for it. */
  ghost predicate NoLostWakeup<T>(q: Queue<T>) {
    q.asleep > 0 ==> !q.unblocked && |q.queued| <= q.woken
  }

  lemma {:induction false} DeliveredAppend<T>(a: seq<Exit<T>>, b: seq<Exit<T>>)
    ensures DeliveredOf(a + b) == DeliveredOf(a) + DeliveredOf(b)
  {
    if a == [] {
      assert a + b == b;
    } else {
      assert (a + b)[0] == a[0] && (a + b)[1..] == a[1..] + b;
      DeliveredAppend(a[1..], b);
    }
  }

  lemma {:induction false} FlushedAppend<T>(a: seq<Exit<T>>, b: seq<Exit<T>>)
    ensures FlushedOf(a + b) == FlushedOf(a) + FlushedOf(b)
  {
    if a == [] {
      assert a + b == b;
    } else {
      assert (a + b)[0] == a[0] && (a + b)[1..] == a[1..] + b;
      FlushedAppend(a[1..], b);
    }
  }

  lemma {:induction false} DeallocatedConcat<T>(a: seq<Item<T>>, b: seq<Item<T>>)
    ensures Deallocated(a + b) == Deallocated(a) + Deallocated(b)
  {
    if a == [] {
      assert a + b == b;
    } else {
      assert (a + b)[0] == a[0] && (a + b)[1..] == a[1..] + b;
      DeallocatedConcat(a[1..], b);
    }
  }

  ghost function AllFlushed<T>(items: seq<Item<T>>): (exits: seq<Exit<T>>)
    ensures Exits(exits) == items
  {
    seq(|items|, i requires 0 <= i < |items| => Flushed(items[i]))
  }

  lemma {:induction false} AllFlushedIs<T>(items: seq<Item<T>>)
    ensures DeliveredOf(AllFlushed(items)) == [] && FlushedOf(AllFlushed(items)) == items
  {
    if items != [] {
      assert AllFlushed(items)[1..] == AllFlushed(items[1..]);
      AllFlushedIs(items[1..]);
    }
  }

  lemma ExitsAppend<T>(a: seq<Exit<T>>, b: seq<Exit<T>>)
    ensures Exits(a + b) == Exits(a) + Exits(b)
    ensures DeliveredOf(a + b) == DeliveredOf(a) + DeliveredOf(b)
    ensures FlushedOf(a + b) == FlushedOf(a) + FlushedOf(b)
  {
    DeliveredAppend(a, b);
    FlushedAppend(a, b);
  }

  lemma OneDelivered<T>(item: Item<T>)
    ensures var one := [Delivered(item)];
            Exits(one) == [item] && DeliveredOf(one) == [item.data] && FlushedOf(one) == []
  {
    assert [Delivered(item)][1..] == [];
  }

  /** A delivery, or a whole flush. */
  lemma ExplainsTake<T>(h: History<T>, exits: seq<Exit<T>>, q: Queue<T>) returns (more: seq<Exit<T>>)
    requires Explains(h, exits) && h.q.queued != [] && q.queued == h.q.queued[1..]
    ensures Explains(h.(q := q, received := h.received + [h.q.queued[0].data]), more)
  {
    hide Exits, DeliveredOf, FlushedOf, Deallocated;
    var first := h.q.queued[0];
    more := exits + [Delivered(first)];
    assert h.q.queued == [first] + q.queued;
    assert Exits(more) + q.queued == Exits(exits) + h.q.queued && DeliveredOf(more) == h.received + [first.data]
        && FlushedOf(more) == FlushedOf(exits) by {
      ExitsAppend(exits, [Delivered(first)]);
      OneDelivered(first);
    }
  }

  lemma ExplainsFlush<T>(h: History<T>, exits: seq<Exit<T>>) returns (more: seq<Exit<T>>)
    requires Explains(h, exits)
    ensures Explains(Next(h, FlushEvent), more)
  {
    hide Exits, DeliveredOf, FlushedOf, Deallocated, Reversed, AllFlushed;
    var all := AllFlushed(h.q.queued);
    more := exits + all;
    assert Exits(more) == h.accepted && DeliveredOf(more) == h.received
        && FlushedOf(more) == FlushedOf(exits) + h.q.queued by {
      ExitsAppend(exits, all);
      AllFlushedIs(h.q.queued);
    }
    DeallocatedConcat(FlushedOf(exits), h.q.queued);
    DeallocatedReversed(h.q.queued);
  }

  lemma ExplainsNext<T>(h: History<T>, exits: seq<Exit<T>>, e: Event<T>) returns (more: seq<Exit<T>>)
    requires Explains(h, exits) && Possible(h.q, e)
    ensures Explains(Next(h, e), more)
  {
    hide Exits, DeliveredOf, FlushedOf, Deallocated;
    more := exits;
    match e
    case SndEvent(msg) =>
      if msg.Some? {
        assert Exits(exits) + (h.q.queued + [msg.value]) == Exits(exits) + h.q.queued + [msg.value];
      }
    case EnterEvent =>
      if !h.q.unblocked && h.q.queued != [] {
        more := ExplainsTake(h, exits, h.q.RcvEnter().0);
      }
    case ResumeEvent =>
      if h.q.queued != [] {
        more := ExplainsTake(h, exits, h.q.RcvResume().0);
      }
    case SpuriousWake =>
    case FlushEvent => more := ExplainsFlush(h, exits);
    case UnblockEvent =>
  }

  lemma NextKeepsWakeups<T>(h: History<T>, e: Event<T>)
    requires NoLostWakeup(h.q) && Possible(h.q, e)
    ensures NoLostWakeup(Next(h, e).q)
  {
  }

  lemma {:induction false} RunKeeps<T>(h: History<T>, exits: seq<Exit<T>>, events: seq<Event<T>>)
    returns (more: seq<Exit<T>>)
    requires CanRun(h, events) && Explains(h, exits) && NoLostWakeup(h.q)
    ensures Explains(Run(h, events), more) && NoLostWakeup(Run(h, events).q)
    decreases |events|
  {
    hide Next, Explains, NoLostWakeup, Possible;
    if events == [] {
      more := exits;
    } else {
      var next := ExplainsNext(h, exits, events[0]);
      NextKeepsWakeups(h, events[0]);
      more := RunKeeps(Next(h, events[0]), next, events[1..]);
    }
  }

  /** Over every run: first in, first out, each message delivered or freed once at most, and no
      receiver sleeps beside a message nobody is coming for. */
  lemma EveryRunIsFifo<T>(events: seq<Event<T>>)
    requires CanRun(Start(), events)
    ensures exists exits :: Explains(Run(Start(), events), exits)
    ensures NoLostWakeup(Run(Start(), events).q)
  {
    var exits := RunKeeps(Start(), [], events);
  }

  function DataOf<T>(items: seq<Item<T>>): (data: seq<T>)
    ensures |data| == |items| && forall i | 0 <= i < |items| :: data[i] == items[i].data
  {
    seq(|items|, i requires 0 <= i < |items| => items[i].data)
  }

  lemma FifoStep<T>(h: History<T>, e: Event<T>, before: seq<Item<T>>) returns (taken: seq<Item<T>>)
    requires Possible(h.q, e) && e != FlushEvent && h.accepted == before + h.q.queued
    ensures var next := Next(h, e);
            && next.accepted == before + taken + next.q.queued
            && next.received == h.received + DataOf(taken) && next.freed == h.freed
  {
    taken := [];
    match e
    case SndEvent(msg) =>
      assert msg.Some? ==> before + (h.q.queued + [msg.value]) == before + h.q.queued + [msg.value];
    case EnterEvent =>
      if !h.q.unblocked && h.q.queued != [] {
        taken := FifoTake(h, before);
      }
    case ResumeEvent =>
      if h.q.queued != [] {
        taken := FifoTake(h, before);
      }
    case SpuriousWake =>
    case UnblockEvent =>
  }

  lemma FifoTake<T>(h: History<T>, before: seq<Item<T>>) returns (taken: seq<Item<T>>)
    requires h.q.queued != [] && h.accepted == before + h.q.queued
    ensures taken == [h.q.queued[0]] && DataOf(taken) == [h.q.queued[0].data]
    ensures h.accepted == before + taken + h.q.queued[1..]
  {
    taken := [h.q.queued[0]];
    assert h.q.queued == taken + h.q.queued[1..];
  }

  /** Without a flush, what was accepted is what was received followed by what is queued. */
  lemma {:induction false} FifoWithoutFlush<T>(h: History<T>, events: seq<Event<T>>, before: seq<Item<T>>)
    returns (taken: seq<Item<T>>)
    requires CanRun(h, events) && FlushEvent !in events
    requires h.accepted == before + h.q.queued
    ensures var end := Run(h, events);
            && end.accepted == before + taken + end.q.queued
            && end.received == h.received + DataOf(taken) && end.freed == h.freed
    decreases |events|
  {
    hide Next, Possible;
    if events == [] {
      taken := [];
      assert before + taken == before;
    } else {
      var first := FifoStep(h, events[0], before);
      var rest := FifoWithoutFlush(Next(h, events[0]), events[1..], before + first);
      taken := first + rest;
      assert before + taken == before + first + rest && DataOf(taken) == DataOf(first) + DataOf(rest);
    }
  }

  // ---- Before and after an unblock -----------------------------------------------------------------

  lemma {:induction false} RunInTwo<T>(h: History<T>, before: seq<Event<T>>, after: seq<Event<T>>)
    requires CanRun(h, before + after)
    ensures CanRun(h, before) && CanRun(Run(h, before), after)
    ensures Run(h, before + after) == Run(Run(h, before), after)
    decreases |before|
  {
    hide Next, Possible;
    if before == [] {
      assert before + after == after;
    } else {
      assert (before + after)[1..] == before[1..] + after;
      RunInTwo(Next(h, before[0]), before[1..], after);
    }
  }

  /** An unblock leaves nobody asleep, and takes no message. */
  lemma UnblockWakesAll<T>(h: History<T>)
    requires NoLostWakeup(h.q)
    ensures var next := Next(h, UnblockEvent);
            && next.q == Queue(h.q.queued, true, 0, h.q.woken + h.q.asleep)
            && next == h.(q := next.q)
  {
  }

  /** A queue is unblocked exactly when somebody has unblocked it. */
  lemma {:induction false} UnblockedIff<T>(h: History<T>, events: seq<Event<T>>)
    requires CanRun(h, events)
    ensures Run(h, events).q.unblocked <==> h.q.unblocked || UnblockEvent in events
    decreases |events|
  {
    if events != [] {
      UnblockedStep(h, events[0]);
      hide Next, Possible;
      UnblockedIff(Next(h, events[0]), events[1..]);
      assert UnblockEvent in events <==> events[0] == UnblockEvent || UnblockEvent in events[1..];
    }
  }

  lemma UnblockedStep<T>(h: History<T>, e: Event<T>)
    requires Possible(h.q, e)
    ensures Next(h, e).q.unblocked <==> h.q.unblocked || e == UnblockEvent
  {
  }

  /** A flush deallocates exactly what was queued, once each, and moves no thread. */
  lemma FlushFreesQueued<T>(h: History<T>)
    ensures var next := Next(h, FlushEvent);
            && next.q == Queue([], h.q.unblocked, h.q.asleep, h.q.woken)
            && next.accepted == h.accepted && next.received == h.received
            && multiset(next.freed) == multiset(h.freed) + multiset(Deallocated(h.q.queued))
  {
    hide Deallocated;
    DeallocatedReversed(h.q.queued);
  }

  /** What is known of a queue that has been through `events`. */
  lemma AfterRun<T>(events: seq<Event<T>>)
    requires CanRun(Start(), events)
    ensures var q := Run(Start(), events).q;
            && (q.unblocked <==> UnblockEvent in events)
            && NoLostWakeup(q) && (UnblockEvent in events ==> q.asleep == 0)
  {
    hide CanRun, Run;
    UnblockedIff(Start(), events);
    EveryRunIsFifo(events);
  }

  /** A send is accepted exactly when nobody has unblocked the queue before it; then it wakes a sleeping
      receiver, if there is one, and else it changes nothing. */
  lemma SendAcceptedIff<T>(events: seq<Event<T>>, msg: Item<T>)
    requires CanRun(Start(), events)
    ensures var h := Run(Start(), events);
            var next, wakes := Next(h, SndEvent(Some(msg))), if h.q.asleep > 0 then 1 else 0;
            if UnblockEvent in events then next == h
            else
              && next.accepted == h.accepted + [msg] && next.received == h.received && next.freed == h.freed
              && next.q == Queue(h.q.queued + [msg], false, h.q.asleep - wakes, h.q.woken + wakes)
  {
    hide CanRun, Run;
    AfterRun(events);
  }

  /** A receive takes the oldest message there is, unless it enters after an unblock; it goes to sleep
      exactly when there is none and nobody has unblocked the queue. */
  lemma ReceiveTakesOldest<T>(events: seq<Event<T>>, e: Event<T>)
    requires CanRun(Start(), events) && Possible(Run(Start(), events).q, e) && (e.EnterEvent? || e.ResumeEvent?)
    ensures var h := Run(Start(), events);
            var next := Next(h, e);
            && next.accepted == h.accepted && next.freed == h.freed
            && (if h.q.queued != [] && (e.ResumeEvent? || UnblockEvent !in events)
                then next.received == h.received + [h.q.queued[0].data] && next.q.queued == h.q.queued[1..]
                else next.received == h.received && next.q.queued == h.q.queued)
            && next.q.asleep == h.q.asleep + (if h.q.queued == [] && UnblockEvent !in events then 1 else 0)
            && next.q.woken == h.q.woken - (if e.ResumeEvent? then 1 else 0)
  {
    hide CanRun, Run;
    AfterRun(events);
  }

  /** From the first unblock on, no send is accepted and nobody sleeps, whatever happens next. */
  lemma NothingAcceptedAfterUnblock<T>(before: seq<Event<T>>, after: seq<Event<T>>)
    requires CanRun(Start(), before + after) && UnblockEvent in before
    ensures CanRun(Start(), before)
    ensures var end := Run(Start(), before + after);
            end.accepted == Run(Start(), before).accepted && end.q.asleep == 0
  {
    hide CanRun, Run, Next;
    RunInTwo(Start(), before, after);
    AfterRun(before);
    AfterRun(before + after);
    UnblockedAcceptsNothing(Run(Start(), before), after);
  }

  lemma {:induction false} UnblockedAcceptsNothing<T>(h: History<T>, events: seq<Event<T>>)
    requires CanRun(h, events) && h.q.unblocked
    ensures Run(h, events).accepted == h.accepted
    decreases |events|
  {
    if events != [] {
      UnblockedAcceptsNothing(Next(h, events[0]), events[1..]);
    }
  }
}
