/** LocTimerContainer of gps/utils/LocTimer.cpp: a heap of timers, with the kernel timer and the
    poll registration that are kept in step with its head. */
module TimerContainers {
  import opened TimeSpecs
  import opened HeapModel
  import opened HeapRuns
  import opened LocHeaps

  datatype RawTimer = RawTimer(id: nat, time: TimeSpec)

  /** A timer delegate, as the heap sees it: an object, named by `id`, with a fixed expiry. */
  type Timer = t: RawTimer | InWindow(t.time) witness RawTimer(0, TimeSpec(1, 0))

  predicate OutRanks(a: Timer, b: Timer) {
    Ranks(a.time, b.time) > 0
  }

  /** The earlier time wins, so ranking timers is what the heap needs it to be. */
  lemma OutRanksIsStrictWeak()
    ensures StrictWeak(OutRanks)
    ensures forall a: Timer, b: Timer :: OutRanks(a, b) <==> a.time.Nanos() < b.time.Nanos()
  {
    forall a: Timer, b: Timer ensures OutRanks(a, b) <==> a.time.Nanos() < b.time.Nanos() {
      RanksInWindow(a.time, b.time);
    }
    forall a: Timer, b: Timer, c: Timer ensures Between(OutRanks, a, b, c) {
    }
  }

  function Top(heap: Tree<Timer>): Option<Timer> {
    if heap.Empty? then None else Some(heap.data)
  }

  /** The kernel timer after setting it: a zero time disarms it. */
  function KernelTime(t: TimeSpec): Option<TimeSpec> {
    if t == TimeSpec(0, 0) then None else Some(t)
  }

  /** The delegate that stands for the current time in comparisons. */
  function TimerOfNow(now: TimeSpec): Timer
    requires InWindow(now)
  {
    RawTimer(0, now)
  }

  /** What has to be done to the kernel timer when the head may have changed from `prior`. */
  datatype Update = Nothing | Disarm | Arm(time: TimeSpec)

  function NeededUpdate(heap: Tree<Timer>, prior: Option<Timer>): Update {
    var cur := Top(heap);
    if cur == prior then Nothing
    else if cur.None? then Disarm
    else if prior.None? || OutRanks(cur.value, prior.value) then Arm(cur.value.time)
    else Nothing
  }

  /** A container's state: its heap, whether its descriptor is polled, and the kernel timer. */
  datatype Container = Container(heap: Tree<Timer>, polled: bool, armed: Option<TimeSpec>) {
    function Updated(prior: Option<Timer>): Container {
      match NeededUpdate(heap, prior)
      case Nothing => this
      case Disarm => this.(polled := false, armed := None)
      case Arm(time) => this.(polled := true, armed := KernelTime(time))
    }

    function Pushed(t: Timer): Container {
      this.(heap := Push(OutRanks, heap, t)).Updated(Top(heap))
    }

    /** The kernel timer is looked at only when the removal returned the old head. */
    function Removed(t: Timer): Container {
      var (found, rest) := Remove(OutRanks, heap, t);
      var removed := if found then Some(t) else None;
      if Top(heap) == removed then this.(heap := rest).Updated(None) else this.(heap := rest)
    }

    function Expired(now: TimeSpec): Container
      requires InWindow(now)
    {
      this.(heap := Drain(OutRanks, heap, TimerOfNow(now)).1).Updated(None)
    }

    /** The kernel will wake the poll thread exactly when the head is due. */
    ghost predicate InStep() {
      heap.Node? ==> polled && armed == KernelTime(heap.data.time)
    }
  }

  /** The three messages never disarm the kernel timer, not even when the heap runs empty. */
  lemma UpdatesNeverDisarm(c: Container, t: Timer, heap: Tree<Timer>)
    requires IsHeap(OutRanks, c.heap)
    ensures NeededUpdate(Push(OutRanks, c.heap, t), Top(c.heap)) != Disarm
    ensures NeededUpdate(heap, None) != Disarm
    ensures NeededUpdate(Push(OutRanks, c.heap, t), Top(c.heap)) ==
            if c.heap.Empty? || OutRanks(t, c.heap.data) then Arm(t.time) else Nothing
  {
    hide IsHeap, Push, Tree.Contents;
    PushIsHeap(OutRanks, c.heap, t);
    if c.heap.Node? && OutRanks(t, c.heap.data) {
      OutRanksIsStrictWeak();
    }
  }

  /** From a kernel timer armed for the head there was before, an update brings it into step with the head
      there is now exactly when that is not due later; an emptied heap is disarmed. */
  lemma UpdatedInStepIff(c: Container, prior: Option<Timer>)
    requires prior.Some? ==> c.polled && c.armed == KernelTime(prior.value.time)
    ensures var after := c.Updated(prior);
            && after.heap == c.heap
            && (after.InStep() <==> c.heap.Empty? || prior.None? || !OutRanks(prior.value, c.heap.data))
            && (c.heap.Empty? && prior.Some? ==> !after.polled && after.armed == None)
  {
    OutRanksIsStrictWeak();
    if c.heap.Node? && prior.Some? && !OutRanks(c.heap.data, prior.value) && !OutRanks(prior.value, c.heap.data) {
      EqualTimes(c.heap.data, prior.value);
    }
  }

  lemma EqualTimes(a: Timer, b: Timer)
    requires !OutRanks(a, b) && !OutRanks(b, a)
    ensures a.time == b.time
  {
    RanksInWindow(a.time, b.time);
    RanksInWindow(b.time, a.time);
  }

  lemma PushKeepsInStep(c: Container, t: Timer)
    requires IsHeap(OutRanks, c.heap) && c.InStep()
    ensures c.Pushed(t).InStep() && IsHeap(OutRanks, c.Pushed(t).heap)
  {
    hide IsHeap, Push;
    PushIsHeap(OutRanks, c.heap, t);
    UpdatesNeverDisarm(c, t, c.heap);
  }

  lemma RemoveKeepsInStep(c: Container, t: Timer)
    requires IsHeap(OutRanks, c.heap) && c.InStep()
    ensures c.Removed(t).InStep() && IsHeap(OutRanks, c.Removed(t).heap)
  {
    hide IsHeap, Remove, Tree.Contents, OutRanks;
    EmptyContents<Timer>();
    RemoveIsComplete(OutRanks, c.heap, t);
  }

  /** With nobody else touching the kernel timer, every message leaves it in step with the head. */
  lemma MessagesKeepInStep(c: Container, t: Timer, now: TimeSpec)
    requires IsHeap(OutRanks, c.heap) && InWindow(now)
    ensures c.InStep() ==> c.Pushed(t).InStep() && c.Removed(t).InStep()
    ensures c.Expired(now).InStep()
  {
    hide IsHeap, Drain, Container.Pushed, Container.Removed;
    if c.InStep() {
      PushKeepsInStep(c, t);
      RemoveKeepsInStep(c, t);
    }
  }

  class LocTimerContainer {
    const heap: LocHeap<Timer>
    var polled: bool
    var armed: Option<TimeSpec>

    ghost predicate Valid()
      reads this, heap, heap.mTree, ReprOf(heap.mTree)
    {
      heap.Valid() && heap.outranks == OutRanks && this !in ReprOf(heap.mTree)
    }

    ghost function Model(): Container
      reads this, heap, heap.mTree
    {
      Container(heap.Model(), polled, armed)
    }

    constructor ()
      ensures Valid() && fresh(heap) && fresh(ReprOf(heap.mTree))
      ensures Model() == Container(Empty, false, None)
    {
      heap := new LocHeap(OutRanks);
      polled, armed := false, None;
    }

    method UpdateSoonestTime(priorTop: Option<Timer>)
      requires Valid()
      modifies this`polled, this`armed
      ensures Valid() && Model() == old(Model()).Updated(priorTop)
    {
      var curTop := heap.Peek();
      if curTop != priorTop {
        var delay := TimeSpec(0, 0);
        var toSetTime := false;
        if curTop.None? {
          polled := false;
          toSetTime := true;
        } else if priorTop.None? || OutRanks(curTop.value, priorTop.value) {
          polled := true;
          delay := curTop.value.time;
          toSetTime := true;
        }
        if toSetTime {
          armed := KernelTime(delay);
        }
      }
    }

    /** Processing a push message. */
    method ProcPush(timer: Timer)
      requires Valid()
      modifies this, heap, ReprOf(heap.mTree)
      ensures Valid() && Model() == old(Model()).Pushed(timer)
    {
      var priorTop := heap.Peek();
      heap.Push(timer);
      UpdateSoonestTime(priorTop);
    }

    /** Processing a remove message. */
    method ProcRemove(timer: Timer)
      requires Valid()
      modifies this, heap, ReprOf(heap.mTree)
      ensures Valid() && Model() == old(Model()).Removed(timer)
    {
      var priorTop := heap.Peek();
      var removed := heap.Remove(timer);
      if priorTop == removed {
        UpdateSoonestTime(None);
      }
    }

    method PopIfOutRanks(limit: Timer) returns (timer: Option<Timer>)
      requires Valid()
      modifies this, heap, ReprOf(heap.mTree)
      ensures Valid() && polled == old(polled) && armed == old(armed)
      ensures ReprOf(heap.mTree) <= old(ReprOf(heap.mTree))
      ensures (timer, heap.Model()) ==
              var t := old(heap.Model());
              if t.Node? && !OutRanks(limit, t.data) then (Some(t.data), Pop(OutRanks, t)) else (None, t)
    {
      timer := None;
      var top := heap.Peek();
      if top.Some? && !OutRanks(limit, top.value) {
        timer := heap.Pop();
      }
    }

    /** Processing an expire message; the popped timers are those whose `expire` is called. */
    method ProcExpire(now: TimeSpec) returns (popped: seq<Timer>)
      requires Valid() && InWindow(now)
      modifies this, heap, ReprOf(heap.mTree)
      ensures Valid() && Model() == old(Model()).Expired(now)
      ensures popped == Drain(OutRanks, old(heap.Model()), TimerOfNow(now)).0
    {
      hide DrainDue, Drain, Remaining, Pop, OutRanks, Container.Updated;
      var timerOfNow := TimerOfNow(now);
      popped := [];
      ghost var all := Drain(OutRanks, heap.Model(), timerOfNow);
      DrainStarts(heap.Model(), timerOfNow);
      var timer := heap.Pop();
      while timer.Some?
        invariant Valid() && polled == old(polled) && armed == old(armed)
        invariant ReprOf(heap.mTree) <= old(ReprOf(heap.mTree))
        invariant Remaining(all, popped, timer, heap.Model(), timerOfNow)
        decreases timer.Some?, heap.Model().Count()
      {
        DrainGoesOn(all, popped, timer.value, heap.Model(), timerOfNow);
        popped := popped + [timer.value];
        timer := PopIfOutRanks(timerOfNow);
      }
      DrainEnds(all, popped, heap.Model(), timerOfNow);
      UpdateSoonestTime(None);
    }
  }

  /** What has been popped, the timer just popped, and what will be popped of the heap make up `all`. */
  ghost predicate Remaining(all: (seq<Timer>, Tree<Timer>), popped: seq<Timer>, timer: Option<Timer>,
                            heap: Tree<Timer>, limit: Timer)
  {
    match timer
    case None => all == (popped, heap)
    case Some(t) =>
      var (rest, final) := DrainDue(OutRanks, heap, limit);
      all == (popped + [t] + rest, final)
  }

  lemma DrainStarts(heap: Tree<Timer>, limit: Timer)
    ensures var (timer, rest) := Apply(OutRanks, heap, DoPop);
            Remaining(Drain(OutRanks, heap, limit), [], timer, rest, limit)
  {
    hide DrainDue, Pop;
    assert heap.Node? ==> [] + [heap.data] == [heap.data];
  }

  lemma DrainGoesOn(all: (seq<Timer>, Tree<Timer>), popped: seq<Timer>, t: Timer, heap: Tree<Timer>, limit: Timer)
    requires Remaining(all, popped, Some(t), heap, limit)
    ensures if heap.Node? && !OutRanks(limit, heap.data)
            then Remaining(all, popped + [t], Some(heap.data), Pop(OutRanks, heap), limit)
            else Remaining(all, popped + [t], None, heap, limit)
  {
    hide DrainDue, Pop, OutRanks;
    DrainDueCases(heap, limit);
    var rest := DrainDue(OutRanks, heap, limit).0;
    if rest == [] {
      assert popped + [t] + [] == popped + [t];
    } else {
      assert popped + [t] + rest == popped + [t] + [rest[0]] + rest[1..];
    }
  }

  lemma DrainEnds(all: (seq<Timer>, Tree<Timer>), popped: seq<Timer>, heap: Tree<Timer>, limit: Timer)
    requires Remaining(all, popped, None, heap, limit)
    ensures all == (popped, heap)
  {
  }

  lemma DrainDueCases(t: Tree<Timer>, limit: Timer)
    ensures DrainDue(OutRanks, t, limit) ==
            if t.Empty? || OutRanks(limit, t.data) then ([], t)
            else var (popped, rest) := DrainDue(OutRanks, Pop(OutRanks, t), limit); ([t.data] + popped, rest)
  {
  }
}
