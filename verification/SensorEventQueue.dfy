/** The ring buffer of sensors/SensorEventQueue.cpp, which hands out a contiguous region that one
    writer fills without the lock while a reader keeps dequeuing. */
module SensorEventQueues {
  import opened HeapRuns

  /** Position x of a ring that has been walked past its end at most once. */
  function Wrap(x: nat, capacity: nat): nat {
    if x < capacity then x else x - capacity
  }

  lemma WrapIsModulo(x: nat, capacity: nat)
    requires x < 2 * capacity
    ensures x % capacity == Wrap(x, capacity)
  {
    if x >= capacity {
      var q, rem := x / capacity, x % capacity;
      assert x == q * capacity + rem;
      assert q >= 2 ==> q * capacity >= 2 * capacity;
      assert q == 1;
    }
  }

  /** The readable records, oldest first. */
  ghost function Readable<E>(data: seq<E>, start: nat, size: nat): (events: seq<E>)
    requires size <= |data| && (start < |data| || size == 0)
    ensures |events| == size
    ensures forall i | 0 <= i < size :: events[i] == data[Wrap(start + i, |data|)]
  {
    seq(size, i requires 0 <= i < size => data[Wrap(start + i, |data|)])
  }

  function Min(a: int, b: int): int {
    if a < b then a else b
  }

  /** Where the next record goes. */
  function Tail(start: nat, size: nat, capacity: nat): nat
    requires start < capacity && size <= capacity
  {
    Wrap(start + size, capacity)
  }

  /** How many records a request gets: never past the array's end, nor into a readable slot. */
  function RegionLength(start: nat, size: nat, capacity: nat, requested: int): nat
    requires start < capacity || capacity == 0
    requires size <= capacity
  {
    if size == capacity || requested <= 0 then 0
    else Min(requested, Min(capacity - Tail(start, size, capacity), capacity - size))
  }

  /** Where the i-th readable record is. */
  function Nth(start: nat, i: nat, capacity: nat): nat {
    Wrap(start + i, capacity)
  }

  ghost predicate IsReadable(start: nat, size: nat, capacity: nat, slot: nat) {
    exists i | 0 <= i < size :: Nth(start, i, capacity) == slot
  }

  /** A writer may have `length` slots from the tail on: they are in the array and none is readable. */
  ghost predicate MayWrite(start: nat, size: nat, capacity: nat, length: nat)
    requires start < capacity && size <= capacity
  {
    var first := Tail(start, size, capacity);
    && first + length <= capacity
    && forall slot | first <= slot < first + length :: !IsReadable(start, size, capacity, slot)
  }

  /** A request gets as many slots as a writer may have, and no more than it asked for. */
  lemma RegionIsLargest(start: nat, size: nat, capacity: nat, requested: int, length: nat)
    requires start < capacity && size <= capacity
    ensures length <= RegionLength(start, size, capacity, requested) <==>
            length == 0 || (length <= requested && MayWrite(start, size, capacity, length))
  {
    var first, longest := Tail(start, size, capacity), RegionLength(start, size, capacity, requested);
    if length <= longest {
      forall slot: nat | first <= slot < first + length ensures !IsReadable(start, size, capacity, slot) {
        forall i | 0 <= i < size ensures Nth(start, i, capacity) != slot {
        }
      }
    } else if longest < requested && first + length <= capacity {
      NextIsReadable(start, size, capacity, requested);
      assert IsReadable(start, size, capacity, first + longest);
    }
  }

  /** Where a request is cut short inside the array, the next slot is the oldest readable one. */
  lemma NextIsReadable(start: nat, size: nat, capacity: nat, requested: int)
    requires start < capacity && size <= capacity
    requires RegionLength(start, size, capacity, requested) < requested
    ensures var next := Tail(start, size, capacity) + RegionLength(start, size, capacity, requested);
            next == capacity || (next == start && IsReadable(start, size, capacity, next))
  {
    var next := Tail(start, size, capacity) + RegionLength(start, size, capacity, requested);
    if next != capacity {
      assert Nth(start, 0, capacity) == next;
    }
  }

  /** The queue as its lock protects it, and what each operation makes of it. */
  datatype Slots<E> = Slots(data: seq<E>, start: nat, size: nat) {
    predicate Shaped() {
      size <= |data| && (start < |data| || (|data| == 0 && start == 0))
    }

    ghost function Contents(): seq<E>
      requires Shaped()
    {
      Readable(data, start, size)
    }

    function Put(slot: nat, event: E): Slots<E>
      requires slot < |data|
    {
      this.(data := data[slot := event])
    }

    function Marked(count: nat): Slots<E> {
      this.(size := size + count)
    }

    function Dequeued(): Slots<E> {
      if size == 0 then this else this.(size := size - 1, start := Wrap(start + 1, |data|))
    }
  }

  class SensorEventQueue<E(0)> {
    const data: array<E>
    var start: nat
    var size: nat

    ghost predicate Valid()
      reads this
    {
      size <= data.Length && (start < data.Length || (data.Length == 0 && start == 0))
    }

    ghost function AsSlots(): Slots<E>
      reads this, data
    {
      Slots(data[..], start, size)
    }

    ghost function Contents(): seq<E>
      requires Valid()
      reads this, data
    {
      AsSlots().Contents()
    }

    constructor (capacity: nat)
      ensures Valid() && fresh(data) && data.Length == capacity && Contents() == []
    {
      data := new E[capacity];
      start, size := 0, 0;
    }

    method GetWritableRegion(requested: int) returns (first: nat, length: nat)
      requires Valid()
      ensures length == RegionLength(start, size, data.Length, requested)
      ensures length > 0 ==> first == Tail(start, size, data.Length) && first + length <= data.Length
      ensures data.Length > 0 ==>
                forall m: nat :: m <= length <==> m == 0 || (m <= requested && MayWrite(start, size, data.Length, m))
    {
      if data.Length > 0 {
        forall m: nat
          ensures m <= RegionLength(start, size, data.Length, requested) <==>
                  m == 0 || (m <= requested && MayWrite(start, size, data.Length, m))
        {
          RegionIsLargest(start, size, data.Length, requested, m);
        }
      }
      hide MayWrite;
      if size == data.Length || requested <= 0 {
        return 0, 0;
      }
      WrapIsModulo(start + size, data.Length);
      first := (start + size) % data.Length;
      var last := first + requested - 1;
      if last > data.Length - 1 {
        last := data.Length - 1;
      }
      if first < start && last >= start {
        last := start - 1;
      }
      length := last - first + 1;
    }

    /** The device writes one record of the region it was given, without the lock. */
    method Write(first: nat, length: nat, offset: nat, event: E)
      requires Valid() && offset < length <= RegionLength(start, size, data.Length, length)
      requires first == Tail(start, size, data.Length)
      modifies data
      ensures AsSlots() == old(AsSlots()).Put(first + offset, event)
      ensures Contents() == old(Contents())
    {
      data[first + offset] := event;
      assert AsSlots().data == old(AsSlots()).data[first + offset := event];
      forall i | 0 <= i < size ensures Contents()[i] == old(Contents())[i] {
      }
    }

    method MarkAsWritten(count: nat)
      requires Valid()
      requires count > 0 ==> count <= RegionLength(start, size, data.Length, count)
      modifies this
      ensures Valid() && AsSlots() == old(AsSlots()).Marked(count)
      ensures count == 0 ==> Contents() == old(Contents())
      ensures count > 0 ==>
                var first := Tail(old(start), old(size), data.Length);
                Contents() == old(Contents()) + data[first..first + count]
    {
      size := size + count;
    }

    method GetSize() returns (n: nat)
      requires Valid()
      ensures n == |Contents()|
    {
      return size;
    }

    method Peek() returns (event: Option<E>)
      requires Valid()
      ensures event == if Contents() == [] then None else Some(Contents()[0])
    {
      if size == 0 {
        return None;
      }
      return Some(data[start]);
    }

    /** `broadcast` says whether the waiters for space are woken. */
    method Dequeue() returns (broadcast: bool)
      requires Valid()
      modifies this
      ensures Valid() && AsSlots() == old(AsSlots()).Dequeued()
      ensures Contents() == if old(Contents()) == [] then [] else old(Contents())[1..]
      ensures broadcast <==> old(Contents()) != [] && |old(Contents())| == data.Length
    {
      if size == 0 {
        return false;
      }
      broadcast := size == data.Length;
      size := size - 1;
      WrapIsModulo(start + 1, data.Length);
      start := (start + 1) % data.Length;
    }
  }

  // ---- One writer outside the lock, one reader inside it ------------------------------------------

  /** The ring, the region the writer holds (empty when it holds none), and what has happened. */
  datatype Ring<E> = Ring(slots: Slots<E>, first: nat, length: nat, committed: seq<E>, dequeued: seq<E>) {
    ghost function Contents(): seq<E>
      requires slots.Shaped()
    {
      slots.Contents()
    }

    /** The slots the writer may touch, and those the reader may. */
    ghost predicate Reserved(slot: nat) {
      first <= slot < first + length
    }

    function SlotOf(i: nat): nat {
      Wrap(slots.start + i, |slots.data|)
    }

    ghost predicate InUse(slot: nat) {
      exists i | 0 <= i < slots.size :: SlotOf(i) == slot
    }

    /** What the device has put in its region, or found there. */
    ghost function Image(): seq<E>
      requires first + length <= |slots.data|
    {
      slots.data[first..first + length]
    }

    ghost predicate Safe() {
      && slots.Shaped() && slots.data != []
      && first + length <= |slots.data| && slots.size + length <= |slots.data|
      && (length > 0 ==> first == Tail(slots.start, slots.size, |slots.data|))
    }
  }

  datatype Action<E> = Reserve(requested: int) | Write(offset: nat, event: E) | Commit(count: int) | Dequeue

  ghost predicate Enabled<E>(r: Ring<E>, a: Action<E>) {
    match a
    case Reserve(requested) => r.length == 0
    case Write(offset, event) => offset < r.length
    case Commit(count) => count <= r.length
    case Dequeue => true
  }

  ghost function Step<E>(r: Ring<E>, a: Action<E>): Ring<E>
    requires r.Safe() && Enabled(r, a)
  {
    match a
    case Reserve(requested) =>
      var n := RegionLength(r.slots.start, r.slots.size, |r.slots.data|, requested);
      if n == 0 then r else r.(first := Tail(r.slots.start, r.slots.size, |r.slots.data|), length := n)
    case Write(offset, event) => r.(slots := r.slots.Put(r.first + offset, event))
    case Commit(count) =>
      if count <= 0 then r.(length := 0)
      else r.(slots := r.slots.Marked(count), length := 0, committed := r.committed + r.Image()[..count])
    case Dequeue =>
      if r.slots.size == 0 then r
      else r.(slots := r.slots.Dequeued(), dequeued := r.dequeued + [r.slots.data[r.slots.start]])
  }

  /** The bounded queue the ring stands for: what is readable, and the image being filled. */
  datatype Fifo<E> = Fifo(events: seq<E>, image: seq<E>)

  ghost function Abs<E>(r: Ring<E>): Fifo<E>
    requires r.Safe()
  {
    Fifo(r.Contents(), r.Image())
  }

  ghost predicate FifoNext<E>(f: Fifo<E>, a: Action<E>, g: Fifo<E>, capacity: nat) {
    match a
    case Reserve(requested) =>
      && g.events == f.events
      && (g.image != [] <==> requested > 0 && |f.events| < capacity)
      && |g.image| <= capacity - |f.events| && (g.image != [] ==> |g.image| <= requested)
    case Write(offset, event) => offset < |f.image| && g == f.(image := f.image[offset := event])
    case Commit(count) =>
      count <= |f.image| && g == Fifo(f.events + (if count <= 0 then [] else f.image[..count]), [])
    case Dequeue => g == f.(events := if f.events == [] then [] else f.events[1..])
  }

  /** A safe ring's writer and reader never share a slot. */
  lemma RegionIsDisjoint<E>(r: Ring<E>, slot: nat)
    requires r.Safe() && r.Reserved(slot)
    ensures slot < |r.slots.data| && !r.InUse(slot)
  {
    forall i | 0 <= i < r.slots.size ensures r.SlotOf(i) != slot {
    }
  }

  lemma ReserveRefines<E>(r: Ring<E>, requested: int)
    requires r.Safe() && r.length == 0
    ensures var r' := Step(r, Reserve(requested));
            r'.Safe() && r'.Contents() == r.Contents() && |r'.Image()| == r'.length
            && (r'.length > 0 <==> requested > 0 && r.slots.size < |r.slots.data|)
            && r'.length <= |r.slots.data| - r.slots.size && (r'.length > 0 ==> r'.length <= requested)
  {
  }

  lemma WriteRefines<E>(r: Ring<E>, offset: nat, event: E)
    requires r.Safe() && offset < r.length
    ensures var r' := Step(r, Write(offset, event));
            r'.Safe() && r'.Contents() == r.Contents() && r'.Image() == r.Image()[offset := event]
  {
    var r' := Step(r, Write(offset, event));
    RegionIsDisjoint(r, r.first + offset);
    forall i | 0 <= i < r.slots.size ensures r'.Contents()[i] == r.Contents()[i] {
      assert r.SlotOf(i) != r.first + offset;
    }
  }

  lemma CommitRefines<E>(r: Ring<E>, count: int)
    requires r.Safe() && count <= r.length
    ensures var r' := Step(r, Commit(count));
            r'.Safe() && r'.Image() == []
            && r'.Contents() == r.Contents() + (if count <= 0 then [] else r.Image()[..count])
  {
    if count > 0 {
      CommitAppends(r, count);
    } else {
      assert r.Contents() + [] == r.Contents();
    }
  }

  lemma DequeueRefines<E>(r: Ring<E>)
    requires r.Safe() && r.slots.size > 0
    ensures var r' := Step(r, Dequeue);
            r'.Safe() && r'.Contents() == r.Contents()[1..] && r'.Image() == r.Image()
            && r'.dequeued == r.dequeued + [r.Contents()[0]] && r.Contents() != []
  {
    var r' := Step(r, Dequeue);
    forall i | 0 <= i < r'.slots.size ensures r'.Contents()[i] == r.Contents()[i + 1] {
    }
  }

  lemma StepRefines<E>(r: Ring<E>, a: Action<E>)
    requires r.Safe() && Enabled(r, a)
    ensures Step(r, a).Safe() && |Step(r, a).slots.data| == |r.slots.data|
    ensures FifoNext(Abs(r), a, Abs(Step(r, a)), |r.slots.data|)
  {
    hide Readable, RegionLength, Tail, Wrap;
    match a
    case Reserve(requested) => ReserveRefines(r, requested);
    case Write(offset, event) => WriteRefines(r, offset, event);
    case Commit(count) => CommitRefines(r, count);
    case Dequeue =>
      if r.slots.size > 0 {
        DequeueRefines(r);
      }
  }

  lemma CommitAppends<E>(r: Ring<E>, count: nat)
    requires r.Safe() && 0 < count <= r.length
    ensures Readable(r.slots.data, r.slots.start, r.slots.size + count) == r.Contents() + r.Image()[..count]
  {
  }

  ghost predicate CanRun<E>(r: Ring<E>, actions: seq<Action<E>>)
    requires r.Safe()
    decreases |actions|
  {
    actions == [] || (
      Enabled(r, actions[0]) && (
        StepRefines(r, actions[0]);
        CanRun(Step(r, actions[0]), actions[1..])))
  }

  ghost function Run<E>(r: Ring<E>, actions: seq<Action<E>>): (end: Ring<E>)
    requires r.Safe() && CanRun(r, actions)
    ensures end.Safe() && |end.slots.data| == |r.slots.data|
    decreases |actions|
  {
    if actions == [] then r
    else
      StepRefines(r, actions[0]);
      Run(Step(r, actions[0]), actions[1..])
  }

  ghost predicate Conserved<E>(r: Ring<E>)
    requires r.Safe()
  {
    r.committed == r.dequeued + r.Contents()
  }

  lemma CommitConserves<E>(r: Ring<E>, count: int)
    requires r.Safe() && count <= r.length && Conserved(r)
    ensures Step(r, Commit(count)).Safe() && Conserved(Step(r, Commit(count)))
  {
    hide Slots.Contents, Tail;
    CommitRefines(r, count);
    if count > 0 {
      assert r.dequeued + (r.Contents() + r.Image()[..count]) == (r.dequeued + r.Contents()) + r.Image()[..count];
    }
  }

  lemma DequeueConserves<E>(r: Ring<E>)
    requires r.Safe() && r.slots.size > 0 && Conserved(r)
    ensures Step(r, Dequeue).Safe() && Conserved(Step(r, Dequeue))
  {
    hide Slots.Contents, Tail;
    DequeueRefines(r);
    assert r.Contents() == [r.Contents()[0]] + r.Contents()[1..];
  }

  lemma StepConserves<E>(r: Ring<E>, a: Action<E>)
    requires r.Safe() && Enabled(r, a) && Conserved(r)
    ensures Step(r, a).Safe() && Conserved(Step(r, a))
  {
    hide Slots.Contents, RegionLength, Tail;
    match a
    case Reserve(requested) => ReserveRefines(r, requested);
    case Write(offset, event) => WriteRefines(r, offset, event);
    case Commit(count) => CommitConserves(r, count);
    case Dequeue =>
      if r.slots.size > 0 {
        DequeueConserves(r);
      }
  }

  /** Over every run, what was committed is what was dequeued followed by what is readable, the
      queue never exceeds its capacity, and the writer's region starts at its tail. */
  lemma {:induction false} EveryRunIsBoundedFifo<E>(r: Ring<E>, actions: seq<Action<E>>)
    requires r.Safe() && Conserved(r) && CanRun(r, actions)
    ensures var end := Run(r, actions);
            && Conserved(end) && |end.Contents()| + end.length <= |r.slots.data|
            && (end.length > 0 ==> end.first == Tail(end.slots.start, end.slots.size, |r.slots.data|))
    decreases |actions|
  {
    if actions != [] {
      StepConserves(r, actions[0]);
      EveryRunIsBoundedFifo(Step(r, actions[0]), actions[1..]);
    }
  }
}
