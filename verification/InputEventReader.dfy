/** The event buffer of sensors/InputEventReader.cpp: n slots used as a ring, followed by n more that
    a single `read` may run into and from which it is copied back. */
module InputEventReaders {
  import opened HeapRuns
  import opened SensorEventQueues

  /** What `read` did: failed, left a partial event behind after some whole ones, or read events. */
  datatype ReadResult<E> = ReadError(errno: int) | ReadPartial(left: seq<E>) | ReadEvents(events: seq<E>)

  const EINVAL := 22

  function Written<E>(r: ReadResult<E>): seq<E> {
    match r
    case ReadError(errno) => []
    case ReadPartial(left) => left
    case ReadEvents(events) => events
  }

  /** The head is where the next event goes, or still at the end of the ring when that is slot 0. */
  ghost predicate Placed(n: nat, head: nat, curr: nat, available: nat) {
    && available <= n && head <= n && (curr < n || (n == 0 && curr == 0))
    && (head == curr + available || head + n == curr + available || head == n + curr + available)
  }

  /** The buffer after `events` were read at `head`. */
  ghost function Overlay<E>(buffer: seq<E>, head: nat, events: seq<E>): (after: seq<E>)
    requires head + |events| <= |buffer|
    ensures |after| == |buffer|
    ensures forall k | 0 <= k < |buffer| ::
      after[k] == if head <= k < head + |events| then events[k - head] else buffer[k]
  {
    buffer[..head] + events + buffer[head + |events|..]
  }

  /** What was read past the ring's end goes to its beginning. */
  ghost function CopiedBack<E>(buffer: seq<E>, n: nat, s: nat): (after: seq<E>)
    requires s <= n && n + s <= |buffer|
    ensures |after| == |buffer|
    ensures forall k | 0 <= k < |buffer| :: after[k] == if k < s then buffer[n + k] else buffer[k]
  {
    buffer[n..n + s] + buffer[s..]
  }

  ghost function Unread<E>(buffer: seq<E>, n: nat, curr: nat, available: nat): (events: seq<E>)
    requires n <= |buffer| && available <= n && (curr < n || available == 0)
    ensures |events| == available
  {
    Readable(buffer[..n], curr, available)
  }

  /** Reading into the free slots, and past the end, leaves what is unread alone. */
  lemma OverlayKeepsUnread<E>(buffer: seq<E>, n: nat, head: nat, curr: nat, available: nat, events: seq<E>)
    requires |buffer| == 2 * n && Placed(n, head, curr, available) && |events| <= n - available
    ensures Unread(Overlay(buffer, head, events), n, curr, available) == Unread(buffer, n, curr, available)
  {
  }

  lemma OverlayAt<E>(buffer: seq<E>, head: nat, events: seq<E>, k: nat)
    requires head + |events| <= |buffer| && k < |buffer|
    ensures Overlay(buffer, head, events)[k] == if head <= k < head + |events| then events[k - head] else buffer[k]
  {
  }

  lemma CopiedBackAt<E>(buffer: seq<E>, n: nat, s: nat, k: nat)
    requires s <= n && n + s <= |buffer| && k < n
    ensures |CopiedBack(buffer, n, s)| == |buffer|
    ensures CopiedBack(buffer, n, s)[k] == buffer[if k < s then n + k else k]
  {
  }

  /** Where the i-th event from the tail on is once what ran over the end is copied back. */
  lemma SlotAfterFill<E>(buffer: seq<E>, n: nat, head: nat, curr: nat, available: nat, events: seq<E>, i: nat)
    requires |buffer| == 2 * n && Placed(n, head, curr, available) && |events| <= n - available
    requires i < available + |events|
    ensures var s := if head + |events| > n then head + |events| - n else 0;
            var k := Wrap(curr + i, n);
            CopiedBack(Overlay(buffer, head, events), n, s)[k]
            == if i < available then buffer[k] else events[i - available]
  {
    var s := if head + |events| > n then head + |events| - n else 0;
    var k := Wrap(curr + i, n);
    var from := if k < s then n + k else k;
    assert |Overlay(buffer, head, events)| == |buffer|;
    hide Overlay, CopiedBack;
    CopiedBackAt(Overlay(buffer, head, events), n, s, k);
    OverlayAt(buffer, head, events, from);
  }

  /** The events just read follow the unread ones once what ran over the end is copied back. */
  lemma FillAppends<E>(buffer: seq<E>, n: nat, head: nat, curr: nat, available: nat, events: seq<E>)
    requires |buffer| == 2 * n && Placed(n, head, curr, available) && |events| <= n - available
    ensures var after := Overlay(buffer, head, events);
            var s := if head + |events| > n then head + |events| - n else 0;
            && Placed(n, if s > 0 then s else head + |events|, curr, available + |events|)
            && Unread(CopiedBack(after, n, s), n, curr, available + |events|)
            == Unread(buffer, n, curr, available) + events
  {
    hide Overlay, CopiedBack;
    var s := if head + |events| > n then head + |events| - n else 0;
    var back := CopiedBack(Overlay(buffer, head, events), n, s);
    forall i | 0 <= i < available + |events|
      ensures Unread(back, n, curr, available + |events|)[i] == (Unread(buffer, n, curr, available) + events)[i]
    {
      SlotAfterFill(buffer, n, head, curr, available, events, i);
    }
  }

  class InputEventCircularReader<E(0)> {
    const buffer: array<E>
    const bufferEnd: nat
    var head: nat
    var curr: nat
    var freeSpace: nat

    ghost predicate Valid()
      reads this
    {
      buffer.Length == 2 * bufferEnd && freeSpace <= bufferEnd && Placed(bufferEnd, head, curr, bufferEnd - freeSpace)
    }

    /** The events read from the device and not yet consumed, oldest first. */
    ghost function Contents(): seq<E>
      requires Valid()
      reads this, buffer
    {
      Unread(buffer[..], bufferEnd, curr, bufferEnd - freeSpace)
    }

    constructor (numEvents: nat)
      ensures Valid() && fresh(buffer) && bufferEnd == numEvents && Contents() == []
    {
      buffer := new E[numEvents * 2];
      bufferEnd := numEvents;
      head, curr, freeSpace := 0, 0, numEvents;
    }

    /** The kernel's side of `read`: it stays within the space it was offered. */
    method Read(at: nat, events: seq<E>)
      requires at + |events| <= buffer.Length
      modifies buffer
      ensures buffer[..] == Overlay(old(buffer[..]), at, events)
    {
      var i := 0;
      while i < |events|
        invariant i <= |events|
        invariant forall k | 0 <= k < buffer.Length ::
          buffer[k] == if at <= k < at + i then events[k - at] else old(buffer[k])
      {
        buffer[at + i] := events[i];
        i := i + 1;
      }
    }

    method CopyBack(s: nat)
      requires buffer.Length == 2 * bufferEnd && s <= bufferEnd
      modifies buffer
      ensures buffer[..] == CopiedBack(old(buffer[..]), bufferEnd, s)
    {
      var i := 0;
      while i < s
        invariant i <= s
        invariant forall k | 0 <= k < buffer.Length ::
          buffer[k] == if k < i then old(buffer[bufferEnd + k]) else old(buffer[k])
      {
        buffer[i] := buffer[bufferEnd + i];
        i := i + 1;
      }
    }

    /** `result` is what `read` does, given room for `freeSpace` events at the head. */
    method Fill(result: ReadResult<E>) returns (n: int)
      requires Valid()
      requires |Written(result)| <= freeSpace
      modifies this, buffer
      ensures Valid()
      ensures |Contents()| <= bufferEnd
      ensures Contents() == old(Contents())
                + (if result.ReadEvents? then result.events else [])
      ensures n == if old(freeSpace) == 0 then 0
                   else match result
                        case ReadError(errno) => -errno
                        case ReadPartial(_) => -EINVAL
                        case ReadEvents(events) => |events|
    {
      hide Overlay, CopiedBack, Unread;
      assert result.ReadEvents? || Contents() + [] == Contents();
      if freeSpace == 0 {
        return 0;
      }
      ghost var was, events := buffer[..], Written(result);
      OverlayKeepsUnread(was, bufferEnd, head, curr, bufferEnd - freeSpace, events);
      FillAppends(was, bufferEnd, head, curr, bufferEnd - freeSpace, events);
      Read(head, Written(result));
      match result {
        case ReadError(errno) => return -errno;
        case ReadPartial(_) => return -EINVAL;
        case ReadEvents(read) =>
          n := |read|;
          Advance(n);
      }
    }

    /** Moves the head past n events that have just been read, back into the ring if need be. */
    method Advance(n: nat)
      requires buffer.Length == 2 * bufferEnd && n <= freeSpace <= bufferEnd && head <= bufferEnd
      modifies this, buffer
      ensures curr == old(curr) && freeSpace == old(freeSpace) - n
      ensures var s := if old(head) + n > bufferEnd then old(head) + n - bufferEnd else 0;
              && buffer[..] == CopiedBack(old(buffer[..]), bufferEnd, s)
              && head == if s > 0 then s else old(head) + n
    {
      hide CopiedBack;
      head := head + n;
      freeSpace := freeSpace - n;
      if head > bufferEnd {
        var s := head - bufferEnd;
        CopyBack(s);
        head := s;
      } else {
        NothingToCopy(buffer[..], bufferEnd);
      }
    }

    lemma NothingToCopy(b: seq<E>, n: nat)
      requires n <= |b|
      ensures CopiedBack(b, n, 0) == b
    {
    }

    /** The slot of the oldest unread event, and whether there is one. */
    method ReadEvent() returns (slot: nat, available: bool)
      requires Valid()
      ensures available <==> Contents() != []
      ensures available ==> slot < bufferEnd && buffer[slot] == Contents()[0]
    {
      slot := curr;
      available := bufferEnd - freeSpace != 0;
    }

    /** Drops the oldest event. Called without one, it leaves the reader with more free space than it
        has slots. */
    method Next()
      requires Valid()
      modifies this
      ensures Valid() <==> old(Contents()) != []
      ensures old(Contents()) != [] ==> Contents() == old(Contents())[1..]
      ensures old(Contents()) == [] ==> freeSpace == bufferEnd + 1
    {
      curr := curr + 1;
      freeSpace := freeSpace + 1;
      if curr >= bufferEnd {
        curr := 0;
      }
    }
  }
}
