/** The time arithmetic of gps/utils/LocTimer.cpp: absolute times in seconds and nanoseconds, the
    32-bit comparison that ranks two timers, and the computation of a timer's expiry. */
module TimeSpecs {

  const NANOS_PER_SEC: int := 1_000_000_000
  const TWO_TO_THE_31: int := 0x8000_0000
  const TWO_TO_THE_32: int := 0x1_0000_0000

  /** A `struct timespec`: whole seconds, and nanoseconds within the second. */
  datatype TimeSpec = TimeSpec(sec: int, nsec: int) {
    predicate Normal() {
      0 <= sec && 0 <= nsec < NANOS_PER_SEC
    }

    function Nanos(): int {
      sec * NANOS_PER_SEC + nsec
    }
  }

  /** The conversion of a `long` to a 32-bit `int`: the low 32 bits, read as two's complement. */
  function ToInt32(x: int): (r: int)
    ensures -TWO_TO_THE_31 <= r < TWO_TO_THE_31
    ensures -TWO_TO_THE_31 <= x < TWO_TO_THE_31 ==> r == x
  {
    (x + TWO_TO_THE_31) % TWO_TO_THE_32 - TWO_TO_THE_31
  }

  /** How a timer due at `a` ranks against one due at `b`: positive when `a` comes first. */
  function Ranks(a: TimeSpec, b: TimeSpec): int {
    var rank := ToInt32(b.sec - a.sec);
    if rank == 0 then ToInt32(b.nsec - a.nsec) else rank
  }

  /** Both operands as the service can hold them: normalised, with unsigned 32-bit seconds. */
  ghost predicate Comparable(a: TimeSpec, b: TimeSpec) {
    && a.Normal() && b.Normal()
    && a.sec < TWO_TO_THE_32 && b.sec < TWO_TO_THE_32
  }

  /** Ranking agrees with the order of total nanoseconds exactly when the difference of the
      seconds is a 32-bit signed number. */
  lemma RanksIsTimeOrder(a: TimeSpec, b: TimeSpec)
    requires Comparable(a, b)
    ensures (&& (Ranks(a, b) > 0 <==> a.Nanos() < b.Nanos())
             && (Ranks(a, b) == 0 <==> a == b)
             && (Ranks(a, b) < 0 <==> a.Nanos() > b.Nanos()))
            <==> -TWO_TO_THE_31 <= b.sec - a.sec < TWO_TO_THE_31
  {
    var d := b.sec - a.sec;
    assert -NANOS_PER_SEC < b.nsec - a.nsec < NANOS_PER_SEC;
    if d >= TWO_TO_THE_31 {
      assert ToInt32(d) == d - TWO_TO_THE_32;
    } else if d < -TWO_TO_THE_31 {
      assert ToInt32(d) == d + TWO_TO_THE_32;
    }
  }

  /** Outside that range the order really breaks: the timer that is due first loses. */
  lemma RanksWrapsAround()
    ensures var a, b := TimeSpec(0, 0), TimeSpec(TWO_TO_THE_31, 0);
            && Comparable(a, b) && a.Nanos() < b.Nanos()
            && Ranks(a, b) < 0
  {
    assert ToInt32(TWO_TO_THE_31) == -TWO_TO_THE_31;
  }

  /** The expiry of a timer started at `now` with a timeout in milliseconds. */
  function FutureTime(now: TimeSpec, timeOutInMs: int): TimeSpec {
    var sec := now.sec + timeOutInMs / 1000;
    var nsec := now.nsec + (timeOutInMs % 1000) * 1_000_000;
    if nsec >= NANOS_PER_SEC then
      TimeSpec(sec + nsec / NANOS_PER_SEC, nsec % NANOS_PER_SEC)
    else
      TimeSpec(sec, nsec)
  }

  /** Starting a timer adds exactly the timeout, leaves a normalised time no more than
      4294968 seconds away, and never overflows the 32-bit sum of nanoseconds. */
  lemma FutureTimeAddsTimeout(now: TimeSpec, timeOutInMs: int)
    requires now.Normal() && 0 <= timeOutInMs < TWO_TO_THE_32
    ensures var t := FutureTime(now, timeOutInMs);
            && t.Normal()
            && t.Nanos() == now.Nanos() + timeOutInMs * 1_000_000
            && now.sec <= t.sec <= now.sec + 4_294_968
    ensures now.nsec + (timeOutInMs % 1000) * 1_000_000 < TWO_TO_THE_31
  {
    var q, r := timeOutInMs / 1000, timeOutInMs % 1000;
    assert timeOutInMs == q * 1000 + r;
    assert q <= 4_294_967;
  }

  /** Times a timer may have: later than boot, with seconds that fit a signed 32-bit `int`, so
      that any two of them differ by less than 2^31 seconds. */
  predicate InWindow(t: TimeSpec) {
    t.Normal() && t.sec < TWO_TO_THE_31 && t != TimeSpec(0, 0)
  }

  lemma RanksInWindow(a: TimeSpec, b: TimeSpec)
    requires InWindow(a) && InWindow(b)
    ensures Ranks(a, b) > 0 <==> a.Nanos() < b.Nanos()
  {
    RanksIsTimeOrder(a, b);
  }

  /** A timer expires inside the window exactly when less than 2^31 seconds have passed by then. */
  lemma FutureTimeInWindow(now: TimeSpec, timeOutInMs: int)
    requires now.Normal() && 0 <= timeOutInMs < TWO_TO_THE_32
    ensures InWindow(FutureTime(now, timeOutInMs)) <==>
            0 < now.Nanos() + timeOutInMs * 1_000_000 < TWO_TO_THE_31 * NANOS_PER_SEC
  {
    hide FutureTime;
    FutureTimeAddsTimeout(now, timeOutInMs);
  }

  /** The clock of a device that has been up for less than about 68 years: every timer started by
      then expires inside the window. */
  predicate IsClock(t: TimeSpec) {
    InWindow(t) && t.sec + 4_294_968 < TWO_TO_THE_31
  }

  type Clock = t: TimeSpec | IsClock(t) witness TimeSpec(1, 0)

  lemma FutureTimeOfClock(now: Clock, timeOutInMs: int)
    requires 0 <= timeOutInMs < TWO_TO_THE_32
    ensures InWindow(FutureTime(now, timeOutInMs))
  {
    FutureTimeAddsTimeout(now, timeOutInMs);
  }
}
