/** The subscription logic of sensors/NativeSensorManager.cpp: which sensors listen to which base
    sensors, and what the base sensors' drivers are told. */
module SensorSubscriptions {
  import opened HeapRuns

  /** What a driver was last told. */
  datatype Driver = Driver(on: bool, delay: Option<int>, latency: Option<int>)

  /** What is fixed at start-up; `minDelay` is in microseconds. */
  datatype Config = Config(isVirtual: bool, oneShot: bool, minDelay: int, fifoMaxEventCount: int, deps: seq<int>)

  /** What a client set; in nanoseconds. */
  datatype Setting = Setting(enable: bool, delayNs: int, latencyNs: int)

  datatype Context = Context(config: Config, setting: Setting, listeners: seq<int>, driver: Driver)

  type Contexts = map<int, Context>

  // ---- What a base sensor is programmed with --------------------------------------------------------

  /** The delay syncDelay computes: the least of the first delay and the later non-zero ones. */
  function SyncedDelay(delays: seq<int>): int
    requires delays != []
  {
    var last := delays[|delays| - 1];
    if |delays| == 1 then last
    else
      var rest := SyncedDelay(delays[..|delays| - 1]);
      if last != 0 && last < rest then last else rest
  }

  function SyncedLatency(latencies: seq<int>): int
    requires latencies != []
  {
    var last := latencies[|latencies| - 1];
    if |latencies| == 1 then last
    else
      var rest := SyncedLatency(latencies[..|latencies| - 1]);
      if last < rest then last else rest
  }

  /** A sequence has the elements of its front, and its last one. */
  lemma FrontAndLast(s: seq<int>)
    requires |s| > 1
    ensures s[..|s| - 1] != [] && s[..|s| - 1][0] == s[0]
    ensures forall x :: x in s <==> x in s[..|s| - 1] || x == s[|s| - 1]
  {
    assert s == s[..|s| - 1] + [s[|s| - 1]];
  }

  lemma {:induction false} SyncedLatencyIsMinimum(latencies: seq<int>)
    requires latencies != []
    ensures SyncedLatency(latencies) in latencies
    ensures forall l | l in latencies :: SyncedLatency(latencies) <= l
  {
    if |latencies| > 1 {
      FrontAndLast(latencies);
      SyncedLatencyIsMinimum(latencies[..|latencies| - 1]);
    }
  }

  lemma {:induction false} SyncedDelayIs(delays: seq<int>)
    requires delays != []
    ensures var m := SyncedDelay(delays);
            && m in delays && m <= delays[0] && (m == 0 ==> delays[0] == 0)
            && forall d | d in delays && d != 0 :: m <= d
  {
    if |delays| > 1 {
      FrontAndLast(delays);
      SyncedDelayIs(delays[..|delays| - 1]);
    }
  }

  ghost predicate IsMinimumNonZero(m: int, delays: seq<int>) {
    m in delays && m != 0 && forall d | d in delays && d != 0 :: m <= d
  }

  /** When the programmed delay is the true minimum of the delays that were set: exactly when the
      first listener's was set, or somebody set a negative one. */
  lemma SyncedDelayIsMinimumIff(delays: seq<int>)
    requires delays != []
    ensures IsMinimumNonZero(SyncedDelay(delays), delays) <==>
            delays[0] != 0 || exists d | d in delays :: d < 0
  {
    SyncedDelayIs(delays);
  }

  /** A first listener without a delay hides what the others asked for. */
  lemma ZeroSeedHidesOthers(d: int)
    requires d > 0
    ensures SyncedDelay([0, d]) == 0 && SyncedDelay([d, 0]) == d
  {
    assert [0, d][..1] == [0] && [d, 0][..1] == [d];
  }

  // ---- The state -----------------------------------------------------------------------------------

  /** Every dependency exists; a hardware sensor depends on itself, a virtual one on hardware. */
  ghost predicate Configured(cs: Contexts) {
    && (forall v | v in cs :: forall h | h in cs[v].config.deps :: h in cs && !cs[h].config.isVirtual)
    && (forall v | v in cs && !cs[v].config.isVirtual :: cs[v].config.deps == [v])
    && (forall v | v in cs :: NoDuplicates(cs[v].config.deps))
  }

  ghost predicate NoDuplicates(s: seq<int>) {
    forall i, j | 0 <= i < j < |s| :: s[i] != s[j]
  }

  /** Who should be listening to h. */
  ghost predicate ShouldListen(cs: Contexts, v: int, h: int) {
    v in cs && cs[v].setting.enable && !cs[v].config.oneShot && h in cs[v].config.deps
  }

  ghost predicate Known(cs: Contexts, hs: seq<int>) {
    forall i | 0 <= i < |hs| :: hs[i] in cs
  }

  ghost function Delays(cs: Contexts, hs: seq<int>): (delays: seq<int>)
    requires Known(cs, hs)
    ensures |delays| == |hs| && forall i | 0 <= i < |hs| :: delays[i] == cs[hs[i]].setting.delayNs
  {
    seq(|hs|, i requires 0 <= i < |hs| => cs[hs[i]].setting.delayNs)
  }

  ghost function Latencies(cs: Contexts, hs: seq<int>): (latencies: seq<int>)
    requires Known(cs, hs)
    ensures |latencies| == |hs| && forall i | 0 <= i < |hs| :: latencies[i] == cs[hs[i]].setting.latencyNs
  {
    seq(|hs|, i requires 0 <= i < |hs| => cs[hs[i]].setting.latencyNs)
  }

  /** The listeners of h are exactly the enabled sensors that depend on it, each once. */
  ghost predicate ListsAgree(cs: Contexts, h: int, listeners: seq<int>) {
    NoDuplicates(listeners) && forall v :: v in listeners <==> ShouldListen(cs, v, h)
  }

  /** While somebody listens, the driver was last told what the listeners come to. */
  ghost predicate Programmed(cs: Contexts, c: Context) {
    && Known(cs, c.listeners)
    && (c.listeners != [] ==>
          && c.driver.delay == Some(SyncedDelay(Delays(cs, c.listeners)))
          && (c.config.fifoMaxEventCount != 0 ==>
                c.driver.latency == Some(SyncedLatency(Latencies(cs, c.listeners)))))
  }

  /** Once some activation reached h, its driver is on exactly while somebody listens. */
  ghost predicate Powered(c: Context) {
    !c.config.oneShot ==> (c.driver.on <==> c.listeners != [])
  }

  ghost predicate Agreed(cs: Contexts, reached: set<int>) {
    && Configured(cs)
    && (forall h | h in cs :: ListsAgree(cs, h, cs[h].listeners))
    && (forall h | h in cs :: Programmed(cs, cs[h]))
    && (forall h | h in cs && h in reached :: Powered(cs[h]))
    && (forall h | h in cs && cs[h].listeners != [] :: h in reached)
    && (forall h | h in reached :: h in cs && !cs[h].config.isVirtual)
  }

  // ---- What the operations do to one base sensor ---------------------------------------------------

  ghost function TellDelay(cs: Contexts, c: Context): Context
    requires Known(cs, c.listeners)
  {
    if c.listeners == [] then c
    else c.(driver := c.driver.(delay := Some(SyncedDelay(Delays(cs, c.listeners)))))
  }

  ghost function TellLatency(cs: Contexts, c: Context): Context
    requires Known(cs, c.listeners)
  {
    if c.listeners == [] || c.config.fifoMaxEventCount == 0 then c
    else c.(driver := c.driver.(latency := Some(SyncedLatency(Latencies(cs, c.listeners)))))
  }

  function With(listeners: seq<int>, v: int): seq<int> {
    if v in listeners then listeners else listeners + [v]
  }

  /** The list after its first v, if any, is taken out. */
  function Without(listeners: seq<int>, v: int): seq<int> {
    if listeners == [] then []
    else if listeners[0] == v then listeners[1..]
    else [listeners[0]] + Without(listeners[1..], v)
  }

  lemma {:induction false} WithoutIs(listeners: seq<int>, v: int)
    requires NoDuplicates(listeners)
    ensures NoDuplicates(Without(listeners, v))
    ensures forall x :: x in Without(listeners, v) <==> x in listeners && x != v
  {
    if listeners != [] {
      var first, rest := listeners[0], listeners[1..];
      assert listeners == [first] + rest;
      assert NoDuplicates(rest);
      assert first !in rest by {
        forall i | 0 <= i < |rest| ensures rest[i] != first {
          assert rest[i] == listeners[i + 1];
        }
      }
      WithoutIs(rest, v);
    }
  }

  lemma {:induction false} WithoutAt(listeners: seq<int>, v: int, i: nat)
    requires i <= |listeners| && v !in listeners[..i] && (i < |listeners| ==> listeners[i] == v)
    ensures Without(listeners, v) == if i < |listeners| then listeners[..i] + listeners[i + 1..] else listeners
  {
    if i > 0 {
      var first, rest := listeners[0], listeners[1..];
      assert listeners == [first] + rest;
      assert listeners[..i] == [first] + rest[..i - 1];
      WithoutAt(rest, v, i - 1);
      if i < |listeners| {
        assert rest[i..] == listeners[i + 1..];
      }
    }
  }

  /** What activate does to a base sensor that v depends on. */
  ghost function Joined(cs: Contexts, c: Context, v: int): Context
    requires Known(cs, c.listeners) && v in cs
  {
    var told := TellLatency(cs, c.(listeners := With(c.listeners, v)));
    TellDelay(cs, told.(driver := told.driver.(on := true)))
  }

  ghost function Parted(cs: Contexts, c: Context, v: int): Context
    requires Known(cs, Without(c.listeners, v))
  {
    var told := TellLatency(cs, TellDelay(cs, c.(listeners := Without(c.listeners, v))));
    if told.listeners == [] then told.(driver := told.driver.(on := false)) else told
  }

  /** What the listeners' lists and drivers do not depend on is left alone. */
  ghost predicate SameSettings(cs: Contexts, ds: Contexts) {
    && cs.Keys == ds.Keys
    && forall k | k in cs :: cs[k].config == ds[k].config && cs[k].setting == ds[k].setting
  }

  /** A list after v was registered, at its end, or unregistered, from wherever it was; others keep
      their order, on which the programmed delay depends. */
  ghost predicate Relisted(was: seq<int>, v: int, joins: bool, now: seq<int>) {
    if joins == (v in was) then now == was
    else if joins then now == was + [v]
    else exists i | 0 <= i < |was| :: was[i] == v && now == was[..i] + was[i + 1..]
  }

  lemma WithIsRelisted(listeners: seq<int>, v: int)
    ensures Relisted(listeners, v, true, With(listeners, v))
  {
  }

  function FirstIndex(listeners: seq<int>, v: int): (i: nat)
    ensures i <= |listeners| && v !in listeners[..i] && (i < |listeners| ==> listeners[i] == v)
  {
    if listeners == [] || listeners[0] == v then 0
    else
      var i := FirstIndex(listeners[1..], v);
      assert listeners[..i + 1] == [listeners[0]] + listeners[1..][..i];
      i + 1
  }

  lemma WithoutIsRelisted(listeners: seq<int>, v: int)
    ensures if v in listeners then Relisted(listeners, v, false, Without(listeners, v))
            else Without(listeners, v) == listeners
  {
    var i := FirstIndex(listeners, v);
    WithoutAt(listeners, v, i);
    hide Without;
  }

  /** Every sensor has the same delay and latency. */
  ghost predicate SameTimes(cs: Contexts, ds: Contexts) {
    && cs.Keys == ds.Keys
    && (forall k | k in cs :: cs[k].setting.delayNs == ds[k].setting.delayNs)
    && (forall k | k in cs :: cs[k].setting.latencyNs == ds[k].setting.latencyNs)
  }

  lemma SettingsMatterOnly(cs: Contexts, ds: Contexts, hs: seq<int>)
    requires SameTimes(cs, ds) && Known(cs, hs)
    ensures Known(ds, hs) && Delays(cs, hs) == Delays(ds, hs) && Latencies(cs, hs) == Latencies(ds, hs)
  {
    assert Known(ds, hs);
    forall i | 0 <= i < |hs|
      ensures Delays(cs, hs)[i] == Delays(ds, hs)[i] && Latencies(cs, hs)[i] == Latencies(ds, hs)[i]
    {
      var h := hs[i];
      assert h in cs;
    }
  }

  lemma ShouldListenSame(cs: Contexts, ds: Contexts, h: int, listeners: seq<int>)
    requires SameSettings(cs, ds) && ListsAgree(cs, h, listeners)
    ensures ListsAgree(ds, h, listeners)
  {
    forall v ensures ShouldListen(cs, v, h) <==> ShouldListen(ds, v, h) {
    }
  }

  datatype Change = Enabling | Disabling | Delaying | Batching

  /** What an operation on v does to the base sensors in `hs`, one after another. */
  ghost function Told(cs: Contexts, c: Context, v: int, change: Change): Context
    requires Known(cs, c.listeners) && v in cs
  {
    match change
    case Enabling => Joined(cs, c, v)
    case Disabling => KnownWithout(cs, c.listeners, v); Parted(cs, c, v)
    case Delaying => TellDelay(cs, c)
    case Batching => TellLatency(cs, TellDelay(cs, c))
  }

  lemma {:induction false} KnownWithout(cs: Contexts, listeners: seq<int>, v: int)
    requires Known(cs, listeners)
    ensures Known(cs, Without(listeners, v))
  {
    if listeners != [] {
      KnownWithout(cs, listeners[1..], v);
    }
  }

  ghost predicate AllKnown(cs: Contexts) {
    forall h | h in cs :: Known(cs, cs[h].listeners)
  }

  ghost function TellAll(cs: Contexts, hs: seq<int>, v: int, change: Change): Contexts
    requires AllKnown(cs) && v in cs
  {
    map h | h in cs :: if h in hs then Told(cs, cs[h], v, change) else cs[h]
  }

  // ---- Each operation keeps everything agreed --------------------------------------------------------

  /** Which setting of a sensor a change may alter. */
  ghost predicate Alters(was: Setting, now: Setting, change: Change) {
    match change
    case Enabling => now == was.(enable := true)
    case Disabling => now == was.(enable := false)
    case Delaying => now == was.(delayNs := now.delayNs)
    case Batching => now == was.(delayNs := now.delayNs, latencyNs := now.latencyNs)
  }

  ghost function Set(cs: Contexts, v: int, now: Setting): Contexts
    requires v in cs
  {
    cs[v := cs[v].(setting := now)]
  }

  lemma ToldKeepsSettings(cs: Contexts, c: Context, v: int, change: Change)
    requires Known(cs, c.listeners) && v in cs
    ensures var d := Told(cs, c, v, change);
            && d.config == c.config && d.setting == c.setting
            && d.listeners == (if change.Enabling? then With(c.listeners, v)
                               else if change.Disabling? then Without(c.listeners, v) else c.listeners)
  {
  }

  /** Whatever was told last is what the listeners come to. */
  lemma ToldIsProgrammed(cs: Contexts, c: Context, v: int, change: Change)
    requires Known(cs, c.listeners) && v in cs
    requires change.Delaying? && c.listeners != [] && c.config.fifoMaxEventCount != 0 ==>
               c.driver.latency == Some(SyncedLatency(Latencies(cs, c.listeners)))
    ensures Programmed(cs, Told(cs, c, v, change))
  {
    KnownWithout(cs, c.listeners, v);
  }

  lemma ToldIsPowered(cs: Contexts, c: Context, v: int, change: Change)
    requires Known(cs, c.listeners) && v in cs
    requires change.Enabling? || (change.Disabling? && c.listeners == []) || Powered(c)
    ensures Powered(Told(cs, c, v, change))
  {
  }

  /** The lists after v's setting changed and its base sensors were told. */
  lemma ListsAfter(cs: Contexts, v: int, now: Setting, change: Change, h: int)
    requires v in cs && h in cs && !cs[v].config.oneShot && Alters(cs[v].setting, now, change)
    requires ListsAgree(cs, h, cs[h].listeners) && Known(cs, cs[h].listeners)
    ensures ListsAgree(Set(cs, v, now), h,
              if h in cs[v].config.deps then Told(Set(cs, v, now), cs[h], v, change).listeners else cs[h].listeners)
  {
    var ds, l := Set(cs, v, now), cs[h].listeners;
    ToldKeepsSettings(ds, cs[h], v, change);
    WithoutIs(l, v);
    forall x ensures ShouldListen(ds, x, h) <==>
      if x != v || h !in cs[v].config.deps then ShouldListen(cs, x, h)
      else change.Enabling? || (!change.Disabling? && ShouldListen(cs, x, h))
    {
    }
  }

  /** Sensors that do not listen to h do not matter to it. */
  lemma OthersDoNotMatter(cs: Contexts, v: int, now: Setting, hs: seq<int>)
    requires v in cs && Known(cs, hs)
    ensures v !in hs || now.delayNs == cs[v].setting.delayNs ==>
              Delays(Set(cs, v, now), hs) == Delays(cs, hs)
    ensures v !in hs || now.latencyNs == cs[v].setting.latencyNs ==>
              Latencies(Set(cs, v, now), hs) == Latencies(cs, hs)
  {
    var ds := Set(cs, v, now);
    forall i | 0 <= i < |hs|
      ensures v !in hs || now.delayNs == cs[v].setting.delayNs ==> Delays(ds, hs)[i] == Delays(cs, hs)[i]
      ensures v !in hs || now.latencyNs == cs[v].setting.latencyNs ==> Latencies(ds, hs)[i] == Latencies(cs, hs)[i]
    {
      assert hs[i] in cs;
    }
  }

  lemma ProgrammedAfter(cs: Contexts, v: int, now: Setting, change: Change, h: int)
    requires v in cs && h in cs && !cs[v].config.oneShot && Alters(cs[v].setting, now, change)
    requires ListsAgree(cs, h, cs[h].listeners) && Programmed(cs, cs[h])
    ensures Programmed(Set(cs, v, now),
              if h in cs[v].config.deps then Told(Set(cs, v, now), cs[h], v, change) else cs[h])
  {
    hide SyncedDelay, SyncedLatency, Delays, Latencies, Told, NoDuplicates;
    var ds := Set(cs, v, now);
    assert Known(ds, cs[h].listeners);
    OthersDoNotMatter(cs, v, now, cs[h].listeners);
    if h in cs[v].config.deps {
      ToldIsProgrammed(ds, cs[h], v, change);
    } else {
      assert !ShouldListen(cs, v, h);
    }
  }

  lemma ProgrammedSame(cs: Contexts, ds: Contexts, c: Context)
    requires SameSettings(cs, ds) && Programmed(cs, c)
    ensures Programmed(ds, c)
  {
    SettingsMatterOnly(cs, ds, c.listeners);
  }

  /** The operation on v: change its setting, then tell its base sensors. */
  ghost function Operated(cs: Contexts, v: int, now: Setting, change: Change): Contexts
    requires v in cs && AllKnown(Set(cs, v, now))
  {
    TellAll(Set(cs, v, now), cs[v].config.deps, v, change)
  }

  /** What becomes of base sensor h. */
  ghost function After(cs: Contexts, v: int, now: Setting, change: Change, h: int): Context
    requires v in cs && h in cs && Known(Set(cs, v, now), cs[h].listeners)
  {
    if h in cs[v].config.deps then Told(Set(cs, v, now), cs[h], v, change) else cs[h]
  }

  lemma ToldIgnoresSetting(cs: Contexts, c: Context, now: Setting, v: int, change: Change)
    requires Known(cs, c.listeners) && v in cs
    ensures var t, u := Told(cs, c, v, change), Told(cs, c.(setting := now), v, change);
            u == t.(setting := now)
  {
    KnownWithout(cs, c.listeners, v);
  }

  lemma OperatedAt(cs: Contexts, v: int, now: Setting, change: Change, h: int)
    requires v in cs && AllKnown(Set(cs, v, now)) && h in cs
    ensures Known(Set(cs, v, now), cs[h].listeners)
    ensures var ds, c := Operated(cs, v, now, change), After(cs, v, now, change, h);
            && ds.Keys == cs.Keys
            && ds[h] == c.(setting := if h == v then now else c.setting)
  {
    hide Told;
    assert Known(Set(cs, v, now), Set(cs, v, now)[h].listeners);
    ToldIgnoresSetting(Set(cs, v, now), cs[h], now, v, change);
  }

  lemma OperatedKeepsSettings(cs: Contexts, v: int, now: Setting, change: Change)
    requires v in cs && AllKnown(Set(cs, v, now))
    ensures Operated(cs, v, now, change).Keys == cs.Keys
    ensures SameSettings(Set(cs, v, now), Operated(cs, v, now, change))
  {
    hide Told;
    forall h | h in cs ensures Set(cs, v, now)[h].config == Operated(cs, v, now, change)[h].config
                            && Set(cs, v, now)[h].setting == Operated(cs, v, now, change)[h].setting
    {
      ToldKeepsSettings(Set(cs, v, now), Set(cs, v, now)[h], v, change);
    }
  }

  function Reach(cs: Contexts, reached: set<int>, v: int, change: Change): set<int>
    requires v in cs
  {
    if change.Enabling? || change.Disabling? then reached + set h | h in cs[v].config.deps else reached
  }

  lemma PoweredAfter(cs: Contexts, reached: set<int>, v: int, now: Setting, change: Change, h: int)
    requires v in cs && h in cs && Known(Set(cs, v, now), cs[h].listeners)
    requires (h in reached ==> Powered(cs[h])) && (cs[h].listeners != [] ==> h in reached)
    ensures var c := if h in cs[v].config.deps then Told(Set(cs, v, now), cs[h], v, change) else cs[h];
            && (h in Reach(cs, reached, v, change) ==> Powered(c))
            && (c.listeners != [] ==> h in Reach(cs, reached, v, change))
  {
    ToldKeepsSettings(Set(cs, v, now), cs[h], v, change);
    if h in cs[v].config.deps && h in Reach(cs, reached, v, change) {
      ToldIsPowered(Set(cs, v, now), cs[h], v, change);
    }
  }

  lemma SetKeepsKnown(cs: Contexts, reached: set<int>, v: int, now: Setting)
    requires Agreed(cs, reached) && v in cs
    ensures AllKnown(Set(cs, v, now))
  {
  }

  /** One base sensor after the operation. */
  ghost predicate AgreedAt(cs: Contexts, reached: set<int>, h: int) {
    && h in cs
    && ListsAgree(cs, h, cs[h].listeners) && Programmed(cs, cs[h])
    && (h in reached ==> Powered(cs[h])) && (cs[h].listeners != [] ==> h in reached)
  }

  lemma OperatedAgreesAt(cs: Contexts, reached: set<int>, v: int, now: Setting, change: Change, h: int)
    requires Agreed(cs, reached) && v in cs && h in cs
    requires !cs[v].config.oneShot && Alters(cs[v].setting, now, change) && AllKnown(Set(cs, v, now))
    ensures AgreedAt(Operated(cs, v, now, change), Reach(cs, reached, v, change), h)
  {
    hide Operated, Told, ShouldListen, SyncedDelay, SyncedLatency, Delays, Latencies, NoDuplicates, Reach, Alters;
    hide Configured;
    var ds := Operated(cs, v, now, change);
    OperatedAt(cs, v, now, change, h);
    OperatedKeepsSettings(cs, v, now, change);
    var c := After(cs, v, now, change, h);
    ToldKeepsSettings(Set(cs, v, now), cs[h], v, change);
    ListsAfter(cs, v, now, change, h);
    ShouldListenSame(Set(cs, v, now), ds, h, c.listeners);
    ProgrammedAfter(cs, v, now, change, h);
    ProgrammedSame(Set(cs, v, now), ds, c);
    PoweredAfter(cs, reached, v, now, change, h);
  }

  lemma OperatedKeepsConfig(cs: Contexts, v: int, now: Setting, change: Change)
    requires v in cs && AllKnown(Set(cs, v, now)) && Configured(cs)
    ensures Configured(Operated(cs, v, now, change))
  {
    hide Operated;
    OperatedKeepsSettings(cs, v, now, change);
  }

  lemma ReachIsHardware(cs: Contexts, reached: set<int>, v: int, now: Setting, change: Change)
    requires Agreed(cs, reached) && v in cs && AllKnown(Set(cs, v, now))
    ensures var ds := Operated(cs, v, now, change);
            forall h | h in Reach(cs, reached, v, change) :: h in ds && !ds[h].config.isVirtual
  {
    hide Operated, ListsAgree, Programmed, Powered;
    OperatedKeepsSettings(cs, v, now, change);
  }

  /** Enabling, disabling, setting the delay and batching keep listeners, power, delays and latencies
      of all base sensors agreed. */
  lemma OperatedAgrees(cs: Contexts, reached: set<int>, v: int, now: Setting, change: Change)
    requires Agreed(cs, reached) && v in cs && !cs[v].config.oneShot && Alters(cs[v].setting, now, change)
    ensures AllKnown(Set(cs, v, now))
    ensures Agreed(Operated(cs, v, now, change), Reach(cs, reached, v, change))
  {
    hide Operated, Set, ListsAgree, Programmed, Powered, Alters, Configured;
    SetKeepsKnown(cs, reached, v, now);
    OperatedKeepsConfig(cs, v, now, change);
    OperatedKeepsSettings(cs, v, now, change);
    var ds, reach := Operated(cs, v, now, change), Reach(cs, reached, v, change);
    forall h | h in cs ensures AgreedAt(ds, reach, h) {
      OperatedAgreesAt(cs, reached, v, now, change, h);
    }
    ReachIsHardware(cs, reached, v, now, change);
    AgreedFromParts(ds, reach);
  }

  /** Where listeners, driver and everybody's delays and latencies stay, so does the agreement. */
  lemma CarriesOver(cs: Contexts, ds: Contexts, reached: set<int>, h: int)
    requires AgreedAt(cs, reached, h) && SameTimes(cs, ds)
    requires forall x :: ShouldListen(ds, x, h) <==> ShouldListen(cs, x, h)
    requires ds[h].listeners == cs[h].listeners
    requires ds[h].config.fifoMaxEventCount == cs[h].config.fifoMaxEventCount
    requires ds[h].driver.delay == cs[h].driver.delay && ds[h].driver.latency == cs[h].driver.latency
    requires h in reached ==> Powered(ds[h])
    ensures AgreedAt(ds, reached, h)
  {
    hide SyncedDelay, SyncedLatency, Delays, Latencies, NoDuplicates, ShouldListen, Powered;
    SettingsMatterOnly(cs, ds, cs[h].listeners);
  }

  lemma AgreedFromParts(cs: Contexts, reached: set<int>)
    requires Configured(cs) && forall h | h in cs :: AgreedAt(cs, reached, h)
    requires forall h | h in reached :: h in cs && !cs[h].config.isVirtual
    ensures Agreed(cs, reached)
  {
    forall h | h in cs
      ensures ListsAgree(cs, h, cs[h].listeners) && Programmed(cs, cs[h])
      ensures (h in reached ==> Powered(cs[h])) && (cs[h].listeners != [] ==> h in reached)
    {
      assert AgreedAt(cs, reached, h);
    }
  }

  // ---- Drivers that are switched directly -----------------------------------------------------------

  /** Virtual and one-shot sensors have their drivers switched by their own activations. A one-shot base
      sensor may also be switched for its listeners; `direct` are the sensors for which their own came last. */
  ghost predicate SwitchedRight(cs: Contexts, reached: set<int>, direct: set<int>) {
    && (forall h | h in direct ::
          h in cs && (cs[h].config.isVirtual || cs[h].config.oneShot) && (cs[h].driver.on <==> cs[h].setting.enable))
    && (forall h | h in reached && h !in direct :: h in cs && (cs[h].driver.on <==> cs[h].listeners != []))
  }

  /** v's base sensors are switched for their listeners now: on with the first, off with the last. */
  ghost predicate SwitchedFor(cs: Contexts, v: int, change: Change, h: int)
    requires v in cs && h in cs
  {
    h in cs[v].config.deps && (change.Enabling? || (change.Disabling? && Without(cs[h].listeners, v) == []))
  }

  ghost function StillDirect(cs: Contexts, direct: set<int>, v: int, change: Change): set<int>
    requires v in cs
  {
    if change.Enabling? || change.Disabling?
    then set h | h in direct && h != v && h in cs && !SwitchedFor(cs, v, change, h)
    else direct
  }

  lemma PowerAfter(cs: Contexts, c: Context, v: int, change: Change)
    requires Known(cs, c.listeners) && v in cs
    ensures Told(cs, c, v, change).driver.on ==
            if change.Enabling? then true
            else if change.Disabling? && Without(c.listeners, v) == [] then false else c.driver.on
  {
  }

  lemma {:induction false} NobodyToTakeOut(listeners: seq<int>, v: int)
    ensures Without(listeners, v) != [] ==> listeners != []
  {
  }

  lemma SwitchedRightAt(cs: Contexts, reached: set<int>, direct: set<int>, v: int, now: Setting, change: Change, h: int)
    requires Agreed(cs, reached) && SwitchedRight(cs, reached, direct) && v in cs && h in cs
    requires !cs[v].config.oneShot && Alters(cs[v].setting, now, change) && AllKnown(Set(cs, v, now))
    ensures var ds, direct' := Operated(cs, v, now, change), StillDirect(cs, direct, v, change);
            && h in ds && ds[h].config == cs[h].config
            && (h in direct' ==> h in direct && (ds[h].driver.on <==> ds[h].setting.enable))
            && (h in Reach(cs, reached, v, change) && h !in direct' ==> (ds[h].driver.on <==> ds[h].listeners != []))
  {
    OperatedAt(cs, v, now, change, h);
    PowerAfter(Set(cs, v, now), cs[h], v, change);
    ToldKeepsSettings(Set(cs, v, now), cs[h], v, change);
    NobodyToTakeOut(cs[h].listeners, v);
    hide Operated, Told, Without, ListsAgree, Programmed, Powered, AllKnown;
    assert cs[v].config.isVirtual ==> v !in cs[v].config.deps;
  }

  /** Every operation on a sensor that is not one-shot keeps that true of all drivers but its own. */
  lemma OperatedSwitchedRight(cs: Contexts, reached: set<int>, direct: set<int>, v: int, now: Setting, change: Change)
    requires Agreed(cs, reached) && SwitchedRight(cs, reached, direct) && v in cs
    requires !cs[v].config.oneShot && Alters(cs[v].setting, now, change) && AllKnown(Set(cs, v, now))
    ensures SwitchedRight(Operated(cs, v, now, change), Reach(cs, reached, v, change),
                          StillDirect(cs, direct, v, change))
  {
    hide Operated, Set, ListsAgree, Programmed, Powered, Alters, AllKnown;
    var ds, reach := Operated(cs, v, now, change), Reach(cs, reached, v, change);
    var direct' := StillDirect(cs, direct, v, change);
    assert forall h | h in reach || h in direct' :: h in cs;
    hide Agreed, StillDirect, Reach;
    forall h | h in cs
      ensures h in ds && ds[h].config == cs[h].config
      ensures h in direct' ==> h in direct && (ds[h].driver.on <==> ds[h].setting.enable)
      ensures h in reach && h !in direct' ==> (ds[h].driver.on <==> ds[h].listeners != [])
    {
      SwitchedRightAt(cs, reached, direct, v, now, change, h);
    }
  }

  /** A sensor that was activated itself keeps its driver to itself as long as no other sensor depends on
      it: always, if it is virtual. */
  lemma StaysDirect(cs: Contexts, reached: set<int>, direct: set<int>, v: int, change: Change, h: int)
    requires Agreed(cs, reached) && SwitchedRight(cs, reached, direct) && v in cs && h in direct && h != v
    requires cs[h].config.isVirtual || h !in cs[v].config.deps
    ensures h in StillDirect(cs, direct, v, change)
  {
    hide ListsAgree, Programmed, Powered;
  }

  /** The power of a driver that some activation has switched follows its sensor's own `enable` exactly when
      the sensor's own activation came last, or when that says the same as its listeners. */
  lemma OnIffEnabledIff(cs: Contexts, reached: set<int>, direct: set<int>, h: int)
    requires Agreed(cs, reached) && SwitchedRight(cs, reached, direct) && (h in direct || h in reached)
    ensures h in cs
    ensures (cs[h].driver.on <==> cs[h].setting.enable) <==>
            h in direct || (cs[h].setting.enable <==> exists v :: ShouldListen(cs, v, h))
  {
    if h !in direct && cs[h].listeners != [] {
      assert ShouldListen(cs, cs[h].listeners[0], h);
    }
  }

  /** A one-shot base sensor that nobody enabled, and a virtual sensor that depends on it. */
  function OneShotBase(): Contexts {
    map[1 := Context(Config(false, true, 0, 0, [1]), Setting(false, 0, 0), [], Driver(false, None, None)),
        2 := Context(Config(true, false, 0, 0, [1]), Setting(false, 10, 0), [], Driver(false, None, None))]
  }

  /** The sensors as they are found at start-up, with whatever power their drivers have. */
  lemma StartAgrees(cs: Contexts)
    requires Configured(cs) && forall h | h in cs :: cs[h].listeners == [] && !cs[h].setting.enable
    ensures Agreed(cs, {}) && SwitchedRight(cs, {}, {})
  {
  }

  lemma OneShotBaseIsConfigured()
    ensures Configured(OneShotBase()) && 1 in OneShotBase()[2].config.deps
    ensures forall h | h in OneShotBase() :: OneShotBase()[h].listeners == [] && !OneShotBase()[h].setting.enable
  {
    var cs := OneShotBase();
    assert cs[2].config.deps[0] == 1;
  }

  /** Activating the virtual one turns the base sensor's driver on, which its own `enable` does not say. */
  lemma OneShotIsSwitchedForListener()
    ensures var cs := OneShotBase();
            var now := cs[2].setting.(enable := true);
            && Agreed(cs, {}) && SwitchedRight(cs, {}, {}) && AllKnown(Set(cs, 2, now))
            && var ds := Operated(cs, 2, now, Enabling); ds[1].driver.on && !ds[1].setting.enable
  {
    hide Agreed, SwitchedRight, Operated, Told, Configured;
    OneShotBaseIsConfigured();
    StartAgrees(OneShotBase());
    var cs := OneShotBase();
    var now := cs[2].setting.(enable := true);
    assert AllKnown(Set(cs, 2, now));
    OperatedAt(cs, 2, now, Enabling, 1);
    PowerAfter(Set(cs, 2, now), cs[1], 2, Enabling);
    ToldKeepsSettings(Set(cs, 2, now), cs[1], 2, Enabling);
  }

  // ---- What no operation touches --------------------------------------------------------------------

  lemma ToldLeavesAlone(cs: Contexts, c: Context, v: int, change: Change)
    requires Known(cs, c.listeners) && v in cs
    ensures var c' := Told(cs, c, v, change);
            && (c.config.fifoMaxEventCount == 0 || change.Delaying? ==> c'.driver.latency == c.driver.latency)
            && (c'.listeners == [] ==> c'.driver.delay == c.driver.delay && c'.driver.latency == c.driver.latency)
            && (change.Delaying? || change.Batching? ==> c'.driver.on == c.driver.on)
  {
    hide SyncedDelay, SyncedLatency, Delays, Latencies;
  }

  /** An operation tells nothing to the drivers of sensors that v does not depend on. It never tells a
      latency to one without a FIFO, nor anything but its power to one that nobody listens to. */
  lemma LeftAlone(cs: Contexts, v: int, now: Setting, change: Change, h: int)
    requires v in cs && h in cs && AllKnown(Set(cs, v, now))
    ensures var ds := Operated(cs, v, now, change);
            && h in ds
            && var was, now' := cs[h].driver, ds[h].driver;
               && (h !in cs[v].config.deps ==> now' == was)
               && (cs[h].config.fifoMaxEventCount == 0 || change.Delaying? ==> now'.latency == was.latency)
               && (ds[h].listeners == [] ==> now'.delay == was.delay && now'.latency == was.latency)
               && (change.Delaying? || change.Batching? ==> now'.on == was.on)
  {
    OperatedAt(cs, v, now, change, h);
    ToldLeavesAlone(Set(cs, v, now), cs[h], v, change);
    hide Operated, Told;
  }

  // ---- What the agreement says ----------------------------------------------------------------------

  /** A driver that some activation reached is on exactly while an enabled sensor needs it. */
  lemma OnIffNeeded(cs: Contexts, reached: set<int>, h: int)
    requires Agreed(cs, reached) && h in reached && !cs[h].config.oneShot
    ensures cs[h].driver.on <==> exists v :: ShouldListen(cs, v, h)
  {
    if cs[h].listeners != [] {
      assert ShouldListen(cs, cs[h].listeners[0], h);
    }
  }

  /** While sensors need it, its delay and latency are the least that any of them asked for, as long
      as they all asked for some delay. */
  lemma ProgrammedForTheFastest(cs: Contexts, reached: set<int>, h: int)
    requires Agreed(cs, reached) && h in cs
    requires forall v | ShouldListen(cs, v, h) :: cs[v].setting.delayNs > 0
    requires exists v :: ShouldListen(cs, v, h)
    ensures var delay := cs[h].driver.delay;
            && delay.Some? && (exists v :: ShouldListen(cs, v, h) && cs[v].setting.delayNs == delay.value)
            && forall v | ShouldListen(cs, v, h) :: delay.value <= cs[v].setting.delayNs
    ensures var latency := cs[h].driver.latency;
            cs[h].config.fifoMaxEventCount != 0 ==>
              && latency.Some? && (exists v :: ShouldListen(cs, v, h) && cs[v].setting.latencyNs == latency.value)
              && forall v | ShouldListen(cs, v, h) :: latency.value <= cs[v].setting.latencyNs
  {
    var v :| ShouldListen(cs, v, h);
    assert v in cs[h].listeners;
    DelayForTheFastest(cs, h);
    LatencyForTheFastest(cs, h);
  }

  lemma DelayForTheFastest(cs: Contexts, h: int)
    requires h in cs && ListsAgree(cs, h, cs[h].listeners) && Programmed(cs, cs[h]) && cs[h].listeners != []
    requires forall v | ShouldListen(cs, v, h) :: cs[v].setting.delayNs > 0
    ensures var delay := cs[h].driver.delay;
            && delay.Some? && (exists v :: ShouldListen(cs, v, h) && cs[v].setting.delayNs == delay.value)
            && forall v | ShouldListen(cs, v, h) :: delay.value <= cs[v].setting.delayNs
  {
    var hs := cs[h].listeners;
    var delays := Delays(cs, hs);
    SyncedDelayIs(delays);
    var i :| 0 <= i < |hs| && delays[i] == SyncedDelay(delays);
    assert ShouldListen(cs, hs[i], h);
    forall x | ShouldListen(cs, x, h) ensures SyncedDelay(delays) <= cs[x].setting.delayNs {
      var k :| 0 <= k < |hs| && hs[k] == x;
      assert delays[k] in delays;
    }
  }

  lemma LatencyForTheFastest(cs: Contexts, h: int)
    requires h in cs && ListsAgree(cs, h, cs[h].listeners) && Programmed(cs, cs[h]) && cs[h].listeners != []
    ensures var latency := cs[h].driver.latency;
            cs[h].config.fifoMaxEventCount != 0 ==>
              && latency.Some? && (exists v :: ShouldListen(cs, v, h) && cs[v].setting.latencyNs == latency.value)
              && forall v | ShouldListen(cs, v, h) :: latency.value <= cs[v].setting.latencyNs
  {
    var hs := cs[h].listeners;
    var latencies := Latencies(cs, hs);
    SyncedLatencyIsMinimum(latencies);
    var j :| 0 <= j < |hs| && latencies[j] == SyncedLatency(latencies);
    assert ShouldListen(cs, hs[j], h);
    forall x | ShouldListen(cs, x, h) ensures SyncedLatency(latencies) <= cs[x].setting.latencyNs {
      var k :| 0 <= k < |hs| && hs[k] == x;
      assert latencies[k] in latencies;
    }
  }
}
