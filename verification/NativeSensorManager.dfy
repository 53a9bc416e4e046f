/** The methods of sensors/NativeSensorManager.cpp, proved against the operations of
    SensorSubscriptions, whose invariant every one of them keeps. */
module NativeSensorManagers {
  import opened HeapRuns
  import opened TimeSpecs
  import opened SensorSubscriptions

  const EINVAL := 22

  lemma ToldSame(cs: Contexts, ds: Contexts, c: Context, v: int, change: Change)
    requires SameSettings(cs, ds) && Known(cs, c.listeners) && v in cs
    ensures Known(ds, c.listeners) && Told(cs, c, v, change) == Told(ds, c, v, change)
  {
    KnownWithout(cs, c.listeners, v);
    assert Known(cs, With(c.listeners, v));
    SettingsMatterOnly(cs, ds, c.listeners);
    SettingsMatterOnly(cs, ds, With(c.listeners, v));
    SettingsMatterOnly(cs, ds, Without(c.listeners, v));
  }

  lemma ToldStaysKnown(cs: Contexts, c: Context, v: int, change: Change)
    requires Known(cs, c.listeners) && v in cs
    ensures Known(cs, Told(cs, c, v, change).listeners)
  {
    KnownWithout(cs, c.listeners, v);
    ToldKeepsSettings(cs, c, v, change);
  }

  lemma TellAllKeepsKnown(cs: Contexts, hs: seq<int>, v: int, change: Change)
    requires AllKnown(cs) && v in cs
    ensures AllKnown(TellAll(cs, hs, v, change)) && SameSettings(cs, TellAll(cs, hs, v, change))
  {
    hide Told;
    var ds := TellAll(cs, hs, v, change);
    forall h | h in ds
      ensures Known(ds, ds[h].listeners) && cs[h].config == ds[h].config && cs[h].setting == ds[h].setting
    {
      ToldKeepsSettings(cs, cs[h], v, change);
      ToldStaysKnown(cs, cs[h], v, change);
      assert Known(cs, ds[h].listeners);
    }
  }

  /** Telling one more base sensor. */
  lemma TellOneMore(cs: Contexts, hs: seq<int>, h: int, v: int, change: Change)
    requires AllKnown(cs) && v in cs && h in cs && h !in hs
    ensures var ds := TellAll(cs, hs, v, change);
            && h in ds && AllKnown(ds)
            && TellAll(cs, hs + [h], v, change) == ds[h := Told(ds, ds[h], v, change)]
  {
    hide Told;
    var ds := TellAll(cs, hs, v, change);
    TellAllKeepsKnown(cs, hs, v, change);
    ToldSame(cs, ds, cs[h], v, change);
    assert ds[h] == cs[h];
  }

  lemma TellNone(cs: Contexts, v: int, change: Change)
    requires AllKnown(cs) && v in cs
    ensures TellAll(cs, [], v, change) == cs
  {
  }

  /** The delay that setDelay stores: the product is a 32-bit one. */
  function Clamped(ns: int, minDelay: int): int {
    var floor := ToInt32(minDelay * 1000);
    if ns < floor then floor else ns
  }

  /** It is the larger of the two delays exactly when the minimum's nanoseconds fit 32 bits, or the
      delay asked for is no less than either reading of them. */
  lemma ClampedIsMaximum(ns: int, minDelay: int)
    requires -TWO_TO_THE_31 <= minDelay < TWO_TO_THE_31
    ensures var floor, wrapped := minDelay * 1000, ToInt32(minDelay * 1000);
            Clamped(ns, minDelay) == (if ns >= floor then ns else floor) <==>
            wrapped == floor || (ns >= floor && ns >= wrapped)
  {
  }

  /** A virtual sensor's driver is switched directly, as is a one-shot sensor's. */
  function Switched(cs: Contexts, v: int, on: bool): Contexts
    requires v in cs
  {
    cs[v := cs[v].(driver := cs[v].driver.(on := on))]
  }

  lemma SwitchKeepsAgreed(cs: Contexts, reached: set<int>, v: int, on: bool)
    requires Agreed(cs, reached) && v in cs && (cs[v].config.isVirtual || cs[v].config.oneShot)
    ensures Agreed(Switched(cs, v, on), reached)
  {
    hide ListsAgree, Programmed, ShouldListen;
    var ds := Switched(cs, v, on);
    forall h | h in ds ensures AgreedAt(ds, reached, h) {
      SwitchKeepsListening(cs, v, on, h);
      CarriesOver(cs, ds, reached, h);
    }
    AgreedFromParts(ds, reached);
  }

  lemma SwitchKeepsListening(cs: Contexts, v: int, on: bool, h: int)
    requires v in cs
    ensures forall x :: ShouldListen(Switched(cs, v, on), x, h) <==> ShouldListen(cs, x, h)
  {
  }

  /** A sensor that switches its own driver: from then on that is what counts. */
  lemma SwitchIsDirect(cs: Contexts, reached: set<int>, direct: set<int>, v: int, on: bool)
    requires SwitchedRight(cs, reached, direct) && v in cs && (cs[v].config.isVirtual || cs[v].config.oneShot)
    ensures var was := cs[v].setting;
            && (was.enable == on ==> SwitchedRight(Switched(cs, v, on), reached, direct + {v}))
            && SwitchedRight(Switched(Set(cs, v, was.(enable := on)), v, on), reached, direct + {v})
  {
  }

  lemma SwitchTouchesOne(cs: Contexts, v: int, on: bool)
    requires v in cs
    ensures var ds := Switched(cs, v, on);
            && ds.Keys == cs.Keys && ds == cs[v := ds[v]]
            && ds[v] == cs[v].(driver := cs[v].driver.(on := on))
            && forall h | h in cs :: ds[h].listeners == cs[h].listeners
  {
  }

  lemma OperatedIs(cs: Contexts, v: int, now: Setting, change: Change)
    requires v in cs && AllKnown(Set(cs, v, now))
    ensures Operated(cs, v, now, change) == TellAll(Set(cs, v, now), cs[v].config.deps, v, change)
  {
  }

  /** What is told to v's base sensors does not reach v itself, if it is virtual. */
  lemma VirtualIsNoBase(cs: Contexts, reached: set<int>, v: int, now: Setting, change: Change)
    requires Agreed(cs, reached) && v in cs && AllKnown(Set(cs, v, now))
    ensures v in Operated(cs, v, now, change)
    ensures Operated(cs, v, now, change)[v].setting == now
    ensures cs[v].config.isVirtual ==> Operated(cs, v, now, change)[v] == cs[v].(setting := now)
  {
    OperatedAt(cs, v, now, change, v);
    ToldKeepsSettings(Set(cs, v, now), cs[v], v, change);
    hide Operated, Told, AllKnown, ListsAgree, Programmed;
  }

  /** The lists of v's base sensors after it was switched on or off, and those of all others. */
  lemma ActivatedLists(cs: Contexts, reached: set<int>, v: int, now: Setting, change: Change)
    requires Agreed(cs, reached) && v in cs && !cs[v].config.oneShot && AllKnown(Set(cs, v, now))
    requires (change.Enabling? || change.Disabling?) && now == cs[v].setting.(enable := change.Enabling?)
    ensures var ds := Operated(cs, v, now, change);
            && ds.Keys == cs.Keys
            && forall h | h in cs ::
                 if h in cs[v].config.deps && change.Enabling? != (v in cs[h].listeners)
                 then Relisted(cs[h].listeners, v, change.Enabling?, ds[h].listeners)
                 else ds[h].listeners == cs[h].listeners
  {
    hide Operated, AllKnown, Relisted, Without, Agreed;
    forall h | h in cs
      ensures var ds := Operated(cs, v, now, change);
              && ds.Keys == cs.Keys
              && if h in cs[v].config.deps && change.Enabling? != (v in cs[h].listeners)
                 then Relisted(cs[h].listeners, v, change.Enabling?, ds[h].listeners)
                 else ds[h].listeners == cs[h].listeners
    {
      OperatedAt(cs, v, now, change, h);
      ToldKeepsSettings(Set(cs, v, now), cs[h], v, change);
      hide Told;
      WithIsRelisted(cs[h].listeners, v);
      WithoutIsRelisted(cs[h].listeners, v);
    }
  }

  /** A one-shot sensor's own setting matters to no base sensor. */
  lemma OneShotKeepsAgreed(cs: Contexts, reached: set<int>, v: int, enable: bool)
    requires Agreed(cs, reached) && v in cs && cs[v].config.oneShot
    ensures Agreed(Set(cs, v, cs[v].setting.(enable := enable)), reached)
  {
    hide ListsAgree, Programmed, ShouldListen;
    var ds := Set(cs, v, cs[v].setting.(enable := enable));
    forall h | h in ds ensures AgreedAt(ds, reached, h) {
      OneShotNeverListens(cs, v, enable, h);
      CarriesOver(cs, ds, reached, h);
    }
    AgreedFromParts(ds, reached);
  }

  lemma OneShotNeverListens(cs: Contexts, v: int, enable: bool, h: int)
    requires v in cs && cs[v].config.oneShot
    ensures forall x ::
              ShouldListen(Set(cs, v, cs[v].setting.(enable := enable)), x, h) <==> ShouldListen(cs, x, h)
  {
  }

  /** Changing a context's lists and driver leaves every sensor's settings as they were. */
  lemma UpdateIsHarmless(cs: Contexts, h: int, c: Context)
    requires AllKnown(cs) && h in cs && Known(cs, c.listeners)
    requires c.config == cs[h].config && c.setting == cs[h].setting
    ensures AllKnown(cs[h := c]) && SameSettings(cs, cs[h := c])
    ensures Delays(cs, c.listeners) == Delays(cs[h := c], c.listeners)
    ensures Latencies(cs, c.listeners) == Latencies(cs[h := c], c.listeners)
    ensures Known(cs[h := c], c.listeners)
  {
    SettingsMatterOnly(cs, cs[h := c], c.listeners);
    forall k | k in cs ensures Known(cs[h := c], cs[h := c][k].listeners) {
      assert Known(cs, cs[k].listeners);
    }
  }

  lemma TellAfterUpdate(cs: Contexts, h: int, c: Context)
    requires AllKnown(cs) && h in cs && Known(cs, c.listeners)
    requires c.config == cs[h].config && c.setting == cs[h].setting
    ensures AllKnown(cs[h := c]) && Known(cs[h := c], c.listeners)
    ensures TellDelay(cs[h := c], c) == TellDelay(cs, c) && TellLatency(cs[h := c], c) == TellLatency(cs, c)
  {
    UpdateIsHarmless(cs, h, c);
  }

  lemma TellKeepsSettings(cs: Contexts, c: Context)
    requires Known(cs, c.listeners)
    ensures var d := TellDelay(cs, c);
            d.config == c.config && d.setting == c.setting && d.listeners == c.listeners
    ensures var l := TellLatency(cs, c);
            l.config == c.config && l.setting == c.setting && l.listeners == c.listeners
  {
  }

  lemma NobodyLeft(cs: Contexts, c: Context, v: int)
    requires c.listeners == []
    ensures Without(c.listeners, v) == [] && c.(listeners := []) == c
    ensures TellDelay(cs, c) == c && TellLatency(cs, c) == c
  {
  }

  lemma ToldDelay(cs: Contexts, h: int, v: int)
    requires AllKnown(cs) && h in cs && v in cs
    ensures Known(cs, cs[h].listeners) && Told(cs, cs[h], v, Delaying) == TellDelay(cs, cs[h])
  {
  }

  /** A sensor's dependencies exist, each once. */
  ghost predicate KnownOnce(cs: Contexts, hs: seq<int>) {
    Known(cs, hs) && forall i | 0 <= i < |hs| :: hs[i] !in hs[..i]
  }

  lemma DependenciesAreKnown(cs: Contexts, reached: set<int>, v: int)
    requires Agreed(cs, reached) && v in cs
    ensures KnownOnce(cs, cs[v].config.deps)
  {
    hide ListsAgree, Programmed, Powered;
    var hs := cs[v].config.deps;
    assert NoDuplicates(hs);
    forall i | 0 <= i < |hs| ensures hs[i] in cs {
      var h := hs[i];
      assert h in hs;
    }
    forall i | 0 <= i < |hs| ensures hs[i] !in hs[..i] {
      OnlyOnce(hs, i);
    }
  }

  lemma OnlyOnce(hs: seq<int>, i: nat)
    requires NoDuplicates(hs) && i < |hs|
    ensures hs[i] !in hs[..i]
  {
    forall j | 0 <= j < i ensures hs[..i][j] != hs[i] {
    }
  }

  lemma KnownOnceAfter(cs: Contexts, v: int, now: Setting)
    requires v in cs && KnownOnce(cs, cs[v].config.deps)
    ensures KnownOnce(Set(cs, v, now), Set(cs, v, now)[v].config.deps)
  {
  }

  ghost function Depending(cs: Contexts, v: int, dep: int): Contexts
    requires v in cs
  {
    cs[v := cs[v].(config := cs[v].config.(deps := cs[v].config.deps + [dep]))]
  }

  /** A new dependency of a virtual sensor keeps everything agreed exactly when it is hardware and the
      sensor is not listening to its dependencies already. */
  lemma DependencyAgreesIff(cs: Contexts, reached: set<int>, v: int, dep: int)
    requires Agreed(cs, reached) && v in cs && cs[v].config.isVirtual
    requires dep in cs && dep !in cs[v].config.deps
    ensures Agreed(Depending(cs, v, dep), reached) <==>
            !cs[dep].config.isVirtual && (!cs[v].setting.enable || cs[v].config.oneShot)
  {
    if cs[dep].config.isVirtual {
      VirtualDependencyIsMisconfigured(cs, v, dep);
    } else if cs[v].setting.enable && !cs[v].config.oneShot {
      LateDependencyIsNotHeard(cs, reached, v, dep);
    } else {
      DependencyKeepsAgreed(cs, reached, v, dep);
    }
  }

  lemma VirtualDependencyIsMisconfigured(cs: Contexts, v: int, dep: int)
    requires v in cs && dep in cs && cs[dep].config.isVirtual
    ensures !Configured(Depending(cs, v, dep))
  {
    var ds := Depending(cs, v, dep);
    assert dep in ds[v].config.deps && ds[dep].config.isVirtual;
  }

  lemma LateDependencyIsNotHeard(cs: Contexts, reached: set<int>, v: int, dep: int)
    requires Agreed(cs, reached) && v in cs && cs[v].setting.enable && !cs[v].config.oneShot
    requires dep in cs && dep !in cs[v].config.deps
    ensures !Agreed(Depending(cs, v, dep), reached)
  {
    hide Programmed, Powered, Configured, NoDuplicates;
    var ds := Depending(cs, v, dep);
    assert !ShouldListen(cs, v, dep) && v !in cs[dep].listeners;
    assert ShouldListen(ds, v, dep) && v !in ds[dep].listeners;
    assert !ListsAgree(ds, dep, ds[dep].listeners);
  }

  lemma DependencyKeepsAgreed(cs: Contexts, reached: set<int>, v: int, dep: int)
    requires Agreed(cs, reached) && v in cs && (!cs[v].setting.enable || cs[v].config.oneShot)
    requires cs[v].config.isVirtual && dep in cs && !cs[dep].config.isVirtual && dep !in cs[v].config.deps
    ensures Agreed(Depending(cs, v, dep), reached)
  {
    hide ListsAgree, Programmed, ShouldListen, Configured, Depending;
    DependencyKeepsConfig(cs, v, dep);
    var ds := Depending(cs, v, dep);
    forall h | h in cs ensures AgreedAt(ds, reached, h) {
      DependencyKeepsContext(cs, v, dep, h);
      CarriesOver(cs, ds, reached, h);
    }
    AgreedFromParts(ds, reached);
  }

  lemma DependencyKeepsConfig(cs: Contexts, v: int, dep: int)
    requires Configured(cs) && v in cs && cs[v].config.isVirtual
    requires dep in cs && !cs[dep].config.isVirtual && dep !in cs[v].config.deps
    ensures Configured(Depending(cs, v, dep)) && Depending(cs, v, dep).Keys == cs.Keys
    ensures forall h | h in cs :: Depending(cs, v, dep)[h].config.isVirtual == cs[h].config.isVirtual
  {
  }

  lemma DependencyKeepsContext(cs: Contexts, v: int, dep: int, h: int)
    requires v in cs && h in cs && (!cs[v].setting.enable || cs[v].config.oneShot)
    ensures var ds := Depending(cs, v, dep);
            && SameTimes(cs, ds)
            && ds[h].listeners == cs[h].listeners && ds[h].driver == cs[h].driver
            && ds[h].config == cs[h].config.(deps := ds[h].config.deps)
            && forall x :: ShouldListen(ds, x, h) <==> ShouldListen(cs, x, h)
  {
  }

  class NativeSensorManager {
    var contexts: Contexts
    /** Base sensors that some activation has reached. */
    ghost var reached: set<int>
    /** Sensors whose own activation was the last to switch their driver. */
    ghost var direct: set<int>

    ghost predicate Valid()
      reads this
    {
      Agreed(contexts, reached) && SwitchedRight(contexts, reached, direct)
    }

    /** The sensors found at start-up, whose drivers may be on already. */
    constructor (contexts: Contexts)
      requires Configured(contexts)
      requires forall h | h in contexts :: contexts[h].listeners == [] && !contexts[h].setting.enable
      ensures Valid() && this.contexts == contexts && reached == direct == {}
    {
      this.contexts := contexts;
      reached, direct := {}, {};
    }

    method RegisterListener(hw: int, virt: int) returns (err: int)
      requires hw in contexts
      modifies `contexts
      ensures err == if virt in old(contexts)[hw].listeners then -1 else 0
      ensures var was := old(contexts)[hw];
              contexts == old(contexts)[hw := was.(listeners := With(was.listeners, virt))]
    {
      var listeners := contexts[hw].listeners;
      for i := 0 to |listeners|
        invariant virt !in listeners[..i]
      {
        if listeners[i] == virt {
          return -1;
        }
      }
      contexts := contexts[hw := contexts[hw].(listeners := listeners + [virt])];
      return 0;
    }

    method UnregisterListener(hw: int, virt: int) returns (err: int)
      requires hw in contexts
      modifies `contexts
      ensures err == if virt in old(contexts)[hw].listeners then 0 else -1
      ensures var was := old(contexts)[hw];
              contexts == old(contexts)[hw := was.(listeners := Without(was.listeners, virt))]
    {
      var listeners := contexts[hw].listeners;
      for i := 0 to |listeners|
        invariant virt !in listeners[..i]
      {
        if listeners[i] == virt {
          WithoutAt(listeners, virt, i);
          contexts := contexts[hw := contexts[hw].(listeners := listeners[..i] + listeners[i + 1..])];
          return 0;
        }
      }
      WithoutAt(listeners, virt, |listeners|);
      return -1;
    }

    /** `answer` is what the driver's setDelay returns. */
    method SyncDelay(h: int, answer: int) returns (err: int)
      requires AllKnown(contexts)
      modifies `contexts
      ensures err == if h !in old(contexts) then -EINVAL
                     else if old(contexts)[h].listeners == [] then 0 else answer
      ensures contexts == if h in old(contexts) then old(contexts)[h := TellDelay(old(contexts), old(contexts)[h])]
                          else old(contexts)
    {
      if h !in contexts {
        return -EINVAL;
      }
      var c := contexts[h];
      if c.listeners == [] {
        return 0;
      }
      ghost var delays := Delays(contexts, c.listeners);
      assert c.listeners[0] in contexts;
      var min := contexts[c.listeners[0]].setting.delayNs;
      for i := 0 to |c.listeners|
        invariant min == if i == 0 then delays[0] else SyncedDelay(delays[..i])
      {
        assert c.listeners[i] in contexts;
        var delay := contexts[c.listeners[i]].setting.delayNs;
        assert delays[..i + 1][..i] == delays[..i];
        if delay != 0 {
          if min > delay {
            min := delay;
          }
        }
      }
      assert delays[..|delays|] == delays;
      contexts := contexts[h := c.(driver := c.driver.(delay := Some(min)))];
      return answer;
    }

    method SyncLatency(h: int) returns (err: int)
      requires AllKnown(contexts)
      modifies `contexts
      ensures err == if h in contexts then 0 else -EINVAL
      ensures contexts == if h in old(contexts) then old(contexts)[h := TellLatency(old(contexts), old(contexts)[h])]
                          else old(contexts)
    {
      if h !in contexts {
        return -EINVAL;
      }
      var c := contexts[h];
      if c.listeners == [] {
        return 0;
      }
      ghost var latencies := Latencies(contexts, c.listeners);
      assert c.listeners[0] in contexts;
      var min := contexts[c.listeners[0]].setting.latencyNs;
      for i := 0 to |c.listeners|
        invariant min == if i == 0 then latencies[0] else SyncedLatency(latencies[..i])
      {
        assert c.listeners[i] in contexts;
        var latency := contexts[c.listeners[i]].setting.latencyNs;
        assert latencies[..i + 1][..i] == latencies[..i];
        if min > latency {
          min := latency;
        }
      }
      assert latencies[..|latencies|] == latencies;
      if c.config.fifoMaxEventCount != 0 {
        contexts := contexts[h := c.(driver := c.driver.(latency := Some(min)))];
      }
      return 0;
    }

    /** One base sensor's part of an activation. */
    method Join(h: int, v: int)
      requires AllKnown(contexts) && h in contexts && v in contexts
      modifies `contexts
      ensures contexts == old(contexts)[h := Told(old(contexts), old(contexts)[h], v, Enabling)]
    {
      hide SyncedDelay, SyncedLatency, Delays, Latencies, TellDelay, TellLatency;
      ghost var cs, c := contexts, contexts[h];
      var r := RegisterListener(h, v);
      ghost var listening := c.(listeners := With(c.listeners, v));
      assert Known(cs, listening.listeners);
      TellAfterUpdate(cs, h, listening);
      r := SyncLatency(h);
      ghost var told := TellLatency(cs, listening);
      assert contexts == cs[h := told];
      contexts := contexts[h := contexts[h].(driver := contexts[h].driver.(on := true))];
      ghost var running := told.(driver := told.driver.(on := true));
      TellKeepsSettings(cs, listening);
      assert contexts == cs[h := running];
      TellAfterUpdate(cs, h, running);
      var answer: int := *;
      r := SyncDelay(h, answer);
      assert contexts == cs[h := TellDelay(cs, running)];
    }

    /** One base sensor's part of a deactivation. */
    method Part(h: int, v: int)
      requires AllKnown(contexts) && h in contexts && v in contexts
      modifies `contexts
      ensures contexts == old(contexts)[h := Told(old(contexts), old(contexts)[h], v, Disabling)]
    {
      hide SyncedDelay, SyncedLatency, Delays, Latencies, TellDelay, TellLatency, Without;
      ghost var cs, c := contexts, contexts[h];
      KnownWithout(cs, c.listeners, v);
      ghost var left := c.(listeners := Without(c.listeners, v));
      TellKeepsSettings(cs, left);
      ghost var told := TellLatency(cs, TellDelay(cs, left));
      if contexts[h].listeners != [] {
        var r := UnregisterListener(h, v);
        TellAfterUpdate(cs, h, left);
        var answer: int := *;
        r := SyncDelay(h, answer);
        assert contexts == cs[h := TellDelay(cs, left)];
        TellAfterUpdate(cs, h, TellDelay(cs, left));
        r := SyncLatency(h);
        assert contexts == cs[h := told];
      } else {
        NobodyLeft(cs, c, v);
        assert contexts == cs[h := told];
      }
      if contexts[h].listeners == [] {
        contexts := contexts[h := contexts[h].(driver := contexts[h].driver.(on := false))];
        assert contexts == cs[h := told.(driver := told.driver.(on := false))];
      }
    }

    method JoinOrPart(h: int, v: int, enable: bool)
      requires AllKnown(contexts) && h in contexts && v in contexts
      modifies `contexts
      ensures contexts ==
              old(contexts)[h := Told(old(contexts), old(contexts)[h], v, if enable then Enabling else Disabling)]
    {
      if enable {
        Join(h, v);
      } else {
        Part(h, v);
      }
    }

    /** The loop over v's dependencies when it is switched on or off. */
    method ActivateBases(v: int, enable: bool)
      requires AllKnown(contexts) && v in contexts && KnownOnce(contexts, contexts[v].config.deps)
      modifies `contexts
      ensures contexts == TellAll(old(contexts), old(contexts)[v].config.deps, v,
                                  if enable then Enabling else Disabling)
    {
      ghost var cs, change := contexts, if enable then Enabling else Disabling;
      var deps := contexts[v].config.deps;
      hide Told, AllKnown, TellAll;
      TellNone(cs, v, change);
      for i := 0 to |deps|
        invariant contexts == TellAll(cs, deps[..i], v, change)
      {
        assert deps[..i + 1] == deps[..i] + [deps[i]];
        TellOneMore(cs, deps[..i], deps[i], v, change);
        TellAllKeepsKnown(cs, deps[..i], v, change);
        JoinOrPart(deps[i], v, enable);
      }
      assert deps[..|deps|] == deps;
    }

    /** `answer` is what a one-shot sensor's driver returns. */
    method Activate(handle: int, enable: bool, answer: int) returns (err: int)
      requires Valid()
      modifies this
      ensures Valid()
      ensures err == if handle !in old(contexts) then -EINVAL
                     else if old(contexts)[handle].config.oneShot then answer else 0
      ensures handle !in old(contexts) ==> contexts == old(contexts) && reached == old(reached)
      ensures handle in old(contexts) ==>
                var was := old(contexts);
                var c, change := was[handle], if enable then Enabling else Disabling;
                var now := c.setting.(enable := enable);
                && AllKnown(Set(was, handle, now))
                && handle in Operated(was, handle, now, change)
                && reached == (if c.config.oneShot then old(reached) else Reach(was, old(reached), handle, change))
                && contexts == (if c.config.oneShot then Switched(Set(was, handle, now), handle, enable)
                                else if c.config.isVirtual
                                then Switched(Operated(was, handle, now, change), handle, enable)
                                else Operated(was, handle, now, change))
                && direct == (if c.config.oneShot then old(direct) + {handle}
                              else StillDirect(was, old(direct), handle, change)
                                   + if c.config.isVirtual then {handle} else {})
      // The driver of a one-shot or virtual sensor is switched as asked, and nothing else of it changes;
      // a one-shot sensor's activation changes no other sensor.
      ensures handle in old(contexts)
              && (old(contexts)[handle].config.oneShot || old(contexts)[handle].config.isVirtual) ==>
                var c := old(contexts)[handle];
                contexts.Keys == old(contexts).Keys
                && contexts[handle] == c.(setting := c.setting.(enable := enable), driver := c.driver.(on := enable))
                && (c.config.oneShot ==> contexts == old(contexts)[handle := contexts[handle]])
      // The sensor joins its base sensors' lists at the end, or leaves them.
      ensures handle in old(contexts) && !old(contexts)[handle].config.oneShot ==>
                var was := old(contexts);
                contexts.Keys == was.Keys
                && forall h | h in was ::
                     if h in was[handle].config.deps && enable != (handle in was[h].listeners)
                     then Relisted(was[h].listeners, handle, enable, contexts[h].listeners)
                     else contexts[h].listeners == was[h].listeners
    {
      hide Told, Agreed, AllKnown, Switched, TellAll, KnownOnce, Reach, SwitchedRight, StillDirect, Operated, Relisted;
      if handle !in contexts {
        return -EINVAL;
      }
      ghost var was, c, change := contexts, contexts[handle], if enable then Enabling else Disabling;
      var now := contexts[handle].setting.(enable := enable);
      contexts := contexts[handle := contexts[handle].(setting := now)];
      ghost var cs := contexts;
      SetKeepsKnown(was, reached, handle, now);
      OperatedKeepsSettings(was, handle, now, change);
      if contexts[handle].config.oneShot {
        OneShotKeepsAgreed(was, reached, handle, enable);
        SwitchKeepsAgreed(cs, reached, handle, enable);
        SwitchIsDirect(was, reached, direct, handle, enable);
        SwitchTouchesOne(cs, handle, enable);
        SwitchDriver(handle, enable);
        direct := direct + {handle};
        return answer;
      }
      OperatedAgrees(was, reached, handle, now, change);
      OperatedSwitchedRight(was, reached, direct, handle, now, change);
      ActivatedLists(was, reached, handle, now, change);
      DependenciesAreKnown(was, reached, handle);
      KnownOnceAfter(was, handle, now);
      OperatedIs(was, handle, now, change);
      ActivateBases(handle, enable);
      assert contexts == Operated(was, handle, now, change) && contexts[handle].config == c.config;
      VirtualIsNoBase(was, reached, handle, now, change);
      reached, direct := Reach(was, reached, handle, change), StillDirect(was, direct, handle, change);
      if contexts[handle].config.isVirtual {
        SwitchKeepsAgreed(contexts, reached, handle, enable);
        SwitchIsDirect(contexts, reached, direct, handle, enable);
        SwitchTouchesOne(contexts, handle, enable);
        SwitchDriver(handle, enable);
        direct := direct + {handle};
      }
      return 0;
    }

    method SwitchDriver(handle: int, on: bool)
      requires handle in contexts
      modifies `contexts
      ensures contexts == Switched(old(contexts), handle, on)
    {
      contexts := contexts[handle := contexts[handle].(driver := contexts[handle].driver.(on := on))];
    }

    method DelayBases(v: int)
      requires AllKnown(contexts) && v in contexts && KnownOnce(contexts, contexts[v].config.deps)
      modifies `contexts
      ensures contexts == TellAll(old(contexts), old(contexts)[v].config.deps, v, Delaying)
    {
      ghost var cs := contexts;
      var deps := contexts[v].config.deps;
      hide Told, AllKnown, TellAll;
      TellNone(cs, v, Delaying);
      for i := 0 to |deps|
        invariant contexts == TellAll(cs, deps[..i], v, Delaying)
      {
        assert deps[..i + 1] == deps[..i] + [deps[i]];
        TellOneMore(cs, deps[..i], deps[i], v, Delaying);
        TellAllKeepsKnown(cs, deps[..i], v, Delaying);
        ToldDelay(contexts, deps[i], v);
        var answer: int := *;
        var r := SyncDelay(deps[i], answer);
      }
      assert deps[..|deps|] == deps;
    }

    method SetDelay(handle: int, ns: int) returns (err: int)
      requires Valid()
      modifies `contexts
      ensures Valid()
      ensures err == if handle in old(contexts) && ns != 0 then 0 else -EINVAL
      ensures err != 0 || old(contexts)[handle].config.oneShot ==> contexts == old(contexts)
      ensures err == 0 && !old(contexts)[handle].config.oneShot ==>
                var was := old(contexts)[handle];
                var now := was.setting.(delayNs := Clamped(ns, was.config.minDelay));
                && AllKnown(Set(old(contexts), handle, now))
                && contexts == Operated(old(contexts), handle, now, Delaying)
    {
      hide Told, Agreed, AllKnown, TellAll, KnownOnce, SwitchedRight;
      if handle !in contexts {
        return -EINVAL;
      }
      if ns == 0 {
        return -EINVAL;
      }
      if contexts[handle].config.oneShot {
        return 0;
      }
      ghost var was := contexts;
      var floor := ToInt32(contexts[handle].config.minDelay * 1000);
      var now := contexts[handle].setting.(delayNs := if ns < floor then floor else ns);
      contexts := contexts[handle := contexts[handle].(setting := now)];
      OperatedAgrees(was, reached, handle, now, Delaying);
      OperatedSwitchedRight(was, reached, direct, handle, now, Delaying);
      DependenciesAreKnown(was, reached, handle);
      KnownOnceAfter(was, handle, now);
      DelayBases(handle);
      return 0;
    }

    method BatchBases(v: int)
      requires AllKnown(contexts) && v in contexts && KnownOnce(contexts, contexts[v].config.deps)
      modifies `contexts
      ensures contexts == TellAll(old(contexts), old(contexts)[v].config.deps, v, Batching)
    {
      ghost var cs := contexts;
      var deps := contexts[v].config.deps;
      hide Told, AllKnown, TellAll;
      TellNone(cs, v, Batching);
      for i := 0 to |deps|
        invariant contexts == TellAll(cs, deps[..i], v, Batching)
      {
        assert deps[..i + 1] == deps[..i] + [deps[i]];
        TellOneMore(cs, deps[..i], deps[i], v, Batching);
        TellAllKeepsKnown(cs, deps[..i], v, Batching);
        SyncBoth(deps[i], v);
      }
      assert deps[..|deps|] == deps;
    }

    method Batch(handle: int, sampleNs: int, latencyNs: int) returns (err: int)
      requires Valid()
      modifies `contexts
      ensures Valid()
      ensures err == if (latencyNs != 0 && latencyNs < sampleNs) || handle !in old(contexts) then -EINVAL else 0
      ensures err != 0 || old(contexts)[handle].config.oneShot ==> contexts == old(contexts)
      ensures err == 0 && !old(contexts)[handle].config.oneShot ==>
                var now := old(contexts)[handle].setting.(delayNs := sampleNs, latencyNs := latencyNs);
                && AllKnown(Set(old(contexts), handle, now))
                && contexts == Operated(old(contexts), handle, now, Batching)
    {
      hide Told, Agreed, AllKnown, TellAll, KnownOnce, SwitchedRight;
      if latencyNs != 0 && latencyNs < sampleNs {
        return -EINVAL;
      }
      if handle !in contexts {
        return -EINVAL;
      }
      if contexts[handle].config.oneShot {
        return 0;
      }
      ghost var was := contexts;
      var now := contexts[handle].setting.(delayNs := sampleNs, latencyNs := latencyNs);
      contexts := contexts[handle := contexts[handle].(setting := now)];
      OperatedAgrees(was, reached, handle, now, Batching);
      OperatedSwitchedRight(was, reached, direct, handle, now, Batching);
      DependenciesAreKnown(was, reached, handle);
      KnownOnceAfter(was, handle, now);
      BatchBases(handle);
      return 0;
    }

    method SyncBoth(h: int, ghost v: int)
      requires AllKnown(contexts) && h in contexts && v in contexts
      modifies `contexts
      ensures contexts == old(contexts)[h := Told(old(contexts), old(contexts)[h], v, Batching)]
    {
      ghost var cs := contexts;
      var answer: int := *;
      var r := SyncDelay(h, answer);
      UpdateIsHarmless(cs, h, contexts[h]);
      r := SyncLatency(h);
    }

    /** Called while the sensors are set up: a dependency that is added to a sensor that listens already
        is the one case, with that of a virtual dependency, that breaks the agreement. */
    method AddDependency(v: int, dep: int) returns (err: int)
      requires Valid() && v in contexts
      modifies `contexts
      ensures err == if old(contexts)[v].config.isVirtual && dep in old(contexts) then 0 else -1
      ensures contexts == if err == 0 && dep !in old(contexts)[v].config.deps
                          then Depending(old(contexts), v, dep) else old(contexts)
      ensures var was := old(contexts);
              Valid() <==>
              || err != 0 || dep in was[v].config.deps
              || (!was[dep].config.isVirtual && (!was[v].setting.enable || was[v].config.oneShot))
    {
      hide Agreed;
      var c := contexts[v];
      if !c.config.isVirtual || dep !in contexts {
        return -1;
      }
      var deps := c.config.deps;
      for i := 0 to |deps|
        invariant dep !in deps[..i]
      {
        if deps[i] == dep {
          return 0;
        }
      }
      DependencyAgreesIff(contexts, reached, v, dep);
      contexts := contexts[v := c.(config := c.config.(deps := deps + [dep]))];
      return 0;
    }
  }
}
