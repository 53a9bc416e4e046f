/** The two handle maps of sensors/multihal.cpp: each sub-module's local handles get global ones. */
module HandleMaps {
  datatype FullHandle = FullHandle(moduleIndex: int, localHandle: int)

  /** An event; a meta-data event names its sensor in its payload and has its own field set to 0. */
  datatype SensorEvent = SensorEvent(metaData: bool, sensor: int, metaSensor: int, payload: int)

  const UNKNOWN := -1

  /** The global handle a full handle was given last, when global handle g went to `handles[g - 1]`. */
  function GlobalOf(handles: seq<FullHandle>, full: FullHandle): int {
    if handles == [] then UNKNOWN
    else if handles[|handles| - 1] == full then |handles|
    else GlobalOf(handles[..|handles| - 1], full)
  }

  /** It is the largest global handle that stands for this full handle, and unknown if there is none. */
  lemma {:induction false} GlobalOfIsLast(handles: seq<FullHandle>, full: FullHandle)
    ensures var g := GlobalOf(handles, full);
            if full in handles then
              && 1 <= g <= |handles| && handles[g - 1] == full
              && (forall h | g <= h < |handles| :: handles[h] != full)
            else g == UNKNOWN
  {
    if handles != [] && handles[|handles| - 1] != full {
      var front := handles[..|handles| - 1];
      GlobalOfIsLast(front, full);
      assert full in handles <==> full in front;
    }
  }

  /** Going from a global handle to its full handle and back is the identity exactly when that full
      handle was not registered again later. */
  lemma RoundTrip(handles: seq<FullHandle>, g: int)
    requires 1 <= g <= |handles|
    ensures GlobalOf(handles, handles[g - 1]) == g <==> handles[g - 1] !in handles[g..]
  {
    hide GlobalOf;
    var full := handles[g - 1];
    GlobalOfIsLast(handles, full);
    var last := GlobalOf(handles, full);
    if last > g {
      assert handles[g..][last - 1 - g] == full;
    } else {
      forall i | 0 <= i < |handles[g..]| ensures handles[g..][i] != full {
        assert handles[g..][i] == handles[g + i];
      }
    }
  }

  /** An event as poll passes it on: the handle it names becomes global. */
  function Remap(handles: seq<FullHandle>, event: SensorEvent, moduleIndex: int): SensorEvent {
    if event.metaData then event.(metaSensor := GlobalOf(handles, FullHandle(moduleIndex, event.metaSensor)))
    else event.(sensor := GlobalOf(handles, FullHandle(moduleIndex, event.sensor)))
  }

  /** `full` was not registered again after it was given g. */
  ghost predicate LastUse(handles: seq<FullHandle>, g: int, full: FullHandle)
    requires 1 <= g <= |handles|
  {
    forall h | g <= h < |handles| :: handles[h] != full
  }

  /** g is the global handle that stands for `full`: the last one it was given, or unknown. */
  ghost predicate StandsFor(handles: seq<FullHandle>, g: int, full: FullHandle) {
    if full in handles then 1 <= g <= |handles| && handles[g - 1] == full && LastUse(handles, g, full)
    else g == UNKNOWN
  }

  /** `dest` is `src`, of this module, except that it names its sensor by the global handle: in its own
      field, or in the payload if it is a meta-data event. */
  ghost predicate Renamed(handles: seq<FullHandle>, src: SensorEvent, moduleIndex: int, dest: SensorEvent) {
    && dest.metaData == src.metaData && dest.payload == src.payload
    && (if src.metaData
        then dest.sensor == src.sensor && StandsFor(handles, dest.metaSensor, FullHandle(moduleIndex, src.metaSensor))
        else dest.metaSensor == src.metaSensor && StandsFor(handles, dest.sensor, FullHandle(moduleIndex, src.sensor)))
  }

  lemma GlobalOfStandsFor(handles: seq<FullHandle>, full: FullHandle)
    ensures StandsFor(handles, GlobalOf(handles, full), full)
  {
    GlobalOfIsLast(handles, full);
  }

  /** What is passed on carries the handle its sensor has, and is otherwise what the module sent. */
  lemma RemapRenames(handles: seq<FullHandle>, event: SensorEvent, moduleIndex: int)
    ensures Renamed(handles, event, moduleIndex, Remap(handles, event, moduleIndex))
  {
    hide StandsFor, GlobalOf;
    GlobalOfStandsFor(handles, FullHandle(moduleIndex, event.sensor));
    GlobalOfStandsFor(handles, FullHandle(moduleIndex, event.metaSensor));
  }

  /** What poll drops: an ordinary event of an unregistered sensor. A meta-data event that names an
      unregistered sensor is passed on, naming sensor -1. */
  lemma DroppedExactly(handles: seq<FullHandle>, event: SensorEvent, moduleIndex: int)
    ensures Remap(handles, event, moduleIndex).sensor == UNKNOWN <==>
            if event.metaData then event.sensor == UNKNOWN
            else FullHandle(moduleIndex, event.sensor) !in handles
    ensures event.metaData && FullHandle(moduleIndex, event.metaSensor) !in handles ==>
              Remap(handles, event, moduleIndex).metaSensor == UNKNOWN
  {
    GlobalOfIsLast(handles, FullHandle(moduleIndex, event.sensor));
    GlobalOfIsLast(handles, FullHandle(moduleIndex, event.metaSensor));
  }

  class HandleMap {
    var globalToFull: map<int, FullHandle>
    var fullToGlobal: map<FullHandle, int>
    var next: int
    /** Full handles in the order they were given out. */
    ghost var handles: seq<FullHandle>

    ghost predicate Valid()
      reads this
    {
      && next == |handles| + 1
      && (forall g :: g in globalToFull <==> 1 <= g < next)
      && (forall g | 1 <= g < next :: globalToFull[g] == handles[g - 1])
      && (forall f :: f in fullToGlobal <==> f in handles)
      && (forall f | f in handles :: fullToGlobal[f] == GlobalOf(handles, f))
    }

    constructor ()
      ensures Valid() && handles == []
    {
      globalToFull, fullToGlobal, next := map[], map[], 1;
      handles := [];
    }

    method AssignGlobalHandle(moduleIndex: int, localHandle: int) returns (global: int)
      requires Valid()
      modifies this
      ensures Valid() && handles == old(handles) + [FullHandle(moduleIndex, localHandle)]
      ensures global == |handles|
    {
      global := next;
      next := next + 1;
      var full := FullHandle(moduleIndex, localHandle);
      fullToGlobal := fullToGlobal[full := global];
      globalToFull := globalToFull[global := full];
      handles := handles + [full];
      assert handles[..|handles| - 1] == old(handles);
    }

    method GetLocalHandle(global: int) returns (local: int)
      requires Valid()
      ensures local == if 1 <= global <= |handles| then handles[global - 1].localHandle else UNKNOWN
    {
      if global !in globalToFull {
        return UNKNOWN;
      }
      return globalToFull[global].localHandle;
    }

    method GetModuleIndex(global: int) returns (index: int)
      requires Valid()
      ensures index == if 1 <= global <= |handles| then handles[global - 1].moduleIndex else UNKNOWN
    {
      if global !in globalToFull {
        return UNKNOWN;
      }
      return globalToFull[global].moduleIndex;
    }

    method GetGlobalHandle(full: FullHandle) returns (global: int)
      requires Valid()
      ensures global == GlobalOf(handles, full)
    {
      GlobalOfIsLast(handles, full);
      global := UNKNOWN;
      if full in fullToGlobal {
        global := fullToGlobal[full];
      }
    }

    method CopyEventRemapHandle(event: SensorEvent, subIndex: int) returns (dest: SensorEvent)
      requires Valid()
      ensures dest == Remap(handles, event, subIndex)
      ensures Renamed(handles, event, subIndex, dest)
    {
      RemapRenames(handles, event, subIndex);
      dest := event;
      if dest.metaData {
        var global := GetGlobalHandle(FullHandle(subIndex, dest.metaSensor));
        dest := dest.(metaSensor := global);
      } else {
        var global := GetGlobalHandle(FullHandle(subIndex, dest.sensor));
        dest := dest.(sensor := global);
      }
    }
  }
}
