/** Which queue a round-robin scan visits when, and what it takes: the plan `poll` follows in
    sensors/multihal.cpp, stated on the queues as they were before the scan. */
module RoundRobin {
  import opened HandleMaps

  /** The queue of visit v when n queues are visited in turn from `start`. */
  function Turn(start: nat, v: nat, n: nat): (i: nat)
    requires start < n
    ensures i < n
  {
    if v == 0 then start
    else
      var i := Turn(start, v - 1, n);
      if i + 1 == n then 0 else i + 1
  }

  lemma {:induction false} TurnIsModulo(start: nat, v: nat, n: nat)
    requires start < n
    ensures Turn(start, v, n) == (start + v) % n
  {
    if v > 0 {
      TurnIsModulo(start, v - 1, n);
      NextModulo(start + v - 1, n);
    }
  }

  lemma NextModulo(x: nat, n: nat)
    requires n > 0
    ensures (x + 1) % n == if x % n + 1 == n then 0 else x % n + 1
  {
    var r, r' := x % n, (x + 1) % n;
    var t := (x + 1) / n - x / n;
    assert t * n == r + 1 - r' by {
      assert x == (x / n) * n + r;
      assert x + 1 == ((x + 1) / n) * n + r';
    }
    assert t >= 2 ==> t * n >= 2 * n;
    assert t <= -1 ==> t * n + n <= 0;
    assert t == 1 ==> t * n == n;
  }

  /** How far queue i is from queue `at`. */
  function Distance(at: nat, i: nat, n: nat): (d: nat)
    requires at < n && i < n
    ensures d < n
  {
    if at <= i then i - at else i + n - at
  }

  lemma {:induction false} TurnPlus(start: nat, v: nat, k: nat, n: nat)
    requires start < n && k < n
    ensures Distance(Turn(start, v, n), Turn(start, v + k, n), n) == k
  {
    if k > 0 {
      TurnPlus(start, v, k - 1, n);
    }
  }

  /** How often queue i comes up in the first v visits. */
  function Visits(start: nat, v: nat, n: nat, i: nat): nat
    requires start < n
  {
    if v == 0 then 0
    else Visits(start, v - 1, n, i) + if Turn(start, v - 1, n) == i then 1 else 0
  }

  /** In a window of up to n visits a queue comes up once if its turn has come, else not at all. */
  lemma {:induction false} VisitsWindow(start: nat, v: nat, k: nat, n: nat, i: nat)
    requires start < n && i < n && k <= n
    ensures Visits(start, v + k, n, i)
         == Visits(start, v, n, i) + if k > Distance(Turn(start, v, n), i, n) then 1 else 0
  {
    if k > 0 {
      VisitsWindow(start, v, k - 1, n, i);
      TurnPlus(start, v, k - 1, n);
    }
  }

  /** No two queues are ever more than one visit apart. */
  lemma {:induction false} VisitsAreFair(start: nat, v: nat, n: nat, i: nat, j: nat)
    requires start < n && i < n && j < n
    ensures Visits(start, v, n, i) <= Visits(start, v, n, j) + 1
    decreases v
  {
    if v <= n {
      VisitsWindow(start, 0, v, n, i);
      VisitsWindow(start, 0, v, n, j);
    } else {
      VisitsAreFair(start, v - n, n, i, j);
      VisitsWindow(start, v - n, n, n, i);
      VisitsWindow(start, v - n, n, n, j);
    }
  }

  /** Every queue's turn comes within any n visits. */
  lemma TurnComes(start: nat, v: nat, n: nat, i: nat) returns (w: nat)
    requires start < n && i < n
    ensures v <= w < v + n && Turn(start, w, n) == i
  {
    var d := Distance(Turn(start, v, n), i, n);
    w := v + d;
    TurnPlus(start, v, d, n);
  }

  function Min(a: nat, b: nat): nat {
    if a < b then a else b
  }

  /** What is left of the queues after v visits: each visit takes the oldest event, if there is one. */
  ghost function Left(queues: seq<seq<SensorEvent>>, start: nat, v: nat): (left: seq<seq<SensorEvent>>)
    requires queues != [] ==> start < |queues|
    ensures |left| == |queues|
    ensures forall i | 0 <= i < |queues| ::
      left[i] == queues[i][Min(|queues[i]|, Visits(start, v, |queues|, i))..]
  {
    seq(|queues|, i requires 0 <= i < |queues| =>
      queues[i][Min(|queues[i]|, Visits(start, v, |queues|, i))..])
  }

  /** What `poll` passes on of one module's events. */
  ghost function Passed(handles: seq<FullHandle>, events: seq<SensorEvent>, moduleIndex: int): seq<SensorEvent> {
    if events == [] then []
    else
      var last := |events| - 1;
      var e := Remap(handles, events[last], moduleIndex);
      Passed(handles, events[..last], moduleIndex) + if e.sensor == UNKNOWN then [] else [e]
  }

  /** What visit v takes: if it is queue i's k-th visit, its k-th event, when there is one. */
  ghost function Taken(queues: seq<seq<SensorEvent>>, start: nat, v: nat): (taken: seq<SensorEvent>)
    requires start < |queues|
    ensures |taken| <= 1
  {
    var i := Turn(start, v, |queues|);
    var k := Visits(start, v, |queues|, i);
    if k < |queues[i]| then [queues[i][k]] else []
  }

  ghost function Labelled(i: nat, events: seq<SensorEvent>): (output: seq<(nat, SensorEvent)>)
    ensures |output| == |events| && forall k | 0 <= k < |events| :: output[k] == (i, events[k])
  {
    seq(|events|, k requires 0 <= k < |events| => (i, events[k]))
  }

  /** The output of v visits, each event beside the module it came from. */
  ghost function Output(handles: seq<FullHandle>, queues: seq<seq<SensorEvent>>, start: nat, v: nat)
    : seq<(nat, SensorEvent)>
    requires start < |queues|
  {
    if v == 0 then []
    else
      var i := Turn(start, v - 1, |queues|);
      Output(handles, queues, start, v - 1) + Labelled(i, Passed(handles, Taken(queues, start, v - 1), i))
  }

  ghost function EventsOf(output: seq<(nat, SensorEvent)>): (events: seq<SensorEvent>)
    ensures |events| == |output| && forall i | 0 <= i < |events| :: events[i] == output[i].1
  {
    seq(|output|, i requires 0 <= i < |output| => output[i].1)
  }

  ghost function FromModule(output: seq<(nat, SensorEvent)>, i: nat): seq<SensorEvent> {
    if output == [] then []
    else
      var last := |output| - 1;
      FromModule(output[..last], i) + if output[last].0 == i then [output[last].1] else []
  }

  lemma {:induction false} FromModuleConcat(a: seq<(nat, SensorEvent)>, b: seq<(nat, SensorEvent)>, i: nat)
    ensures FromModule(a + b, i) == FromModule(a, i) + FromModule(b, i)
  {
    if b == [] {
      assert a + b == a;
    } else {
      var last := |b| - 1;
      assert (a + b)[..|a| + last] == a + b[..last];
      FromModuleConcat(a, b[..last], i);
    }
  }

  lemma {:induction false} FromModuleLabelled(j: nat, events: seq<SensorEvent>, i: nat)
    ensures FromModule(Labelled(j, events), i) == if j == i then events else []
  {
    if events != [] {
      var last := |events| - 1;
      assert Labelled(j, events)[..last] == Labelled(j, events[..last]);
      FromModuleLabelled(j, events[..last], i);
    }
  }

  lemma {:induction false} PassedConcat(handles: seq<FullHandle>, a: seq<SensorEvent>, b: seq<SensorEvent>, i: int)
    ensures Passed(handles, a + b, i) == Passed(handles, a, i) + Passed(handles, b, i)
  {
    if b == [] {
      assert a + b == a;
    } else {
      var last := |b| - 1;
      assert (a + b)[..|a| + last] == a + b[..last];
      PassedConcat(handles, a, b[..last], i);
    }
  }

  /** A visit takes the next event of its own queue, and nothing of the others. */
  lemma TakenIsNext(queues: seq<seq<SensorEvent>>, start: nat, v: nat, i: nat)
    requires start < |queues| && i < |queues|
    ensures TakenOf(queues, start, v + 1, i)
         == if Turn(start, v, |queues|) == i then TakenOf(queues, start, v, i) + Taken(queues, start, v)
            else TakenOf(queues, start, v, i)
  {
  }

  /** What v visits have taken of queue i. */
  ghost function TakenOf(queues: seq<seq<SensorEvent>>, start: nat, v: nat, i: nat): seq<SensorEvent>
    requires start < |queues| && i < |queues|
  {
    queues[i][..Min(|queues[i]|, Visits(start, v, |queues|, i))]
  }

  lemma OutputGrows(handles: seq<FullHandle>, queues: seq<seq<SensorEvent>>, start: nat, v: nat)
    requires start < |queues|
    ensures var i := Turn(start, v, |queues|);
            Output(handles, queues, start, v + 1)
            == Output(handles, queues, start, v) + Labelled(i, Passed(handles, Taken(queues, start, v), i))
  {
    hide Turn, Taken, Passed, Labelled;
  }

  lemma NothingTakenYet(handles: seq<FullHandle>, queues: seq<seq<SensorEvent>>, start: nat, i: nat)
    requires start < |queues| && i < |queues|
    ensures FromModule(Output(handles, queues, start, 0), i) == Passed(handles, TakenOf(queues, start, 0, i), i)
  {
  }

  /** Each module's part of the output is what it had dequeued, in order, remapped and filtered. */
  lemma {:induction false} OutputPerModule(handles: seq<FullHandle>, queues: seq<seq<SensorEvent>>,
                                           start: nat, v: nat, i: nat)
    requires start < |queues| && i < |queues|
    ensures FromModule(Output(handles, queues, start, v), i) == Passed(handles, TakenOf(queues, start, v, i), i)
  {
    hide *;
    if v == 0 {
      NothingTakenYet(handles, queues, start, i);
    } else {
      OutputPerModule(handles, queues, start, v - 1, i);
      var j := Turn(start, v - 1, |queues|);
      var taken := Taken(queues, start, v - 1);
      OutputGrows(handles, queues, start, v - 1);
      FromModuleConcat(Output(handles, queues, start, v - 1), Labelled(j, Passed(handles, taken, j)), i);
      FromModuleLabelled(j, Passed(handles, taken, j), i);
      TakenIsNext(queues, start, v - 1, i);
      if j == i {
        PassedConcat(handles, TakenOf(queues, start, v - 1, i), taken, i);
      }
    }
  }

  /** Each module loses a prefix of its queue; what was passed on of it is that prefix, in order. */
  lemma ModuleConserved(handles: seq<FullHandle>, queues: seq<seq<SensorEvent>>, start: nat, v: nat, i: nat)
    requires start < |queues| && i < |queues|
    ensures exists taken :: queues[i] == taken + Left(queues, start, v)[i]
                         && FromModule(Output(handles, queues, start, v), i) == Passed(handles, taken, i)
  {
    hide Visits, Output, Passed, FromModule;
    OutputPerModule(handles, queues, start, v, i);
    var taken := TakenOf(queues, start, v, i);
    assert queues[i] == taken + Left(queues, start, v)[i];
  }

  /** What is passed on of a module: events of registered sensors, and meta-data events. */
  ghost predicate IsWanted(handles: seq<FullHandle>, e: SensorEvent, moduleIndex: int) {
    if e.metaData then e.sensor != UNKNOWN else FullHandle(moduleIndex, e.sensor) in handles
  }

  ghost function Wanted(handles: seq<FullHandle>, events: seq<SensorEvent>, moduleIndex: int): seq<SensorEvent> {
    if events == [] then []
    else
      var last := |events| - 1;
      Wanted(handles, events[..last], moduleIndex)
      + if IsWanted(handles, events[last], moduleIndex) then [events[last]] else []
  }

  /** `output` is `events` under the global handles of their sensors. */
  ghost predicate AllRenamed(handles: seq<FullHandle>, events: seq<SensorEvent>, moduleIndex: int,
                             output: seq<SensorEvent>) {
    |output| == |events| && forall k | 0 <= k < |events| :: Renamed(handles, events[k], moduleIndex, output[k])
  }

  lemma {:induction false} PassedAreRenamed(handles: seq<FullHandle>, events: seq<SensorEvent>, moduleIndex: int)
    ensures AllRenamed(handles, Wanted(handles, events, moduleIndex), moduleIndex,
                       Passed(handles, events, moduleIndex))
  {
    hide Renamed, Remap;
    if events != [] {
      var last := |events| - 1;
      RemapRenames(handles, events[last], moduleIndex);
      DroppedExactly(handles, events[last], moduleIndex);
      PassedAreRenamed(handles, events[..last], moduleIndex);
    }
  }

  /** Of each module the output has exactly the wanted ones of the events it lost, in order, each under the
      global handle of its sensor. */
  lemma OutputIsRenamed(handles: seq<FullHandle>, queues: seq<seq<SensorEvent>>, start: nat, v: nat, i: nat)
    requires start < |queues| && i < |queues|
    ensures exists taken :: queues[i] == taken + Left(queues, start, v)[i]
                         && AllRenamed(handles, Wanted(handles, taken, i), i,
                                       FromModule(Output(handles, queues, start, v), i))
  {
    hide Passed, Wanted, Output, FromModule, AllRenamed;
    ModuleConserved(handles, queues, start, v, i);
    var taken :| queues[i] == taken + Left(queues, start, v)[i]
              && FromModule(Output(handles, queues, start, v), i) == Passed(handles, taken, i);
    PassedAreRenamed(handles, taken, i);
  }

  /** And it has nothing else. */
  lemma {:induction false} OutputNamesModules(handles: seq<FullHandle>, queues: seq<seq<SensorEvent>>, start: nat,
                                              v: nat)
    requires start < |queues|
    ensures forall k | 0 <= k < |Output(handles, queues, start, v)| :: Output(handles, queues, start, v)[k].0 < |queues|
  {
    hide Turn, Taken, Passed, Visits;
    if v > 0 {
      OutputNamesModules(handles, queues, start, v - 1);
    }
  }

  /** Fairness: unless queue i ran dry, no other queue is served more than once more often; and once
      every queue has had its turn, none that held something is still untouched. */
  lemma ServiceIsFair(queues: seq<seq<SensorEvent>>, start: nat, v: nat, i: nat, j: nat)
    requires start < |queues| && i < |queues| && j < |queues|
    ensures var left := Left(queues, start, v);
            left[i] == [] || |queues[j]| - |left[j]| <= |queues[i]| - |left[i]| + 1
    ensures v >= |queues| && queues[i] != [] ==> |Left(queues, start, v)[i]| < |queues[i]|
  {
    VisitsAreFair(start, v, |queues|, j, i);
    if v >= |queues| {
      VisitsWindow(start, v - |queues|, |queues|, |queues|, i);
    }
  }
}
