/** The thread delegate of gps/utils/LocThread.cpp: a parent that starts a thread and lets it go,
    and the spawned thread, both free to be last. One step per access to the shared object. */
module ThreadDelegates {
  /** In destroy() each of them tests the count, drops it under the mutex, and deletes the delegate if
      it was the last. */
  datatype ParentPc =
    | Creating | Checking | Holding
    | Clearing | TestJoinable | Joining
    | ParentTests | ParentDrops | ParentDeletes
    | Gone

  /** After Entering, the thread has its own copy of the runnable pointer until it deletes it. */
  datatype ChildPc =
    | NoThread | Entering
    | TestPrerun | Prerun | TestRun | Running | TestPostrun | Postrun
    | ClearRunnable | DeleteRunnable
    | ChildTests | ChildDrops | ChildDeletes
    | Exited

  datatype Answer = Unknown | Yes | No

  datatype State = State(
    running: bool,            // mRunnable is not NULL
    joinable: bool,           // mJoinable
    refs: int,                // mRefCount
    parent: ParentPc,
    child: ChildPc,
    deletes: nat,             // how often the delegate was deleted,
    runnableDeletes: nat,     // and the runnable
    started: Answer,          // what start() returned
    entered: Answer,          // whether the thread found a runnable when it began
    stopped: bool,            // whether the parent has been through stop()
    fault: bool)              // something was used after it was deleted

  /** The constructor sets the fields as if the thread will exist, before it creates it. */
  function Init(joinable: bool): State {
    State(true, joinable, 2, Creating, NoThread, 0, 0, Unknown, Unknown, false, false)
  }

  /** The parent thread; `choice` is whether the thread could be created, and whether it is let go
      by stop() rather than by the destructor of LocThread. */
  function ParentStep(s: State, choice: bool): State {
    match s.parent
    case Creating =>
      if choice then s.(parent := Checking, child := Entering)
      else s.(parent := Checking, running := false, joinable := false, refs := 1)
    case Checking =>
      if s.running then s.(parent := Holding, started := Yes)
      else s.(parent := ParentTests, started := No)
    case Holding => s.(parent := if choice || s.joinable then Clearing else ParentTests)
    case Clearing => s.(parent := TestJoinable, running := false, stopped := true)
    case TestJoinable =>
      if s.joinable then s.(parent := Joining, joinable := false) else s.(parent := ParentTests)
    case Joining => s.(parent := ParentTests)
    case ParentTests => s.(parent := if s.refs > 0 then ParentDrops else Gone)
    case ParentDrops =>
      s.(parent := if s.refs == 1 then ParentDeletes else Gone, refs := s.refs - 1)
    case ParentDeletes => s.(parent := Gone, deletes := s.deletes + 1)
    case Gone => s
  }

  /** The spawned thread; `choice` is what run() returns. */
  function ChildStep(s: State, choice: bool): State {
    match s.child
    case NoThread => s
    case Entering =>
      if s.running then s.(child := TestPrerun, entered := Yes)
      else s.(child := ChildTests, entered := No)
    case TestPrerun => s.(child := if s.running then Prerun else TestRun)
    case Prerun => s.(child := TestRun)
    case TestRun => s.(child := if s.running then Running else TestPostrun)
    case Running => s.(child := if choice then TestRun else TestPostrun)
    case TestPostrun => s.(child := if s.running then Postrun else ClearRunnable)
    case Postrun => s.(child := ClearRunnable)
    case ClearRunnable => s.(child := DeleteRunnable, running := false)
    case DeleteRunnable => s.(child := ChildTests, runnableDeletes := s.runnableDeletes + 1)
    case ChildTests => s.(child := if s.refs > 0 then ChildDrops else Exited)
    case ChildDrops =>
      s.(child := if s.refs == 1 then ChildDeletes else Exited, refs := s.refs - 1)
    case ChildDeletes => s.(child := Exited, deletes := s.deletes + 1)
    case Exited => s
  }

  /** Which steps use the delegate, and which the runnable. */
  predicate ParentUsesDelegate(p: ParentPc) {
    p.Creating? || p.Checking? || p.Holding? || p.Clearing? || p.TestJoinable? ||
    p.ParentTests? || p.ParentDrops? || p.ParentDeletes?
  }

  predicate ChildUsesDelegate(c: ChildPc) {
    c.Entering? || c.TestPrerun? || c.TestRun? || c.TestPostrun? || c.ClearRunnable? ||
    c.ChildTests? || c.ChildDrops? || c.ChildDeletes?
  }

  predicate ChildUsesRunnable(c: ChildPc) {
    c.Prerun? || c.Running? || c.Postrun? || c.DeleteRunnable?
  }

  datatype Action = Parent(choice: bool) | Child(choice: bool)

  predicate Enabled(s: State, a: Action) {
    match a
    case Parent(_) => !s.parent.Gone? && (s.parent.Joining? ==> s.child.Exited?)
    case Child(_) => !s.child.NoThread? && !s.child.Exited?
  }

  function Step(s: State, a: Action): State {
    match a
    case Parent(choice) =>
      if ParentUsesDelegate(s.parent) && s.deletes > 0 then s.(fault := true) else ParentStep(s, choice)
    case Child(choice) =>
      if (ChildUsesDelegate(s.child) && s.deletes > 0) || (ChildUsesRunnable(s.child) && s.runnableDeletes > 0)
      then s.(fault := true) else ChildStep(s, choice)
  }

  ghost predicate CanRun(s: State, actions: seq<Action>)
    decreases |actions|
  {
    actions == [] || (Enabled(s, actions[0]) && CanRun(Step(s, actions[0]), actions[1..]))
  }

  ghost function Run(s: State, actions: seq<Action>): State
    requires CanRun(s, actions)
    decreases |actions|
  {
    if actions == [] then s else Run(Step(s, actions[0]), actions[1..])
  }

  // ---- The invariant ------------------------------------------------------------------------------

  /** Who still has a reference to give back. */
  predicate ParentHolds(s: State) {
    !s.parent.Gone? && !s.parent.ParentDeletes?
  }

  predicate ChildHolds(s: State) {
    !s.child.NoThread? && !s.child.Exited? && !s.child.ChildDeletes?
  }

  function Holders(s: State): int {
    (if ParentHolds(s) then 1 else 0) + if ChildHolds(s) then 1 else 0
  }

  /** Whose part it is to delete the delegate next. */
  predicate Deleting(s: State) {
    s.parent.ParentDeletes? || s.child.ChildDeletes?
  }

  /** Exactly one of them is on its way to delete, or it has happened, once nobody holds. */
  ghost predicate CountIsExact(s: State) {
    && (s.parent.Creating? ==> s.child.NoThread? && s.refs == 2 && s.deletes == 0 && s.running)
    && (!s.parent.Creating? ==> s.refs == Holders(s))
    && !(s.parent.ParentDeletes? && s.child.ChildDeletes?)
    && (Holders(s) > 0 ==> s.deletes == 0 && !Deleting(s))
    && (Holders(s) == 0 ==> s.deletes == if Deleting(s) then 0 else 1)
    && (s.parent.Joining? ==> !s.child.NoThread?)
    && (s.joinable && !s.parent.Creating? ==> !s.child.NoThread?)
  }

  /** The thread past the point where it deletes its runnable. */
  predicate ChildIsDone(c: ChildPc) {
    c.ChildTests? || c.ChildDrops? || c.ChildDeletes? || c.Exited?
  }

  ghost predicate RunnableIsTracked(s: State) {
    && (s.child.NoThread? || s.child.Entering? ==> s.entered.Unknown? && s.runnableDeletes == 0)
    && (!s.child.NoThread? && !s.child.Entering? ==> !s.entered.Unknown?)
    && (s.entered.No? ==> ChildIsDone(s.child))
    && s.runnableDeletes == (if s.entered.Yes? && ChildIsDone(s.child) then 1 else 0)
  }

  /** start() has returned once the parent is past its check, and true only with a thread. */
  ghost predicate ResultIsTracked(s: State) {
    && (s.parent.Creating? || s.parent.Checking? ==> s.started.Unknown?)
    && (s.parent.Holding? || s.parent.Clearing? || s.parent.TestJoinable? || s.parent.Joining? ==> s.started.Yes?)
    && (s.parent.ParentTests? || s.parent.ParentDrops? || s.parent.ParentDeletes? || s.parent.Gone? ==>
          !s.started.Unknown?)
    && (s.started.Yes? ==> !s.child.NoThread?)
  }

  /** mRunnable goes to NULL when the parent stops the thread, when the thread ends, or when there
      is no thread; start() reports what it saw. */
  ghost predicate RunningIsTracked(s: State) {
    && (s.parent.Creating? || s.parent.Checking? || s.started.No? ==> !s.stopped)
    && (s.stopped ==> !s.running)
    && (s.parent.Checking? && s.child.NoThread? ==> !s.running)
    && (!s.child.NoThread? && !s.stopped ==> (s.running <==> !s.child.DeleteRunnable? && !ChildIsDone(s.child)))
    && (s.entered.No? ==> s.stopped)
    && (s.started.No? ==> s.child.NoThread? || s.child.DeleteRunnable? || ChildIsDone(s.child))
  }

  ghost predicate Sound(s: State) {
    !s.fault && CountIsExact(s) && RunnableIsTracked(s) && ResultIsTracked(s) && RunningIsTracked(s)
  }

  lemma ParentKeepsCount(s: State, choice: bool)
    requires !s.fault && CountIsExact(s) && Enabled(s, Parent(choice))
    ensures CountIsExact(ParentStep(s, choice))
  {
    match s.parent
    case Creating =>
    case Checking =>
    case Holding =>
    case Clearing =>
    case TestJoinable =>
    case Joining =>
    case ParentTests =>
    case ParentDrops =>
    case ParentDeletes =>
  }

  lemma ChildKeepsCount(s: State, choice: bool)
    requires !s.fault && CountIsExact(s) && Enabled(s, Child(choice))
    ensures CountIsExact(ChildStep(s, choice))
  {
    match s.child
    case Entering =>
    case TestPrerun =>
    case Prerun =>
    case TestRun =>
    case Running =>
    case TestPostrun =>
    case Postrun =>
    case ClearRunnable =>
    case DeleteRunnable =>
    case ChildTests =>
    case ChildDrops =>
    case ChildDeletes =>
  }

  /** The parent leaves the thread alone, except that it creates it. */
  lemma ParentKeepsChild(s: State, choice: bool)
    requires Enabled(s, Parent(choice))
    ensures var t := ParentStep(s, choice);
            && t.entered == s.entered && t.runnableDeletes == s.runnableDeletes
            && t.child == if s.parent.Creating? && choice then Entering else s.child
  {
  }

  lemma ParentKeepsRunnable(s: State, choice: bool)
    requires RunnableIsTracked(s) && CountIsExact(s) && Enabled(s, Parent(choice))
    ensures RunnableIsTracked(ParentStep(s, choice))
  {
    hide ParentStep, Enabled;
    ParentKeepsChild(s, choice);
  }

  lemma ChildKeepsRunnable(s: State, choice: bool)
    requires RunnableIsTracked(s) && Enabled(s, Child(choice))
    ensures RunnableIsTracked(ChildStep(s, choice))
  {
    match s.child
    case Entering =>
    case TestPrerun =>
    case Prerun =>
    case TestRun =>
    case Running =>
    case TestPostrun =>
    case Postrun =>
    case ClearRunnable =>
    case DeleteRunnable =>
    case ChildTests =>
    case ChildDrops =>
    case ChildDeletes =>
  }

  lemma ParentKeepsResult(s: State, choice: bool)
    requires ResultIsTracked(s) && RunningIsTracked(s) && CountIsExact(s) && Enabled(s, Parent(choice))
    ensures ResultIsTracked(ParentStep(s, choice))
  {
    match s.parent
    case Creating =>
    case Checking =>
    case Holding =>
    case Clearing =>
    case TestJoinable =>
    case Joining =>
    case ParentTests =>
    case ParentDrops =>
    case ParentDeletes =>
  }

  /** The spawned thread does not change where the parent is, and stays a thread. */
  lemma ChildKeepsParent(s: State, choice: bool)
    requires Enabled(s, Child(choice))
    ensures var t := ChildStep(s, choice);
            t.parent == s.parent && t.started == s.started && t.stopped == s.stopped && !t.child.NoThread?
  {
    match s.child
    case Entering =>
    case TestPrerun =>
    case Prerun =>
    case TestRun =>
    case Running =>
    case TestPostrun =>
    case Postrun =>
    case ClearRunnable =>
    case DeleteRunnable =>
    case ChildTests =>
    case ChildDrops =>
    case ChildDeletes =>
  }

  lemma ParentKeepsRunning(s: State, choice: bool)
    requires RunningIsTracked(s) && ResultIsTracked(s) && RunnableIsTracked(s) && CountIsExact(s)
    requires Enabled(s, Parent(choice))
    ensures RunningIsTracked(ParentStep(s, choice))
  {
    match s.parent
    case Creating =>
    case Checking =>
    case Holding =>
    case Clearing =>
    case TestJoinable =>
    case Joining =>
    case ParentTests =>
    case ParentDrops =>
    case ParentDeletes =>
  }

  lemma ChildKeepsRunning(s: State, choice: bool)
    requires RunningIsTracked(s) && Enabled(s, Child(choice))
    ensures RunningIsTracked(ChildStep(s, choice))
  {
    match s.child
    case Entering =>
    case TestPrerun =>
    case Prerun =>
    case TestRun =>
    case Running =>
    case TestPostrun =>
    case Postrun =>
    case ClearRunnable =>
    case DeleteRunnable =>
    case ChildTests =>
    case ChildDrops =>
    case ChildDeletes =>
  }

  lemma StepIsNoFault(s: State, a: Action)
    requires Sound(s) && Enabled(s, a)
    ensures Step(s, a) == match a
                          case Parent(choice) => ParentStep(s, choice)
                          case Child(choice) => ChildStep(s, choice)
  {
    hide ParentStep, ChildStep, RunningIsTracked, ResultIsTracked;
    assert a.Parent? && ParentUsesDelegate(s.parent) ==> s.deletes == 0;
    assert a.Child? && ChildUsesDelegate(s.child) ==> s.deletes == 0;
  }

  lemma ParentKeepsSound(s: State, choice: bool)
    requires Sound(s) && Enabled(s, Parent(choice))
    ensures Sound(ParentStep(s, choice))
  {
    hide CountIsExact, RunnableIsTracked, ResultIsTracked, RunningIsTracked, Enabled;
    ParentKeepsCount(s, choice);
    ParentKeepsRunnable(s, choice);
    ParentKeepsResult(s, choice);
    ParentKeepsRunning(s, choice);
  }

  lemma ChildKeepsSound(s: State, choice: bool)
    requires Sound(s) && Enabled(s, Child(choice))
    ensures Sound(ChildStep(s, choice))
  {
    hide CountIsExact, RunnableIsTracked, RunningIsTracked, Enabled;
    ChildKeepsParent(s, choice);
    ChildKeepsCount(s, choice);
    ChildKeepsRunnable(s, choice);
    ChildKeepsRunning(s, choice);
  }

  lemma StepKeepsSound(s: State, a: Action)
    requires Sound(s) && Enabled(s, a)
    ensures Sound(Step(s, a))
  {
    hide *;
    StepIsNoFault(s, a);
    match a
    case Parent(choice) => ParentKeepsSound(s, choice);
    case Child(choice) => ChildKeepsSound(s, choice);
  }

  lemma {:induction false} RunIsSound(s: State, actions: seq<Action>)
    requires Sound(s) && CanRun(s, actions)
    ensures Sound(Run(s, actions))
    decreases |actions|
  {
    hide Sound, Step, Enabled;
    if actions != [] {
      StepKeepsSound(s, actions[0]);
      RunIsSound(Step(s, actions[0]), actions[1..]);
    }
  }

  // ---- What it comes to ---------------------------------------------------------------------------

  ghost predicate Reachable(s: State) {
    exists joinable: bool, actions :: CanRun(Init(joinable), actions) && s == Run(Init(joinable), actions)
  }

  lemma ReachableIsSound(s: State)
    requires Reachable(s)
    ensures Sound(s)
  {
    var joinable: bool, actions :| CanRun(Init(joinable), actions) && s == Run(Init(joinable), actions);
    RunIsSound(Init(joinable), actions);
  }

  predicate Finished(s: State) {
    s.parent.Gone? && (s.child.NoThread? || s.child.Exited?)
  }

  /** In every interleaving the delegate is deleted at most once, only after everybody who held it
      has let go, and never used again; and once both are finished it has been deleted. */
  lemma DeletedExactlyOnce(s: State)
    requires Reachable(s)
    ensures !s.fault && s.deletes <= 1 && s.runnableDeletes <= 1
    ensures s.deletes == 1 ==> !ParentHolds(s) && !ChildHolds(s)
    ensures Finished(s) ==> s.deletes == 1
  {
    ReachableIsSound(s);
  }

  /** Neither thread is ever stuck before both are finished: a join only waits for a thread that can
      still move. */
  lemma NeverStuck(s: State)
    requires Reachable(s) && !Finished(s)
    ensures Enabled(s, Parent(true)) || Enabled(s, Child(true))
  {
    ReachableIsSound(s);
  }

  /** The runnable is deleted exactly when the thread found it: not when there was no thread, nor
      when the thread was stopped before it began. */
  lemma RunnableDeletedIffEntered(s: State)
    requires Reachable(s) && Finished(s)
    ensures s.runnableDeletes == 1 <==> s.entered.Yes?
    ensures s.entered.No? ==> s.started.Yes? && s.stopped
  {
    ReachableIsSound(s);
  }

  /** The header promises that the runnable is deleted if and only if start() returned true. That
      holds exactly when a start that succeeded was followed by the thread finding its runnable, and
      one that failed was for want of a thread. */
  lemma HeaderPromiseIff(s: State)
    requires Reachable(s) && Finished(s)
    ensures (s.runnableDeletes == 1 <==> s.started.Yes?) <==>
            (if s.started.Yes? then s.entered.Yes? else s.child.NoThread?)
  {
    ReachableIsSound(s);
  }

  /** What a caller can do about it: a thread that started, and that is let go without a stop(), never
      leaks its runnable. */
  lemma NoLeakWithoutStop(s: State)
    requires Reachable(s) && Finished(s) && s.started.Yes? && !s.stopped
    ensures s.runnableDeletes == 1
  {
    ReachableIsSound(s);
  }

  // ---- Joining --------------------------------------------------------------------------------------

  /** A thread that started joinable stays so until the parent goes to join it, in stop(). */
  ghost predicate Joins(s: State) {
    && (s.parent.Creating? || s.parent.Checking? ==> s.started.Unknown?)
    && (s.parent.Creating? || s.parent.Holding? || s.parent.Clearing? || s.parent.TestJoinable? ==> s.joinable)
    && (s.parent.Checking? ==> s.joinable || !s.running)
    && (s.parent.TestJoinable? || s.parent.Joining? ==> s.stopped)
    && (s.started.Yes? && LetGo(s) ==> s.stopped && s.child.Exited?)
  }

  predicate LetGo(s: State) {
    s.parent.ParentTests? || s.parent.ParentDrops? || s.parent.ParentDeletes? || s.parent.Gone?
  }

  lemma ParentKeepsJoins(s: State, choice: bool)
    requires Joins(s) && Enabled(s, Parent(choice))
    ensures Joins(ParentStep(s, choice))
  {
  }

  lemma ChildKeepsJoins(s: State, choice: bool)
    requires Joins(s) && Enabled(s, Child(choice))
    ensures Joins(ChildStep(s, choice))
  {
  }

  lemma StepKeepsJoins(s: State, a: Action)
    requires Joins(s) && Enabled(s, a)
    ensures Joins(Step(s, a))
  {
    hide ParentStep, ChildStep;
    match a
    case Parent(choice) => ParentKeepsJoins(s, choice);
    case Child(choice) => ChildKeepsJoins(s, choice);
  }

  lemma {:induction false} RunKeepsJoins(s: State, actions: seq<Action>)
    requires Joins(s) && CanRun(s, actions)
    ensures Joins(Run(s, actions))
    decreases |actions|
  {
    if actions != [] {
      StepKeepsJoins(s, actions[0]);
      hide Step, Joins;
      RunKeepsJoins(Step(s, actions[0]), actions[1..]);
    }
  }

  /** However it is let go, a joinable thread that started has been stopped and has ended before the parent
      gives back its reference. */
  lemma JoinableHasEnded(actions: seq<Action>)
    requires CanRun(Init(true), actions)
    ensures var s := Run(Init(true), actions);
            s.started.Yes? && LetGo(s) ==> s.stopped && s.child.Exited?
  {
    RunKeepsJoins(Init(true), actions);
  }

  // ---- What the thread calls ------------------------------------------------------------------------

  /** The calls of the runnable, as they return. */
  datatype Call = PrerunCall | RunCall(again: bool) | PostrunCall

  predicate InCall(child: ChildPc) {
    child.Prerun? || child.Running? || child.Postrun?
  }

  function CallsBy(s: State, a: Action): seq<Call> {
    if a.Parent? then []
    else
      match s.child
      case Prerun => [PrerunCall]
      case Running => [RunCall(a.choice)]
      case Postrun => [PostrunCall]
      case _ => []
  }

  /** The calls that return in a run. */
  ghost function Calls(s: State, actions: seq<Action>): seq<Call>
    requires CanRun(s, actions)
    decreases |actions|
  {
    if actions == [] then [] else CallsBy(s, actions[0]) + Calls(Step(s, actions[0]), actions[1..])
  }

  ghost function Reruns(n: nat): (calls: seq<Call>)
    ensures |calls| == n && forall i | 0 <= i < n :: calls[i] == RunCall(true)
  {
    seq(n, _ => RunCall(true))
  }

  /** prerun() once, and run() as often as it asked to be run again. */
  ghost predicate Looping(calls: seq<Call>) {
    calls != [] && calls == [PrerunCall] + Reruns(|calls| - 1)
  }

  /** Then run() once more, which did not ask. */
  ghost predicate Looped(calls: seq<Call>) {
    calls != [] && calls[|calls| - 1] == RunCall(false) && Looping(calls[..|calls| - 1])
  }

  /** Then postrun(). */
  ghost predicate Complete(calls: seq<Call>) {
    calls != [] && calls[|calls| - 1] == PostrunCall && Looped(calls[..|calls| - 1])
  }

  /** What a thread that nobody has stopped has called by the time it is at `child`. */
  ghost predicate InOrder(child: ChildPc, calls: seq<Call>) {
    match child
    case NoThread => calls == []
    case Entering => calls == []
    case TestPrerun => calls == []
    case Prerun => calls == []
    case TestRun => Looping(calls)
    case Running => Looping(calls)
    case TestPostrun => Looped(calls)
    case Postrun => Looped(calls)
    case _ => Complete(calls)
  }

  lemma OneMoreCall(calls: seq<Call>)
    ensures Looping([PrerunCall])
    ensures Looping(calls) ==> Looping(calls + [RunCall(true)]) && Looped(calls + [RunCall(false)])
    ensures Looped(calls) ==> Complete(calls + [PostrunCall])
  {
    if Looping(calls) {
      assert calls + [RunCall(true)] == [PrerunCall] + Reruns(|calls|);
    }
    assert (calls + [RunCall(false)])[..|calls|] == calls && (calls + [PostrunCall])[..|calls|] == calls;
  }

  lemma ParentMoves(s: State, choice: bool)
    requires CountIsExact(s) && Enabled(s, Parent(choice)) && !ParentStep(s, choice).stopped
    ensures !s.stopped && (ParentStep(s, choice).child == s.child || s.child.NoThread?)
    ensures s.child.NoThread? ==> ParentStep(s, choice).child.NoThread? || ParentStep(s, choice).child.Entering?
  {
  }

  /** Where a thread that is not stopped gets to, and whether it has called something on the way. */
  lemma ChildMoves(s: State, choice: bool)
    requires RunningIsTracked(s) && Enabled(s, Child(choice)) && !s.stopped
    ensures var next, calls := ChildStep(s, choice).child, CallsBy(s, Child(choice));
            match s.child
            case Entering => next.TestPrerun? && calls == []
            case TestPrerun => next.Prerun? && calls == []
            case Prerun => next.TestRun? && calls == [PrerunCall]
            case TestRun => next.Running? && calls == []
            case Running => next == (if choice then TestRun else TestPostrun) && calls == [RunCall(choice)]
            case TestPostrun => next.Postrun? && calls == []
            case Postrun => next.ClearRunnable? && calls == [PostrunCall]
            case _ => (next.DeleteRunnable? || ChildIsDone(next)) && calls == []
  {
  }

  lemma ChildCalls(s: State, choice: bool, calls: seq<Call>)
    requires RunningIsTracked(s) && Enabled(s, Child(choice)) && !s.stopped && InOrder(s.child, calls)
    ensures InOrder(ChildStep(s, choice).child, calls + CallsBy(s, Child(choice)))
  {
    hide ChildStep, CallsBy, RunningIsTracked, Looping, Looped, Complete;
    ChildMoves(s, choice);
    OneMoreCall(calls);
    assert calls + [] == calls && [] + [PrerunCall] == [PrerunCall];
  }

  lemma CallsGoOn(s: State, a: Action, calls: seq<Call>)
    requires Sound(s) && Enabled(s, a) && InOrder(s.child, calls) && !Step(s, a).stopped
    ensures InOrder(Step(s, a).child, calls + CallsBy(s, a))
  {
    hide CountIsExact, RunnableIsTracked, RunningIsTracked, ResultIsTracked, Enabled;
    StepIsNoFault(s, a);
    assert calls + [] == calls;
    match a
    case Parent(choice) => ParentMoves(s, choice);
    case Child(choice) =>
      ChildKeepsParent(s, choice);
      hide InOrder;
      ChildCalls(s, choice, calls);
  }

  lemma {:induction false} StaysStopped(s: State, actions: seq<Action>)
    requires CanRun(s, actions) && s.stopped
    ensures Run(s, actions).stopped
    decreases |actions|
  {
    if actions != [] {
      StepStaysStopped(s, actions[0]);
      hide Step, Enabled;
      StaysStopped(Step(s, actions[0]), actions[1..]);
    }
  }

  lemma StepStaysStopped(s: State, a: Action)
    requires Enabled(s, a) && s.stopped
    ensures Step(s, a).stopped
  {
    match a
    case Parent(choice) =>
    case Child(choice) => ChildKeepsParent(s, choice);
  }

  lemma {:induction false} RunCallsInOrder(s: State, actions: seq<Action>, calls: seq<Call>)
    requires Sound(s) && CanRun(s, actions) && InOrder(s.child, calls) && !Run(s, actions).stopped
    ensures InOrder(Run(s, actions).child, calls + Calls(s, actions))
    decreases |actions|
  {
    hide Sound, InOrder, Step, Enabled;
    if actions == [] {
      assert calls + [] == calls;
    } else {
      var s', made := Step(s, actions[0]), CallsBy(s, actions[0]);
      if s'.stopped {
        StaysStopped(s', actions[1..]);
        assert false;
      }
      StepKeepsSound(s, actions[0]);
      CallsGoOn(s, actions[0], calls);
      RunCallsInOrder(s', actions[1..], calls + made);
      assert calls + (made + Calls(s', actions[1..])) == calls + made + Calls(s', actions[1..]);
    }
  }

  /** As long as nobody stops the thread it calls prerun() once, then run() again and again while that
      asks to be run again, then postrun() once; and no thread means no calls. */
  lemma CallsInOrder(joinable: bool, actions: seq<Action>)
    requires CanRun(Init(joinable), actions) && !Run(Init(joinable), actions).stopped
    ensures InOrder(Run(Init(joinable), actions).child, Calls(Init(joinable), actions))
  {
    RunCallsInOrder(Init(joinable), actions, []);
    assert [] + Calls(Init(joinable), actions) == Calls(Init(joinable), actions);
  }

  lemma StoppedMoves(s: State, a: Action)
    requires Sound(s) && Enabled(s, a) && s.stopped
    ensures Sound(Step(s, a)) && Step(s, a).stopped
    ensures |CallsBy(s, a)| + (if InCall(Step(s, a).child) then 1 else 0) == if InCall(s.child) then 1 else 0
  {
    StepKeepsSound(s, a);
    StepStaysStopped(s, a);
    StepIsNoFault(s, a);
    hide RunnableIsTracked, ResultIsTracked;
    match a
    case Parent(choice) => ParentKeepsChild(s, choice);
    case Child(choice) =>
  }

  /** Once the thread is stopped it begins no other call: the one it is in returns at most. */
  lemma {:induction false} NoCallAfterStop(s: State, actions: seq<Action>)
    requires Sound(s) && s.stopped && CanRun(s, actions)
    ensures |Calls(s, actions)| + (if InCall(Run(s, actions).child) then 1 else 0) == if InCall(s.child) then 1 else 0
    decreases |actions|
  {
    hide Sound, Step, Enabled, InCall, CallsBy;
    if actions != [] {
      StoppedMoves(s, actions[0]);
      NoCallAfterStop(Step(s, actions[0]), actions[1..]);
    }
  }

  /** The loop of the thread: run() is called unless the thread has been stopped, and looked at again after
      it exactly when it asks for that. */
  lemma RunIsRepeated(s: State, choice: bool)
    requires Reachable(s)
    ensures s.child.TestRun? ==> Step(s, Child(choice)).child == if s.stopped then TestPostrun else Running
    ensures s.child.Running? ==> Step(s, Child(choice)).child == if choice then TestRun else TestPostrun
  {
    ReachableIsSound(s);
    hide Reachable;
    if s.child.TestRun? || s.child.Running? {
      StepIsNoFault(s, Child(choice));
    }
  }

  // ---- Where the header's promise about the runnable fails ----------------------------------------

  lemma {:induction false} RunAppend(s: State, actions: seq<Action>, a: Action)
    requires CanRun(s, actions) && Enabled(Run(s, actions), a)
    ensures CanRun(s, actions + [a]) && Run(s, actions + [a]) == Step(Run(s, actions), a)
    decreases |actions|
  {
    if actions == [] {
      assert [a][1..] == [];
    } else {
      assert (actions + [a])[1..] == actions[1..] + [a];
      RunAppend(Step(s, actions[0]), actions[1..], a);
    }
  }

  lemma Then(s: State, a: Action) returns (next: State)
    requires Reachable(s) && Enabled(s, a)
    ensures Reachable(next) && next == Step(s, a)
  {
    hide Step, Enabled;
    var joinable: bool, actions :| CanRun(Init(joinable), actions) && s == Run(Init(joinable), actions);
    RunAppend(Init(joinable), actions, a);
    next := Step(s, a);
  }

  lemma Begun(joinable: bool)
    ensures Reachable(Init(joinable))
  {
    assert CanRun(Init(joinable), []);
  }

  lemma ThreadRuns() returns (s: State)
    ensures Reachable(s) && s == State(true, false, 2, Checking, TestPostrun, 0, 0, Unknown, Yes, false, false)
  {
    hide Reachable;
    var c, p := Child(false), Parent(true);
    Begun(false);
    s := Then(Init(false), p);
    s := Then(s, c);
    s := Then(s, c);
    assert s == State(true, false, 2, Checking, Prerun, 0, 0, Unknown, Yes, false, false);
    s := Then(s, c);
    s := Then(s, c);
    s := Then(s, c);
  }

  lemma ThreadEndsFirst() returns (s: State)
    ensures Reachable(s) && s == State(false, false, 1, Checking, Exited, 0, 1, Unknown, Yes, false, false)
  {
    hide Reachable;
    var c := Child(false);
    s := ThreadRuns();
    s := Then(s, c);
    s := Then(s, c);
    s := Then(s, c);
    assert s == State(false, false, 2, Checking, DeleteRunnable, 0, 0, Unknown, Yes, false, false);
    s := Then(s, c);
    s := Then(s, c);
    s := Then(s, c);
  }

  /** A thread that ends before create() looks: start() returns false, yet the runnable is deleted. */
  lemma StartMayFailAndDelete() returns (s: State)
    ensures Reachable(s) && Finished(s) && s.started.No? && s.runnableDeletes == 1
  {
    hide Reachable;
    var p := Parent(true);
    s := ThreadEndsFirst();
    s := Then(s, p);
    s := Then(s, p);
    s := Then(s, p);
    s := Then(s, p);
  }

  lemma StoppedAtOnce() returns (s: State)
    ensures Reachable(s) && s == State(false, false, 2, Joining, Entering, 0, 0, Yes, Unknown, true, false)
  {
    hide Reachable;
    var p := Parent(true);
    Begun(true);
    s := Then(Init(true), p);
    s := Then(s, p);
    assert s == State(true, true, 2, Holding, Entering, 0, 0, Yes, Unknown, false, false);
    s := Then(s, p);
    s := Then(s, p);
    s := Then(s, p);
  }

  /** A thread stopped before it begins: start() returned true, yet the runnable is never deleted. */
  lemma StartMayLeak() returns (s: State)
    ensures Reachable(s) && Finished(s) && s.started.Yes? && s.runnableDeletes == 0
  {
    hide Reachable;
    var c, p := Child(false), Parent(true);
    s := StoppedAtOnce();
    s := Then(s, c);
    s := Then(s, c);
    s := Then(s, c);
    assert s == State(false, false, 1, Joining, Exited, 0, 0, Yes, No, true, false);
    s := Then(s, p);
    s := Then(s, p);
    s := Then(s, p);
    s := Then(s, p);
  }
}
