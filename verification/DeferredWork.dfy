/** The deferred-work scheduler of camera/QCamera2/HAL/QCamera2HWI.cpp: reusable job slots, a worker
    that takes jobs in order, and threads that wait for a job by its slot. */
module DeferredWork {
  import opened HeapRuns

  const MAX_ONGOING_JOBS := 25

  datatype Command = AllocateBuff(channel: bool) | PprocStart | UnknownCommand

  /** A queued job; its ticket tells it from others that use the same slot at other times. */
  datatype Job = Job(ticket: nat, slot: nat, cmd: Command)

  /** Whether the worker gets as far as freeing the slot: a missing channel or an unknown command
      leaves the switch before that. */
  predicate Completes(cmd: Command) {
    cmd.PprocStart? || (cmd.AllocateBuff? && cmd.channel)
  }

  /** The first free slot, or -1. */
  function FirstFree(ongoing: seq<bool>): int {
    if ongoing == [] then -1
    else if !ongoing[0] then 0
    else
      var i := FirstFree(ongoing[1..]);
      if i < 0 then -1 else i + 1
  }

  lemma {:induction false} FirstFreeIsLeast(ongoing: seq<bool>)
    ensures var i := FirstFree(ongoing);
            if i < 0 then i == -1 && forall k | 0 <= k < |ongoing| :: ongoing[k]
            else i < |ongoing| && !ongoing[i] && forall k | 0 <= k < i :: ongoing[k]
  {
    if ongoing != [] && ongoing[0] {
      FirstFreeIsLeast(ongoing[1..]);
    }
  }

  lemma FirstFreeIs(ongoing: seq<bool>, i: nat)
    requires i <= |ongoing| && (forall k | 0 <= k < i :: ongoing[k]) && (i < |ongoing| ==> !ongoing[i])
    ensures FirstFree(ongoing) == if i < |ongoing| then i else -1
  {
    FirstFreeIsLeast(ongoing);
  }

  /** The slots and the queue, and the job the worker has dequeued; what each operation makes of them. */
  datatype Schedule = Schedule(ongoing: seq<bool>, queue: seq<Job>, current: Option<Job>) {
    predicate Busy(jobId: int) {
      0 <= jobId < |ongoing| && ongoing[jobId]
    }

    /** The schedule with one more job, and the job's id; or unchanged and -1. */
    function Queued(cmd: Command, ticket: nat): (Schedule, int) {
      var i := FirstFree(ongoing);
      if i < 0 || i >= |ongoing| then (this, -1)
      else (this.(ongoing := ongoing[i := true], queue := queue + [Job(ticket, i, cmd)]), i)
    }

    function Taken(): Schedule
      requires queue != []
    {
      this.(current := Some(queue[0]), queue := queue[1..])
    }

    function Done(): Schedule
      requires current.Some?
    {
      var job := current.value;
      if !Completes(job.cmd) || job.slot >= |ongoing| then this.(current := None)
      else this.(current := None, ongoing := ongoing[job.slot := false])
    }
  }

  class Scheduler {
    const deffOngoingJobs: array<bool>
    var cmdQueue: seq<Job>
    /** Where the worker is: the job it has dequeued. */
    var current: Option<Job>

    ghost predicate Valid()
      reads this, deffOngoingJobs
    {
      && deffOngoingJobs.Length == MAX_ONGOING_JOBS
      && (forall j | j in cmdQueue :: j.slot < MAX_ONGOING_JOBS)
      && (current.Some? ==> current.value.slot < MAX_ONGOING_JOBS)
    }

    ghost function AsSchedule(): Schedule
      reads this, deffOngoingJobs
    {
      Schedule(deffOngoingJobs[..], cmdQueue, current)
    }

    constructor ()
      ensures Valid() && fresh(deffOngoingJobs)
      ensures cmdQueue == [] && current == None && deffOngoingJobs[..] == seq(MAX_ONGOING_JOBS, _ => false)
    {
      deffOngoingJobs := new bool[MAX_ONGOING_JOBS](_ => false);
      cmdQueue, current := [], None;
    }

    method QueueDefferedWork(cmd: Command, ticket: nat) returns (id: int)
      requires Valid()
      modifies this`cmdQueue, deffOngoingJobs
      ensures Valid() && (AsSchedule(), id) == old(AsSchedule()).Queued(cmd, ticket)
    {
      for i := 0 to MAX_ONGOING_JOBS
        invariant forall k | 0 <= k < i :: deffOngoingJobs[k]
      {
        if !deffOngoingJobs[i] {
          FirstFreeIs(deffOngoingJobs[..], i);
          cmdQueue := cmdQueue + [Job(ticket, i, cmd)];
          deffOngoingJobs[i] := true;
          assert deffOngoingJobs[..] == old(deffOngoingJobs[..])[i := true];
          return i;
        }
      }
      FirstFreeIs(deffOngoingJobs[..], MAX_ONGOING_JOBS);
      return -1;
    }

    /** One look of waitDefferedWork at the slot, under the mutex: wait, or return. */
    method MustWait(jobId: int) returns (wait: bool)
      requires Valid()
      ensures wait <==> AsSchedule().Busy(jobId)
    {
      if MAX_ONGOING_JOBS <= jobId || 0 > jobId {
        return false;
      }
      return deffOngoingJobs[jobId];
    }

    /** The worker's turn for one command: it dequeues a job, */
    method Dequeue()
      requires Valid() && current == None && cmdQueue != []
      modifies `cmdQueue, `current
      ensures Valid() && AsSchedule() == old(AsSchedule()).Taken()
    {
      current := Some(cmdQueue[0]);
      cmdQueue := cmdQueue[1..];
    }

    /** and does it; one waiter is signalled, or all of them. */
    method DoJob() returns (signal: bool, broadcast: bool)
      requires Valid() && current.Some?
      modifies `current, deffOngoingJobs
      ensures Valid() && AsSchedule() == old(AsSchedule()).Done()
      ensures signal <==> old(current).value.cmd == AllocateBuff(true)
      ensures broadcast <==> old(current).value.cmd.PprocStart?
    {
      var job := current.value;
      current := None;
      signal, broadcast := false, false;
      match job.cmd {
        case AllocateBuff(channel) =>
          if channel {
            deffOngoingJobs[job.slot] := false;
            signal := true;
          }
        case PprocStart =>
          deffOngoingJobs[job.slot] := false;
          broadcast := true;
        case UnknownCommand =>
      }
      assert Completes(job.cmd) ==> deffOngoingJobs[..] == old(deffOngoingJobs[..])[job.slot := false];
      assert !Completes(job.cmd) ==> deffOngoingJobs[..] == old(deffOngoingJobs[..]);
    }
  }

  // ---- Runs: any number of threads queue jobs and wait, beside the worker ---------------------------

  /** A thread inside waitDefferedWork. `ticket` is the job it was given the id for, if any. */
  datatype Waiter = Waiter(jobId: int, ticket: Option<nat>, awake: bool)

  datatype State = State(
    sched: Schedule,
    waiters: map<nat, Waiter>,
    issued: map<nat, nat>,      // which slot each ticket was given,
    owner: map<nat, Job>,       // which job each busy slot stands for,
    abandoned: set<Job>,        // the jobs whose slot was never freed,
    finished: set<nat>,         // the tickets whose job is done,
    returned: set<nat>)         // and those some wait has returned for

  function Init(): State {
    State(Schedule(seq(MAX_ONGOING_JOBS, _ => false), [], None), map[], map[], map[], {}, {}, {})
  }

  datatype Action =
    | Queue(cmd: Command, ticket: nat)
    | Wait(thread: nat, jobId: int, holds: Option<nat>)
    | Resume(thread: nat)
    | Spurious(thread: nat)
    | Take
    | Finish(wake: nat)

  predicate Busy(s: State, jobId: int) {
    s.sched.Busy(jobId)
  }

  predicate Asleep(s: State, thread: nat) {
    thread in s.waiters && !s.waiters[thread].awake
  }

  /** A ticket is new, a waiter waits for the id it was given, and a signal wakes a sleeper. */
  predicate Enabled(s: State, a: Action) {
    match a
    case Queue(_, ticket) => ticket !in s.issued
    case Wait(thread, jobId, holds) =>
      thread !in s.waiters && (holds.Some? ==> holds.value in s.issued && s.issued[holds.value] == jobId)
    case Resume(thread) => thread in s.waiters && s.waiters[thread].awake
    case Spurious(thread) => Asleep(s, thread)
    case Take => s.sched.current.None? && s.sched.queue != []
    case Finish(wake) => s.sched.current.Some? && (Asleep(s, wake) || forall t | t in s.waiters :: s.waiters[t].awake)
  }

  /** One look at the slot. */
  function Look(s: State, thread: nat, w: Waiter): State {
    if Busy(s, w.jobId) then s.(waiters := s.waiters[thread := w.(awake := false)])
    else s.(waiters := s.waiters - {thread}, returned := s.returned + if w.ticket.Some? then {w.ticket.value} else {})
  }

  function WakeOne(waiters: map<nat, Waiter>, thread: nat): map<nat, Waiter> {
    if thread in waiters then waiters[thread := waiters[thread].(awake := true)] else waiters
  }

  function WakeAll(waiters: map<nat, Waiter>): map<nat, Waiter> {
    map t | t in waiters :: waiters[t].(awake := true)
  }

  function Step(s: State, a: Action): State
    requires Enabled(s, a)
  {
    match a
    case Queue(cmd, ticket) =>
      var (sched, i) := s.sched.Queued(cmd, ticket);
      if i < 0 then s
      else s.(sched := sched, issued := s.issued[ticket := i], owner := s.owner[i := Job(ticket, i, cmd)])
    case Wait(thread, jobId, holds) => Look(s, thread, Waiter(jobId, holds, true))
    case Resume(thread) => Look(s, thread, s.waiters[thread])
    case Spurious(thread) => s.(waiters := WakeOne(s.waiters, thread))
    case Take => s.(sched := s.sched.Taken())
    case Finish(wake) =>
      var job := s.sched.current.value;
      if !Completes(job.cmd) || job.slot >= |s.sched.ongoing| then
        s.(sched := s.sched.Done(), abandoned := s.abandoned + {job})
      else
        s.(sched := s.sched.Done(), owner := s.owner - {job.slot}, finished := s.finished + {job.ticket},
           waiters := if job.cmd.PprocStart? then WakeAll(s.waiters) else WakeOne(s.waiters, wake))
  }

  // ---- The invariant ------------------------------------------------------------------------------

  /** A job that is neither done nor lost track of. */
  ghost predicate Outstanding(s: State, job: Job) {
    job in s.sched.queue || s.sched.current == Some(job) || job in s.abandoned
  }

  /** Busy slots and outstanding jobs are one to one. */
  ghost predicate SlotsAreJobs(s: State) {
    && |s.sched.ongoing| == MAX_ONGOING_JOBS
    && (forall b: nat :: Busy(s, b) <==> b in s.owner)
    && (forall b | b in s.owner :: s.owner[b].slot == b && Outstanding(s, s.owner[b]))
    && (forall job | Outstanding(s, job) :: job.slot in s.owner && s.owner[job.slot] == job)
  }

  /** No job is in two places. */
  ghost predicate JobsAreApart(s: State) {
    && (forall i, j | 0 <= i < j < |s.sched.queue| :: s.sched.queue[i] != s.sched.queue[j])
    && (s.sched.current.Some? ==> s.sched.current.value !in s.sched.queue && s.sched.current.value !in s.abandoned)
    && (forall job | job in s.abandoned :: job !in s.sched.queue && !Completes(job.cmd))
  }

  /** A ticket's job is finished, or still owns the slot the ticket was given. */
  ghost predicate TicketsAreKept(s: State) {
    && (forall t | t in s.issued :: t in s.finished || (s.issued[t] in s.owner && s.owner[s.issued[t]].ticket == t))
    && (forall b | b in s.owner :: s.owner[b].ticket in s.issued && s.issued[s.owner[b].ticket] == b
                                   && s.owner[b].ticket !in s.finished)
    && (forall t | t in s.finished :: t in s.issued)
  }

  ghost predicate WaitsAreSafe(s: State) {
    && (forall t | t in s.waiters && s.waiters[t].ticket.Some? ::
          s.waiters[t].ticket.value in s.issued && s.issued[s.waiters[t].ticket.value] == s.waiters[t].jobId)
    && s.returned <= s.finished
  }

  ghost predicate Sound(s: State) {
    SlotsAreJobs(s) && JobsAreApart(s) && TicketsAreKept(s) && WaitsAreSafe(s)
  }

  lemma QueueKeepsSlots(s: State, cmd: Command, ticket: nat)
    requires SlotsAreJobs(s) && Enabled(s, Queue(cmd, ticket))
    ensures SlotsAreJobs(Step(s, Queue(cmd, ticket)))
  {
    FirstFreeIsLeast(s.sched.ongoing);
    var i := FirstFree(s.sched.ongoing);
    var s' := Step(s, Queue(cmd, ticket));
    if 0 <= i {
      assert i !in s.owner by {
        assert !Busy(s, i);
      }
      assert forall job :: Outstanding(s', job) <==> Outstanding(s, job) || job == Job(ticket, i, cmd);
    }
  }

  lemma TakeKeepsSlots(s: State)
    requires SlotsAreJobs(s) && Enabled(s, Take)
    ensures SlotsAreJobs(Step(s, Take))
  {
    var s' := Step(s, Take);
    assert s.sched.queue == [s.sched.queue[0]] + s.sched.queue[1..];
    assert forall job :: Outstanding(s', job) <==> Outstanding(s, job);
  }

  lemma FinishKeepsSlots(s: State, wake: nat)
    requires SlotsAreJobs(s) && JobsAreApart(s) && Enabled(s, Finish(wake))
    ensures SlotsAreJobs(Step(s, Finish(wake)))
  {
    var s', job := Step(s, Finish(wake)), s.sched.current.value;
    assert Outstanding(s, job);
    if Completes(job.cmd) {
      assert forall j :: Outstanding(s', j) <==> Outstanding(s, j) && j != job;
    } else {
      assert forall j :: Outstanding(s', j) <==> Outstanding(s, j);
    }
  }

  lemma StepKeepsSlots(s: State, a: Action)
    requires SlotsAreJobs(s) && JobsAreApart(s) && Enabled(s, a)
    ensures SlotsAreJobs(Step(s, a))
  {
    match a
    case Queue(cmd, ticket) => QueueKeepsSlots(s, cmd, ticket);
    case Take => TakeKeepsSlots(s);
    case Finish(wake) => FinishKeepsSlots(s, wake);
    case Wait(_, _, _) => WaitersDoNotMatter(s, Step(s, a));
    case Resume(_) => WaitersDoNotMatter(s, Step(s, a));
    case Spurious(_) => WaitersDoNotMatter(s, Step(s, a));
  }

  lemma WaitersDoNotMatter(s: State, s': State)
    requires SlotsAreJobs(s) && s' == s.(waiters := s'.waiters, returned := s'.returned)
    ensures SlotsAreJobs(s')
  {
    assert forall job :: Outstanding(s', job) <==> Outstanding(s, job);
  }

  lemma QueueKeepsApart(s: State, cmd: Command, ticket: nat)
    requires SlotsAreJobs(s) && JobsAreApart(s) && Enabled(s, Queue(cmd, ticket))
    ensures JobsAreApart(Step(s, Queue(cmd, ticket)))
  {
    FirstFreeIsLeast(s.sched.ongoing);
    var i := FirstFree(s.sched.ongoing);
    if 0 <= i {
      assert !Busy(s, i);
      assert !Outstanding(s, Job(ticket, i, cmd));
    }
  }

  lemma TakeKeepsApart(s: State)
    requires JobsAreApart(s) && Enabled(s, Take)
    ensures JobsAreApart(Step(s, Take))
  {
    var first, rest := s.sched.queue[0], s.sched.queue[1..];
    forall i | 0 <= i < |rest| ensures rest[i] != first {
      assert rest[i] == s.sched.queue[i + 1];
    }
  }

  lemma FinishKeepsApart(s: State, wake: nat)
    requires JobsAreApart(s) && SlotsAreJobs(s) && Enabled(s, Finish(wake))
    ensures JobsAreApart(Step(s, Finish(wake)))
  {
    assert Outstanding(s, s.sched.current.value);
  }

  lemma StepKeepsApart(s: State, a: Action)
    requires SlotsAreJobs(s) && JobsAreApart(s) && Enabled(s, a)
    ensures JobsAreApart(Step(s, a))
  {
    match a
    case Queue(cmd, ticket) => QueueKeepsApart(s, cmd, ticket);
    case Take => TakeKeepsApart(s);
    case Finish(wake) => FinishKeepsApart(s, wake);
    case Wait(_, _, _) =>
    case Resume(_) =>
    case Spurious(_) =>
  }

  lemma QueueKeepsTickets(s: State, cmd: Command, ticket: nat)
    requires SlotsAreJobs(s) && TicketsAreKept(s) && Enabled(s, Queue(cmd, ticket))
    ensures TicketsAreKept(Step(s, Queue(cmd, ticket)))
  {
    FirstFreeIsLeast(s.sched.ongoing);
    var i := FirstFree(s.sched.ongoing);
    assert 0 <= i ==> !Busy(s, i);
  }

  lemma FinishKeepsTickets(s: State, wake: nat)
    requires SlotsAreJobs(s) && TicketsAreKept(s) && Enabled(s, Finish(wake))
    ensures TicketsAreKept(Step(s, Finish(wake)))
  {
    assert Outstanding(s, s.sched.current.value);
  }

  lemma StepKeepsTickets(s: State, a: Action)
    requires SlotsAreJobs(s) && TicketsAreKept(s) && Enabled(s, a)
    ensures TicketsAreKept(Step(s, a))
  {
    match a
    case Queue(cmd, ticket) => QueueKeepsTickets(s, cmd, ticket);
    case Finish(wake) => FinishKeepsTickets(s, wake);
    case Take =>
    case Wait(_, _, _) =>
    case Resume(_) =>
    case Spurious(_) =>
  }

  lemma StepKeepsWaits(s: State, a: Action)
    requires SlotsAreJobs(s) && TicketsAreKept(s) && WaitsAreSafe(s) && Enabled(s, a)
    ensures WaitsAreSafe(Step(s, a))
  {
  }

  lemma StepKeepsSound(s: State, a: Action)
    requires Sound(s) && Enabled(s, a)
    ensures Sound(Step(s, a))
  {
    hide SlotsAreJobs, JobsAreApart, TicketsAreKept, WaitsAreSafe, Step, Enabled;
    StepKeepsSlots(s, a);
    StepKeepsApart(s, a);
    StepKeepsTickets(s, a);
    StepKeepsWaits(s, a);
  }
  // ---- What it comes to ---------------------------------------------------------------------------

  ghost predicate Reaches(s0: State, actions: seq<Action>, s: State)
    decreases |actions|
  {
    if actions == [] then s == s0
    else Enabled(s0, actions[0]) && Reaches(Step(s0, actions[0]), actions[1..], s)
  }

  lemma StepKeepsAbandoned(s: State, a: Action)
    requires Enabled(s, a)
    ensures s.abandoned <= Step(s, a).abandoned
  {
  }

  lemma {:induction false} RunIsSound(s0: State, actions: seq<Action>, s: State)
    requires Sound(s0) && Reaches(s0, actions, s)
    ensures Sound(s) && s0.abandoned <= s.abandoned
    decreases |actions|
  {
    if actions != [] {
      hide Sound, Step, Enabled;
      StepKeepsSound(s0, actions[0]);
      StepKeepsAbandoned(s0, actions[0]);
      RunIsSound(Step(s0, actions[0]), actions[1..], s);
    }
  }

  ghost predicate Reachable(s: State) {
    exists actions :: Reaches(Init(), actions, s)
  }

  lemma ReachableIsSound(s: State)
    requires Reachable(s)
    ensures Sound(s)
  {
    var actions :| Reaches(Init(), actions, s);
    RunIsSound(Init(), actions, s);
  }

  /** Each busy slot stands for exactly one outstanding job, and each outstanding job has its own. */
  lemma BusySlotsAreOutstandingJobs(s: State)
    requires Reachable(s)
    ensures forall b: nat :: Busy(s, b) <==> exists job :: Outstanding(s, job) && job.slot == b
    ensures forall i, j | Outstanding(s, i) && Outstanding(s, j) && i.slot == j.slot :: i == j
  {
    ReachableIsSound(s);
    hide TicketsAreKept, WaitsAreSafe, JobsAreApart, Outstanding;
    forall b: nat ensures Busy(s, b) <==> exists job :: Outstanding(s, job) && job.slot == b {
      if Busy(s, b) {
        assert Outstanding(s, s.owner[b]) && s.owner[b].slot == b;
      }
    }
  }

  /** A wait for an id that was given to a job returns only after that very job is done, even when
      its slot has been given to others since; a job is done only if it completes. */
  lemma WaitReturnsOnlyWhenDone(s: State)
    requires Reachable(s)
    ensures s.returned <= s.finished
    ensures forall t | t in s.finished :: !exists job :: Outstanding(s, job) && job.ticket == t
  {
    ReachableIsSound(s);
  }

  /** A job whose channel is missing, or whose command is unknown, keeps its slot for ever. */
  lemma AbandonedSlotsStayBusy(s0: State, actions: seq<Action>, s: State, job: Job)
    requires Reachable(s0) && Reaches(s0, actions, s) && job in s0.abandoned
    ensures !Completes(job.cmd) && Busy(s, job.slot) && job.ticket !in s.returned
  {
    ReachableIsSound(s0);
    RunIsSound(s0, actions, s);
    assert Outstanding(s, job);
  }

  /** A request is accepted exactly when a slot is free: it gets the lowest one, which is busy from then on,
      and goes to the end of the queue. Otherwise nothing changes. */
  lemma AcceptedIffFree(s: State, cmd: Command, ticket: nat)
    requires Reachable(s) && Enabled(s, Queue(cmd, ticket))
    ensures var s' := Step(s, Queue(cmd, ticket));
            if forall b: nat | b < MAX_ONGOING_JOBS :: Busy(s, b) then s' == s
            else
              && ticket in s'.issued
              && var i := s'.issued[ticket];
                 && i < MAX_ONGOING_JOBS && !Busy(s, i) && (forall b: nat | b < i :: Busy(s, b))
                 && (forall b :: Busy(s', b) <==> Busy(s, b) || b == i)
                 && s'.sched.queue == s.sched.queue + [Job(ticket, i, cmd)] && s'.sched.current == s.sched.current
  {
    ReachableIsSound(s);
    FirstFreeIsLeast(s.sched.ongoing);
    hide TicketsAreKept, WaitsAreSafe, JobsAreApart, Outstanding, Reachable, FirstFree;
    var i := FirstFree(s.sched.ongoing);
    if i < 0 {
      assert forall b: nat | b < MAX_ONGOING_JOBS :: Busy(s, b);
    } else {
      assert !Busy(s, i);
    }
  }

  predicate Frees(cmd: Command) {
    cmd == PprocStart || cmd == AllocateBuff(true)
  }

  /** A postprocessor start always frees its slot when it is done, an allocation if it has a channel, and
      nothing else does; no other slot is touched. The one wakes every waiter, the other the one it
      signals. */
  lemma FinishFreesIff(s: State, wake: nat)
    requires Reachable(s) && Enabled(s, Finish(wake))
    ensures var s', job := Step(s, Finish(wake)), s.sched.current.value;
            && Busy(s, job.slot)
            && (forall b :: Busy(s', b) <==> Busy(s, b) && (b == job.slot ==> !Frees(job.cmd)))
            && s'.finished == s.finished + (if Frees(job.cmd) then {job.ticket} else {})
            && s'.sched.current == None && s'.sched.queue == s.sched.queue
            && s'.waiters.Keys == s.waiters.Keys
            && forall t | t in s.waiters ::
                 s'.waiters[t] ==
                 s.waiters[t].(awake := s.waiters[t].awake || job.cmd == PprocStart
                                        || (job.cmd == AllocateBuff(true) && t == wake))
  {
    ReachableIsSound(s);
    assert Outstanding(s, s.sched.current.value);
    hide TicketsAreKept, WaitsAreSafe, JobsAreApart, Outstanding, Reachable;
  }

  /** A thread that looks at its slot leaves exactly when that is not busy, and sleeps otherwise; leaving,
      it has returned for the ticket it was waiting for. */
  lemma WaitReturnsIff(s: State, a: Action, thread: nat)
    requires Enabled(s, a) && (a.Wait? || a.Resume?) && a.thread == thread
    ensures var w := if a.Wait? then Waiter(a.jobId, a.holds, false) else s.waiters[thread].(awake := false);
            var s' := Step(s, a);
            && s'.sched == s.sched && s'.waiters - {thread} == s.waiters - {thread}
            && (if Busy(s, w.jobId) then thread in s'.waiters && s'.waiters[thread] == w
                else thread !in s'.waiters)
            && forall t :: t in s'.returned <==> t in s.returned || (w.ticket == Some(t) && !Busy(s, w.jobId))
  {
  }

  // ---- Jobs are done in the order in which they were accepted ------------------------------------------

  ghost function Unfinished(s: State): seq<Job> {
    (if s.sched.current.Some? then [s.sched.current.value] else []) + s.sched.queue
  }

  function AcceptedBy(s: State, a: Action): seq<Job>
    requires Enabled(s, a)
  {
    var issued := Step(s, a).issued;
    if a.Queue? && a.ticket in issued then [Job(a.ticket, issued[a.ticket], a.cmd)] else []
  }

  function WorkedBy(s: State, a: Action): seq<Job>
    requires Enabled(s, a)
  {
    if a.Finish? then [s.sched.current.value] else []
  }

  /** The jobs that were accepted in a run, */
  ghost function Accepted(s0: State, actions: seq<Action>, s: State): seq<Job>
    requires Reaches(s0, actions, s)
    decreases |actions|
  {
    if actions == [] then []
    else AcceptedBy(s0, actions[0]) + Accepted(Step(s0, actions[0]), actions[1..], s)
  }

  /** and those the worker has finished with. */
  ghost function Worked(s0: State, actions: seq<Action>, s: State): seq<Job>
    requires Reaches(s0, actions, s)
    decreases |actions|
  {
    if actions == [] then []
    else WorkedBy(s0, actions[0]) + Worked(Step(s0, actions[0]), actions[1..], s)
  }

  lemma OneMoreJob(s: State, a: Action)
    requires Enabled(s, a)
    ensures Unfinished(s) + AcceptedBy(s, a) == WorkedBy(s, a) + Unfinished(Step(s, a))
  {
    FirstFreeIsLeast(s.sched.ongoing);
    hide FirstFree;
    var s' := Step(s, a);
    hide WakeOne, WakeAll, Look;
    match a
    case Queue(cmd, ticket) =>
    case Take => assert s.sched.queue == [s.sched.queue[0]] + s.sched.queue[1..];
    case Finish(_) => assert s'.sched.queue == s.sched.queue && s'.sched.current == None;
    case _ => assert s'.sched == s.sched;
  }

  lemma Regroup<T>(a: seq<T>, b: seq<T>, c: seq<T>)
    ensures a + (b + c) == a + b + c
  {
  }

  lemma {:induction false} RunIsFifo(s0: State, actions: seq<Action>, s: State)
    requires Reaches(s0, actions, s)
    ensures Unfinished(s0) + Accepted(s0, actions, s) == Worked(s0, actions, s) + Unfinished(s)
    decreases |actions|
  {
    hide Step, Enabled, Unfinished, AcceptedBy, WorkedBy;
    if actions == [] {
      assert Unfinished(s0) + [] == [] + Unfinished(s);
    } else {
      var a, next := actions[0], Step(s0, actions[0]);
      OneMoreJob(s0, a);
      RunIsFifo(next, actions[1..], s);
      Regroup(Unfinished(s0), AcceptedBy(s0, a), Accepted(next, actions[1..], s));
      Regroup(WorkedBy(s0, a), Unfinished(next), Accepted(next, actions[1..], s));
      Regroup(WorkedBy(s0, a), Worked(next, actions[1..], s), Unfinished(s));
    }
  }

  /** Over every run, the accepted jobs are those the worker is finished with, then the one it is at, then
      the queued ones, all in order. */
  lemma JobsAreDoneInOrder(actions: seq<Action>, s: State)
    requires Reaches(Init(), actions, s)
    ensures Accepted(Init(), actions, s) == Worked(Init(), actions, s) + Unfinished(s)
  {
    RunIsFifo(Init(), actions, s);
    assert [] + Accepted(Init(), actions, s) == Accepted(Init(), actions, s);
  }

  // ---- Whether the waiters wake up ------------------------------------------------------------------

  /** Every sleeper's slot is still busy. */
  ghost predicate NoLostWakeup(s: State) {
    forall t | Asleep(s, t) :: Busy(s, s.waiters[t].jobId)
  }

  /** A finished allocation signals one thread, whichever; that is enough exactly when no other one
      sleeps on the same slot. All other steps are safe: the postprocessor start broadcasts. */
  lemma StepKeepsWakeupsIff(s: State, a: Action)
    requires Sound(s) && NoLostWakeup(s) && Enabled(s, a)
    ensures NoLostWakeup(Step(s, a)) <==>
            (a.Finish? && s.sched.current.value.cmd == AllocateBuff(true) ==>
              forall t | Asleep(s, t) && t != a.wake :: s.waiters[t].jobId != s.sched.current.value.slot)
  {
    match a
    case Finish(wake) => FinishKeepsWakeupsIff(s, wake);
    case Queue(_, _) => OtherKeepsWakeups(s, a);
    case Take => OtherKeepsWakeups(s, a);
    case Wait(_, _, _) => OtherKeepsWakeups(s, a);
    case Resume(_) => OtherKeepsWakeups(s, a);
    case Spurious(_) => OtherKeepsWakeups(s, a);
  }

  lemma OtherKeepsWakeups(s: State, a: Action)
    requires NoLostWakeup(s) && Enabled(s, a) && !a.Finish?
    ensures NoLostWakeup(Step(s, a))
  {
    FirstFreeIsLeast(s.sched.ongoing);
  }

  lemma FinishKeepsWakeupsIff(s: State, wake: nat)
    requires Sound(s) && NoLostWakeup(s) && Enabled(s, Finish(wake))
    ensures NoLostWakeup(Step(s, Finish(wake))) <==>
            (s.sched.current.value.cmd == AllocateBuff(true) ==>
              forall t | Asleep(s, t) && t != wake :: s.waiters[t].jobId != s.sched.current.value.slot)
  {
    hide JobsAreApart, TicketsAreKept, WaitsAreSafe;
    var s' := Step(s, Finish(wake));
    assert Outstanding(s, s.sched.current.value);
    assert forall t | Asleep(s', t) :: Asleep(s, t) && s'.waiters[t] == s.waiters[t];
    assert s.sched.current.value.cmd == AllocateBuff(true) ==>
             forall t | Asleep(s, t) && t != wake :: Asleep(s', t);
  }

  /** So a single waiting thread is never left asleep. */
  lemma OneWaiterAlwaysWakes(s: State, a: Action)
    requires Sound(s) && NoLostWakeup(s) && Enabled(s, a)
    requires forall t, u | t in s.waiters && u in s.waiters :: t == u
    ensures NoLostWakeup(Step(s, a))
  {
    hide Sound, NoLostWakeup, Step;
    StepKeepsWakeupsIff(s, a);
  }

  lemma Then(s: State, a: Action) returns (next: State)
    requires Reachable(s) && Enabled(s, a)
    ensures Reachable(next) && next == Step(s, a)
  {
    hide Step, Enabled;
    var actions :| Reaches(Init(), actions, s);
    ReachesThen(Init(), actions, s, a);
    next := Step(s, a);
  }

  lemma {:induction false} ReachesThen(s0: State, actions: seq<Action>, s: State, a: Action)
    requires Reaches(s0, actions, s) && Enabled(s, a)
    ensures Reaches(s0, actions + [a], Step(s, a))
    decreases |actions|
  {
    if actions == [] {
      assert [a][1..] == [];
      assert Reaches(Step(s, a), [], Step(s, a));
    } else {
      assert (actions + [a])[1..] == actions[1..] + [a];
      ReachesThen(Step(s0, actions[0]), actions[1..], s, a);
    }
  }

  lemma Begun()
    ensures Reachable(Init())
  {
    assert Reaches(Init(), [], Init());
  }

  lemma TwoJobsTwoWaiters() returns (s: State)
    ensures Reachable(s) && s.sched.current == None
    ensures s.sched.ongoing == Init().sched.ongoing[0 := true][1 := true]
    ensures s.sched.queue == [Job(0, 0, AllocateBuff(true)), Job(1, 1, AllocateBuff(true))]
    ensures s.waiters == map[10 := Waiter(0, Some(0), false), 11 := Waiter(1, Some(1), false)]
  {
    hide Reachable;
    var free := Init().sched.ongoing;
    FirstFreeIs(free, 0);
    FirstFreeIs(free[0 := true], 1);
    Begun();
    s := Then(Init(), Queue(AllocateBuff(true), 0));
    s := Then(s, Queue(AllocateBuff(true), 1));
    s := Then(s, Wait(10, 0, Some(0)));
    s := Then(s, Wait(11, 1, Some(1)));
  }

  /** Two threads that wait for two allocations: the first one's signal may go to the thread that
      waits for the second, and then one thread sleeps on although both jobs are done. */
  lemma TwoWaitersMayLoseOne() returns (s: State)
    ensures Reachable(s) && Asleep(s, 10) && !Busy(s, s.waiters[10].jobId)
    ensures s.sched.queue == [] && s.sched.current == None && s.waiters.Keys == {10}
  {
    hide Reachable;
    s := OneJobDone();
    s := Then(s, Take);
    s := Then(s, Finish(11));
    s := Then(s, Resume(11));
  }

  lemma OneJobDone() returns (s: State)
    ensures Reachable(s) && s.sched.current == None
    ensures s.sched.ongoing == Init().sched.ongoing[0 := true][1 := true][0 := false]
    ensures s.sched.queue == [Job(1, 1, AllocateBuff(true))]
    ensures s.waiters == map[10 := Waiter(0, Some(0), false), 11 := Waiter(1, Some(1), false)]
  {
    hide Reachable;
    s := TwoJobsTwoWaiters();
    s := Then(s, Take);
    s := Then(s, Finish(11));
    s := Then(s, Resume(11));
  }
}
