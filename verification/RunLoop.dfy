/**
 * `run` as a transition system over the executor state: the loop's own steps,
 * interleaved with whatever tasks, the caller, the kernel and other threads do.
 */
module RunLoop {
  import opened Types
  import opened ExecState
  import opened ExecInv

  /**
   * Where the executor's thread is:
   *   Outside   in the program around `run`
   *   Select    about to ask for the highest-priority runnable task
   *   Polling   inside a task's poll
   *   Polled    after it; destructors of a dropped task may still run
   *   Check     about to look for events without blocking
   *   Idle      no task is runnable; about to look at the sleep queue
   *   Waiting   in the untimed epoll_wait
   *   Retiring  out of the loop, about to replace the executor
   */
  datatype Phase = Outside | Select | Polling | Polled | Check | Idle | Waiting | Retiring

  /** `retired` is the executor most recently replaced, after its queues were dropped. */
  datatype Machine = Machine(phase: Phase, exec: Exec, retired: Option<Exec>)

  datatype Action =
    | Do(e: Effect)
    | Start
    | PollNext
    | NoTask
    | Pend
    | Ready(v: int, reports: seq<Report>)
    | TestShutdown
    | CheckEvents(reports: seq<Report>)
    | CheckFails
    | TestSleep
    | Wait(reports: seq<Report>)
    | WaitFails
    | Replace
    | ReplaceFails

  /** Code of the program, of tasks and of destructors runs in these phases only. */
  predicate RunsUserCode(p: Phase) { p.Outside? || p.Polling? || p.Polled? }

  ghost predicate Enabled(m: Machine, a: Action) {
    match a
    case Do(e) => (RunsUserCode(m.phase) || External(e)) && Allowed(m.exec, e)
    case Start => m.phase.Outside?
    case PollNext => m.phase.Select? && Runnable(m.exec)
    case NoTask => m.phase.Select? && !Runnable(m.exec)
    case Pend => m.phase.Polling? && Busy(m.exec)
    case Ready(v, reports) => m.phase.Polling? && Busy(m.exec) && ReportsOk(m.exec, reports)
    case TestShutdown => m.phase.Polled?
    case CheckEvents(reports) => m.phase.Check? && ReportsOk(m.exec, reports)
    case CheckFails => m.phase.Check?
    case TestSleep => m.phase.Idle?
    case Wait(reports) => m.phase.Waiting? && ReportsOk(m.exec, reports)
    case WaitFails => m.phase.Waiting?
    case Replace => m.phase.Retiring?
    case ReplaceFails => m.phase.Retiring?
  }

  /** The old executor after its queues were dropped: each queue returns the references it owns. */
  ghost function DropQueues(s: Exec): Exec {
    s.(queues := [[], [], [], []],
       tasks := map t | t in s.tasks ::
         s.tasks[t].(strong := if IsQueued(s, t) then Less(s.tasks[t].strong) else s.tasks[t].strong),
       hist := s.hist.(where := map[]))
  }

  ghost function Next(m: Machine, a: Action): Machine
    requires Enabled(m, a)
  {
    var s := m.exec;
    match a
    case Do(e) => m.(exec := Apply(s, e))
    case Start => m.(phase := Select)
    case PollNext => m.(phase := Polling, exec := PopRun(s))
    case NoTask => m.(phase := Idle)
    case Pend => m.(phase := Polled, exec := FinishPending(s))
    case Ready(v, reports) => m.(phase := Polled, exec := FinishReady(s, v, reports))
    case TestShutdown => m.(phase := if s.shutdown then Retiring else Check)
    case CheckEvents(reports) => m.(phase := Select, exec := EpollWait(s, reports))
    case CheckFails => m.(phase := Outside)
    case TestSleep => m.(phase := if s.queues[SLEEP] == [] then Retiring else Waiting)
    case Wait(reports) => m.(phase := Select, exec := EpollWait(s, reports))
    case WaitFails => m.(phase := Outside)
    case Replace => Machine(Outside, Fresh(), Some(DropQueues(s)))
    case ReplaceFails => m.(phase := Outside)
  }

  ghost function Initial(): Machine { Machine(Outside, Fresh(), None) }

  /** `acts` is a run of the machine from `m`. */
  ghost predicate Valid(m: Machine, acts: seq<Action>)
    decreases |acts|
  {
    acts == [] || (Enabled(m, acts[0]) && Valid(Next(m, acts[0]), acts[1..]))
  }

  ghost function Final(m: Machine, acts: seq<Action>): Machine
    requires Valid(m, acts)
    decreases |acts|
  {
    if acts == [] then m else Final(Next(m, acts[0]), acts[1..])
  }

  /** A run can be extended at its end. */
  lemma {:induction false} ExtendRun(m0: Machine, trace: seq<Action>, a: Action)
    requires Valid(m0, trace) && Enabled(Final(m0, trace), a)
    ensures Valid(m0, trace + [a]) && Final(m0, trace + [a]) == Next(Final(m0, trace), a)
    decreases |trace|
  {
    if trace != [] {
      ExtendRun(Next(m0, trace[0]), trace[1..], a);
      assert (trace + [a])[1..] == trace[1..] + [a];
    }
  }

  /** Or at its front. */
  lemma Chain(m: Machine, a: Action, rest: seq<Action>)
    requires Enabled(m, a) && Valid(Next(m, a), rest)
    ensures Valid(m, [a] + rest) && Final(m, [a] + rest) == Final(Next(m, a), rest)
  {
    assert ([a] + rest)[1..] == rest;
  }

  /** Two runs make one. */
  lemma {:induction false} JoinRuns(m: Machine, a: seq<Action>, b: seq<Action>)
    requires Valid(m, a) && Valid(Final(m, a), b)
    ensures Valid(m, a + b) && Final(m, a + b) == Final(Final(m, a), b)
    decreases |b|
  {
    if b == [] {
      assert a + b == a;
    } else {
      JoinStep(m, a, b);
      Shift(a, b);
      JoinRuns(m, a + [b[0]], b[1..]);
    }
  }

  lemma Shift(a: seq<Action>, b: seq<Action>)
    requires b != []
    ensures a + [b[0]] + b[1..] == a + b
  {
  }

  lemma JoinStep(m: Machine, a: seq<Action>, b: seq<Action>)
    requires Valid(m, a) && Valid(Final(m, a), b) && b != []
    ensures var c := a + [b[0]];
      && Valid(m, c) && Valid(Final(m, c), b[1..])
      && Final(Final(m, a), b) == Final(Final(m, c), b[1..])
  {
    ExtendRun(m, a, b[0]);
  }

  // ---------------------------------------------------------------- the invariant of the loop

  ghost predicate PhaseOk(m: Machine) {
    && (m.exec.running.Some? <==> m.phase.Polling?)
    && (m.phase.Idle? || m.phase.Waiting? ==> !Runnable(m.exec))
    && (m.phase.Waiting? ==> m.exec.queues[SLEEP] != [])
    && (m.phase.Retiring? && !m.exec.shutdown ==> !Runnable(m.exec) && m.exec.queues[SLEEP] == [])
  }

  ghost predicate MachineInv(m: Machine) { Inv(m.exec) && PhaseOk(m) }

  ghost predicate SameFate(x: Task, y: Task) {
    y.completed == x.completed && y.past.late == x.past.late
  }

  /** Effects leave the running task, the shutdown flag (once set) and completion alone. */
  ghost predicate Undisturbed(s: Exec, r: Exec) {
    && r.running == s.running
    && (s.shutdown ==> r.shutdown)
    && (forall t :: t in s.tasks ==> t in r.tasks)
    && (forall t :: t in s.tasks && t in r.tasks ==> SameFate(s.tasks[t], r.tasks[t]))
  }

  lemma WokenUndisturbed(s: Exec, r: Exec)
    requires WokenOnly(s, r)
    ensures Undisturbed(s, r)
  {
    forall t | t in s.tasks && t in r.tasks ensures SameFate(s.tasks[t], r.tasks[t]) {
      assert Woken(s.tasks[t], r.tasks[t]);
    }
  }

  lemma SpawnUndisturbed(s: Exec, t: TaskId, p: Priority)
    requires t !in s.tasks
    ensures Undisturbed(s, Spawn(s, t, p))
  {
    var s1 := SetTask(s, t, NewTask(p));
    WakeNowWoken(s1, t);
    WokenUndisturbed(s1, WakeNow(s1, t));
  }

  lemma PollFdUndisturbed(s: Exec, fd: FdId, w: Waker, io: Io, reports: seq<Report>)
    requires fd in s.fds && ReportsOk(s, reports)
    ensures Undisturbed(s, PollFd(s, fd, w, io, reports))
  {
    var g := PolledFd(s.fds[fd], w, io);
    var s1 := SetFd(s, fd, g);
    if PollResultOf(s.fds[fd], io) == PollYield {
      SetFdKeepsReports(s, reports, fd, g);
      WakeByWoken(s1, w, reports);
      WokenUndisturbed(s1, WakeBy(s1, w, reports));
    }
  }

  lemma ApplyUndisturbed(s: Exec, e: Effect)
    requires Allowed(s, e)
    ensures Undisturbed(s, Apply(s, e))
  {
    match e {
      case DoSpawn(t, p) => SpawnUndisturbed(s, t, p);
      case DoWake(t, reports) =>
        WakeByWoken(s, TaskWaker(t), reports);
        WokenUndisturbed(s, WakeBy(s, TaskWaker(t), reports));
      case DoPollFd(fd, dir, w, io, reports) => PollFdUndisturbed(s, fd, w, io, reports);
      case _ =>
    }
  }

  lemma ExternalKeepsQueues(s: Exec, e: Effect)
    requires Allowed(s, e) && External(e)
    ensures Apply(s, e).queues == s.queues && Apply(s, e).shutdown == s.shutdown
  {
  }

  /** Completion changes the fate of the completing task only. */
  lemma FinishReadyFate(s: Exec, v: int, reports: seq<Report>)
    requires Busy(s) && ReportsOk(s, reports)
    ensures var r := FinishReady(s, v, reports);
      && r.running == None && r.shutdown == s.shutdown && (forall t :: t in r.tasks <==> t in s.tasks)
      && r.tasks[s.running.value].completed
      && (forall t :: t in s.tasks && t in r.tasks && t != s.running.value ==> SameFate(s.tasks[t], r.tasks[t]))
  {
    var t := s.running.value;
    var x := s.tasks[t];
    var s1 := SetTask(s, t, x.(output := Some(v), handleWaker := Noop,
                               past := x.past.(returned := x.past.returned + [v])));
    var s2 := WakeBy(s1, x.handleWaker, reports);
    WakeByWoken(s1, x.handleWaker, reports);
    var r := MarkCompleted(s2);
    forall u | u in s.tasks && u in r.tasks && u != t ensures SameFate(s.tasks[u], r.tasks[u]) {
      assert Woken(s1.tasks[u], s2.tasks[u]);
    }
  }

  // ---------------------------------------------------------------- every reachable state

  lemma NextInv(m: Machine, a: Action)
    requires MachineInv(m) && Enabled(m, a)
    ensures MachineInv(Next(m, a))
  {
    var s := m.exec;
    match a {
      case Do(e) =>
        ApplyInv(s, e);
        ApplyUndisturbed(s, e);
        if External(e) {
          ExternalKeepsQueues(s, e);
        }
      case PollNext => PopRunInv(s);
      case Pend => FinishPendingInv(s);
      case Ready(v, reports) =>
        FinishReadyInv(s, v, reports);
        FinishReadyFate(s, v, reports);
      case CheckEvents(reports) =>
        EpollWaitInv(s, reports);
        EpollWaitWoken(s, reports);
      case Wait(reports) =>
        EpollWaitInv(s, reports);
        EpollWaitWoken(s, reports);
      case Replace => FreshInv();
      case _ =>
    }
  }

  lemma {:induction false} RunInv(m: Machine, acts: seq<Action>)
    requires MachineInv(m) && Valid(m, acts)
    ensures MachineInv(Final(m, acts))
    decreases |acts|
  {
    if acts != [] {
      NextInv(m, acts[0]);
      RunInv(Next(m, acts[0]), acts[1..]);
    }
  }

  /** Every state of every program run, `run` being called any number of times. */
  lemma Reachable(acts: seq<Action>)
    requires Valid(Initial(), acts)
    ensures MachineInv(Final(Initial(), acts))
  {
    FreshInv();
    RunInv(Initial(), acts);
  }
}
