/**
 * Why `NoLostWakeup` speaks of fds registered for one direction: for an fd registered
 * for both, a run from the start of the program in which a wakeup is lost.
 */
module TwoDirections {
  import opened Types
  import opened QueueSpec
  import opened ExecState
  import opened ExecInv
  import opened RunLoop
  import opened RunTheorems

  /** `t` sleeps, waits for `fd`, missed nothing by an abort, and `fd` is ready: yet `run` blocks. */
  ghost predicate LostWakeup(m: Machine, t: TaskId, fd: FdId) {
    && Blocked(m) && t in m.exec.queues[SLEEP] && Awaits(m.exec, t, fd) && !m.exec.tasks[t].completed
    && fd !in m.exec.tasks[t].past.missed && m.exec.fds[fd].ready != {}
  }

  /** Task 0 is the only task, fd 0 the only fd: writable, not readable, and `cache` not yet used up. */
  ghost predicate Scene(m: Machine, phase: Phase, queues: Queues, running: Option<TaskId>, f: Fd) {
    && m.phase == phase && m.exec.queues == queues && m.exec.running == running
    && !m.exec.shutdown && m.exec.pipe == [] && m.exec.buffer == 2
    && m.exec.fds == map[0 := f]
    && 0 in m.exec.tasks && m.exec.tasks[0].priority == Normal && !m.exec.tasks[0].completed
  }

  const Runs: Queues := [[], [0], [], []]
  const Nowhere: Queues := [[], [], [], []]
  const Sleeps: Queues := [[], [], [], [0]]

  function TheFd(edge: bool): Fd { Fd({In, Out}, {In, Out}, 0, Noop, {Out}, edge) }

  function Emptied(): Fd { Fd({In, Out}, {}, 0, TaskWaker(0), {Out}, false) }

  lemma SceneQueues()
    ensures Push(Nowhere, NORMAL, 0) == Runs && Pop(Runs, NORMAL) == Nowhere && Push(Nowhere, SLEEP, 0) == Sleeps
  {
    UnlinkAbsent(Nowhere, 0);
    assert [0][1..] == [] && [] + [0] == [0];
    forall j | 0 <= j < 4 ensures Pop(Runs, NORMAL)[j] == Nowhere[j] {
    }
  }

  lemma SpawnScene(m: Machine)
    requires m == Initial()
    ensures Enabled(m, Do(DoSpawn(0, Normal)))
    ensures var m1 := Next(m, Do(DoSpawn(0, Normal)));
      && Enabled(m1, Do(DoNewFd(0, {In, Out}, {Out}, true)))
      && Scene(Next(m1, Do(DoNewFd(0, {In, Out}, {Out}, true))), Outside, Runs, None, TheFd(true))
  {
    SceneQueues();
    assert {In, Out} * {In, Out} == {In, Out};
  }

  lemma PollScene(m: Machine, f: Fd)
    requires Scene(m, Select, Runs, None, f)
    ensures Enabled(m, PollNext) && Scene(Next(m, PollNext), Polling, Nowhere, Some(0), f)
  {
    SceneQueues();
  }

  /** The task yielding; its event check uses up the edge, which tells the cache nothing new. */
  lemma YieldScene(m: Machine)
    requires MachineInv(m) && Scene(m, Polling, Nowhere, Some(0), TheFd(true))
    ensures var a := Do(DoWake(0, [FdReport(0, {Out})]));
      Enabled(m, a) && Scene(Next(m, a), Polling, Runs, Some(0), TheFd(false))
  {
    PolledIsAlive(m.exec);
    YieldChecks(m.exec);
    YieldLinks(SetFd(m.exec, 0, TheFd(false)));
  }

  lemma PolledIsAlive(s: Exec)
    requires Inv(s) && s.running == Some(0)
    ensures Upgradable(s, 0)
  {
    InvTask(s, 0);
  }

  lemma YieldLinks(s: Exec)
    requires Upgradable(s, 0) && !s.tasks[0].completed && s.tasks[0].priority == Normal && s.queues == Nowhere
    ensures var r := WakeNow(s, 0);
      && r.queues == Runs && 0 in r.tasks && r.tasks[0].priority == Normal && !r.tasks[0].completed
      && r == s.(queues := r.queues, tasks := r.tasks, hist := r.hist)
  {
    SceneQueues();
  }

  lemma YieldChecks(s: Exec)
    requires s.fds == map[0 := TheFd(true)] && s.buffer == 2
    ensures ReportsOk(s, [FdReport(0, {Out})]) && EpollWait(s, [FdReport(0, {Out})]) == SetFd(s, 0, TheFd(false))
  {
    var rs := [FdReport(0, {Out})];
    assert ReportOk(s, rs[0]);
    ProcessKeepsReports(s, rs);
    assert Process(s, rs[0]) == SetFd(s, 0, TheFd(false));
    assert rs[1..] == [];
  }

  lemma PendScene(m: Machine)
    requires Scene(m, Polling, Runs, Some(0), TheFd(false))
    ensures Enabled(m, Pend) && Scene(Next(m, Pend), Polled, Runs, None, TheFd(false))
  {
  }

  lemma CheckScene(m: Machine, queues: Queues, f: Fd)
    requires Scene(m, Polled, queues, None, f)
    ensures Valid(m, [TestShutdown, CheckEvents([])])
    ensures Final(m, [TestShutdown, CheckEvents([])]) == m.(phase := Select)
  {
    var m1 := Next(m, TestShutdown);
    assert [TestShutdown, CheckEvents([])][1..] == [CheckEvents([])] && [CheckEvents([])][1..] == [];
    assert Next(m1, CheckEvents([])) == m.(phase := Select);
  }

  /** The two polls: reading would block, which clears the cached writability too; then writing is not even tried. */
  lemma PollsScene(m: Machine)
    requires Scene(m, Polling, Nowhere, Some(0), TheFd(false)) && m.exec.tasks[0].past.missed == {}
    ensures var a := Do(DoPollFd(0, In, TaskWaker(0), WouldBlock, []));
      var b := Do(DoPollFd(0, Out, TaskWaker(0), Done({}), []));
      && Enabled(m, a) && Enabled(Next(m, a), b)
      && var r := Next(Next(m, a), b);
      && Scene(r, Polling, Nowhere, Some(0), Emptied())
      && r.exec.tasks[0].past.missed == {} && 0 in r.exec.tasks[0].past.pendingOn
  {
  }

  lemma SleepScene(m: Machine)
    requires Scene(m, Polling, Nowhere, Some(0), Emptied())
    requires m.exec.tasks[0].past.missed == {} && 0 in m.exec.tasks[0].past.pendingOn
    ensures Enabled(m, Pend) && Scene(Next(m, Pend), Polled, Sleeps, None, Emptied())
    ensures Next(m, Pend).exec.tasks[0].past == m.exec.tasks[0].past
  {
    SceneQueues();
  }

  // ---------------------------------------------------------------- the run

  /** Spawned, registered, polled. */
  lemma FirstPoll() returns (acts: seq<Action>)
    ensures Valid(Initial(), acts) && Scene(Final(Initial(), acts), Polling, Nowhere, Some(0), TheFd(true))
  {
    var m := Initial();
    SpawnScene(m);
    ExtendRun(m, [], Do(DoSpawn(0, Normal)));
    ExtendRun(m, [] + [Do(DoSpawn(0, Normal))], Do(DoNewFd(0, {In, Out}, {Out}, true)));
    acts := [] + [Do(DoSpawn(0, Normal))] + [Do(DoNewFd(0, {In, Out}, {Out}, true))];
    ExtendRun(m, acts, Start);
    acts := acts + [Start];
    PollScene(Final(m, acts), TheFd(true));
    ExtendRun(m, acts, PollNext);
    acts := acts + [PollNext];
  }

  /** It yielding, with an event check, and is polled again. */
  lemma SecondPoll() returns (acts: seq<Action>)
    ensures Valid(Initial(), acts)
    ensures var r := Final(Initial(), acts);
      Scene(r, Polling, Nowhere, Some(0), TheFd(false)) && r.exec.tasks[0].past.missed == {}
  {
    var m := Initial();
    acts := FirstPoll();
    Reachable(acts);
    var yielding := Do(DoWake(0, [FdReport(0, {Out})]));
    YieldScene(Final(m, acts));
    ExtendRun(m, acts, yielding);
    PendScene(Final(m, acts + [yielding]));
    ExtendRun(m, acts + [yielding], Pend);
    acts := acts + [yielding] + [Pend];
    CheckScene(Final(m, acts), Runs, TheFd(false));
    JoinRuns(m, acts, [TestShutdown, CheckEvents([])]);
    acts := acts + [TestShutdown, CheckEvents([])];
    PollScene(Final(m, acts), TheFd(false));
    PollClears(Final(m, acts).exec);
    ExtendRun(m, acts, PollNext);
    acts := acts + [PollNext];
  }

  lemma PollClears(s: Exec)
    requires Runnable(s) && s.queues[TopQueue(s)][0] in s.tasks
    ensures var t := s.queues[TopQueue(s)][0]; PopRun(s).tasks[t].past.missed == {}
  {
  }

  /** It polls the fd for reading, then for writing, and goes to sleep. */
  lemma FallAsleep() returns (acts: seq<Action>)
    ensures Valid(Initial(), acts)
    ensures var r := Final(Initial(), acts);
      Scene(r, Polled, Sleeps, None, Emptied())
      && r.exec.tasks[0].past.missed == {} && 0 in r.exec.tasks[0].past.pendingOn
  {
    var m := Initial();
    acts := SecondPoll();
    var reading, writing := Do(DoPollFd(0, In, TaskWaker(0), WouldBlock, [])), Do(DoPollFd(0, Out, TaskWaker(0), Done({}), []));
    PollsScene(Final(m, acts));
    ExtendRun(m, acts, reading);
    ExtendRun(m, acts + [reading], writing);
    acts := acts + [reading] + [writing];
    SleepScene(Final(m, acts));
    ExtendRun(m, acts, Pend);
    acts := acts + [Pend];
  }

  /** From the start of the program a run leads to a lost wakeup, if an fd is registered for both directions. */
  lemma TwoDirectionsLose()
    ensures exists acts :: Valid(Initial(), acts) && LostWakeup(Final(Initial(), acts), 0, 0)
  {
    var m := Initial();
    var acts := FallAsleep();
    CheckScene(Final(m, acts), Sleeps, Emptied());
    JoinRuns(m, acts, [TestShutdown, CheckEvents([])]);
    acts := acts + [TestShutdown, CheckEvents([])];
    ExtendRun(m, acts, NoTask);
    ExtendRun(m, acts + [NoTask], TestSleep);
    acts := acts + [NoTask] + [TestSleep];
    assert LostWakeup(Final(m, acts), 0, 0);
  }
}
