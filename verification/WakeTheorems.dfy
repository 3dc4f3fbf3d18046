/**
 * No lost wakeup, told without the model's own bookkeeping: from the moment of a
 * wake, or of a Pending fd poll, along any continuation of the run.
 */
module WakeTheorems {
  import opened Types
  import opened QueueSpec
  import opened ExecState
  import opened ExecInv
  import opened RunLoop
  import opened RunTheorems

  /** The action begins a poll of `t`. */
  ghost predicate Polls(m: Machine, a: Action, t: TaskId)
    requires Enabled(m, a)
  {
    a == PollNext && m.exec.queues[TopQueue(m.exec)][0] == t
  }

  // ---------------------------------------------------------------- runnable tasks

  /** The action begins a poll of `t`, aborts it, or ends the executor. */
  ghost predicate Dequeues(m: Machine, a: Action, t: TaskId)
    requires Enabled(m, a)
  {
    a == Replace || a == Do(DoAbort(t)) || Polls(m, a, t)
  }

  /** epoll, or making a new executor, fails. */
  ghost predicate HasError(acts: seq<Action>) { CheckFails in acts || WaitFails in acts || ReplaceFails in acts }

  ghost predicate Undequeued(m: Machine, acts: seq<Action>, t: TaskId)
    requires Valid(m, acts)
    decreases |acts|
  {
    acts == [] || (!Dequeues(m, acts[0], t) && Undequeued(Next(m, acts[0]), acts[1..], t))
  }

  lemma {:induction false} EventsKeepRunnable(s: Exec, reports: seq<Report>, t: TaskId)
    requires ReportsOk(s, reports) && InRunQueue(s, t)
    ensures InRunQueue(EpollWait(s, reports), t)
    decreases |reports|
  {
    if reports != [] {
      assert ReportOk(s, reports[0]);
      ProcessKeepsReports(s, reports);
      assert InRunQueue(Process(s, reports[0]), t);
      EventsKeepRunnable(Process(s, reports[0]), reports[1..], t);
    }
  }

  lemma WakesKeepRunnable(s: Exec, w: Waker, reports: seq<Report>, t: TaskId)
    requires ReportsOk(s, reports) && InRunQueue(s, t)
    ensures InRunQueue(WakeBy(s, w, reports), t)
  {
    EventsKeepRunnable(s, reports, t);
  }

  lemma ApplyKeepsRunnable(s: Exec, e: Effect, t: TaskId)
    requires Allowed(s, e) && InRunQueue(s, t) && e != DoAbort(t)
    ensures InRunQueue(Apply(s, e), t)
  {
    match e {
      case DoWake(u, reports) => WakesKeepRunnable(s, TaskWaker(u), reports, t);
      case DoPollFd(fd, dir, w, io, reports) => PollFdKeepsRunnable(s, fd, w, io, reports, t);
      case _ =>
    }
  }

  lemma PollFdKeepsRunnable(s: Exec, fd: FdId, w: Waker, io: Io, reports: seq<Report>, t: TaskId)
    requires fd in s.fds && ReportsOk(s, reports) && InRunQueue(s, t)
    ensures InRunQueue(PollFd(s, fd, w, io, reports), t)
  {
    if PollResultOf(s.fds[fd], io) == PollYield {
      var g := PolledFd(s.fds[fd], w, io);
      SetFdKeepsReports(s, reports, fd, g);
      WakesKeepRunnable(SetFd(s, fd, g), w, reports, t);
    }
  }

  lemma ReadyKeepsRunnable(s: Exec, v: int, reports: seq<Report>, t: TaskId)
    requires Busy(s) && ReportsOk(s, reports) && InRunQueue(s, t)
    ensures InRunQueue(FinishReady(s, v, reports), t)
  {
    var u := s.running.value;
    var x := s.tasks[u];
    WakesKeepRunnable(SetTask(s, u, x.(output := Some(v), handleWaker := Noop,
                                       past := x.past.(returned := x.past.returned + [v]))), x.handleWaker, reports, t);
  }

  lemma LoopKeepsRunnable(s: Exec, t: TaskId)
    requires Located(s.queues, s.hist.where) && InRunQueue(s, t)
    ensures Runnable(s)
    ensures s.queues[TopQueue(s)][0] != t ==> InRunQueue(PopRun(s), t)
    ensures Busy(s) ==> InRunQueue(FinishPending(s), t)
  {
    QueuedIsLinked(s, t);
  }

  lemma NextKeepsRunnable(m: Machine, a: Action, t: TaskId)
    requires MachineInv(m) && Enabled(m, a) && InRunQueue(m.exec, t) && !Dequeues(m, a, t)
    ensures InRunQueue(Next(m, a).exec, t)
  {
    match a {
      case Do(e) => ApplyKeepsRunnable(m.exec, e, t);
      case Ready(v, reports) => ReadyKeepsRunnable(m.exec, v, reports, t);
      case CheckEvents(reports) => EventsKeepRunnable(m.exec, reports, t);
      case Wait(reports) => EventsKeepRunnable(m.exec, reports, t);
      case PollNext => LoopKeepsRunnable(m.exec, t);
      case Pend => LoopKeepsRunnable(m.exec, t);
      case _ =>
    }
  }

  lemma {:induction false} StaysRunnable(m: Machine, acts: seq<Action>, t: TaskId)
    requires MachineInv(m) && InRunQueue(m.exec, t) && Valid(m, acts) && Undequeued(m, acts, t)
    ensures MachineInv(Final(m, acts)) && InRunQueue(Final(m, acts).exec, t)
    decreases |acts|
  {
    if acts != [] {
      NextInv(m, acts[0]);
      NextKeepsRunnable(m, acts[0], t);
      StaysRunnable(Next(m, acts[0]), acts[1..], t);
    }
  }

  /** `run` is left by an error, or by replacing the executor. */
  lemma {:induction false} StaysInRun(m: Machine, acts: seq<Action>)
    requires Valid(m, acts) && !m.phase.Outside? && !HasError(acts) && Replace !in acts
    ensures !Final(m, acts).phase.Outside?
    decreases |acts|
  {
    if acts != [] {
      StaysInRun(Next(m, acts[0]), acts[1..]);
    }
  }

  lemma {:induction false} NotReplaced(m: Machine, acts: seq<Action>, t: TaskId)
    requires Valid(m, acts) && Undequeued(m, acts, t)
    ensures Replace !in acts
    decreases |acts|
  {
    if acts != [] {
      NotReplaced(Next(m, acts[0]), acts[1..], t);
    }
  }

  /**
   * A task in a run queue, completed or not, stays there until it is polled, aborted
   * or the executor replaced; and as long as it is there `run` neither blocks, nor
   * leaves its loop but by an error or a shutdown.
   */
  lemma RunnableIsServed(m: Machine, acts: seq<Action>, t: TaskId)
    requires MachineInv(m) && InRunQueue(m.exec, t) && Valid(m, acts) && Undequeued(m, acts, t)
    ensures MachineInv(Final(m, acts)) && InRunQueue(Final(m, acts).exec, t)
    ensures var p := Final(m, acts).phase;
      !p.Waiting? && !p.Idle? && (p.Retiring? ==> Final(m, acts).exec.shutdown)
    ensures !m.phase.Outside? && !HasError(acts) ==> !Final(m, acts).phase.Outside?
  {
    StaysRunnable(m, acts, t);
    LoopKeepsRunnable(Final(m, acts).exec, t);
    NotReplaced(m, acts, t);
    if !m.phase.Outside? && !HasError(acts) {
      StaysInRun(m, acts);
    }
  }

  // ---------------------------------------------------------------- wakes

  /** The action begins a poll of `t`, ends the executor, or aborts `t` when no wake of it is in the pipe. */
  ghost predicate Serves(m: Machine, a: Action, t: TaskId)
    requires Enabled(m, a)
  {
    a == Replace || Polls(m, a, t) || (a == Do(DoAbort(t)) && WakeUp(t) !in m.exec.pipe)
  }

  ghost predicate Unserved(m: Machine, acts: seq<Action>, t: TaskId)
    requires Valid(m, acts)
    decreases |acts|
  {
    acts == [] || (!Serves(m, acts[0], t) && Unserved(Next(m, acts[0]), acts[1..], t))
  }

  /** The wake is remembered. */
  ghost predicate Remembers(x: Task, y: Task) {
    x.past.owed ==> y.past.owed
  }

  lemma ApplyRemembers(s: Exec, e: Effect, t: TaskId)
    requires Allowed(s, e) && t in s.tasks && (e == DoAbort(t) ==> WakeUp(t) in s.pipe)
    ensures t in Apply(s, e).tasks && Remembers(s.tasks[t], Apply(s, e).tasks[t])
  {
    match e {
      case DoSpawn(u, p) =>
        WakeNowWoken(SetTask(s, u, NewTask(p)), u);
      case DoWake(u, reports) => WakeByWoken(s, TaskWaker(u), reports);
      case DoPollFd(fd, dir, w, io, reports) => PollFdRemembers(s, fd, w, io, reports, t);
      case _ =>
    }
  }

  lemma PollFdRemembers(s: Exec, fd: FdId, w: Waker, io: Io, reports: seq<Report>, t: TaskId)
    requires fd in s.fds && ReportsOk(s, reports) && t in s.tasks
    ensures var r := PollFd(s, fd, w, io, reports); t in r.tasks && Remembers(s.tasks[t], r.tasks[t])
  {
    if PollResultOf(s.fds[fd], io) == PollYield {
      var g := PolledFd(s.fds[fd], w, io);
      SetFdKeepsReports(s, reports, fd, g);
      WakeByWoken(SetFd(s, fd, g), w, reports);
    }
  }

  lemma ReadyRemembers(s: Exec, v: int, reports: seq<Report>, t: TaskId)
    requires Busy(s) && ReportsOk(s, reports) && t in s.tasks
    ensures var r := FinishReady(s, v, reports); t in r.tasks && Remembers(s.tasks[t], r.tasks[t])
  {
    var u := s.running.value;
    var x := s.tasks[u];
    var s1 := SetTask(s, u, x.(output := Some(v), handleWaker := Noop,
                               past := x.past.(returned := x.past.returned + [v])));
    WakeByWoken(s1, x.handleWaker, reports);
    assert Woken(s1.tasks[t], WakeBy(s1, x.handleWaker, reports).tasks[t]);
  }

  lemma EventsRemember(s: Exec, reports: seq<Report>, t: TaskId)
    requires ReportsOk(s, reports) && t in s.tasks
    ensures t in EpollWait(s, reports).tasks && Remembers(s.tasks[t], EpollWait(s, reports).tasks[t])
  {
    EpollWaitWoken(s, reports);
    assert Woken(s.tasks[t], EpollWait(s, reports).tasks[t]);
  }

  lemma NextRemembers(m: Machine, a: Action, t: TaskId)
    requires Enabled(m, a) && t in m.exec.tasks && !Serves(m, a, t)
    ensures t in Next(m, a).exec.tasks && Remembers(m.exec.tasks[t], Next(m, a).exec.tasks[t])
  {
    match a {
      case Do(e) => ApplyRemembers(m.exec, e, t);
      case Ready(v, reports) => ReadyRemembers(m.exec, v, reports, t);
      case CheckEvents(reports) => EventsRemember(m.exec, reports, t);
      case Wait(reports) => EventsRemember(m.exec, reports, t);
      case _ =>
    }
  }

  lemma {:induction false} RunRemembers(m: Machine, acts: seq<Action>, t: TaskId)
    requires MachineInv(m) && Valid(m, acts) && t in m.exec.tasks && m.exec.tasks[t].past.owed && Unserved(m, acts, t)
    ensures MachineInv(Final(m, acts))
    ensures t in Final(m, acts).exec.tasks && Final(m, acts).exec.tasks[t].past.owed
    decreases |acts|
  {
    if acts != [] {
      NextInv(m, acts[0]);
      NextRemembers(m, acts[0], t);
      RunRemembers(Next(m, acts[0]), acts[1..], t);
    }
  }

  /**
   * A live, unfinished task is woken on the executor's thread, in any state.  Until it
   * is polled, aborted or the executor replaced it is in its run queue, and `run` can
   * neither block nor leave its loop but by an error or a shutdown; even if the poll in which it
   * was woken was its last.
   */
  lemma LocalWakeLeadsToPoll(m: Machine, t: TaskId, reports: seq<Report>, acts: seq<Action>)
    requires MachineInv(m) && Enabled(m, Do(DoWake(t, reports)))
    requires Upgradable(m.exec, t) && !m.exec.tasks[t].completed
    requires var m1 := Next(m, Do(DoWake(t, reports))); Valid(m1, acts) && Undequeued(m1, acts, t)
    ensures var r := Final(Next(m, Do(DoWake(t, reports))), acts);
      && InRunQueue(r.exec, t) && t in r.exec.tasks && t in r.exec.queues[Rank(r.exec.tasks[t].priority)]
      && !r.phase.Waiting? && !r.phase.Idle? && (r.phase.Retiring? ==> r.exec.shutdown)
      && (!m.phase.Outside? && !HasError(acts) ==> !r.phase.Outside?)
  {
    var m1 := Next(m, Do(DoWake(t, reports)));
    NextInv(m, Do(DoWake(t, reports)));
    LocalWakeLinks(m.exec, t, reports);
    RunnableIsServed(m1, acts, t);
    InvTask(Final(m1, acts).exec, t);
  }

  lemma LocalWakeLinks(s: Exec, t: TaskId, reports: seq<Report>)
    requires Inv(s) && ReportsOk(s, reports) && Upgradable(s, t) && !s.tasks[t].completed
    ensures InRunQueue(WakeLocal(s, t, reports), t)
  {
    if s.running == Some(t) {
      EpollWaitWoken(s, reports);
      EpollWaitInv(s, reports);
      PolledIsAlive(EpollWait(s, reports), t);
      assert Woken(s.tasks[t], EpollWait(s, reports).tasks[t]);
    }
  }

  lemma PolledIsAlive(s: Exec, t: TaskId)
    requires Inv(s) && s.running == Some(t)
    ensures Upgradable(s, t)
  {
    InvTask(s, t);
  }

  /**
   * The same from another thread.  As long as the task is neither polled nor aborted
   * (an abort that leaves the message in the pipe does not count) `run` cannot block,
   * unless the task has finished, or nobody holds it, when the message is read.
   */
  lemma RemoteWakeLeadsToPoll(m: Machine, t: TaskId, acts: seq<Action>)
    requires MachineInv(m) && Enabled(m, Do(RemoteWake(t)))
    requires Upgradable(m.exec, t) && !m.exec.tasks[t].completed
    requires var m1 := Next(m, Do(RemoteWake(t))); Valid(m1, acts) && Unserved(m1, acts, t) && Blocked(Final(m1, acts))
    ensures var s := Final(Next(m, Do(RemoteWake(t))), acts).exec;
      t in s.tasks && (s.tasks[t].completed || s.tasks[t].strong == 0)
  {
    var m1 := Next(m, Do(RemoteWake(t)));
    NextInv(m, Do(RemoteWake(t)));
    RunRemembers(m1, acts, t);
    QuietLosesNothing(Final(m1, acts).exec);
  }

  // ---------------------------------------------------------------- fds

  /** Events fill caches and clear edges; they leave stored wakers alone. */
  ghost predicate SameWakers(s: Exec, r: Exec) {
    && (forall fd :: fd in r.fds <==> fd in s.fds)
    && (forall fd :: fd in s.fds && fd in r.fds ==>
          r.fds[fd].waker == s.fds[fd].waker && r.fds[fd].interest == s.fds[fd].interest)
  }

  lemma {:induction false} EventsKeepWakers(s: Exec, reports: seq<Report>)
    requires ReportsOk(s, reports)
    ensures SameWakers(s, EpollWait(s, reports))
    decreases |reports|
  {
    if reports != [] {
      assert ReportOk(s, reports[0]);
      ProcessKeepsReports(s, reports);
      assert SameWakers(s, Process(s, reports[0]));
      EventsKeepWakers(Process(s, reports[0]), reports[1..]);
    }
  }

  lemma WakesKeepWakers(s: Exec, w: Waker, reports: seq<Report>)
    requires ReportsOk(s, reports)
    ensures SameWakers(s, WakeBy(s, w, reports))
  {
    EventsKeepWakers(s, reports);
  }

  /** `t` aborts itself in its poll when an event is cached on the fd: what `SelfAbortDeafens` is about. */
  ghost predicate SelfAborts(s: Exec, e: Effect, t: TaskId, fd: FdId) {
    e == DoAbort(t) && s.running == Some(t) && fd in s.fds && s.fds[fd].cache != {}
  }

  ghost predicate TouchesFd(e: Effect, fd: FdId) {
    (e.DoPollFd? && e.fd == fd) || e == DoDropFd(fd) || (e.DoNewFd? && e.fd == fd)
  }

  /** The action begins a poll of `t`, is that one kind of abort, polls or drops the fd, or ends the executor. */
  ghost predicate Disturbs(m: Machine, a: Action, t: TaskId, fd: FdId)
    requires Enabled(m, a)
  {
    a == Replace || Polls(m, a, t) || (a.Do? && (SelfAborts(m.exec, a.e, t, fd) || TouchesFd(a.e, fd)))
  }

  /** `t` waits for `fd` and has missed nothing on it. */
  ghost predicate Waits(s: Exec, t: TaskId, fd: FdId) {
    Awaits(s, t, fd) && fd !in s.tasks[t].past.missed
  }

  ghost predicate Undisturbed(m: Machine, acts: seq<Action>, t: TaskId, fd: FdId)
    requires Valid(m, acts)
    decreases |acts|
  {
    acts == [] || (!Disturbs(m, acts[0], t, fd) && Undisturbed(Next(m, acts[0]), acts[1..], t, fd))
  }

  lemma WokenWaits(s: Exec, r: Exec, t: TaskId, fd: FdId)
    requires WokenOnly(s, r) && SameWakers(s, r) && Waits(s, t, fd)
    ensures Waits(r, t, fd) && r.fds[fd].interest == s.fds[fd].interest
  {
    assert Woken(s.tasks[t], r.tasks[t]);
  }

  lemma ApplyKeepWaits(s: Exec, e: Effect, t: TaskId, fd: FdId)
    requires Allowed(s, e) && Waits(s, t, fd)
    requires !SelfAborts(s, e, t, fd) && !TouchesFd(e, fd)
    ensures Waits(Apply(s, e), t, fd) && Apply(s, e).fds[fd].interest == s.fds[fd].interest
  {
    match e {
      case DoSpawn(u, p) =>
        var s1 := SetTask(s, u, NewTask(p));
        WakeNowWoken(s1, u);
        WokenWaits(s1, WakeNow(s1, u), t, fd);
      case DoWake(u, reports) =>
        WakeByWoken(s, TaskWaker(u), reports);
        WakesKeepWakers(s, TaskWaker(u), reports);
        WokenWaits(s, WakeBy(s, TaskWaker(u), reports), t, fd);
      case DoPollFd(g, dir, w, io, reports) => PollFdKeepWaits(s, g, w, io, reports, t, fd);
      case _ =>
    }
  }

  lemma PollFdKeepWaits(s: Exec, g: FdId, w: Waker, io: Io, reports: seq<Report>, t: TaskId, fd: FdId)
    requires g in s.fds && ReportsOk(s, reports) && Waits(s, t, fd) && g != fd
    ensures var r := PollFd(s, g, w, io, reports); Waits(r, t, fd) && r.fds[fd].interest == s.fds[fd].interest
  {
    if PollResultOf(s.fds[g], io) == PollYield {
      var f := PolledFd(s.fds[g], w, io);
      var s1 := SetFd(s, g, f);
      SetFdKeepsReports(s, reports, g, f);
      WakeByWoken(s1, w, reports);
      WakesKeepWakers(s1, w, reports);
      WokenWaits(s1, WakeBy(s1, w, reports), t, fd);
    }
  }

  lemma ReadyKeepWaits(s: Exec, v: int, reports: seq<Report>, t: TaskId, fd: FdId)
    requires Busy(s) && ReportsOk(s, reports) && Waits(s, t, fd)
    ensures var r := FinishReady(s, v, reports); Waits(r, t, fd) && r.fds[fd].interest == s.fds[fd].interest
  {
    var u := s.running.value;
    var x := s.tasks[u];
    var s1 := SetTask(s, u, x.(output := Some(v), handleWaker := Noop,
                               past := x.past.(returned := x.past.returned + [v])));
    WakeByWoken(s1, x.handleWaker, reports);
    WakesKeepWakers(s1, x.handleWaker, reports);
    WokenWaits(s1, WakeBy(s1, x.handleWaker, reports), t, fd);
  }

  lemma NextKeepWaits(m: Machine, a: Action, t: TaskId, fd: FdId)
    requires Enabled(m, a) && Waits(m.exec, t, fd) && !Disturbs(m, a, t, fd)
    ensures Waits(Next(m, a).exec, t, fd) && Next(m, a).exec.fds[fd].interest == m.exec.fds[fd].interest
  {
    match a {
      case Do(e) => ApplyKeepWaits(m.exec, e, t, fd);
      case Ready(v, reports) => ReadyKeepWaits(m.exec, v, reports, t, fd);
      case CheckEvents(reports) =>
        EpollWaitWoken(m.exec, reports);
        EventsKeepWakers(m.exec, reports);
        WokenWaits(m.exec, EpollWait(m.exec, reports), t, fd);
      case Wait(reports) =>
        EpollWaitWoken(m.exec, reports);
        EventsKeepWakers(m.exec, reports);
        WokenWaits(m.exec, EpollWait(m.exec, reports), t, fd);
      case _ =>
    }
  }

  lemma {:induction false} RunKeepWaits(m: Machine, acts: seq<Action>, t: TaskId, fd: FdId)
    requires MachineInv(m) && Valid(m, acts) && Waits(m.exec, t, fd) && Undisturbed(m, acts, t, fd)
    ensures MachineInv(Final(m, acts))
    ensures Waits(Final(m, acts).exec, t, fd) && Final(m, acts).exec.fds[fd].interest == m.exec.fds[fd].interest
    decreases |acts|
  {
    if acts != [] {
      NextInv(m, acts[0]);
      NextKeepWaits(m, acts[0], t, fd);
      RunKeepWaits(Next(m, acts[0]), acts[1..], t, fd);
    }
  }

  lemma PendingWaits(s: Exec, t: TaskId, fd: FdId, dir: Flag, io: Io, reports: seq<Report>)
    requires s.running == Some(t) && t in s.tasks && Allowed(s, DoPollFd(fd, dir, TaskWaker(t), io, reports))
    requires PollResultOf(s.fds[fd], io) == PollPending
    ensures var r := Apply(s, DoPollFd(fd, dir, TaskWaker(t), io, reports));
      Waits(r, t, fd) && r.fds[fd].interest == s.fds[fd].interest
  {
  }

  /**
   * A task polls a single-direction fd and gets Pending for want of an event.  If
   * nobody polls or drops that fd, and the task is neither polled again nor aborts
   * itself with an event cached on the fd, then whenever `run` blocks with the task asleep, the fd is not ready.
   */
  lemma ReadyFdLeadsToPoll(m: Machine, t: TaskId, fd: FdId, dir: Flag, io: Io, reports: seq<Report>, acts: seq<Action>)
    requires MachineInv(m) && m.exec.running == Some(t)
    requires Enabled(m, Do(DoPollFd(fd, dir, TaskWaker(t), io, reports)))
    requires PollResultOf(m.exec.fds[fd], io) == PollPending && SingleDirection(m.exec.fds[fd])
    requires var m1 := Next(m, Do(DoPollFd(fd, dir, TaskWaker(t), io, reports)));
      Valid(m1, acts) && Undisturbed(m1, acts, t, fd) && Blocked(Final(m1, acts))
    ensures var s := Final(Next(m, Do(DoPollFd(fd, dir, TaskWaker(t), io, reports))), acts).exec;
      t in s.tasks && fd in s.fds && (t in s.queues[SLEEP] && !s.tasks[t].completed ==> s.fds[fd].ready == {})
  {
    var a := Do(DoPollFd(fd, dir, TaskWaker(t), io, reports));
    var m1 := Next(m, a);
    NextInv(m, a);
    PendingWaits(m.exec, t, fd, dir, io, reports);
    RunKeepWaits(m1, acts, t, fd);
    QuietLosesNothing(Final(m1, acts).exec);
  }
}
