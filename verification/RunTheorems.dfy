/** What a caller of `run` may rely on, over every run of the machine. */
module RunTheorems {
  import opened Types
  import opened QueueSpec
  import opened ExecState
  import opened ExecInv
  import opened RunLoop

  // ---------------------------------------------------------------- no lost wakeup

  /** The kernel has nothing to report: an untimed epoll_wait really blocks. */
  ghost predicate Quiet(s: Exec) {
    && s.buffer > 0 && s.pipe == []
    && (forall fd :: fd in s.fds ==> !s.fds[fd].edge || s.fds[fd].ready == {})
  }

  ghost predicate Blocked(m: Machine) { m.phase.Waiting? && Quiet(m.exec) }

  /** Being quiet is exactly having no report the kernel could make. */
  lemma QuietMeansNoReport(s: Exec)
    requires s.buffer > 0
    ensures Quiet(s) <==> forall r :: !ReportOk(s, r)
  {
    if forall r :: !ReportOk(s, r) {
      assert !ReportOk(s, PipeReport);
      forall fd | fd in s.fds ensures !s.fds[fd].edge || s.fds[fd].ready == {} {
        assert !ReportOk(s, FdReport(fd, s.fds[fd].ready));
      }
    }
  }

  /** Nothing that could make progress is left behind. */
  ghost predicate NothingLost(s: Exec) {
    // no task waits for an fd that is ready, unless it missed the event by aborting itself
    && (forall t, fd ::
          (t in s.queues[SLEEP] && Awaits(s, t, fd) && !s.tasks[t].completed && SingleDirection(s.fds[fd])
           && fd !in s.tasks[t].past.missed
           ==> s.fds[fd].ready == {}))
    // every wake, local or from another thread, has been followed by a poll of its task
    && (forall t :: t in s.tasks && s.tasks[t].past.owed ==> s.tasks[t].completed || s.tasks[t].strong == 0)
    // nobody waits on a handle whose output is available
    && (forall t :: t in s.tasks && s.tasks[t].output.Some? ==> s.tasks[t].handleWaker == Noop)
    // every unfinished task that was not aborted is asleep, and nowhere else
    && (forall t :: t in s.tasks && !s.tasks[t].completed && !s.tasks[t].past.aborted ==> t in s.queues[SLEEP])
  }

  lemma QuietLosesNothing(s: Exec)
    requires Inv(s) && Quiet(s) && !Runnable(s) && s.running == None
    ensures NothingLost(s)
  {
    NoneRunnable(s);
    forall t | t in s.tasks
      ensures s.tasks[t].past.owed ==> s.tasks[t].completed || s.tasks[t].strong == 0
      ensures !s.tasks[t].completed && !s.tasks[t].past.aborted ==> t in s.queues[SLEEP]
      ensures s.tasks[t].output.Some? ==> s.tasks[t].handleWaker == Noop
    {
      assert TaskOk(s.tasks[t], Place(s, t), IsRunning(s, t));
      assert OutputOk(s.tasks[t]);
      assert s.tasks[t].past.owed ==> WakeInFlight(s, t);
    }
    forall t, fd | t in s.queues[SLEEP] && Awaits(s, t, fd) && !s.tasks[t].completed && SingleDirection(s.fds[fd])
                   && fd !in s.tasks[t].past.missed
      ensures s.fds[fd].ready == {}
    {
      assert IsAsleep(s, t) && Dormant(s, t);
      assert Attentive(s, t, fd);
    }
  }

  lemma NoneRunnable(s: Exec)
    requires Inv(s) && !Runnable(s)
    ensures forall t :: IsLinked(s, t) <==> t in s.queues[SLEEP]
    ensures forall t :: IsLinked(s, t) <==> IsAsleep(s, t)
  {
    forall t ensures IsLinked(s, t) <==> t in s.queues[SLEEP] {
      QueuedIsLinked(s, t);
    }
  }

  /** Whenever `run` blocks, in any program run, no wakeup has been lost. */
  lemma NoLostWakeup(acts: seq<Action>)
    requires Valid(Initial(), acts) && Blocked(Final(Initial(), acts))
    ensures NothingLost(Final(Initial(), acts).exec)
  {
    Reachable(acts);
    QuietLosesNothing(Final(Initial(), acts).exec);
  }

  /** An event for a dormant task is never dropped: the task becomes the newest of its run queue. */
  lemma EventWakesDormant(s: Exec, t: TaskId, fd: FdId, flags: set<Flag>)
    requires Inv(s) && Awaits(s, t, fd) && !s.tasks[t].completed && Dormant(s, t) && fd !in s.tasks[t].past.missed
    requires ReportOk(s, FdReport(fd, flags))
    ensures var r := Process(s, FdReport(fd, flags));
      var q := Rank(s.tasks[t].priority);
      && r.queues[q] == Without(s.queues[q], t) + [t]
      && r.tasks[t].past.owed && r.fds[fd].cache == flags
  {
    InvTask(s, t);
    assert Attentive(s, t, fd);
    assert flags == {} + flags;
  }

  /** Exactly the events that are not cached yet and whose stored waker is a live unfinished task's enqueue one. */
  lemma EventEnqueuesIff(s: Exec, fd: FdId, flags: set<Flag>)
    requires fd in s.fds
    ensures var f := s.fds[fd]; var r := DeliverFd(s, fd, flags);
      && (r.hist.log != s.hist.log <==>
            !(flags <= f.cache) && f.waker.TaskWaker? && Upgradable(s, f.waker.task) && !s.tasks[f.waker.task].completed)
      && (r.hist.log == s.hist.log ==> r.queues == s.queues)
      && fd in r.fds && r.fds[fd].cache == f.cache + flags && !r.fds[fd].edge
  {
    var f := s.fds[fd];
    if flags <= f.cache {
      assert f.cache + flags == f.cache;
    } else if f.waker.TaskWaker? {
      var n := |s.hist.log|;
      assert forall op :: |s.hist.log + [op]| == n + 1;
    }
  }

  /** In every reachable state the cache of a single-direction fd agrees with the kernel. */
  lemma CacheAgreesWithKernel(acts: seq<Action>, fd: FdId)
    requires Valid(Initial(), acts)
    requires var s := Final(Initial(), acts).exec; fd in s.fds && SingleDirection(s.fds[fd])
    ensures var f := Final(Initial(), acts).exec.fds[fd]; f.ready <= f.cache || f.edge
  {
    Reachable(acts);
  }

  /** An event with these flags on `fd` would put `t` into its run queue. */
  ghost predicate Hears(s: Exec, t: TaskId, fd: FdId, flags: set<Flag>)
    requires t in s.tasks && fd in s.fds
  {
    t in DeliverFd(s, fd, flags).queues[Rank(s.tasks[t].priority)]
  }

  ghost predicate HearsAll(s: Exec, t: TaskId, fd: FdId)
    requires t in s.tasks && fd in s.fds
  {
    forall flags :: flags != {} ==> Hears(s, t, fd, flags)
  }

  lemma HearsAllIff(s: Exec, t: TaskId, fd: FdId)
    requires Awaits(s, t, fd) && !s.tasks[t].completed && Upgradable(s, t) && t !in s.queues[Rank(s.tasks[t].priority)]
    ensures HearsAll(s, t, fd) <==> s.fds[fd].cache == {}
  {
    if s.fds[fd].cache == {} {
      forall flags: set<Flag> | flags != {} ensures Hears(s, t, fd, flags) {
        assert !(flags <= s.fds[fd].cache);
      }
    } else {
      assert DeliverFd(s, fd, s.fds[fd].cache).queues == s.queues;
      assert !Hears(s, t, fd, s.fds[fd].cache);
    }
  }

  lemma SleeperIsAlive(s: Exec, t: TaskId)
    requires Inv(s) && t in s.queues[SLEEP] && t in s.tasks
    ensures IsAsleep(s, t) && Dormant(s, t) && Upgradable(s, t) && t !in s.queues[Rank(s.tasks[t].priority)]
  {
    InvTask(s, t);
  }

  /**
   * In every reachable state a sleeping task hears of every event on an fd it waits
   * for, exactly if it did not miss one by aborting itself.
   */
  lemma SleepersHear(acts: seq<Action>, t: TaskId, fd: FdId)
    requires Valid(Initial(), acts)
    requires var s := Final(Initial(), acts).exec; t in s.queues[SLEEP] && Awaits(s, t, fd) && !s.tasks[t].completed
    ensures var s := Final(Initial(), acts).exec;
      && Upgradable(s, t)
      && (s.fds[fd].cache == {} <==> fd !in s.tasks[t].past.missed)
      && (HearsAll(s, t, fd) <==> fd !in s.tasks[t].past.missed)
  {
    Reachable(acts);
    var s := Final(Initial(), acts).exec;
    SleeperIsAlive(s, t);
    assert Attentive(s, t, fd);
    HearsAllIff(s, t, fd);
  }

  /**
   * What an abort takes away.  A task that waits for `fd`, aborts itself in that poll
   * and returns Pending goes to sleep all the same.  It hears of every later event on
   * `fd` if and only if none was cached when it aborted itself; and one can only be
   * cached then if the event linked the task during the poll (or if this is not the
   * first time in the poll that it misses one).
   */
  lemma SelfAbortDeafens(s: Exec, t: TaskId, fd: FdId)
    requires Inv(s) && s.running == Some(t) && t in s.tasks && !s.tasks[t].completed && s.tasks[t].handle
    requires Awaits(s, t, fd)
    ensures var r := FinishPending(Abort(s, t));
      && t in r.queues[SLEEP] && Awaits(r, t, fd)
      && (HearsAll(r, t, fd) <==> s.fds[fd].cache == {})
    ensures s.fds[fd].cache != {} ==> InRunQueue(s, t) || fd in s.tasks[t].past.missed
  {
    InvTask(s, t);
    AbortInv(s, t);
    AbortedSleeps(s, t);
    FinishPendingInv(Abort(s, t));
    SleeperIsAlive(FinishPending(Abort(s, t)), t);
    HearsAllIff(FinishPending(Abort(s, t)), t, fd);
    if !IsLinked(s, t) {
      assert Dormant(s, t) && Attentive(s, t, fd);
    }
  }

  /**
   * The same of any abort: the task, which is in no queue then, hears of every later
   * event on `fd` if and only if none was cached at the abort.  One can only be cached
   * then if the task is in its run queue, or missed it by an earlier abort.
   */
  lemma AbortDeafens(s: Exec, t: TaskId, fd: FdId)
    requires Inv(s) && t in s.tasks && !s.tasks[t].completed && s.tasks[t].handle && Awaits(s, t, fd)
    ensures var r := Abort(s, t);
      Awaits(r, t, fd) && !IsQueued(r, t) && (HearsAll(r, t, fd) <==> s.fds[fd].cache == {})
    ensures s.fds[fd].cache != {} ==>
              InRunQueue(s, t) || fd in s.tasks[t].past.missed || (!IsLinked(s, t) && !IsRunning(s, t))
  {
    InvTask(s, t);
    AbortInv(s, t);
    InvTask(Abort(s, t), t);
    HearsAllIff(Abort(s, t), t, fd);
    if Dormant(s, t) {
      assert Attentive(s, t, fd);
    }
  }

  lemma AbortedSleeps(s: Exec, t: TaskId)
    requires s.running == Some(t) && t in s.tasks
    ensures var r := FinishPending(Abort(s, t));
      && t in r.queues[SLEEP] && r.fds == s.fds && t in r.tasks
      && r.tasks[t].completed == s.tasks[t].completed && r.tasks[t].past.pendingOn == s.tasks[t].past.pendingOn
  {
    assert !IsQueued(Abort(s, t), t);
  }

  // ---------------------------------------------------------------- two directions

  /**
   * What a WouldBlock does to the cache is harmless exactly for fds registered
   * for one direction: only then does the cache agree with the kernel afterwards
   * whatever the kernel's state.
   */
  lemma WouldBlockKeepsCoherence(interest: set<Flag>, dir: Flag, w: Waker)
    requires dir in interest * {In, Out}
    ensures !(In in interest && Out in interest) <==>
            forall f: Fd | f.interest == interest && f.ready <= interest + {Hup} && Coherent(f) && IoOk(f, dir, WouldBlock)
              :: Coherent(PolledFd(f, w, WouldBlock))
  {
    if !(In in interest && Out in interest) {
      forall f: Fd | f.interest == interest && f.ready <= interest + {Hup} && Coherent(f) && IoOk(f, dir, WouldBlock)
        ensures Coherent(PolledFd(f, w, WouldBlock))
      {
        PolledFdCoherent(f, w, dir, WouldBlock);
      }
    } else {
      var other := if dir == In then Out else In;
      var f := Fd(interest, {In, Out}, 0, Noop, {other}, false);
      assert Coherent(f) && IoOk(f, dir, WouldBlock);
      assert other in PolledFd(f, w, WouldBlock).ready;
      assert !Coherent(PolledFd(f, w, WouldBlock));
    }
  }

  // ---------------------------------------------------------------- nothing is forgotten

  /**
   * The partition: an unfinished task that was not aborted is being polled, in
   * the run queue of its priority, or asleep; at most one of polled and asleep,
   * and in one queue at most.
   */
  lemma Partition(acts: seq<Action>, t: TaskId)
    requires Valid(Initial(), acts)
    requires var s := Final(Initial(), acts).exec; t in s.tasks && !s.tasks[t].completed && !s.tasks[t].past.aborted
    ensures var s := Final(Initial(), acts).exec;
      && (IsRunning(s, t) || t in s.queues[Rank(s.tasks[t].priority)] || t in s.queues[SLEEP])
      && !(IsRunning(s, t) && t in s.queues[SLEEP])
      && (forall i, j :: 0 <= i < 4 && 0 <= j < 4 && t in s.queues[i] && t in s.queues[j] ==> i == j)
      && (forall i :: 0 <= i < 4 && t in s.queues[i] ==> i == SLEEP || i == Rank(s.tasks[t].priority))
  {
    Reachable(acts);
    var s := Final(Initial(), acts).exec;
    InvTask(s, t);
  }

  /** The queues own one strong reference to a linked task and none to others, over every run. */
  lemma ReferencesAreConserved(acts: seq<Action>, t: TaskId)
    requires Valid(Initial(), acts) && t in Final(Initial(), acts).exec.tasks
    ensures var s := Final(Initial(), acts).exec;
      s.tasks[t].strong == Bit(s.tasks[t].handle) + Bit(IsQueued(s, t)) + Bit(IsRunning(s, t))
  {
    Reachable(acts);
    InvTask(Final(Initial(), acts).exec, t);
  }

  /** When `run` leaves its loop without a shutdown, every task has completed or was aborted. */
  lemma RunCompletesTasks(acts: seq<Action>)
    requires Valid(Initial(), acts)
    requires Final(Initial(), acts).phase.Retiring? && !Final(Initial(), acts).exec.shutdown
    ensures var s := Final(Initial(), acts).exec;
      forall t :: t in s.tasks ==> s.tasks[t].completed || s.tasks[t].past.aborted
  {
    Reachable(acts);
    var s := Final(Initial(), acts).exec;
    NoneRunnable(s);
    forall t | t in s.tasks ensures s.tasks[t].completed || s.tasks[t].past.aborted {
      assert t !in s.queues[SLEEP] && !IsLinked(s, t);
      assert TaskOk(s.tasks[t], Place(s, t), IsRunning(s, t));
    }
  }

  /** `run` waits only while some task sleeps. */
  lemma WaitsForSleepers(acts: seq<Action>)
    requires Valid(Initial(), acts) && Final(Initial(), acts).phase.Waiting?
    ensures Final(Initial(), acts).exec.queues[SLEEP] != []
  {
    Reachable(acts);
  }

  /** The steps that the loop itself takes. */
  ghost function OwnSteps(acts: seq<Action>): nat {
    if acts == [] then 0 else (if acts[0].Do? then 0 else 1) + OwnSteps(acts[1..])
  }

  /**
   * And it returns when none is left: if no task is linked when `run` asks for one, then
   * its second step from there is the last of the loop, whatever fds are open and
   * whatever the kernel and other threads do; it neither polls nor waits.
   */
  lemma {:induction false} EmptyLoopEnds(m: Machine, acts: seq<Action>)
    requires MachineInv(m) && Valid(m, acts) && m.exec.queues == [[], [], [], []]
    requires m.phase.Select? || m.phase.Idle? || m.phase.Retiring?
    requires OwnSteps(acts) <= (if m.phase.Select? then 2 else if m.phase.Idle? then 1 else 0)
    ensures var r := Final(m, acts); var n := OwnSteps(acts) + (if m.phase.Select? then 0 else if m.phase.Idle? then 1 else 2);
      && r.exec.queues == [[], [], [], []] && r.exec.shutdown == m.exec.shutdown
      && r.phase == if n == 0 then Select else if n == 1 then Idle else Retiring
    decreases |acts|
  {
    if acts != [] {
      NextInv(m, acts[0]);
      if acts[0].Do? {
        ExternalKeepsQueues(m.exec, acts[0].e);
      }
      EmptyLoopEnds(Next(m, acts[0]), acts[1..]);
    }
  }

  /**
   * When the replaced executor's queues have given up their references, and before any
   * destructor of a task has run, only handles keep its tasks alive.
   */
  lemma ReplacementReleasesTasks(acts: seq<Action>)
    requires Valid(Initial(), acts) && Final(Initial(), acts).phase.Retiring?
    ensures var m := Final(Initial(), acts); var r := Next(m, Replace);
      && r.exec == Fresh() && r.retired.Some?
      && r.retired.value.tasks.Keys == m.exec.tasks.Keys
      && (forall t :: t in m.exec.tasks ==> !IsQueued(r.retired.value, t))
      && (forall t :: t in m.exec.tasks ==> r.retired.value.tasks[t].strong == Bit(m.exec.tasks[t].handle))
  {
    Reachable(acts);
    DroppedCounts(Final(Initial(), acts).exec);
    assert Next(Final(Initial(), acts), Replace) ==
           Machine(Outside, Fresh(), Some(DropQueues(Final(Initial(), acts).exec)));
  }

  lemma DroppedCounts(s: Exec)
    requires Inv(s) && s.running == None
    ensures DropQueues(s).tasks.Keys == s.tasks.Keys && forall t :: !IsQueued(DropQueues(s), t)
    ensures forall t :: t in s.tasks ==> DropQueues(s).tasks[t].strong == Bit(s.tasks[t].handle)
  {
    forall t | t in s.tasks ensures DropQueues(s).tasks[t].strong == Bit(s.tasks[t].handle) {
      InvTask(s, t);
    }
  }

  // ---------------------------------------------------------------- shutdown

  ghost function Pops(acts: seq<Action>): nat {
    if acts == [] then 0 else (if acts[0] == PollNext then 1 else 0) + Pops(acts[1..])
  }

  /** Once the flag is set during a poll of this `run`, no further poll begins; if set before, one at most. */
  lemma {:induction false} ShutdownStopsPolling(m: Machine, acts: seq<Action>)
    requires MachineInv(m) && Valid(m, acts) && Start !in acts
    requires m.exec.shutdown || m.phase.Outside? || m.phase.Retiring?
    ensures m.phase.Polling? || m.phase.Polled? || m.phase.Outside? || m.phase.Retiring? ==> Pops(acts) == 0
    ensures Pops(acts) <= 1
    decreases |acts|
  {
    if acts != [] {
      var m' := Next(m, acts[0]);
      NextInv(m, acts[0]);
      KeepsShutdown(m, acts[0]);
      assert acts[0] in acts;
      ShutdownStopsPolling(m', acts[1..]);
    }
  }

  lemma KeepsShutdown(m: Machine, a: Action)
    requires MachineInv(m) && Enabled(m, a)
    ensures m.exec.shutdown && a != Replace ==> Next(m, a).exec.shutdown
  {
    match a {
      case Do(e) => ApplyUndisturbed(m.exec, e);
      case Ready(v, reports) => FinishReadyFate(m.exec, v, reports);
      case CheckEvents(reports) => EpollWaitWoken(m.exec, reports);
      case Wait(reports) => EpollWaitWoken(m.exec, reports);
      case _ =>
    }
  }

  /** A shutdown that is asked for in a poll of this `run`: no further poll begins. */
  lemma ShutdownEndsRun(m: Machine, rest: seq<Action>)
    requires MachineInv(m) && (m.phase.Polling? || m.phase.Polled?) && Valid(m, [Do(DoShutdown)] + rest) && Start !in rest
    ensures Pops(rest) == 0
  {
    assert ([Do(DoShutdown)] + rest)[1..] == rest;
    NextInv(m, Do(DoShutdown));
    ShutdownStopsPolling(Next(m, Do(DoShutdown)), rest);
  }

  /** An error ends this `run` too. */
  lemma ErrorEndsRun(m: Machine, a: Action, rest: seq<Action>)
    requires MachineInv(m) && (a == CheckFails || a == WaitFails || a == ReplaceFails)
    requires Valid(m, [a] + rest) && Start !in rest
    ensures Pops(rest) == 0
  {
    assert ([a] + rest)[1..] == rest;
    NextInv(m, a);
    ShutdownStopsPolling(Next(m, a), rest);
  }

  /** A shutdown asked for before `run`: one task, if there is a runnable one, is polled all the same. */
  lemma ShutdownBeforeRun(m: Machine, rest: seq<Action>)
    requires MachineInv(m) && m.phase.Outside? && m.exec.shutdown && Runnable(m.exec)
    requires Valid(m, [Start] + rest) && Start !in rest && Final(m, [Start] + rest).phase.Retiring?
    ensures Pops(rest) == 1
  {
    assert ([Start] + rest)[1..] == rest;
    NextInv(m, Start);
    OneIsPolled(Next(m, Start), rest);
  }

  lemma {:induction false} OneIsPolled(m: Machine, acts: seq<Action>)
    requires MachineInv(m) && m.phase.Select? && m.exec.shutdown && Runnable(m.exec)
    requires Valid(m, acts) && Start !in acts && Final(m, acts).phase.Retiring?
    ensures Pops(acts) == 1
    decreases |acts|
  {
    NextInv(m, acts[0]);
    KeepsShutdown(m, acts[0]);
    if acts[0] == PollNext {
      ShutdownStopsPolling(Next(m, acts[0]), acts[1..]);
    } else {
      ExternalKeepsQueues(m.exec, acts[0].e);
      OneIsPolled(Next(m, acts[0]), acts[1..]);
    }
  }

  /** Any abort, of a completed task too, unlinks the task and gives its queue's reference back; the others keep their order. */
  lemma AbortUnlinks(s: Exec, t: TaskId)
    requires Inv(s) && t in s.tasks && s.tasks[t].handle
    ensures var r := Abort(s, t);
      && !IsQueued(r, t) && t in r.tasks && r.tasks[t].strong == 1 + Bit(s.running == Some(t))
      && (forall j :: 0 <= j < 4 ==> r.queues[j] == Without(s.queues[j], t))
      && (forall u :: u in s.tasks && u != t ==> u in r.tasks && r.tasks[u] == s.tasks[u])
  {
    InvTask(s, t);
    AbortInv(s, t);
    InvTask(Abort(s, t), t);
  }

  // ---------------------------------------------------------------- the wake-up pipe

  /** Messages come out in the order they went in, each once. */
  lemma PipeIsFifo(acts: seq<Action>)
    requires Valid(Initial(), acts)
    ensures var s := Final(Initial(), acts).exec;
      s.hist.received <= s.hist.sent && s.pipe == s.hist.sent[|s.hist.received|..]
  {
    Reachable(acts);
  }

  /** One event check reads one message if the pipe is among its reports, and none otherwise. */
  lemma {:induction false} CheckReadsOnce(s: Exec, reports: seq<Report>)
    requires ReportsOk(s, reports)
    ensures EpollWait(s, reports).hist.received ==
            s.hist.received + (if PipeReport in reports then [s.pipe[0]] else [])
    decreases |reports|
  {
    if reports != [] {
      var s' := Process(s, reports[0]);
      assert ReportOk(s, reports[0]);
      ProcessKeepsReports(s, reports);
      CheckReadsOnce(s', reports[1..]);
      assert reports == [reports[0]] + reports[1..];
      if reports[0] == PipeReport {
        forall i | 0 <= i < |reports[1..]| ensures reports[1..][i] != PipeReport {
          assert reports[0] != reports[i + 1];
        }
      }
    }
  }

  /** A message that names a live, incomplete task leaves it the newest entry of its run queue. */
  lemma MessageEnqueues(s: Exec, t: TaskId)
    requires Inv(s) && s.pipe != [] && s.pipe[0] == WakeUp(t)
    requires Upgradable(s, t) && !s.tasks[t].completed
    ensures var r := Process(s, PipeReport); var q := Rank(s.tasks[t].priority);
      && r.queues[q] == Without(s.queues[q], t) + [t]
      && (forall j :: 0 <= j < 4 && j != q ==> r.queues[j] == Without(s.queues[j], t))
      && r.pipe == s.pipe[1..]
  {
  }

  // ---------------------------------------------------------------- the event buffer

  /** The empty-buffer early return is out of reach exactly while no foreign Fd was dropped here. */
  lemma BufferMatchesFds(acts: seq<Action>)
    requires Valid(Initial(), acts)
    ensures var s := Final(Initial(), acts).exec;
      && (s.buffer == 1 + |s.fds| <==> !s.hist.lateDrop)
      && (!s.hist.lateDrop ==> s.buffer > 0)
  {
    Reachable(acts);
  }

  lemma ApplyStaysDeaf(s: Exec, e: Effect)
    requires Allowed(s, e) && s.buffer == 0 && !(e.DoNewFd? && e.registered)
    ensures Apply(s, e).buffer == 0 && Apply(s, e).hist.received == s.hist.received
  {
    match e {
      case DoPollFd(fd, dir, w, io, reports) =>
        if PollResultOf(s.fds[fd], io) == PollYield {
          SetFdKeepsReports(s, reports, fd, PolledFd(s.fds[fd], w, io));
        }
      case _ =>
    }
  }

  lemma NextStaysDeaf(m: Machine, a: Action)
    requires m.exec.buffer == 0 && Enabled(m, a) && a != Replace
    requires !(a.Do? && a.e.DoNewFd? && a.e.registered)
    ensures Next(m, a).exec.buffer == 0 && Next(m, a).exec.hist.received == m.exec.hist.received
  {
    if a.Do? {
      ApplyStaysDeaf(m.exec, a.e);
    }
  }

  /**
   * With an empty buffer the executor is deaf: until an fd is registered or the
   * executor replaced, no event check and no wait of any run reads a message.
   */
  lemma {:induction false} DeafWithoutBuffer(m: Machine, acts: seq<Action>)
    requires m.exec.buffer == 0 && Valid(m, acts) && Replace !in acts
    requires forall i :: 0 <= i < |acts| ==> !(acts[i].Do? && acts[i].e.DoNewFd? && acts[i].e.registered)
    ensures Final(m, acts).exec.buffer == 0 && Final(m, acts).exec.hist.received == m.exec.hist.received
    decreases |acts|
  {
    if acts != [] {
      NextStaysDeaf(m, acts[0]);
      DeafWithoutBuffer(Next(m, acts[0]), acts[1..]);
    }
  }

  /** One late drop is enough: a program that begins with it, and registers no fd, reads no message of another thread. */
  lemma LateDropDeafens(m: Machine, acts: seq<Action>)
    requires m == Next(Initial(), Do(DoDropForeignFd)) && Valid(m, acts) && Replace !in acts
    requires forall i :: 0 <= i < |acts| ==> !(acts[i].Do? && acts[i].e.DoNewFd? && acts[i].e.registered)
    ensures Final(m, acts).exec.hist.received == []
  {
    DropOnFresh();
    DeafWithoutBuffer(m, acts);
  }

  lemma DropOnFresh()
    ensures var s := Next(Initial(), Do(DoDropForeignFd)).exec; s.buffer == 0 && s.hist.received == []
  {
  }

  // ---------------------------------------------------------------- the Pending contract

  /**
   * Whenever an fd poll by a task reads as Pending, either the cache was left empty
   * with the task's waker stored, or the task is the newest entry of its run queue.
   */
  lemma PendingContract(s: Exec, t: TaskId, fd: FdId, dir: Flag, io: Io, reports: seq<Report>)
    requires Inv(s) && s.running == Some(t) && !s.tasks[t].completed
    requires Allowed(s, DoPollFd(fd, dir, TaskWaker(t), io, reports))
    requires PollResultOf(s.fds[fd], io) != PollReady
    ensures var r := Apply(s, DoPollFd(fd, dir, TaskWaker(t), io, reports));
      var q := Rank(s.tasks[t].priority);
      || (fd in r.fds && r.fds[fd].cache == {} && Awaits(r, t, fd))
      || (r.queues[q] != [] && r.queues[q][|r.queues[q]| - 1] == t)
  {
    InvTask(s, t);
    if PollResultOf(s.fds[fd], io) == PollYield {
      var g := PolledFd(s.fds[fd], TaskWaker(t), io);
      var s1 := SetFd(s, fd, g);
      SetFdKeepsReports(s, reports, fd, g);
      PolledFdCoherent(s.fds[fd], TaskWaker(t), dir, io);
      SetFdArmed(s, fd, g);
      SetFdInv(s, fd, g);
      SelfWakeGoesLast(s1, t, reports);
    }
  }

  /** A task that wakes itself while polled lands behind everything its event check enqueued. */
  lemma SelfWakeGoesLast(s: Exec, t: TaskId, reports: seq<Report>)
    requires Inv(s) && s.running == Some(t) && !s.tasks[t].completed && ReportsOk(s, reports)
    ensures var r := WakeLocal(s, t, reports); var q := Rank(s.tasks[t].priority);
      && r.hist.log == EpollWait(s, reports).hist.log + [Pushed(t, q)]
      && r.queues[q] == Without(EpollWait(s, reports).queues[q], t) + [t]
  {
    InvTask(s, t);
    EpollWaitWoken(s, reports);
    EpollWaitInv(s, reports);
    assert Woken(s.tasks[t], EpollWait(s, reports).tasks[t]);
    InvTask(EpollWait(s, reports), t);
  }
}
