/** What a caller of a task's `Handle` may rely on, over every run of the machine. */
module HandleTheorems {
  import opened Types
  import opened ExecState
  import opened ExecInv
  import opened RunLoop

  /**
   * What a handle has given out, and the value it has on offer, are among the values
   * that the future returned, in that order; the one on offer is the latest.  A task
   * that was not linked when it completed returned one value, and that one is given
   * out, once, or on offer.
   */
  lemma HandleDelivers(acts: seq<Action>, t: TaskId)
    requires Valid(Initial(), acts) && t in Final(Initial(), acts).exec.tasks
    ensures var x := Final(Initial(), acts).exec.tasks[t];
      && Subseq(Given(x.output, x.past.taken), x.past.returned)
      && (x.output.Some? ==> x.past.returned != [] && x.output.value == x.past.returned[|x.past.returned| - 1])
      && (!x.past.late ==>
            && |x.past.returned| == Bit(x.completed) && |x.past.taken| <= 1 && x.past.taken <= x.past.returned
            && (x.completed && x.past.taken == [] ==> x.output == Some(x.past.returned[0])))
  {
    Reachable(acts);
    assert OutputOk(Final(Initial(), acts).exec.tasks[t]);
  }

  /** The waker kept in a task for whoever awaits its handle, and its output cell. */
  ghost predicate SameSlot(x: Task, y: Task) {
    y.handleWaker == x.handleWaker && y.output == x.output
  }

  /** The action concerns the handle or the completion of `t`, or ends the executor. */
  ghost predicate Touches(m: Machine, a: Action, t: TaskId) {
    || a == Replace
    || (a.Do? && a.e.DoPollHandle? && a.e.t == t)
    || (a.Ready? && m.exec.running == Some(t))
  }

  lemma ApplyKeepsSlot(s: Exec, e: Effect, t: TaskId)
    requires Allowed(s, e) && t in s.tasks && !(e.DoPollHandle? && e.t == t)
    ensures t in Apply(s, e).tasks && SameSlot(s.tasks[t], Apply(s, e).tasks[t])
  {
    match e {
      case DoSpawn(u, p) =>
        WakeNowWoken(SetTask(s, u, NewTask(p)), u);
      case DoWake(u, reports) => WakeByWoken(s, TaskWaker(u), reports);
      case DoPollFd(fd, dir, w, io, reports) => PollFdKeepsSlot(s, fd, w, io, reports, t);
      case _ =>
    }
  }

  lemma PollFdKeepsSlot(s: Exec, fd: FdId, w: Waker, io: Io, reports: seq<Report>, t: TaskId)
    requires fd in s.fds && ReportsOk(s, reports) && t in s.tasks
    ensures var r := PollFd(s, fd, w, io, reports); t in r.tasks && SameSlot(s.tasks[t], r.tasks[t])
  {
    if PollResultOf(s.fds[fd], io) == PollYield {
      var g := PolledFd(s.fds[fd], w, io);
      SetFdKeepsReports(s, reports, fd, g);
      WakeByWoken(SetFd(s, fd, g), w, reports);
    }
  }

  lemma ReadyKeepsSlot(s: Exec, v: int, reports: seq<Report>, t: TaskId)
    requires Busy(s) && ReportsOk(s, reports) && t in s.tasks && t != s.running.value
    ensures var r := FinishReady(s, v, reports); t in r.tasks && SameSlot(s.tasks[t], r.tasks[t])
  {
    var u := s.running.value;
    var x := s.tasks[u];
    var s1 := SetTask(s, u, x.(output := Some(v), handleWaker := Noop,
                               past := x.past.(returned := x.past.returned + [v])));
    WakeByWoken(s1, x.handleWaker, reports);
    assert Woken(s1.tasks[t], WakeBy(s1, x.handleWaker, reports).tasks[t]);
  }

  lemma EventsKeepSlot(s: Exec, reports: seq<Report>, t: TaskId)
    requires ReportsOk(s, reports) && t in s.tasks
    ensures t in EpollWait(s, reports).tasks && SameSlot(s.tasks[t], EpollWait(s, reports).tasks[t])
  {
    EpollWaitWoken(s, reports);
    assert Woken(s.tasks[t], EpollWait(s, reports).tasks[t]);
  }

  lemma LoopKeepsSlot(s: Exec, t: TaskId)
    requires t in s.tasks
    ensures Runnable(s) ==> t in PopRun(s).tasks && SameSlot(s.tasks[t], PopRun(s).tasks[t])
    ensures Busy(s) ==> t in FinishPending(s).tasks && SameSlot(s.tasks[t], FinishPending(s).tasks[t])
  {
  }

  lemma NextKeepsSlot(m: Machine, a: Action, t: TaskId)
    requires Enabled(m, a) && t in m.exec.tasks && !Touches(m, a, t)
    ensures t in Next(m, a).exec.tasks && SameSlot(m.exec.tasks[t], Next(m, a).exec.tasks[t])
  {
    match a {
      case Do(e) => ApplyKeepsSlot(m.exec, e, t);
      case Ready(v, reports) => ReadyKeepsSlot(m.exec, v, reports, t);
      case CheckEvents(reports) => EventsKeepSlot(m.exec, reports, t);
      case Wait(reports) => EventsKeepSlot(m.exec, reports, t);
      case PollNext => LoopKeepsSlot(m.exec, t);
      case Pend => LoopKeepsSlot(m.exec, t);
      case _ =>
    }
  }

  ghost predicate Untouched(m: Machine, acts: seq<Action>, t: TaskId)
    requires Valid(m, acts)
    decreases |acts|
  {
    acts == [] || (!Touches(m, acts[0], t) && Untouched(Next(m, acts[0]), acts[1..], t))
  }

  lemma {:induction false} SlotIsKept(m: Machine, acts: seq<Action>, t: TaskId)
    requires MachineInv(m) && Valid(m, acts) && t in m.exec.tasks && Untouched(m, acts, t)
    ensures MachineInv(Final(m, acts))
    ensures t in Final(m, acts).exec.tasks && SameSlot(m.exec.tasks[t], Final(m, acts).exec.tasks[t])
    decreases |acts|
  {
    if acts != [] {
      NextInv(m, acts[0]);
      NextKeepsSlot(m, acts[0], t);
      SlotIsKept(Next(m, acts[0]), acts[1..], t);
    }
  }

  /**
   * Task `h` polled the handle of `t` and got Pending; nobody else polls that handle
   * until `t` returns Ready.  Then the output is stored, `h` is put at the back of its
   * run queue if it is alive and unfinished, and the next poll of the handle finds
   * exactly that value.
   */
  lemma HandleWaiterIsWoken(m: Machine, t: TaskId, h: TaskId, acts: seq<Action>, v: int, reports: seq<Report>)
    requires MachineInv(m) && t in m.exec.tasks && m.exec.tasks[t].handle && t != h
    requires RunsUserCode(m.phase) && m.exec.tasks[t].output == None
    requires Enabled(m, Do(DoPollHandle(t, TaskWaker(h))))
    requires var m1 := Next(m, Do(DoPollHandle(t, TaskWaker(h))));
      Valid(m1, acts) && Untouched(m1, acts, t) && Enabled(Final(m1, acts), Ready(v, reports))
      && Final(m1, acts).exec.running == Some(t)
    ensures var m2 := Final(Next(m, Do(DoPollHandle(t, TaskWaker(h)))), acts);
      var s := Next(m2, Ready(v, reports)).exec;
      && t in s.tasks && s.tasks[t].output == Some(v)
      && (Upgradable(m2.exec, h) && !m2.exec.tasks[h].completed ==>
            h in s.tasks && s.tasks[h].past.owed && h in s.queues[Rank(m2.exec.tasks[h].priority)])
  {
    var m1 := Next(m, Do(DoPollHandle(t, TaskWaker(h))));
    NextInv(m, Do(DoPollHandle(t, TaskWaker(h))));
    SlotIsKept(m1, acts, t);
    CompletionWakes(Final(m1, acts).exec, t, h, v, reports);
  }

  lemma CompletionWakes(s: Exec, t: TaskId, h: TaskId, v: int, reports: seq<Report>)
    requires Inv(s) && s.running == Some(t) && t in s.tasks && s.tasks[t].handleWaker == TaskWaker(h) && h != t
    requires ReportsOk(s, reports)
    ensures var r := FinishReady(s, v, reports);
      && t in r.tasks && r.tasks[t].output == Some(v)
      && (Upgradable(s, h) && !s.tasks[h].completed ==>
            h in r.tasks && r.tasks[h].past.owed && h in r.queues[Rank(s.tasks[h].priority)])
  {
    var x := s.tasks[t];
    var s1 := SetTask(s, t, x.(output := Some(v), handleWaker := Noop,
                               past := x.past.(returned := x.past.returned + [v])));
    assert WakeBy(s1, x.handleWaker, reports) == WakeNow(s1, h);
    WakeNowWoken(s1, h);
    assert Woken(s1.tasks[t], WakeNow(s1, h).tasks[t]);
  }
}
