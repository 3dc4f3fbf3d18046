/**
 * The executor as the program has it: an object that its methods update in place, and
 * whose queues are linked rings.  `View()` is its abstract state, and `Valid()` says
 * that the rings are what it says they are.  Every method does to it what the function
 * of the same name in module `ExecState` says, and `Run` and `BlockOn` take only steps
 * of their transition systems.
 */
module ExecutorObject {
  import opened Types
  import Q = QueueSpec
  import S = ExecState
  import opened ExecState
  import opened ExecInv
  import R = RunLoop
  import B = BlockOn
  import opened Rings
  import TaskQueues
  import opened ExecutorSteps

  class Executor {
    /** The three run queues and the sleep queue, and the strong count of each task. */
    const rings: QueueFamily
    /** What tasks store; `strong` repeats the count that `rings` keeps. */
    var tasks: map<TaskId, Task>
    var running: Option<TaskId>
    var shutdown: bool
    /** The length of the event buffer. */
    var events: nat
    var pipe: seq<Message>
    var fds: map<FdId, Fd>
    var hist: History
    /** What the rings hold. */
    ghost var queues: Queues

    ghost function View(): Exec
      reads this
    {
      Exec(queues, tasks, running, shutdown, events, pipe, fds, hist)
    }

    /** The abstract state is that of the rings: their contents, which ring each task is in, and every strong count. */
    ghost predicate Valid()
      reads this`tasks, this`hist, this`queues, rings, rings.nodes
    {
      TaskQueues.Holds(rings, queues, hist.where, tasks)
    }

    /** All of the state but the queues; what the kernel and other threads do depends on no more. */
    function Surface(): Exec
      reads this
    {
      Exec([[], [], [], []], tasks, running, shutdown, events, pipe, fds, hist)
    }

    constructor ()
      ensures Valid() && View() == Fresh() && fresh(rings) && fresh(rings.nodes)
    {
      rings := new QueueFamily(4);
      tasks, running, shutdown := map[], None, false;
      events, pipe, fds, hist := 1, [], map[], History([], map[], [], [], false);
      queues := [[], [], [], []];
    }

    // -------------------------------------------------------------- queues

    lemma LinkedIff(t: TaskId)
      requires Valid() && t in tasks
      ensures IsQueued(View(), t) <==> t in hist.where
      ensures tasks[t].strong >= Bit(t in hist.where)
    {
      TaskQueues.Places(rings, queues, hist.where, tasks, t);
      QueuedIsLinked(View(), t);
    }

    /** The state follows the rings. */
    method Follow(ghost qs: Queues, xs: map<TaskId, Task>, h: History)
      requires TaskQueues.Holds(rings, qs, h.where, xs)
      modifies this`queues, this`tasks, this`hist
      ensures Valid() && rings.nodes == old(rings.nodes)
      ensures View() == old(View()).(queues := qs, tasks := xs, hist := h)
    {
      queues, tasks, hist := qs, xs, h;
    }

    /** `is_queued` */
    method CheckQueued(t: TaskId) returns (r: bool)
      requires Valid() && t in tasks
      ensures r == IsQueued(View(), t) == (t in hist.where)
    {
      LinkedIff(t);
      r := TaskQueues.CheckLinked(rings, queues, hist.where, tasks, t);
    }

    /** Weak::upgrade: one strong reference more, if there is one left. */
    method Upgrade(t: TaskId) returns (ok: bool)
      requires Valid() && t in tasks
      modifies this`queues, this`tasks, this`hist, rings`strong, rings`held
      ensures Valid() && rings.nodes == old(rings.nodes) && ok == old(tasks[t].strong > 0)
      ensures View() == if ok then old(View()).(tasks := old(tasks)[t := TaskQueues.More(old(tasks[t]))]) else old(View())
    {
      ok := TaskQueues.Upgrade(rings, queues, hist.where, tasks, t);
      if ok {
        Follow(queues, tasks[t := TaskQueues.More(tasks[t])], hist);
      }
    }

    /** Drops a reference that no queue owns; the task is now `x`, less that reference. */
    method DropRef(t: TaskId, x: Task)
      requires Valid() && t in tasks && x.strong == tasks[t].strong > Bit(IsQueued(View(), t))
      modifies this`queues, this`tasks, this`hist, rings`strong, rings`held
      ensures Valid() && rings.nodes == old(rings.nodes)
      ensures View() == old(View()).(tasks := old(tasks)[t := TaskQueues.Fewer(x, true)])
    {
      LinkedIff(t);
      DropLinked(t, x);
    }

    method DropLinked(t: TaskId, x: Task)
      requires Valid() && t in tasks && x.strong == tasks[t].strong > Bit(t in hist.where)
      modifies this`queues, this`tasks, this`hist, rings`strong, rings`held
      ensures Valid() && rings.nodes == old(rings.nodes)
      ensures View() == old(View()).(tasks := old(tasks)[t := TaskQueues.Fewer(x, true)])
    {
      TaskQueues.Drop(rings, queues, hist.where, tasks, t, x);
      Follow(queues, tasks[t := TaskQueues.Fewer(x, true)], hist);
    }

    /** `Queue::push`: takes over one reference, or drops it if the task is linked already; the task is now `x`. */
    method Push(q: nat, t: TaskId, x: Task)
      requires Valid() && q < 4 && t in tasks && x.strong == tasks[t].strong > Bit(IsQueued(View(), t))
      modifies this`queues, this`tasks, this`hist, rings, rings.nodes
      ensures Valid() && rings.nodes == old(rings.nodes)
      ensures View() == old(View()).(
                queues := Q.Push(old(queues), q, t),
                tasks := old(tasks)[t := TaskQueues.Fewer(x, IsQueued(old(View()), t))],
                hist := old(hist).(log := old(hist).log + [Pushed(t, q)], where := old(hist).where[t := q]))
    {
      var linked := CheckQueued(t);
      TaskQueues.Push(rings, queues, hist.where, tasks, q, t, x);
      Follow(Q.Push(queues, q, t), tasks[t := TaskQueues.Fewer(x, linked)],
             hist.(log := hist.log + [Pushed(t, q)], where := hist.where[t := q]));
    }

    /** `Queue::release` of a reference cloned for it; the task is now `x`. */
    method Release(t: TaskId, x: Task)
      requires Valid() && t in tasks && x.strong == tasks[t].strong > 0
      modifies this`queues, this`tasks, this`hist, rings, rings.nodes
      ensures Valid() && rings.nodes == old(rings.nodes)
      ensures View() == old(View()).(
                queues := Q.Unlink(old(queues), t),
                tasks := old(tasks)[t := TaskQueues.Fewer(x, IsQueued(old(View()), t))],
                hist := old(hist).(log := old(hist).log + [Released(t)], where := old(hist).where - {t}))
    {
      var linked := CheckQueued(t);
      TaskQueues.Release(rings, queues, hist.where, tasks, t, x);
      Follow(Q.Unlink(queues, t), tasks[t := TaskQueues.Fewer(x, linked)],
             hist.(log := hist.log + [Released(t)], where := hist.where - {t}));
    }

    /** Changes what is stored in a task, but not its count. */
    method Record(t: TaskId, x: Task)
      requires Valid() && t in tasks && x.strong == tasks[t].strong
      modifies this`tasks
      ensures Valid() && rings.nodes == old(rings.nodes) && View() == old(View()).(tasks := old(tasks)[t := x])
    {
      TaskQueues.Stored(rings, queues, hist.where, tasks, t, x);
      tasks := tasks[t := x];
    }

    /** `enqueue`: takes over one reference; a completed task is not queued again. */
    method Enqueue(t: TaskId)
      requires Valid() && t in tasks && tasks[t].strong > Bit(IsQueued(View(), t))
      modifies this`queues, this`tasks, this`hist, rings, rings.nodes
      ensures Valid() && rings.nodes == old(rings.nodes)
      ensures var x, q := old(tasks[t]), Rank(old(tasks[t].priority));
        View() == if x.completed then old(View()).(tasks := old(tasks)[t := TaskQueues.Fewer(x, true)])
                  else old(View()).(
                    queues := Q.Push(old(queues), q, t),
                    tasks := old(tasks)[t := TaskQueues.Fewer(Owed(x), IsQueued(old(View()), t))],
                    hist := old(hist).(log := old(hist).log + [Pushed(t, q)], where := old(hist).where[t := q]))
    {
      if !tasks[t].completed {
        Push(Rank(tasks[t].priority), t, Owed(tasks[t]));
      } else {
        DropRef(t, tasks[t]);
      }
    }

    /** What every wake path does with a weak reference: upgrade it and enqueue the task. */
    method WakeTask(t: TaskId)
      requires Valid()
      modifies this`queues, this`tasks, this`hist, rings, rings.nodes
      ensures Valid() && rings.nodes == old(rings.nodes)
      ensures View() == WakeNow(old(View()), t)
    {
      if t in tasks {
        LinkedIff(t);
        var ok := Upgrade(t);
        if ok {
          EnqueueUpgraded(t, old(View()));
        }
      }
    }

    method EnqueueUpgraded(t: TaskId, ghost s: Exec)
      requires Valid() && Upgradable(s, t) && s.tasks[t].strong >= Bit(IsQueued(s, t))
      requires View() == s.(tasks := s.tasks[t := TaskQueues.More(s.tasks[t])])
      modifies this`queues, this`tasks, this`hist, rings, rings.nodes
      ensures Valid() && rings.nodes == old(rings.nodes)
      ensures View() == WakeNow(s, t)
    {
      Enqueue(t);
      WokenView(s, View(), t);
    }

    method Sleep(t: TaskId)
      requires Valid() && t in tasks && tasks[t].strong > 0 && !IsQueued(View(), t)
      modifies this`queues, this`tasks, this`hist, rings, rings.nodes
      ensures Valid() && rings.nodes == old(rings.nodes) && View() == PushOn(old(View()), t, SLEEP)
    {
      SleepingView(View(), t);
      Push(SLEEP, t, tasks[t]);
    }

    /** Takes the oldest task of one queue, if it holds any. */
    method PopFrom(q: nat) returns (r: Option<TaskId>)
      requires Valid() && q < 4
      modifies this`queues, this`tasks, this`hist, rings, rings.nodes
      ensures Valid() && rings.nodes == old(rings.nodes)
      ensures old(queues)[q] == [] ==> r == None && View() == old(View())
      ensures old(queues)[q] != [] ==>
                r == Some(old(queues)[q][0]) && r.value in tasks && View() == Popping(old(View()), q)
    {
      r := TaskQueues.Pop(rings, queues, hist.where, tasks, q);
      if r.Some? {
        Follow(Q.Pop(queues, q), tasks, hist.(log := hist.log + [Popped(r.value, q)], where := hist.where - {r.value}));
      }
    }

    /** The first of the three run queues that yields a task. */
    method PopBest() returns (r: Option<TaskId>)
      requires Valid()
      modifies this`queues, this`tasks, this`hist, rings, rings.nodes
      ensures Valid() && rings.nodes == old(rings.nodes)
      ensures r.Some? == Runnable(old(View()))
      ensures r.None? ==> View() == old(View())
      ensures r.Some? ==> r.value in tasks && IsPopped(old(View()), r.value, View())
    {
      r := PopFrom(HIGH);
      if r.None? {
        r := PopFrom(NORMAL);
      }
      if r.None? {
        r := PopFrom(LOW);
      }
    }

    /** `highest_priority_runnable_task`, and the poll of that task begins. */
    method HighestPriorityRunnableTask() returns (r: Option<TaskId>)
      requires Valid()
      modifies this`running, this`queues, this`tasks, this`hist, rings, rings.nodes
      ensures Valid() && rings.nodes == old(rings.nodes)
      ensures r.Some? == Runnable(old(View()))
      ensures r.None? ==> View() == old(View())
      ensures r.Some? ==> View() == PopRun(old(View())) && running == r
    {
      ghost var s := View();
      r := PopBest();
      if r.Some? {
        Begin(r.value, s);
      }
    }

    /** The popped task is polled. */
    method Begin(t: TaskId, ghost s: Exec)
      requires Valid() && t in tasks && IsPopped(s, t, View())
      modifies this`running, this`tasks
      ensures Valid() && rings.nodes == old(rings.nodes)
      ensures View() == PopRun(s) && running == Some(t)
    {
      PoppedView(s, t, View());
      running := Some(t);
      Record(t, Unowed(tasks[t]));
    }

    // -------------------------------------------------------------- events

    /** `wake_from_pipe`. */
    method WakeFromPipe()
      requires Valid() && pipe != []
      modifies this`pipe, this`queues, this`tasks, this`hist, rings, rings.nodes
      ensures Valid() && rings.nodes == old(rings.nodes)
      ensures View() == ReadPipe(old(View()))
    {
      var m := pipe[0];
      pipe, hist := pipe[1..], hist.(received := hist.received + [m]);
      if m.WakeUp? {
        WakeTask(m.task);
      }
    }

    /** One fd event of `epoll_wait`'s loop. */
    method Deliver(fd: FdId, flags: set<Flag>)
      requires Valid() && fd in fds
      modifies this`fds, this`queues, this`tasks, this`hist, rings, rings.nodes
      ensures Valid() && rings.nodes == old(rings.nodes)
      ensures View() == DeliverFd(old(View()), fd, flags)
    {
      var f := fds[fd];
      if flags <= f.cache {
        fds := fds[fd := f.(edge := false)];
        return;
      }
      fds := fds[fd := f.(edge := false, cache := f.cache + flags)];
      if f.waker.TaskWaker? {
        WakeTask(f.waker.task);
      }
    }

    /** One event. */
    method Handle(report: Report)
      requires Valid() && ReportOk(View(), report)
      modifies this`pipe, this`fds, this`queues, this`tasks, this`hist, rings, rings.nodes
      ensures Valid() && rings.nodes == old(rings.nodes)
      ensures View() == Process(old(View()), report)
    {
      match report {
        case PipeReport => WakeFromPipe();
        case FdReport(fd, flags) => Deliver(fd, flags);
      }
    }

    method EpollWait(reports: seq<Report>)
      requires Valid() && ReportsOk(View(), reports)
      modifies this`pipe, this`fds, this`queues, this`tasks, this`hist, rings, rings.nodes
      ensures Valid() && rings.nodes == old(rings.nodes)
      ensures View() == S.EpollWait(old(View()), reports)
    {
      if events == 0 {
        return;
      }
      var i := 0;
      while i < |reports|
        invariant i <= |reports| && Valid() && rings.nodes == old(rings.nodes)
        invariant ReportsOk(View(), reports[i..])
        invariant S.EpollWait(View(), reports[i..]) == S.EpollWait(old(View()), reports)
      {
        ghost var s, rest := View(), reports[i..];
        assert rest[0] == reports[i] && rest[1..] == reports[i + 1..] && ReportOk(s, rest[0]);
        Handle(reports[i]);
        ProcessKeepsReports(s, rest);
        i := i + 1;
      }
    }

    /** `task_waker::wake` on this thread. */
    method Wake(t: TaskId, reports: seq<Report>)
      requires Valid() && ReportsOk(View(), reports)
      modifies this`pipe, this`fds, this`queues, this`tasks, this`hist, rings, rings.nodes
      ensures Valid() && rings.nodes == old(rings.nodes)
      ensures View() == WakeLocal(old(View()), t, reports)
    {
      if t in tasks && tasks[t].strong > 0 {
        if running == Some(t) {
          EpollWait(reports);
        }
        WakeTask(t);
      }
    }

    method WakeBy(w: Waker, reports: seq<Report>)
      requires Valid() && ReportsOk(View(), reports)
      modifies this`pipe, this`fds, this`queues, this`tasks, this`hist, rings, rings.nodes
      ensures Valid() && rings.nodes == old(rings.nodes)
      ensures View() == S.WakeBy(old(View()), w, reports)
    {
      if w.TaskWaker? {
        Wake(w.task, reports);
      }
    }

    // -------------------------------------------------------------- file descriptors

    /**
     * `EpollWaker::poll_with`.  `io` is what successive calls of the caller's
     * closure return; it is called again as long as it is interrupted.
     */
    method PollWith(fd: FdId, w: Waker, io: seq<IoResult>) returns (r: PollResult)
      requires fd in fds && Settles(io)
      modifies this`fds
      ensures r == PollResultOf(old(fds[fd]), Settled(io))
      ensures fds == old(fds)[fd := PolledFd(old(fds[fd]), w, Settled(io))]
    {
      var f := fds[fd];
      if f.cache == {} {
        fds := fds[fd := f.(burst := 0, waker := w)];
        return PollPending;
      }
      if f.burst >= BURST_LIMIT {
        fds := fds[fd := f.(burst := 0)];
        return PollYield;
      }
      var i := 0;
      while true
        invariant i < |io| && Settles(io[i..]) && Settled(io[i..]) == Settled(io)
        decreases |io| - i
      {
        match io[i] {
          case Interrupted =>
            i := i + 1;
          case Ended(WouldBlock) =>
            fds := fds[fd := f.(burst := 0, waker := w, cache := {})];
            return PollPending;
          case Ended(Done(after)) =>
            fds := fds[fd := f.(burst := f.burst + 1, ready := after)];
            return PollReady;
        }
      }
    }

    /** `Fd::poll_with` and `Fd::poll_with_mut`: a burst yield wakes the caller and reads as Pending. */
    method PollFd(fd: FdId, w: Waker, io: seq<IoResult>, reports: seq<Report>) returns (ready: bool)
      requires Valid() && fd in fds && Settles(io) && ReportsOk(View(), reports)
      modifies this`pipe, this`fds, this`queues, this`tasks, this`hist, rings, rings.nodes
      ensures Valid() && rings.nodes == old(rings.nodes)
      ensures View() == S.PollFd(old(View()), fd, w, Settled(io), reports)
      ensures ready == (PollResultOf(old(fds[fd]), Settled(io)) == PollReady)
    {
      PolledView(View(), fd, w, Settled(io), reports);
      var r := PollWith(fd, w, io);
      ready := r == PollReady;
      match r {
        case PollYield => WakeBy(w, reports);
        case PollPending => NotePending(fd, w);
        case PollReady => NoteReady(fd);
      }
    }

    method NotePending(fd: FdId, w: Waker)
      requires Valid()
      modifies this`tasks
      ensures Valid() && rings.nodes == old(rings.nodes)
      ensures View() == if w.TaskWaker? && w.task in old(tasks)
                        then S.NotePending(old(View()), w.task, PendingPast(old(View()), w.task, fd)) else old(View())
    {
      if w.TaskWaker? && w.task in tasks {
        Note(w.task, PendingPast(Surface(), w.task, fd));
      }
    }

    method NoteReady(fd: FdId)
      requires Valid()
      modifies this`tasks
      ensures Valid() && rings.nodes == old(rings.nodes)
      ensures View() == if Busy(old(View()))
                        then S.NotePending(old(View()), running.value, ReadyPast(old(View()), running.value, fd)) else old(View())
    {
      if running.Some? && running.value in tasks {
        Note(running.value, ReadyPast(Surface(), running.value, fd));
      }
    }

    method Note(t: TaskId, p: Past)
      requires Valid() && t in tasks
      modifies this`tasks
      ensures Valid() && rings.nodes == old(rings.nodes)
      ensures tasks == old(tasks)[t := old(tasks[t]).(past := p)]
    {
      Record(t, tasks[t].(past := p));
    }

    /** `Fd::new`, from the registration on: the slot is added first and taken back if registering fails. */
    method AddFd(fd: FdId, interest: set<Flag>, ready: set<Flag>, registered: bool)
      requires Valid()
      modifies this`fds, this`events
      ensures Valid() && rings.nodes == old(rings.nodes)
      ensures View() == S.NewFd(old(View()), fd, interest, ready, registered)
    {
      events := events + 1;
      if registered {
        fds := fds[fd := Fd(interest, interest * {In, Out}, 0, Noop, ready, ready != {})];
      } else {
        PopEvent();
      }
    }

    method PopEvent()
      modifies this`events
      ensures events == if old(events) == 0 then 0 else old(events) - 1
    {
      if events > 0 {
        events := events - 1;
      }
    }

    /** `Drop for Fd`, of an Fd registered here. */
    method RemoveFd(fd: FdId)
      requires Valid()
      modifies this`fds, this`events
      ensures Valid() && rings.nodes == old(rings.nodes)
      ensures View() == S.DropFd(old(View()), fd)
    {
      fds := fds - {fd};
      PopEvent();
    }

    /** `Drop for Fd`, of an Fd of an earlier executor. */
    method RemoveForeignFd()
      requires Valid()
      modifies this`events, this`hist
      ensures Valid() && rings.nodes == old(rings.nodes) && View() == Apply(old(View()), DoDropForeignFd)
    {
      hist := hist.(lateDrop := true);
      PopEvent();
    }

    // -------------------------------------------------------------- tasks

    method Spawn(t: TaskId, p: Priority)
      requires Valid() && t !in tasks
      modifies this`queues, this`tasks, this`hist, rings, rings.nodes
      ensures Valid() && (forall n :: n in rings.nodes ==> n in old(rings.nodes) || fresh(n))
      ensures View() == S.Spawn(old(View()), t, p)
    {
      NewRecord(t, p);
      WakeTask(t);
    }

    /** `Arc::new_cyclic`: the handle's reference is the only one, and the task is in no queue. */
    method NewRecord(t: TaskId, p: Priority)
      requires Valid() && t !in tasks
      modifies this`tasks, rings
      ensures Valid() && (forall n :: n in rings.nodes ==> n in old(rings.nodes) || fresh(n))
      ensures tasks == old(tasks)[t := NewTask(p)]
    {
      TaskQueues.Add(rings, queues, hist.where, tasks, t, NewTask(p));
      tasks := tasks[t := NewTask(p)];
    }

    /** `Handle::abort`: `release` on the sleep queue, which finds the task in whichever queue it is. */
    method Abort(t: TaskId)
      requires Valid() && t in tasks && tasks[t].strong > 0
      modifies this`queues, this`tasks, this`hist, rings, rings.nodes
      ensures Valid() && rings.nodes == old(rings.nodes)
      ensures View() == S.Abort(old(View()), t)
    {
      AbortedView(View(), Surface(), t);
      Release(t, tasks[t].(past := AbortedPast(Surface(), t)));
    }

    method ReleaseHandle(t: TaskId)
      requires Valid() && t in tasks && tasks[t].strong > Bit(IsQueued(View(), t))
      modifies this`queues, this`tasks, this`hist, rings, rings.nodes
      ensures Valid() && rings.nodes == old(rings.nodes)
      ensures View() == S.DropHandle(old(View()), t)
    {
      DropRef(t, tasks[t].(handle := false));
    }

    /** `Handle::poll`: takes the output if there is one, else keeps the waker. */
    method PollHandle(t: TaskId, w: Waker) returns (r: Option<int>)
      requires Valid() && t in tasks
      modifies this`tasks
      ensures Valid() && rings.nodes == old(rings.nodes)
      ensures r == old(tasks[t].output)
      ensures View() == SetTask(old(View()), t, HandlePolled(old(tasks[t]), w))
    {
      var x := tasks[t];
      r := x.output;
      if r.Some? {
        Record(t, x.(output := None, past := x.past.(taken := x.past.taken + [r.value])));
      } else {
        Record(t, x.(handleWaker := w));
      }
    }

    /** `run_task` after the poll returned Pending. */
    method AfterPending()
      requires Valid() && Busy(View()) && Inv(View())
      modifies this`running, this`queues, this`tasks, this`hist, rings, rings.nodes
      ensures Valid() && rings.nodes == old(rings.nodes)
      ensures View() == FinishPending(old(View()))
    {
      RunningIsHeld(View());
      DropOrSleep(running.value);
      Idle();
    }

    /** A linked task has yielded and its reference is dropped; an unlinked one goes to sleep with it. */
    method DropOrSleep(t: TaskId)
      requires Valid() && t in tasks && tasks[t].strong > Bit(IsQueued(View(), t))
      modifies this`queues, this`tasks, this`hist, rings, rings.nodes
      ensures Valid() && rings.nodes == old(rings.nodes)
      ensures View() == if IsQueued(old(View()), t) then SetTask(old(View()), t, TaskQueues.Fewer(old(tasks[t]), true))
                        else PushOn(old(View()), t, SLEEP)
    {
      var queued := CheckQueued(t);
      if queued {
        Yield(t);
      } else {
        Sleep(t);
      }
    }

    method Yield(t: TaskId)
      requires Valid() && t in tasks && tasks[t].strong > Bit(IsQueued(View(), t))
      modifies this`queues, this`tasks, this`hist, rings`strong, rings`held
      ensures Valid() && rings.nodes == old(rings.nodes)
      ensures View() == SetTask(old(View()), t, TaskQueues.Fewer(old(tasks[t]), true))
    {
      DropRef(t, tasks[t]);
    }

    /** No task is being polled any more. */
    method Idle()
      requires Valid()
      modifies this`running
      ensures Valid() && rings.nodes == old(rings.nodes) && View() == old(View()).(running := None)
    {
      running := None;
    }

    /** `run_task` when the future returns Ready: store, wake the handle's waker, mark, drop. */
    method AfterReady(v: int, reports: seq<Report>)
      requires Valid() && Busy(View()) && Inv(View()) && ReportsOk(View(), reports)
      modifies this`running, this`pipe, this`fds, this`queues, this`tasks, this`hist, rings, rings.nodes
      ensures Valid() && rings.nodes == old(rings.nodes)
      ensures View() == FinishReady(old(View()), v, reports)
    {
      StoreKeepsBusy(View(), v, reports);
      Store(v, reports);
      Mark();
    }

    method Store(v: int, reports: seq<Report>)
      requires Valid() && Busy(View()) && ReportsOk(View(), reports)
      modifies this`pipe, this`fds, this`queues, this`tasks, this`hist, rings, rings.nodes
      ensures Valid() && rings.nodes == old(rings.nodes)
      ensures View() == StoreOutput(old(View()), v, reports)
    {
      var t := running.value;
      var x := tasks[t];
      Record(t, x.(output := Some(v), handleWaker := Noop, past := x.past.(returned := x.past.returned + [v])));
      WakeBy(x.handleWaker, reports);
    }

    method Mark()
      requires Valid() && Busy(View())
      requires tasks[running.value].strong > Bit(IsQueued(View(), running.value))
      modifies this`running, this`queues, this`tasks, this`hist, rings, rings.nodes
      ensures Valid() && rings.nodes == old(rings.nodes)
      ensures View() == MarkCompleted(old(View()))
    {
      MarkedView(View(), running.value);
      MarkTask(running.value);
      Idle();
    }

    method MarkTask(t: TaskId)
      requires Valid() && t in tasks && tasks[t].strong > Bit(IsQueued(View(), t))
      modifies this`queues, this`tasks, this`hist, rings, rings.nodes
      ensures Valid() && rings.nodes == old(rings.nodes)
      ensures View() == old(View()).(
                tasks := old(tasks)[t := TaskQueues.Fewer(Completed(old(tasks[t]), IsQueued(old(View()), t)), true)])
    {
      var linked := CheckQueued(t);
      DropRef(t, Completed(tasks[t], linked));
    }

    // -------------------------------------------------------------- the loop

    /** Any effect of user code on this thread, of the kernel, or of another thread. */
    method Perform(e: Effect)
      requires Valid() && Inv(View()) && Allowed(View(), e)
      modifies this, rings, rings.nodes
      ensures Valid() && (forall n :: n in rings.nodes ==> n in old(rings.nodes) || fresh(n))
      ensures View() == Apply(old(View()), e)
    {
      match e {
        case DoSpawn(t, p) => Spawn(t, p);
        case DoWake(t, reports) => Wake(t, reports);
        case DoAbort(t) => UseHandle(e);
        case DoDropHandle(t) => UseHandle(e);
        case DoPollHandle(t, w) => UseHandle(e);
        case DoPollFd(fd, dir, w, io, reports) =>
          assert [Ended(io)][0].Ended?;
          var ready := PollFd(fd, w, [Ended(io)], reports);
        case RemoteWake(t) => SendWake(t);
        case _ => PerformElse(e);
      }
    }

    /** What can be done with a handle. */
    method UseHandle(e: Effect)
      requires Valid() && Inv(View()) && Allowed(View(), e) && (e.DoAbort? || e.DoDropHandle? || e.DoPollHandle?)
      modifies this`queues, this`tasks, this`hist, rings, rings.nodes
      ensures Valid() && rings.nodes == old(rings.nodes) && View() == Apply(old(View()), e)
    {
      HandleIsHeld(View(), e.t);
      match e {
        case DoAbort(t) => Abort(t);
        case DoDropHandle(t) => ReleaseHandle(t);
        case DoPollHandle(t, w) => var r := PollHandle(t, w);
      }
    }

    /** The effects that concern neither tasks nor queues. */
    method PerformElse(e: Effect)
      requires Valid() && Allowed(View(), e)
      requires e.DoNewFd? || e.DoDropFd? || e.DoDropForeignFd? || e.DoShutdown? || e.Arrive? || e.Fade? || e.Settle? || e.RemoteNull?
      modifies this`fds, this`events, this`shutdown, this`pipe, this`hist
      ensures Valid() && rings.nodes == old(rings.nodes) && View() == Apply(old(View()), e)
    {
      match e {
        case DoNewFd(fd, interest, ready, registered) => AddFd(fd, interest, ready, registered);
        case DoDropFd(fd) => RemoveFd(fd);
        case DoDropForeignFd => RemoveForeignFd();
        case DoShutdown => Shutdown();
        case Arrive(fd, flags) => KernelActs(e);
        case Fade(fd, flags) => KernelActs(e);
        case Settle(fd) => KernelActs(e);
        case RemoteNull => Write(Null);
      }
    }

    method Shutdown()
      requires Valid()
      modifies this`shutdown
      ensures Valid() && rings.nodes == old(rings.nodes) && View() == old(View()).(shutdown := true)
    {
      shutdown := true;
    }

    /** The kernel's side of an fd changes. */
    method KernelActs(e: Effect)
      requires Valid() && Allowed(View(), e) && (e.Arrive? || e.Fade? || e.Settle?)
      modifies this`fds
      ensures Valid() && rings.nodes == old(rings.nodes) && View() == Apply(old(View()), e)
    {
      match e {
        case Arrive(fd, flags) => fds := fds[fd := fds[fd].(ready := fds[fd].ready + flags, edge := true)];
        case Fade(fd, flags) => fds := fds[fd := fds[fd].(ready := fds[fd].ready - flags)];
        case Settle(fd) => fds := fds[fd := fds[fd].(edge := false)];
      }
    }

    /** Another thread uses a waker of `t`. */
    method SendWake(t: TaskId)
      requires Valid()
      modifies this`tasks, this`pipe, this`hist
      ensures Valid() && rings.nodes == old(rings.nodes)
      ensures View() == Apply(old(View()), RemoteWake(t))
    {
      if t in tasks && tasks[t].strong > 0 {
        SentView(View(), t);
        NoteOwed(t);
        Write(WakeUp(t));
      }
    }

    method NoteOwed(t: TaskId)
      requires Valid() && t in tasks
      modifies this`tasks
      ensures Valid() && rings.nodes == old(rings.nodes)
      ensures View() == if old(tasks[t].completed) then old(View()) else old(View()).(tasks := old(tasks)[t := Owed(old(tasks[t]))])
    {
      if !tasks[t].completed {
        Record(t, Owed(tasks[t]));
      }
    }

    /** A message written to the pipe by another thread. */
    method Write(m: Message)
      requires Valid()
      modifies this`pipe, this`hist
      ensures Valid() && rings.nodes == old(rings.nodes) && View() == Send(old(View()), m)
    {
      pipe, hist := pipe + [m], hist.(sent := hist.sent + [m]);
    }

    /**
     * Performs those of `effects` that are possible at their turn, in order; where no
     * user code runs, only those of the kernel and of other threads.
     */
    method PerformAll(effects: seq<Effect>, external: bool, ghost m0: R.Machine, ghost trace0: seq<R.Action>, ghost m1: R.Machine)
      returns (ghost trace: seq<R.Action>, ghost m: R.Machine)
      requires Valid() && Leads(m0, trace0, m1) && m1.exec == View() && (R.RunsUserCode(m1.phase) || external)
      modifies this, rings, rings.nodes
      ensures Valid() && (forall n :: n in rings.nodes ==> n in old(rings.nodes) || fresh(n))
      ensures Leads(m0, trace, m) && m == m1.(exec := View())
      ensures View() == Performed(old(View()), effects, external)
    {
      trace, m := trace0, m1;
      for i := 0 to |effects|
        invariant Valid() && (forall n :: n in rings.nodes ==> n in old(rings.nodes) || fresh(n))
        invariant Leads(m0, trace, m) && m == m1.(exec := View())
        invariant View() == Performed(old(View()), effects[..i], external)
      {
        assert effects[..i + 1][..i] == effects[..i];
        trace, m := Try(effects[i], external, m0, trace, m);
      }
      assert effects[..|effects|] == effects;
    }

    /** One effect, if it is possible. */
    method Try(e: Effect, external: bool, ghost m0: R.Machine, ghost trace0: seq<R.Action>, ghost m1: R.Machine)
      returns (ghost trace: seq<R.Action>, ghost m: R.Machine)
      requires Valid() && Leads(m0, trace0, m1) && m1.exec == View() && (R.RunsUserCode(m1.phase) || external)
      modifies this, rings, rings.nodes
      ensures Valid() && (forall n :: n in rings.nodes ==> n in old(rings.nodes) || fresh(n))
      ensures Leads(m0, trace, m) && m == m1.(exec := View())
      ensures View() == Tried(old(View()), e, external)
    {
      trace, m := trace0, m1;
      SurfaceAllows(View(), Surface(), e);
      if Allowed(Surface(), e) && (external ==> External(e)) {
        trace, m := Step(e, m0, trace0, m1);
      }
    }

    method Step(e: Effect, ghost m0: R.Machine, ghost trace0: seq<R.Action>, ghost m1: R.Machine)
      returns (ghost trace: seq<R.Action>, ghost m: R.Machine)
      requires Valid() && Leads(m0, trace0, m1) && m1.exec == View() && Allowed(View(), e)
      requires R.RunsUserCode(m1.phase) || External(e)
      modifies this, rings, rings.nodes
      ensures Valid() && (forall n :: n in rings.nodes ==> n in old(rings.nodes) || fresh(n))
      ensures Leads(m0, trace, m) && m == m1.(exec := View()) && View() == Apply(old(View()), e)
    {
      m := DoInRun(m0, trace0, m1, e);
      Perform(e);
      trace := trace0 + [R.Do(e)];
    }

    /** `run_task`: one poll with the effects it has, its result, and the destructors that run after it. */
    method RunTask(turn: Turn, ghost m0: R.Machine, ghost trace0: seq<R.Action>, ghost m1: R.Machine)
      returns (ghost trace: seq<R.Action>, ghost m: R.Machine)
      requires Valid() && Leads(m0, trace0, m1) && m1.exec == View() && m1.phase.Polling?
      modifies this, rings, rings.nodes
      ensures Valid() && (forall n :: n in rings.nodes ==> n in old(rings.nodes) || fresh(n))
      ensures Leads(m0, trace, m) && m == m1.(phase := R.Polled, exec := View())
      ensures View() == Polls(old(View()), turn)
    {
      trace, m := PerformAll(turn.effects, false, m0, trace0, m1);
      trace, m := EndPoll(turn, m0, trace, m);
      trace, m := PerformAll(turn.after, false, m0, trace, m);
    }

    /** The poll returns. */
    method EndPoll(turn: Turn, ghost m0: R.Machine, ghost trace0: seq<R.Action>, ghost m1: R.Machine)
      returns (ghost trace: seq<R.Action>, ghost m: R.Machine)
      requires Valid() && Leads(m0, trace0, m1) && m1.exec == View() && m1.phase.Polling?
      modifies this`running, this`pipe, this`fds, this`queues, this`tasks, this`hist, rings, rings.nodes
      ensures Valid() && rings.nodes == old(rings.nodes)
      ensures Leads(m0, trace, m) && m == m1.(phase := R.Polled, exec := View())
      ensures View() == Returns(old(View()), turn)
    {
      ghost var a := PollEnd(View(), turn);
      LeadsInv(m0, trace0, m1);
      Extend(m0, trace0, m1, a);
      Return(turn);
      trace, m := trace0 + [a], R.Next(m1, a);
    }

    /** What `run_task` does when the future has returned. */
    method Return(turn: Turn)
      requires Valid() && Busy(View()) && Inv(View())
      modifies this`running, this`pipe, this`fds, this`queues, this`tasks, this`hist, rings, rings.nodes
      ensures Valid() && rings.nodes == old(rings.nodes)
      ensures View() == Returns(old(View()), turn)
    {
      SurfaceReports(View(), Surface(), turn.wakes);
      if turn.ready.Some? {
        AfterReady(turn.ready.value, Usable(Surface(), turn.wakes));
      } else {
        AfterPending();
      }
    }

    /** The untimed wait: kernel and other threads act, until there is something to report or the call fails. */
    method WaitForEvents(turn: Turn, ghost m0: R.Machine, ghost trace0: seq<R.Action>, ghost m1: R.Machine)
      returns (failed: bool, ghost trace: seq<R.Action>, ghost m: R.Machine)
      requires Valid() && Leads(m0, trace0, m1) && m1.exec == View() && m1.phase.Waiting?
      modifies this, rings, rings.nodes
      ensures Valid() && (forall n :: n in rings.nodes ==> n in old(rings.nodes) || fresh(n))
      ensures Leads(m0, trace, m) && m == R.Machine(if failed then R.Outside else R.Select, View(), m1.retired)
      ensures failed == turn.fails
      ensures var s := Waits(old(View()), turn); View() == if failed then s else Told(s, turn.reports)
    {
      trace, m := PerformAll(turn.effects, true, m0, trace0, m1);
      failed, trace, m := Check(turn, m0, trace, m);
    }

    /** A check for events, or a wait for them: it delivers the turn's reports, or fails. */
    method Check(turn: Turn, ghost m0: R.Machine, ghost trace0: seq<R.Action>, ghost m1: R.Machine)
      returns (failed: bool, ghost trace: seq<R.Action>, ghost m: R.Machine)
      requires Valid() && Leads(m0, trace0, m1) && m1.exec == View() && (m1.phase.Waiting? || m1.phase.Check?)
      modifies this`pipe, this`fds, this`queues, this`tasks, this`hist, rings, rings.nodes
      ensures Valid() && rings.nodes == old(rings.nodes)
      ensures Leads(m0, trace, m) && m == R.Machine(if failed then R.Outside else R.Select, View(), m1.retired)
      ensures failed == turn.fails
      ensures View() == if failed then old(View()) else Told(old(View()), turn.reports)
    {
      failed := turn.fails;
      SurfaceReports(View(), Surface(), turn.reports);
      var rs := Usable(Surface(), turn.reports);
      ghost var a := if m1.phase.Waiting? then (if failed then R.WaitFails else R.Wait(rs))
                     else (if failed then R.CheckFails else R.CheckEvents(rs));
      Extend(m0, trace0, m1, a);
      if !failed {
        EpollWait(rs);
      }
      trace, m := trace0 + [a], R.Next(m1, a);
    }

    /**
     * `run`, for as long as `turns` says what futures, destructors, kernel and other
     * threads do.  Everything it does is a run of the transition system; if it
     * returns Ok and nobody asked for a shutdown, every task of the replaced executor
     * has completed or was aborted, and the new executor is as good as new.  After a
     * shutdown that is so up to what the destructors of released tasks do to it.
     */
    method Run(turns: seq<Turn>, renew: Renewal)
      returns (outcome: Outcome, next: Executor, ghost trace: seq<R.Action>, ghost m: R.Machine)
      requires Valid() && Inv(View()) && running == None
      modifies this, rings, rings.nodes
      ensures next.Valid() && (next != this ==> fresh(next) && fresh(next.rings) && fresh(next.rings.nodes))
      ensures (forall n :: n in rings.nodes ==> n in old(rings.nodes) || fresh(n))
      ensures Leads(R.Machine(R.Outside, old(View()), None), trace, m) && m.exec == next.View()
      ensures outcome.Finished? ==> m.phase.Outside? && m.retired.Some?
      ensures outcome.Finished? ==>
                next.View() == Fresh() || (outcome.stopped && next.View() == Performed(Fresh(), renew.drops, false))
      ensures outcome == Finished(false) ==>
                forall t :: t in m.retired.value.tasks ==>
                  m.retired.value.tasks[t].completed || m.retired.value.tasks[t].past.aborted
      ensures outcome == Failed ==> m.phase.Outside? && (renew.fails || SomeFails(turns))
      ensures outcome == OutOfTurns ==> m.phase.Polling? || (m.phase.Waiting? && m.exec.queues[SLEEP] != [])
      ensures NoTasks(old(View())) ==> outcome == if renew.fails then Failed else Finished(old(shutdown))
      ensures Ends(Runs(old(View()), turns), renew, outcome, next.View(), m.retired)
    {
      ghost var s := View();
      outcome, next, trace, m := RunToEnd(turns, renew);
      RunKeepsPromises(s, turns, renew, outcome, next.View(), m.retired);
    }

    method RunToEnd(turns: seq<Turn>, renew: Renewal)
      returns (outcome: Outcome, next: Executor, ghost trace: seq<R.Action>, ghost m: R.Machine)
      requires Valid() && Inv(View()) && running == None
      modifies this, rings, rings.nodes
      ensures next.Valid() && (next != this ==> fresh(next) && fresh(next.rings) && fresh(next.rings.nodes))
      ensures (forall n :: n in rings.nodes ==> n in old(rings.nodes) || fresh(n))
      ensures Leads(R.Machine(R.Outside, old(View()), None), trace, m) && m.exec == next.View()
      ensures outcome != OutOfTurns ==> m.phase.Outside?
      ensures outcome.Finished? ==> m.retired.Some?
      ensures outcome == Finished(false) ==> AllDone(m.retired.value)
      ensures outcome == OutOfTurns ==> m.phase.Polling? || (m.phase.Waiting? && m.exec.queues[SLEEP] != [])
      ensures Ends(Runs(old(View()), turns), renew, outcome, next.View(), m.retired)
    {
      ghost var m0;
      m0, trace, m := Called();
      var left;
      left, trace, m := RunLoop(turns, m0, trace, m);
      outcome, next, trace, m := Leave(left, renew, m0, trace, m);
    }

    /** The loop has been left: to retire, or else for good. */
    method Leave(left: Exit, renew: Renewal, ghost m0: R.Machine, ghost trace0: seq<R.Action>, ghost m1: R.Machine)
      returns (outcome: Outcome, next: Executor, ghost trace: seq<R.Action>, ghost m: R.Machine)
      requires Valid() && Leads(m0, trace0, m1) && m1.exec == View() && left != NoneLeft
      requires (left == Stop ==> m1.phase.Retiring?) && (left == Error ==> m1.phase.Outside?)
      modifies this, rings, rings.nodes
      ensures next.Valid() && (next != this ==> fresh(next) && fresh(next.rings) && fresh(next.rings.nodes))
      ensures rings.nodes == old(rings.nodes)
      ensures Leads(m0, trace, m) && m.exec == next.View()
      ensures outcome == match left
                case Stop => if renew.fails then Failed else Finished(old(shutdown))
                case Error => Failed
                case _ => OutOfTurns
      ensures m.phase == if outcome == OutOfTurns then m1.phase else R.Outside
      ensures outcome.Finished? ==> m.retired.Some?
      ensures outcome == Finished(false) ==> AllDone(m.retired.value)
      ensures Ends(Left(left, old(View())), renew, outcome, next.View(), m.retired)
    {
      if left == Stop {
        outcome, next, trace, m := Retire(renew, m0, trace0, m1);
      } else {
        outcome, next, trace, m := (if left == Error then Failed else OutOfTurns), this, trace0, m1;
      }
    }

    /** `run` is called. */
    ghost method Called() returns (m0: R.Machine, trace: seq<R.Action>, m: R.Machine)
      requires Inv(View()) && running == None
      ensures m0 == R.Machine(R.Outside, View(), None) && m == m0.(phase := R.Select) && Leads(m0, trace, m)
    {
      m0 := R.Machine(R.Outside, View(), None);
      Extend(m0, [], m0, R.Start);
      trace, m := [] + [R.Start], R.Next(m0, R.Start);
    }

    /** The outer loop: left to retire, because of an error from epoll, or for want of turns. */
    method RunLoop(turns: seq<Turn>, ghost m0: R.Machine, ghost trace0: seq<R.Action>, ghost m1: R.Machine)
      returns (left: Exit, ghost trace: seq<R.Action>, ghost m: R.Machine)
      requires Valid() && Leads(m0, trace0, m1) && m1.exec == View() && m1.phase.Select?
      modifies this, rings, rings.nodes
      ensures Valid() && (forall n :: n in rings.nodes ==> n in old(rings.nodes) || fresh(n))
      ensures Leads(m0, trace, m) && m.exec == View()
      ensures (left == Stop ==> m.phase.Retiring?) && (left == Error ==> m.phase.Outside?)
      ensures left != NoneLeft && (left == Error ==> SomeFails(turns))
      ensures left == NoTurns ==> m.phase.Polling? || (m.phase.Waiting? && queues[SLEEP] != [])
      ensures Left(left, View()) == Runs(old(View()), turns)
    {
      var i := 0;
      assert turns[0..] == turns;
      trace, m := trace0, m1;
      while true
        invariant i <= |turns| && Valid() && (forall n :: n in rings.nodes ==> n in old(rings.nodes) || fresh(n))
        invariant Leads(m0, trace, m) && m.exec == View() && m.phase.Select?
        invariant Runs(View(), turns[i..]) == Runs(old(View()), turns)
        decreases |turns| - i
      {
        left, i, trace, m := Round(turns, i, m0, trace, m);
        if left != NoneLeft {
          return left, trace, m;
        }
      }
    }

    /** One round: tasks are run, then events are waited for. */
    method Round(turns: seq<Turn>, i0: nat, ghost m0: R.Machine, ghost trace0: seq<R.Action>, ghost m1: R.Machine)
      returns (left: Exit, i: nat, ghost trace: seq<R.Action>, ghost m: R.Machine)
      requires Valid() && Leads(m0, trace0, m1) && m1.exec == View() && m1.phase.Select? && i0 <= |turns|
      modifies this, rings, rings.nodes
      ensures Valid() && (forall n :: n in rings.nodes ==> n in old(rings.nodes) || fresh(n))
      ensures Leads(m0, trace, m) && m.exec == View() && i0 <= i <= |turns|
      ensures left == NoneLeft ==> m.phase.Select? && i0 < i
      ensures (left == Stop ==> m.phase.Retiring?) && (left == Error ==> m.phase.Outside?)
      ensures left == Error ==> SomeFails(turns)
      ensures left == NoTurns ==> m.phase.Polling? || (m.phase.Waiting? && queues[SLEEP] != [])
      ensures if left == NoneLeft then Runs(View(), turns[i..]) == Runs(old(View()), turns[i0..])
              else Left(left, View()) == Runs(old(View()), turns[i0..])
    {
      left, i, trace, m := RunTasks(turns, i0, m0, trace0, m1);
      if left == NoneLeft {
        left, trace, m := Rest(turns, i, m0, trace, m);
        i := if left == NoneLeft then i + 1 else i;
      }
    }

    /** The second half of the outer loop: done if no task sleeps, else a wait. */
    method Rest(turns: seq<Turn>, i: nat, ghost m0: R.Machine, ghost trace0: seq<R.Action>, ghost m1: R.Machine)
      returns (left: Exit, ghost trace: seq<R.Action>, ghost m: R.Machine)
      requires Valid() && Leads(m0, trace0, m1) && m1.exec == View() && m1.phase.Idle? && i <= |turns|
      modifies this, rings, rings.nodes
      ensures Valid() && (forall n :: n in rings.nodes ==> n in old(rings.nodes) || fresh(n))
      ensures Leads(m0, trace, m) && m.exec == View()
      ensures m.phase == match left
                case NoneLeft => R.Select
                case NoTurns => R.Waiting
                case Stop => R.Retiring
                case Error => R.Outside
      ensures left == NoneLeft ==> i < |turns|
      ensures left == Error ==> SomeFails(turns)
      ensures left == NoTurns ==> queues[SLEEP] != []
      ensures !Runnable(old(View())) ==>
                if left == NoneLeft then Runs(View(), turns[i + 1..]) == Runs(old(View()), turns[i..])
                else Left(left, View()) == Runs(old(View()), turns[i..])
    {
      if !Runnable(View()) { RunsRest(View(), turns, i); }
      var none, failed;
      none, trace, m := LookForSleepers(m0, trace0, m1);
      if none {
        return Stop, trace, m;
      }
      if i == |turns| {
        return NoTurns, trace, m;
      }
      failed, trace, m := WaitForEvents(turns[i], m0, trace, m);
      left := if failed then Error else NoneLeft;
    }

    /** The last step of `run`. */
    method Retire(renew: Renewal, ghost m0: R.Machine, ghost trace0: seq<R.Action>, ghost m1: R.Machine)
      returns (outcome: Outcome, next: Executor, ghost trace: seq<R.Action>, ghost m: R.Machine)
      requires Valid() && Leads(m0, trace0, m1) && m1.exec == View() && m1.phase.Retiring?
      modifies this, rings, rings.nodes
      ensures next.Valid() && (next != this ==> fresh(next) && fresh(next.rings) && fresh(next.rings.nodes))
      ensures rings.nodes == old(rings.nodes)
      ensures Leads(m0, trace, m) && m.exec == next.View() && m.phase.Outside?
      ensures outcome == if renew.fails then Failed else Finished(old(shutdown))
      ensures outcome.Finished? ==>
                && m.retired.Some?
                && (next.View() == Fresh() || (outcome.stopped && next.View() == Performed(Fresh(), renew.drops, false)))
      ensures outcome == Finished(false) ==> AllDone(m.retired.value)
      ensures Ends(Left(Stop, old(View())), renew, outcome, next.View(), m.retired)
    {
      RetiringDone(m0, trace0, m1);
      outcome, next, trace, m := ReplaceExecutor(renew, m0, trace0, m1);
    }

    /** The inner loop: tasks are run as long as one is runnable. */
    method RunTasks(turns: seq<Turn>, i0: nat, ghost m0: R.Machine, ghost trace0: seq<R.Action>, ghost m1: R.Machine)
      returns (left: Exit, i: nat, ghost trace: seq<R.Action>, ghost m: R.Machine)
      requires Valid() && Leads(m0, trace0, m1) && m1.exec == View() && m1.phase.Select? && i0 <= |turns|
      modifies this, rings, rings.nodes
      ensures Valid() && (forall n :: n in rings.nodes ==> n in old(rings.nodes) || fresh(n))
      ensures Leads(m0, trace, m) && m.exec == View() && i0 <= i <= |turns|
      ensures m.phase == match left
                case NoneLeft => R.Idle
                case NoTurns => R.Polling
                case Stop => R.Retiring
                case Error => R.Outside
      ensures left == Error ==> SomeFails(turns)
      ensures left == NoneLeft ==> !Runnable(View()) && Runs(View(), turns[i..]) == Runs(old(View()), turns[i0..])
      ensures left != NoneLeft ==> Left(left, View()) == Runs(old(View()), turns[i0..])
    {
      i, trace, m := i0, trace0, m1;
      ghost var end := Runs(View(), turns[i0..]);
      while true
        invariant i0 <= i <= |turns| && Valid() && (forall n :: n in rings.nodes ==> n in old(rings.nodes) || fresh(n))
        invariant Leads(m0, trace, m) && m.exec == View() && m.phase.Select?
        invariant Runs(View(), turns[i..]) == end
        decreases |turns| - i
      {
        var again;
        left, again, trace, m := TakeTurn(turns, i, m0, trace, m);
        if !again {
          return left, i, trace, m;
        }
        i := i + 1;
      }
    }

    /** One round of the inner loop; `again` unless it is over. */
    method TakeTurn(turns: seq<Turn>, i: nat, ghost m0: R.Machine, ghost trace0: seq<R.Action>, ghost m1: R.Machine)
      returns (left: Exit, again: bool, ghost trace: seq<R.Action>, ghost m: R.Machine)
      requires Valid() && Leads(m0, trace0, m1) && m1.exec == View() && m1.phase.Select? && i <= |turns|
      modifies this, rings, rings.nodes
      ensures Valid() && (forall n :: n in rings.nodes ==> n in old(rings.nodes) || fresh(n))
      ensures Leads(m0, trace, m) && m.exec == View() && (again ==> i < |turns| && left == NoneLeft)
      ensures m.phase == match left
                case NoneLeft => if again then R.Select else R.Idle
                case NoTurns => R.Polling
                case Stop => R.Retiring
                case Error => R.Outside
      ensures left == Error ==> SomeFails(turns)
      ensures !again && left == NoneLeft ==> !Runnable(View())
      ensures Runs(old(View()), turns[i..]) ==
              if left == NoneLeft then Runs(View(), turns[if again then i + 1 else i..]) else Left(left, View())
    {
      if Runnable(View()) { RunsTask(View(), turns, i); }
      var runnable;
      runnable, trace, m := NextTask(m0, trace0, m1);
      if runnable.None? {
        return NoneLeft, false, trace, m;
      }
      if i == |turns| {
        return NoTurns, false, trace, m;
      }
      left, trace, m := TakeTask(turns, i, m0, trace, m);
      again := left == NoneLeft;
    }

    /** A task has been taken: it is run, then a shutdown is looked for and events are checked. */
    method TakeTask(turns: seq<Turn>, i: nat, ghost m0: R.Machine, ghost trace0: seq<R.Action>, ghost m1: R.Machine)
      returns (left: Exit, ghost trace: seq<R.Action>, ghost m: R.Machine)
      requires Valid() && Leads(m0, trace0, m1) && m1.exec == View() && m1.phase.Polling? && i < |turns|
      modifies this, rings, rings.nodes
      ensures Valid() && (forall n :: n in rings.nodes ==> n in old(rings.nodes) || fresh(n))
      ensures Leads(m0, trace, m) && m.exec == View() && left != NoTurns
      ensures m.phase == match left
                case NoneLeft => R.Select
                case Stop => R.Retiring
                case _ => R.Outside
      ensures left == Error ==> SomeFails(turns)
      ensures TaskTurn(old(View()), turns, i) ==
              if left == NoneLeft then Runs(View(), turns[i + 1..]) else Left(left, View())
    {
      trace, m := RunTask(turns[i], m0, trace0, m1);
      var stop;
      stop, trace, m := LookForShutdown(m0, trace, m);
      if stop {
        return Stop, trace, m;
      }
      var failed;
      failed, trace, m := Check(turns[i], m0, trace, m);
      left := if failed then Error else NoneLeft;
    }

    method NextTask(ghost m0: R.Machine, ghost trace0: seq<R.Action>, ghost m1: R.Machine)
      returns (runnable: Option<TaskId>, ghost trace: seq<R.Action>, ghost m: R.Machine)
      requires Valid() && Leads(m0, trace0, m1) && m1.exec == View() && m1.phase.Select?
      modifies this`running, this`queues, this`tasks, this`hist, rings, rings.nodes
      ensures Valid() && rings.nodes == old(rings.nodes)
      ensures Leads(m0, trace, m) && m.exec == View() && m.phase == if runnable.Some? then R.Polling else R.Idle
      ensures runnable.Some? == Runnable(old(View()))
      ensures View() == if runnable.Some? then PopRun(old(View())) else old(View())
    {
      ghost var a := if Runnable(View()) then R.PollNext else R.NoTask;
      Extend(m0, trace0, m1, a);
      runnable := HighestPriorityRunnableTask();
      trace, m := trace0 + [a], R.Next(m1, a);
    }

    method LookForShutdown(ghost m0: R.Machine, ghost trace0: seq<R.Action>, ghost m1: R.Machine)
      returns (stop: bool, ghost trace: seq<R.Action>, ghost m: R.Machine)
      requires Leads(m0, trace0, m1) && m1.exec == View() && m1.phase.Polled?
      ensures Leads(m0, trace, m) && m == m1.(phase := if stop then R.Retiring else R.Check)
      ensures stop == shutdown
    {
      Extend(m0, trace0, m1, R.TestShutdown);
      trace, m := trace0 + [R.TestShutdown], R.Next(m1, R.TestShutdown);
      stop := shutdown;
    }

    method LookForSleepers(ghost m0: R.Machine, ghost trace0: seq<R.Action>, ghost m1: R.Machine)
      returns (none: bool, ghost trace: seq<R.Action>, ghost m: R.Machine)
      requires Valid() && Leads(m0, trace0, m1) && m1.exec == View() && m1.phase.Idle?
      ensures Leads(m0, trace, m) && m == m1.(phase := if none then R.Retiring else R.Waiting)
      ensures none == (queues[SLEEP] == [])
    {
      Extend(m0, trace0, m1, R.TestSleep);
      trace, m := trace0 + [R.TestSleep], R.Next(m1, R.TestSleep);
      none := TaskQueues.IsEmpty(rings, queues, hist.where, tasks, SLEEP);
    }

    /**
     * `EXECUTOR.replace(Executor::new()?)`.  If a new executor cannot be made the old
     * one stays.  Otherwise the old one's queues are dropped when the new one is already
     * in place: what the destructors of released tasks do, they do to the new one.
     */
    method ReplaceExecutor(renew: Renewal, ghost m0: R.Machine, ghost trace0: seq<R.Action>, ghost m1: R.Machine)
      returns (outcome: Outcome, next: Executor, ghost trace: seq<R.Action>, ghost m: R.Machine)
      requires Valid() && Leads(m0, trace0, m1) && m1.exec == View() && m1.phase.Retiring?
      modifies this, rings, rings.nodes
      ensures next.Valid() && (next != this ==> fresh(next) && fresh(next.rings) && fresh(next.rings.nodes))
      ensures rings.nodes == old(rings.nodes)
      ensures Leads(m0, trace, m) && m.exec == next.View() && m.phase.Outside?
      ensures outcome == if renew.fails then Failed else Finished(old(shutdown))
      ensures renew.fails ==> next == this && View() == old(View())
      ensures !renew.fails ==> m.retired == Some(R.DropQueues(old(View())))
      ensures !renew.fails ==>
                next.View() == if old(queues) == [[], [], [], []] then Fresh() else Performed(Fresh(), renew.drops, false)
    {
      if renew.fails {
        Extend(m0, trace0, m1, R.ReplaceFails);
        return Failed, this, trace0 + [R.ReplaceFails], R.Next(m1, R.ReplaceFails);
      }
      outcome := Finished(shutdown);
      next, trace, m := Renew(renew.drops, m0, trace0, m1);
    }

    method Renew(drops: seq<Effect>, ghost m0: R.Machine, ghost trace0: seq<R.Action>, ghost m1: R.Machine)
      returns (next: Executor, ghost trace: seq<R.Action>, ghost m: R.Machine)
      requires Valid() && Leads(m0, trace0, m1) && m1.exec == View() && m1.phase.Retiring?
      modifies this, rings, rings.nodes
      ensures next.Valid() && fresh(next) && fresh(next.rings) && fresh(next.rings.nodes)
      ensures rings.nodes == old(rings.nodes)
      ensures Leads(m0, trace, m) && m.exec == next.View() && m.phase.Outside?
      ensures m.retired == Some(R.DropQueues(old(View())))
      ensures next.View() == if old(queues) == [[], [], [], []] then Fresh() else Performed(Fresh(), drops, false)
    {
      Extend(m0, trace0, m1, R.Replace);
      trace, m := trace0 + [R.Replace], R.Next(m1, R.Replace);
      var released := DropQueues();
      next, trace, m := Successor(if released then drops else [], m0, trace, m);
    }

    /** The new executor, after what the destructors do to it. */
    static method Successor(drops: seq<Effect>, ghost m0: R.Machine, ghost trace0: seq<R.Action>, ghost m1: R.Machine)
      returns (next: Executor, ghost trace: seq<R.Action>, ghost m: R.Machine)
      requires Leads(m0, trace0, m1) && m1.exec == Fresh() && m1.phase.Outside?
      ensures next.Valid() && fresh(next) && fresh(next.rings) && fresh(next.rings.nodes)
      ensures Leads(m0, trace, m) && m == m1.(exec := next.View()) && next.View() == Performed(Fresh(), drops, false)
    {
      next := new Executor();
      trace, m := next.PerformAll(drops, false, m0, trace0, m1);
    }

    /** The old executor is dropped, its queues first; true if they held any task. */
    method DropQueues() returns (released: bool)
      requires Valid()
      modifies rings, rings.nodes
      ensures rings.nodes == old(rings.nodes)
      ensures released == (queues != [[], [], [], []])
      ensures rings.Contents() == [[], [], [], []] && Returned(View(), rings.strong)
    {
      LocatedQueues();
      released := HoldsTasks();
      TaskQueues.DropAll(rings, queues, hist.where, tasks);
      AllReturned(View(), rings.strong);
    }

    lemma LocatedQueues()
      requires Valid()
      ensures Q.Located(queues, hist.where)
    {
      TaskQueues.LocatedFamily(rings);
    }

    method HoldsTasks() returns (r: bool)
      requires Valid()
      ensures r == (queues != [[], [], [], []])
    {
      var h := TaskQueues.IsEmpty(rings, queues, hist.where, tasks, HIGH);
      var n := TaskQueues.IsEmpty(rings, queues, hist.where, tasks, NORMAL);
      var l := TaskQueues.IsEmpty(rings, queues, hist.where, tasks, LOW);
      var s := TaskQueues.IsEmpty(rings, queues, hist.where, tasks, SLEEP);
      r := !(h && n && l && s);
    }

    // -------------------------------------------------------------- block_on

    /** The effects of one poll, or of the destructors after it, inside `block_on`. */
    method PerformInLoop(effects: seq<Effect>, external: bool, ghost l0: B.Loop, ghost trace0: seq<B.Action>, ghost l1: B.Loop)
      returns (ghost trace: seq<B.Action>, ghost l: B.Loop)
      requires Valid() && LeadsLoop(l0, trace0, l1) && l1.exec == View()
      requires l1.phase.Future? || l1.phase.TaskPoll? || l1.phase.TaskDone? || external
      modifies this, rings, rings.nodes
      ensures Valid() && (forall n :: n in rings.nodes ==> n in old(rings.nodes) || fresh(n))
      ensures LeadsLoop(l0, trace, l) && l.exec == View() && l.phase == l1.phase
      ensures View() == Performed(old(View()), effects, external)
    {
      trace, l := trace0, l1;
      for i := 0 to |effects|
        invariant Valid() && (forall n :: n in rings.nodes ==> n in old(rings.nodes) || fresh(n))
        invariant LeadsLoop(l0, trace, l) && l.exec == View() && l.phase == l1.phase
        invariant View() == Performed(old(View()), effects[..i], external)
      {
        assert effects[..i + 1][..i] == effects[..i];
        trace, l := TryInLoop(effects[i], external, l0, trace, l);
      }
      assert effects[..|effects|] == effects;
    }

    /** One effect, if it is possible. */
    method TryInLoop(e: Effect, external: bool, ghost l0: B.Loop, ghost trace0: seq<B.Action>, ghost l1: B.Loop)
      returns (ghost trace: seq<B.Action>, ghost l: B.Loop)
      requires Valid() && LeadsLoop(l0, trace0, l1) && l1.exec == View()
      requires l1.phase.Future? || l1.phase.TaskPoll? || l1.phase.TaskDone? || external
      modifies this, rings, rings.nodes
      ensures Valid() && (forall n :: n in rings.nodes ==> n in old(rings.nodes) || fresh(n))
      ensures LeadsLoop(l0, trace, l) && l.exec == View() && l.phase == l1.phase
      ensures View() == Tried(old(View()), e, external)
    {
      trace, l := trace0, l1;
      SurfaceAllows(View(), Surface(), e);
      if Allowed(Surface(), e) && (external ==> External(e)) {
        trace, l := StepInLoop(e, l0, trace0, l1);
      }
    }

    method StepInLoop(e: Effect, ghost l0: B.Loop, ghost trace0: seq<B.Action>, ghost l1: B.Loop)
      returns (ghost trace: seq<B.Action>, ghost l: B.Loop)
      requires Valid() && LeadsLoop(l0, trace0, l1) && l1.exec == View() && Allowed(View(), e)
      requires l1.phase.Future? || l1.phase.TaskPoll? || l1.phase.TaskDone? || External(e)
      modifies this, rings, rings.nodes
      ensures Valid() && (forall n :: n in rings.nodes ==> n in old(rings.nodes) || fresh(n))
      ensures LeadsLoop(l0, trace, l) && l.exec == View() && l.phase == l1.phase
      ensures View() == Apply(old(View()), e)
    {
      l := DoInLoop(l0, trace0, l1, e);
      Perform(e);
      trace := trace0 + [B.Do(e)];
    }

    /** One task run by `block_on`: its poll, its result, and the check for events that follows. */
    method RunTaskInLoop(turn: Turn, ghost l0: B.Loop, ghost trace0: seq<B.Action>, ghost l1: B.Loop)
      returns (ghost trace: seq<B.Action>, ghost l: B.Loop)
      requires Valid() && LeadsLoop(l0, trace0, l1) && l1.exec == View() && l1.phase.TaskPoll?
      modifies this, rings, rings.nodes
      ensures Valid() && (forall n :: n in rings.nodes ==> n in old(rings.nodes) || fresh(n))
      ensures LeadsLoop(l0, trace, l) && l.exec == View() && l.phase.Future?
      ensures View() == Told(Polls(old(View()), turn), turn.reports)
    {
      trace, l := PerformInLoop(turn.effects, false, l0, trace0, l1);
      trace, l := EndPollInLoop(turn, l0, trace, l);
      trace, l := PerformInLoop(turn.after, false, l0, trace, l);
      trace, l := CheckInLoop(turn.reports, l0, trace, l);
    }

    method EndPollInLoop(turn: Turn, ghost l0: B.Loop, ghost trace0: seq<B.Action>, ghost l1: B.Loop)
      returns (ghost trace: seq<B.Action>, ghost l: B.Loop)
      requires Valid() && LeadsLoop(l0, trace0, l1) && l1.exec == View() && l1.phase.TaskPoll?
      modifies this`running, this`pipe, this`fds, this`queues, this`tasks, this`hist, rings, rings.nodes
      ensures Valid() && rings.nodes == old(rings.nodes)
      ensures LeadsLoop(l0, trace, l) && l == l1.(phase := B.TaskDone, exec := View())
      ensures View() == Returns(old(View()), turn)
    {
      ghost var a := if turn.ready.Some? then B.TaskReady(turn.ready.value, Usable(View(), turn.wakes)) else B.TaskPending;
      LeadsLoopInv(l0, trace0, l1);
      ExtendInLoop(l0, trace0, l1, a);
      Return(turn);
      trace, l := trace0 + [a], B.Next(l1, a);
    }

    /** A check for events, or a wait for them; the future's next poll begins. */
    method CheckInLoop(reports: seq<Report>, ghost l0: B.Loop, ghost trace0: seq<B.Action>, ghost l1: B.Loop)
      returns (ghost trace: seq<B.Action>, ghost l: B.Loop)
      requires Valid() && LeadsLoop(l0, trace0, l1) && l1.exec == View() && (l1.phase.TaskDone? || l1.phase.Waiting?)
      modifies this`pipe, this`fds, this`queues, this`tasks, this`hist, rings, rings.nodes
      ensures Valid() && rings.nodes == old(rings.nodes)
      ensures LeadsLoop(l0, trace, l) && l.exec == View() && l.phase.Future?
      ensures View() == Told(old(View()), reports)
    {
      SurfaceReports(View(), Surface(), reports);
      var rs := Usable(Surface(), reports);
      ghost var a := if l1.phase.Waiting? then B.Wait(rs) else B.CheckEvents(rs);
      ExtendInLoop(l0, trace0, l1, a);
      EpollWait(rs);
      trace, l := trace0 + [a], B.Next(l1, a);
    }

    /**
     * `block_on` outside any task, for as long as `turns` says what the future
     * (`poll`, and `done` when it is Ready) and the tasks do.  Everything it does is
     * a run of the transition system of module `BlockOn`; uses of the future's waker
     * on this thread do nothing, so they do not show here.
     */
    method BlockOn(turns: seq<LoopTurn>) returns (finished: bool, ghost trace: seq<B.Action>, ghost l: B.Loop)
      requires Valid() && Inv(View()) && running == None
      modifies this, rings, rings.nodes
      ensures Valid() && (forall n :: n in rings.nodes ==> n in old(rings.nodes) || fresh(n))
      ensures LeadsLoop(B.Begin(old(View())), trace, l) && l.exec == View()
      ensures finished <==> l.phase.Returned?
      ensures finished == SomeDone(turns) && View() == Blocks(old(View()), turns)
    {
      ghost var l0 := B.Begin(View());
      trace, l := [], l0;
      for i := 0 to |turns|
        invariant Valid() && (forall n :: n in rings.nodes ==> n in old(rings.nodes) || fresh(n))
        invariant LeadsLoop(l0, trace, l) && l.exec == View() && l.phase.Future?
        invariant !SomeDone(turns[..i]) && Blocks(View(), turns[i..]) == Blocks(old(View()), turns)
      {
        BlocksAt(View(), turns, i);
        trace, l := LoopOnce(turns[i], l0, trace, l);
        if turns[i].done {
          DoneSoFar(turns, i + 1);
          return true, trace, l;
        }
      }
      assert turns[..|turns|] == turns;
      finished := false;
    }

    method LoopOnce(turn: LoopTurn, ghost l0: B.Loop, ghost trace0: seq<B.Action>, ghost l1: B.Loop)
      returns (ghost trace: seq<B.Action>, ghost l: B.Loop)
      requires Valid() && LeadsLoop(l0, trace0, l1) && l1.exec == View() && l1.phase.Future?
      modifies this, rings, rings.nodes
      ensures Valid() && (forall n :: n in rings.nodes ==> n in old(rings.nodes) || fresh(n))
      ensures LeadsLoop(l0, trace, l) && l.exec == View() && l.phase == if turn.done then B.Returned else B.Future
      ensures View() == LoopTurns(old(View()), turn)
    {
      trace, l := PollFuture(turn.poll, turn.done, l0, trace0, l1);
      if !turn.done {
        trace, l := TaskOrWait(turn.turn, l0, trace, l);
      }
    }

    method PollFuture(effects: seq<Effect>, done: bool, ghost l0: B.Loop, ghost trace0: seq<B.Action>, ghost l1: B.Loop)
      returns (ghost trace: seq<B.Action>, ghost l: B.Loop)
      requires Valid() && LeadsLoop(l0, trace0, l1) && l1.exec == View() && l1.phase.Future?
      modifies this, rings, rings.nodes
      ensures Valid() && (forall n :: n in rings.nodes ==> n in old(rings.nodes) || fresh(n))
      ensures LeadsLoop(l0, trace, l) && l.exec == View() && l.phase == if done then B.Returned else B.Choose
      ensures View() == Performed(old(View()), effects, false)
    {
      trace, l := PerformInLoop(effects, false, l0, trace0, l1);
      ghost var a := if done then B.FutureReady else B.FuturePending;
      ExtendInLoop(l0, trace, l, a);
      trace, l := trace + [a], B.Next(l, a);
    }

    /** The second half of the loop: run the best task, or wait if there is none. */
    method TaskOrWait(turn: Turn, ghost l0: B.Loop, ghost trace0: seq<B.Action>, ghost l1: B.Loop)
      returns (ghost trace: seq<B.Action>, ghost l: B.Loop)
      requires Valid() && LeadsLoop(l0, trace0, l1) && l1.exec == View() && l1.phase.Choose?
      modifies this, rings, rings.nodes
      ensures Valid() && (forall n :: n in rings.nodes ==> n in old(rings.nodes) || fresh(n))
      ensures LeadsLoop(l0, trace, l) && l.exec == View() && l.phase.Future?
      ensures View() == if Runnable(old(View())) then Told(Polls(PopRun(old(View())), turn), turn.reports)
                        else Told(Waits(old(View()), turn), turn.reports)
    {
      var runnable;
      runnable, trace, l := NextTaskInLoop(l0, trace0, l1);
      if runnable.Some? {
        trace, l := RunTaskInLoop(turn, l0, trace, l);
      } else {
        trace, l := WaitInLoop(turn, l0, trace, l);
      }
    }

    method NextTaskInLoop(ghost l0: B.Loop, ghost trace0: seq<B.Action>, ghost l1: B.Loop)
      returns (runnable: Option<TaskId>, ghost trace: seq<B.Action>, ghost l: B.Loop)
      requires Valid() && LeadsLoop(l0, trace0, l1) && l1.exec == View() && l1.phase.Choose?
      modifies this`running, this`queues, this`tasks, this`hist, rings, rings.nodes
      ensures Valid() && rings.nodes == old(rings.nodes)
      ensures LeadsLoop(l0, trace, l) && l.exec == View() && l.phase == if runnable.Some? then B.TaskPoll else B.Waiting
      ensures runnable.Some? == Runnable(old(View()))
      ensures View() == if runnable.Some? then PopRun(old(View())) else old(View())
    {
      ghost var a := if Runnable(View()) then B.TakeTask else B.NoTask;
      ExtendInLoop(l0, trace0, l1, a);
      runnable := HighestPriorityRunnableTask();
      trace, l := trace0 + [a], B.Next(l1, a);
    }

    /** The untimed wait: kernel and other threads act, until there is something to report. */
    method WaitInLoop(turn: Turn, ghost l0: B.Loop, ghost trace0: seq<B.Action>, ghost l1: B.Loop)
      returns (ghost trace: seq<B.Action>, ghost l: B.Loop)
      requires Valid() && LeadsLoop(l0, trace0, l1) && l1.exec == View() && l1.phase.Waiting?
      modifies this, rings, rings.nodes
      ensures Valid() && (forall n :: n in rings.nodes ==> n in old(rings.nodes) || fresh(n))
      ensures LeadsLoop(l0, trace, l) && l.exec == View() && l.phase.Future?
      ensures View() == Told(Waits(old(View()), turn), turn.reports)
    {
      trace, l := PerformInLoop(turn.effects, true, l0, trace0, l1);
      trace, l := CheckInLoop(turn.reports, l0, trace, l);
    }
  }
}
