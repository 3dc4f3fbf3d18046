/**
 * `block_on`, when it is not called from inside a task: a second loop over the
 * same executor, which polls one future of its own between tasks.
 */
module BlockOn {
  import opened Types
  import opened ExecState
  import opened ExecInv
  import RunLoop
  import opened RunTheorems

  /**
   *   Future     inside the future's poll
   *   Choose     the future is pending; about to look for a runnable task
   *   TaskPoll   inside a task's poll
   *   TaskDone   after it; destructors may run, then events are checked
   *   Waiting    no task was runnable: in the untimed epoll_wait
   *   Returned   the future was ready
   */
  datatype Phase = Future | Choose | TaskPoll | TaskDone | Waiting | Returned

  /**
   * `due`: since the future's latest poll began, its waker was used by another
   * thread or by a task of this loop.  `self`: it was used by the future's own poll, be
   * it by an fd whose burst was over.  `waits` and `tired`: the fds whose latest result
   * in that poll of the future read as Pending, for want of an event or because their
   * burst was over, and that still exist.
   */
  datatype Loop = Loop(phase: Phase, exec: Exec, due: bool, self: bool, waits: set<FdId>, tired: set<FdId>)

  datatype Action =
    | Do(e: Effect)
    | WakeInPoll
    | WakeInTask
    | FuturePending
    | FutureReady
    | TakeTask
    | NoTask
    | TaskPending
    | TaskReady(v: int, reports: seq<Report>)
    | CheckEvents(reports: seq<Report>)
    | Wait(reports: seq<Report>)

  ghost predicate Enabled(l: Loop, a: Action) {
    match a
    case Do(e) => (External(e) || l.phase.Future? || l.phase.TaskPoll? || l.phase.TaskDone?) && Allowed(l.exec, e)
    case WakeInPoll => l.phase.Future?
    case WakeInTask => l.phase.TaskPoll? || l.phase.TaskDone?
    case FuturePending => l.phase.Future?
    case FutureReady => l.phase.Future?
    case TakeTask => l.phase.Choose? && Runnable(l.exec)
    case NoTask => l.phase.Choose? && !Runnable(l.exec)
    case TaskPending => l.phase.TaskPoll? && Busy(l.exec)
    case TaskReady(v, reports) => l.phase.TaskPoll? && Busy(l.exec) && ReportsOk(l.exec, reports)
    case CheckEvents(reports) => l.phase.TaskDone? && ReportsOk(l.exec, reports)
    case Wait(reports) => l.phase.Waiting? && ReportsOk(l.exec, reports)
  }

  /** Of the fds `fds`, whose latest result was `r`, those for which it still is after `e`. */
  function ReadAs(l: Loop, e: Effect, r: PollResult, fds: set<FdId>): set<FdId>
    requires Allowed(l.exec, e)
  {
    match e
    case DoPollFd(fd, dir, w, io, reports) =>
      if !l.phase.Future? then fds
      else if PollResultOf(l.exec.fds[fd], io) == r then fds + {fd}
      else fds - {fd}
    case DoDropFd(fd) => fds - {fd}
    case _ => fds
  }

  /** An fd whose burst is over wakes whoever polls it, which here is the future itself. */
  predicate WakesItself(l: Loop, e: Effect)
    requires Allowed(l.exec, e)
  {
    l.phase.Future? && e.DoPollFd? && e.w == OtherWaker && PollResultOf(l.exec.fds[e.fd], e.io) == PollYield
  }

  /** A wake on the executor's own thread is a no-op; one from another thread writes a null message. */
  ghost function Next(l: Loop, a: Action): Loop
    requires Enabled(l, a)
  {
    match a
    case Do(e) => l.(exec := Apply(l.exec, e), due := l.due || e.RemoteNull?, self := l.self || WakesItself(l, e),
                    waits := ReadAs(l, e, PollPending, l.waits), tired := ReadAs(l, e, PollYield, l.tired))
    case WakeInPoll => l.(self := true)
    case WakeInTask => l.(due := true)
    case FuturePending => l.(phase := Choose)
    case FutureReady => l.(phase := Returned)
    case TakeTask => l.(phase := TaskPoll, exec := PopRun(l.exec))
    case NoTask => l.(phase := Waiting)
    case TaskPending => l.(phase := TaskDone, exec := FinishPending(l.exec))
    case TaskReady(v, reports) => l.(phase := TaskDone, exec := FinishReady(l.exec, v, reports))
    case CheckEvents(reports) => Loop(Future, EpollWait(l.exec, reports), false, false, {}, {})
    case Wait(reports) => Loop(Future, EpollWait(l.exec, reports), false, false, {}, {})
  }

  ghost predicate Valid(l: Loop, acts: seq<Action>)
    decreases |acts|
  {
    acts == [] || (Enabled(l, acts[0]) && Valid(Next(l, acts[0]), acts[1..]))
  }

  ghost function Final(l: Loop, acts: seq<Action>): Loop
    requires Valid(l, acts)
    decreases |acts|
  {
    if acts == [] then l else Final(Next(l, acts[0]), acts[1..])
  }

  lemma {:induction false} ExtendLoop(l: Loop, acts: seq<Action>, a: Action)
    requires Valid(l, acts) && Enabled(Final(l, acts), a)
    ensures Valid(l, acts + [a]) && Final(l, acts + [a]) == Next(Final(l, acts), a)
    decreases |acts|
  {
    if acts != [] {
      ExtendLoop(Next(l, acts[0]), acts[1..], a);
      assert (acts + [a])[1..] == acts[1..] + [a];
    }
  }

  /** `block_on` called on executor state `s`: the future's first poll begins. */
  ghost function Begin(s: Exec): Loop { Loop(Future, s, false, false, {}, {}) }

  /** While a poll of the future is not yet certain, a due wake has its message in the pipe. */
  ghost predicate LoopInv(l: Loop) {
    && Inv(l.exec)
    && (l.exec.running.Some? <==> l.phase.TaskPoll?)
    && (l.phase.Waiting? ==> !Runnable(l.exec))
    && (l.due && BeforeWait(l.phase) ==> Null in l.exec.pipe)
    && (BeforeWait(l.phase) ==> forall fd :: fd in l.waits ==> Unheard(l.exec, fd))
    && (BeforeWait(l.phase) ==> forall fd :: fd in l.tired ==> Heard(l.exec, fd))
  }

  /** From here `block_on` can block without another poll of the future. */
  predicate BeforeWait(p: Phase) { p.Future? || p.Choose? || p.Waiting? }

  /** No event on the fd has been cached since it was polled. */
  ghost predicate Unheard(s: Exec, fd: FdId) { fd in s.fds && s.fds[fd].cache == {} }

  ghost predicate Heard(s: Exec, fd: FdId) { fd in s.fds && s.fds[fd].cache != {} }

  /** With no task being polled, events are not looked at, so what has not been heard of stays so. */
  lemma ApplyKeepsUnheard(s: Exec, e: Effect, fd: FdId)
    requires Allowed(s, e) && s.running == None && e != DoDropFd(fd)
    requires Unheard(s, fd) || (e.DoPollFd? && e.fd == fd && PollResultOf(s.fds[fd], e.io) == PollPending)
    ensures Unheard(Apply(s, e), fd)
  {
    match e {
      case DoPollFd(g, dir, w, io, reports) =>
        if PollResultOf(s.fds[g], io) == PollYield {
          SetFdKeepsReports(s, reports, g, PolledFd(s.fds[g], w, io));
        }
      case _ =>
    }
  }

  /** And what is cached stays so, as long as the fd is not polled and found not ready. */
  lemma ApplyKeepsHeard(s: Exec, e: Effect, fd: FdId)
    requires Allowed(s, e) && s.running == None && e != DoDropFd(fd)
    requires Heard(s, fd) && !(e.DoPollFd? && e.fd == fd && PollResultOf(s.fds[fd], e.io) == PollPending)
    ensures Heard(Apply(s, e), fd)
  {
    match e {
      case DoPollFd(g, dir, w, io, reports) =>
        if PollResultOf(s.fds[g], io) == PollYield {
          SetFdKeepsReports(s, reports, g, PolledFd(s.fds[g], w, io));
        }
      case _ =>
    }
  }

  lemma DoKeepsUnheard(l: Loop, e: Effect)
    requires Enabled(l, Do(e)) && l.exec.running == None && BeforeWait(l.phase)
    requires forall fd :: fd in l.waits ==> Unheard(l.exec, fd)
    ensures forall fd :: fd in Next(l, Do(e)).waits ==> Unheard(Apply(l.exec, e), fd)
  {
    forall fd | fd in Next(l, Do(e)).waits ensures Unheard(Apply(l.exec, e), fd) {
      ApplyKeepsUnheard(l.exec, e, fd);
    }
  }

  lemma DoKeepsHeard(l: Loop, e: Effect)
    requires Enabled(l, Do(e)) && l.exec.running == None && BeforeWait(l.phase)
    requires forall fd :: fd in l.tired ==> Heard(l.exec, fd)
    ensures forall fd :: fd in Next(l, Do(e)).tired ==> Heard(Apply(l.exec, e), fd)
  {
    forall fd | fd in Next(l, Do(e)).tired ensures Heard(Apply(l.exec, e), fd) {
      ApplyKeepsHeard(l.exec, e, fd);
    }
  }

  /** With no task being polled, nothing done on this thread reads the pipe. */
  lemma ApplyKeepsPipe(s: Exec, e: Effect)
    requires Allowed(s, e) && s.running == None
    ensures s.pipe <= Apply(s, e).pipe
    ensures e.RemoteNull? ==> Null in Apply(s, e).pipe
  {
    match e {
      case DoPollFd(fd, dir, w, io, reports) =>
        if PollResultOf(s.fds[fd], io) == PollYield {
          SetFdKeepsReports(s, reports, fd, PolledFd(s.fds[fd], w, io));
        }
      case _ =>
    }
  }

  /** What an effect leaves of the loop's state: the executor's invariant, the polled task, a due wake's message. */
  lemma DoKeepsExec(s: Exec, e: Effect)
    requires Inv(s) && Allowed(s, e)
    ensures Inv(Apply(s, e)) && Apply(s, e).running == s.running
    ensures External(e) ==> Apply(s, e).queues == s.queues
  {
    ApplyInv(s, e);
    RunLoop.ApplyUndisturbed(s, e);
    if External(e) {
      RunLoop.ExternalKeepsQueues(s, e);
    }
  }

  lemma DoKeepsDue(s: Exec, e: Effect)
    requires Allowed(s, e) && s.running == None
    ensures Null in s.pipe || e.RemoteNull? ==> Null in Apply(s, e).pipe
  {
    ApplyKeepsPipe(s, e);
  }

  lemma DoInv(l: Loop, e: Effect)
    requires LoopInv(l) && Enabled(l, Do(e))
    ensures LoopInv(Next(l, Do(e)))
  {
    DoKeepsExec(l.exec, e);
    if BeforeWait(l.phase) {
      DoKeepsDue(l.exec, e);
      DoKeepsUnheard(l, e);
      DoKeepsHeard(l, e);
    }
  }

  lemma EventsKeep(s: Exec, reports: seq<Report>)
    requires Inv(s) && ReportsOk(s, reports)
    ensures Inv(EpollWait(s, reports)) && EpollWait(s, reports).running == s.running
  {
    EpollWaitInv(s, reports);
    EpollWaitWoken(s, reports);
  }

  lemma ReadyKeeps(s: Exec, v: int, reports: seq<Report>)
    requires Inv(s) && Busy(s) && ReportsOk(s, reports)
    ensures Inv(FinishReady(s, v, reports)) && FinishReady(s, v, reports).running == None
  {
    FinishReadyInv(s, v, reports);
    RunLoop.FinishReadyFate(s, v, reports);
  }

  lemma PopKeeps(s: Exec)
    requires Inv(s) && Runnable(s) && s.running == None
    ensures Inv(PopRun(s)) && PopRun(s).running.Some?
  {
    PopRunInv(s);
  }

  lemma PendKeeps(s: Exec)
    requires Inv(s) && Busy(s)
    ensures Inv(FinishPending(s)) && FinishPending(s).running == None
  {
    FinishPendingInv(s);
  }

  lemma NextInv(l: Loop, a: Action)
    requires LoopInv(l) && Enabled(l, a)
    ensures LoopInv(Next(l, a))
  {
    match a {
      case Do(e) => DoInv(l, e);
      case CheckEvents(reports) => EventsInv(l, a, reports);
      case Wait(reports) => EventsInv(l, a, reports);
      case TakeTask => PollInv(l, a);
      case TaskPending => PollInv(l, a);
      case TaskReady(v, reports) => PollInv(l, a);
      case _ =>
    }
  }

  lemma EventsInv(l: Loop, a: Action, reports: seq<Report>)
    requires LoopInv(l) && Enabled(l, a) && (a == CheckEvents(reports) || a == Wait(reports))
    ensures LoopInv(Next(l, a))
  {
    EventsKeep(l.exec, reports);
  }

  lemma PollInv(l: Loop, a: Action)
    requires LoopInv(l) && Enabled(l, a) && (a.TakeTask? || a.TaskPending? || a.TaskReady?)
    ensures LoopInv(Next(l, a))
  {
    match a {
      case TakeTask => PopKeeps(l.exec);
      case TaskPending => PendKeeps(l.exec);
      case TaskReady(v, reports) => ReadyInv(l, v, reports);
    }
  }

  lemma ReadyInv(l: Loop, v: int, reports: seq<Report>)
    requires LoopInv(l) && Enabled(l, TaskReady(v, reports))
    ensures LoopInv(Next(l, TaskReady(v, reports)))
  {
    ReadyKeeps(l.exec, v, reports);
  }

  lemma {:induction false} AlwaysInv(l: Loop, acts: seq<Action>)
    requires LoopInv(l) && Valid(l, acts)
    ensures LoopInv(Final(l, acts))
    decreases |acts|
  {
    if acts != [] {
      NextInv(l, acts[0]);
      AlwaysInv(Next(l, acts[0]), acts[1..]);
    }
  }

  /**
   * Every wake of the future by another thread, or by a task the loop runs, is
   * followed by a poll of the future before `block_on` can block; and while it is
   * blocked no wakeup of any task has been lost either.  A single-direction fd that
   * read as Pending in the future's latest poll is not ready then, unless that was
   * because its burst was over; in that case its cache is filled, and the events in
   * it will not be told of again.
   */
  lemma BlocksOnlyWithNothingDue(s: Exec, acts: seq<Action>)
    requires Inv(s) && s.running == None && Valid(Begin(s), acts)
    requires var l := Final(Begin(s), acts); l.phase.Waiting? && Quiet(l.exec)
    ensures var l := Final(Begin(s), acts);
      && !l.due && NothingLost(l.exec)
      && (forall fd :: fd in l.waits ==>
            fd in l.exec.fds && (SingleDirection(l.exec.fds[fd]) ==> l.exec.fds[fd].ready == {}))
      && (forall fd :: fd in l.tired ==> fd !in l.waits && fd in l.exec.fds && l.exec.fds[fd].cache != {})
  {
    AlwaysInv(Begin(s), acts);
    var l := Final(Begin(s), acts);
    QuietLosesNothing(l.exec);
    forall fd | fd in l.waits
      ensures fd in l.exec.fds && (SingleDirection(l.exec.fds[fd]) ==> l.exec.fds[fd].ready == {})
    {
      assert Unheard(l.exec, fd);
    }
    forall fd | fd in l.tired ensures fd !in l.waits && fd in l.exec.fds && l.exec.fds[fd].cache != {} {
      assert Heard(l.exec, fd);
      assert fd in l.waits ==> Unheard(l.exec, fd);
    }
  }

  /** `block_on` blocks at once when the future has returned Pending. */
  ghost predicate BlocksNow(l0: Loop, acts: seq<Action>) {
    Valid(l0, acts + [NoTask]) && var r := Final(l0, acts + [NoTask]); r.phase.Waiting? && Quiet(r.exec)
  }

  lemma BlocksNowIff(l0: Loop, acts: seq<Action>)
    requires Valid(l0, acts) && Final(l0, acts).phase.Choose?
    ensures BlocksNow(l0, acts) <==> !Runnable(Final(l0, acts).exec) && Quiet(Final(l0, acts).exec)
    ensures BlocksNow(l0, acts) ==> Final(l0, acts + [NoTask]) == Final(l0, acts).(phase := Waiting)
  {
    if Enabled(Final(l0, acts), NoTask) {
      ExtendLoop(l0, acts, NoTask);
    } else if Valid(l0, acts + [NoTask]) {
      SplitLoop(l0, acts, NoTask);
    }
  }

  /** A single-direction fd is ready. */
  ghost predicate IsReady(s: Exec, fd: FdId) {
    fd in s.fds && SingleDirection(s.fds[fd]) && s.fds[fd].ready != {}
  }

  /**
   * When `block_on` blocks although a single-direction fd is ready that the future has
   * just seen as Pending: if and only if its burst was over, no task is runnable and
   * the kernel has nothing to report.
   */
  lemma BlocksOnReadyIff(s: Exec, acts: seq<Action>, fd: FdId)
    requires Inv(s) && s.running == None && Valid(Begin(s), acts)
    requires var l := Final(Begin(s), acts);
      l.phase.Choose? && fd in l.waits + l.tired
    ensures var l := Final(Begin(s), acts);
      (BlocksNow(Begin(s), acts) && IsReady(Final(Begin(s), acts + [NoTask]).exec, fd)) <==>
      (fd in l.tired && IsReady(l.exec, fd) && !Runnable(l.exec) && Quiet(l.exec))
  {
    BlocksNowIff(Begin(s), acts);
    if BlocksNow(Begin(s), acts) {
      BlocksOnlyWithNothingDue(s, acts + [NoTask]);
    }
  }

  lemma {:induction false} ReturnedForGood(l: Loop, acts: seq<Action>)
    requires Valid(l, acts) && l.phase.Returned?
    ensures Final(l, acts).phase.Returned?
    decreases |acts|
  {
    if acts != [] {
      ReturnedForGood(Next(l, acts[0]), acts[1..]);
    }
  }

  /**
   * Whatever a task does in its poll, be it to complete while the future awaits its
   * handle: the future is polled again before `block_on` can wait.
   */
  lemma {:induction false} TasksLeadToPoll(l: Loop, acts: seq<Action>)
    requires Valid(l, acts) && (l.phase.TaskPoll? || l.phase.TaskDone? || l.phase.Future?)
    requires Final(l, acts).phase.Waiting? || Final(l, acts).phase.Choose?
    ensures FuturePending in acts
    decreases |acts|
  {
    if acts[0] == FutureReady {
      ReturnedForGood(Next(l, acts[0]), acts[1..]);
    } else if acts[0] != FuturePending {
      TasksLeadToPoll(Next(l, acts[0]), acts[1..]);
    }
  }

  /** Between two waits there is a poll of the future. */
  lemma WaitsLeadToPoll(l: Loop, reports: seq<Report>, acts: seq<Action>)
    requires Valid(l, [Wait(reports)] + acts)
    requires Final(l, [Wait(reports)] + acts).phase.Waiting? || Final(l, [Wait(reports)] + acts).phase.Choose?
    ensures FuturePending in acts
  {
    assert ([Wait(reports)] + acts)[1..] == acts;
    TasksLeadToPoll(Next(l, Wait(reports)), acts);
  }

  /** `block_on` returns when the future is Ready, and not before. */
  lemma {:induction false} ReturnsIffReady(l: Loop, acts: seq<Action>)
    requires Valid(l, acts) && !l.phase.Returned?
    ensures Final(l, acts).phase.Returned? <==> FutureReady in acts
    decreases |acts|
  {
    if acts != [] {
      if acts[0] == FutureReady {
        ReturnedForGood(Next(l, acts[0]), acts[1..]);
      } else {
        ReturnsIffReady(Next(l, acts[0]), acts[1..]);
      }
    }
  }

  /**
   * A wake from another thread, told by the steps alone: `block_on` cannot block before
   * it has polled the future again.
   */
  lemma RemoteWakeLeadsToPoll(l: Loop, acts: seq<Action>)
    requires LoopInv(l) && Enabled(l, Do(RemoteNull)) && Valid(Next(l, Do(RemoteNull)), acts)
    requires var r := Final(Next(l, Do(RemoteNull)), acts); r.phase.Waiting? && Quiet(r.exec)
    ensures FuturePending in acts
  {
    NextInv(l, Do(RemoteNull));
    var l1 := Next(l, Do(RemoteNull));
    assert Null in l1.exec.pipe;
    if l1.phase.Returned? {
      ReturnedForGood(l1, acts);
    } else {
      MessageLeadsToPoll(l1, acts);
    }
  }

  lemma {:induction false} MessageLeadsToPoll(l: Loop, acts: seq<Action>)
    requires LoopInv(l) && Valid(l, acts) && Null in l.exec.pipe && !l.phase.Returned?
    requires Final(l, acts).phase.Waiting? && Quiet(Final(l, acts).exec)
    ensures FuturePending in acts
    decreases |acts|
  {
    if l.phase.TaskPoll? || l.phase.TaskDone? || l.phase.Future? {
      TasksLeadToPoll(l, acts);
    } else {
      NextInv(l, acts[0]);
      if acts[0].Do? {
        ApplyKeepsPipe(l.exec, acts[0].e);
      }
      if acts[0].Wait? || acts[0].TakeTask? {
        TasksLeadToPoll(Next(l, acts[0]), acts[1..]);
      } else {
        MessageLeadsToPoll(Next(l, acts[0]), acts[1..]);
      }
    }
  }

  // ---------------------------------------------------------------- self-wakes

  ghost function WithoutSelfWakes(acts: seq<Action>): seq<Action> {
    if acts == [] then []
    else if acts[0] == WakeInPoll then WithoutSelfWakes(acts[1..])
    else [acts[0]] + WithoutSelfWakes(acts[1..])
  }

  /**
   * The other wakes do nothing at all: with the wakes that the future makes in its own
   * polls left out, a run of `block_on` is still a run, and ends the same.
   */
  lemma {:induction false} SelfWakesDoNothing(l: Loop, l': Loop, acts: seq<Action>)
    requires Valid(l, acts) && l' == l.(self := l'.self)
    ensures Valid(l', WithoutSelfWakes(acts))
    ensures var r, r' := Final(l, acts), Final(l', WithoutSelfWakes(acts)); r' == r.(self := r'.self)
    decreases |acts|
  {
    if acts != [] {
      var rest := WithoutSelfWakes(acts[1..]);
      if acts[0] == WakeInPoll {
        SelfWakesDoNothing(Next(l, acts[0]), l', acts[1..]);
      } else {
        SelfWakesDoNothing(Next(l, acts[0]), Next(l', acts[0]), acts[1..]);
        assert ([acts[0]] + rest)[1..] == rest;
      }
    }
  }

  /**
   * So they can be lost: whenever the future has woken itself in its poll, be it by an
   * fd whose burst was over, and returned Pending, `block_on` blocks at once if and only
   * if no task is runnable and the kernel has nothing to report.
   */
  lemma SelfWakeCanBlock(s: Exec, acts: seq<Action>)
    requires Inv(s) && s.running == None && Valid(Begin(s), acts)
    requires Final(Begin(s), acts).phase.Choose? && Final(Begin(s), acts).self
    ensures var l := Final(Begin(s), acts);
      (BlocksNow(Begin(s), acts) && Final(Begin(s), acts + [NoTask]).self) <==> (!Runnable(l.exec) && Quiet(l.exec))
  {
    BlocksNowIff(Begin(s), acts);
  }

  lemma {:induction false} SplitLoop(l: Loop, acts: seq<Action>, a: Action)
    requires Valid(l, acts) && Valid(l, acts + [a])
    ensures Enabled(Final(l, acts), a)
    decreases |acts|
  {
    if acts == [] {
      assert acts + [a] == [a];
    } else {
      assert (acts + [a])[1..] == acts[1..] + [a];
      SplitLoop(Next(l, acts[0]), acts[1..], a);
    }
  }

  // ---------------------------------------------------------------- what the loop remembers

  /** A poll of the future begins with it. */
  predicate Begins(a: Action) { a.CheckEvents? || a.Wait? }

  /** The `i`-th action is the future polling the fd. */
  ghost predicate ReadsAt(l: Loop, acts: seq<Action>, i: nat, fd: FdId) {
    && i < |acts| && acts[i].Do? && acts[i].e.DoPollFd? && acts[i].e.fd == fd
    && Valid(l, acts[..i]) && Enabled(Final(l, acts[..i]), acts[i]) && Final(l, acts[..i]).phase.Future?
  }

  /** And it reads as `r`. */
  ghost predicate ReadsAsAt(l: Loop, acts: seq<Action>, i: nat, fd: FdId, r: PollResult) {
    ReadsAt(l, acts, i, fd) && PollResultOf(Final(l, acts[..i]).exec.fds[fd], acts[i].e.io) == r
  }

  /** What the fd read as before the `i`-th action is past with it. */
  ghost predicate PastAt(l: Loop, acts: seq<Action>, i: nat, fd: FdId) {
    i < |acts| && (Begins(acts[i]) || acts[i] == Do(DoDropFd(fd)) || ReadsAt(l, acts, i, fd))
  }

  /** The fd was polled in the future's latest poll, exists since then, and last read as `r`. */
  ghost predicate LastReadAs(l: Loop, acts: seq<Action>, fd: FdId, r: PollResult) {
    exists i: nat :: ReadsAsAt(l, acts, i, fd, r) && forall j: nat :: i < j ==> !PastAt(l, acts, j, fd)
  }

  /** Another thread, or a task, has used the future's waker since its latest poll began. */
  predicate WokenFrom(a: Action) { a == Do(RemoteNull) || a == WakeInTask }

  ghost predicate WokenSince(acts: seq<Action>) {
    exists i :: 0 <= i < |acts| && WokenFrom(acts[i]) && forall j :: i < j < |acts| ==> !Begins(acts[j])
  }

  /** The future has used its own waker in it, or an fd whose burst was over has. */
  ghost predicate WakesAt(l: Loop, acts: seq<Action>, i: nat) {
    && i < |acts|
    && (acts[i] == WakeInPoll
        || (acts[i].Do? && acts[i].e.DoPollFd? && acts[i].e.w == OtherWaker
            && ReadsAsAt(l, acts, i, acts[i].e.fd, PollYield)))
  }

  ghost predicate WokeItselfSince(l: Loop, acts: seq<Action>) {
    exists i: nat :: WakesAt(l, acts, i) && forall j :: i < j < |acts| ==> !Begins(acts[j])
  }

  lemma PrefixAgrees(l: Loop, acts: seq<Action>, a: Action, i: nat, fd: FdId)
    requires i < |acts|
    ensures ReadsAt(l, acts + [a], i, fd) <==> ReadsAt(l, acts, i, fd)
    ensures forall r :: ReadsAsAt(l, acts + [a], i, fd, r) <==> ReadsAsAt(l, acts, i, fd, r)
    ensures PastAt(l, acts + [a], i, fd) <==> PastAt(l, acts, i, fd)
    ensures WakesAt(l, acts + [a], i) <==> WakesAt(l, acts, i)
  {
    assert (acts + [a])[..i] == acts[..i] && (acts + [a])[i] == acts[i];
  }

  lemma LastReadStep(l: Loop, acts: seq<Action>, a: Action, fd: FdId, r: PollResult)
    ensures LastReadAs(l, acts + [a], fd, r) <==>
      ReadsAsAt(l, acts + [a], |acts|, fd, r) || (LastReadAs(l, acts, fd, r) && !PastAt(l, acts + [a], |acts|, fd))
  {
    var n := |acts|;
    if LastReadAs(l, acts + [a], fd, r) {
      var i: nat :| ReadsAsAt(l, acts + [a], i, fd, r) && forall j: nat :: i < j ==> !PastAt(l, acts + [a], j, fd);
      if i < n {
        PrefixAgrees(l, acts, a, i, fd);
        forall j: nat | i < j ensures !PastAt(l, acts, j, fd) {
          if j < n { PrefixAgrees(l, acts, a, j, fd); }
        }
      }
    }
    if LastReadAs(l, acts, fd, r) && !PastAt(l, acts + [a], n, fd) {
      var i: nat :| ReadsAsAt(l, acts, i, fd, r) && forall j: nat :: i < j ==> !PastAt(l, acts, j, fd);
      PrefixAgrees(l, acts, a, i, fd);
      forall j: nat | i < j ensures !PastAt(l, acts + [a], j, fd) {
        if j < n { PrefixAgrees(l, acts, a, j, fd); }
      }
    }
    if ReadsAsAt(l, acts + [a], n, fd, r) {
      assert forall j: nat :: n < j ==> !PastAt(l, acts + [a], j, fd);
    }
  }

  lemma WokenStep(acts: seq<Action>, a: Action)
    ensures WokenSince(acts + [a]) <==> WokenFrom(a) || (WokenSince(acts) && !Begins(a))
  {
    var all := acts + [a];
    assert all[|acts|] == a;
    if WokenSince(acts) && !Begins(a) {
      var i :| 0 <= i < |acts| && WokenFrom(acts[i]) && forall j :: i < j < |acts| ==> !Begins(acts[j]);
      assert WokenFrom(all[i]);
    }
    if WokenSince(all) {
      var i :| 0 <= i < |all| && WokenFrom(all[i]) && forall j :: i < j < |all| ==> !Begins(all[j]);
      if i < |acts| {
        assert WokenFrom(acts[i]);
        assert forall j :: i < j < |acts| ==> all[j] == acts[j];
      }
    }
  }

  lemma WokeItselfStep(l: Loop, acts: seq<Action>, a: Action)
    ensures WokeItselfSince(l, acts + [a]) <==>
      WakesAt(l, acts + [a], |acts|) || (WokeItselfSince(l, acts) && !Begins(a))
  {
    var all := acts + [a];
    assert all[|acts|] == a;
    if WokeItselfSince(l, acts) && !Begins(a) {
      var i: nat :| WakesAt(l, acts, i) && forall j :: i < j < |acts| ==> !Begins(acts[j]);
      PrefixAgrees(l, acts, a, i, 0);
    }
    if WokeItselfSince(l, all) {
      var i: nat :| WakesAt(l, all, i) && forall j :: i < j < |all| ==> !Begins(all[j]);
      if i < |acts| {
        PrefixAgrees(l, acts, a, i, 0);
        assert forall j :: i < j < |acts| ==> all[j] == acts[j];
      }
    }
  }

  /** What the loop notes of the run: fd by fd, and of the future's waker. */
  ghost predicate RemembersFd(s: Exec, acts: seq<Action>, fd: FdId)
    requires Valid(Begin(s), acts)
  {
    var l := Final(Begin(s), acts);
    && (fd in l.waits <==> LastReadAs(Begin(s), acts, fd, PollPending))
    && (fd in l.tired <==> LastReadAs(Begin(s), acts, fd, PollYield))
  }

  ghost predicate RemembersWakes(s: Exec, acts: seq<Action>)
    requires Valid(Begin(s), acts)
  {
    var l := Final(Begin(s), acts);
    && (l.due <==> WokenSince(acts))
    && (l.self <==> WokeItselfSince(Begin(s), acts))
  }

  /**
   * `due`, `self`, `waits` and `tired` are what happened since the future's latest poll
   * began: who used its waker, and what each fd it polled last read as.
   */
  lemma {:induction false} LoopRemembers(s: Exec, acts: seq<Action>, fd: FdId)
    requires Valid(Begin(s), acts)
    ensures RemembersFd(s, acts, fd) && RemembersWakes(s, acts)
    decreases |acts|
  {
    if acts != [] {
      var front, a := acts[..|acts| - 1], acts[|acts| - 1];
      assert acts == front + [a];
      PrefixValid(Begin(s), front, a);
      SplitLoop(Begin(s), front, a);
      ExtendLoop(Begin(s), front, a);
      LoopRemembers(s, front, fd);
      RemembersFdStep(s, front, a, fd);
      RemembersWakesStep(s, front, a);
    }
  }

  lemma {:induction false} PrefixValid(l: Loop, acts: seq<Action>, a: Action)
    requires Valid(l, acts + [a])
    ensures Valid(l, acts)
    decreases |acts|
  {
    if acts != [] {
      assert (acts + [a])[1..] == acts[1..] + [a];
      PrefixValid(Next(l, acts[0]), acts[1..], a);
    }
  }

  lemma RemembersFdStep(s: Exec, acts: seq<Action>, a: Action, fd: FdId)
    requires Valid(Begin(s), acts) && RemembersFd(s, acts, fd)
    requires Enabled(Final(Begin(s), acts), a) && Valid(Begin(s), acts + [a])
    requires Final(Begin(s), acts + [a]) == Next(Final(Begin(s), acts), a)
    ensures RemembersFd(s, acts + [a], fd)
  {
    var l := Begin(s);
    assert (acts + [a])[..|acts|] == acts && (acts + [a])[|acts|] == a;
    LastReadStep(l, acts, a, fd, PollPending);
    LastReadStep(l, acts, a, fd, PollYield);
  }

  lemma RemembersWakesStep(s: Exec, acts: seq<Action>, a: Action)
    requires Valid(Begin(s), acts) && RemembersWakes(s, acts)
    requires Enabled(Final(Begin(s), acts), a) && Valid(Begin(s), acts + [a])
    requires Final(Begin(s), acts + [a]) == Next(Final(Begin(s), acts), a)
    ensures RemembersWakes(s, acts + [a])
  {
    assert (acts + [a])[..|acts|] == acts && (acts + [a])[|acts|] == a;
    WokenStep(acts, a);
    WokeItselfStep(Begin(s), acts, a);
  }
}
