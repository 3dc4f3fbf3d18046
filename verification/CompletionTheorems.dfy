/**
 * What completion means: a task that was unlinked when it was marked completed is
 * done for good; one that was linked is polled again, can deliver a second value,
 * and can keep `run` from ever returning.
 */
module CompletionTheorems {
  import opened Types
  import opened QueueSpec
  import opened ExecState
  import opened ExecInv
  import opened RunLoop
  import opened WakeTheorems

  // ---------------------------------------------------------------- done for good

  /** Completed, and unlinked at that moment. */
  ghost predicate FinishedFor(s: Exec, t: TaskId) {
    t in s.tasks && s.tasks[t].completed && !s.tasks[t].past.late
  }

  /** Steps leave the fate of tasks alone, except that a poll's Ready decides that of its task. */
  lemma NextKeepsFate(m: Machine, a: Action, t: TaskId)
    requires Enabled(m, a) && t in m.exec.tasks && a != Replace && !(a.Ready? && m.exec.running == Some(t))
    ensures t in Next(m, a).exec.tasks && SameFate(m.exec.tasks[t], Next(m, a).exec.tasks[t])
  {
    var s := m.exec;
    match a {
      case Do(e) =>
        ApplyUndisturbed(s, e);
        assert SameFate(s.tasks[t], Apply(s, e).tasks[t]);
      case Ready(v, reports) =>
        FinishReadyFate(s, v, reports);
        assert SameFate(s.tasks[t], FinishReady(s, v, reports).tasks[t]);
      case CheckEvents(reports) =>
        EpollWaitWoken(s, reports);
        assert Woken(s.tasks[t], EpollWait(s, reports).tasks[t]);
      case Wait(reports) =>
        EpollWaitWoken(s, reports);
        assert Woken(s.tasks[t], EpollWait(s, reports).tasks[t]);
      case _ =>
    }
  }

  lemma NextKeepsFinished(m: Machine, a: Action, t: TaskId)
    requires MachineInv(m) && Enabled(m, a) && FinishedFor(m.exec, t) && a != Replace
    ensures FinishedFor(Next(m, a).exec, t)
  {
    InvTask(m.exec, t);
    NextKeepsFate(m, a, t);
  }

  /** In any continuation such a task stays out of every queue and is never polled. */
  lemma {:induction false} CompletedStaysOut(m: Machine, acts: seq<Action>, t: TaskId)
    requires MachineInv(m) && Valid(m, acts) && FinishedFor(m.exec, t) && Replace !in acts
    ensures MachineInv(Final(m, acts))
    ensures var s := Final(m, acts).exec;
      FinishedFor(s, t) && !IsQueued(s, t) && !IsRunning(s, t)
    decreases |acts|
  {
    if acts == [] {
      InvTask(m.exec, t);
    } else {
      NextInv(m, acts[0]);
      NextKeepsFinished(m, acts[0], t);
      CompletedStaysOut(Next(m, acts[0]), acts[1..], t);
    }
  }

  // ---------------------------------------------------------------- the exception

  /**
   * Which completions are of the other kind: those in whose poll the task was woken
   * (and not aborted since), and those of a task that awaits its own handle.
   */
  lemma LinkedAtCompletionIff(m: Machine, v: int, reports: seq<Report>)
    requires MachineInv(m) && Enabled(m, Ready(v, reports)) && !m.exec.tasks[m.exec.running.value].past.late
    ensures var t := m.exec.running.value; var s := Next(m, Ready(v, reports)).exec;
      && t in s.tasks && s.tasks[t].completed && (s.tasks[t].past.late <==> IsQueued(s, t))
      && (IsQueued(s, t) <==> IsQueued(m.exec, t) || m.exec.tasks[t].handleWaker == TaskWaker(t))
      && (IsQueued(s, t) <==> InRunQueue(s, t))
  {
    var t := m.exec.running.value;
    InvTask(m.exec, t);
    StoredOutput(m.exec, t, v, reports);
    MarkedLinks(StoreOutput(m.exec, v, reports), t);
  }

  lemma StoredOutput(s: Exec, t: TaskId, v: int, reports: seq<Report>)
    requires Inv(s) && s.running == Some(t) && t in s.tasks && !s.tasks[t].completed && ReportsOk(s, reports)
    ensures var r := StoreOutput(s, v, reports);
      && r.running == Some(t) && t in r.tasks && SameFate(s.tasks[t], r.tasks[t]) && r.tasks[t].output == Some(v)
      && (IsQueued(r, t) <==> IsQueued(s, t) || s.tasks[t].handleWaker == TaskWaker(t))
      && (IsQueued(r, t) <==> InRunQueue(r, t))
  {
    var x := s.tasks[t];
    var y := x.(output := Some(v), handleWaker := Noop, past := x.past.(returned := x.past.returned + [v]));
    StoreCore(s, t, y);
    WakeByWoken(SetTask(s, t, y), x.handleWaker, reports);
    StoredLinks(SetTask(s, t, y), t, x.handleWaker, reports);
    WakeByCore(SetTask(s, t, y), x.handleWaker, reports);
    PolledIsNotAsleep(StoreOutput(s, v, reports), t);
  }

  lemma PolledIsNotAsleep(s: Exec, t: TaskId)
    requires Core(s) && s.running == Some(t)
    ensures IsQueued(s, t) <==> InRunQueue(s, t)
  {
    QueuedIsLinked(s, t);
    assert TaskOk(s.tasks[t], Place(s, t), IsRunning(s, t));
  }

  lemma StoredLinks(s: Exec, t: TaskId, w: Waker, reports: seq<Report>)
    requires Core(s) && ReportsOk(s, reports) && s.running == Some(t) && t in s.tasks && !s.tasks[t].completed
    ensures IsQueued(WakeBy(s, w, reports), t) <==> IsQueued(s, t) || w == TaskWaker(t)
  {
    assert TaskOk(s.tasks[t], Place(s, t), IsRunning(s, t));
    if w == TaskWaker(t) {
      EpollWaitCore(s, reports);
      EpollWaitWoken(s, reports);
      var r := EpollWait(s, reports);
      assert Woken(s.tasks[t], r.tasks[t]);
      assert TaskOk(r.tasks[t], Place(r, t), IsRunning(r, t));
      assert t in WakeNow(r, t).queues[Rank(r.tasks[t].priority)];
    }
  }

  lemma MarkedLinks(s: Exec, t: TaskId)
    requires s.running == Some(t) && t in s.tasks
    ensures var r := MarkCompleted(s);
      && t in r.tasks && r.tasks[t].completed && r.queues == s.queues && Place(r, t) == Place(s, t) && r.tasks[t].output == s.tasks[t].output
      && (r.tasks[t].past.late <==> s.tasks[t].past.late || IsQueued(s, t))
  {
  }

  // ---------------------------------------------------------------- polled again

  /** What the loop does next if nothing else happens, a poll being Pending and a replacement failing. */
  function CalmAction(p: Phase): Action {
    match p
    case Outside => Start
    case Select => PollNext
    case Polling => Pend
    case Polled => TestShutdown
    case Check => CheckEvents([])
    case Idle => TestSleep
    case Waiting => WaitFails
    case Retiring => ReplaceFails
  }

  function RunLength(s: Exec): nat {
    |s.queues[HIGH]| + |s.queues[NORMAL]| + |s.queues[LOW]|
  }

  function PhaseRank(p: Phase): nat {
    match p
    case Polling => 5
    case Polled => 4
    case Retiring => 3
    case Outside => 2
    case Check => 1
    case _ => 0
  }

  /** Nothing changes for a task but its references and what it waits for. */
  ghost predicate Kept(x: Task, y: Task) {
    y == x.(strong := y.strong,
            past := x.past.(owed := y.past.owed, pendingOn := y.past.pendingOn, missed := y.past.missed))
  }

  /** From `m` to `r` the loop came closer to a poll of `t`. */
  ghost predicate Closer(m: Machine, r: Machine, t: TaskId) {
    && t in m.exec.tasks && t in r.exec.tasks && Kept(m.exec.tasks[t], r.exec.tasks[t])
    && (r.exec.running == Some(t) || InRunQueue(r.exec, t))
    && (RunLength(r.exec) < RunLength(m.exec)
        || (RunLength(r.exec) <= RunLength(m.exec) && PhaseRank(r.phase) < PhaseRank(m.phase)))
  }

  lemma PopIsCloser(m: Machine, t: TaskId)
    requires m.phase.Select? && Runnable(m.exec) && InRunQueue(m.exec, t) && t in m.exec.tasks
    ensures Closer(m, Next(m, PollNext), t)
  {
    PopShortens(m.exec);
  }

  lemma PopShortens(s: Exec)
    requires Runnable(s)
    ensures RunLength(PopRun(s)) < RunLength(s)
  {
  }

  lemma PendShortens(s: Exec)
    requires Busy(s)
    ensures RunLength(FinishPending(s)) <= RunLength(s)
  {
  }

  lemma PendIsCloser(m: Machine, t: TaskId)
    requires m.phase.Polling? && Busy(m.exec) && InRunQueue(m.exec, t) && t in m.exec.tasks && m.exec.running != Some(t)
    ensures Closer(m, Next(m, Pend), t)
  {
    PendShortens(m.exec);
    PendKeepsOther(m.exec, t);
  }

  lemma PendKeepsOther(s: Exec, t: TaskId)
    requires Busy(s) && s.running != Some(t) && t in s.tasks && InRunQueue(s, t)
    ensures var r := FinishPending(s); t in r.tasks && r.tasks[t] == s.tasks[t] && Place(r, t) == Place(s, t)
  {
    if IsQueued(s, s.running.value) {
      assert FinishPending(s).hist == s.hist;
    } else {
      assert FinishPending(s).tasks == s.tasks;
    }
  }

  lemma ElseIsCloser(m: Machine, t: TaskId)
    requires m.phase in {Outside, Polled, Check, Retiring} && Enabled(m, CalmAction(m.phase))
    requires InRunQueue(m.exec, t) && t in m.exec.tasks
    ensures Closer(m, Next(m, CalmAction(m.phase)), t)
  {
  }

  lemma CalmEnabled(m: Machine)
    requires PhaseOk(m) && Runnable(m.exec) && (m.exec.running.Some? ==> Busy(m.exec))
    ensures !m.phase.Idle? && !m.phase.Waiting? && Enabled(m, CalmAction(m.phase))
  {
  }

  lemma CalmStep(m: Machine, t: TaskId)
    requires MachineInv(m) && InRunQueue(m.exec, t) && t in m.exec.tasks && m.exec.running != Some(t)
    ensures Enabled(m, CalmAction(m.phase)) && Closer(m, Next(m, CalmAction(m.phase)), t)
  {
    LoopKeepsRunnable(m.exec, t);
    CalmEnabled(m);
    match m.phase {
      case Select => PopIsCloser(m, t);
      case Polling => PendIsCloser(m, t);
      case _ => ElseIsCloser(m, t);
    }
  }

  /** A task in a run queue can always be reached: some run of the loop polls it next. */
  lemma {:induction false} ReachPoll(m: Machine, t: TaskId) returns (acts: seq<Action>)
    requires MachineInv(m) && t in m.exec.tasks && (m.exec.running == Some(t) || InRunQueue(m.exec, t))
    ensures Valid(m, acts) && Replace !in acts && Reached(m, Final(m, acts), t)
    decreases RunLength(m.exec), PhaseRank(m.phase)
  {
    if m.exec.running == Some(t) {
      acts := [];
    } else {
      var a := CalmAction(m.phase);
      CalmStep(m, t);
      NextInv(m, a);
      var rest := ReachPoll(Next(m, a), t);
      Chain(m, a, rest);
      acts := [a] + rest;
      ReachedTrans(m, Next(m, a), Final(m, acts), t);
    }
  }

  ghost predicate Reached(m: Machine, r: Machine, t: TaskId) {
    && MachineInv(r) && r.exec.running == Some(t)
    && t in m.exec.tasks && t in r.exec.tasks && Kept(m.exec.tasks[t], r.exec.tasks[t])
  }

  lemma ReachedTrans(m: Machine, m1: Machine, r: Machine, t: TaskId)
    requires Closer(m, m1, t) && Reached(m1, r, t)
    ensures Reached(m, r, t)
  {
  }

  /** Some run from `m`, with the same executor, polls `t`. */
  ghost predicate CanBePolled(m: Machine, t: TaskId) {
    exists acts :: Valid(m, acts) && Replace !in acts && Final(m, acts).exec.running == Some(t)
  }

  /**
   * "A completed task is never polled again", with its exact condition: after its
   * first completion a task can be polled again if and only if it was linked then.
   * (And if it was, it will be: `RunnableIsServed`.)
   */
  lemma PolledAgainIff(m: Machine, t: TaskId, v: int, reports: seq<Report>)
    requires MachineInv(m) && Enabled(m, Ready(v, reports))
    requires m.exec.running == Some(t) && t in m.exec.tasks && !m.exec.tasks[t].past.late
    ensures CanBePolled(Next(m, Ready(v, reports)), t) <==>
            IsQueued(m.exec, t) || m.exec.tasks[t].handleWaker == TaskWaker(t)
  {
    var m1 := Next(m, Ready(v, reports));
    NextInv(m, Ready(v, reports));
    LinkedAtCompletionIff(m, v, reports);
    InvTask(m1.exec, t);
    if IsQueued(m1.exec, t) {
      var acts := ReachPoll(m1, t);
    } else {
      forall acts | Valid(m1, acts) && Replace !in acts ensures Final(m1, acts).exec.running != Some(t) {
        CompletedStaysOut(m1, acts, t);
      }
    }
  }
  // ---------------------------------------------------------------- delivering twice

  /** Some run from `m`, with the same executor, gives out two values of `t`. */
  ghost predicate CanDeliverTwice(m: Machine, t: TaskId) {
    exists acts :: Valid(m, acts) && Replace !in acts && DeliveredTwice(Final(m, acts).exec, t)
  }

  ghost predicate DeliveredTwice(s: Exec, t: TaskId) {
    t in s.tasks && |s.tasks[t].past.taken| >= 2
  }

  /** Storing an output concerns neither the handle nor what it gave out before. */
  lemma ReadyOffers(s: Exec, t: TaskId, v: int, reports: seq<Report>)
    requires s.running == Some(t) && t in s.tasks && ReportsOk(s, reports)
    ensures var r := FinishReady(s, v, reports);
      && t in r.tasks && r.tasks[t].output == Some(v)
      && r.tasks[t].handle == s.tasks[t].handle && r.tasks[t].past.taken == s.tasks[t].past.taken
  {
    var x := s.tasks[t];
    var s1 := SetTask(s, t, x.(output := Some(v), handleWaker := Noop,
                               past := x.past.(returned := x.past.returned + [v])));
    WakeByWoken(s1, x.handleWaker, reports);
    assert Woken(s1.tasks[t], WakeBy(s1, x.handleWaker, reports).tasks[t]);
  }

  /**
   * `run` fails between two polls, and the program, which holds the handle, takes the
   * value on offer before it calls `run` again.
   */
  lemma TakeOffer(m: Machine, t: TaskId) returns (acts: seq<Action>)
    requires MachineInv(m) && m.phase.Polled? && t in m.exec.tasks && m.exec.tasks[t].handle
    requires m.exec.tasks[t].output.Some?
    ensures Valid(m, acts) && Replace !in acts && Taken(m, Final(m, acts), t)
  {
    acts := Leave(m);
    var m1 := Final(m, acts);
    OfferTaken(m1, t);
    ExtendRun(m, acts, Do(DoPollHandle(t, Noop)));
    acts := acts + [Do(DoPollHandle(t, Noop))];
  }

  /** From `m` to `r` the handle of `t` has given out one more value. */
  ghost predicate Taken(m: Machine, r: Machine, t: TaskId) {
    && MachineInv(r) && r.phase.Outside?
    && t in m.exec.tasks && t in r.exec.tasks && r.exec.tasks[t].handle
    && |r.exec.tasks[t].past.taken| == |m.exec.tasks[t].past.taken| + 1
    && (InRunQueue(m.exec, t) ==> InRunQueue(r.exec, t))
  }

  /** After a poll `run` can return an error: that of the event check, or that of a new executor after a shutdown. */
  lemma Leave(m: Machine) returns (acts: seq<Action>)
    requires MachineInv(m) && m.phase.Polled?
    ensures Valid(m, acts) && Replace !in acts && MachineInv(Final(m, acts)) && Final(m, acts) == m.(phase := Outside)
  {
    var a := if m.exec.shutdown then ReplaceFails else CheckFails;
    var m1 := Next(m, TestShutdown);
    acts := [TestShutdown] + [a];
    Chain(m1, a, []);
    assert [a] + [] == [a];
    Chain(m, TestShutdown, [a]);
    RunInv(m, acts);
  }

  lemma OfferTaken(m: Machine, t: TaskId)
    requires MachineInv(m) && m.phase.Outside? && t in m.exec.tasks && m.exec.tasks[t].handle
    requires m.exec.tasks[t].output.Some?
    ensures Enabled(m, Do(DoPollHandle(t, Noop))) && Taken(m, Next(m, Do(DoPollHandle(t, Noop))), t)
  {
    NextInv(m, Do(DoPollHandle(t, Noop)));
  }

  /** A polled task returns another value, which is taken. */
  lemma SecondValue(m: Machine, t: TaskId) returns (acts: seq<Action>)
    requires MachineInv(m) && m.exec.running == Some(t) && t in m.exec.tasks && m.exec.tasks[t].handle
    requires |m.exec.tasks[t].past.taken| >= 1
    ensures Valid(m, acts) && Replace !in acts && DeliveredTwice(Final(m, acts).exec, t)
  {
    var m1 := Next(m, Ready(0, []));
    NextInv(m, Ready(0, []));
    ReadyOffers(m.exec, t, 0, []);
    acts := TakeOffer(m1, t);
    Chain(m, Ready(0, []), acts);
    acts := [Ready(0, [])] + acts;
  }

  /** The run in which a task that is in a run queue, and has a value on offer, gives out two. */
  lemma TwoValues(m: Machine, t: TaskId)
    requires MachineInv(m) && m.phase.Polled? && t in m.exec.tasks && m.exec.tasks[t].handle
    requires m.exec.tasks[t].output.Some? && InRunQueue(m.exec, t)
    ensures CanDeliverTwice(m, t)
  {
    var taking := TakeOffer(m, t);
    var m1 := Final(m, taking);
    var reaching := ReachPoll(m1, t);
    var again := SecondValue(Final(m1, reaching), t);
    Assemble(m, taking, reaching, again, t);
  }

  lemma Assemble(m: Machine, a: seq<Action>, b: seq<Action>, c: seq<Action>, t: TaskId)
    requires Valid(m, a) && Valid(Final(m, a), b) && Valid(Final(Final(m, a), b), c)
    requires Replace !in a && Replace !in b && Replace !in c
    requires DeliveredTwice(Final(Final(Final(m, a), b), c).exec, t)
    ensures CanDeliverTwice(m, t)
  {
    JoinRuns(m, a, b);
    JoinRuns(m, a + b, c);
  }

  lemma FinishedDeliversOnce(m: Machine, acts: seq<Action>, t: TaskId)
    requires MachineInv(m) && Valid(m, acts) && FinishedFor(m.exec, t) && Replace !in acts
    ensures !DeliveredTwice(Final(m, acts).exec, t)
  {
    CompletedStaysOut(m, acts, t);
    assert OutputOk(Final(m, acts).exec.tasks[t]);
  }

  /**
   * "A handle gives out one value", with its exact condition: after its task's first
   * completion a handle can give out two if and only if the task was linked then.
   */
  lemma DeliversTwiceIff(m: Machine, t: TaskId, v: int, reports: seq<Report>)
    requires MachineInv(m) && Enabled(m, Ready(v, reports))
    requires m.exec.running == Some(t) && t in m.exec.tasks && !m.exec.tasks[t].past.late && m.exec.tasks[t].handle
    ensures CanDeliverTwice(Next(m, Ready(v, reports)), t) <==>
            IsQueued(m.exec, t) || m.exec.tasks[t].handleWaker == TaskWaker(t)
  {
    var m1 := Next(m, Ready(v, reports));
    NextInv(m, Ready(v, reports));
    LinkedAtCompletionIff(m, v, reports);
    if IsQueued(m1.exec, t) {
      ReadyOffers(m.exec, t, v, reports);
      TwoValues(m1, t);
    } else {
      forall acts | Valid(m1, acts) && Replace !in acts ensures !DeliveredTwice(Final(m1, acts).exec, t) {
        FinishedDeliversOnce(m1, acts, t);
      }
    }
  }

  // ---------------------------------------------------------------- never returning

  /** Completed, and in the sleep queue all the same. */
  ghost predicate Stranded(s: Exec, t: TaskId) {
    t in s.tasks && s.tasks[t].completed && IsAsleep(s, t)
  }

  lemma WakeKeepsStranded(s: Exec, u: TaskId, t: TaskId)
    requires Stranded(s, t)
    ensures Stranded(WakeNow(s, u), t)
  {
  }

  lemma {:induction false} EventsKeepStranded(s: Exec, reports: seq<Report>, t: TaskId)
    requires ReportsOk(s, reports) && Stranded(s, t)
    ensures Stranded(EpollWait(s, reports), t)
    decreases |reports|
  {
    if reports != [] {
      assert ReportOk(s, reports[0]);
      ProcessKeepsReports(s, reports);
      assert Stranded(Process(s, reports[0]), t);
      EventsKeepStranded(Process(s, reports[0]), reports[1..], t);
    }
  }

  lemma WakesKeepStranded(s: Exec, w: Waker, reports: seq<Report>, t: TaskId)
    requires ReportsOk(s, reports) && Stranded(s, t)
    ensures Stranded(WakeBy(s, w, reports), t)
  {
    EventsKeepStranded(s, reports, t);
    if w.TaskWaker? {
      WakeKeepsStranded(s, w.task, t);
      WakeKeepsStranded(EpollWait(s, reports), w.task, t);
    }
  }

  lemma ApplyKeepsStranded(s: Exec, e: Effect, t: TaskId)
    requires Allowed(s, e) && Stranded(s, t) && e != DoAbort(t)
    ensures Stranded(Apply(s, e), t)
  {
    match e {
      case DoWake(u, reports) => WakesKeepStranded(s, TaskWaker(u), reports, t);
      case DoPollFd(fd, dir, w, io, reports) => PollFdKeepsStranded(s, fd, w, io, reports, t);
      case _ =>
    }
  }

  lemma PollFdKeepsStranded(s: Exec, fd: FdId, w: Waker, io: Io, reports: seq<Report>, t: TaskId)
    requires fd in s.fds && ReportsOk(s, reports) && Stranded(s, t)
    ensures Stranded(PollFd(s, fd, w, io, reports), t)
  {
    if PollResultOf(s.fds[fd], io) == PollYield {
      var g := PolledFd(s.fds[fd], w, io);
      SetFdKeepsReports(s, reports, fd, g);
      WakesKeepStranded(SetFd(s, fd, g), w, reports, t);
    }
  }

  lemma ReadyKeepsStranded(s: Exec, v: int, reports: seq<Report>, t: TaskId)
    requires Busy(s) && ReportsOk(s, reports) && Stranded(s, t)
    ensures Stranded(FinishReady(s, v, reports), t)
  {
    var u := s.running.value;
    var x := s.tasks[u];
    WakesKeepStranded(SetTask(s, u, x.(output := Some(v), handleWaker := Noop,
                                       past := x.past.(returned := x.past.returned + [v]))), x.handleWaker, reports, t);
  }

  lemma LoopKeepsStranded(s: Exec, t: TaskId)
    requires Located(s.queues, s.hist.where) && Stranded(s, t)
    ensures Runnable(s) ==> Stranded(PopRun(s), t)
    ensures Busy(s) && s.running != Some(t) ==> Stranded(FinishPending(s), t)
  {
    if Runnable(s) {
      TopTask(s);
    }
  }

  lemma NextKeepsStranded(m: Machine, a: Action, t: TaskId)
    requires MachineInv(m) && Enabled(m, a) && Stranded(m.exec, t) && a != Replace && a != Do(DoAbort(t))
    ensures Stranded(Next(m, a).exec, t)
  {
    InvTask(m.exec, t);
    match a {
      case Do(e) => ApplyKeepsStranded(m.exec, e, t);
      case Ready(v, reports) => ReadyKeepsStranded(m.exec, v, reports, t);
      case CheckEvents(reports) => EventsKeepStranded(m.exec, reports, t);
      case Wait(reports) => EventsKeepStranded(m.exec, reports, t);
      case PollNext => LoopKeepsStranded(m.exec, t);
      case Pend => LoopKeepsStranded(m.exec, t);
      case _ =>
    }
  }

  lemma {:induction false} StaysStranded(m: Machine, acts: seq<Action>, t: TaskId)
    requires MachineInv(m) && Stranded(m.exec, t) && Valid(m, acts) && Replace !in acts && Do(DoAbort(t)) !in acts
    ensures MachineInv(Final(m, acts)) && Stranded(Final(m, acts).exec, t)
    decreases |acts|
  {
    if acts != [] {
      NextInv(m, acts[0]);
      NextKeepsStranded(m, acts[0], t);
      StaysStranded(Next(m, acts[0]), acts[1..], t);
    }
  }

  /**
   * A completed task in the sleep queue stays there, whatever wakes it: until it is
   * aborted `run` never gets to replacing the executor, and so never returns Ok,
   * unless somebody asks for a shutdown; without one it returns by an error only.
   */
  lemma StrandedForever(m: Machine, acts: seq<Action>, t: TaskId)
    requires MachineInv(m) && Stranded(m.exec, t) && Valid(m, acts) && Replace !in acts && Do(DoAbort(t)) !in acts
    ensures Stranded(Final(m, acts).exec, t) && Final(m, acts).exec.running != Some(t)
    ensures Final(m, acts).phase.Retiring? ==> Final(m, acts).exec.shutdown
    ensures !m.phase.Outside? && !HasError(acts) ==> !Final(m, acts).phase.Outside?
  {
    StaysStranded(m, acts, t);
    InvTask(Final(m, acts).exec, t);
    if !m.phase.Outside? && !HasError(acts) {
      StaysInRun(m, acts);
    }
  }

  /** Where such a task comes from: a completed task is polled again, and the poll returns Pending. */
  lemma StrandedIff(m: Machine, t: TaskId)
    requires MachineInv(m) && m.phase.Polling? && m.exec.running == Some(t) && t in m.exec.tasks
    ensures Stranded(Next(m, Pend).exec, t) <==> m.exec.tasks[t].completed && !IsQueued(m.exec, t)
  {
    InvTask(m.exec, t);
  }
}
