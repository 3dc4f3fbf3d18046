/**
 * The order in which tasks are polled, proved about the log of queue operations:
 * the log determines the queues, and every poll in it respects priority and age.
 */
module Scheduling {
  import opened Types
  import opened QueueSpec
  import opened ExecState
  import opened RunLoop

  /** What one queue operation does. */
  ghost function Done(qs: Queues, op: QueueOp): Queues {
    match op
    case Pushed(t, q) => if q < 4 then Push(qs, q, t) else qs
    case Popped(t, q) => if q < 4 && qs[q] != [] then Pop(qs, q) else qs
    case Released(t) => Unlink(qs, t)
  }

  ghost function Replay(log: seq<QueueOp>): Queues {
    if log == [] then [[], [], [], []] else Done(Replay(log[..|log| - 1]), log[|log| - 1])
  }

  /** A pop takes the oldest task of the highest non-empty priority. */
  ghost predicate PopOk(qs: Queues, t: TaskId, q: nat) {
    && q < SLEEP && qs[q] != [] && qs[q][0] == t
    && (forall j :: 0 <= j < q ==> qs[j] == [])
  }

  ghost predicate Legal(log: seq<QueueOp>) {
    forall k :: 0 <= k < |log| && log[k].Popped? ==> PopOk(Replay(log[..k]), log[k].task, log[k].queue)
  }

  /** The queues are what the log says, and every poll was of the right task. */
  ghost predicate Logged(s: Exec) { s.queues == Replay(s.hist.log) && Legal(s.hist.log) }

  // ---------------------------------------------------------------- the log is kept

  lemma Append(log: seq<QueueOp>, op: QueueOp)
    requires Legal(log)
    requires op.Popped? ==> PopOk(Replay(log), op.task, op.queue)
    ensures Legal(log + [op]) && Replay(log + [op]) == Done(Replay(log), op)
  {
    var l := log + [op];
    assert l[..|log|] == log;
    forall k | 0 <= k < |l| && l[k].Popped? ensures PopOk(Replay(l[..k]), l[k].task, l[k].queue) {
      if k < |log| {
        assert l[..k] == log[..k];
      }
    }
  }

  lemma WakeNowLogged(s: Exec, t: TaskId)
    requires Logged(s)
    ensures Logged(WakeNow(s, t))
  {
    if Upgradable(s, t) && !s.tasks[t].completed {
      Append(s.hist.log, Pushed(t, Rank(s.tasks[t].priority)));
    }
  }

  lemma {:induction false} EpollWaitLogged(s: Exec, reports: seq<Report>)
    requires Logged(s) && ReportsOk(s, reports)
    ensures Logged(EpollWait(s, reports))
    decreases |reports|
  {
    if reports != [] {
      assert ReportOk(s, reports[0]);
      match reports[0] {
        case PipeReport =>
          var s1 := s.(pipe := s.pipe[1..], hist := s.hist.(received := s.hist.received + [s.pipe[0]]));
          if s.pipe[0].WakeUp? {
            WakeNowLogged(s1, s.pipe[0].task);
          }
        case FdReport(fd, flags) =>
          var f := s.fds[fd];
          if f.waker.TaskWaker? {
            WakeNowLogged(SetFd(s, fd, f.(edge := false, cache := f.cache + flags)), f.waker.task);
          }
      }
      ProcessKeepsReports(s, reports);
      EpollWaitLogged(Process(s, reports[0]), reports[1..]);
    }
  }

  lemma WakeByLogged(s: Exec, w: Waker, reports: seq<Report>)
    requires Logged(s) && ReportsOk(s, reports)
    ensures Logged(WakeBy(s, w, reports))
  {
    if w.TaskWaker? {
      EpollWaitLogged(s, reports);
      WakeNowLogged(s, w.task);
      WakeNowLogged(EpollWait(s, reports), w.task);
    }
  }

  lemma ApplyLogged(s: Exec, e: Effect)
    requires Logged(s) && Allowed(s, e)
    ensures Logged(Apply(s, e))
  {
    match e {
      case DoSpawn(t, p) =>
        WakeNowLogged(SetTask(s, t, NewTask(p)), t);
      case DoWake(t, reports) => WakeByLogged(s, TaskWaker(t), reports);
      case DoAbort(t) => Append(s.hist.log, Released(t));
      case DoPollFd(fd, dir, w, io, reports) =>
        if PollResultOf(s.fds[fd], io) == PollYield {
          var g := PolledFd(s.fds[fd], w, io);
          SetFdKeepsReports(s, reports, fd, g);
          WakeByLogged(SetFd(s, fd, g), w, reports);
        }
      case _ =>
    }
  }

  lemma FinishReadyLogged(s: Exec, v: int, reports: seq<Report>)
    requires Logged(s) && Busy(s) && ReportsOk(s, reports)
    ensures Logged(FinishReady(s, v, reports))
  {
    var t := s.running.value;
    var x := s.tasks[t];
    var s1 := SetTask(s, t, x.(output := Some(v), handleWaker := Noop,
                               past := x.past.(returned := x.past.returned + [v])));
    WakeByLogged(s1, x.handleWaker, reports);
  }

  lemma PopRunLogged(s: Exec)
    requires Logged(s) && Runnable(s)
    ensures Logged(PopRun(s))
  {
    PopLogged(s.hist.log, s.queues, s.queues[TopQueue(s)][0], TopQueue(s));
  }

  lemma PopLogged(log: seq<QueueOp>, qs: Queues, t: TaskId, q: nat)
    requires qs == Replay(log) && Legal(log) && PopOk(qs, t, q)
    ensures Pop(qs, q) == Replay(log + [Popped(t, q)]) && Legal(log + [Popped(t, q)])
  {
    Append(log, Popped(t, q));
  }

  lemma FinishPendingLogged(s: Exec)
    requires Logged(s) && Busy(s)
    ensures Logged(FinishPending(s))
  {
    Append(s.hist.log, Pushed(s.running.value, SLEEP));
  }

  lemma NextLogged(m: Machine, a: Action)
    requires Logged(m.exec) && Enabled(m, a)
    ensures Logged(Next(m, a).exec)
  {
    match a {
      case Do(e) => ApplyLogged(m.exec, e);
      case PollNext => PopRunLogged(m.exec);
      case Pend => FinishPendingLogged(m.exec);
      case Ready(v, reports) => FinishReadyLogged(m.exec, v, reports);
      case CheckEvents(reports) => EpollWaitLogged(m.exec, reports);
      case Wait(reports) => EpollWaitLogged(m.exec, reports);
      case _ =>
    }
  }

  /** In every reachable state the queues replay the log, and the log is legal. */
  lemma {:induction false} RunLogged(m: Machine, acts: seq<Action>)
    requires Logged(m.exec) && Valid(m, acts)
    ensures Logged(Final(m, acts).exec)
    decreases |acts|
  {
    if acts != [] {
      NextLogged(m, acts[0]);
      RunLogged(Next(m, acts[0]), acts[1..]);
    }
  }

  // ---------------------------------------------------------------- order

  /** `u` is in `q`, and `t` does not come before it. */
  ghost predicate Before(q: seq<TaskId>, u: TaskId, t: TaskId) {
    q != [] && (q[0] == u || (q[0] != t && Before(q[1..], u, t)))
  }

  lemma {:induction false} BeforeWithout(q: seq<TaskId>, u: TaskId, t: TaskId, x: TaskId)
    requires Before(q, u, t) && x != u
    ensures Before(Without(q, x), u, t)
  {
    if q[0] != u {
      BeforeWithout(q[1..], u, t, x);
      assert ([q[0]] + Without(q[1..], x))[1..] == Without(q[1..], x);
    }
  }

  lemma {:induction false} BeforeSnoc(q: seq<TaskId>, u: TaskId, t: TaskId, x: TaskId)
    requires Before(q, u, t)
    ensures Before(q + [x], u, t)
  {
    if q[0] != u {
      BeforeSnoc(q[1..], u, t, x);
      assert (q + [x])[1..] == q[1..] + [x];
    }
  }

  lemma {:induction false} MemberBeforeNewest(q: seq<TaskId>, u: TaskId, t: TaskId)
    requires u in q && t !in q
    ensures Before(q + [t], u, t)
  {
    if q[0] != u {
      MemberBeforeNewest(q[1..], u, t);
      assert (q + [t])[1..] == q[1..] + [t];
    }
  }

  /** A later operation that is not on `u` leaves `u` in its place before `t`. */
  lemma OpKeepsBefore(log: seq<QueueOp>, a: nat, u: TaskId, t: TaskId)
    requires log != [] && Legal(log) && a < 4 && log[|log| - 1].task != u
    requires Before(Replay(log[..|log| - 1])[a], u, t)
    ensures Before(Replay(log)[a], u, t)
  {
    var qs := Replay(log[..|log| - 1]);
    match log[|log| - 1] {
      case Pushed(x, q) =>
        BeforeWithout(qs[a], u, t, x);
        if q == a {
          BeforeSnoc(Without(qs[a], x), u, t, x);
        }
      case Popped(x, q) =>
        assert PopOk(qs, x, q);
      case Released(x) => BeforeWithout(qs[a], u, t, x);
    }
  }

  lemma {:induction false} OpsKeepBefore(log: seq<QueueOp>, j: nat, k: nat, a: nat, u: TaskId, t: TaskId)
    requires j <= k <= |log| && Legal(log) && a < 4
    requires Before(Replay(log[..j])[a], u, t)
    requires forall i :: j <= i < k ==> log[i].task != u
    ensures Before(Replay(log[..k])[a], u, t)
    decreases k
  {
    if j < k {
      OpsKeepBefore(log, j, k - 1, a, u, t);
      assert log[..k][..k - 1] == log[..k - 1];
      LegalPrefix(log, k);
      OpKeepsBefore(log[..k], a, u, t);
    }
  }

  lemma LegalPrefix(log: seq<QueueOp>, k: nat)
    requires Legal(log) && k <= |log|
    ensures Legal(log[..k])
  {
    forall i | 0 <= i < k && log[..k][i].Popped? ensures PopOk(Replay(log[..k][..i]), log[..k][i].task, log[..k][i].queue) {
      assert log[..k][..i] == log[..i];
    }
  }

  /**
   * If `u` is in run queue `a` with `t` not before it, then before `t` is next
   * polled from that queue or one of lower priority, `u` is polled, woken again
   * or aborted.
   */
  lemma OlderRunsFirst(log: seq<QueueOp>, j: nat, k: nat, a: nat, u: TaskId, t: TaskId)
    requires Legal(log) && j <= k < |log| && a < SLEEP && u != t
    requires Before(Replay(log[..j])[a], u, t)
    requires log[k].Popped? && log[k].task == t && log[k].queue >= a
    ensures exists i :: j <= i < k && log[i].task == u
  {
    assert PopOk(Replay(log[..k]), t, log[k].queue);
    if forall i :: j <= i < k ==> log[i].task != u {
      OpsKeepBefore(log, j, k, a, u, t);
    }
  }

  /**
   * What `yield_now` promises: every other task of equal or higher priority that
   * is runnable when `t` is put at the back of its run queue gets its turn (or is
   * woken again or aborted) before `t` is polled again.
   */
  lemma YieldIsFair(log: seq<QueueOp>, j: nat, k: nat, a: nat, u: TaskId, t: TaskId, q: nat)
    requires Legal(log) && j < k < |log| && u != t && a <= q < SLEEP
    requires log[j] == Pushed(t, q) && u in Replay(log[..j + 1])[a]
    requires log[k] == Popped(t, q)
    ensures exists i :: j < i < k && log[i].task == u
  {
    var qs := Replay(log[..j]);
    assert log[..j + 1][..j] == log[..j];
    if a == q {
      MemberBeforeNewest(Without(qs[q], t), u, t);
    } else {
      MemberBeforeAbsent(Without(qs[a], t), u, t);
    }
    OlderRunsFirst(log, j + 1, k, a, u, t);
  }

  lemma {:induction false} MemberBeforeAbsent(q: seq<TaskId>, u: TaskId, t: TaskId)
    requires u in q && t !in q
    ensures Before(q, u, t)
  {
    if q[0] != u {
      MemberBeforeAbsent(q[1..], u, t);
    }
  }

  /** In every program run: each poll was of the longest-queued task of the highest non-empty priority. */
  lemma EveryPollIsRight(acts: seq<Action>, k: nat)
    requires Valid(Initial(), acts)
    requires var log := Final(Initial(), acts).exec.hist.log; k < |log| && log[k].Popped?
    ensures var log := Final(Initial(), acts).exec.hist.log; PopOk(Replay(log[..k]), log[k].task, log[k].queue)
  {
    RunLogged(Initial(), acts);
  }
}
