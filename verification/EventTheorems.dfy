/**
 * What an event check does with everything that the kernel reports: each fd event is
 * cached, and each task that an event or a message names is enqueued, in that order.
 */
module EventTheorems {
  import opened Types
  import opened ExecState
  import opened ExecInv
  import opened WakeTheorems

  /** The task, if any, that a report enqueues: told by the state before the check. */
  ghost function Target(s: Exec, r: Report): Option<TaskId> {
    match r
    case PipeReport =>
      if s.pipe != [] && s.pipe[0].WakeUp? && CanBeQueued(s, s.pipe[0].task) then Some(s.pipe[0].task) else None
    case FdReport(fd, flags) =>
      if fd in s.fds && !(flags <= s.fds[fd].cache) && s.fds[fd].waker.TaskWaker? && CanBeQueued(s, s.fds[fd].waker.task)
      then Some(s.fds[fd].waker.task) else None
  }

  /** Alive and unfinished. */
  predicate CanBeQueued(s: Exec, t: TaskId) { Upgradable(s, t) && !s.tasks[t].completed }

  /** The queue operation that a report leads to. */
  ghost function PushOf(s: Exec, r: Report): seq<QueueOp> {
    match Target(s, r)
    case Some(t) => if t in s.tasks then [Pushed(t, Rank(s.tasks[t].priority))] else []
    case None => []
  }

  ghost function Pushes(s: Exec, reports: seq<Report>): seq<QueueOp> {
    if reports == [] then [] else PushOf(s, reports[0]) + Pushes(s, reports[1..])
  }

  lemma SameChance(s: Exec, r: Exec, t: TaskId)
    requires WokenOnly(s, r)
    ensures CanBeQueued(r, t) <==> CanBeQueued(s, t)
    ensures t in s.tasks && t in r.tasks ==> r.tasks[t].priority == s.tasks[t].priority
  {
    if t in s.tasks && t in r.tasks {
      assert Woken(s.tasks[t], r.tasks[t]);
    }
  }

  /** What a report does to fds and pipe. */
  lemma ProcessFds(s: Exec, r: Report, fd: FdId)
    requires ReportOk(s, r)
    ensures var s1 := Process(s, r);
      && (fd in s1.fds <==> fd in s.fds)
      && (r.FdReport? ==> s1.pipe == s.pipe)
      && (fd in s.fds && fd in s1.fds ==>
            s1.fds[fd] == if r.FdReport? && r.fd == fd
                          then s.fds[fd].(cache := s.fds[fd].cache + r.flags, edge := false) else s.fds[fd])
  {
    if r.FdReport? && r.flags <= s.fds[r.fd].cache {
      assert s.fds[r.fd].cache + r.flags == s.fds[r.fd].cache;
    }
  }

  /** One report changes nothing for another. */
  lemma OtherTarget(s: Exec, r: Report, other: Report)
    requires ReportOk(s, r) && ReportOk(s, other) && r != other
    ensures Target(Process(s, r), other) == Target(s, other)
    ensures PushOf(Process(s, r), other) == PushOf(s, other)
  {
    var s1 := Process(s, r);
    ProcessWoken(s, r);
    match other {
      case PipeReport =>
        ProcessFds(s, r, 0);
        if s.pipe[0].WakeUp? {
          SameChance(s, s1, s.pipe[0].task);
        }
      case FdReport(fd, flags) =>
        ProcessFds(s, r, fd);
        if s.fds[fd].waker.TaskWaker? {
          SameChance(s, s1, s.fds[fd].waker.task);
        }
    }
  }

  lemma {:induction false} OtherPushes(s: Exec, r: Report, others: seq<Report>)
    requires ReportOk(s, r) && (forall i :: 0 <= i < |others| ==> ReportOk(s, others[i]) && others[i] != r)
    ensures Pushes(Process(s, r), others) == Pushes(s, others)
  {
    if others != [] {
      OtherTarget(s, r, others[0]);
      OtherPushes(s, r, others[1..]);
    }
  }

  lemma ProcessLog(s: Exec, r: Report)
    requires ReportOk(s, r)
    ensures Process(s, r).hist.log == s.hist.log + PushOf(s, r)
  {
  }

  lemma FirstAndRest(s: Exec, reports: seq<Report>)
    requires ReportsOk(s, reports) && reports != []
    ensures ReportOk(s, reports[0])
    ensures ReportsOk(Process(s, reports[0]), reports[1..])
    ensures forall i :: 0 <= i < |reports[1..]| ==> ReportOk(s, reports[1..][i]) && reports[1..][i] != reports[0]
  {
    ProcessKeepsReports(s, reports);
    assert ReportOk(s, reports[0]);
    forall i | 0 <= i < |reports[1..]| ensures ReportOk(s, reports[1..][i]) && reports[1..][i] != reports[0] {
      assert ReportOk(s, reports[i + 1]) && reports[0] != reports[i + 1];
    }
  }

  /**
   * The queue operations of an event check are exactly one push per report that names a
   * live unfinished task, in the order of the reports.
   */
  lemma {:induction false} ChecksPush(s: Exec, reports: seq<Report>)
    requires ReportsOk(s, reports)
    ensures EpollWait(s, reports).hist.log == s.hist.log + Pushes(s, reports)
    decreases |reports|
  {
    if reports != [] {
      var s1 := Process(s, reports[0]);
      FirstAndRest(s, reports);
      ProcessLog(s, reports[0]);
      ChecksPush(s1, reports[1..]);
      OtherPushes(s, reports[0], reports[1..]);
      Regroup(s.hist.log, PushOf(s, reports[0]), Pushes(s, reports[1..]));
    }
  }

  lemma Regroup(a: seq<QueueOp>, b: seq<QueueOp>, c: seq<QueueOp>)
    ensures a + b + c == a + (b + c)
  {
  }

  /** What the reports say of `fd`. */
  ghost function Reported(reports: seq<Report>, fd: FdId): set<Flag> {
    if reports == [] then {}
    else (if reports[0].FdReport? && reports[0].fd == fd then reports[0].flags else {}) + Reported(reports[1..], fd)
  }

  ghost predicate IsReported(reports: seq<Report>, fd: FdId) {
    exists i :: 0 <= i < |reports| && reports[i].FdReport? && reports[i].fd == fd
  }

  /** Every fd event is cached and its edge used up; fds that are not reported stay as they are. */
  lemma {:induction false} ChecksCache(s: Exec, reports: seq<Report>, fd: FdId)
    requires ReportsOk(s, reports) && fd in s.fds
    ensures var r := EpollWait(s, reports);
      && fd in r.fds
      && r.fds[fd] == s.fds[fd].(cache := s.fds[fd].cache + Reported(reports, fd),
                                 edge := s.fds[fd].edge && !IsReported(reports, fd))
    decreases |reports|
  {
    if reports == [] {
      assert s.fds[fd].cache + {} == s.fds[fd].cache;
    } else {
      var s1 := Process(s, reports[0]);
      FirstAndRest(s, reports);
      ProcessFds(s, reports[0], fd);
      ChecksCache(s1, reports[1..], fd);
      IsReportedRest(reports, fd);
      var first := if reports[0].FdReport? && reports[0].fd == fd then reports[0].flags else {};
      assert s.fds[fd].cache + first + Reported(reports[1..], fd) == s.fds[fd].cache + Reported(reports, fd);
    }
  }

  lemma IsReportedRest(reports: seq<Report>, fd: FdId)
    requires reports != []
    ensures IsReported(reports, fd) <==> (reports[0].FdReport? && reports[0].fd == fd) || IsReported(reports[1..], fd)
  {
    if IsReported(reports[1..], fd) {
      var i :| 0 <= i < |reports[1..]| && reports[1..][i].FdReport? && reports[1..][i].fd == fd;
      assert reports[i + 1].FdReport?;
    }
    if IsReported(reports, fd) && !(reports[0].FdReport? && reports[0].fd == fd) {
      var i :| 0 <= i < |reports| && reports[i].FdReport? && reports[i].fd == fd;
      assert reports[1..][i - 1].FdReport?;
    }
  }

  /** The task that any of the reports names is in a run queue afterwards. */
  lemma {:induction false} ChecksEnqueue(s: Exec, reports: seq<Report>, i: nat, t: TaskId)
    requires ReportsOk(s, reports) && i < |reports| && Target(s, reports[i]) == Some(t)
    ensures InRunQueue(EpollWait(s, reports), t)
    decreases |reports|
  {
    var s1 := Process(s, reports[0]);
    FirstAndRest(s, reports);
    if i == 0 {
      assert InRunQueue(s1, t);
      EventsKeepRunnable(s1, reports[1..], t);
    } else {
      OtherTarget(s, reports[0], reports[1..][i - 1]);
      ChecksEnqueue(s1, reports[1..], i - 1, t);
    }
  }

  /** A task that none of them names stays as it is, and where it is. */
  lemma {:induction false} ChecksSpare(s: Exec, reports: seq<Report>, t: TaskId)
    requires ReportsOk(s, reports) && t in s.tasks
    requires forall i :: 0 <= i < |reports| ==> Target(s, reports[i]) != Some(t)
    ensures var r := EpollWait(s, reports); t in r.tasks && r.tasks[t] == s.tasks[t] && Place(r, t) == Place(s, t)
    decreases |reports|
  {
    if reports != [] {
      var s1 := Process(s, reports[0]);
      FirstAndRest(s, reports);
      forall i | 0 <= i < |reports[1..]| ensures Target(s1, reports[1..][i]) != Some(t) {
        OtherTarget(s, reports[0], reports[1..][i]);
        assert Target(s, reports[i + 1]) != Some(t);
      }
      ChecksSpare(s1, reports[1..], t);
    }
  }

  /**
   * Every reported event is seen to.  Whatever else is reported before or after it, an
   * fd event is cached and its edge used up, and if it told of something new, the live
   * unfinished task whose waker is stored is in its run queue.
   */
  lemma EveryEventIsSeenTo(s: Exec, reports: seq<Report>, fd: FdId, flags: set<Flag>)
    requires ReportsOk(s, reports) && FdReport(fd, flags) in reports
    ensures var r := EpollWait(s, reports);
      && fd in r.fds && flags <= r.fds[fd].cache && !r.fds[fd].edge
      && (!(flags <= s.fds[fd].cache) && s.fds[fd].waker.TaskWaker? && CanBeQueued(s, s.fds[fd].waker.task)
          ==> InRunQueue(r, s.fds[fd].waker.task))
  {
    var i :| 0 <= i < |reports| && reports[i] == FdReport(fd, flags);
    assert ReportOk(s, reports[i]);
    ChecksCache(s, reports, fd);
    ReportedAt(reports, i);
    if !(flags <= s.fds[fd].cache) && s.fds[fd].waker.TaskWaker? && CanBeQueued(s, s.fds[fd].waker.task) {
      ChecksEnqueue(s, reports, i, s.fds[fd].waker.task);
    }
  }

  lemma {:induction false} ReportedAt(reports: seq<Report>, i: nat)
    requires i < |reports| && reports[i].FdReport?
    ensures reports[i].flags <= Reported(reports, reports[i].fd) && IsReported(reports, reports[i].fd)
  {
    if i > 0 {
      ReportedAt(reports[1..], i - 1);
    }
  }

  /**
   * A wake of a task that is not the polled one looks at no events: it enqueues that
   * task if it is alive and unfinished, and does nothing else.
   */
  lemma OtherWakeOnlyPushes(s: Exec, t: TaskId, reports: seq<Report>)
    requires ReportsOk(s, reports) && s.running != Some(t)
    ensures var r := WakeLocal(s, t, reports);
      && r.fds == s.fds && r.pipe == s.pipe
      && r.hist.log == s.hist.log + (if CanBeQueued(s, t) then [Pushed(t, Rank(s.tasks[t].priority))] else [])
  {
  }
}
