/**
 * What holds of the executor in every reachable state, and the proof that
 * every operation keeps it.
 */
module ExecInv {
  import opened Types
  import opened QueueSpec
  import opened ExecState

  ghost function Bit(b: bool): nat { if b then 1 else 0 }

  ghost predicate IsRunning(s: Exec, t: TaskId) { s.running == Some(t) }

  /** The queue that holds `t`, if any. */
  ghost function Place(s: Exec, t: TaskId): Option<nat> {
    if t in s.hist.where then Some(s.hist.where[t]) else None
  }

  ghost predicate IsLinked(s: Exec, t: TaskId) { Place(s, t) != None }

  ghost predicate IsAsleep(s: Exec, t: TaskId) { Place(s, t) == Some(SLEEP) }

  ghost predicate InRunQueue(s: Exec, t: TaskId) { IsLinked(s, t) && !IsAsleep(s, t) }

  /**
   * One task, given where it is linked and whether it is being polled:
   *  - it is asleep or in the run queue of its own priority, and not asleep while polled;
   *  - the queues own one strong reference if it is linked; the rest is the handle and the poll;
   *  - incomplete and never aborted, it is polled or linked: it is not forgotten;
   *  - completed, it is out of every queue, unless it was linked when it completed.
   */
  ghost predicate TaskOk(x: Task, place: Option<nat>, running: bool) {
    && (place.Some? ==> place.value == SLEEP || place.value == Rank(x.priority))
    && (running ==> place != Some(SLEEP))
    && x.strong == Bit(x.handle) + Bit(place.Some?) + Bit(running)
    && (!x.completed && !x.past.aborted ==> place.Some? || running)
    && (x.completed && !x.past.late ==> place.None? && !running)
  }

  /** `a` is what is left of `b` after leaving out some of its elements. */
  ghost predicate Subseq(a: seq<int>, b: seq<int>) {
    a == [] || (b != [] && (Subseq(a, b[..|b| - 1])
                            || (a[|a| - 1] == b[|b| - 1] && Subseq(a[..|a| - 1], b[..|b| - 1]))))
  }

  /** The values given out, and the one on offer. */
  ghost function Given(output: Option<int>, taken: seq<int>): seq<int> {
    taken + if output.Some? then [output.value] else []
  }

  /**
   * They are among those produced, in that order, the one on offer being the latest;
   * for a task not linked when it completed there is one value at most.
   */
  ghost predicate Delivered(output: Option<int>, completed: bool, late: bool, returned: seq<int>, taken: seq<int>) {
    && (completed <==> returned != [])
    && Subseq(Given(output, taken), returned)
    && (output.Some? ==> completed && output.value == returned[|returned| - 1])
    && (!late ==> returned == Given(output, taken) && |returned| <= 1)
  }

  /** No waker waits on a handle whose output is available. */
  ghost predicate OutputOk(x: Task) {
    && (x.output.Some? ==> x.handleWaker == Noop)
    && Delivered(x.output, x.completed, x.past.late, x.past.returned, x.past.taken)
  }

  /** Leaving out the last element too. */
  lemma {:induction false} SubseqFront(a: seq<int>, v: int, b: seq<int>)
    requires Subseq(a + [v], b)
    ensures Subseq(a, b)
    decreases |b|
  {
    var front := b[..|b| - 1];
    if Subseq(a + [v], front) {
      SubseqFront(a, v, front);
    } else {
      assert (a + [v])[..|a + [v]| - 1] == a;
    }
    if a != [] {
      assert Subseq(a, front);
    }
  }

  lemma SubseqSnoc(a: seq<int>, b: seq<int>, v: int)
    requires Subseq(a, b)
    ensures Subseq(a + [v], b + [v])
  {
    assert (a + [v])[..|a + [v]| - 1] == a && (b + [v])[..|b + [v]| - 1] == b;
  }

  ghost predicate Links(s: Exec) {
    && (forall t :: t in s.hist.where ==> t in s.tasks)
    && (s.running.Some? ==> s.running.value in s.tasks)
    && (forall t :: t in s.tasks ==> TaskOk(s.tasks[t], Place(s, t), IsRunning(s, t)))
  }

  /** The fd is registered for at most one of EPOLLIN and EPOLLOUT. */
  ghost predicate SingleDirection(f: Fd) { !(In in f.interest && Out in f.interest) }

  /** The cache agrees with the kernel: what is ready is cached, or an edge is still to come. */
  ghost predicate Coherent(f: Fd) { f.ready <= f.cache || f.edge }

  ghost predicate Caches(s: Exec) {
    forall fd :: fd in s.fds ==>
      && s.fds[fd].ready <= s.fds[fd].interest + {Hup}
      && (SingleDirection(s.fds[fd]) ==> Coherent(s.fds[fd]))
  }

  /** `t` waits for `fd`: its latest poll got Pending from it and its waker is still the stored one. */
  ghost predicate Awaits(s: Exec, t: TaskId, fd: FdId) {
    && t in s.tasks && fd in s.tasks[t].past.pendingOn
    && fd in s.fds && s.fds[fd].waker == TaskWaker(t)
  }

  /** `fd` would tell `t` of every event: nothing is cached, unless `t` missed it by aborting itself. */
  ghost predicate Attentive(s: Exec, t: TaskId, fd: FdId)
    requires t in s.tasks && fd in s.fds
  {
    s.fds[fd].cache == {} <==> fd !in s.tasks[t].past.missed
  }

  /** `t` is asleep, or would fall asleep if its poll returned Pending now. */
  ghost predicate Dormant(s: Exec, t: TaskId) {
    IsAsleep(s, t) || (IsRunning(s, t) && !IsLinked(s, t))
  }

  /**
   * The Pending contract: exactly those fds of a dormant task whose event it did not
   * miss by aborting itself have an empty cache, so that the next event gets through.
   */
  ghost predicate Armed(s: Exec) {
    forall t, fd :: Awaits(s, t, fd) && !s.tasks[t].completed && Dormant(s, t) ==> Attentive(s, t, fd)
  }

  /** The part of `Armed` that is about `t`. */
  ghost predicate ArmedTask(s: Exec, t: TaskId) {
    forall fd :: Awaits(s, t, fd) ==> Attentive(s, t, fd)
  }

  /** A wake that has not led to a poll yet is still on its way. */
  ghost predicate WakeInFlight(s: Exec, t: TaskId)
    requires t in s.tasks
  {
    s.tasks[t].completed || s.tasks[t].strong == 0 || InRunQueue(s, t) || WakeUp(t) in s.pipe
  }

  ghost predicate NoWakeLost(s: Exec) {
    forall t :: t in s.tasks && s.tasks[t].past.owed ==> WakeInFlight(s, t)
  }

  ghost predicate Outputs(s: Exec) {
    forall t :: t in s.tasks ==> OutputOk(s.tasks[t])
  }

  /** The event buffer has a slot for the pipe and one per fd, exactly while no foreign Fd was dropped here. */
  ghost predicate BufferExact(s: Exec) {
    && s.buffer <= 1 + |s.fds|
    && (s.buffer == 1 + |s.fds| <==> !s.hist.lateDrop)
  }

  ghost predicate PipeInOrder(s: Exec) { s.hist.sent == s.hist.received + s.pipe }

  /** The part that also holds between storing an output and marking the task completed. */
  ghost predicate Core(s: Exec) {
    && Located(s.queues, s.hist.where)
    && Links(s) && Caches(s) && Armed(s) && NoWakeLost(s)
    && BufferExact(s) && PipeInOrder(s)
  }

  ghost predicate Inv(s: Exec) { Core(s) && Outputs(s) }

  lemma FreshInv()
    ensures Inv(Fresh())
  {
  }

  lemma QueuedIsLinked(s: Exec, t: TaskId)
    requires Located(s.queues, s.hist.where)
    ensures IsQueued(s, t) <==> IsLinked(s, t)
  {
    if IsLinked(s, t) {
      assert t in s.queues[s.hist.where[t]];
    }
  }

  // ---------------------------------------------------------------- one task at a time

  /** `r` differs from `s` in nothing about tasks other than `t`. */
  ghost predicate OnlyTask(s: Exec, r: Exec, t: TaskId) {
    && t in r.tasks && r.tasks == s.tasks[t := r.tasks[t]]
    && (forall x :: x != t ==> Place(r, x) == Place(s, x))
    && (r.running == s.running || (s.running in {None, Some(t)} && r.running in {None, Some(t)}))
  }

  lemma LinksSame(s: Exec, r: Exec)
    requires Links(s) && r.tasks == s.tasks && r.hist.where == s.hist.where && r.running == s.running
    ensures Links(r)
  {
    forall x | x in r.tasks ensures TaskOk(r.tasks[x], Place(r, x), IsRunning(r, x)) {
      assert TaskOk(s.tasks[x], Place(s, x), IsRunning(s, x));
    }
  }

  lemma ArmedSame(s: Exec, r: Exec)
    requires Armed(s) && r.tasks == s.tasks && r.hist.where == s.hist.where && r.running == s.running
    requires r.fds == s.fds
    ensures Armed(r)
  {
    forall x, fd | Awaits(r, x, fd) && !r.tasks[x].completed && Dormant(r, x) ensures Attentive(r, x, fd) {
      assert Awaits(s, x, fd) && Dormant(s, x);
    }
  }

  lemma LinksOnly(s: Exec, r: Exec, t: TaskId)
    requires Links(s) && OnlyTask(s, r, t)
    requires TaskOk(r.tasks[t], Place(r, t), IsRunning(r, t))
    ensures Links(r)
  {
    forall x | x in r.hist.where ensures x in r.tasks {
      assert x != t ==> Place(r, x) == Place(s, x);
    }
    forall x | x in r.tasks ensures TaskOk(r.tasks[x], Place(r, x), IsRunning(r, x)) {
      if x != t {
        assert TaskOk(s.tasks[x], Place(s, x), IsRunning(s, x));
      }
    }
  }

  ghost predicate SameWaits(x: Task, y: Task) {
    y.past.pendingOn == x.past.pendingOn && y.past.missed == x.past.missed
  }

  lemma ArmedOnly(s: Exec, r: Exec, t: TaskId)
    requires Armed(s) && OnlyTask(s, r, t) && r.fds == s.fds
    requires t !in s.tasks || r.tasks[t].completed || !Dormant(r, t) || ArmedTask(r, t) ||
             (Dormant(s, t) && !s.tasks[t].completed && SameWaits(s.tasks[t], r.tasks[t]))
    requires t !in s.tasks ==> r.tasks[t].past.pendingOn == {}
    ensures Armed(r)
  {
    forall x, fd | Awaits(r, x, fd) && !r.tasks[x].completed && Dormant(r, x) ensures Attentive(r, x, fd) {
      if x != t {
        assert Place(r, x) == Place(s, x);
        assert Awaits(s, x, fd) && Dormant(s, x);
      } else if !ArmedTask(r, t) {
        assert Awaits(s, x, fd);
      }
    }
  }

  lemma WakesOnly(s: Exec, r: Exec, t: TaskId)
    requires NoWakeLost(s) && OnlyTask(s, r, t) && s.pipe <= r.pipe
    requires r.tasks[t].past.owed ==> WakeInFlight(r, t)
    ensures NoWakeLost(r)
  {
    forall x | x in r.tasks && r.tasks[x].past.owed ensures WakeInFlight(r, x) {
      if x != t {
        assert Place(r, x) == Place(s, x);
        assert WakeInFlight(s, x);
      }
    }
  }

  // ---------------------------------------------------------------- waking

  lemma WakeNowLinks(s: Exec, t: TaskId)
    requires Links(s) && (IsQueued(s, t) <==> IsLinked(s, t))
    ensures Links(WakeNow(s, t))
  {
    if Upgradable(s, t) && !s.tasks[t].completed {
      LinksOnly(s, WakeNow(s, t), t);
    }
  }

  lemma WakeNowArmed(s: Exec, t: TaskId)
    requires Armed(s)
    ensures Armed(WakeNow(s, t))
  {
    if Upgradable(s, t) && !s.tasks[t].completed {
      ArmedOnly(s, WakeNow(s, t), t);
    }
  }

  lemma WakeNowWakes(s: Exec, t: TaskId)
    requires NoWakeLost(s)
    ensures NoWakeLost(WakeNow(s, t))
  {
    if Upgradable(s, t) && !s.tasks[t].completed {
      WakesOnly(s, WakeNow(s, t), t);
    }
  }

  lemma WakeNowLocated(s: Exec, t: TaskId)
    requires Located(s.queues, s.hist.where)
    ensures Located(WakeNow(s, t).queues, WakeNow(s, t).hist.where)
  {
    if Upgradable(s, t) && !s.tasks[t].completed {
      PushLocated(s.queues, s.hist.where, Rank(s.tasks[t].priority), t);
    }
  }

  lemma WakeNowCore(s: Exec, t: TaskId)
    requires Core(s)
    ensures Core(WakeNow(s, t))
  {
    QueuedIsLinked(s, t);
    WakeNowLocated(s, t);
    WakeNowLinks(s, t);
    WakeNowArmed(s, t);
    WakeNowWakes(s, t);
  }

  /** The message read was the only thing on its way for its task at most; that task is now enqueued. */
  lemma ReadPipeWakes(s: Exec)
    requires NoWakeLost(s) && s.pipe != []
    ensures NoWakeLost(ReadPipe(s))
  {
    var r := ReadPipe(s);
    assert s.pipe == [s.pipe[0]] + s.pipe[1..];
    forall x | x in r.tasks && r.tasks[x].past.owed ensures WakeInFlight(r, x) {
      if s.pipe[0] != WakeUp(x) {
        assert x in s.tasks;
        assert s.tasks[x].past.owed ==> WakeInFlight(s, x);
      }
    }
  }

  lemma ReadPipeCore(s: Exec)
    requires Core(s) && s.pipe != []
    ensures Core(ReadPipe(s))
  {
    var m := s.pipe[0];
    var s1 := s.(pipe := s.pipe[1..], hist := s.hist.(received := s.hist.received + [m]));
    assert PipeInOrder(s1) by {
      assert s.pipe == [m] + s1.pipe;
    }
    ReadPipeWakes(s);
    LinksSame(s, s1);
    ArmedSame(s, s1);
    if m.WakeUp? {
      QueuedIsLinked(s1, m.task);
      WakeNowLinks(s1, m.task);
      WakeNowLocated(s1, m.task);
      WakeNowArmed(s1, m.task);
    }
  }

  /** Changing one fd keeps the Pending contract if no dormant task is left behind a filled cache. */
  lemma SetFdArmed(s: Exec, fd: FdId, f: Fd)
    requires Armed(s)
    requires f.waker == Noop || f.waker == OtherWaker ||
             (var t := f.waker.task;
                || t !in s.tasks || fd !in s.tasks[t].past.pendingOn || s.tasks[t].completed || !Dormant(s, t)
                || (f.cache == {} && fd !in s.tasks[t].past.missed))
             || (fd in s.fds && f.waker == s.fds[fd].waker && f.cache == s.fds[fd].cache)
    ensures Armed(SetFd(s, fd, f))
  {
    var r := SetFd(s, fd, f);
    forall x, g | Awaits(r, x, g) && !r.tasks[x].completed && Dormant(r, x) ensures Attentive(r, x, g) {
      if g != fd {
        assert Awaits(s, x, g);
      } else if fd in s.fds && f.waker == s.fds[fd].waker {
        assert Awaits(s, x, g);
      }
    }
  }

  lemma SetFdCore(s: Exec, fd: FdId, f: Fd)
    requires Core(s) && fd in s.fds
    requires f.ready <= f.interest + {Hup}
    requires SingleDirection(f) ==> Coherent(f)
    requires Armed(SetFd(s, fd, f))
    ensures Core(SetFd(s, fd, f))
  {
    var r := SetFd(s, fd, f);
    assert r.fds.Keys == s.fds.Keys;
    assert |r.fds| == |r.fds.Keys| && |s.fds| == |s.fds.Keys|;
    assert NoWakeLost(r) by {
      forall x | x in r.tasks && r.tasks[x].past.owed ensures WakeInFlight(r, x) {
        assert WakeInFlight(s, x);
      }
    }
    assert Links(r) by {
      forall x | x in r.tasks ensures TaskOk(r.tasks[x], Place(r, x), IsRunning(r, x)) {
        assert TaskOk(s.tasks[x], Place(s, x), IsRunning(s, x));
      }
    }
  }

  /** A dormant task is alive: the upgrade succeeds, and the wake links it in a run queue. */
  lemma WakeNowAwakens(s: Exec, t: TaskId)
    requires Links(s)
    ensures t in s.tasks && !s.tasks[t].completed && Dormant(s, t) ==>
              Upgradable(s, t) && InRunQueue(WakeNow(s, t), t) && WakeNow(s, t).tasks[t].past.owed
    ensures t in s.tasks && !s.tasks[t].completed ==> !Dormant(WakeNow(s, t), t)
    ensures t in WakeNow(s, t).tasks ==> t in s.tasks && WakeNow(s, t).tasks[t].completed == s.tasks[t].completed
  {
    if t in s.tasks && !s.tasks[t].completed {
      assert TaskOk(s.tasks[t], Place(s, t), IsRunning(s, t));
    }
  }

  lemma DeliverFdCore(s: Exec, fd: FdId, flags: set<Flag>)
    requires Core(s) && ReportOk(s, FdReport(fd, flags))
    ensures Core(DeliverFd(s, fd, flags))
  {
    var f := s.fds[fd];
    if flags <= f.cache {
      SetFdArmed(s, fd, f.(edge := false));
      SetFdCore(s, fd, f.(edge := false));
    } else {
      var f' := f.(edge := false, cache := f.cache + flags);
      var s1 := if f.waker.TaskWaker? then WakeNow(s, f.waker.task) else s;
      if f.waker.TaskWaker? {
        WakeNowCore(s, f.waker.task);
      }
      DeliverFdArmed(s, fd, flags, f', s1);
      DeliverFdCommutes(s, fd, flags, f', s1);
      SetFdCore(s1, fd, f');
    }
  }

  /** Seen in the other order: the task is enqueued, hence no longer dormant, before the cache fills. */
  lemma DeliverFdArmed(s: Exec, fd: FdId, flags: set<Flag>, f: Fd, s1: Exec)
    requires Links(s) && Armed(s) && fd in s.fds && !(flags <= s.fds[fd].cache)
    requires f == s.fds[fd].(edge := false, cache := s.fds[fd].cache + flags)
    requires s1 == if f.waker.TaskWaker? then WakeNow(s, f.waker.task) else s
    ensures Armed(SetFd(s1, fd, f))
  {
    if f.waker.TaskWaker? {
      WakeNowArmed(s, f.waker.task);
      WakeNowAwakens(s, f.waker.task);
    }
    SetFdArmed(s1, fd, f);
  }

  lemma DeliverFdCommutes(s: Exec, fd: FdId, flags: set<Flag>, f: Fd, s1: Exec)
    requires fd in s.fds && !(flags <= s.fds[fd].cache)
    requires f == s.fds[fd].(edge := false, cache := s.fds[fd].cache + flags)
    requires s1 == if f.waker.TaskWaker? then WakeNow(s, f.waker.task) else s
    ensures s1.fds == s.fds && DeliverFd(s, fd, flags) == SetFd(s1, fd, f)
  {
  }

  lemma {:induction false} EpollWaitCore(s: Exec, reports: seq<Report>)
    requires Core(s) && ReportsOk(s, reports)
    ensures Core(EpollWait(s, reports))
    decreases |reports|
  {
    if reports != [] {
      assert ReportOk(s, reports[0]);
      match reports[0] {
        case PipeReport => ReadPipeCore(s);
        case FdReport(fd, flags) => DeliverFdCore(s, fd, flags);
      }
      ProcessKeepsReports(s, reports);
      EpollWaitCore(Process(s, reports[0]), reports[1..]);
    }
  }

  lemma WakeByCore(s: Exec, w: Waker, reports: seq<Report>)
    requires Core(s) && ReportsOk(s, reports)
    ensures Core(WakeBy(s, w, reports))
  {
    if w.TaskWaker? && Upgradable(s, w.task) {
      EpollWaitCore(s, reports);
      WakeNowCore(s, w.task);
      WakeNowCore(EpollWait(s, reports), w.task);
    }
  }

  ghost predicate Woken(x: Task, y: Task) {
    y == x.(strong := y.strong, past := x.past.(owed := y.past.owed)) && (x.past.owed ==> y.past.owed)
    && (y.strong > 0 <==> x.strong > 0)
  }

  /** From `s` to `r` tasks were woken, and nothing else happened to them. */
  ghost predicate WokenOnly(s: Exec, r: Exec) {
    && r.running == s.running && r.shutdown == s.shutdown && r.buffer == s.buffer
    && (forall t :: t in r.tasks <==> t in s.tasks)
    && (forall t :: t in s.tasks && t in r.tasks ==> Woken(s.tasks[t], r.tasks[t]))
  }

  lemma WokenTrans(s: Exec, m: Exec, r: Exec)
    requires WokenOnly(s, m) && WokenOnly(m, r)
    ensures WokenOnly(s, r)
  {
    forall t | t in s.tasks && t in r.tasks ensures Woken(s.tasks[t], r.tasks[t]) {
      assert t in m.tasks && Woken(s.tasks[t], m.tasks[t]) && Woken(m.tasks[t], r.tasks[t]);
    }
  }

  lemma WakeNowWoken(s: Exec, t: TaskId)
    ensures WokenOnly(s, WakeNow(s, t))
  {
    var r := WakeNow(s, t);
    if Upgradable(s, t) && !s.tasks[t].completed {
      assert r.tasks == s.tasks[t := r.tasks[t]];
      assert Woken(s.tasks[t], r.tasks[t]);
      forall x | x in s.tasks && x != t ensures Woken(s.tasks[x], r.tasks[x]) {
      }
    }
  }

  lemma ProcessWoken(s: Exec, p: Report)
    requires ReportOk(s, p)
    ensures WokenOnly(s, Process(s, p))
  {
    match p {
      case PipeReport =>
        var s1 := s.(pipe := s.pipe[1..], hist := s.hist.(received := s.hist.received + [s.pipe[0]]));
        if s.pipe[0].WakeUp? {
          WakeNowWoken(s1, s.pipe[0].task);
        }
      case FdReport(fd, flags) =>
        var f := s.fds[fd];
        var s1 := SetFd(s, fd, f.(edge := false, cache := f.cache + flags));
        if f.waker.TaskWaker? {
          WakeNowWoken(s1, f.waker.task);
        }
    }
  }

  lemma {:induction false} EpollWaitWoken(s: Exec, reports: seq<Report>)
    requires ReportsOk(s, reports)
    ensures WokenOnly(s, EpollWait(s, reports))
    decreases |reports|
  {
    if reports != [] {
      assert ReportOk(s, reports[0]);
      ProcessKeepsReports(s, reports);
      ProcessWoken(s, reports[0]);
      EpollWaitWoken(Process(s, reports[0]), reports[1..]);
      WokenTrans(s, Process(s, reports[0]), EpollWait(s, reports));
    }
  }

  lemma WakeByWoken(s: Exec, w: Waker, reports: seq<Report>)
    requires ReportsOk(s, reports)
    ensures WokenOnly(s, WakeBy(s, w, reports))
  {
    if w.TaskWaker? && Upgradable(s, w.task) {
      var m := if s.running == Some(w.task) then EpollWait(s, reports) else s;
      EpollWaitWoken(s, reports);
      WakeNowWoken(m, w.task);
      WokenTrans(s, m, WakeNow(m, w.task));
    }
  }

  lemma OutputsWoken(s: Exec, r: Exec)
    requires Outputs(s) && WokenOnly(s, r)
    ensures Outputs(r)
  {
    forall t | t in r.tasks ensures OutputOk(r.tasks[t]) {
      WokenOutput(s.tasks[t], r.tasks[t]);
    }
  }

  // ---------------------------------------------------------------- tasks

  /** The part of the invariant that is about `t`. */
  ghost predicate TaskInv(s: Exec, t: TaskId) {
    && t in s.tasks
    && TaskOk(s.tasks[t], Place(s, t), IsRunning(s, t))
    && OutputOk(s.tasks[t])
    && (s.tasks[t].past.owed ==> WakeInFlight(s, t))
  }

  lemma InvTask(s: Exec, t: TaskId)
    requires Inv(s) && t in s.tasks
    ensures TaskInv(s, t) && (IsQueued(s, t) <==> IsLinked(s, t))
  {
    QueuedIsLinked(s, t);
  }

  /** From `s` to `r` only task `t` changes, and does so within the invariant. */
  ghost predicate TaskStep(s: Exec, r: Exec, t: TaskId) {
    && OnlyTask(s, r, t) && TaskInv(r, t)
    && (if t in s.tasks
        then r.tasks[t].completed || !Dormant(r, t) || ArmedTask(r, t) ||
             (Dormant(s, t) && !s.tasks[t].completed && SameWaits(s.tasks[t], r.tasks[t]))
        else r.tasks[t].past.pendingOn == {})
    && r.fds == s.fds && r.buffer == s.buffer && r.hist.lateDrop == s.hist.lateDrop
    && ((r.pipe == s.pipe && r.hist.sent == s.hist.sent && r.hist.received == s.hist.received)
        || (s.pipe <= r.pipe && PipeInOrder(r)))
  }

  lemma TaskStepInv(s: Exec, r: Exec, t: TaskId)
    requires Inv(s) && TaskStep(s, r, t) && Located(r.queues, r.hist.where)
    ensures Inv(r)
  {
    LinksOnly(s, r, t);
    ArmedOnly(s, r, t);
    WakesOnly(s, r, t);
  }

  lemma SpawnStep(s: Exec, s1: Exec, t: TaskId, p: Priority)
    requires t !in s.tasks && t !in s.hist.where && !IsQueued(s, t) && s.running != Some(t)
    requires s1 == SetTask(s, t, NewTask(p))
    ensures TaskStep(s, Spawn(s, t, p), t) && Spawn(s, t, p) == WakeNow(s1, t)
  {
  }

  lemma SpawnInv(s: Exec, t: TaskId, p: Priority)
    requires Inv(s) && t !in s.tasks
    ensures Inv(Spawn(s, t, p))
  {
    var s1 := SetTask(s, t, NewTask(p));
    QueuedIsLinked(s, t);
    SpawnStep(s, s1, t, p);
    WakeNowLocated(s1, t);
    TaskStepInv(s, WakeNow(s1, t), t);
  }

  lemma AbortStep(s: Exec, t: TaskId)
    requires TaskInv(s, t) && (IsQueued(s, t) <==> IsLinked(s, t)) && s.tasks[t].handle
    ensures TaskStep(s, Abort(s, t), t)
  {
    var r := Abort(s, t);
    if s.running == Some(t) {
      AbortArms(s, t);
    }
  }

  /** A task that aborts itself misses exactly the events cached for it. */
  lemma AbortArms(s: Exec, t: TaskId)
    requires t in s.tasks && s.running == Some(t)
    ensures ArmedTask(Abort(s, t), t)
  {
    var r := Abort(s, t);
    forall fd | Awaits(r, t, fd) ensures Attentive(r, t, fd) {
      assert r.fds[fd] == s.fds[fd];
    }
  }

  lemma AbortInv(s: Exec, t: TaskId)
    requires Inv(s) && t in s.tasks && s.tasks[t].handle
    ensures Inv(Abort(s, t))
  {
    InvTask(s, t);
    AbortStep(s, t);
    UnlinkLocated(s.queues, s.hist.where, t);
    TaskStepInv(s, Abort(s, t), t);
  }

  lemma DropHandleStep(s: Exec, t: TaskId)
    requires TaskInv(s, t) && s.tasks[t].handle
    ensures TaskStep(s, DropHandle(s, t), t)
  {
  }

  lemma DropHandleInv(s: Exec, t: TaskId)
    requires Inv(s) && t in s.tasks && s.tasks[t].handle
    ensures Inv(DropHandle(s, t))
  {
    InvTask(s, t);
    DropHandleStep(s, t);
    TaskStepInv(s, DropHandle(s, t), t);
  }

  /** Either the value moves from the output cell to the caller, or the caller's waker is kept. */
  lemma HandlePolledOk(x: Task, w: Waker)
    requires OutputOk(x)
    ensures OutputOk(HandlePolled(x, w))
  {
    if x.output.Some? {
      TakeDelivers(x.output.value, x.completed, x.past.late, x.past.returned, x.past.taken);
    }
  }

  lemma TakeDelivers(v: int, completed: bool, late: bool, returned: seq<int>, taken: seq<int>)
    requires Delivered(Some(v), completed, late, returned, taken)
    ensures Delivered(None, completed, late, returned, taken + [v])
  {
    assert Given(None, taken + [v]) == Given(Some(v), taken);
  }

  /** A new value replaces the one on offer, if any. */
  lemma StoreDelivers(output: Option<int>, completed: bool, late: bool, returned: seq<int>, taken: seq<int>, v: int, late': bool)
    requires Delivered(output, completed, late, returned, taken)
    requires (completed ==> late) && (late ==> late')
    ensures Delivered(Some(v), true, late', returned + [v], taken)
  {
    if output.Some? {
      SubseqFront(taken, output.value, returned);
    } else {
      assert Given(output, taken) == taken;
    }
    SubseqSnoc(taken, returned, v);
  }

  lemma WokenOutput(x: Task, y: Task)
    requires Woken(x, y) && OutputOk(x)
    ensures OutputOk(y)
  {
  }

  lemma PollHandleStep(s: Exec, t: TaskId, x: Task)
    requires TaskInv(s, t) && OutputOk(x)
    requires x == s.tasks[t].(output := x.output, handleWaker := x.handleWaker, past := s.tasks[t].past.(taken := x.past.taken))
    ensures TaskStep(s, SetTask(s, t, x), t)
  {
  }

  lemma PollHandleInv(s: Exec, t: TaskId, w: Waker)
    requires Inv(s) && t in s.tasks
    ensures Inv(SetTask(s, t, HandlePolled(s.tasks[t], w)))
  {
    var x := HandlePolled(s.tasks[t], w);
    InvTask(s, t);
    HandlePolledOk(s.tasks[t], w);
    PollHandleStep(s, t, x);
    TaskStepInv(s, SetTask(s, t, x), t);
  }

  /** What `highest_priority_runnable_task` returns was linked in that queue, and nowhere else. */
  lemma TopTask(s: Exec)
    requires Located(s.queues, s.hist.where) && Runnable(s)
    ensures Place(s, s.queues[TopQueue(s)][0]) == Some(TopQueue(s))
  {
    var q := TopQueue(s);
    assert s.queues[q][0] in s.queues[q];
  }

  lemma PopRunStep(s: Exec, t: TaskId)
    requires Runnable(s) && s.running == None && t == s.queues[TopQueue(s)][0]
    requires TaskInv(s, t) && IsLinked(s, t)
    ensures TaskStep(s, PopRun(s), t)
  {
  }

  lemma PopRunInv(s: Exec)
    requires Inv(s) && Runnable(s) && s.running == None
    ensures Inv(PopRun(s))
  {
    var q := TopQueue(s);
    var t := s.queues[q][0];
    TopTask(s);
    InvTask(s, t);
    PopRunStep(s, t);
    PopLocated(s.queues, s.hist.where, q);
    TaskStepInv(s, PopRun(s), t);
  }

  lemma FinishPendingStep(s: Exec, t: TaskId)
    requires Busy(s) && t == s.running.value
    requires TaskInv(s, t) && (IsQueued(s, t) <==> IsLinked(s, t))
    ensures TaskStep(s, FinishPending(s), t)
  {
  }

  lemma FinishPendingInv(s: Exec)
    requires Inv(s) && Busy(s)
    ensures Inv(FinishPending(s))
  {
    var t := s.running.value;
    InvTask(s, t);
    FinishPendingStep(s, t);
    PushLocated(s.queues, s.hist.where, SLEEP, t);
    TaskStepInv(s, FinishPending(s), t);
  }

  // ---------------------------------------------------------------- completion

  /** Storing the output leaves everything but `Outputs` alone. */
  lemma StoreCore(s: Exec, t: TaskId, x: Task)
    requires Core(s) && t in s.tasks
    requires x == s.tasks[t].(output := x.output, handleWaker := x.handleWaker, past := s.tasks[t].past.(returned := x.past.returned))
    ensures Core(SetTask(s, t, x))
  {
    var r := SetTask(s, t, x);
    assert TaskOk(s.tasks[t], Place(s, t), IsRunning(s, t));
    LinksOnly(s, r, t);
    ArmedOnly(s, r, t);
    assert s.tasks[t].past.owed ==> WakeInFlight(s, t);
    WakesOnly(s, r, t);
  }

  /** A completing task's record, after the output is stored, while wakes are delivered, and at the end. */
  lemma CompletedOk(x: Task, y: Task, v: int, linked: bool)
    requires OutputOk(x) && (x.completed ==> x.past.late)
    requires Woken(x.(output := Some(v), handleWaker := Noop, past := x.past.(returned := x.past.returned + [v])), y)
    ensures OutputOk(y.(completed := true, strong := Less(y.strong), past := y.past.(late := y.past.late || linked)))
  {
    StoreDelivers(x.output, x.completed, x.past.late, x.past.returned, x.past.taken, v, x.past.late || linked);
  }

  lemma MarkCompletedCore(s: Exec)
    requires Core(s) && Busy(s)
    ensures Core(MarkCompleted(s))
  {
    var t := s.running.value;
    var r := MarkCompleted(s);
    QueuedIsLinked(s, t);
    MarkCompletedTask(s, t);
    LinksOnly(s, r, t);
    ArmedOnly(s, r, t);
    WakesOnly(s, r, t);
  }

  lemma MarkCompletedTask(s: Exec, t: TaskId)
    requires Busy(s) && t == s.running.value && (IsQueued(s, t) <==> IsLinked(s, t))
    requires TaskOk(s.tasks[t], Place(s, t), IsRunning(s, t))
    ensures var r := MarkCompleted(s);
      && OnlyTask(s, r, t) && TaskOk(r.tasks[t], Place(r, t), IsRunning(r, t)) && r.tasks[t].completed
  {
  }

  lemma FinishReadyInv(s: Exec, v: int, reports: seq<Report>)
    requires Inv(s) && Busy(s) && ReportsOk(s, reports)
    ensures Inv(FinishReady(s, v, reports))
  {
    var t := s.running.value;
    var x := s.tasks[t];
    var y := x.(output := Some(v), handleWaker := Noop, past := x.past.(returned := x.past.returned + [v]));
    var s1 := SetTask(s, t, y);
    StoreCore(s, t, y);
    var s2 := WakeBy(s1, x.handleWaker, reports);
    WakeByCore(s1, x.handleWaker, reports);
    WakeByWoken(s1, x.handleWaker, reports);
    MarkCompletedCore(s2);
    FinishReadyOutputs(s, s1, s2, t, v);
  }

  lemma MarkedOutput(s: Exec, s1: Exec, s2: Exec, t: TaskId, v: int)
    requires t in s.tasks && OutputOk(s.tasks[t]) && (s.tasks[t].completed ==> s.tasks[t].past.late)
    requires s1 == SetTask(s, t, s.tasks[t].(output := Some(v), handleWaker := Noop,
                           past := s.tasks[t].past.(returned := s.tasks[t].past.returned + [v])))
    requires t in s2.tasks && s2.running == Some(t) && Woken(s1.tasks[t], s2.tasks[t])
    ensures OutputOk(MarkCompleted(s2).tasks[t])
  {
    CompletedOk(s.tasks[t], s2.tasks[t], v, IsQueued(s2, t));
  }

  lemma FinishReadyOutputs(s: Exec, s1: Exec, s2: Exec, t: TaskId, v: int)
    requires Outputs(s) && Links(s) && s.running == Some(t) && t in s.tasks
    requires s1 == SetTask(s, t, s.tasks[t].(output := Some(v), handleWaker := Noop,
                           past := s.tasks[t].past.(returned := s.tasks[t].past.returned + [v])))
    requires WokenOnly(s1, s2)
    ensures Outputs(MarkCompleted(s2))
  {
    var r := MarkCompleted(s2);
    assert TaskOk(s.tasks[t], Place(s, t), IsRunning(s, t));
    MarkedOutput(s, s1, s2, t, v);
    forall u | u in r.tasks ensures OutputOk(r.tasks[u]) {
      if u != t {
        assert u in s1.tasks;
        WokenOutput(s.tasks[u], s2.tasks[u]);
      }
    }
  }

  // ---------------------------------------------------------------- file descriptors

  lemma SetFdInv(s: Exec, fd: FdId, f: Fd)
    requires Inv(s) && fd in s.fds
    requires f.ready <= f.interest + {Hup}
    requires SingleDirection(f) ==> Coherent(f)
    requires Armed(SetFd(s, fd, f))
    ensures Inv(SetFd(s, fd, f))
  {
    SetFdCore(s, fd, f);
  }

  /** The kernel's own steps on an fd touch neither its cache nor its waker. */
  lemma KernelFdInv(s: Exec, fd: FdId, ready: set<Flag>, edge: bool)
    requires Inv(s) && fd in s.fds && ready <= s.fds[fd].interest + {Hup}
    requires SingleDirection(s.fds[fd]) ==> ready <= s.fds[fd].cache || edge
    ensures Inv(SetFd(s, fd, s.fds[fd].(ready := ready, edge := edge)))
  {
    var f := s.fds[fd].(ready := ready, edge := edge);
    SetFdArmed(s, fd, f);
    SetFdInv(s, fd, f);
  }

  /** A slot is added before the registration, and taken back by the destructor if it fails. */
  lemma NewFdInv(s: Exec, fd: FdId, interest: set<Flag>, ready: set<Flag>, registered: bool)
    requires Inv(s) && fd !in s.fds && ready <= interest + {Hup}
    ensures Inv(NewFd(s, fd, interest, ready, registered))
  {
    var r := NewFd(s, fd, interest, ready, registered);
    NewFdBooks(s, r, fd, interest, ready, registered);
    LinksSame(s, r);
    NewFdRest(s, r, fd);
  }

  lemma NewFdBooks(s: Exec, r: Exec, fd: FdId, interest: set<Flag>, ready: set<Flag>, registered: bool)
    requires BufferExact(s) && Caches(s) && fd !in s.fds && ready <= interest + {Hup}
    requires r == NewFd(s, fd, interest, ready, registered)
    ensures BufferExact(r) && Caches(r)
  {
    assert r.fds.Keys == if registered then s.fds.Keys + {fd} else s.fds.Keys;
    assert |r.fds| == |r.fds.Keys| && |s.fds| == |s.fds.Keys|;
  }

  /** Registering or removing an fd changes no wake: nobody awaits an fd with no waker, or none at all. */
  lemma NewFdRest(s: Exec, r: Exec, fd: FdId)
    requires Armed(s) && NoWakeLost(s)
    requires r.tasks == s.tasks && r.hist.where == s.hist.where && r.running == s.running && r.pipe == s.pipe
    requires forall g :: g in r.fds && g != fd ==> g in s.fds && r.fds[g] == s.fds[g]
    requires fd in r.fds ==> r.fds[fd].waker == Noop
    ensures Armed(r) && NoWakeLost(r)
  {
    forall x, g | Awaits(r, x, g) && !r.tasks[x].completed && Dormant(r, x) ensures Attentive(r, x, g) {
      assert Awaits(s, x, g) && Dormant(s, x);
    }
    forall x | x in r.tasks && r.tasks[x].past.owed ensures WakeInFlight(r, x) {
      assert WakeInFlight(s, x);
    }
  }

  lemma DropFdInv(s: Exec, fd: FdId)
    requires Inv(s) && fd in s.fds
    ensures Inv(DropFd(s, fd))
  {
    var r := DropFd(s, fd);
    assert r.fds.Keys == s.fds.Keys - {fd};
    assert |r.fds| == |r.fds.Keys| && |s.fds| == |s.fds.Keys|;
    LinksSame(s, r);
    NewFdRest(s, r, fd);
  }

  /** Only the kernel-visible outcome decides what a poll leaves: the cache still agrees with the kernel. */
  lemma PolledFdCoherent(f: Fd, w: Waker, dir: Flag, io: Io)
    requires f.ready <= f.interest + {Hup} && (SingleDirection(f) ==> Coherent(f))
    requires dir in f.interest * {In, Out} && IoOk(f, dir, io)
    ensures var g := PolledFd(f, w, io);
      g.ready <= g.interest + {Hup} && (SingleDirection(g) ==> Coherent(g))
  {
    if SingleDirection(f) && PollResultOf(f, io) == PollPending && f.cache != {} {
      forall x | x in f.ready ensures x == dir || x == Hup {
        assert x in f.interest + {Hup};
      }
    }
  }

  /** Pending: the cache is left empty with the polling waker stored, and its task misses nothing. */
  lemma PollFdPendingInv(s: Exec, fd: FdId, t: TaskId, g: Fd)
    requires Inv(s) && t in s.tasks && fd in s.fds && g.waker == TaskWaker(t) && g.cache == {}
    requires g.ready <= g.interest + {Hup} && (SingleDirection(g) ==> Coherent(g))
    ensures Inv(NotePending(SetFd(s, fd, g), t, PendingPast(s, t, fd)))
  {
    var s1 := SetFd(s, fd, g.(waker := Noop));
    UnawaitedFdInv(s, fd, g.(waker := Noop));
    UnawaitedNoteInv(s1, fd, t, PendingPast(s, t, fd));
    StoredWakerInv(NotePending(s1, t, PendingPast(s, t, fd)), fd, t, g);
    NoteCommutes(s, fd, t, g, PendingPast(s, t, fd));
  }

  /** The order of these changes does not show. */
  lemma NoteCommutes(s: Exec, fd: FdId, t: TaskId, g: Fd, p: Past)
    requires t in s.tasks
    ensures SetFd(NotePending(SetFd(s, fd, g.(waker := Noop)), t, p), fd, g) == NotePending(SetFd(s, fd, g), t, p)
  {
    assert s.fds[fd := g.(waker := Noop)][fd := g] == s.fds[fd := g];
  }

  lemma UnawaitedFdInv(s: Exec, fd: FdId, g: Fd)
    requires Inv(s) && fd in s.fds && g.waker == Noop
    requires g.ready <= g.interest + {Hup} && (SingleDirection(g) ==> Coherent(g))
    ensures Inv(SetFd(s, fd, g))
  {
    SetFdArmed(s, fd, g);
    SetFdInv(s, fd, g);
  }

  lemma StoredWakerInv(s: Exec, fd: FdId, t: TaskId, g: Fd)
    requires Inv(s) && fd in s.fds && g.waker == TaskWaker(t) && g.cache == {}
    requires t in s.tasks && fd !in s.tasks[t].past.missed
    requires g.ready <= g.interest + {Hup} && (SingleDirection(g) ==> Coherent(g))
    ensures Inv(SetFd(s, fd, g))
  {
    SetFdArmed(s, fd, g);
    SetFdInv(s, fd, g);
  }

  /** Notes about an fd that nobody awaits yet. */
  lemma UnawaitedNoteInv(s: Exec, fd: FdId, t: TaskId, p: Past)
    requires Inv(s) && t in s.tasks && fd in s.fds && s.fds[fd].waker == Noop && p == PendingPast(s, t, fd)
    ensures Inv(NotePending(s, t, p))
  {
    var r := NotePending(s, t, p);
    forall x, h | Awaits(r, x, h) && !r.tasks[x].completed && Dormant(r, x) ensures Attentive(r, x, h) {
      assert Awaits(s, x, h) && Dormant(s, x);
    }
    NotePendingRest(s, t, p);
  }

  lemma PollFdReadyInv(s1: Exec, fd: FdId, t: TaskId)
    requires Inv(s1) && t in s1.tasks
    ensures Inv(NotePending(s1, t, ReadyPast(s1, t, fd)))
  {
    var r := NotePending(s1, t, ReadyPast(s1, t, fd));
    forall x, g | Awaits(r, x, g) && !r.tasks[x].completed && Dormant(r, x) ensures Attentive(r, x, g) {
      assert Awaits(s1, x, g) && Dormant(s1, x);
    }
    NotePendingRest(s1, t, ReadyPast(s1, t, fd));
  }

  lemma NotePendingRest(s: Exec, t: TaskId, p: Past)
    requires Inv(s) && t in s.tasks && p == s.tasks[t].past.(pendingOn := p.pendingOn, missed := p.missed)
    ensures Armed(NotePending(s, t, p)) ==> Inv(NotePending(s, t, p))
  {
    var r := NotePending(s, t, p);
    InvTask(s, t);
    LinksOnly(s, r, t);
    WakesOnly(s, r, t);
  }

  lemma PollFdInv(s: Exec, fd: FdId, dir: Flag, w: Waker, io: Io, reports: seq<Report>)
    requires Inv(s) && fd in s.fds && ReportsOk(s, reports)
    requires dir in s.fds[fd].interest * {In, Out} && IoOk(s.fds[fd], dir, io)
    ensures Inv(PollFd(s, fd, w, io, reports))
  {
    var f := s.fds[fd];
    var g := PolledFd(f, w, io);
    var s1 := SetFd(s, fd, g);
    PolledFdCoherent(f, w, dir, io);
    if PollResultOf(f, io) == PollPending && w.TaskWaker? && w.task in s.tasks {
      PollFdPendingInv(s, fd, w.task, g);
    } else {
      SetFdArmed(s, fd, g);
      SetFdInv(s, fd, g);
    }
    match PollResultOf(f, io) {
      case PollPending =>
      case PollYield =>
        SetFdKeepsReports(s, reports, fd, g);
        WakeByInv(s1, w, reports);
      case PollReady =>
        if Busy(s) {
          PollFdReadyInv(s1, fd, s.running.value);
        }
    }
  }

  // ---------------------------------------------------------------- everything

  lemma WakeByInv(s: Exec, w: Waker, reports: seq<Report>)
    requires Inv(s) && ReportsOk(s, reports)
    ensures Inv(WakeBy(s, w, reports))
  {
    WakeByCore(s, w, reports);
    WakeByWoken(s, w, reports);
    OutputsWoken(s, WakeBy(s, w, reports));
  }

  lemma EpollWaitInv(s: Exec, reports: seq<Report>)
    requires Inv(s) && ReportsOk(s, reports)
    ensures Inv(EpollWait(s, reports))
  {
    EpollWaitCore(s, reports);
    EpollWaitWoken(s, reports);
    OutputsWoken(s, EpollWait(s, reports));
  }

  lemma RemoteWakeInv(s: Exec, t: TaskId)
    requires Inv(s)
    ensures Inv(Apply(s, RemoteWake(t)))
  {
    if Upgradable(s, t) {
      var r := Apply(s, RemoteWake(t));
      InvTask(s, t);
      SendKeepsOrder(s, WakeUp(t));
      assert r.tasks[t].past.owed ==> WakeInFlight(r, t);
      RemoteWakeStep(s, r, t);
      TaskStepInv(s, r, t);
    }
  }

  lemma SendKeepsOrder(s: Exec, m: Message)
    requires PipeInOrder(s)
    ensures PipeInOrder(Send(s, m)) && m in Send(s, m).pipe
  {
  }

  lemma RemoteWakeStep(s: Exec, r: Exec, t: TaskId)
    requires TaskInv(s, t) && r == Apply(s, RemoteWake(t)) && PipeInOrder(r)
    requires r.tasks[t].past.owed ==> WakeInFlight(r, t)
    ensures TaskStep(s, r, t)
  {
  }

  /** Every effect keeps the invariant. */
  lemma ApplyInv(s: Exec, e: Effect)
    requires Inv(s) && Allowed(s, e)
    ensures Inv(Apply(s, e))
  {
    match e {
      case DoSpawn(t, p) => SpawnInv(s, t, p);
      case DoWake(t, reports) => WakeByInv(s, TaskWaker(t), reports);
      case DoAbort(t) => AbortInv(s, t);
      case DoDropHandle(t) => DropHandleInv(s, t);
      case DoPollHandle(t, w) => PollHandleInv(s, t, w);
      case DoNewFd(fd, interest, ready, registered) => NewFdInv(s, fd, interest, ready, registered);
      case DoDropFd(fd) => DropFdInv(s, fd);
      case DoDropForeignFd => SameInv(s, Apply(s, e));
      case DoPollFd(fd, dir, w, io, reports) => PollFdInv(s, fd, dir, w, io, reports);
      case DoShutdown => SameInv(s, Apply(s, e));
      case Arrive(fd, flags) => KernelFdInv(s, fd, s.fds[fd].ready + flags, true);
      case Fade(fd, flags) => KernelFdInv(s, fd, s.fds[fd].ready - flags, s.fds[fd].edge);
      case Settle(fd) => KernelFdInv(s, fd, {}, false);
      case RemoteWake(t) => RemoteWakeInv(s, t);
      case RemoteNull => SameInv(s, Apply(s, e));
    }
  }

  /** Steps that touch neither tasks nor fds. */
  lemma SameInv(s: Exec, r: Exec)
    requires Inv(s)
    requires r.tasks == s.tasks && r.queues == s.queues && r.hist.where == s.hist.where && r.running == s.running
    requires r.fds == s.fds && s.pipe <= r.pipe && PipeInOrder(r) && BufferExact(r)
    ensures Inv(r)
  {
    LinksSame(s, r);
    ArmedSame(s, r);
    forall x | x in r.tasks && r.tasks[x].past.owed ensures WakeInFlight(r, x) {
      assert WakeInFlight(s, x);
    }
  }
}
