/**
 * What the model remembers is what happened: each field that records the past, and on
 * which theorems rest, is a function of the actions of the run.
 */
module Histories {
  import opened Types
  import opened ExecState
  import opened ExecInv
  import opened RunLoop

  // ---------------------------------------------------------------- tasks

  /** What a run says of a task: aborted, linked when it completed, on offer, returned and given out. */
  datatype Tale = Tale(aborted: bool, late: bool, offer: Option<int>, returned: seq<int>, taken: seq<int>)

  ghost function TaleAfter(m: Machine, a: Action, t: TaskId, h: Option<Tale>): Option<Tale>
    requires Enabled(m, a)
  {
    match a
    case Replace => None
    case Do(e) =>
      if e.DoSpawn? && e.t == t then Some(Tale(false, false, None, [], []))
      else if h.None? then h
      else if e == DoAbort(t) then Some(h.value.(aborted := true))
      else if e.DoPollHandle? && e.t == t && h.value.offer.Some? then
        Some(h.value.(offer := None, taken := h.value.taken + [h.value.offer.value]))
      else h
    case Ready(v, reports) =>
      if m.exec.running != Some(t) || h.None? then h
      else Some(h.value.(offer := Some(v), returned := h.value.returned + [v],
                         late := h.value.late || IsQueued(Next(m, a).exec, t)))
    case _ => h
  }

  ghost function TaleOf(m: Machine, acts: seq<Action>, t: TaskId, h: Option<Tale>): Option<Tale>
    requires Valid(m, acts)
    decreases |acts|
  {
    if acts == [] then h else TaleOf(Next(m, acts[0]), acts[1..], t, TaleAfter(m, acts[0], t, h))
  }

  ghost function TaleIn(x: Task): Tale {
    Tale(x.past.aborted, x.past.late, x.output, x.past.returned, x.past.taken)
  }

  ghost predicate Tells(s: Exec, t: TaskId, h: Option<Tale>) {
    (t in s.tasks <==> h.Some?) && (t in s.tasks && h.Some? ==> TaleIn(s.tasks[t]) == h.value)
  }

  lemma WokenTells(s: Exec, r: Exec, t: TaskId, h: Option<Tale>)
    requires WokenOnly(s, r) && Tells(s, t, h)
    ensures Tells(r, t, h)
  {
    if t in s.tasks && t in r.tasks {
      assert Woken(s.tasks[t], r.tasks[t]);
    }
  }

  lemma PollFdTells(s: Exec, fd: FdId, w: Waker, io: Io, reports: seq<Report>, t: TaskId, h: Option<Tale>)
    requires fd in s.fds && ReportsOk(s, reports) && Tells(s, t, h)
    ensures Tells(PollFd(s, fd, w, io, reports), t, h)
  {
    if PollResultOf(s.fds[fd], io) == PollYield {
      var f := PolledFd(s.fds[fd], w, io);
      SetFdKeepsReports(s, reports, fd, f);
      WakeByWoken(SetFd(s, fd, f), w, reports);
      WokenTells(SetFd(s, fd, f), WakeBy(SetFd(s, fd, f), w, reports), t, h);
    }
  }

  lemma SpawnTells(s: Exec, u: TaskId, p: Priority, t: TaskId, h: Option<Tale>)
    requires u !in s.tasks && Tells(s, t, h)
    ensures Tells(Spawn(s, u, p), t, if u == t then Some(Tale(false, false, None, [], [])) else h)
  {
    var s1 := SetTask(s, u, NewTask(p));
    WakeNowWoken(s1, u);
    WokenTells(s1, WakeNow(s1, u), t, if u == t then Some(Tale(false, false, None, [], [])) else h);
  }

  lemma DoTells(m: Machine, e: Effect, t: TaskId, h: Option<Tale>)
    requires Enabled(m, Do(e)) && Tells(m.exec, t, h)
    ensures Tells(Apply(m.exec, e), t, TaleAfter(m, Do(e), t, h))
  {
    var s := m.exec;
    match e {
      case DoSpawn(u, p) => SpawnTells(s, u, p, t, h);
      case DoWake(u, reports) =>
        WakeByWoken(s, TaskWaker(u), reports);
        WokenTells(s, WakeBy(s, TaskWaker(u), reports), t, h);
      case DoPollFd(fd, dir, w, io, reports) => PollFdTells(s, fd, w, io, reports, t, h);
      case _ =>
    }
  }

  lemma ReadyTells(m: Machine, v: int, reports: seq<Report>, t: TaskId, h: Option<Tale>)
    requires Enabled(m, Ready(v, reports)) && Tells(m.exec, t, h)
    ensures Tells(Next(m, Ready(v, reports)).exec, t, TaleAfter(m, Ready(v, reports), t, h))
  {
    var s := m.exec;
    var u := s.running.value;
    var x := s.tasks[u];
    var s1 := SetTask(s, u, x.(output := Some(v), handleWaker := Noop,
                               past := x.past.(returned := x.past.returned + [v])));
    var h1 := if u == t && h.Some?
              then Some(h.value.(offer := Some(v), returned := h.value.returned + [v])) else h;
    WakeByWoken(s1, x.handleWaker, reports);
    WokenTells(s1, StoreOutput(s, v, reports), t, h1);
    MarkTells(StoreOutput(s, v, reports), t, h1);
  }

  lemma MarkTells(s: Exec, t: TaskId, h: Option<Tale>)
    requires Busy(s) && Tells(s, t, h)
    ensures Tells(MarkCompleted(s), t, if s.running == Some(t) && h.Some?
                                       then Some(h.value.(late := h.value.late || IsQueued(s, t))) else h)
    ensures IsQueued(MarkCompleted(s), t) <==> IsQueued(s, t)
  {
  }

  lemma NextTells(m: Machine, a: Action, t: TaskId, h: Option<Tale>)
    requires Enabled(m, a) && Tells(m.exec, t, h)
    ensures Tells(Next(m, a).exec, t, TaleAfter(m, a, t, h))
  {
    match a {
      case Do(e) => DoTells(m, e, t, h);
      case Ready(v, reports) => ReadyTells(m, v, reports, t, h);
      case CheckEvents(reports) =>
        EpollWaitWoken(m.exec, reports);
        WokenTells(m.exec, EpollWait(m.exec, reports), t, h);
      case Wait(reports) =>
        EpollWaitWoken(m.exec, reports);
        WokenTells(m.exec, EpollWait(m.exec, reports), t, h);
      case _ =>
    }
  }

  lemma {:induction false} RunTells(m: Machine, acts: seq<Action>, t: TaskId, h: Option<Tale>)
    requires Valid(m, acts) && Tells(m.exec, t, h)
    ensures Tells(Final(m, acts).exec, t, TaleOf(m, acts, t, h))
    decreases |acts|
  {
    if acts != [] {
      NextTells(m, acts[0], t, h);
      RunTells(Next(m, acts[0]), acts[1..], t, TaleAfter(m, acts[0], t, h));
    }
  }

  /**
   * In every run, of every task: it counts as aborted exactly if its handle called abort;
   * as late exactly if it was linked when marked completed; what it has on offer, has
   * returned and has given out are the values of its Ready polls and of the handle polls
   * that found one.
   */
  lemma TasksTellTheirTale(acts: seq<Action>, t: TaskId)
    requires Valid(Initial(), acts)
    ensures Tells(Final(Initial(), acts).exec, t, TaleOf(Initial(), acts, t, None))
  {
    RunTells(Initial(), acts, t, None);
  }

  // ---------------------------------------------------------------- the executor

  /** Messages written, fds of earlier executors dropped, and a shutdown asked for, since it was made. */
  datatype Log = Log(sent: seq<Message>, lateDrop: bool, shutdown: bool)

  ghost function LogAfter(m: Machine, a: Action, g: Log): Log
    requires Enabled(m, a)
  {
    match a
    case Replace => Log([], false, false)
    case Do(e) =>
      (match e
       case RemoteWake(t) => if Upgradable(m.exec, t) then g.(sent := g.sent + [WakeUp(t)]) else g
       case RemoteNull => g.(sent := g.sent + [Null])
       case DoDropForeignFd => g.(lateDrop := true)
       case DoShutdown => g.(shutdown := true)
       case _ => g)
    case _ => g
  }

  ghost function LogOf(m: Machine, acts: seq<Action>, g: Log): Log
    requires Valid(m, acts)
    decreases |acts|
  {
    if acts == [] then g else LogOf(Next(m, acts[0]), acts[1..], LogAfter(m, acts[0], g))
  }

  ghost function LogIn(s: Exec): Log { Log(s.hist.sent, s.hist.lateDrop, s.shutdown) }

  lemma {:induction false} EventsKeepLog(s: Exec, reports: seq<Report>)
    requires ReportsOk(s, reports)
    ensures LogIn(EpollWait(s, reports)) == LogIn(s)
    decreases |reports|
  {
    if reports != [] {
      assert ReportOk(s, reports[0]);
      ProcessKeepsReports(s, reports);
      assert LogIn(Process(s, reports[0])) == LogIn(s);
      EventsKeepLog(Process(s, reports[0]), reports[1..]);
    }
  }

  lemma WakesKeepLog(s: Exec, w: Waker, reports: seq<Report>)
    requires ReportsOk(s, reports)
    ensures LogIn(WakeBy(s, w, reports)) == LogIn(s)
  {
    EventsKeepLog(s, reports);
  }

  lemma DoLog(m: Machine, e: Effect)
    requires Enabled(m, Do(e))
    ensures LogIn(Apply(m.exec, e)) == LogAfter(m, Do(e), LogIn(m.exec))
  {
    var s := m.exec;
    match e {
      case DoWake(t, reports) => WakesKeepLog(s, TaskWaker(t), reports);
      case DoPollFd(fd, dir, w, io, reports) =>
        if PollResultOf(s.fds[fd], io) == PollYield {
          var f := PolledFd(s.fds[fd], w, io);
          SetFdKeepsReports(s, reports, fd, f);
          WakesKeepLog(SetFd(s, fd, f), w, reports);
        }
      case _ =>
    }
  }

  lemma ReadyKeepsLog(s: Exec, v: int, reports: seq<Report>)
    requires Busy(s) && ReportsOk(s, reports)
    ensures LogIn(FinishReady(s, v, reports)) == LogIn(s)
  {
    var x := s.tasks[s.running.value];
    WakesKeepLog(SetTask(s, s.running.value, x.(output := Some(v), handleWaker := Noop,
                                                past := x.past.(returned := x.past.returned + [v]))),
                 x.handleWaker, reports);
  }

  lemma NextLog(m: Machine, a: Action)
    requires Enabled(m, a)
    ensures LogIn(Next(m, a).exec) == LogAfter(m, a, LogIn(m.exec))
  {
    match a {
      case Do(e) => DoLog(m, e);
      case Ready(v, reports) => ReadyKeepsLog(m.exec, v, reports);
      case CheckEvents(reports) => EventsKeepLog(m.exec, reports);
      case Wait(reports) => EventsKeepLog(m.exec, reports);
      case _ =>
    }
  }

  lemma {:induction false} RunLog(m: Machine, acts: seq<Action>)
    requires Valid(m, acts)
    ensures LogIn(Final(m, acts).exec) == LogOf(m, acts, LogIn(m.exec))
    decreases |acts|
  {
    if acts != [] {
      NextLog(m, acts[0]);
      RunLog(Next(m, acts[0]), acts[1..]);
    }
  }

  /**
   * In every run: the messages sent are those of wakes of live tasks from other threads,
   * in order; the shutdown flag is set exactly if it was asked for; and an fd of an
   * earlier executor counts as dropped exactly if one was.
   */
  lemma ExecutorKeepsItsLog(acts: seq<Action>)
    requires Valid(Initial(), acts)
    ensures LogIn(Final(Initial(), acts).exec) == LogOf(Initial(), acts, Log([], false, false))
  {
    RunLog(Initial(), acts);
  }
}
