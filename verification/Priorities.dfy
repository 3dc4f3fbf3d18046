/**
 * What priorities mean: the order in which tasks are polled, in terms of the priority
 * that each was spawned with, and of no queue.
 */
module Priorities {
  import opened Types
  import opened ExecState
  import opened ExecInv
  import R = RunLoop
  import B = BlockOn
  import P = Programs

  /** Tasks run from high to low priority. */
  predicate Sooner(a: Priority, b: Priority) {
    (a.High? && !b.High?) || (a.Normal? && b.Low?)
  }

  // ---------------------------------------------------------------- what tasks were spawned with

  ghost function AfterEffect(g: map<TaskId, Priority>, e: Effect): map<TaskId, Priority> {
    if e.DoSpawn? then g[e.t := e.p] else g
  }

  /** The priorities given to the tasks of the present executor by the spawns of a run, after those in `g`. */
  ghost function GivenInRun(g: map<TaskId, Priority>, acts: seq<R.Action>): map<TaskId, Priority>
    decreases |acts|
  {
    if acts == [] then g
    else
      GivenInRun(if acts[0].Do? then AfterEffect(g, acts[0].e) else if acts[0].Replace? then map[] else g, acts[1..])
  }

  ghost function GivenInBlockOn(g: map<TaskId, Priority>, acts: seq<B.Action>): map<TaskId, Priority>
    decreases |acts|
  {
    if acts == [] then g
    else GivenInBlockOn(if acts[0].Do? then AfterEffect(g, acts[0].e) else g, acts[1..])
  }

  ghost function Given(g: map<TaskId, Priority>, segs: seq<P.Segment>): map<TaskId, Priority>
    decreases |segs|
  {
    if segs == [] then g
    else
      match segs[0]
      case InRun(acts) => Given(GivenInRun(g, acts), segs[1..])
      case InBlockOn(acts) => Given(GivenInBlockOn(g, acts), segs[1..])
  }

  /** The tasks are those spawned, with the priorities they were spawned with. */
  ghost predicate AsGiven(s: Exec, g: map<TaskId, Priority>) {
    && (forall t :: t in s.tasks <==> t in g)
    && (forall t :: t in s.tasks && t in g ==> s.tasks[t].priority == g[t])
  }

  lemma WokenAsGiven(s: Exec, r: Exec, g: map<TaskId, Priority>)
    requires WokenOnly(s, r) && AsGiven(s, g)
    ensures AsGiven(r, g)
  {
    forall t | t in r.tasks && t in g ensures r.tasks[t].priority == g[t] {
      assert t in s.tasks && Woken(s.tasks[t], r.tasks[t]);
    }
  }

  lemma SpawnAsGiven(s: Exec, t: TaskId, p: Priority, g: map<TaskId, Priority>)
    requires t !in s.tasks && AsGiven(s, g)
    ensures AsGiven(Spawn(s, t, p), g[t := p])
  {
    var s1 := SetTask(s, t, NewTask(p));
    WakeNowWoken(s1, t);
    WokenAsGiven(s1, WakeNow(s1, t), g[t := p]);
  }

  lemma PollFdAsGiven(s: Exec, fd: FdId, w: Waker, io: Io, reports: seq<Report>, g: map<TaskId, Priority>)
    requires fd in s.fds && ReportsOk(s, reports) && AsGiven(s, g)
    ensures AsGiven(PollFd(s, fd, w, io, reports), g)
  {
    if PollResultOf(s.fds[fd], io) == PollYield {
      var f := PolledFd(s.fds[fd], w, io);
      SetFdKeepsReports(s, reports, fd, f);
      WakeByWoken(SetFd(s, fd, f), w, reports);
      WokenAsGiven(SetFd(s, fd, f), WakeBy(SetFd(s, fd, f), w, reports), g);
    }
  }

  lemma EffectAsGiven(s: Exec, e: Effect, g: map<TaskId, Priority>)
    requires Allowed(s, e) && AsGiven(s, g)
    ensures AsGiven(Apply(s, e), AfterEffect(g, e))
  {
    match e {
      case DoSpawn(t, p) => SpawnAsGiven(s, t, p, g);
      case DoWake(t, reports) =>
        WakeByWoken(s, TaskWaker(t), reports);
        WokenAsGiven(s, WakeBy(s, TaskWaker(t), reports), g);
      case DoPollFd(fd, dir, w, io, reports) => PollFdAsGiven(s, fd, w, io, reports, g);
      case _ =>
    }
  }

  lemma ReadyAsGiven(s: Exec, v: int, reports: seq<Report>, g: map<TaskId, Priority>)
    requires Busy(s) && ReportsOk(s, reports) && AsGiven(s, g)
    ensures AsGiven(FinishReady(s, v, reports), g)
  {
    var x := s.tasks[s.running.value];
    var s1 := SetTask(s, s.running.value, x.(output := Some(v), handleWaker := Noop,
                                             past := x.past.(returned := x.past.returned + [v])));
    WakeByWoken(s1, x.handleWaker, reports);
    WokenAsGiven(s1, WakeBy(s1, x.handleWaker, reports), g);
  }

  lemma EventsAsGiven(s: Exec, reports: seq<Report>, g: map<TaskId, Priority>)
    requires ReportsOk(s, reports) && AsGiven(s, g)
    ensures AsGiven(EpollWait(s, reports), g)
  {
    EpollWaitWoken(s, reports);
    WokenAsGiven(s, EpollWait(s, reports), g);
  }

  lemma PopAsGiven(s: Exec, g: map<TaskId, Priority>)
    requires Runnable(s) && AsGiven(s, g)
    ensures AsGiven(PopRun(s), g)
  {
  }

  lemma PendAsGiven(s: Exec, g: map<TaskId, Priority>)
    requires Busy(s) && AsGiven(s, g)
    ensures AsGiven(FinishPending(s), g)
  {
  }

  lemma {:induction false} RunAsGiven(m: R.Machine, acts: seq<R.Action>, g: map<TaskId, Priority>)
    requires R.Valid(m, acts) && AsGiven(m.exec, g)
    ensures AsGiven(R.Final(m, acts).exec, GivenInRun(g, acts))
    decreases |acts|
  {
    if acts != [] {
      var s := m.exec;
      match acts[0] {
        case Do(e) => EffectAsGiven(s, e, g);
        case PollNext => PopAsGiven(s, g);
        case Pend => PendAsGiven(s, g);
        case Ready(v, reports) => ReadyAsGiven(s, v, reports, g);
        case CheckEvents(reports) => EventsAsGiven(s, reports, g);
        case Wait(reports) => EventsAsGiven(s, reports, g);
        case _ =>
      }
      RunAsGiven(R.Next(m, acts[0]), acts[1..],
                 if acts[0].Do? then AfterEffect(g, acts[0].e) else if acts[0].Replace? then map[] else g);
    }
  }

  lemma {:induction false} BlockOnAsGiven(l: B.Loop, acts: seq<B.Action>, g: map<TaskId, Priority>)
    requires B.Valid(l, acts) && AsGiven(l.exec, g)
    ensures AsGiven(B.Final(l, acts).exec, GivenInBlockOn(g, acts))
    decreases |acts|
  {
    if acts != [] {
      var s := l.exec;
      match acts[0] {
        case Do(e) => EffectAsGiven(s, e, g);
        case TakeTask => PopAsGiven(s, g);
        case TaskPending => PendAsGiven(s, g);
        case TaskReady(v, reports) => ReadyAsGiven(s, v, reports, g);
        case CheckEvents(reports) => EventsAsGiven(s, reports, g);
        case Wait(reports) => EventsAsGiven(s, reports, g);
        case _ =>
      }
      BlockOnAsGiven(B.Next(l, acts[0]), acts[1..], if acts[0].Do? then AfterEffect(g, acts[0].e) else g);
    }
  }

  lemma {:induction false} ProgramAsGiven(m: R.Machine, segs: seq<P.Segment>, g: map<TaskId, Priority>)
    requires P.Valid(m, segs) && AsGiven(m.exec, g)
    ensures AsGiven(P.End(m, segs), Given(g, segs))
    decreases |segs|
  {
    if segs != [] {
      match segs[0] {
        case InRun(acts) =>
          RunAsGiven(m, acts, g);
          ProgramAsGiven(R.Final(m, acts), segs[1..], GivenInRun(g, acts));
        case InBlockOn(acts) =>
          BlockOnAsGiven(B.Begin(m.exec), acts, g);
          if |segs| > 1 {
            ProgramAsGiven(m.(exec := B.Final(B.Begin(m.exec), acts).exec), segs[1..], GivenInBlockOn(g, acts));
          }
      }
    }
  }

  // ---------------------------------------------------------------- the order of polls

  /** The task that the next poll by either loop takes, as `PopRun` finds it. */
  ghost function NextPolled(s: Exec): TaskId
    requires Runnable(s)
  {
    PopRun(s).running.value
  }

  lemma BestFirst(s: Exec, u: TaskId)
    requires Inv(s) && Runnable(s) && u in s.tasks && IsQueued(s, u) && u !in s.queues[SLEEP]
    ensures var t := NextPolled(s);
      && t in s.tasks && !Sooner(s.tasks[u].priority, s.tasks[t].priority)
      && (s.tasks[u].priority == s.tasks[t].priority <==> u in s.queues[TopQueue(s)])
  {
    TopTask(s);
    InvTask(s, s.queues[TopQueue(s)][0]);
    InvTask(s, u);
  }

  /**
   * In every state of every program: when a task is to be polled, by whichever loop, no
   * task that is linked and does not sleep was spawned with a priority before that of the
   * polled one; and those spawned with the same are behind it in one queue.
   */
  lemma PollsByPriority(segs: seq<P.Segment>, u: TaskId)
    requires P.Valid(R.Initial(), segs)
    requires var s := P.End(R.Initial(), segs); Runnable(s) && IsQueued(s, u) && u !in s.queues[SLEEP]
    ensures var s := P.End(R.Initial(), segs); var g := Given(map[], segs); var t := NextPolled(s);
      && t in g && u in g && !Sooner(g[u], g[t])
      && (g[u] == g[t] <==> u in s.queues[TopQueue(s)]) && s.queues[TopQueue(s)][0] == t
  {
    P.Reachable(segs);
    var s := P.End(R.Initial(), segs);
    ProgramAsGiven(R.Initial(), segs, map[]);
    InvLinked(s, u);
    BestFirst(s, u);
  }

  lemma InvLinked(s: Exec, u: TaskId)
    requires Inv(s) && IsQueued(s, u)
    ensures u in s.tasks
  {
    QueuedIsLinked(s, u);
  }
}
