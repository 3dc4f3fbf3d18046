/**
 * What the methods of `Executor` are proved with: what each of them does to a task's
 * record and to the abstract state, and how its runs are put together from steps.
 */
module ExecutorSteps {
  import opened Types
  import Q = QueueSpec
  import S = ExecState
  import opened ExecState
  import opened ExecInv
  import opened TaskQueues
  import R = RunLoop
  import B = BlockOn
  import RunTheorems

  /** A task's record with a wake noted, and at the beginning of a poll. */
  function Owed(x: Task): Task { x.(past := x.past.(owed := true)) }

  function Unowed(x: Task): Task { x.(past := x.past.(owed := false, pendingOn := {}, missed := {})) }

  /** The oldest task of one queue is taken. */
  ghost function Popping(s: Exec, q: nat): Exec
    requires q < 4 && s.queues[q] != []
  {
    s.(queues := Q.Pop(s.queues, q),
       hist := s.hist.(log := s.hist.log + [Popped(s.queues[q][0], q)], where := s.hist.where - {s.queues[q][0]}))
  }

  /** From `s` to `r` the best task, `t`, is taken. */
  ghost predicate IsPopped(s: Exec, t: TaskId, r: Exec) {
    Runnable(s) && t == s.queues[TopQueue(s)][0] && r == Popping(s, TopQueue(s))
  }

  /** An upgrade and an enqueue make a wake. */
  lemma WokenView(s: Exec, r: Exec, t: TaskId)
    requires Upgradable(s, t)
    requires var x := More(s.tasks[t]);
      if x.completed then r == s.(tasks := s.tasks[t := x][t := Fewer(x, true)])
      else r == s.(queues := Q.Push(s.queues, Rank(x.priority), t),
                   tasks := s.tasks[t := x][t := Fewer(Owed(x), IsQueued(s, t))],
                   hist := s.hist.(log := s.hist.log + [Pushed(t, Rank(x.priority))], where := s.hist.where[t := Rank(x.priority)]))
    ensures r == WakeNow(s, t)
  {
    var x := s.tasks[t];
    assert Fewer(More(x), true) == x;
    assert s.tasks[t := More(x)][t := x] == s.tasks;
    assert Fewer(Owed(More(x)), IsQueued(s, t)) ==
           x.(strong := x.strong + (if IsQueued(s, t) then 0 else 1), past := x.past.(owed := true));
    var y := Fewer(Owed(More(x)), IsQueued(s, t));
    assert s.tasks[t := More(x)][t := y] == s.tasks[t := y];
  }

  lemma PoppedView(s: Exec, t: TaskId, r: Exec)
    requires t in s.tasks && IsPopped(s, t, r)
    ensures PopRun(s) == r.(running := Some(t), tasks := r.tasks[t := Unowed(r.tasks[t])])
  {
  }

  lemma SleepingView(s: Exec, t: TaskId)
    requires t in s.tasks && !IsQueued(s, t)
    ensures Fewer(s.tasks[t], IsQueued(s, t)) == s.tasks[t] && s.tasks[t := s.tasks[t]] == s.tasks
  {
  }

  lemma AbortedView(s: Exec, r: Exec, t: TaskId)
    requires t in s.tasks && r == s.(queues := r.queues)
    ensures S.Abort(s, t) ==
            s.(queues := Q.Unlink(s.queues, t),
               tasks := s.tasks[t := Fewer(s.tasks[t].(past := AbortedPast(r, t)), IsQueued(s, t))],
               hist := s.hist.(log := s.hist.log + [Released(t)], where := s.hist.where - {t}))
  {
    assert AbortedPast(r, t) == AbortedPast(s, t);
  }

  function Completed(x: Task, linked: bool): Task {
    x.(completed := true, past := x.past.(late := x.past.late || linked))
  }

  lemma MarkedView(s: Exec, t: TaskId)
    requires s.running == Some(t) && t in s.tasks
    ensures MarkCompleted(s) == s.(tasks := s.tasks[t := Fewer(Completed(s.tasks[t], IsQueued(s, t)), true)]).(running := None)
  {
  }

  lemma SentView(s: Exec, t: TaskId)
    requires Upgradable(s, t)
    ensures Apply(s, RemoteWake(t)) ==
            Send(if s.tasks[t].completed then s else s.(tasks := s.tasks[t := Owed(s.tasks[t])]), WakeUp(t))
  {
  }

  /** The executor holds a reference to the task that it polls. */
  lemma RunningIsHeld(s: Exec)
    requires Core(s) && Busy(s)
    ensures s.tasks[s.running.value].strong > Bit(IsQueued(s, s.running.value))
  {
    var t := s.running.value;
    QueuedIsLinked(s, t);
    assert TaskOk(s.tasks[t], Place(s, t), IsRunning(s, t));
  }

  lemma HandleIsHeld(s: Exec, t: TaskId)
    requires Inv(s) && t in s.tasks && s.tasks[t].handle
    ensures s.tasks[t].strong > Bit(IsQueued(s, t))
  {
    InvTask(s, t);
  }

  /** The reports that a poll's end comes with, if they are possible then. */
  function Usable(s: Exec, reports: seq<Report>): (r: seq<Report>)
    ensures ReportsOk(s, r)
  {
    if ReportsOk(s, reports) then reports else []
  }

  ghost function PollEnd(s: Exec, turn: Turn): R.Action {
    if turn.ready.Some? then R.Ready(turn.ready.value, Usable(s, turn.wakes)) else R.Pend
  }

  /** What is possible does not depend on the queues. */
  lemma SurfaceReports(s: Exec, r: Exec, reports: seq<Report>)
    requires r == s.(queues := r.queues)
    ensures ReportsOk(r, reports) <==> ReportsOk(s, reports)
  {
    assert forall i :: 0 <= i < |reports| ==> (ReportOk(r, reports[i]) <==> ReportOk(s, reports[i]));
  }

  lemma SurfaceAllows(s: Exec, r: Exec, e: Effect)
    requires r == s.(queues := r.queues)
    ensures Allowed(r, e) <==> Allowed(s, e)
  {
    match e {
      case DoWake(t, reports) => SurfaceReports(s, r, reports);
      case DoPollFd(fd, dir, w, io, reports) => SurfaceReports(s, r, reports);
      case _ =>
    }
  }

  /** Every queue has returned the references it owned. */
  ghost predicate Returned(s: Exec, strong: map<TaskId, nat>) {
    forall t :: t in s.tasks ==> t in strong && strong[t] == R.DropQueues(s).tasks[t].strong
  }

  lemma AllReturned(s: Exec, strong: map<TaskId, nat>)
    requires Q.Located(s.queues, s.hist.where)
    requires forall t :: t in s.tasks ==> t in strong && strong[t] == s.tasks[t].strong - Bit(t in s.hist.where)
    ensures Returned(s, strong)
  {
    forall t | t in s.tasks ensures t in strong && strong[t] == R.DropQueues(s).tasks[t].strong {
      QueuedIsLinked(s, t);
    }
  }

  /** Every task has completed or was aborted. */
  ghost predicate AllDone(s: Exec) {
    forall t :: t in s.tasks ==> s.tasks[t].completed || s.tasks[t].past.aborted
  }

  /** Why the inner loop of `run` is left: no task, no turn, a shutdown, or an error from epoll. */
  datatype Exit = NoneLeft | NoTurns | Stop | Error

  /** One turn of `block_on`: the future's poll, and then a task's poll or a wait. */
  datatype LoopTurn = LoopTurn(poll: seq<Effect>, done: bool, turn: Turn)

  ghost predicate LeadsLoop(l0: B.Loop, trace: seq<B.Action>, l: B.Loop) {
    B.LoopInv(l0) && B.Valid(l0, trace) && B.Final(l0, trace) == l
  }

  lemma ExtendInLoop(l0: B.Loop, trace: seq<B.Action>, l: B.Loop, a: B.Action)
    requires LeadsLoop(l0, trace, l) && B.Enabled(l, a)
    ensures LeadsLoop(l0, trace + [a], B.Next(l, a))
  {
    B.ExtendLoop(l0, trace, a);
  }

  lemma DoInLoop(l0: B.Loop, trace: seq<B.Action>, l: B.Loop, e: Effect) returns (r: B.Loop)
    requires LeadsLoop(l0, trace, l) && Allowed(l.exec, e)
    requires External(e) || l.phase.Future? || l.phase.TaskPoll? || l.phase.TaskDone?
    ensures Inv(l.exec) && LeadsLoop(l0, trace + [B.Do(e)], r)
    ensures r.exec == Apply(l.exec, e) && r.phase == l.phase
  {
    LeadsLoopInv(l0, trace, l);
    ExtendInLoop(l0, trace, l, B.Do(e));
    r := B.Next(l, B.Do(e));
  }

  /** What happens in one turn of the loop: a poll, or an untimed wait. */
  datatype Turn = Turn(effects: seq<Effect>, ready: Option<int>, wakes: seq<Report>, after: seq<Effect>,
                       reports: seq<Report>, fails: bool)

  /** epoll fails in one of them. */
  ghost predicate SomeFails(turns: seq<Turn>) { exists i :: 0 <= i < |turns| && turns[i].fails }

  ghost predicate NoTasks(s: Exec) { s.queues == [[], [], [], []] }

  /** What `Executor::new` returns, and what the destructors of tasks released by the replacement do. */
  datatype Renewal = Renewal(fails: bool, drops: seq<Effect>)

  /** An effect that is not possible does not happen; where no user code runs, only external ones are. */
  ghost function Tried(s: Exec, e: Effect, external: bool): Exec {
    if Allowed(s, e) && (external ==> External(e)) then Apply(s, e) else s
  }

  /** The state after those of `effects` that are possible at their turn. */
  ghost function Performed(s: Exec, effects: seq<Effect>, external: bool): Exec {
    if effects == [] then s
    else Tried(Performed(s, effects[..|effects| - 1], external), effects[|effects| - 1], external)
  }

  // ---------------------------------------------------------------- whole turns

  /** The poll of the running task returns. */
  ghost function Returns(s: Exec, turn: Turn): Exec {
    if !Busy(s) then s
    else if turn.ready.None? then FinishPending(s)
    else FinishReady(s, turn.ready.value, Usable(s, turn.wakes))
  }

  /** One poll of the task taken: what the future does, its result, the destructors after it. */
  ghost function Polls(s: Exec, turn: Turn): Exec {
    Performed(Returns(Performed(s, turn.effects, false), turn), turn.after, false)
  }

  /** The reports that are possible are delivered. */
  ghost function Told(s: Exec, reports: seq<Report>): Exec {
    S.EpollWait(s, Usable(s, reports))
  }

  /** Kernel and other threads act while the executor waits. */
  ghost function Waits(s: Exec, turn: Turn): Exec { Performed(s, turn.effects, true) }

  /** How, and in what state, the loop of `run` is left. */
  datatype Left = Left(exit: Exit, exec: Exec)

  /**
   * `run` up to its last step, as one loop over the turns: a task is polled if one is
   * runnable, events are waited for if one sleeps, and otherwise it is over.
   */
  ghost function Runs(s: Exec, turns: seq<Turn>): Left
    decreases |turns|
  {
    if Runnable(s) then
      if turns == [] then Left(NoTurns, PopRun(s))
      else
        var r := Polls(PopRun(s), turns[0]);
        if r.shutdown then Left(Stop, r)
        else if turns[0].fails then Left(Error, r)
        else Runs(Told(r, turns[0].reports), turns[1..])
    else if s.queues[SLEEP] == [] then Left(Stop, s)
    else if turns == [] then Left(NoTurns, s)
    else
      var r := Waits(s, turns[0]);
      if turns[0].fails then Left(Error, r) else Runs(Told(r, turns[0].reports), turns[1..])
  }

  /** The rest of `run` when a task has been taken for the `i`-th turn. */
  ghost function TaskTurn(s: Exec, turns: seq<Turn>, i: nat): Left
    requires i < |turns|
  {
    var r := Polls(s, turns[i]);
    if r.shutdown then Left(Stop, r)
    else if turns[i].fails then Left(Error, r)
    else Runs(Told(r, turns[i].reports), turns[i + 1..])
  }

  /** One turn of `block_on`; it may be the last. */
  ghost function LoopTurns(s: Exec, turn: LoopTurn): Exec {
    var r := Performed(s, turn.poll, false);
    if turn.done then r
    else if Runnable(r) then Told(Polls(PopRun(r), turn.turn), turn.turn.reports)
    else Told(Waits(r, turn.turn), turn.turn.reports)
  }

  /** All of them, up to the one in which the future is ready. */
  ghost function Blocks(s: Exec, turns: seq<LoopTurn>): Exec
    decreases |turns|
  {
    if turns == [] then s
    else if turns[0].done then LoopTurns(s, turns[0])
    else Blocks(LoopTurns(s, turns[0]), turns[1..])
  }

  predicate SomeDone(turns: seq<LoopTurn>) { exists i :: 0 <= i < |turns| && turns[i].done }

  lemma RunsTask(s: Exec, turns: seq<Turn>, i: nat)
    requires i <= |turns| && Runnable(s)
    ensures Runs(s, turns[i..]) ==
            if i == |turns| then Left(NoTurns, PopRun(s)) else TaskTurn(PopRun(s), turns, i)
  {
    if i < |turns| {
      assert turns[i..][0] == turns[i] && turns[i..][1..] == turns[i + 1..];
    }
  }

  lemma RunsRest(s: Exec, turns: seq<Turn>, i: nat)
    requires i <= |turns| && !Runnable(s)
    ensures Runs(s, turns[i..]) ==
            if s.queues[SLEEP] == [] then Left(Stop, s)
            else if i == |turns| then Left(NoTurns, s)
            else if turns[i].fails then Left(Error, Waits(s, turns[i]))
            else Runs(Told(Waits(s, turns[i]), turns[i].reports), turns[i + 1..])
  {
    if i < |turns| {
      assert turns[i..][0] == turns[i] && turns[i..][1..] == turns[i + 1..];
    }
  }

  lemma BlocksAt(s: Exec, turns: seq<LoopTurn>, i: nat)
    requires i < |turns|
    ensures Blocks(s, turns[i..]) ==
            if turns[i].done then LoopTurns(s, turns[i]) else Blocks(LoopTurns(s, turns[i]), turns[i + 1..])
    ensures SomeDone(turns[..i + 1]) <==> SomeDone(turns[..i]) || turns[i].done
  {
    assert turns[i..][0] == turns[i] && turns[i..][1..] == turns[i + 1..];
    assert turns[..i + 1][i] == turns[i];
    if SomeDone(turns[..i]) {
      var j :| 0 <= j < i && turns[..i][j].done;
      assert turns[..i + 1][j].done;
    }
    if SomeDone(turns[..i + 1]) && !turns[i].done {
      var j :| 0 <= j < i + 1 && turns[..i + 1][j].done;
      assert turns[..i][j].done;
    }
  }

  lemma DoneSoFar(turns: seq<LoopTurn>, i: nat)
    requires i <= |turns| && SomeDone(turns[..i])
    ensures SomeDone(turns)
  {
    var j :| 0 <= j < i && turns[..i][j].done;
    assert turns[j].done;
  }

  /** How `run` ends: Ok, an error from epoll, or the end of what the caller chose to observe. */
  datatype Outcome = Finished(stopped: bool) | Failed | OutOfTurns

  /** What `run` returns when its loop is left so, what executor is then in place, and which was retired. */
  ghost predicate Ends(left: Left, renew: Renewal, outcome: Outcome, next: Exec, retired: Option<Exec>) {
    match left.exit
    case Stop =>
      if renew.fails then outcome == Failed && next == left.exec
      else
        && outcome == Finished(left.exec.shutdown)
        && next == (if NoTasks(left.exec) then Fresh() else Performed(Fresh(), renew.drops, false))
        && retired == Some(R.DropQueues(left.exec))
    case Error => outcome == Failed && next == left.exec
    case _ => outcome == OutOfTurns && next == left.exec
  }

  /**
   * Only an error from epoll leaves the loop by an error, and only a shutdown while a task is
   * linked; with none linked it is left at once.
   */
  lemma {:induction false} LeftForAReason(s: Exec, turns: seq<Turn>)
    ensures Runs(s, turns).exit == Error ==> SomeFails(turns)
    ensures Runs(s, turns).exit == Stop ==> Runs(s, turns).exec.shutdown || NoTasks(Runs(s, turns).exec)
    ensures Runs(s, turns).exit != NoneLeft
    ensures NoTasks(s) ==> Runs(s, turns) == Left(Stop, s)
    decreases |turns|
  {
    if !Runnable(s) && s.queues[SLEEP] == [] {
      assert forall q :: 0 <= q < 4 ==> s.queues[q] == [];
    } else if turns != [] {
      var r := if Runnable(s) then Polls(PopRun(s), turns[0]) else Waits(s, turns[0]);
      LeftForAReason(Told(r, turns[0].reports), turns[1..]);
      if SomeFails(turns[1..]) {
        var i :| 0 <= i < |turns| - 1 && turns[1..][i].fails;
        assert turns[i + 1].fails;
      }
    }
  }

  lemma RunKeepsPromises(s: Exec, turns: seq<Turn>, renew: Renewal, outcome: Outcome, next: Exec, retired: Option<Exec>)
    requires Ends(Runs(s, turns), renew, outcome, next, retired)
    ensures outcome.Finished? ==> next == Fresh() || (outcome.stopped && next == Performed(Fresh(), renew.drops, false))
    ensures outcome == Failed ==> renew.fails || SomeFails(turns)
    ensures NoTasks(s) ==> outcome == if renew.fails then Failed else Finished(s.shutdown)
  {
    LeftForAReason(s, turns);
  }

  /** `trace` is a run from `m0` to `m`, and begins within the invariant: so it stays there. */
  ghost predicate Leads(m0: R.Machine, trace: seq<R.Action>, m: R.Machine) {
    R.MachineInv(m0) && R.Valid(m0, trace) && R.Final(m0, trace) == m
  }

  lemma Extend(m0: R.Machine, trace: seq<R.Action>, m: R.Machine, a: R.Action)
    requires Leads(m0, trace, m) && R.Enabled(m, a)
    ensures Leads(m0, trace + [a], R.Next(m, a))
  {
    R.ExtendRun(m0, trace, a);
  }

  lemma LeadsInv(m0: R.Machine, trace: seq<R.Action>, m: R.Machine)
    requires Leads(m0, trace, m)
    ensures Inv(m.exec) && (m.phase.Polling? ==> Busy(m.exec))
  {
    R.RunInv(m0, trace);
  }

  lemma DoInRun(m0: R.Machine, trace: seq<R.Action>, m: R.Machine, e: Effect) returns (r: R.Machine)
    requires Leads(m0, trace, m) && Allowed(m.exec, e) && (External(e) || R.RunsUserCode(m.phase))
    ensures Inv(m.exec) && Leads(m0, trace + [R.Do(e)], r) && r == m.(exec := Apply(m.exec, e))
  {
    LeadsInv(m0, trace, m);
    Extend(m0, trace, m, R.Do(e));
    r := R.Next(m, R.Do(e));
  }

  lemma LeadsLoopInv(l0: B.Loop, trace: seq<B.Action>, l: B.Loop)
    requires LeadsLoop(l0, trace, l)
    ensures Inv(l.exec) && (l.phase.TaskPoll? ==> Busy(l.exec))
  {
    B.AlwaysInv(l0, trace);
  }

  /** Out of the loop without a shutdown, nothing is unfinished. */
  lemma RetiringDone(m0: R.Machine, trace: seq<R.Action>, m: R.Machine)
    requires Leads(m0, trace, m) && m.phase.Retiring?
    ensures !m.exec.shutdown ==> m.exec.queues == [[], [], [], []] && AllDone(R.DropQueues(m.exec))
  {
    R.RunInv(m0, trace);
    if !m.exec.shutdown {
      forall i | 0 <= i < 4 ensures m.exec.queues[i] == [] {
      }
      RunTheorems.NoneRunnable(m.exec);
      forall t | t in m.exec.tasks ensures m.exec.tasks[t].completed || m.exec.tasks[t].past.aborted {
        assert t !in m.exec.queues[SLEEP] && !IsLinked(m.exec, t);
        assert TaskOk(m.exec.tasks[t], Place(m.exec, t), IsRunning(m.exec, t));
      }
    }
  }

  lemma StoreKeepsBusy(s: Exec, v: int, reports: seq<Report>)
    requires Inv(s) && Busy(s) && ReportsOk(s, reports)
    ensures var r := StoreOutput(s, v, reports);
      Busy(r) && r.tasks[r.running.value].strong > Bit(IsQueued(r, r.running.value))
  {
    var t := s.running.value;
    var x := s.tasks[t];
    var y := x.(output := Some(v), handleWaker := Noop, past := x.past.(returned := x.past.returned + [v]));
    var s1 := SetTask(s, t, y);
    StoreCore(s, t, y);
    WakeByCore(s1, x.handleWaker, reports);
    WakeByWoken(s1, x.handleWaker, reports);
    RunningIsHeld(S.WakeBy(s1, x.handleWaker, reports));
  }

  /** One call of the I/O closure: interrupted, or ended for good. */
  datatype IoResult = Interrupted | Ended(io: Io)

  predicate Settles(io: seq<IoResult>) {
    exists i :: 0 <= i < |io| && io[i].Ended?
  }

  function Settled(io: seq<IoResult>): Io
    requires Settles(io)
  {
    if io[0].Ended? then io[0].io else Settled(io[1..])
  }

  /** A call is repeated as long as it is interrupted: the first other result is the one that counts. */
  lemma {:induction false} SettledIsFirst(io: seq<IoResult>, i: nat)
    requires i < |io| && io[i].Ended? && forall j :: 0 <= j < i ==> io[j].Interrupted?
    ensures Settles(io) && Settled(io) == io[i].io
    decreases i
  {
    if i > 0 {
      SettledIsFirst(io[1..], i - 1);
    }
  }

  lemma PolledView(s: Exec, fd: FdId, w: Waker, io: Io, reports: seq<Report>)
    requires ReportsOk(s, reports) && fd in s.fds
    ensures var s1 := s.(fds := s.fds[fd := PolledFd(s.fds[fd], w, io)]);
      match PollResultOf(s.fds[fd], io)
      case PollPending =>
        S.PollFd(s, fd, w, io, reports) ==
        (if w.TaskWaker? && w.task in s1.tasks then S.NotePending(s1, w.task, PendingPast(s1, w.task, fd)) else s1)
      case PollReady =>
        S.PollFd(s, fd, w, io, reports) ==
        (if Busy(s1) then S.NotePending(s1, s1.running.value, ReadyPast(s1, s1.running.value, fd)) else s1)
      case PollYield =>
        ReportsOk(s1, reports) && S.PollFd(s, fd, w, io, reports) == S.WakeBy(s1, w, reports)
  {
    PolledKeepsReports(s, reports, fd, w, io);
  }

  lemma PolledKeepsReports(s: Exec, reports: seq<Report>, fd: FdId, w: Waker, io: Io)
    requires ReportsOk(s, reports) && fd in s.fds
    ensures PollResultOf(s.fds[fd], io) != PollReady ==>
              ReportsOk(SetFd(s, fd, PolledFd(s.fds[fd], w, io)), reports)
  {
    if PollResultOf(s.fds[fd], io) != PollReady {
      SetFdKeepsReports(s, reports, fd, PolledFd(s.fds[fd], w, io));
    }
  }
}
