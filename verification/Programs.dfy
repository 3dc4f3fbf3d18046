/**
 * Whole programs: calls of `run` and of `block_on`, in any number and order, on the
 * same executor.  What holds of the executor in every reachable state of one loop
 * holds in those of both.
 */
module Programs {
  import opened Types
  import opened ExecState
  import opened ExecInv
  import R = RunLoop
  import B = BlockOn
  import C = CompletionTheorems
  import opened Scheduling

  /** Steps of the program and of `run`, or one call of `block_on`. */
  datatype Segment = InRun(acts: seq<R.Action>) | InBlockOn(steps: seq<B.Action>)

  /** `block_on` is called where user code runs outside `run`; only the last call may be unfinished. */
  ghost predicate Valid(m: R.Machine, segs: seq<Segment>)
    decreases |segs|
  {
    segs == [] ||
    match segs[0]
    case InRun(acts) => R.Valid(m, acts) && Valid(R.Final(m, acts), segs[1..])
    case InBlockOn(acts) =>
      && m.phase.Outside? && B.Valid(B.Begin(m.exec), acts)
      && var l := B.Final(B.Begin(m.exec), acts);
      (|segs| == 1 || (l.phase.Returned? && Valid(m.(exec := l.exec), segs[1..])))
  }

  /** The executor at the end. */
  ghost function End(m: R.Machine, segs: seq<Segment>): Exec
    requires Valid(m, segs)
    decreases |segs|
  {
    if segs == [] then m.exec
    else
      match segs[0]
      case InRun(acts) => End(R.Final(m, acts), segs[1..])
      case InBlockOn(acts) =>
        var s := B.Final(B.Begin(m.exec), acts).exec;
        if |segs| == 1 then s else End(m.(exec := s), segs[1..])
  }

  // ---------------------------------------------------------------- the invariant

  lemma BlockOnInv(m: R.Machine, acts: seq<B.Action>)
    requires R.MachineInv(m) && m.phase.Outside? && B.Valid(B.Begin(m.exec), acts)
    ensures var l := B.Final(B.Begin(m.exec), acts);
      Inv(l.exec) && (l.phase.Returned? ==> R.MachineInv(m.(exec := l.exec)))
  {
    B.AlwaysInv(B.Begin(m.exec), acts);
  }

  lemma {:induction false} ProgramInv(m: R.Machine, segs: seq<Segment>)
    requires R.MachineInv(m) && Valid(m, segs)
    ensures Inv(End(m, segs))
    decreases |segs|
  {
    if segs != [] {
      match segs[0] {
        case InRun(acts) =>
          R.RunInv(m, acts);
          ProgramInv(R.Final(m, acts), segs[1..]);
        case InBlockOn(acts) =>
          BlockOnInv(m, acts);
          if |segs| > 1 {
            ProgramInv(m.(exec := B.Final(B.Begin(m.exec), acts).exec), segs[1..]);
          }
      }
    }
  }

  /** In every reachable state of every program: the invariant. */
  lemma Reachable(segs: seq<Segment>)
    requires Valid(R.Initial(), segs)
    ensures Inv(End(R.Initial(), segs))
  {
    FreshInv();
    ProgramInv(R.Initial(), segs);
  }

  /** An unfinished task that was not aborted is being polled, in the run queue of its priority, or asleep. */
  lemma TasksArePartitioned(segs: seq<Segment>, t: TaskId)
    requires Valid(R.Initial(), segs)
    requires var s := End(R.Initial(), segs); t in s.tasks && !s.tasks[t].completed && !s.tasks[t].past.aborted
    ensures var s := End(R.Initial(), segs);
      && (IsRunning(s, t) || t in s.queues[Rank(s.tasks[t].priority)] || t in s.queues[SLEEP])
      && !(IsRunning(s, t) && t in s.queues[SLEEP])
      && (forall i, j :: 0 <= i < 4 && 0 <= j < 4 && t in s.queues[i] && t in s.queues[j] ==> i == j)
      && (forall i :: 0 <= i < 4 && t in s.queues[i] ==> i == SLEEP || i == Rank(s.tasks[t].priority))
  {
    Reachable(segs);
    InvTask(End(R.Initial(), segs), t);
  }

  /** The queues own one strong reference to a linked task and none to others. */
  lemma CountsAreExact(segs: seq<Segment>, t: TaskId)
    requires Valid(R.Initial(), segs) && t in End(R.Initial(), segs).tasks
    ensures var s := End(R.Initial(), segs);
      s.tasks[t].strong == Bit(s.tasks[t].handle) + Bit(IsQueued(s, t)) + Bit(IsRunning(s, t))
  {
    Reachable(segs);
    InvTask(End(R.Initial(), segs), t);
  }

  /** Messages come out of the pipe in the order they went in, each once. */
  lemma MessagesAreInOrder(segs: seq<Segment>)
    requires Valid(R.Initial(), segs)
    ensures var s := End(R.Initial(), segs);
      s.hist.received <= s.hist.sent && s.pipe == s.hist.sent[|s.hist.received|..]
  {
    Reachable(segs);
  }

  // ---------------------------------------------------------------- the order of polls

  lemma LoopLogged(l: B.Loop, a: B.Action)
    requires Logged(l.exec) && B.Enabled(l, a)
    ensures Logged(B.Next(l, a).exec)
  {
    match a {
      case Do(e) => ApplyLogged(l.exec, e);
      case TakeTask => PopRunLogged(l.exec);
      case TaskPending => FinishPendingLogged(l.exec);
      case TaskReady(v, reports) => FinishReadyLogged(l.exec, v, reports);
      case CheckEvents(reports) => EpollWaitLogged(l.exec, reports);
      case Wait(reports) => EpollWaitLogged(l.exec, reports);
      case _ =>
    }
  }

  lemma {:induction false} BlockOnLogged(l: B.Loop, acts: seq<B.Action>)
    requires Logged(l.exec) && B.Valid(l, acts)
    ensures Logged(B.Final(l, acts).exec)
    decreases |acts|
  {
    if acts != [] {
      LoopLogged(l, acts[0]);
      BlockOnLogged(B.Next(l, acts[0]), acts[1..]);
    }
  }

  lemma {:induction false} ProgramLogged(m: R.Machine, segs: seq<Segment>)
    requires Logged(m.exec) && Valid(m, segs)
    ensures Logged(End(m, segs))
    decreases |segs|
  {
    if segs != [] {
      match segs[0] {
        case InRun(acts) =>
          RunLogged(m, acts);
          ProgramLogged(R.Final(m, acts), segs[1..]);
        case InBlockOn(acts) =>
          BlockOnLogged(B.Begin(m.exec), acts);
          if |segs| > 1 {
            ProgramLogged(m.(exec := B.Final(B.Begin(m.exec), acts).exec), segs[1..]);
          }
      }
    }
  }

  /** Each poll, by whichever loop, was of the longest-queued task of the highest non-empty priority. */
  lemma PollsAreRight(segs: seq<Segment>, k: nat)
    requires Valid(R.Initial(), segs)
    requires var log := End(R.Initial(), segs).hist.log; k < |log| && log[k].Popped?
    ensures var log := End(R.Initial(), segs).hist.log; PopOk(Replay(log[..k]), log[k].task, log[k].queue)
  {
    ProgramLogged(R.Initial(), segs);
  }

  // ---------------------------------------------------------------- completion

  lemma LoopKeepsFate(l: B.Loop, a: B.Action, t: TaskId)
    requires B.Enabled(l, a) && t in l.exec.tasks && !(a.TaskReady? && l.exec.running == Some(t))
    ensures t in B.Next(l, a).exec.tasks && R.SameFate(l.exec.tasks[t], B.Next(l, a).exec.tasks[t])
  {
    var s := l.exec;
    match a {
      case Do(e) => EffectKeepsFate(s, e, t);
      case TaskReady(v, reports) => ReadyKeepsFate(s, v, reports, t);
      case CheckEvents(reports) => EventsKeepFate(s, reports, t);
      case Wait(reports) => EventsKeepFate(s, reports, t);
      case _ =>
    }
  }

  lemma EventsKeepFate(s: Exec, reports: seq<Report>, t: TaskId)
    requires ReportsOk(s, reports) && t in s.tasks
    ensures t in EpollWait(s, reports).tasks && R.SameFate(s.tasks[t], EpollWait(s, reports).tasks[t])
  {
    EpollWaitWoken(s, reports);
    assert Woken(s.tasks[t], EpollWait(s, reports).tasks[t]);
  }

  lemma ReadyKeepsFate(s: Exec, v: int, reports: seq<Report>, t: TaskId)
    requires Busy(s) && ReportsOk(s, reports) && t in s.tasks && t != s.running.value
    ensures t in FinishReady(s, v, reports).tasks && R.SameFate(s.tasks[t], FinishReady(s, v, reports).tasks[t])
  {
    R.FinishReadyFate(s, v, reports);
  }

  lemma EffectKeepsFate(s: Exec, e: Effect, t: TaskId)
    requires Allowed(s, e) && t in s.tasks
    ensures t in Apply(s, e).tasks && R.SameFate(s.tasks[t], Apply(s, e).tasks[t])
  {
    R.ApplyUndisturbed(s, e);
  }

  lemma LoopKeepsFinished(l: B.Loop, a: B.Action, t: TaskId)
    requires B.LoopInv(l) && B.Enabled(l, a) && C.FinishedFor(l.exec, t)
    ensures C.FinishedFor(B.Next(l, a).exec, t)
  {
    InvTask(l.exec, t);
    LoopKeepsFate(l, a, t);
  }

  lemma {:induction false} BlockOnKeepsFinished(l: B.Loop, acts: seq<B.Action>, t: TaskId)
    requires B.LoopInv(l) && B.Valid(l, acts) && C.FinishedFor(l.exec, t)
    ensures C.FinishedFor(B.Final(l, acts).exec, t)
    decreases |acts|
  {
    if acts != [] {
      B.NextInv(l, acts[0]);
      LoopKeepsFinished(l, acts[0], t);
      BlockOnKeepsFinished(B.Next(l, acts[0]), acts[1..], t);
    }
  }

  lemma {:induction false} KeepsFinished(m: R.Machine, segs: seq<Segment>, t: TaskId)
    requires R.MachineInv(m) && Valid(m, segs) && C.FinishedFor(m.exec, t)
    requires forall i :: 0 <= i < |segs| && segs[i].InRun? ==> R.Replace !in segs[i].acts
    ensures C.FinishedFor(End(m, segs), t)
    decreases |segs|
  {
    if segs != [] {
      match segs[0] {
        case InRun(acts) =>
          C.CompletedStaysOut(m, acts, t);
          KeepsFinished(R.Final(m, acts), segs[1..], t);
        case InBlockOn(acts) =>
          BlockOnInv(m, acts);
          BlockOnKeepsFinished(B.Begin(m.exec), acts, t);
          if |segs| > 1 {
            KeepsFinished(m.(exec := B.Final(B.Begin(m.exec), acts).exec), segs[1..], t);
          }
      }
    }
  }

  /** A task that was unlinked when it completed is never linked or polled again, by whichever loop. */
  lemma FinishedStaysOut(m: R.Machine, segs: seq<Segment>, t: TaskId)
    requires R.MachineInv(m) && Valid(m, segs) && C.FinishedFor(m.exec, t)
    requires forall i :: 0 <= i < |segs| && segs[i].InRun? ==> R.Replace !in segs[i].acts
    ensures var s := End(m, segs); !IsQueued(s, t) && !IsRunning(s, t)
  {
    KeepsFinished(m, segs, t);
    ProgramInv(m, segs);
    InvTask(End(m, segs), t);
  }
}
