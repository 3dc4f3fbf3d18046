/**
 * The exceptions that the theorems name do happen: for each of them, a run from the
 * start of the program.
 */
module Exceptions {
  import opened Types
  import opened QueueSpec
  import opened ExecState
  import opened ExecInv
  import opened RunLoop
  import opened RunTheorems
  import opened CompletionTheorems
  import D = Teardown
  import B = BlockOn

  // ---------------------------------------------------------------- small programs

  /** Tasks of normal priority only: the run queue and the sleep queue. */
  function Line(q: seq<TaskId>, z: seq<TaskId>): Queues { [[], q, [], z] }

  lemma PushLine(q: seq<TaskId>, z: seq<TaskId>, t: TaskId)
    requires t !in q && t !in z
    ensures Push(Line(q, z), NORMAL, t) == Line(q + [t], z) && Push(Line(q, z), SLEEP, t) == Line(q, z + [t])
  {
    UnlinkAbsent(Line(q, z), t);
  }

  lemma RequeueLine(q: seq<TaskId>, z: seq<TaskId>, t: TaskId)
    requires t !in z
    ensures Push(Line(q, z), NORMAL, t) == Line(Without(q, t) + [t], z) && Unlink(Line(q, z), t) == Line(Without(q, t), z)
  {
    WithoutAbsent(z, t);
    assert Unlink(Line(q, z), t) == Line(Without(q, t), z);
  }

  lemma PopLine(q: seq<TaskId>, z: seq<TaskId>)
    requires q != []
    ensures Pop(Line(q, z), NORMAL) == Line(q[1..], z)
  {
  }

  /** Where a small program is. */
  ghost predicate At(m: Machine, phase: Phase, q: seq<TaskId>, z: seq<TaskId>, running: Option<TaskId>) {
    && m.phase == phase && m.exec.queues == Line(q, z) && m.exec.running == running
    && !m.exec.shutdown && m.exec.pipe == []
    && (forall t :: t in m.exec.tasks ==> m.exec.tasks[t].priority == Normal)
  }

  /** From `m` to `r` nothing happened to fds and the buffer. */
  ghost predicate SameFds(m: Machine, r: Machine) { r.exec.fds == m.exec.fds && r.exec.buffer == m.exec.buffer }

  lemma Spawns(m: Machine, q: seq<TaskId>, z: seq<TaskId>, t: TaskId)
    requires At(m, Outside, q, z, None) && t !in m.exec.tasks && t !in q && t !in z
    ensures var a := Do(DoSpawn(t, Normal));
      && Enabled(m, a) && At(Next(m, a), Outside, q + [t], z, None) && SameFds(m, Next(m, a))
      && Next(m, a).exec.tasks == m.exec.tasks[t := Woke(NewTask(Normal))]
  {
    PushLine(q, z, t);
  }

  /** A task's record after a wake that links it. */
  function Woke(x: Task): Task { x.(strong := x.strong + 1, past := x.past.(owed := true)) }

  function Begun(x: Task): Task { x.(past := x.past.(owed := false, pendingOn := {}, missed := {})) }

  lemma Polls(m: Machine, q: seq<TaskId>, z: seq<TaskId>)
    requires At(m, Select, q, z, None) && q != [] && q[0] in m.exec.tasks
    ensures var r := Next(m, PollNext);
      && Enabled(m, PollNext) && At(r, Polling, q[1..], z, Some(q[0])) && SameFds(m, r)
      && r.exec.tasks == m.exec.tasks[q[0] := Begun(m.exec.tasks[q[0]])]
  {
    PopLine(q, z);
  }

  /** The polled task wakes itself. */
  lemma Yields(m: Machine, q: seq<TaskId>, z: seq<TaskId>, t: TaskId)
    requires MachineInv(m) && At(m, Polling, q, z, Some(t)) && t in m.exec.tasks && !m.exec.tasks[t].completed
    requires t !in q && t !in z
    ensures var a := Do(DoWake(t, []));
      && Enabled(m, a) && At(Next(m, a), Polling, q + [t], z, Some(t)) && SameFds(m, Next(m, a))
      && Next(m, a).exec.tasks == m.exec.tasks[t := Woke(m.exec.tasks[t])]
  {
    PolledAlive(m.exec, t);
    WakesOnLine(m.exec, q, z, t);
  }

  lemma WakesOnLine(s: Exec, q: seq<TaskId>, z: seq<TaskId>, t: TaskId)
    requires s.queues == Line(q, z) && Upgradable(s, t) && !s.tasks[t].completed && s.tasks[t].priority == Normal
    requires t !in q && t !in z
    ensures var r := WakeNow(s, t);
      && r == s.(queues := Line(q + [t], z), tasks := s.tasks[t := Woke(s.tasks[t])], hist := r.hist)
  {
    PushLine(q, z, t);
  }

  /** It returns Pending, and stays in the run queue. */
  lemma EndsLinked(m: Machine, q: seq<TaskId>, z: seq<TaskId>, t: TaskId)
    requires At(m, Polling, q, z, Some(t)) && t in m.exec.tasks && t in q
    ensures var r := Next(m, Pend);
      && Enabled(m, Pend) && At(r, Polled, q, z, None) && SameFds(m, r)
      && r.exec.tasks == m.exec.tasks[t := m.exec.tasks[t].(strong := Less(m.exec.tasks[t].strong))]
  {
  }

  /** It returns Pending, and sleeps. */
  lemma EndsAsleep(m: Machine, q: seq<TaskId>, z: seq<TaskId>, t: TaskId)
    requires At(m, Polling, q, z, Some(t)) && t in m.exec.tasks && t !in q && t !in z
    ensures var r := Next(m, Pend);
      && Enabled(m, Pend) && At(r, Polled, q, z + [t], None) && SameFds(m, r) && r.exec.tasks == m.exec.tasks
  {
    PushLine(q, z, t);
  }

  function Returned(x: Task, v: int, linked: bool): Task {
    x.(output := Some(v), completed := true, strong := Less(x.strong),
       past := x.past.(returned := x.past.returned + [v], late := x.past.late || linked))
  }

  /** It returns Ready. */
  lemma Returns(m: Machine, q: seq<TaskId>, z: seq<TaskId>, t: TaskId, v: int)
    requires At(m, Polling, q, z, Some(t)) && t in m.exec.tasks && m.exec.tasks[t].handleWaker == Noop && t !in z
    ensures var r := Next(m, Ready(v, []));
      && Enabled(m, Ready(v, [])) && At(r, Polled, q, z, None) && SameFds(m, r)
      && r.exec.tasks == m.exec.tasks[t := Returned(m.exec.tasks[t], v, t in q)]
  {
  }

  /** No shutdown, no event: the next task. */
  lemma GoesOn(m: Machine, q: seq<TaskId>, z: seq<TaskId>)
    requires At(m, Polled, q, z, None)
    ensures var acts := [TestShutdown] + [CheckEvents([])];
      && Valid(m, acts) && Final(m, acts) == m.(phase := Select) && At(Final(m, acts), Select, q, z, None)
  {
    var m1 := Next(m, TestShutdown);
    Chain(m1, CheckEvents([]), []);
    assert [CheckEvents([])] + [] == [CheckEvents([])];
    Chain(m, TestShutdown, [CheckEvents([])]);
  }

  // ---------------------------------------------------------------- runs

  /** A run from the start of the program that leads to `m`. */
  ghost predicate LeadsTo(acts: seq<Action>, m: Machine) {
    Valid(Initial(), acts) && Final(Initial(), acts) == m && MachineInv(m)
  }

  lemma Go(acts: seq<Action>, m: Machine, a: Action) returns (r: seq<Action>)
    requires LeadsTo(acts, m) && Enabled(m, a)
    ensures LeadsTo(r, Next(m, a)) && r == acts + [a]
  {
    ExtendRun(Initial(), acts, a);
    NextInv(m, a);
    r := acts + [a];
  }

  lemma GoOn(acts: seq<Action>, m: Machine, q: seq<TaskId>, z: seq<TaskId>) returns (r: seq<Action>)
    requires LeadsTo(acts, m) && At(m, Polled, q, z, None)
    ensures LeadsTo(r, m.(phase := Select)) && r == acts + [TestShutdown, CheckEvents([])]
  {
    GoesOn(m, q, z);
    JoinRuns(Initial(), acts, [TestShutdown] + [CheckEvents([])]);
    r := acts + ([TestShutdown] + [CheckEvents([])]);
    Reachable(r);
  }

  lemma Begins() returns (m: Machine)
    ensures LeadsTo([], m) && m == Initial() && At(m, Outside, [], [], None)
  {
    m := Initial();
    FreshInv();
  }

  /** The steps above, at the end of such a run; `q1` is the run queue afterwards. */
  lemma ThenSpawn(acts: seq<Action>, m: Machine, q: seq<TaskId>, t: TaskId, q1: seq<TaskId>) returns (r: seq<Action>, m1: Machine)
    requires LeadsTo(acts, m) && At(m, Outside, q, [], None) && t !in m.exec.tasks && t !in q && q1 == q + [t]
    ensures LeadsTo(r, m1) && At(m1, Outside, q1, [], None) && SameFds(m, m1)
    ensures m1.exec.tasks == m.exec.tasks[t := Woke(NewTask(Normal))]
  {
    Spawns(m, q, [], t);
    r := Go(acts, m, Do(DoSpawn(t, Normal)));
    m1 := Next(m, Do(DoSpawn(t, Normal)));
  }

  lemma ThenStart(acts: seq<Action>, m: Machine, q: seq<TaskId>, z: seq<TaskId>) returns (r: seq<Action>, m1: Machine)
    requires LeadsTo(acts, m) && At(m, Outside, q, z, None)
    ensures LeadsTo(r, m1) && At(m1, Select, q, z, None) && m1 == m.(phase := Select)
  {
    r := Go(acts, m, Start);
    m1 := Next(m, Start);
  }

  lemma ThenPoll(acts: seq<Action>, m: Machine, q: seq<TaskId>, z: seq<TaskId>, t: TaskId, q1: seq<TaskId>)
    returns (r: seq<Action>, m1: Machine)
    requires LeadsTo(acts, m) && At(m, Select, q, z, None) && q == [t] + q1 && t in m.exec.tasks
    ensures LeadsTo(r, m1) && At(m1, Polling, q1, z, Some(t)) && SameFds(m, m1) && r == acts + [PollNext]
    ensures m1.exec.tasks == m.exec.tasks[t := Begun(m.exec.tasks[t])]
  {
    assert q[1..] == q1;
    Polls(m, q, z);
    r := Go(acts, m, PollNext);
    m1 := Next(m, PollNext);
  }

  lemma ThenYield(acts: seq<Action>, m: Machine, q: seq<TaskId>, z: seq<TaskId>, t: TaskId, q1: seq<TaskId>)
    returns (r: seq<Action>, m1: Machine)
    requires LeadsTo(acts, m) && At(m, Polling, q, z, Some(t)) && t in m.exec.tasks && !m.exec.tasks[t].completed
    requires t !in q && t !in z && q1 == q + [t]
    ensures LeadsTo(r, m1) && At(m1, Polling, q1, z, Some(t)) && SameFds(m, m1)
    ensures m1.exec.tasks == m.exec.tasks[t := Woke(m.exec.tasks[t])]
  {
    Yields(m, q, z, t);
    r := Go(acts, m, Do(DoWake(t, [])));
    m1 := Next(m, Do(DoWake(t, [])));
  }

  /** The polled task, which has yielded, returns Pending, and the next one is chosen. */
  lemma ThenPend(acts: seq<Action>, m: Machine, q: seq<TaskId>, z: seq<TaskId>, t: TaskId) returns (r: seq<Action>, m1: Machine)
    requires LeadsTo(acts, m) && At(m, Polling, q, z, Some(t)) && t in m.exec.tasks && t in q
    ensures LeadsTo(r, m1) && At(m1, Select, q, z, None) && SameFds(m, m1)
    ensures r == acts + [Pend] + [TestShutdown, CheckEvents([])]
    ensures m1.exec.tasks == m.exec.tasks[t := m.exec.tasks[t].(strong := Less(m.exec.tasks[t].strong))]
  {
    EndsLinked(m, q, z, t);
    r := Go(acts, m, Pend);
    m1 := Next(m, Pend);
    r := GoOn(r, m1, q, z);
    m1 := m1.(phase := Select);
  }

  lemma ThenReturn(acts: seq<Action>, m: Machine, q: seq<TaskId>, z: seq<TaskId>, t: TaskId, v: int)
    returns (r: seq<Action>, m1: Machine)
    requires LeadsTo(acts, m) && At(m, Polling, q, z, Some(t)) && t in m.exec.tasks && m.exec.tasks[t].handleWaker == Noop && t !in z
    ensures LeadsTo(r, m1) && At(m1, Select, q, z, None) && SameFds(m, m1)
    ensures m1.exec.tasks == m.exec.tasks[t := Returned(m.exec.tasks[t], v, t in q)]
  {
    Returns(m, q, z, t, v);
    r := Go(acts, m, Ready(v, []));
    m1 := Next(m, Ready(v, []));
    r := GoOn(r, m1, q, z);
    m1 := m1.(phase := Select);
  }

  // ---------------------------------------------------------------- completion

  /** One task, polled for the first time. */
  lemma OneTask() returns (acts: seq<Action>, m: Machine)
    ensures LeadsTo(acts, m) && At(m, Polling, [], [], Some(0)) && m.exec.fds == map[] && m.exec.buffer == 1
    ensures 0 in m.exec.tasks && m.exec.tasks[0] == Begun(Woke(NewTask(Normal)))
  {
    m := Begins();
    acts, m := ThenSpawn([], m, [], 0, [0]);
    acts, m := ThenStart(acts, m, [0], []);
    acts, m := ThenPoll(acts, m, [0], [], 0, []);
  }

  /** "A completed task is not polled again" fails: a task wakes itself and returns Ready. */
  lemma PolledAfterCompletion() returns (acts: seq<Action>, m: Machine)
    ensures LeadsTo(acts, m) && At(m, Polling, [], [], Some(0)) && 0 in m.exec.tasks && m.exec.tasks[0].completed
  {
    acts, m := OneTask();
    acts, m := ThenYield(acts, m, [], [], 0, [0]);
    acts, m := ThenReturn(acts, m, [0], [], 0, 1);
    acts, m := ThenPoll(acts, m, [0], [], 0, []);
  }

  /** And if it then returns Pending, it sleeps for good (`StrandedForever`). */
  lemma SleepsAfterCompletion() returns (acts: seq<Action>, m: Machine)
    ensures LeadsTo(acts, m) && Stranded(m.exec, 0)
  {
    acts, m := PolledAfterCompletion();
    EndsAsleep(m, [], [], 0);
    acts := Go(acts, m, Pend);
    StrandedIff(m, 0);
    m := Next(m, Pend);
  }

  /** Two tasks, the first of which is being polled and the other queued. */
  lemma TwoTasks() returns (acts: seq<Action>, m: Machine)
    ensures LeadsTo(acts, m) && At(m, Polling, [1], [], Some(0)) && m.exec.fds == map[] && m.exec.buffer == 1
    ensures 0 in m.exec.tasks && m.exec.tasks[0] == Begun(Woke(NewTask(Normal)))
    ensures 1 in m.exec.tasks && m.exec.tasks[1] == Woke(NewTask(Normal))
  {
    acts, m := TwoSpawned();
    acts, m := ThenStart(acts, m, [0, 1], []);
    acts, m := ThenPoll(acts, m, [0, 1], [], 0, [1]);
  }

  lemma TwoSpawned() returns (acts: seq<Action>, m: Machine)
    ensures LeadsTo(acts, m) && At(m, Outside, [0, 1], [], None) && m.exec.fds == map[] && m.exec.buffer == 1
    ensures 0 in m.exec.tasks && m.exec.tasks[0] == Woke(NewTask(Normal))
    ensures 1 in m.exec.tasks && m.exec.tasks[1] == Woke(NewTask(Normal))
  {
    m := Begins();
    acts, m := ThenSpawn([], m, [], 0, [0]);
    acts, m := ThenSpawn(acts, m, [0], 1, [0, 1]);
  }

  /** Another task polls the handle of a completed one, and yields. */
  lemma ThenTake(acts: seq<Action>, m: Machine, q: seq<TaskId>, v: int) returns (r: seq<Action>, m1: Machine)
    requires LeadsTo(acts, m) && At(m, Polling, q, [], Some(1)) && 0 in m.exec.tasks && 1 in m.exec.tasks
    requires m.exec.tasks[0].handle && m.exec.tasks[0].output == Some(v)
    ensures LeadsTo(r, m1) && At(m1, Polling, q, [], Some(1)) && SameFds(m, m1)
    ensures var x := m.exec.tasks[0];
      m1.exec.tasks == m.exec.tasks[0 := x.(output := None, past := x.past.(taken := x.past.taken + [v]))]
  {
    TakesOffer(m, q, v);
    r := Go(acts, m, Do(DoPollHandle(0, Noop)));
    m1 := Next(m, Do(DoPollHandle(0, Noop)));
  }

  lemma TakesOffer(m: Machine, q: seq<TaskId>, v: int)
    requires At(m, Polling, q, [], Some(1)) && 0 in m.exec.tasks && m.exec.tasks[0].handle && m.exec.tasks[0].output == Some(v)
    ensures var a := Do(DoPollHandle(0, Noop)); var x := m.exec.tasks[0];
      && Enabled(m, a) && At(Next(m, a), Polling, q, [], Some(1)) && SameFds(m, Next(m, a))
      && Next(m, a).exec.tasks == m.exec.tasks[0 := x.(output := None, past := x.past.(taken := x.past.taken + [v]))]
  {
  }

  /** Task 0 has given out and has on offer what is said; tasks 0 and 1 are as they were otherwise. */
  ghost predicate Gave(m: Machine, taken: seq<int>, offer: Option<int>) {
    && 0 in m.exec.tasks && 1 in m.exec.tasks && !m.exec.tasks[1].completed
    && m.exec.tasks[0].handle && m.exec.tasks[0].handleWaker == Noop
    && m.exec.tasks[0].past.taken == taken && m.exec.tasks[0].output == offer
  }

  lemma FirstValueTaken() returns (acts: seq<Action>, m: Machine)
    ensures LeadsTo(acts, m) && At(m, Polling, [0], [], Some(1)) && Gave(m, [1], None)
  {
    acts, m := TwoTasks();
    acts, m := ThenYield(acts, m, [1], [], 0, [1, 0]);
    acts, m := ThenReturn(acts, m, [1, 0], [], 0, 1);
    acts, m := ThenPoll(acts, m, [1, 0], [], 1, [0]);
    acts, m := ThenTake(acts, m, [0], 1);
  }

  lemma SecondValueOffered() returns (acts: seq<Action>, m: Machine)
    ensures LeadsTo(acts, m) && At(m, Select, [1], [], None) && Gave(m, [1], Some(2))
  {
    acts, m := FirstValueTaken();
    acts, m := ThenYield(acts, m, [0], [], 1, [0, 1]);
    acts, m := ThenPend(acts, m, [0, 1], [], 1);
    acts, m := ThenPoll(acts, m, [0, 1], [], 0, [1]);
    acts, m := ThenReturn(acts, m, [1], [], 0, 2);
  }

  /** "A handle gives out one value" fails: another task takes both. */
  lemma TwoValuesTaken() returns (acts: seq<Action>, m: Machine)
    ensures LeadsTo(acts, m) && Gave(m, [1, 2], None)
  {
    acts, m := SecondValueOffered();
    acts, m := ThenPoll(acts, m, [1], [], 1, []);
    acts, m := ThenTake(acts, m, [], 2);
  }

  // ---------------------------------------------------------------- order

  /**
   * "Every task that is runnable when a task yields is polled before it is again" fails
   * for a task that is woken again: task 0 yields behind task 1, wakes it, and is polled
   * again first.
   */
  lemma YielderGoesFirst() returns (acts: seq<Action>, m: Machine, more: seq<Action>, r: Machine)
    ensures LeadsTo(acts, m) && At(m, Polling, [1, 0], [], Some(0))
    ensures more == [Do(DoWake(1, []))] + [Pend] + [TestShutdown, CheckEvents([])] + [PollNext]
    ensures LeadsTo(acts + more, r) && At(r, Polling, [1], [], Some(0))
  {
    acts, m := TwoTasks();
    acts, m := ThenYield(acts, m, [1], [], 0, [1, 0]);
    more := [Do(DoWake(1, []))] + [Pend] + [TestShutdown, CheckEvents([])] + [PollNext];
    r := PolledAgainFirst(acts, m);
    Regroup(acts, [Do(DoWake(1, []))], [Pend], [TestShutdown, CheckEvents([])], [PollNext]);
  }

  lemma Regroup(a: seq<Action>, b: seq<Action>, c: seq<Action>, d: seq<Action>, e: seq<Action>)
    ensures a + b + c + d + e == a + (b + c + d + e)
  {
  }

  lemma PolledAgainFirst(acts: seq<Action>, m: Machine) returns (r: Machine)
    requires LeadsTo(acts, m) && At(m, Polling, [1, 0], [], Some(0))
    requires Upgradable(m.exec, 1) && !m.exec.tasks[1].completed && 0 in m.exec.tasks
    ensures LeadsTo(acts + [Do(DoWake(1, []))] + [Pend] + [TestShutdown, CheckEvents([])] + [PollNext], r)
    ensures At(r, Polling, [1], [], Some(0))
  {
    var run;
    run, r := ThenWakeOther(acts, m);
    run, r := ThenPend(run, r, [0, 1], [], 0);
    run, r := ThenPoll(run, r, [0, 1], [], 0, [1]);
  }

  lemma ThenWakeOther(acts: seq<Action>, m: Machine) returns (run: seq<Action>, r: Machine)
    requires LeadsTo(acts, m) && At(m, Polling, [1, 0], [], Some(0))
    requires Upgradable(m.exec, 1) && !m.exec.tasks[1].completed && 0 in m.exec.tasks
    ensures run == acts + [Do(DoWake(1, []))] && LeadsTo(run, r)
    ensures At(r, Polling, [0, 1], [], Some(0)) && 0 in r.exec.tasks
  {
    WakesOther(m);
    run := Go(acts, m, Do(DoWake(1, [])));
    r := Next(m, Do(DoWake(1, [])));
  }

  lemma WakesOther(m: Machine)
    requires At(m, Polling, [1, 0], [], Some(0)) && Upgradable(m.exec, 1) && !m.exec.tasks[1].completed && 0 in m.exec.tasks
    ensures var a := Do(DoWake(1, []));
      Enabled(m, a) && At(Next(m, a), Polling, [0, 1], [], Some(0)) && 0 in Next(m, a).exec.tasks
  {
    RequeueLine([1, 0], [], 1);
    assert [1, 0][1..] == [0] && [0][1..] == [];
    assert Without([0], 1) == [0] && Without([1, 0], 1) == [0];
    assert [0] + [1] == [0, 1];
  }

  // ---------------------------------------------------------------- aborts

  /** Task 0 is polled, and `f` is the only fd. */
  ghost predicate Watching(m: Machine, q: seq<TaskId>, f: Fd) {
    && At(m, Polling, q, [], Some(0)) && m.exec.fds == map[0 := f] && m.exec.buffer == 2
    && 0 in m.exec.tasks && !m.exec.tasks[0].completed && m.exec.tasks[0].handle
  }

  function InFd(w: Waker, cache: set<Flag>, ready: set<Flag>, edge: bool): Fd { Fd({In}, cache, 0, w, ready, edge) }

  lemma Registers(m: Machine)
    requires At(m, Polling, [], [], Some(0)) && m.exec.fds == map[] && m.exec.buffer == 1
    requires 0 in m.exec.tasks && !m.exec.tasks[0].completed && m.exec.tasks[0].handle
    ensures var a := Do(DoNewFd(0, {In}, {}, true));
      Enabled(m, a) && Watching(Next(m, a), [], InFd(Noop, {In}, {}, false))
  {
    assert {In} * {In, Out} == {In};
  }

  lemma FindsNothing(m: Machine)
    requires Watching(m, [], InFd(Noop, {In}, {}, false))
    ensures var a := Do(DoPollFd(0, In, TaskWaker(0), WouldBlock, []));
      && Enabled(m, a) && Watching(Next(m, a), [], InFd(TaskWaker(0), {}, {}, false))
      && 0 in Next(m, a).exec.tasks[0].past.pendingOn
  {
    var f, g := InFd(Noop, {In}, {}, false), InFd(TaskWaker(0), {}, {}, false);
    assert In in f.cache && In in f.interest * {In, Out};
    assert PolledFd(f, TaskWaker(0), WouldBlock) == g;
    assert m.exec.fds[0 := g] == map[0 := g];
  }

  lemma DataArrives(m: Machine)
    requires Watching(m, [], InFd(TaskWaker(0), {}, {}, false))
    ensures var a := Do(Arrive(0, {In}));
      && Enabled(m, a) && Watching(Next(m, a), [], InFd(TaskWaker(0), {}, {In}, true))
      && Next(m, a).exec.tasks == m.exec.tasks
  {
    var f := InFd(TaskWaker(0), {}, {In}, true);
    assert {} + {In} == {In};
    assert m.exec.fds[0 := f] == map[0 := f];
  }

  /** The task wakes itself; the event check finds the event, which links the task. */
  lemma EventLinks(m: Machine)
    requires MachineInv(m) && Watching(m, [], InFd(TaskWaker(0), {}, {In}, true))
    ensures var a := Do(DoWake(0, [FdReport(0, {In})]));
      && Enabled(m, a) && Watching(Next(m, a), [0], InFd(TaskWaker(0), {In}, {In}, false))
      && Next(m, a).exec.tasks[0].past.pendingOn == m.exec.tasks[0].past.pendingOn
  {
    PolledAlive(m.exec, 0);
    OneReport(m.exec);
    EventThenWake(m.exec);
  }

  lemma PolledAlive(s: Exec, t: TaskId)
    requires Inv(s) && s.running == Some(t)
    ensures Upgradable(s, t)
  {
    InvTask(s, t);
  }

  lemma OneReport(s: Exec)
    requires s.fds == map[0 := InFd(TaskWaker(0), {}, {In}, true)] && s.buffer == 2
    ensures var rs := [FdReport(0, {In})]; ReportsOk(s, rs) && EpollWait(s, rs) == DeliverFd(s, 0, {In})
  {
    var rs := [FdReport(0, {In})];
    assert ReportOk(s, rs[0]);
    ProcessKeepsReports(s, rs);
    assert rs[1..] == [];
  }

  /** The event enqueues the task, and then the wake enqueues it once more. */
  lemma EventThenWake(s: Exec)
    requires s.queues == Line([], []) && Upgradable(s, 0) && !s.tasks[0].completed && s.tasks[0].priority == Normal
    requires s.fds == map[0 := InFd(TaskWaker(0), {}, {In}, true)]
    ensures var r := WakeNow(DeliverFd(s, 0, {In}), 0);
      && r.queues == Line([0], []) && r.fds == map[0 := InFd(TaskWaker(0), {In}, {In}, false)]
      && r == s.(queues := r.queues, tasks := r.tasks, fds := r.fds, hist := r.hist)
      && 0 in r.tasks && r.tasks == s.tasks[0 := r.tasks[0]]
      && r.tasks[0] == s.tasks[0].(strong := r.tasks[0].strong, past := s.tasks[0].past.(owed := true))
  {
    var f := InFd(TaskWaker(0), {In}, {In}, false);
    assert {} + {In} == {In} && In in {In};
    assert s.fds[0 := f] == map[0 := f];
    WakeOnLine(SetFd(s, 0, f), []);
    WakeOnLine(WakeNow(SetFd(s, 0, f), 0), [0]);
    assert DeliverFd(s, 0, {In}) == WakeNow(SetFd(s, 0, f), 0);
  }

  lemma WakeOnLine(s: Exec, q: seq<TaskId>)
    requires q == [] || q == [0]
    requires s.queues == Line(q, []) && Upgradable(s, 0) && !s.tasks[0].completed && s.tasks[0].priority == Normal
    ensures var r := WakeNow(s, 0);
      && r.queues == Line([0], []) && r == s.(queues := r.queues, tasks := r.tasks, hist := r.hist)
      && 0 in r.tasks && r.tasks == s.tasks[0 := r.tasks[0]] && r.tasks[0].strong > 0
      && r.tasks[0] == s.tasks[0].(strong := r.tasks[0].strong, past := s.tasks[0].past.(owed := true))
  {
    RequeueLine(q, [], 0);
    assert [0][1..] == [] && Without([0], 0) == [] && Without([], 0) == [];
    assert [] + [0] == [0];
  }

  lemma AbortsItself(m: Machine)
    requires Watching(m, [0], InFd(TaskWaker(0), {In}, {In}, false)) && 0 in m.exec.tasks[0].past.pendingOn
    ensures var a := Do(DoAbort(0));
      && Enabled(m, a) && Watching(Next(m, a), [], InFd(TaskWaker(0), {In}, {In}, false))
      && 0 in Next(m, a).exec.tasks[0].past.pendingOn
  {
    RequeueLine([0], [], 0);
    assert [0][1..] == [] && Without([0], 0) == [];
  }

  /** The run: a task that waits for an fd is woken by its event, aborts itself, and sleeps. */
  lemma ArmedPoll() returns (acts: seq<Action>, m: Machine)
    ensures LeadsTo(acts, m) && Watching(m, [], InFd(TaskWaker(0), {}, {In}, true))
    ensures 0 in m.exec.tasks[0].past.pendingOn
  {
    acts, m := OneTask();
    Registers(m);
    acts := Go(acts, m, Do(DoNewFd(0, {In}, {}, true)));
    m := Next(m, Do(DoNewFd(0, {In}, {}, true)));
    FindsNothing(m);
    acts := Go(acts, m, Do(DoPollFd(0, In, TaskWaker(0), WouldBlock, [])));
    m := Next(m, Do(DoPollFd(0, In, TaskWaker(0), WouldBlock, [])));
    DataArrives(m);
    acts := Go(acts, m, Do(Arrive(0, {In})));
    m := Next(m, Do(Arrive(0, {In})));
  }

  lemma SelfAbort() returns (acts: seq<Action>, m: Machine)
    ensures LeadsTo(acts, m) && Watching(m, [], InFd(TaskWaker(0), {In}, {In}, false))
    ensures 0 in m.exec.tasks[0].past.pendingOn
  {
    acts, m := ArmedPoll();
    EventLinks(m);
    acts := Go(acts, m, Do(DoWake(0, [FdReport(0, {In})])));
    m := Next(m, Do(DoWake(0, [FdReport(0, {In})])));
    AbortsItself(m);
    acts := Go(acts, m, Do(DoAbort(0)));
    m := Next(m, Do(DoAbort(0)));
  }

  /** `run` blocks, and the task sleeps, waiting for an fd that is ready (`SelfAbortDeafens`). */
  lemma SelfAbortLoses() returns (acts: seq<Action>, m: Machine)
    ensures LeadsTo(acts, m) && Blocked(m) && 0 in m.exec.queues[SLEEP]
    ensures Awaits(m.exec, 0, 0) && !m.exec.tasks[0].completed && SingleDirection(m.exec.fds[0])
    ensures m.exec.fds[0].ready == {In}
  {
    acts, m := SelfAbort();
    EndsAsleep(m, [], [], 0);
    acts := Go(acts, m, Pend);
    m := Next(m, Pend);
    assert [] + [0] == [0];
    acts := GoOn(acts, m, [], [0]);
    m := m.(phase := Select);
    acts := Go(acts, m, NoTask);
    m := Next(m, NoTask);
    acts := Go(acts, m, TestSleep);
    m := Next(m, TestSleep);
  }

  // ---------------------------------------------------------------- replacement

  /** Task 0 owns the handle of task 1, which owns the fd. */
  function Family(): D.Ownership { D.Ownership(map[0 := 1], map[1 := 0]) }

  /** The handle of task 0 is gone, that of task 1 is not, and the fd is registered. */
  ghost predicate InFamily(m: Machine) {
    && 0 in m.exec.fds && 0 in m.exec.tasks && 1 in m.exec.tasks
    && !m.exec.tasks[0].handle && m.exec.tasks[1].handle
  }

  lemma FdAndHandle(m: Machine)
    requires At(m, Outside, [0, 1], [], None) && 0 in m.exec.tasks && 1 in m.exec.tasks
    requires m.exec.tasks[0].handle && m.exec.tasks[1].handle && m.exec.fds == map[]
    ensures var a, b := Do(DoNewFd(0, {In}, {}, true)), Do(DoDropHandle(0));
      && Enabled(m, a) && Enabled(Next(m, a), b)
      && var r := Next(Next(m, a), b); At(r, Outside, [0, 1], [], None) && InFamily(r)
  {
  }

  /** The program registers the fd, and drops the handle of task 0. */
  lemma ParentAndChild() returns (acts: seq<Action>, m: Machine)
    ensures LeadsTo(acts, m) && At(m, Outside, [0, 1], [], None) && InFamily(m)
  {
    acts, m := TwoSpawned();
    FdAndHandle(m);
    acts := Go(acts, m, Do(DoNewFd(0, {In}, {}, true)));
    m := Next(m, Do(DoNewFd(0, {In}, {}, true)));
    acts := Go(acts, m, Do(DoDropHandle(0)));
    m := Next(m, Do(DoDropHandle(0)));
  }

  lemma ParentSleeps() returns (acts: seq<Action>, m: Machine)
    ensures LeadsTo(acts, m) && At(m, Polled, [1], [0], None) && InFamily(m)
  {
    acts, m := ParentAndChild();
    acts, m := ThenStart(acts, m, [0, 1], []);
    acts, m := ThenPoll(acts, m, [0, 1], [], 0, [1]);
    EndsAsleep(m, [1], [], 0);
    assert [] + [0] == [0];
    acts := Go(acts, m, Pend);
    m := Next(m, Pend);
  }

  /** Task 0 sleeps, and a shutdown is asked for; the executor is about to be replaced. */
  lemma ParentShutsDown() returns (acts: seq<Action>, m: Machine)
    ensures LeadsTo(acts, m) && m.phase.Retiring? && InFamily(m) && m.exec.queues == Line([1], [0])
  {
    acts, m := ParentSleeps();
    acts := Go(acts, m, Do(DoShutdown));
    m := Next(m, Do(DoShutdown));
    acts := Go(acts, m, TestShutdown);
    m := Next(m, TestShutdown);
  }

  /** However the old executor is destroyed, the new one is deaf: the child's fd goes with its parent. */
  lemma ChildDeafens() returns (acts: seq<Action>, m: Machine)
    ensures LeadsTo(acts, m) && m.phase.Retiring? && 1 in m.exec.tasks && m.exec.tasks[1].handle
    ensures forall ds :: D.ValidDrops(m.exec, Family(), D.Whole(m.exec), ds)
                         && D.Done(m.exec, Family(), D.AfterAll(D.Whole(m.exec), ds)) ==>
              Valid(m, [Replace] + D.Calls(ds)) && Final(m, [Replace] + D.Calls(ds)).exec.buffer == 0
  {
    acts, m := ParentShutsDown();
    LinkedIsAlive(m.exec, 0);
    LinkedIsAlive(m.exec, 1);
    assert D.Leads(m.exec, Family(), 0, 0);
    assert D.Leads(m.exec, Family(), 1, 1);
    forall ds | D.ValidDrops(m.exec, Family(), D.Whole(m.exec), ds)
                && D.Done(m.exec, Family(), D.AfterAll(D.Whole(m.exec), ds))
      ensures Valid(m, [Replace] + D.Calls(ds)) && Final(m, [Replace] + D.Calls(ds)).exec.buffer == 0
    {
      D.ReplacementBuffer(m, Family(), ds);
    }
  }

  lemma LinkedIsAlive(s: Exec, t: TaskId)
    requires Inv(s) && t in s.tasks && IsQueued(s, t)
    ensures Upgradable(s, t)
  {
    InvTask(s, t);
  }

  // ---------------------------------------------------------------- block_on

  /** A future that wakes itself and returns Pending blocks `block_on` (`SelfWakeCanBlock`). */
  lemma SelfWakeBlocks()
    ensures B.BlocksNow(B.Begin(Fresh()), [B.WakeInPoll] + [B.FuturePending])
  {
    var l0 := B.Begin(Fresh());
    B.ExtendLoop(l0, [], B.WakeInPoll);
    assert [] + [B.WakeInPoll] == [B.WakeInPoll];
    B.ExtendLoop(l0, [B.WakeInPoll], B.FuturePending);
    B.BlocksNowIff(l0, [B.WakeInPoll] + [B.FuturePending]);
  }

  /** The executor with one fd, whose data never ends. */
  function Endless(burst: nat, edge: bool): Exec {
    Fresh().(fds := map[0 := Fd({In}, {In}, burst, Noop, {In}, edge)], buffer := 2)
  }

  function Reading(): B.Action { B.Do(DoPollFd(0, In, OtherWaker, Done({In}), [])) }

  ghost predicate LoopsTo(acts: seq<B.Action>, l: B.Loop) {
    B.Valid(B.Begin(Fresh()), acts) && B.Final(B.Begin(Fresh()), acts) == l
  }

  lemma GoInLoop(acts: seq<B.Action>, l: B.Loop, a: B.Action) returns (r: seq<B.Action>)
    requires LoopsTo(acts, l) && B.Enabled(l, a)
    ensures LoopsTo(r, B.Next(l, a)) && r == acts + [a]
  {
    B.ExtendLoop(B.Begin(Fresh()), acts, a);
    r := acts + [a];
  }

  /** The fd is registered, and a wait uses up its edge, which tells nothing new. */
  lemma EdgeUsedUp() returns (acts: seq<B.Action>)
    ensures LoopsTo(acts, B.Begin(Endless(0, false)))
  {
    var l := B.Begin(Fresh());
    assert {In} * {In, Out} == {In} && {In} <= {In} + {Hup};
    acts := GoInLoop([], l, B.Do(DoNewFd(0, {In}, {In}, true)));
    l := B.Begin(Endless(0, true));
    acts := GoInLoop(acts, l, B.FuturePending);
    acts := GoInLoop(acts, l.(phase := B.Choose), B.NoTask);
    var rs := [FdReport(0, {In})];
    assert ReportOk(l.exec, rs[0]);
    ProcessKeepsReports(l.exec, rs);
    assert l.exec.fds[0 := Fd({In}, {In}, 0, Noop, {In}, false)] == Endless(0, false).fds;
    assert rs[1..] == [];
    acts := GoInLoop(acts, l.(phase := B.Waiting), B.Wait(rs));
  }

  /** It is read `n` times in one poll of the future. */
  lemma {:induction false} ReadTimes(n: nat) returns (acts: seq<B.Action>)
    requires n <= BURST_LIMIT
    ensures LoopsTo(acts, B.Begin(Endless(n, false)))
  {
    if n == 0 {
      acts := EdgeUsedUp();
    } else {
      acts := ReadTimes(n - 1);
      ReadOnce(n - 1);
      acts := GoInLoop(acts, B.Begin(Endless(n - 1, false)), Reading());
    }
  }

  lemma ReadOnce(n: nat)
    requires n < BURST_LIMIT
    ensures var l := B.Begin(Endless(n, false));
      B.Enabled(l, Reading()) && B.Next(l, Reading()) == B.Begin(Endless(n + 1, false))
  {
    assert In in {In} && In in {In} * {In, Out};
    assert Endless(n, false).fds[0 := Fd({In}, {In}, n + 1, Noop, {In}, false)] == Endless(n + 1, false).fds;
  }

  /**
   * A future that reads an fd whose data never ends: after twenty results it reads as
   * Pending, and `block_on` blocks with the fd ready (`BlocksOnReadyIff`).
   */
  lemma BurstBlocks() returns (acts: seq<B.Action>, l: B.Loop)
    ensures LoopsTo(acts, l) && B.BlocksNow(B.Begin(Fresh()), acts)
    ensures 0 in l.tired && l.self && 0 in l.exec.fds && SingleDirection(l.exec.fds[0]) && l.exec.fds[0].ready == {In}
  {
    acts := ReadTimes(BURST_LIMIT);
    l := B.Begin(Endless(BURST_LIMIT, false));
    ReadOneTooMany();
    acts := GoInLoop(acts, l, Reading());
    l := B.Next(l, Reading());
    acts := GoInLoop(acts, l, B.FuturePending);
    l := B.Next(l, B.FuturePending);
    B.BlocksNowIff(B.Begin(Fresh()), acts);
  }

  lemma ReadOneTooMany()
    ensures var l := B.Begin(Endless(BURST_LIMIT, false)); var r := B.Next(l, Reading());
      B.Enabled(l, Reading()) && r == l.(exec := Endless(0, false), self := true, tired := {0})
  {
    assert In in {In} && In in {In} * {In, Out};
    assert Endless(BURST_LIMIT, false).fds[0 := Fd({In}, {In}, 0, Noop, {In}, false)] == Endless(0, false).fds;
  }
}
