/**
 * `run` over tasks that only yield: each task's future yields a given number of
 * times and then returns Ready.  The loop then terminates with every task
 * completed, and it never looks at the sleep queue in vain or waits.
 */
module YieldTermination {
  import opened Types
  import opened ExecState
  import opened ExecInv
  import opened RunLoop

  /** Polls still to come per task: yields left, and one for the Ready. */
  type Script = seq<nat>

  ghost function Sum(left: Script): nat {
    if left == [] then 0 else left[0] + Sum(left[1..])
  }

  lemma {:induction false} SumUpdate(left: Script, t: nat, n: nat)
    requires t < |left|
    ensures Sum(left[t := n]) == Sum(left) - left[t] + n
  {
    if t == 0 {
      assert left[0 := n][1..] == left[1..];
    } else {
      SumUpdate(left[1..], t - 1, n);
      assert left[t := n][1..] == left[1..][t - 1 := n];
    }
  }

  /** No fd is registered, no other thread writes, nobody aborts, awaits a handle, or asks for a shutdown. */
  ghost predicate Plain(x: Task, left: nat) {
    && x.handleWaker == Noop && !x.past.aborted && !x.past.late
    && (x.completed <==> left == 0)
  }

  ghost predicate YieldInv(m: Machine, left: Script) {
    && MachineInv(m)
    && (m.phase.Select? || m.phase.Polling? || m.phase.Polled? || m.phase.Check? || m.phase.Idle? || m.phase.Retiring?)
    && m.exec.fds == map[] && m.exec.pipe == [] && !m.exec.shutdown && m.exec.queues[SLEEP] == []
    && (forall t :: t in m.exec.tasks ==> t < |left| && Plain(m.exec.tasks[t], left[t]))
    && (m.phase.Polling? ==> (IsQueued(m.exec, m.exec.running.value) ==> left[m.exec.running.value] > 1)
                             && left[m.exec.running.value] > 0)
  }

  /** A poll of a yielding future: it wakes itself once, if it has a yield left, and is done otherwise. */
  ghost predicate Follows(m: Machine, left: Script, a: Action) {
    && Enabled(m, a)
    && match a
       case Do(e) =>
         && m.phase.Polling? && Busy(m.exec) && e.DoWake? && e.t == m.exec.running.value && e.t < |left|
         && left[e.t] > 1 && !IsQueued(m.exec, e.t)
       case Pend => m.exec.running.value < |left| && left[m.exec.running.value] > 1 && IsQueued(m.exec, m.exec.running.value)
       case Ready(v, reports) => m.exec.running.value < |left| && left[m.exec.running.value] == 1
       case PollNext => true
       case NoTask => true
       case TestShutdown => true
       case CheckEvents(reports) => true
       case TestSleep => true
       case _ => false
  }

  ghost function NextLeft(m: Machine, left: Script, a: Action): Script
    requires Follows(m, left, a)
  {
    match a
    case Pend => left[m.exec.running.value := left[m.exec.running.value] - 1]
    case Ready(v, reports) => left[m.exec.running.value := 0]
    case _ => left
  }

  /** What is left to do: six per poll, and where the loop is within one. */
  ghost function Measure(m: Machine, left: Script): int {
    6 * Sum(left) + match m.phase
      case Polled => 5
      case Check => 4
      case Select => 2
      case Polling => if m.exec.running.Some? && IsQueued(m.exec, m.exec.running.value) then 0 else 1
      case Idle => 1
      case _ => 0
  }

  lemma NoReports(s: Exec, reports: seq<Report>)
    requires s.fds == map[] && s.pipe == [] && ReportsOk(s, reports)
    ensures reports == []
  {
    assert reports == [] || ReportOk(s, reports[0]);
  }

  // ---------------------------------------------------------------- each step keeps the invariant

  lemma SelfWakeStep(m: Machine, left: Script, t: TaskId, reports: seq<Report>)
    requires YieldInv(m, left) && Follows(m, left, Do(DoWake(t, reports)))
    ensures var s := Next(m, Do(DoWake(t, reports))).exec;
      && s.fds == map[] && s.pipe == [] && !s.shutdown && s.queues[SLEEP] == [] && s.running == m.exec.running
      && IsQueued(s, t)
      && (forall u :: u in s.tasks ==> u < |left| && Plain(s.tasks[u], left[u]))
  {
    var s := m.exec;
    NoReports(s, reports);
    InvTask(s, t);
    var q := Rank(s.tasks[t].priority);
    var r := WakeNow(s, t);
    assert t in r.queues[q];
    forall u | u in r.tasks ensures u < |left| && Plain(r.tasks[u], left[u]) {
      assert u in s.tasks && Plain(s.tasks[u], left[u]);
    }
  }

  lemma PoppedIsPlain(s: Exec, t: TaskId)
    requires Inv(s) && Runnable(s) && s.running == None && t == s.queues[TopQueue(s)][0]
    requires forall u :: u in s.tasks ==> !s.tasks[u].past.late
    ensures t in s.tasks && !s.tasks[t].completed && !IsQueued(PopRun(s), t)
  {
    TopTask(s);
    InvTask(s, t);
    PopRunInv(s);
    InvTask(PopRun(s), t);
  }

  lemma PollStep(m: Machine, left: Script)
    requires YieldInv(m, left) && Follows(m, left, PollNext)
    ensures var s := Next(m, PollNext).exec;
      && s.fds == map[] && s.pipe == [] && !s.shutdown && s.queues[SLEEP] == []
      && s.running.Some? && s.running.value < |left| && left[s.running.value] > 0 && !IsQueued(s, s.running.value)
      && (forall u :: u in s.tasks ==> u < |left| && Plain(s.tasks[u], left[u]))
  {
    var s := m.exec;
    var t := s.queues[TopQueue(s)][0];
    var r := PopRun(s);
    TopTask(s);
    PoppedIsPlain(s, t);
    assert Plain(s.tasks[t], left[t]);
    PopKeepsPlain(s, left);
  }

  lemma PopKeepsPlain(s: Exec, left: Script)
    requires Runnable(s) && (forall u :: u in s.tasks ==> u < |left| && Plain(s.tasks[u], left[u]))
    ensures forall u :: u in PopRun(s).tasks ==> u < |left| && Plain(PopRun(s).tasks[u], left[u])
  {
    forall u | u in PopRun(s).tasks ensures u < |left| && Plain(PopRun(s).tasks[u], left[u]) {
      assert u in s.tasks && Plain(s.tasks[u], left[u]);
    }
  }

  lemma PendStep(m: Machine, left: Script)
    requires YieldInv(m, left) && Follows(m, left, Pend)
    ensures var s := Next(m, Pend).exec; var l := NextLeft(m, left, Pend);
      && s.fds == map[] && s.pipe == [] && !s.shutdown && s.queues[SLEEP] == []
      && (forall u :: u in s.tasks ==> u < |l| && Plain(s.tasks[u], l[u]))
  {
    var s := m.exec;
    var l := NextLeft(m, left, Pend);
    var r := FinishPending(s);
    forall u | u in r.tasks ensures u < |l| && Plain(r.tasks[u], l[u]) {
      assert u in s.tasks && Plain(s.tasks[u], left[u]);
    }
  }

  lemma ReadyStep(m: Machine, left: Script, v: int, reports: seq<Report>)
    requires YieldInv(m, left) && Follows(m, left, Ready(v, reports))
    ensures var s := Next(m, Ready(v, reports)).exec; var l := NextLeft(m, left, Ready(v, reports));
      && s.fds == map[] && s.pipe == [] && !s.shutdown && s.queues[SLEEP] == []
      && (forall u :: u in s.tasks ==> u < |l| && Plain(s.tasks[u], l[u]))
  {
    var s := m.exec;
    var t := s.running.value;
    var l := NextLeft(m, left, Ready(v, reports));
    assert Plain(s.tasks[t], left[t]);
    var r := FinishReady(s, v, reports);
    assert r == MarkCompleted(StoreOutput(s, v, reports));
    forall u | u in r.tasks ensures u < |l| && Plain(r.tasks[u], l[u]) {
      assert u in s.tasks && Plain(s.tasks[u], left[u]);
    }
  }

  /** Every step of such a run keeps the invariant. */
  lemma YieldStep(m: Machine, left: Script, a: Action)
    requires YieldInv(m, left) && Follows(m, left, a)
    ensures YieldInv(Next(m, a), NextLeft(m, left, a))
  {
    NextInv(m, a);
    match a {
      case Do(e) => SelfWakeStep(m, left, e.t, e.reports);
      case PollNext => PollStep(m, left);
      case Pend => PendStep(m, left);
      case Ready(v, reports) => ReadyStep(m, left, v, reports);
      case CheckEvents(reports) => NoReports(m.exec, reports);
      case _ =>
    }
  }

  /** And has less left to do. */
  lemma YieldProgress(m: Machine, left: Script, a: Action)
    requires YieldInv(m, left) && Follows(m, left, a)
    ensures 0 <= Measure(Next(m, a), NextLeft(m, left, a)) < Measure(m, left)
  {
    match a {
      case Do(e) => WakeProgress(m, left, e.t, e.reports);
      case Pend => PollEndProgress(m, left, a, left[m.exec.running.value] - 1);
      case Ready(v, reports) => PollEndProgress(m, left, a, 0);
      case _ =>
    }
  }

  lemma PollEndProgress(m: Machine, left: Script, a: Action, n: nat)
    requires m.phase.Polling? && Follows(m, left, a) && !a.Do? && n < left[m.exec.running.value]
    requires NextLeft(m, left, a) == left[m.exec.running.value := n]
    ensures 0 <= Measure(Next(m, a), NextLeft(m, left, a)) < Measure(m, left)
  {
    SumUpdate(left, m.exec.running.value, n);
  }

  lemma WakeProgress(m: Machine, left: Script, t: TaskId, reports: seq<Report>)
    requires YieldInv(m, left) && Follows(m, left, Do(DoWake(t, reports)))
    ensures 0 <= Measure(Next(m, Do(DoWake(t, reports))), left) < Measure(m, left)
  {
    SelfWakeStep(m, left, t, reports);
  }

  /** It is never stuck before it leaves the loop. */
  lemma NeverStuck(m: Machine, left: Script)
    requires YieldInv(m, left) && !m.phase.Retiring?
    ensures exists a :: Follows(m, left, a)
  {
    match m.phase {
      case Select =>
        assert Follows(m, left, if Runnable(m.exec) then PollNext else NoTask);
      case Polling =>
        var t := m.exec.running.value;
        InvTask(m.exec, t);
        if IsQueued(m.exec, t) {
          assert Follows(m, left, Pend);
        } else if left[t] > 1 {
          assert Follows(m, left, Do(DoWake(t, [])));
        } else {
          assert Follows(m, left, Ready(0, []));
        }
      case Polled => assert Follows(m, left, TestShutdown);
      case Check => assert Follows(m, left, CheckEvents([]));
      case Idle => assert Follows(m, left, TestSleep);
    }
  }

  ghost predicate FollowsAll(m: Machine, left: Script, acts: seq<Action>)
    decreases |acts|
  {
    acts == [] || (Follows(m, left, acts[0]) && FollowsAll(Next(m, acts[0]), NextLeft(m, left, acts[0]), acts[1..]))
  }

  ghost function End(m: Machine, left: Script, acts: seq<Action>): (Machine, Script)
    requires FollowsAll(m, left, acts)
    decreases |acts|
  {
    if acts == [] then (m, left) else End(Next(m, acts[0]), NextLeft(m, left, acts[0]), acts[1..])
  }

  /**
   * Termination: a run of yielding tasks has at most six steps per remaining poll
   * (and two more); and wherever it cannot go on, it has left the loop with every
   * task completed.
   */
  lemma {:induction false} YieldersTerminate(m: Machine, left: Script, acts: seq<Action>)
    requires YieldInv(m, left) && FollowsAll(m, left, acts)
    ensures |acts| <= Measure(m, left)
    ensures var (e, l) := End(m, left, acts);
      YieldInv(e, l) && ((forall a :: !Follows(e, l, a)) ==>
        e.phase.Retiring? && forall t :: t in e.exec.tasks ==> e.exec.tasks[t].completed)
    decreases |acts|
  {
    if acts == [] {
      if !m.phase.Retiring? {
        NeverStuck(m, left);
      } else {
        AllCompleted(m, left);
      }
    } else {
      YieldStep(m, left, acts[0]);
      YieldProgress(m, left, acts[0]);
      YieldersTerminate(Next(m, acts[0]), NextLeft(m, left, acts[0]), acts[1..]);
    }
  }

  lemma AllCompleted(m: Machine, left: Script)
    requires YieldInv(m, left) && m.phase.Retiring?
    ensures forall t :: t in m.exec.tasks ==> m.exec.tasks[t].completed
  {
    forall t | t in m.exec.tasks ensures m.exec.tasks[t].completed {
      InvTask(m.exec, t);
      assert Plain(m.exec.tasks[t], left[t]);
    }
  }

  // ---------------------------------------------------------------- where such runs begin

  /** The program: one task per priority listed, then `run`. */
  ghost function Program(ps: seq<Priority>): seq<Action> {
    if ps == [] then [] else Program(ps[..|ps| - 1]) + [Do(DoSpawn(|ps| - 1, ps[|ps| - 1]))]
  }

  ghost predicate Spawned(m: Machine, n: nat) {
    && MachineInv(m) && m.phase.Outside?
    && m.exec.fds == map[] && m.exec.pipe == [] && !m.exec.shutdown && m.exec.queues[SLEEP] == []
    && (forall t: TaskId :: t in m.exec.tasks <==> t < n)
    && (forall t :: t in m.exec.tasks ==> Plain(m.exec.tasks[t], 1))
  }

  lemma {:induction false} SpawnAll(ps: seq<Priority>)
    ensures Valid(Initial(), Program(ps))
    ensures Spawned(Final(Initial(), Program(ps)), |ps|)
  {
    if ps == [] {
      FreshInv();
      assert Initial().exec.queues[SLEEP] == [];
    } else {
      var n := |ps| - 1;
      SpawnAll(ps[..n]);
      var m := Final(Initial(), Program(ps[..n]));
      ExtendRun(Initial(), Program(ps[..n]), Do(DoSpawn(n, ps[n])));
      NextInv(m, Do(DoSpawn(n, ps[n])));
      SpawnPlain(m.exec, n, ps[n]);
    }
  }

  lemma SpawnPlain(s: Exec, n: TaskId, p: Priority)
    requires Inv(s) && n !in s.tasks && s.queues[SLEEP] == []
    requires forall t :: t in s.tasks ==> Plain(s.tasks[t], 1)
    ensures var r := Spawn(s, n, p);
      && r.fds == s.fds && r.pipe == s.pipe && r.shutdown == s.shutdown && r.queues[SLEEP] == []
      && (forall t: TaskId :: t in r.tasks <==> t in s.tasks || t == n)
      && (forall t :: t in r.tasks ==> Plain(r.tasks[t], 1))
  {
    var r := Spawn(s, n, p);
    forall t | t in r.tasks ensures Plain(r.tasks[t], 1) {
      assert t != n ==> Plain(s.tasks[t], 1);
    }
  }

  ghost function Polls(counts: seq<nat>): Script {
    seq(|counts|, i requires 0 <= i < |counts| => counts[i] + 1)
  }

  /** `run` is called: whatever the numbers of yields, this is where a terminating run begins. */
  lemma ProgramYields(ps: seq<Priority>, counts: seq<nat>)
    requires |counts| == |ps|
    ensures Valid(Initial(), Program(ps) + [Start])
    ensures YieldInv(Final(Initial(), Program(ps) + [Start]), Polls(counts))
  {
    SpawnAll(ps);
    ExtendRun(Initial(), Program(ps), Start);
    var m := Next(Final(Initial(), Program(ps)), Start);
    NextInv(Final(Initial(), Program(ps)), Start);
    forall t | t in m.exec.tasks ensures t < |Polls(counts)| && Plain(m.exec.tasks[t], Polls(counts)[t]) {
      assert Plain(m.exec.tasks[t], 1);
    }
  }
}
