/**
 * What the replacement of an executor destroys.  The queues of the old executor give
 * up their references when the new one is already in place; a task that nothing else
 * refers to is destroyed, and with it the handles and fds that it owns, which can
 * destroy further tasks.  Fds dropped then take their slot from the new executor.
 */
module Teardown {
  import opened Types
  import opened ExecState
  import opened ExecInv
  import opened RunLoop

  /** Which task owns each fd and each other task's handle; those not mentioned are the program's. */
  datatype Ownership = Ownership(owner: map<FdId, TaskId>, holder: map<TaskId, TaskId>)

  // ---------------------------------------------------------------- who is released

  /** The handle of `t` is gone, or held by a task whose handle is gone, or so on, `n` times at most. */
  ghost predicate Leads(s: Exec, o: Ownership, t: TaskId, n: nat)
    decreases n
  {
    Upgradable(s, t)
    && (!s.tasks[t].handle || (n > 0 && t in o.holder && Leads(s, o, o.holder[t], n - 1)))
  }

  ghost predicate Released(s: Exec, o: Ownership, t: TaskId) { exists n: nat :: Leads(s, o, t, n) }

  /** One step of the definition: alive, and the handle is gone, or `holds` of the task that holds it. */
  ghost predicate LetGo(s: Exec, o: Ownership, t: TaskId, holds: TaskId -> bool) {
    Upgradable(s, t) && (!s.tasks[t].handle || (t in o.holder && holds(o.holder[t])))
  }

  /** `Released` is closed under that step, and is the least such set. */
  lemma ReleasedIsClosed(s: Exec, o: Ownership, t: TaskId)
    ensures Released(s, o, t) <==> LetGo(s, o, t, (u: TaskId) => Released(s, o, u))
  {
    if Released(s, o, t) {
      var n: nat :| Leads(s, o, t, n);
      if s.tasks[t].handle {
        assert Leads(s, o, o.holder[t], n - 1);
      }
    }
    if LetGo(s, o, t, (u: TaskId) => Released(s, o, u)) {
      if s.tasks[t].handle {
        var n: nat :| Leads(s, o, o.holder[t], n);
        assert Leads(s, o, t, n + 1);
      } else {
        assert Leads(s, o, t, 0);
      }
    }
  }

  lemma ReleasedIsLeast(s: Exec, o: Ownership, p: TaskId -> bool, t: TaskId)
    requires forall u: TaskId :: LetGo(s, o, u, p) ==> p(u)
    requires Released(s, o, t)
    ensures p(t)
  {
    var n: nat :| Leads(s, o, t, n);
    LeadsIn(s, o, p, t, n);
  }

  lemma {:induction false} LeadsIn(s: Exec, o: Ownership, p: TaskId -> bool, t: TaskId, n: nat)
    requires forall u: TaskId :: LetGo(s, o, u, p) ==> p(u)
    requires Leads(s, o, t, n)
    ensures p(t)
    decreases n
  {
    if s.tasks[t].handle {
      LeadsIn(s, o, p, o.holder[t], n - 1);
    }
    assert LetGo(s, o, t, p);
  }

  // ---------------------------------------------------------------- how they are destroyed

  /** What is left of the old executor: links and handles that own a reference, tasks destroyed, open fds. */
  datatype Remains = Remains(links: set<TaskId>, handles: set<TaskId>, dead: set<TaskId>, fds: set<FdId>)

  /** A queue drops a reference; a task is destroyed; a destroyed task's contents are, handle by handle and fd by fd. */
  datatype Drop = DropLink(t: TaskId) | Destroy(t: TaskId) | DropHeld(t: TaskId) | Close(fd: FdId)

  ghost function Whole(s: Exec): Remains {
    Remains(set t | t in s.tasks && IsQueued(s, t), set t | t in s.tasks && s.tasks[t].handle, {}, s.fds.Keys)
  }

  /** A task's strong count. */
  ghost function Count(r: Remains, t: TaskId): nat { Bit(t in r.links) + Bit(t in r.handles) }

  ghost predicate Possible(s: Exec, o: Ownership, r: Remains, d: Drop) {
    match d
    case DropLink(t) => t in r.links
    case Destroy(t) => Upgradable(s, t) && Count(r, t) == 0 && t !in r.dead
    case DropHeld(t) => t in r.handles && t in o.holder && o.holder[t] in r.dead
    case Close(fd) => fd in r.fds && fd in o.owner && o.owner[fd] in r.dead
  }

  ghost function After(r: Remains, d: Drop): Remains {
    match d
    case DropLink(t) => r.(links := r.links - {t})
    case Destroy(t) => r.(dead := r.dead + {t})
    case DropHeld(t) => r.(handles := r.handles - {t})
    case Close(fd) => r.(fds := r.fds - {fd})
  }

  /** In whatever order. */
  ghost predicate ValidDrops(s: Exec, o: Ownership, r: Remains, ds: seq<Drop>)
    decreases |ds|
  {
    ds == [] || (Possible(s, o, r, ds[0]) && ValidDrops(s, o, After(r, ds[0]), ds[1..]))
  }

  ghost function AfterAll(r: Remains, ds: seq<Drop>): Remains
    decreases |ds|
  {
    if ds == [] then r else AfterAll(After(r, ds[0]), ds[1..])
  }

  ghost predicate Done(s: Exec, o: Ownership, r: Remains) { forall d :: !Possible(s, o, r, d) }

  /** The counts start as those of the executor. */
  lemma WholeCounts(m: Machine, t: TaskId)
    requires MachineInv(m) && m.phase.Retiring? && t in m.exec.tasks
    ensures Count(Whole(m.exec), t) == m.exec.tasks[t].strong
  {
    InvTask(m.exec, t);
  }

  /** Only released tasks are destroyed, and only what they own is dropped. */
  ghost predicate Lawful(s: Exec, o: Ownership, r: Remains) {
    && (forall t :: t in r.dead ==> Released(s, o, t))
    && (forall t :: t in r.handles ==> t in s.tasks && s.tasks[t].handle)
    && (forall t :: t in s.tasks && s.tasks[t].handle && t !in r.handles ==> t in o.holder && o.holder[t] in r.dead)
    && (forall fd :: fd in r.fds ==> fd in s.fds)
    && (forall fd :: fd in s.fds && fd !in r.fds ==> fd in o.owner && o.owner[fd] in r.dead)
  }

  lemma DropIsLawful(s: Exec, o: Ownership, r: Remains, d: Drop)
    requires Lawful(s, o, r) && Possible(s, o, r, d)
    ensures Lawful(s, o, After(r, d))
  {
    if d.Destroy? {
      ReleasedIsClosed(s, o, d.t);
    }
  }

  lemma {:induction false} DropsAreLawful(s: Exec, o: Ownership, r: Remains, ds: seq<Drop>)
    requires Lawful(s, o, r) && ValidDrops(s, o, r, ds)
    ensures Lawful(s, o, AfterAll(r, ds))
    decreases |ds|
  {
    if ds != [] {
      DropIsLawful(s, o, r, ds[0]);
      DropsAreLawful(s, o, After(r, ds[0]), ds[1..]);
    }
  }

  /** When nothing more can happen, the released tasks are gone, with all that they own, and nothing else is. */
  lemma DoneIsReleased(s: Exec, o: Ownership, r: Remains)
    requires Lawful(s, o, r) && Done(s, o, r)
    ensures r.links == {}
    ensures forall t :: t in r.dead <==> Released(s, o, t)
    ensures forall t :: t in s.tasks ==>
              (t in r.handles <==> s.tasks[t].handle && !(t in o.holder && Released(s, o, o.holder[t])))
    ensures forall fd :: fd in s.fds ==> (fd in r.fds <==> !(fd in o.owner && Released(s, o, o.owner[fd])))
  {
    forall t ensures t !in r.links {
      assert !Possible(s, o, r, DropLink(t));
    }
    var p := (t: TaskId) => t in r.dead;
    forall t: TaskId | LetGo(s, o, t, p) ensures p(t) {
      assert !Possible(s, o, r, DropHeld(t)) && !Possible(s, o, r, Destroy(t));
    }
    forall t | Released(s, o, t) ensures t in r.dead {
      ReleasedIsLeast(s, o, p, t);
    }
    forall t | t in s.tasks && t in r.handles ensures !(t in o.holder && Released(s, o, o.holder[t])) {
      assert !Possible(s, o, r, DropHeld(t));
    }
    forall fd | fd in s.fds && fd in r.fds ensures !(fd in o.owner && Released(s, o, o.owner[fd])) {
      assert !Possible(s, o, r, Close(fd));
    }
  }

  // ---------------------------------------------------------------- it ends

  ghost function Left(s: Exec, r: Remains): nat {
    |r.links| + |r.handles| + |s.tasks.Keys - r.dead| + |r.fds|
  }

  lemma DropProgress(s: Exec, o: Ownership, r: Remains, d: Drop)
    requires Possible(s, o, r, d)
    ensures Left(s, After(r, d)) < Left(s, r)
  {
    match d {
      case DropLink(t) => Shrinks(r.links, t);
      case Destroy(t) =>
        assert s.tasks.Keys - (r.dead + {t}) == (s.tasks.Keys - r.dead) - {t};
        Shrinks(s.tasks.Keys - r.dead, t);
      case DropHeld(t) => Shrinks(r.handles, t);
      case Close(fd) => Shrinks(r.fds, fd);
    }
  }

  lemma Shrinks(a: set<nat>, x: nat)
    requires x in a
    ensures |a - {x}| < |a|
  {
  }

  /** However it goes, it comes to an end. */
  lemma {:induction false} DropsEnd(s: Exec, o: Ownership, r: Remains, ds: seq<Drop>)
    requires ValidDrops(s, o, r, ds)
    ensures |ds| + Left(s, AfterAll(r, ds)) <= Left(s, r)
    decreases |ds|
  {
    if ds != [] {
      DropProgress(s, o, r, ds[0]);
      DropsEnd(s, o, After(r, ds[0]), ds[1..]);
    }
  }

  lemma {:induction false} SomeDrops(s: Exec, o: Ownership, r: Remains) returns (ds: seq<Drop>)
    ensures ValidDrops(s, o, r, ds) && Done(s, o, AfterAll(r, ds))
    decreases Left(s, r)
  {
    if d :| Possible(s, o, r, d) {
      DropProgress(s, o, r, d);
      var rest := SomeDrops(s, o, After(r, d));
      ds := [d] + rest;
      assert ds[1..] == rest;
    } else {
      ds := [];
    }
  }

  // ---------------------------------------------------------------- what the new executor sees

  /** Each fd closed calls the new executor. */
  ghost function Calls(ds: seq<Drop>): seq<Action> {
    if ds == [] then []
    else if ds[0].Close? then [Do(DoDropForeignFd)] + Calls(ds[1..])
    else Calls(ds[1..])
  }

  lemma {:induction false} CallsRun(s: Exec, o: Ownership, r: Remains, ds: seq<Drop>, m: Machine)
    requires ValidDrops(s, o, r, ds) && m.phase.Outside? && m.exec.buffer <= 1
    ensures Valid(m, Calls(ds))
    ensures var m' := Final(m, Calls(ds));
      && m'.phase.Outside? && m'.retired == m.retired
      && m'.exec == m.exec.(buffer := m'.exec.buffer, hist := m'.exec.hist)
      && m'.exec.buffer == (if AfterAll(r, ds).fds == r.fds then m.exec.buffer else 0)
    ensures AfterAll(r, ds).fds <= r.fds
    decreases |ds|
  {
    if ds != [] {
      var r1 := After(r, ds[0]);
      if ds[0].Close? {
        var m1 := Next(m, Do(DoDropForeignFd));
        CallsRun(s, o, r1, ds[1..], m1);
        Chain(m, Do(DoDropForeignFd), Calls(ds[1..]));
        assert ds[0].fd !in AfterAll(r, ds).fds;
      } else {
        CallsRun(s, o, r1, ds[1..], m);
      }
    }
  }

  /**
   * The new executor once the old one is destroyed, in whatever order: its queues are
   * empty and its flag is clear, but its event buffer has its slot for the pipe if and
   * only if no released task owned an fd.  The released tasks are those that are alive
   * and whose handle is gone, or held by a released task; they are destroyed, and the
   * others keep one reference if they were alive.  Without a shutdown there are none.
   */
  lemma ReplacementBuffer(m: Machine, o: Ownership, ds: seq<Drop>)
    requires MachineInv(m) && m.phase.Retiring?
    requires ValidDrops(m.exec, o, Whole(m.exec), ds) && Done(m.exec, o, AfterAll(Whole(m.exec), ds))
    ensures var acts := [Replace] + Calls(ds);
      && Valid(m, acts)
      && var s := Final(m, acts).exec;
      && s.queues == [[], [], [], []] && !s.shutdown && s.tasks == map[] && s.fds == map[] && s.buffer <= 1
      && (s.buffer == 1 <==> forall fd :: fd in m.exec.fds && fd in o.owner ==> !Released(m.exec, o, o.owner[fd]))
      && (!m.exec.shutdown ==> s.buffer == 1)
    ensures var r := AfterAll(Whole(m.exec), ds);
      && (forall t :: t in r.dead <==> Released(m.exec, o, t))
      && (forall t :: t in m.exec.tasks ==> Count(r, t) == Bit(Upgradable(m.exec, t) && !Released(m.exec, o, t)))
  {
    var r := AfterAll(Whole(m.exec), ds);
    DropsAreLawful(m.exec, o, Whole(m.exec), ds);
    DoneIsReleased(m.exec, o, r);
    CallsRun(m.exec, o, Whole(m.exec), ds, Next(m, Replace));
    Chain(m, Replace, Calls(ds));
    ClosedIff(m.exec, o, r);
    forall t | t in m.exec.tasks ensures Count(r, t) == Bit(Upgradable(m.exec, t) && !Released(m.exec, o, t)) {
      CountLeft(m, o, r, t);
    }
    if !m.exec.shutdown {
      NoneReleased(m, o);
    }
  }

  lemma CountLeft(m: Machine, o: Ownership, r: Remains, t: TaskId)
    requires MachineInv(m) && m.phase.Retiring? && t in m.exec.tasks && r.links == {}
    requires t in r.handles <==> m.exec.tasks[t].handle && !(t in o.holder && Released(m.exec, o, o.holder[t]))
    ensures Count(r, t) == Bit(Upgradable(m.exec, t) && !Released(m.exec, o, t))
  {
    InvTask(m.exec, t);
    ReleasedIsClosed(m.exec, o, t);
  }

  lemma ClosedIff(s: Exec, o: Ownership, r: Remains)
    requires forall fd :: fd in r.fds ==> fd in s.fds
    requires forall fd :: fd in s.fds ==> (fd in r.fds <==> !(fd in o.owner && Released(s, o, o.owner[fd])))
    ensures r.fds == s.fds.Keys <==> forall fd :: fd in s.fds && fd in o.owner ==> !Released(s, o, o.owner[fd])
  {
  }

  lemma NoneReleased(m: Machine, o: Ownership)
    requires MachineInv(m) && m.phase.Retiring? && !m.exec.shutdown
    ensures forall t :: !Released(m.exec, o, t)
  {
    var none := (u: TaskId) => false;
    forall t: TaskId ensures !LetGo(m.exec, o, t, none) {
      if t in m.exec.tasks {
        InvTask(m.exec, t);
      }
    }
    forall t ensures !Released(m.exec, o, t) {
      if Released(m.exec, o, t) {
        ReleasedIsLeast(m.exec, o, none, t);
      }
    }
  }
}
