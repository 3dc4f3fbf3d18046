/**
 * The linked rings as the executor uses them: four of them, together with the strong
 * counts of the tasks in its table.  `Holds` says that rings, queues and table agree;
 * each method here does one operation on the rings, and says which queues and which
 * table they agree with afterwards.
 */
module TaskQueues {
  import opened Types
  import Q = QueueSpec
  import opened ExecState
  import opened ExecInv
  import opened Rings

  /** A task's record with one reference more. */
  function More(x: Task): Task { x.(strong := x.strong + 1) }

  /** And with one reference less, in one of two cases. */
  function Fewer(x: Task, dropped: bool): Task { if dropped then x.(strong := Less(x.strong)) else x }

  /** The table repeats the counts that the rings keep. */
  ghost predicate CountsAgree(tasks: map<TaskId, Task>, entries: map<TaskId, QueueEntry>, strong: map<TaskId, nat>) {
    && (forall x :: x in tasks <==> x in entries)
    && (forall x :: x in tasks ==> x in strong && strong[x] == tasks[x].strong)
  }

  /** The rings hold the queues `qs`, `where` says which ring each task is in, and the counts agree. */
  ghost predicate Holds(f: QueueFamily, qs: Queues, where: map<TaskId, nat>, tasks: map<TaskId, Task>)
    reads f, f.nodes
  {
    && f.Valid() && |f.heads| == 4
    && f.Contents() == qs && f.family.where == where
    && CountsAgree(tasks, f.entries, f.strong)
  }

  /** `t` is linked in the rings exactly if it is in a queue; what it does not owe to the queues is held. */
  lemma Places(f: QueueFamily, qs: Queues, where: map<TaskId, nat>, tasks: map<TaskId, Task>, t: TaskId)
    requires Holds(f, qs, where, tasks) && t in tasks
    ensures Q.Located(qs, where)
    ensures t in f.entries && f.Tasked(f.entries[t]) && (f.entries[t].prev != null <==> t in where)
    ensures t in f.strong && t in f.held && f.held[t] == tasks[t].strong - Bit(t in where)
  {
    f.QueuedInWhere(f.entries[t]);
  }

  method CheckLinked(f: QueueFamily, ghost qs: Queues, ghost where: map<TaskId, nat>, ghost tasks: map<TaskId, Task>, t: TaskId)
    returns (r: bool)
    requires Holds(f, qs, where, tasks) && t in tasks
    ensures Q.Located(qs, where) && r == (t in where)
  {
    Places(f, qs, where, tasks, t);
    r := f.entries[t].IsQueued();
  }

  /** Storing something in a task that is no count. */
  lemma Stored(f: QueueFamily, qs: Queues, where: map<TaskId, nat>, tasks: map<TaskId, Task>, t: TaskId, x: Task)
    requires Holds(f, qs, where, tasks) && t in tasks && x.strong == tasks[t].strong
    ensures Holds(f, qs, where, tasks[t := x])
  {
  }

  lemma Recounted(tasks: map<TaskId, Task>, entries: map<TaskId, QueueEntry>, before: map<TaskId, nat>, after: map<TaskId, nat>,
                  t: TaskId, x: Task)
    requires CountsAgree(tasks, entries, before) && t in tasks
    requires after == before[t := x.strong]
    ensures CountsAgree(tasks[t := x], entries, after)
  {
  }

  lemma PushedCounts(tasks: map<TaskId, Task>, entries: map<TaskId, QueueEntry>, before: map<TaskId, nat>, after: map<TaskId, nat>,
                     t: TaskId, x: Task, linked: bool)
    requires CountsAgree(tasks, entries, before) && t in tasks && x.strong == tasks[t].strong >= Bit(linked)
    requires after == if linked then before[t := before[t] - 1] else before
    ensures CountsAgree(tasks[t := Fewer(x, linked)], entries, after)
  {
  }

  lemma ReleasedCounts(tasks: map<TaskId, Task>, entries: map<TaskId, QueueEntry>, before: map<TaskId, nat>, after: map<TaskId, nat>,
                       t: TaskId, x: Task, linked: bool)
    requires CountsAgree(tasks, entries, before) && t in tasks && x.strong == tasks[t].strong >= Bit(linked)
    requires t in after && after[t] == before[t] - Bit(linked)
    requires forall u :: u in before && u != t ==> u in after && after[u] == before[u]
    ensures CountsAgree(tasks[t := Fewer(x, linked)], entries, after)
  {
  }

  method Add(f: QueueFamily, ghost qs: Queues, ghost where: map<TaskId, nat>, ghost tasks: map<TaskId, Task>, t: TaskId, ghost x: Task)
    requires Holds(f, qs, where, tasks) && t !in tasks && x.strong == 1
    modifies f
    ensures Holds(f, qs, where, tasks[t := x]) && fresh(f.nodes - old(f.nodes))
  {
    f.Add(t);
  }

  /** Weak::upgrade: one reference more, held by the caller, if there is one left. */
  method Upgrade(f: QueueFamily, ghost qs: Queues, ghost where: map<TaskId, nat>, ghost tasks: map<TaskId, Task>, t: TaskId)
    returns (ok: bool)
    requires Holds(f, qs, where, tasks) && t in tasks
    modifies f`strong, f`held
    ensures ok == (tasks[t].strong > 0) && f.nodes == old(f.nodes)
    ensures Holds(f, qs, where, if ok then tasks[t := More(tasks[t])] else tasks)
  {
    ghost var before := f.strong;
    ok := f.Upgrade(t);
    if ok {
      Recounted(tasks, f.entries, before, f.strong, t, More(tasks[t]));
    }
  }

  /** Drops a reference that no queue owns; the task is now `x`, less one reference. */
  method Drop(f: QueueFamily, ghost qs: Queues, ghost where: map<TaskId, nat>, ghost tasks: map<TaskId, Task>, t: TaskId, ghost x: Task)
    requires Holds(f, qs, where, tasks) && t in tasks && x.strong == tasks[t].strong > Bit(t in where)
    modifies f`strong, f`held
    ensures Holds(f, qs, where, tasks[t := Fewer(x, true)]) && f.nodes == old(f.nodes)
  {
    Places(f, qs, where, tasks, t);
    ghost var before := f.strong;
    f.DropRef(t);
    Recounted(tasks, f.entries, before, f.strong, t, Fewer(x, true));
  }

  /** Queues a task with a reference that no queue owns; it is dropped if a queue owns one already. */
  method Push(f: QueueFamily, ghost qs: Queues, ghost where: map<TaskId, nat>, ghost tasks: map<TaskId, Task>,
              q: nat, t: TaskId, ghost x: Task)
    requires Holds(f, qs, where, tasks) && q < 4 && t in tasks && x.strong == tasks[t].strong > Bit(t in where)
    modifies f, f.nodes
    ensures Holds(f, Q.Push(qs, q, t), where[t := q], tasks[t := Fewer(x, t in where)]) && f.nodes == old(f.nodes)
  {
    Places(f, qs, where, tasks, t);
    ghost var before := f.strong;
    f.Push(q, t);
    PushedCounts(tasks, f.entries, before, f.strong, t, x, t in where);
  }

  /** `release` of a clone of a reference that the caller keeps; the task is now `x`, less what a queue owned. */
  method Release(f: QueueFamily, ghost qs: Queues, ghost where: map<TaskId, nat>, ghost tasks: map<TaskId, Task>,
                 t: TaskId, ghost x: Task)
    requires Holds(f, qs, where, tasks) && t in tasks && x.strong == tasks[t].strong > 0
    modifies f, f.nodes
    ensures Holds(f, Q.Unlink(qs, t), where - {t}, tasks[t := Fewer(x, t in where)]) && f.nodes == old(f.nodes)
  {
    Places(f, qs, where, tasks, t);
    ghost var before := f.strong;
    f.ReleaseClone(t);
    ReleasedCounts(tasks, f.entries, before, f.strong, t, x, t in where);
  }

  /** The oldest task of a queue, with the queue's reference. */
  method Pop(f: QueueFamily, ghost qs: Queues, ghost where: map<TaskId, nat>, ghost tasks: map<TaskId, Task>, q: nat)
    returns (r: Option<TaskId>)
    requires Holds(f, qs, where, tasks) && q < 4
    modifies f, f.nodes
    ensures f.nodes == old(f.nodes)
    ensures qs[q] == [] ==> r == None && Holds(f, qs, where, tasks)
    ensures qs[q] != [] ==> r == Some(qs[q][0]) && r.value in tasks && Holds(f, Q.Pop(qs, q), where - {r.value}, tasks)
  {
    r := f.Pop(q);
  }

  method IsEmpty(f: QueueFamily, ghost qs: Queues, ghost where: map<TaskId, nat>, ghost tasks: map<TaskId, Task>, q: nat)
    returns (empty: bool)
    requires Holds(f, qs, where, tasks) && q < 4
    ensures empty == (qs[q] == [])
  {
    empty := f.IsEmpty(q);
  }

  // ---------------------------------------------------------------- dropping the queues

  /** Dropping an executor's queues: every task in them loses one reference. */
  method DropAll(f: QueueFamily, ghost qs: Queues, ghost where: map<TaskId, nat>, ghost tasks: map<TaskId, Task>)
    requires Holds(f, qs, where, tasks)
    modifies f, f.nodes
    ensures f.Contents() == [[], [], [], []] && f.nodes == old(f.nodes)
    ensures forall t :: t in tasks ==> t in f.strong && f.strong[t] == tasks[t].strong - Bit(t in where)
  {
    ghost var rs := qs;
    NothingReturned(f, qs, where, tasks);
    for q := 0 to 4
      invariant f.Valid() && |f.heads| == 4 && f.Contents() == rs && f.nodes == old(f.nodes)
      invariant Emptied(qs, rs, q) && ReturnedTo(tasks, f.entries, f.strong, where, q)
    {
      DropNext(f, qs, rs, where, tasks, q);
      rs := rs[q := []];
    }
  }

  lemma NothingReturned(f: QueueFamily, qs: Queues, where: map<TaskId, nat>, tasks: map<TaskId, Task>)
    requires Holds(f, qs, where, tasks)
    ensures Q.Located(qs, where) && Emptied(qs, qs, 0) && ReturnedTo(tasks, f.entries, f.strong, where, 0)
  {
  }

  method DropNext(f: QueueFamily, ghost qs: Queues, ghost rs: Queues, ghost where: map<TaskId, nat>,
                  ghost tasks: map<TaskId, Task>, q: nat)
    requires f.Valid() && |f.heads| == 4 && q < 4 && f.Contents() == rs && Q.Located(qs, where)
    requires Emptied(qs, rs, q) && ReturnedTo(tasks, f.entries, f.strong, where, q)
    modifies f, f.nodes
    ensures f.Valid() && f.Contents() == rs[q := []] && f.nodes == old(f.nodes)
    ensures ReturnedTo(tasks, f.entries, f.strong, where, q + 1)
  {
    ghost var before := f.strong;
    DropOne(f, rs, q);
    ReturnedMore(tasks, f.entries, before, f.strong, where, qs, rs, q);
  }

  method DropOne(f: QueueFamily, ghost qs: Queues, q: nat)
    requires f.Valid() && |f.heads| == 4 && q < 4 && f.Contents() == qs
    modifies f, f.nodes
    ensures f.Valid() && f.Contents() == qs[q := []] && f.entries == old(f.entries) && f.nodes == old(f.nodes)
    ensures forall t :: t in f.entries ==>
              t in old(f.strong) && t in f.strong && f.strong[t] + Bit(t in qs[q]) == old(f.strong[t])
  {
    f.DropQueue(q);
  }

  /** The first `n` queues have been emptied. */
  ghost predicate Emptied(qs: Queues, rs: Queues, n: nat) {
    forall j :: 0 <= j < 4 ==> rs[j] == if j < n then [] else qs[j]
  }

  /** And their tasks have each lost one reference. */
  ghost predicate ReturnedTo(tasks: map<TaskId, Task>, entries: map<TaskId, QueueEntry>, strong: map<TaskId, nat>,
                             where: map<TaskId, nat>, n: nat) {
    forall t :: t in tasks ==>
      t in entries && t in strong && strong[t] == tasks[t].strong - Bit(t in where && where[t] < n)
  }

  lemma ReturnedMore(tasks: map<TaskId, Task>, entries: map<TaskId, QueueEntry>, before: map<TaskId, nat>, after: map<TaskId, nat>,
                     where: map<TaskId, nat>, qs: Queues, rs: Queues, q: nat)
    requires q < 4 && Q.Located(qs, where) && Emptied(qs, rs, q) && ReturnedTo(tasks, entries, before, where, q)
    requires forall t :: t in entries ==> t in before && t in after && after[t] + Bit(t in rs[q]) == before[t]
    ensures ReturnedTo(tasks, entries, after, where, q + 1)
  {
    forall t | t in tasks ensures t in after && after[t] == tasks[t].strong - Bit(t in where && where[t] < q + 1) {
      assert t in qs[q] <==> t in where && where[t] == q;
    }
  }

  lemma LocatedFamily(f: QueueFamily)
    requires f.Valid()
    ensures Q.Located(f.Contents(), f.family.where)
  {
  }
}
