/** Names shared by every module of the model. */
module Types {
  /** A task is named by its address; the address doubles as the pipe message. */
  type TaskId = nat

  datatype Option<+T> = None | Some(value: T)

  datatype Priority = High | Normal | Low
}

/**
 * What a family of intrusive queues holds, as values: one sequence of tasks per
 * queue, oldest entry first.  The heap rings of module `Rings` refine these
 * functions, and the executor model uses them for its four queues.
 */
module QueueSpec {
  import opened Types

  ghost predicate Linked(qs: seq<seq<TaskId>>, t: TaskId) {
    exists q :: 0 <= q < |qs| && t in qs[q]
  }

  /** `q` without `t`; everything else keeps its order. */
  function Without(q: seq<TaskId>, t: TaskId): (r: seq<TaskId>)
    ensures forall x :: x in r <==> x in q && x != t
    ensures |r| <= |q|
  {
    if q == [] then []
    else
      assert q == [q[0]] + q[1..];
      if q[0] == t then Without(q[1..], t)
      else [q[0]] + Without(q[1..], t)
  }

  function Unlink(qs: seq<seq<TaskId>>, t: TaskId): (r: seq<seq<TaskId>>)
    ensures |r| == |qs|
    ensures forall j, x :: 0 <= j < |qs| ==> (x in r[j] <==> x in qs[j] && x != t)
  {
    seq(|qs|, j requires 0 <= j < |qs| => Without(qs[j], t))
  }

  /** The entry leaves whichever queue holds it and becomes the newest of queue `q`. */
  function Push(qs: seq<seq<TaskId>>, q: nat, t: TaskId): (r: seq<seq<TaskId>>)
    requires q < |qs|
    ensures |r| == |qs|
    ensures forall j, x :: 0 <= j < |qs| ==> (x in r[j] <==> if x == t then j == q else x in qs[j])
  {
    var u := Unlink(qs, t);
    u[q := u[q] + [t]]
  }

  function Pop(qs: seq<seq<TaskId>>, q: nat): (r: seq<seq<TaskId>>)
    requires q < |qs| && qs[q] != []
    ensures |r| == |qs|
  {
    qs[q := qs[q][1..]]
  }

  ghost predicate NoDup(q: seq<TaskId>) {
    q != [] ==> q[0] !in q[1..] && NoDup(q[1..])
  }

  /** No task is held twice, and `where` names the queue that holds it. */
  ghost predicate Located(qs: seq<seq<TaskId>>, where: map<TaskId, nat>) {
    && (forall j :: 0 <= j < |qs| ==> NoDup(qs[j]))
    && (forall j, x {:trigger x in qs[j]} :: 0 <= j < |qs| ==> (x in qs[j] <==> x in where && where[x] == j))
    && (forall x :: x in where ==> where[x] < |qs|)
  }

  lemma {:induction false} NoDupWithout(q: seq<TaskId>, t: TaskId)
    requires NoDup(q)
    ensures NoDup(Without(q, t))
  {
    if q != [] {
      NoDupWithout(q[1..], t);
      if q[0] != t {
        assert Without(q, t)[1..] == Without(q[1..], t);
      }
    }
  }

  lemma {:induction false} NoDupSnoc(q: seq<TaskId>, t: TaskId)
    requires NoDup(q) && t !in q
    ensures NoDup(q + [t])
  {
    if q != [] {
      NoDupSnoc(q[1..], t);
      assert (q + [t])[1..] == q[1..] + [t];
    }
  }

  lemma {:induction false} WithoutAbsent(q: seq<TaskId>, t: TaskId)
    requires t !in q
    ensures Without(q, t) == q
  {
    if q != [] {
      WithoutAbsent(q[1..], t);
      assert q == [q[0]] + q[1..];
    }
  }

  /** Every operation keeps the queues free of duplicates. */
  lemma UnlinkLocated(qs: seq<seq<TaskId>>, where: map<TaskId, nat>, t: TaskId)
    requires Located(qs, where)
    ensures Located(Unlink(qs, t), where - {t})
  {
    forall j | 0 <= j < |qs| ensures NoDup(Unlink(qs, t)[j]) {
      NoDupWithout(qs[j], t);
    }
  }

  lemma PushLocated(qs: seq<seq<TaskId>>, where: map<TaskId, nat>, q: nat, t: TaskId)
    requires Located(qs, where) && q < |qs|
    ensures Located(Push(qs, q, t), where[t := q])
  {
    UnlinkLocated(qs, where, t);
    NoDupSnoc(Unlink(qs, t)[q], t);
    forall j, x | 0 <= j < |qs| ensures x in Push(qs, q, t)[j] <==> x in where[t := q] && where[t := q][x] == j {
      assert x in qs[j] <==> x in where && where[x] == j;
    }
  }

  lemma PopLocated(qs: seq<seq<TaskId>>, where: map<TaskId, nat>, q: nat)
    requires Located(qs, where) && q < |qs| && qs[q] != []
    ensures Located(Pop(qs, q), where - {qs[q][0]})
  {
    var t := qs[q][0];
    assert qs[q] == [t] + qs[q][1..];
    assert NoDup(qs[q]) && t in qs[q];
    forall j, x | 0 <= j < |qs| ensures x in Pop(qs, q)[j] <==> x in where - {t} && (where - {t})[x] == j {
      assert x in qs[j] <==> x in where && where[x] == j;
    }
  }

  lemma LinkedIsLocated(qs: seq<seq<TaskId>>, where: map<TaskId, nat>, t: TaskId)
    requires Located(qs, where)
    ensures Linked(qs, t) <==> t in where
  {
    if t in where {
      assert t in qs[where[t]];
    }
  }

  lemma {:induction false} NoDupIndex(q: seq<TaskId>, i: nat, j: nat)
    requires NoDup(q) && i < j < |q|
    ensures q[i] != q[j]
  {
    if i == 0 {
      assert q[j] == q[1..][j - 1];
    } else {
      NoDupIndex(q[1..], i - 1, j - 1);
    }
  }

  /** Where the removed task was, the sequence closes up. */
  lemma {:induction false} WithoutAt(q: seq<TaskId>, k: nat)
    requires NoDup(q) && k < |q|
    ensures Without(q, q[k]) == q[..k] + q[k + 1..]
  {
    assert q == [q[0]] + q[1..];
    if k == 0 {
      WithoutAbsent(q[1..], q[0]);
    } else {
      WithoutAt(q[1..], k - 1);
      assert q[k] in q[1..];
      assert q[..k] + q[k + 1..] == [q[0]] + (q[1..][..k - 1] + q[1..][k..]);
    }
  }

  lemma UnlinkAbsent(qs: seq<seq<TaskId>>, t: TaskId)
    requires !Linked(qs, t)
    ensures Unlink(qs, t) == qs
  {
    forall j | 0 <= j < |qs| ensures Unlink(qs, t)[j] == qs[j] {
      WithoutAbsent(qs[j], t);
    }
  }

  /** Popping a queue removes exactly its oldest task from the family. */
  lemma PopIsUnlink(qs: seq<seq<TaskId>>, where: map<TaskId, nat>, q: nat)
    requires Located(qs, where) && q < |qs| && qs[q] != []
    ensures Unlink(qs, qs[q][0]) == Pop(qs, q)
  {
    var t := qs[q][0];
    assert t in qs[q];
    forall j | 0 <= j < |qs| ensures Unlink(qs, t)[j] == Pop(qs, q)[j] {
      if j == q {
        WithoutAt(qs[q], 0);
      } else {
        WithoutAbsent(qs[j], t);
      }
    }
  }
}
