/**
 * The intrusive queues themselves: circular doubly linked rings threaded through
 * the tasks, with a sentinel per queue.  An entry does not know which queue holds
 * it, so all operations are specified over the whole family of queues.
 */
module Rings {
  import opened Types
  import opened QueueSpec

  /** A sentinel, or the entry embedded in a task. */
  class QueueEntry {
    const task: TaskId
    /** The queue a sentinel belongs to, -1 for the entry of a task. */
    ghost const rank: int
    var prev: QueueEntry?
    var next: QueueEntry?

    constructor (task: TaskId, ghost rank: int)
      ensures this.task == task && this.rank == rank && prev == null && next == null
    {
      this.task := task;
      this.rank := rank;
      prev, next := null, null;
    }

    predicate IsQueued()
      reads this
    {
      prev != null
    }
  }

  // ---------------------------------------------------------------- rings, as values

  type Links = map<QueueEntry, QueueEntry?>

  ghost function Succ(n: nat, k: nat): nat {
    if k + 1 >= n then 0 else k + 1
  }

  /** The nodes at position `k` and after it, along `prev`, point at each other. */
  ghost predicate Neighbours(ns: seq<QueueEntry>, prev: Links, next: Links, k: nat) {
    && k < |ns| && ns[k] in prev && ns[Succ(|ns|, k)] in next
    && prev[ns[k]] == ns[Succ(|ns|, k)] && next[ns[Succ(|ns|, k)]] == ns[k]
  }

  /** The nodes, taken along `prev`, form a circular doubly linked ring. */
  ghost predicate Ring(ns: seq<QueueEntry>, prev: Links, next: Links) {
    && ns != []
    && (forall k :: 0 <= k < |ns| ==> ns[k] in prev && ns[k] in next)
    && (forall k :: 0 <= k < |ns| ==> Neighbours(ns, prev, next, k))
  }

  ghost predicate Injective(ns: seq<QueueEntry>) {
    forall k, l :: 0 <= k < l < |ns| ==> ns[k] != ns[l]
  }

  ghost function Cut(ns: seq<QueueEntry>, p: nat): seq<QueueEntry>
    requires p < |ns|
  {
    ns[..p] + ns[p + 1..]
  }

  /** The node before position `p` points back at it. */
  lemma RingNext(ns: seq<QueueEntry>, prev: Links, next: Links, p: nat)
    requires Ring(ns, prev, next) && 0 < p < |ns|
    ensures next[ns[p]] == ns[p - 1]
  {
    assert Neighbours(ns, prev, next, p - 1);
  }

  /** The links at position `k` once the neighbours of position `p` are joined. */
  lemma CutRingAt(ns: seq<QueueEntry>, prev: Links, next: Links, p: nat, prev': Links, next': Links, k: nat, j: nat)
    requires Ring(ns, prev, next) && Injective(ns) && 0 < p < |ns| && k < |ns| && k != p
    requires j == if k == p - 1 then Succ(|ns|, p) else Succ(|ns|, k)
    requires var n, m := ns[Succ(|ns|, p)], ns[p - 1];
      prev' == prev[m := n][ns[p] := null] && next' == next[n := m]
    ensures ns[k] in prev' && ns[k] in next' && ns[j] in next'
    ensures prev'[ns[k]] == ns[j] && next'[ns[j]] == ns[k]
  {
    assert Neighbours(ns, prev, next, k);
    assert ns[k] != ns[p];
    if k != p - 1 {
      assert ns[k] != ns[p - 1] && ns[j] != ns[Succ(|ns|, p)];
    }
  }

  /** Joining the neighbours of a node closes the ring without it. */
  lemma CutRing(ns: seq<QueueEntry>, prev: Links, next: Links, p: nat, prev': Links, next': Links)
    requires Ring(ns, prev, next) && Injective(ns) && 0 < p < |ns|
    requires var n, m := ns[Succ(|ns|, p)], ns[p - 1];
      prev' == prev[m := n][ns[p] := null] && next' == next[n := m]
    ensures Ring(Cut(ns, p), prev', next')
  {
    var r := Cut(ns, p);
    forall k | 0 <= k < |r|
      ensures r[k] in prev' && r[k] in next' && Neighbours(r, prev', next', k)
    {
      var k' := if k < p then k else k + 1;
      var j' := if k' == p - 1 then Succ(|ns|, p) else Succ(|ns|, k');
      CutRingAt(ns, prev, next, p, prev', next', k', j');
      assert r[k] == ns[k'];
      assert r[Succ(|r|, k)] == ns[j'];
    }
  }

  /** Linking a new node between the sentinel and the newest node makes it the newest. */
  lemma GrowRing(ns: seq<QueueEntry>, prev: Links, next: Links, e: QueueEntry, prev': Links, next': Links)
    requires Ring(ns, prev, next) && Injective(ns) && e !in ns && e in prev && e in next
    requires var h, last := ns[0], ns[|ns| - 1];
      prev' == prev[e := h][last := e] && next' == next[e := last][h := e]
    ensures Ring(ns + [e], prev', next')
  {
    var r := ns + [e];
    forall k | 0 <= k < |r|
      ensures r[k] in prev' && r[k] in next' && Neighbours(r, prev', next', k)
    {
      if k < |ns| {
        assert ns[k] != e && Neighbours(ns, prev, next, k);
      }
    }
  }

  /** The sentinel's `next` is the newest node. */
  lemma RingNewest(ns: seq<QueueEntry>, prev: Links, next: Links)
    requires Ring(ns, prev, next)
    ensures next[ns[0]] == ns[|ns| - 1]
  {
    assert Neighbours(ns, prev, next, |ns| - 1);
  }

  /** Writing links of nodes outside a ring leaves it a ring. */
  lemma OtherRing(ns: seq<QueueEntry>, prev: Links, next: Links, prev': Links, next': Links)
    requires Ring(ns, prev, next)
    requires forall k :: 0 <= k < |ns| ==> ns[k] in prev' && prev'[ns[k]] == prev[ns[k]]
    requires forall k :: 0 <= k < |ns| ==> ns[k] in next' && next'[ns[k]] == next[ns[k]]
    ensures Ring(ns, prev', next')
  {
    forall k | 0 <= k < |ns| ensures Neighbours(ns, prev', next', k) {
      assert Neighbours(ns, prev, next, k);
    }
  }

  // ---------------------------------------------------------------- families of rings, as values

  /** The sentinels and the tasks' entries; none of them coincide. */
  datatype Cast = Cast(heads: seq<QueueEntry>, entries: map<TaskId, QueueEntry>) {
    ghost predicate Separate() {
      && (forall i :: 0 <= i < |heads| ==> heads[i].rank == i)
      && (forall t :: t in entries ==> entries[t].rank == -1 && entries[t].task == t)
    }
  }

  /** Per queue its nodes along `prev`, sentinel first, and the tasks they belong to, oldest first. */
  datatype Family = Family(rings: seq<seq<QueueEntry>>, contents: seq<seq<TaskId>>, where: map<TaskId, nat>)

  ghost predicate RowOk(c: Cast, h: QueueEntry, ns: seq<QueueEntry>, q: seq<TaskId>) {
    && |ns| == |q| + 1 && ns[0] == h
    && (forall k :: 0 <= k < |q| ==> q[k] in c.entries && ns[k + 1] == c.entries[q[k]])
  }

  ghost predicate Layout(c: Cast, f: Family) {
    && |f.rings| == |f.contents| == |c.heads|
    && Located(f.contents, f.where)
    && (forall i :: 0 <= i < |c.heads| ==> RowOk(c, c.heads[i], f.rings[i], f.contents[i]))
  }

  /** Every queue is a ring, and `prev` is set exactly on the linked tasks. */
  ghost predicate FamilyOk(c: Cast, f: Family, prev: Links, next: Links) {
    && c.Separate() && Layout(c, f)
    && (forall i :: 0 <= i < |f.rings| ==> Ring(f.rings[i], prev, next))
    && (forall t {:trigger c.entries[t]} :: t in c.entries ==> c.entries[t] in prev && c.entries[t] in next)
    && (forall t {:trigger c.entries[t]} :: t in c.entries ==> (prev[c.entries[t]] != null <==> t in f.where))
  }

  /** Distinct positions of the family are distinct objects. */
  lemma NodesDistinct(c: Cast, f: Family, i: nat, k: nat, j: nat, l: nat)
    requires c.Separate() && Layout(c, f) && i < |f.rings| && j < |f.rings|
    requires k < |f.rings[i]| && l < |f.rings[j]| && (i != j || k != l)
    ensures f.rings[i][k] != f.rings[j][l]
  {
    assert RowOk(c, c.heads[i], f.rings[i], f.contents[i]) && RowOk(c, c.heads[j], f.rings[j], f.contents[j]);
    if k == 0 || l == 0 {
      assert k != 0 ==> f.rings[i][k] == c.entries[f.contents[i][k - 1]];
      assert l != 0 ==> f.rings[j][l] == c.entries[f.contents[j][l - 1]];
    } else {
      var t, u := f.contents[i][k - 1], f.contents[j][l - 1];
      assert t in f.contents[i] && u in f.contents[j];
      if i == j {
        NoDupIndex(f.contents[i], if k < l then k - 1 else l - 1, if k < l then l - 1 else k - 1);
      }
      assert f.where[t] == i && f.where[u] == j;
      assert t != u;
      assert f.rings[i][k] == c.entries[t] && f.rings[j][l] == c.entries[u];
    }
  }

  lemma RowInjective(c: Cast, f: Family, i: nat)
    requires c.Separate() && Layout(c, f) && i < |f.rings|
    ensures Injective(f.rings[i])
  {
    forall k, l | 0 <= k < l < |f.rings[i]| ensures f.rings[i][k] != f.rings[i][l] {
      NodesDistinct(c, f, i, k, i, l);
    }
  }

  ghost function CutFamily(f: Family, i: nat, p: nat): Family
    requires |f.rings| == |f.contents| && i < |f.rings| && |f.rings[i]| == |f.contents[i]| + 1
    requires p < |f.contents[i]|
  {
    Family(f.rings[i := Cut(f.rings[i], p + 1)], Unlink(f.contents, f.contents[i][p]), f.where - {f.contents[i][p]})
  }

  /** Removing one task from the rings removes it from the contents, wherever it was. */
  lemma CutLayout(c: Cast, f: Family, i: nat, p: nat)
    requires c.Separate() && Layout(c, f) && i < |f.rings|
    requires RowOk(c, c.heads[i], f.rings[i], f.contents[i]) && p < |f.contents[i]|
    ensures Layout(c, CutFamily(f, i, p))
  {
    var t := f.contents[i][p];
    var g := CutFamily(f, i, p);
    assert t in f.contents[i];
    UnlinkLocated(f.contents, f.where, t);
    forall j | 0 <= j < |c.heads| ensures RowOk(c, c.heads[j], g.rings[j], g.contents[j]) {
      assert RowOk(c, c.heads[j], f.rings[j], f.contents[j]);
      if j == i {
        WithoutAt(f.contents[i], p);
        CutRow(c, c.heads[i], f.rings[i], f.contents[i], p);
      } else {
        WithoutAbsent(f.contents[j], t);
      }
    }
  }

  lemma CutRow(c: Cast, h: QueueEntry, ns: seq<QueueEntry>, q: seq<TaskId>, p: nat)
    requires RowOk(c, h, ns, q) && p < |q|
    ensures RowOk(c, h, Cut(ns, p + 1), q[..p] + q[p + 1..])
  {
  }

  /** Writing the links of nodes of ring `i` only. */
  ghost predicate WritesIn(f: Family, i: nat, prev: Links, next: Links, prev': Links, next': Links) {
    forall j, k :: 0 <= j < |f.rings| && j != i && 0 <= k < |f.rings[j]| ==>
      var n := f.rings[j][k];
      n in prev && n in next && n in prev' && n in next' && prev'[n] == prev[n] && next'[n] == next[n]
  }

  lemma OtherRings(f: Family, i: nat, prev: Links, next: Links, prev': Links, next': Links, j: nat)
    requires WritesIn(f, i, prev, next, prev', next') && j < |f.rings| && j != i && Ring(f.rings[j], prev, next)
    ensures Ring(f.rings[j], prev', next')
  {
    OtherRing(f.rings[j], prev, next, prev', next');
  }

  lemma CutWrites(c: Cast, f: Family, prev: Links, next: Links, i: nat, p: nat, prev': Links, next': Links)
    requires FamilyOk(c, f, prev, next) && i < |f.rings| && 0 < p < |f.rings[i]|
    requires var n, m := f.rings[i][Succ(|f.rings[i]|, p)], f.rings[i][p - 1];
      prev' == prev[m := n][f.rings[i][p] := null] && next' == next[n := m]
    ensures WritesIn(f, i, prev, next, prev', next')
  {
    forall j, k | 0 <= j < |f.rings| && j != i && 0 <= k < |f.rings[j]|
      ensures var n := f.rings[j][k];
        n in prev && n in next && n in prev' && n in next' && prev'[n] == prev[n] && next'[n] == next[n]
    {
      assert Ring(f.rings[j], prev, next);
      NodesDistinct(c, f, j, k, i, p);
      NodesDistinct(c, f, j, k, i, p - 1);
      NodesDistinct(c, f, j, k, i, Succ(|f.rings[i]|, p));
    }
  }

  /** `unqueue`, seen on the links: the family loses that task and nothing else. */
  lemma CutOk(c: Cast, f: Family, prev: Links, next: Links, i: nat, p: nat, prev': Links, next': Links)
    requires FamilyOk(c, f, prev, next) && i < |f.rings|
    requires |f.rings[i]| == |f.contents[i]| + 1 && p < |f.contents[i]|
    requires var n, m := f.rings[i][Succ(|f.rings[i]|, p + 1)], f.rings[i][p];
      prev' == prev[m := n][f.rings[i][p + 1] := null] && next' == next[n := m]
    ensures FamilyOk(c, CutFamily(f, i, p), prev', next')
  {
    var g := CutFamily(f, i, p);
    CutLayout(c, f, i, p);
    CutWrites(c, f, prev, next, i, p + 1, prev', next');
    RowInjective(c, f, i);
    CutRing(f.rings[i], prev, next, p + 1, prev', next');
    forall j | 0 <= j < |g.rings| ensures Ring(g.rings[j], prev', next') {
      if j != i {
        OtherRings(f, i, prev, next, prev', next', j);
      }
    }
    CutQueued(c, f, prev, i, p, prev');
  }

  /** The neighbours stay linked (or are sentinels), the entry itself no longer is. */
  lemma CutQueued(c: Cast, f: Family, prev: Links, i: nat, p: nat, prev': Links)
    requires c.Separate() && Layout(c, f) && i < |f.rings|
    requires RowOk(c, c.heads[i], f.rings[i], f.contents[i]) && p < |f.contents[i]|
    requires forall t :: t in c.entries ==> c.entries[t] in prev
    requires forall t :: t in c.entries ==> (prev[c.entries[t]] != null <==> t in f.where)
    requires prev' == prev[f.rings[i][p] := f.rings[i][Succ(|f.rings[i]|, p + 1)]][f.rings[i][p + 1] := null]
    ensures forall t :: t in c.entries ==> c.entries[t] in prev'
    ensures forall t :: t in c.entries ==> (prev'[c.entries[t]] != null <==> t in f.where - {f.contents[i][p]})
  {
    var u := f.contents[i][p];
    assert f.rings[i][p + 1] == c.entries[u];
    forall t | t in c.entries ensures prev'[c.entries[t]] != null <==> t in f.where - {u} {
      if t != u && c.entries[t] == f.rings[i][p] {
        assert p > 0 && f.contents[i][p - 1] in f.contents[i] && f.rings[i][p] == c.entries[f.contents[i][p - 1]];
      }
    }
  }

  ghost function GrowFamily(f: Family, i: nat, e: QueueEntry, t: TaskId): Family
    requires |f.rings| == |f.contents| && i < |f.rings|
  {
    Family(f.rings[i := f.rings[i] + [e]], f.contents[i := f.contents[i] + [t]], f.where[t := i])
  }

  /** Linking an unlinked entry behind the sentinel makes it the newest of that queue. */
  lemma GrowOk(c: Cast, f: Family, prev: Links, next: Links, i: nat, t: TaskId, prev': Links, next': Links)
    requires FamilyOk(c, f, prev, next) && i < |f.rings| && t in c.entries && t !in f.where
    requires f.rings[i] != []
    requires var h, last, e := f.rings[i][0], f.rings[i][|f.rings[i]| - 1], c.entries[t];
      prev' == prev[e := h][last := e] && next' == next[e := last][h := e]
    ensures FamilyOk(c, GrowFamily(f, i, c.entries[t], t), prev', next')
  {
    var e := c.entries[t];
    var g := GrowFamily(f, i, e, t);
    UnlinkedIsNoNode(c, f, t);
    GrowLayout(c, f, i, t);
    GrowWrites(c, f, prev, next, i, t, prev', next');
    RowInjective(c, f, i);
    GrowRing(f.rings[i], prev, next, e, prev', next');
    forall j | 0 <= j < |g.rings| ensures Ring(g.rings[j], prev', next') {
      if j != i {
        OtherRings(f, i, prev, next, prev', next', j);
      }
    }
    GrowQueued(c, f, prev, i, t, prev');
  }

  lemma UnlinkedIsNoNode(c: Cast, f: Family, t: TaskId)
    requires c.Separate() && Layout(c, f) && t in c.entries && t !in f.where
    ensures forall j :: 0 <= j < |f.rings| ==> c.entries[t] !in f.rings[j]
  {
    forall j, k | 0 <= j < |f.rings| && 0 <= k < |f.rings[j]| ensures f.rings[j][k] != c.entries[t] {
      assert RowOk(c, c.heads[j], f.rings[j], f.contents[j]);
      if k > 0 {
        assert f.contents[j][k - 1] in f.contents[j];
        assert f.rings[j][k] == c.entries[f.contents[j][k - 1]];
      }
    }
  }

  lemma GrowLayout(c: Cast, f: Family, i: nat, t: TaskId)
    requires c.Separate() && Layout(c, f) && i < |f.rings| && t in c.entries && t !in f.where
    ensures Layout(c, GrowFamily(f, i, c.entries[t], t))
  {
    var g := GrowFamily(f, i, c.entries[t], t);
    NoDupSnoc(f.contents[i], t);
    forall j | 0 <= j < |c.heads| ensures RowOk(c, c.heads[j], g.rings[j], g.contents[j]) {
      assert RowOk(c, c.heads[j], f.rings[j], f.contents[j]);
    }
  }

  lemma GrowWrites(c: Cast, f: Family, prev: Links, next: Links, i: nat, t: TaskId, prev': Links, next': Links)
    requires FamilyOk(c, f, prev, next) && i < |f.rings| && t in c.entries && f.rings[i] != []
    requires forall j :: 0 <= j < |f.rings| ==> c.entries[t] !in f.rings[j]
    requires var h, last, e := f.rings[i][0], f.rings[i][|f.rings[i]| - 1], c.entries[t];
      prev' == prev[e := h][last := e] && next' == next[e := last][h := e]
    ensures WritesIn(f, i, prev, next, prev', next')
  {
    forall j, k | 0 <= j < |f.rings| && j != i && 0 <= k < |f.rings[j]|
      ensures var n := f.rings[j][k];
        n in prev && n in next && n in prev' && n in next' && prev'[n] == prev[n] && next'[n] == next[n]
    {
      assert Ring(f.rings[j], prev, next);
      assert f.rings[j][k] in f.rings[j];
      NodesDistinct(c, f, j, k, i, 0);
      NodesDistinct(c, f, j, k, i, |f.rings[i]| - 1);
    }
  }

  lemma GrowQueued(c: Cast, f: Family, prev: Links, i: nat, t: TaskId, prev': Links)
    requires c.Separate() && Layout(c, f) && i < |f.rings| && t in c.entries && f.rings[i] != []
    requires forall x :: x in c.entries ==> c.entries[x] in prev
    requires forall x :: x in c.entries ==> (prev[c.entries[x]] != null <==> x in f.where)
    requires prev' == prev[c.entries[t] := f.rings[i][0]][f.rings[i][|f.rings[i]| - 1] := c.entries[t]]
    ensures forall x :: x in c.entries ==> c.entries[x] in prev'
    ensures forall x :: x in c.entries ==> (prev'[c.entries[x]] != null <==> x in f.where[t := i])
  {
    var last := |f.rings[i]| - 1;
    assert RowOk(c, c.heads[i], f.rings[i], f.contents[i]);
    forall x | x in c.entries ensures prev'[c.entries[x]] != null <==> x in f.where[t := i] {
      if x != t && c.entries[x] == f.rings[i][last] {
        assert last > 0 && f.contents[i][last - 1] in f.contents[i] && f.rings[i][last] == c.entries[f.contents[i][last - 1]];
      }
    }
  }

  lemma Overwrite(where: map<TaskId, nat>, t: TaskId, q: nat)
    ensures (where - {t})[t := q] == where[t := q]
  {
  }

  ghost predicate RefsOk(es: map<TaskId, QueueEntry>, strong: map<TaskId, nat>, held: map<TaskId, nat>, where: map<TaskId, nat>) {
    forall t :: t in es ==> t in strong && t in held && strong[t] == held[t] + (if t in where then 1 else 0)
  }

  /** Linking a task that was not linked turns one held reference into an owned one. */
  lemma LinkRefs(es: map<TaskId, QueueEntry>, strong: map<TaskId, nat>, held: map<TaskId, nat>, where: map<TaskId, nat>,
                 t: TaskId, q: nat)
    requires RefsOk(es, strong, held, where) && t in es && held[t] > 0
    ensures RefsOk(es, if t in where then strong[t := strong[t] - 1] else strong, held[t := held[t] - 1], where[t := q])
  {
  }

  /** Unlinking a task hands the queue's reference over, or drops it together with a held one. */
  lemma UnlinkRefs(es: map<TaskId, QueueEntry>, strong: map<TaskId, nat>, held: map<TaskId, nat>, where: map<TaskId, nat>, t: TaskId)
    requires RefsOk(es, strong, held, where) && t in es && t in where
    ensures RefsOk(es, strong, held[t := held[t] + 1], where - {t})
    ensures held[t] > 0 ==> RefsOk(es, strong[t := strong[t] - 2], held[t := held[t] - 1], where - {t})
  {
  }

  /** A new, unlinked entry joins the cast; the rings do not notice. */
  lemma AddOk(c: Cast, f: Family, prev: Links, next: Links, t: TaskId, e: QueueEntry)
    requires FamilyOk(c, f, prev, next) && t !in c.entries && t !in f.where
    requires e !in prev && e !in next && e.rank == -1 && e.task == t
    ensures FamilyOk(Cast(c.heads, c.entries[t := e]), f, prev[e := null], next[e := null])
  {
    var d := Cast(c.heads, c.entries[t := e]);
    assert d.Separate();
    forall i | 0 <= i < |c.heads| ensures RowOk(d, d.heads[i], f.rings[i], f.contents[i]) {
      assert RowOk(c, c.heads[i], f.rings[i], f.contents[i]);
    }
    forall i | 0 <= i < |f.rings| ensures Ring(f.rings[i], prev[e := null], next[e := null]) {
      OtherRing(f.rings[i], prev, next, prev[e := null], next[e := null]);
    }
  }

  lemma AddRefs(es: map<TaskId, QueueEntry>, strong: map<TaskId, nat>, held: map<TaskId, nat>, where: map<TaskId, nat>,
                t: TaskId, e: QueueEntry)
    requires RefsOk(es, strong, held, where) && t !in where
    ensures RefsOk(es[t := e], strong[t := 1], held[t := 1], where)
  {
  }

  lemma GiveAndTake(held: map<TaskId, nat>, t: TaskId)
    requires t in held
    ensures var h := held[t := held[t] + 1]; h[t := h[t] - 1] == held
  {
  }

  /** Emptying one queue unlinks its members; with nothing else held or returned, each loses one reference. */
  lemma Emptied(es: map<TaskId, QueueEntry>, qs: seq<seq<TaskId>>, where: map<TaskId, nat>, where': map<TaskId, nat>, q: nat,
                strong: map<TaskId, nat>, strong': map<TaskId, nat>, held: map<TaskId, nat>)
    requires q < |qs| && Located(qs, where) && Located(qs[q := []], where')
    requires RefsOk(es, strong, held, where) && RefsOk(es, strong', held, where')
    ensures forall t :: t in es ==>
              && (t in where' <==> t in where && t !in qs[q])
              && t in strong' && t in strong
              && strong'[t] == strong[t] - (if t in qs[q] then 1 else 0)
  {
    forall t | t in es ensures t in where' <==> t in where && t !in qs[q] {
      LinkedIsLocated(qs, where, t);
      LinkedIsLocated(qs[q := []], where', t);
      if t in where {
        assert t in qs[where[t]];
        assert where[t] != q ==> t in qs[q := []][where[t]];
      }
      if t in where' {
        assert t in qs[q := []][where'[t]];
        assert t in qs[where'[t]];
      }
    }
  }

  /** Queues that hold nothing. */
  ghost function EmptyFamily(hs: seq<QueueEntry>): Family {
    Family(seq(|hs|, i requires 0 <= i < |hs| => [hs[i]]), seq(|hs|, i => []), map[])
  }

  /** Sentinels that are linked to themselves are such queues. */
  lemma SentinelsOk(hs: seq<QueueEntry>, links: Links)
    requires forall i :: 0 <= i < |hs| ==> hs[i].rank == i && hs[i] in links && links[hs[i]] == hs[i]
    ensures FamilyOk(Cast(hs, map[]), EmptyFamily(hs), links, links)
  {
    var f := EmptyFamily(hs);
    forall i | 0 <= i < |hs| ensures Ring(f.rings[i], links, links) {
      assert f.rings[i] == [hs[i]];
    }
  }

  /** `Queue::init`, `n` times. */
  method NewSentinels(n: nat) returns (hs: seq<QueueEntry>, ghost ns: set<QueueEntry>, ghost links: Links)
    ensures |hs| == n && fresh(ns) && (forall h :: h in hs <==> h in ns) && (forall h :: h in links <==> h in ns)
    ensures forall i :: 0 <= i < |hs| ==> hs[i].rank == i
    ensures forall h :: h in ns ==> h.prev == h && h.next == h && links[h] == h
  {
    hs, ns, links := [], {}, map[];
    while |hs| < n
      invariant |hs| <= n && fresh(ns) && (forall h :: h in hs <==> h in ns) && (forall h :: h in links <==> h in ns)
      invariant forall i :: 0 <= i < |hs| ==> hs[i].rank == i
      invariant forall h :: h in ns ==> h.prev == h && h.next == h && links[h] == h
    {
      var h := new QueueEntry(0, |hs|);
      h.prev, h.next := h, h;
      hs, ns, links := hs + [h], ns + {h}, links[h := h];
    }
  }

  // ---------------------------------------------------------------- the queues on the heap

  class QueueFamily {
    /** The sentinels, one per queue. */
    const heads: seq<QueueEntry>
    /** The tasks, by address. */
    var entries: map<TaskId, QueueEntry>
    /** Each task's strong count, which the Arc that owns the task keeps. */
    var strong: map<TaskId, nat>

    /** The sentinels and all entries. */
    ghost var nodes: set<QueueEntry>
    /** The rings, and every node's two pointers, as values. */
    ghost var family: Family
    ghost var prevs: Links
    ghost var nexts: Links
    /** How many references to each task no queue owns. */
    ghost var held: map<TaskId, nat>

    ghost predicate Mirror()
      reads this`nodes, this`prevs, this`nexts, nodes`prev, nodes`next
    {
      && (forall n :: n in nodes ==> n in prevs && n in nexts && n.prev == prevs[n] && n.next == nexts[n])
      && (forall n :: n in prevs ==> n in nodes)
    }

    ghost function Contents(): seq<seq<TaskId>>
      reads this`family
    {
      family.contents
    }

    ghost predicate Linkage()
      reads this`entries, this`family, this`nodes, this`prevs, this`nexts, nodes`prev, nodes`next
    {
      && FamilyOk(Cast(heads, entries), family, prevs, nexts) && Mirror()
      && Covered() && (forall t :: t in family.where ==> t in entries)
    }

    ghost predicate Covered()
      reads this`entries, this`nodes
    {
      && (forall h :: h in heads ==> h in nodes)
      && (forall t :: t in entries ==> entries[t] in nodes)
    }

    /** The queues own exactly one strong reference to each linked task and none to any other. */
    ghost predicate Refs()
      reads this`entries, this`family, this`strong, this`held
    {
      RefsOk(entries, strong, held, family.where)
    }

    ghost predicate Valid()
      reads this, nodes
    {
      Linkage() && Refs()
    }

    /** `Queue::init` for `n` queues: each sentinel is linked to itself. */
    constructor (n: nat)
      ensures Valid() && fresh(nodes) && |heads| == n && entries == map[] && held == map[]
      ensures Contents() == seq(n, i => []) && family.where == map[]
    {
      var hs;
      ghost var ns, links;
      hs, ns, links := NewSentinels(n);
      heads, entries, strong := hs, map[], map[];
      nodes, prevs, nexts, held := ns, links, links, map[];
      family := EmptyFamily(hs);
      new;
      SentinelsOk(heads, prevs);
    }

    /** `Arc::new`: the caller holds the only reference, and the entry is not queued. */
    method Add(t: TaskId)
      requires Valid() && t !in entries
      modifies this`entries, this`nodes, this`prevs, this`nexts, this`strong, this`held
      ensures Valid() && Contents() == old(Contents()) && family == old(family)
      ensures t in entries && entries == old(entries)[t := entries[t]] && fresh(entries[t])
      ensures nodes == old(nodes) + {entries[t]}
      ensures strong == old(strong)[t := 1] && held == old(held)[t := 1]
    {
      var e := new QueueEntry(t, -1);
      AddOk(Cast(heads, entries), family, prevs, nexts, t, e);
      AddRefs(entries, strong, held, family.where, t, e);
      Register(t, e);
      assert Linkage();
    }

    method Register(t: TaskId, e: QueueEntry)
      requires Mirror() && Covered() && e.prev == null && e.next == null
      modifies this`entries, this`nodes, this`prevs, this`nexts, this`strong, this`held
      ensures Mirror() && Covered() && family == old(family) && entries == old(entries)[t := e] && nodes == old(nodes) + {e}
      ensures prevs == old(prevs)[e := null] && nexts == old(nexts)[e := null]
      ensures strong == old(strong)[t := 1] && held == old(held)[t := 1]
    {
      entries, strong, held := entries[t := e], strong[t := 1], held[t := 1];
      nodes, prevs, nexts := nodes + {e}, prevs[e := null], nexts[e := null];
    }

    ghost predicate Tasked(e: QueueEntry)
      reads this`entries
    {
      e.task in entries && entries[e.task] == e
    }

    /** The pointer writes of `unqueue`; the ghost fields follow. */
    method Splice(e: QueueEntry, ghost f: Family)
      requires Mirror() && e in nodes && e.prev in nodes && e.next in nodes
      modifies this`family, this`prevs, this`nexts, nodes`prev, nodes`next
      ensures Mirror() && family == f
      ensures prevs == old(prevs)[old(e.next) := old(e.prev)][e := null]
      ensures nexts == old(nexts)[old(e.prev) := old(e.next)]
    {
      family := f;
      var p, n := e.prev, e.next;
      p.next, nexts := n, nexts[p := n];
      assert Mirror();
      n.prev, prevs := p, prevs[n := p];
      assert Mirror();
      e.prev, prevs := null, prevs[e := null];
    }

    /** A queued entry's ring and position, and what its two pointers are there. */
    lemma Locate(e: QueueEntry) returns (i: nat, p: nat)
      requires Linkage() && Tasked(e) && e.prev != null
      ensures i < |family.rings| == |family.contents| && p < |family.contents[i]|
      ensures |family.rings[i]| == |family.contents[i]| + 1 && family.contents[i][p] == e.task
      ensures e == family.rings[i][p + 1]
      ensures e.next == family.rings[i][p] && e.prev == family.rings[i][Succ(|family.rings[i]|, p + 1)]
      ensures e.prev in nodes && e.next in nodes
    {
      var c := Cast(heads, entries);
      i := family.where[e.task];
      assert e.task in family.contents[i];
      p :| 0 <= p < |family.contents[i]| && family.contents[i][p] == e.task;
      assert RowOk(c, c.heads[i], family.rings[i], family.contents[i]);
      assert Ring(family.rings[i], prevs, nexts);
      RingNext(family.rings[i], prevs, nexts, p + 1);
      assert Neighbours(family.rings[i], prevs, nexts, p + 1);
    }

    lemma NotQueued(e: QueueEntry)
      requires Linkage() && Tasked(e) && e.prev == null
      ensures Unlink(family.contents, e.task) == family.contents
      ensures e.task !in family.where
    {
      LinkedIsLocated(family.contents, family.where, e.task);
      UnlinkAbsent(family.contents, e.task);
    }

    /** The linked case of `unqueue`. */
    method Detach(e: QueueEntry)
      requires Linkage() && Tasked(e) && e.prev != null
      modifies this`family, this`prevs, this`nexts, nodes`prev, nodes`next
      ensures Linkage()
      ensures Contents() == Unlink(old(Contents()), e.task)
      ensures family.where == old(family.where) - {e.task}
    {
      ghost var i, p := Locate(e);
      CutOk(Cast(heads, entries), family, prevs, nexts, i, p,
            prevs[e.next := e.prev][e := null], nexts[e.prev := e.next]);
      Splice(e, CutFamily(family, i, p));
    }

    /** `QueueEntry::unqueue`: the entry leaves its ring, if it is in one; its own `next` goes stale. */
    method Unqueue(e: QueueEntry)
      requires Linkage() && Tasked(e)
      modifies this`family, this`prevs, this`nexts, nodes`prev, nodes`next
      ensures Linkage()
      ensures Contents() == Unlink(old(Contents()), e.task)
      ensures family.where == old(family.where) - {e.task}
    {
      if e.IsQueued() {
        Detach(e);
      } else {
        NotQueued(e);
      }
    }

    /** The pointer writes that link an entry between the sentinel and the newest entry. */
    method Insert(q: nat, e: QueueEntry, ghost f: Family)
      requires Mirror() && q < |heads| && heads[q] in nodes && e in nodes && heads[q].next in nodes
      requires heads[q] != e && heads[q].next != e
      modifies this`family, this`prevs, this`nexts, nodes`prev, nodes`next
      ensures Mirror() && family == f
      ensures prevs == old(prevs)[e := heads[q]][old(heads[q].next) := e]
      ensures nexts == old(nexts)[e := old(heads[q].next)][heads[q] := e]
    {
      family := f;
      SetLinks(e, heads[q], heads[q].next);
      SetNeighbours(heads[q], e);
    }

    method SetLinks(e: QueueEntry, prev: QueueEntry, next: QueueEntry?)
      requires Mirror() && e in nodes
      modifies this`prevs, this`nexts, e`prev, e`next
      ensures Mirror() && e.prev == prev && e.next == next
      ensures prevs == old(prevs)[e := prev] && nexts == old(nexts)[e := next]
    {
      e.next, nexts := next, nexts[e := next];
      e.prev, prevs := prev, prevs[e := prev];
    }

    method SetNeighbours(h: QueueEntry, e: QueueEntry)
      requires Mirror() && h in nodes && h.next in nodes
      modifies this`prevs, this`nexts, h.next`prev, h`next
      ensures Mirror()
      ensures prevs == old(prevs)[old(h.next) := e] && nexts == old(nexts)[h := e]
    {
      h.next.prev, prevs := e, prevs[h.next := e];
      h.next, nexts := e, nexts[h := e];
    }

    /** The sentinel's pointers: the newest and the oldest entry, or itself. */
    lemma Ends(q: nat)
      requires Linkage() && q < |heads|
      ensures |family.rings| == |family.contents| == |heads|
      ensures |family.rings[q]| == |family.contents[q]| + 1 && family.rings[q][0] == heads[q]
      ensures heads[q].next == family.rings[q][|family.contents[q]|] && heads[q].next in nodes && heads[q] in nodes
      ensures heads[q].prev == heads[q] <==> family.contents[q] == []
      ensures family.contents[q] != [] ==>
                family.contents[q][0] in entries && heads[q].prev == entries[family.contents[q][0]]
    {
      var c := Cast(heads, entries);
      assert RowOk(c, c.heads[q], family.rings[q], family.contents[q]);
      assert Ring(family.rings[q], prevs, nexts);
      RingNewest(family.rings[q], prevs, nexts);
      assert Neighbours(family.rings[q], prevs, nexts, 0);
    }

    method Attach(q: nat, e: QueueEntry)
      requires Linkage() && q < |heads| && Tasked(e) && e.prev == null
      modifies this`family, this`prevs, this`nexts, nodes`prev, nodes`next
      ensures Linkage()
      ensures Contents() == old(Contents())[q := old(Contents())[q] + [e.task]]
      ensures family.where == old(family.where)[e.task := q]
    {
      ghost var c := Cast(heads, entries);
      Ends(q);
      NotQueued(e);
      UnlinkedIsNoNode(c, family, e.task);
      GrowOk(c, family, prevs, nexts, q, e.task,
             prevs[e := heads[q]][heads[q].next := e], nexts[e := heads[q].next][heads[q] := e]);
      Insert(q, e, GrowFamily(family, q, e, e.task));
    }

    /** The part of `push` that moves links. */
    method Relink(q: nat, e: QueueEntry)
      requires Linkage() && q < |heads| && Tasked(e)
      modifies this`family, this`prevs, this`nexts, nodes`prev, nodes`next
      ensures Linkage()
      ensures Contents() == QueueSpec.Push(old(Contents()), q, e.task)
      ensures family.where == old(family.where)[e.task := q]
    {
      Unqueue(e);
      QueuedInWhere(e);
      Attach(q, e);
      Overwrite(old(family.where), e.task, q);
    }

    lemma QueuedInWhere(e: QueueEntry)
      requires Linkage() && Tasked(e)
      ensures e.prev != null <==> e.task in family.where
      ensures |Contents()| == |heads|
    {
    }

    /** Weak::upgrade, and Arc::clone. */
    method Upgrade(t: TaskId) returns (ok: bool)
      requires Valid() && t in entries
      modifies this`strong, this`held
      ensures Valid() && ok == (old(strong[t]) > 0)
      ensures ok ==> strong == old(strong)[t := old(strong[t]) + 1] && held == old(held)[t := old(held[t]) + 1]
      ensures !ok ==> strong == old(strong) && held == old(held)
    {
      ok := strong[t] > 0;
      if ok {
        strong, held := strong[t := strong[t] + 1], held[t := held[t] + 1];
      }
    }

    /** Dropping a reference that the caller holds. */
    method DropRef(t: TaskId)
      requires Valid() && t in entries && held[t] > 0
      modifies this`strong, this`held
      ensures Valid()
      ensures strong == old(strong)[t := old(strong)[t] - 1] && held == old(held)[t := old(held)[t] - 1]
    {
      strong, held := strong[t := strong[t] - 1], held[t := held[t] - 1];
    }

    /** The caller's reference to `t` is dropped if a queue already owns one, and becomes the queue's otherwise. */
    method GiveAway(t: TaskId, ghost q: nat)
      requires Valid() && t in entries && held[t] > 0
      modifies this`strong, this`held
      ensures Linkage() && RefsOk(entries, strong, held, family.where[t := q])
      ensures held == old(held)[t := old(held[t]) - 1]
      ensures strong == if t in family.where then old(strong)[t := old(strong[t]) - 1] else old(strong)
    {
      QueuedInWhere(entries[t]);
      LinkRefs(entries, strong, held, family.where, t, q);
      strong, held := (if entries[t].IsQueued() then strong[t := strong[t] - 1] else strong), held[t := held[t] - 1];
    }

    /**
     * `push`: consumes one of the caller's references.  An unlinked entry's
     * reference becomes the queue's; a linked entry is stolen from its queue, which
     * already owns one, so the caller's is dropped.
     */
    method Push(q: nat, t: TaskId)
      requires Valid() && q < |heads| && t in entries && held[t] > 0
      modifies this`family, this`prevs, this`nexts, this`strong, this`held, nodes`prev, nodes`next
      ensures Valid()
      ensures Contents() == QueueSpec.Push(old(Contents()), q, t)
      ensures family.where == old(family.where)[t := q]
      ensures held == old(held)[t := old(held[t]) - 1]
      ensures strong == if t in old(family.where) then old(strong)[t := old(strong[t]) - 1] else old(strong)
    {
      var e := entries[t];
      GiveAway(t, q);
      Relink(q, e);
      assert Linkage();
      assert RefsOk(entries, strong, held, family.where);
    }

    /** `is_empty`: the sentinel's `prev` is the sentinel. */
    method IsEmpty(q: nat) returns (empty: bool)
      requires Valid() && q < |heads|
      ensures |Contents()| == |heads| && empty == (Contents()[q] == [])
    {
      Ends(q);
      empty := heads[q].prev == heads[q];
    }

    /** `pop`: the oldest entry leaves the queue, and its reference passes to the caller. */
    method Pop(q: nat) returns (r: Option<TaskId>)
      requires Valid() && q < |heads| == |Contents()|
      modifies this`family, this`prevs, this`nexts, this`held, nodes`prev, nodes`next
      ensures Valid() && |Contents()| == |heads|
      ensures old(Contents())[q] == [] ==>
                r == None && Contents() == old(Contents()) && held == old(held) && family.where == old(family.where)
      ensures old(Contents())[q] != [] ==>
                r == Some(old(Contents())[q][0]) && r.value in entries && Contents() == QueueSpec.Pop(old(Contents()), q)
                && family.where == old(family.where) - {r.value}
                && r.value in old(held) && held == old(held)[r.value := old(held)[r.value] + 1]
    {
      var empty := IsEmpty(q);
      if empty {
        r := None;
      } else {
        var t := PopOldest(q);
        r := Some(t);
      }
    }

    method Oldest(q: nat) returns (e: QueueEntry)
      requires Valid() && q < |heads| == |Contents()| && Contents()[q] != []
      ensures Tasked(e) && e.task == Contents()[q][0]
    {
      Ends(q);
      e := heads[q].prev;
    }

    method PopOldest(q: nat) returns (t: TaskId)
      requires Valid() && q < |heads| == |Contents()| && Contents()[q] != []
      modifies this`family, this`prevs, this`nexts, this`held, nodes`prev, nodes`next
      ensures Valid() && |Contents()| == |heads|
      ensures t == old(Contents())[q][0] && t in entries && Contents() == QueueSpec.Pop(old(Contents()), q)
      ensures family.where == old(family.where) - {t}
      ensures t in old(held) && held == old(held)[t := old(held)[t] + 1]
    {
      var e := Oldest(q);
      t := e.task;
      TakeOut(e, q);
    }

    method TakeOut(e: QueueEntry, ghost q: nat)
      requires Valid() && Tasked(e) && q < |heads| == |Contents()|
      requires Contents()[q] != [] && e.task == Contents()[q][0]
      modifies this`family, this`prevs, this`nexts, this`held, nodes`prev, nodes`next
      ensures Valid() && |Contents()| == |heads|
      ensures Contents() == QueueSpec.Pop(old(Contents()), q) && family.where == old(family.where) - {e.task}
      ensures e.task in old(held) && held == old(held)[e.task := old(held)[e.task] + 1]
    {
      TakeBack(e.task, q);
      Unqueue(e);
      assert Linkage();
      assert RefsOk(entries, strong, held, family.where);
    }

    /** The queue's reference to its oldest task becomes the caller's. */
    ghost method TakeBack(t: TaskId, q: nat)
      requires Valid() && q < |Contents()| && Contents()[q] != [] && t == Contents()[q][0] && t in entries
      modifies this`held
      ensures Linkage() && RefsOk(entries, strong, held, family.where - {t})
      ensures t in old(held) && held == old(held)[t := old(held)[t] + 1]
      ensures Unlink(Contents(), t) == QueueSpec.Pop(Contents(), q)
    {
      PopIsUnlink(family.contents, family.where, q);
      assert t in family.contents[q];
      UnlinkRefs(entries, strong, held, family.where, t);
      held := held[t := held[t] + 1];
    }

    /**
     * `release`: consumes one of the caller's references; if the entry is linked,
     * in whichever queue, it is unlinked and the queue's reference is dropped too.
     */
    method Release(t: TaskId)
      requires Valid() && t in entries && held[t] > 0
      modifies this`family, this`prevs, this`nexts, this`strong, this`held, nodes`prev, nodes`next
      ensures Valid()
      ensures Contents() == Unlink(old(Contents()), t) && family.where == old(family.where) - {t}
      ensures held == old(held)[t := old(held[t]) - 1]
      ensures strong == old(strong)[t := old(strong[t]) - (if t in old(family.where) then 2 else 1)]
    {
      var e := entries[t];
      ReleaseRefs(t);
      Unqueue(e);
      assert Linkage();
      assert RefsOk(entries, strong, held, family.where);
    }

    /** `Handle::abort`: a clone of a reference that the caller keeps is handed to `release`. */
    method ReleaseClone(t: TaskId)
      requires Valid() && t in entries && t in strong && strong[t] > 0
      modifies this`family, this`prevs, this`nexts, this`strong, this`held, nodes`prev, nodes`next
      ensures Valid()
      ensures Contents() == Unlink(old(Contents()), t) && family.where == old(family.where) - {t}
      ensures t in strong && strong[t] == old(strong[t]) - (if t in old(family.where) then 1 else 0)
      ensures forall x :: x in old(strong) && x != t ==> x in strong && strong[x] == old(strong[x])
    {
      var ok := Upgrade(t);
      Release(t);
    }

    method ReleaseRefs(t: TaskId)
      requires Valid() && t in entries && held[t] > 0
      modifies this`strong, this`held
      ensures Linkage() && RefsOk(entries, strong, held, family.where - {t})
      ensures held == old(held)[t := old(held[t]) - 1]
      ensures strong == old(strong)[t := old(strong[t]) - (if t in family.where then 2 else 1)]
    {
      QueuedInWhere(entries[t]);
      if entries[t].IsQueued() {
        UnlinkRefs(entries, strong, held, family.where, t);
      }
      strong, held := strong[t := strong[t] - (if entries[t].IsQueued() then 2 else 1)], held[t := held[t] - 1];
    }

    /** Dropping a queue: everything in it is unlinked and each reference is returned exactly once. */
    method DropQueue(q: nat)
      requires Valid() && q < |heads| == |Contents()|
      modifies this`family, this`prevs, this`nexts, this`strong, this`held, nodes`prev, nodes`next
      ensures Valid()
      ensures Contents() == old(Contents())[q := []] && held == old(held)
      ensures forall t :: t in entries ==>
                && (t in family.where <==> t in old(family.where) && t !in old(Contents())[q])
                && t in strong && t in old(strong)
                && strong[t] == old(strong[t]) - (if t in old(Contents())[q] then 1 else 0)
    {
      PopAll(q);
      Emptied(entries, old(Contents()), old(family.where), family.where, q, old(strong), strong, held);
    }

    /** The loop of `Drop for Queue`. */
    method PopAll(q: nat)
      requires Valid() && q < |heads| == |Contents()|
      modifies this`family, this`prevs, this`nexts, this`strong, this`held, nodes`prev, nodes`next
      ensures Valid() && Contents() == old(Contents())[q := []] && held == old(held)
    {
      var more := true;
      while more
        invariant Valid() && |Contents()| == |heads|
        invariant Contents() == old(Contents())[q := Contents()[q]] && held == old(held)
        invariant !more ==> Contents()[q] == []
        decreases |Contents()[q]|, more
      {
        more := DropOldest(q);
      }
    }

    /** One turn of the loop in `Drop for Queue`. */
    method DropOldest(q: nat) returns (more: bool)
      requires Valid() && q < |heads| == |Contents()|
      modifies this`family, this`prevs, this`nexts, this`strong, this`held, nodes`prev, nodes`next
      ensures Valid() && |Contents()| == |heads| && held == old(held)
      ensures more == (old(Contents())[q] != [])
      ensures Contents() == if more then QueueSpec.Pop(old(Contents()), q) else old(Contents())
    {
      var empty := IsEmpty(q);
      more := !empty;
      if more {
        DropHead(q);
      }
    }

    method DropHead(q: nat)
      requires Valid() && q < |heads| == |Contents()| && Contents()[q] != []
      modifies this`family, this`prevs, this`nexts, this`strong, this`held, nodes`prev, nodes`next
      ensures Valid() && |Contents()| == |heads| && held == old(held)
      ensures Contents() == QueueSpec.Pop(old(Contents()), q)
    {
      ghost var h := held;
      var t := PopOldest(q);
      GiveAndTake(h, t);
      DropRef(t);
    }
  }
}
