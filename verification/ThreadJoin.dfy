/**
 * Joining a native thread: the thread and the poller of its JoinFuture share one
 * mutex-protected state and interleave freely between critical sections.
 */
module ThreadJoin {
  import opened Types

  type WakerId = nat
  const NOOP: WakerId := 0

  datatype State = Running(waker: WakerId) | Complete

  /** How the thread ended: with the closure's value, or unwinding from its panic. */
  datatype Outcome = Value(v: int) | Panicked

  /**
   * The thread: running the closure; holding the waker it swapped out, still to be
   * woken; having woken it; ended.
   */
  datatype Thread = Working | Swapped(waker: WakerId, v: int) | Woke(v: int) | Ended(outcome: Outcome)

  /**
   * `handle`: the join handle has not been taken.  `joining`: a poll found the state
   * Complete and, still holding the lock, waits in `join()`.  `result`: what the
   * future returned.  `last`: the waker of the latest poll that returned Pending.
   * `woken`: the wakers the thread has woken.
   */
  datatype Join = Join(state: State, thread: Thread, handle: bool, joining: bool, result: Option<Outcome>,
                       last: WakerId, woken: seq<WakerId>)

  datatype Step = Poll(waker: WakerId) | JoinReturns | Swap(v: int) | Wake | End | Panic

  ghost function Spawned(): Join { Join(Running(NOOP), Working, true, false, None, NOOP, []) }

  /** The lock is held across `join()`; a future is not polled again after Ready. */
  ghost predicate Enabled(j: Join, s: Step) {
    match s
    case Poll(w) => !j.joining && j.result == None
    case JoinReturns => j.joining && j.thread.Ended?
    case Swap(v) => j.thread.Working? && !j.joining
    case Wake => j.thread.Swapped?
    case End => j.thread.Woke?
    case Panic => j.thread.Working?
  }

  /** The two places where the code would panic. */
  ghost predicate Crashes(j: Join, s: Step) {
    match s
    case Poll(w) => j.state.Complete? && !j.handle
    case Swap(v) => j.state.Complete?
    case _ => false
  }

  ghost function Next(j: Join, s: Step): Join
    requires Enabled(j, s) && !Crashes(j, s)
  {
    match s
    case Poll(w) =>
      if j.state.Running? then j.(state := Running(w), last := w)
      else j.(handle := false, joining := true)
    case JoinReturns => j.(joining := false, result := Some(j.thread.outcome))
    case Swap(v) => j.(state := Complete, thread := Swapped(j.state.waker, v))
    case Wake => j.(thread := Woke(j.thread.v), woken := j.woken + [j.thread.waker])
    case End => j.(thread := Ended(Value(j.thread.v)))
    case Panic => j.(thread := Ended(Panicked))
  }

  /** `steps` is an interleaving of the two parties that reaches no panic of the code's own. */
  ghost predicate Valid(j: Join, steps: seq<Step>)
    decreases |steps|
  {
    steps == [] || (Enabled(j, steps[0]) && !Crashes(j, steps[0]) && Valid(Next(j, steps[0]), steps[1..]))
  }

  ghost function Final(j: Join, steps: seq<Step>): Join
    requires Valid(j, steps)
    decreases |steps|
  {
    if steps == [] then j else Final(Next(j, steps[0]), steps[1..])
  }

  ghost predicate Inv(j: Join) {
    // the state is Complete exactly when the closure has returned
    && (j.state.Complete? <==> !(j.thread.Working? || j.thread == Ended(Panicked)))
    // the stored waker, then the swapped one, then the woken one is that of the last Pending poll
    && (j.state.Running? ==> j.state.waker == j.last && j.woken == [])
    && (j.thread.Swapped? ==> j.thread.waker == j.last && j.woken == [])
    && (j.thread.Woke? || (j.thread.Ended? && j.thread.outcome.Value?) ==> j.woken == [j.last])
    // the join handle is there until a poll has found Complete
    && (j.handle <==> !j.joining && j.result == None)
    && (!j.handle ==> j.state.Complete?)
    && (j.result.Some? ==> j.thread == Ended(j.result.value))
  }

  lemma NextInv(j: Join, s: Step)
    requires Inv(j) && Enabled(j, s)
    ensures !Crashes(j, s) && Inv(Next(j, s))
  {
  }

  /** Neither panic of the code's own is reachable: what is enabled can be done. */
  lemma {:induction false} NeverCrashes(j: Join, steps: seq<Step>, s: Step)
    requires Inv(j) && Valid(j, steps) && Enabled(Final(j, steps), s)
    ensures !Crashes(Final(j, steps), s) && Inv(Final(j, steps))
    decreases |steps|
  {
    if steps == [] {
      NextInv(j, s);
    } else {
      NextInv(j, steps[0]);
      NeverCrashes(Next(j, steps[0]), steps[1..], s);
    }
  }

  lemma {:induction false} AlwaysInv(j: Join, steps: seq<Step>)
    requires Inv(j) && Valid(j, steps)
    ensures Inv(Final(j, steps))
    decreases |steps|
  {
    if steps != [] {
      NextInv(j, steps[0]);
      AlwaysInv(Next(j, steps[0]), steps[1..]);
    }
  }

  /**
   * The delivery promise: in every interleaving, once the state is Complete only
   * the waker of the last Pending poll is or will be woken, exactly once, and no
   * later poll returns Pending.
   */
  lemma CompletionWakesLastPoll(steps: seq<Step>, w: WakerId)
    requires Valid(Spawned(), steps) && Final(Spawned(), steps).state.Complete?
    ensures var j := Final(Spawned(), steps);
      && j.woken + (if j.thread.Swapped? then [j.thread.waker] else []) == [j.last]
      && (Enabled(j, Poll(w)) ==> !Crashes(j, Poll(w)) && Next(j, Poll(w)).joining)
  {
    AlwaysInv(Spawned(), steps);
  }

  /** The future's value is the closure's, and its being Ready means the waker has been woken. */
  lemma ResultIsTheThreads(steps: seq<Step>)
    requires Valid(Spawned(), steps) && Final(Spawned(), steps).result.Some?
    ensures var j := Final(Spawned(), steps);
      j.thread == Ended(j.result.value) && j.result.value.Value? && j.woken == [j.last]
  {
    AlwaysInv(Spawned(), steps);
  }

  // ---------------------------------------------------------------- told by the steps alone

  /** The values that the closure returned. */
  ghost function Values(steps: seq<Step>): seq<int> {
    if steps == [] then [] else (if steps[0].Swap? then [steps[0].v] else []) + Values(steps[1..])
  }

  /** The waker of the last poll before the closure's end, `w` being that of an earlier one. */
  ghost function LastBeforeSwap(steps: seq<Step>, w: WakerId): WakerId
    decreases |steps|
  {
    if steps == [] || steps[0].Swap? then w
    else LastBeforeSwap(steps[1..], if steps[0].Poll? then steps[0].waker else w)
  }

  ghost function Wakes(steps: seq<Step>): nat {
    if steps == [] then 0 else (if steps[0].Wake? then 1 else 0) + Wakes(steps[1..])
  }

  /** The value that the thread has, if its closure has returned. */
  ghost function Has(j: Join): seq<int> {
    match j.thread
    case Working => []
    case Swapped(w, v) => [v]
    case Woke(v) => [v]
    case Ended(o) => if o.Value? then [o.v] else []
  }

  lemma {:induction false} HasTheValues(j: Join, steps: seq<Step>)
    requires Inv(j) && Valid(j, steps)
    ensures Inv(Final(j, steps)) && Has(Final(j, steps)) == Has(j) + Values(steps)
    decreases |steps|
  {
    if steps != [] {
      NextInv(j, steps[0]);
      HasTheValues(Next(j, steps[0]), steps[1..]);
    }
  }

  /** The closure's value is returned once at most, and the future's result is that value. */
  lemma ResultIsReturned(steps: seq<Step>)
    requires Valid(Spawned(), steps)
    ensures |Values(steps)| <= 1
    ensures forall o :: Final(Spawned(), steps).result == Some(o) ==> o.Value? && Values(steps) == [o.v]
  {
    HasTheValues(Spawned(), steps);
  }

  /** The waker that the thread has taken out or woken. */
  ghost function Taken(j: Join): seq<WakerId> {
    j.woken + if j.thread.Swapped? then [j.thread.waker] else []
  }

  lemma {:induction false} TakesTheLast(j: Join, steps: seq<Step>)
    requires Inv(j) && Valid(j, steps)
    ensures Inv(Final(j, steps)) && |Final(j, steps).woken| == |j.woken| + Wakes(steps)
    ensures j.state.Running? && Values(steps) != [] ==> Taken(Final(j, steps)) == [LastBeforeSwap(steps, j.state.waker)]
    ensures !j.state.Running? ==> Taken(Final(j, steps)) == Taken(j)
    decreases |steps|
  {
    if steps != [] {
      NextInv(j, steps[0]);
      TakesTheLast(Next(j, steps[0]), steps[1..]);
    }
  }

  /**
   * What is woken is the waker given to the last poll before the closure's end, or the
   * no-op waker if there was none; it is woken in the one `Wake` step that there can be.
   */
  lemma WokenIsLastPolled(steps: seq<Step>)
    requires Valid(Spawned(), steps)
    ensures Wakes(steps) <= 1
    ensures Final(Spawned(), steps).woken == if Wakes(steps) == 0 then [] else [LastBeforeSwap(steps, NOOP)]
  {
    TakesTheLast(Spawned(), steps);
    HasTheValues(Spawned(), steps);
  }

  /** The thread needs no lock after the swap, so a poll that waits in join() is never stuck. */
  lemma JoinIsNeverStuck(steps: seq<Step>)
    requires Valid(Spawned(), steps) && Final(Spawned(), steps).joining
    ensures var j := Final(Spawned(), steps);
      Enabled(j, Wake) || Enabled(j, End) || Enabled(j, JoinReturns)
  {
    AlwaysInv(Spawned(), steps);
  }

  /** Once the thread has ended: its waiter was woken, and a poll is Ready, exactly if the closure did not panic. */
  lemma PanicIsNeverDelivered(steps: seq<Step>, w: WakerId)
    requires Valid(Spawned(), steps) && Final(Spawned(), steps).thread.Ended? && Final(Spawned(), steps).handle
    ensures var j := Final(Spawned(), steps);
      && (j.woken == [j.last] <==> j.thread != Ended(Panicked))
      && Enabled(j, Poll(w)) && !Crashes(j, Poll(w))
      && (Next(j, Poll(w)).joining <==> j.thread != Ended(Panicked))
  {
    AlwaysInv(Spawned(), steps);
  }

  // ---------------------------------------------------------------- the shared object

  /** The two parties' code over the shared object; each method is one critical section or step. */
  class Shared {
    var state: State
    var joinHandle: bool
    ghost var view: Join

    ghost predicate Valid()
      reads this
    {
      Inv(view) && view.state == state && view.handle == joinHandle
    }

    constructor ()
      ensures Valid() && view == Spawned()
    {
      state, joinHandle, view := Running(NOOP), true, Spawned();
    }

    /** `JoinFuture::poll` up to the point where it has to wait for the thread; true is Pending. */
    method PollJoin(w: WakerId) returns (pending: bool)
      requires Valid() && Enabled(view, Poll(w))
      modifies this
      ensures Valid() && view == Next(old(view), Poll(w)) && pending == old(state).Running?
    {
      NextInv(view, Poll(w));
      view := Next(view, Poll(w));
      match state {
        case Running(_) =>
          state := Running(w);
          pending := true;
        case Complete =>
          joinHandle := false;
          pending := false;
      }
    }

    /** The end of the thread's closure: the state becomes Complete and the stored waker is taken out. */
    method Finish(v: int) returns (waker: WakerId)
      requires Valid() && Enabled(view, Swap(v))
      modifies this
      ensures Valid() && view == Next(old(view), Swap(v)) && waker == old(view).last
    {
      NextInv(view, Swap(v));
      waker := state.waker;
      view := Next(view, Swap(v));
      state := Complete;
    }
  }
}
