/**
 * The weak references behind task wakers and pipe messages.  Raw pointers are
 * turned into owned references and back by hand, so every entry of the waker
 * vtable must balance: what it takes out of a raw pointer it puts back, drops, or
 * hands on.
 */
module WakerRefs {

  /** What a program can observe of the references: owners, live wakers, unread and unwritable messages. */
  datatype Counts = Counts(strong: nat, wakers: nat, messages: nat, leaked: nat)

  /** One use of a waker, one event or message, or a change in who owns the task. */
  datatype Use =
    | Cloning
    | WakingByVal(remote: bool, written: bool)
    | WakingByRef(remote: bool, written: bool)
    | Dropping
    | Event
    | Reading
    | Owners(strong: nat)

  /** A use needs a waker or a message to use; a dead task stays dead. */
  predicate Possible(c: Counts, u: Use) {
    match u
    case Reading => c.messages > 0
    case Owners(n) => c.strong > 0
    case _ => c.wakers > 0
  }

  function After(c: Counts, u: Use): Counts
    requires Possible(c, u)
  {
    match u
    case Cloning => if c.strong > 0 then c.(wakers := c.wakers + 1) else c
    case WakingByVal(remote, written) => Sent(c, remote, written).(wakers := c.wakers - 1)
    case WakingByRef(remote, written) => Sent(c, remote, written)
    case Dropping => c.(wakers := c.wakers - 1)
    case Event => c
    case Reading => c.(messages := c.messages - 1)
    case Owners(n) => c.(strong := n)
  }

  function Sent(c: Counts, remote: bool, written: bool): Counts {
    if c.strong == 0 || !remote then c
    else if written then c.(messages := c.messages + 1)
    else c.(leaked := c.leaked + 1)
  }

  predicate PossibleAll(c: Counts, uses: seq<Use>)
    decreases |uses|, 0
  {
    uses == [] || (PossibleAll(c, uses[..|uses| - 1]) && Possible(AfterAll(c, uses[..|uses| - 1]), uses[|uses| - 1]))
  }

  function AfterAll(c: Counts, uses: seq<Use>): Counts
    requires PossibleAll(c, uses)
    decreases |uses|, 1
  {
    if uses == [] then c else After(AfterAll(c, uses[..|uses| - 1]), uses[|uses| - 1])
  }

  lemma {:induction false} PrefixPossible(c: Counts, uses: seq<Use>, n: nat)
    requires PossibleAll(c, uses) && n <= |uses|
    ensures PossibleAll(c, uses[..n])
    decreases |uses|
  {
    if n == |uses| {
      assert uses[..n] == uses;
    } else {
      var front := uses[..|uses| - 1];
      PrefixPossible(c, front, n);
      assert front[..n] == uses[..n];
    }
  }

  function CountOf(uses: seq<Use>, p: Use -> bool): nat {
    if uses == [] then 0 else CountOf(uses[..|uses| - 1], p) + (if p(uses[|uses| - 1]) then 1 else 0)
  }

  predicate WritesSucceed(uses: seq<Use>) {
    forall i :: 0 <= i < |uses| && (uses[i].WakingByVal? || uses[i].WakingByRef?) ==> uses[i].written
  }

  /** While every write succeeds nothing leaks, and wakers and messages come from somewhere. */
  lemma {:induction false} NothingLeaks(c: Counts, uses: seq<Use>)
    requires PossibleAll(c, uses) && WritesSucceed(uses)
    ensures var d := AfterAll(c, uses);
      && d.leaked == c.leaked
      && d.messages + CountOf(uses, (u: Use) => u.Reading?) <=
           c.messages + CountOf(uses, (u: Use) => (u.WakingByVal? || u.WakingByRef?) && u.remote)
      && d.wakers + CountOf(uses, (u: Use) => u.WakingByVal? || u.Dropping?) <=
           c.wakers + CountOf(uses, (u: Use) => u.Cloning?)
      && (d.strong > 0 ==>
           && d.messages + CountOf(uses, (u: Use) => u.Reading?) ==
                c.messages + CountOf(uses, (u: Use) => (u.WakingByVal? || u.WakingByRef?) && u.remote)
           && d.wakers + CountOf(uses, (u: Use) => u.WakingByVal? || u.Dropping?) ==
                c.wakers + CountOf(uses, (u: Use) => u.Cloning?))
    decreases |uses|
  {
    if uses != [] {
      NothingLeaks(c, uses[..|uses| - 1]);
    }
  }

  predicate SendsOff(u: Use, written: bool) {
    (u.WakingByVal? || u.WakingByRef?) && u.remote && u.written == written
  }

  /** Whatever writes fail, what leaks is one reference for each of them made while the task lived. */
  lemma {:induction false} LeaksAreFailedWrites(c: Counts, uses: seq<Use>)
    requires PossibleAll(c, uses)
    ensures var d := AfterAll(c, uses);
      && c.leaked <= d.leaked <= c.leaked + CountOf(uses, (u: Use) => SendsOff(u, false))
      && d.messages + CountOf(uses, (u: Use) => u.Reading?) <= c.messages + CountOf(uses, (u: Use) => SendsOff(u, true))
      && (d.strong > 0 ==>
           && d.leaked == c.leaked + CountOf(uses, (u: Use) => SendsOff(u, false))
           && d.messages + CountOf(uses, (u: Use) => u.Reading?) ==
                c.messages + CountOf(uses, (u: Use) => SendsOff(u, true)))
    decreases |uses|
  {
    if uses != [] {
      LeaksAreFailedWrites(c, uses[..|uses| - 1]);
    }
  }

  /** A task's Arc, as far as weak references are concerned. */
  class TaskArc {
    var strong: nat
    var weak: nat
    /** Live raw wakers with the task vtable, and unread pipe messages, that name the task. */
    ghost var wakers: nat
    ghost var messages: nat
    /** References owned by a local variable of the code that is running. */
    ghost var owned: nat
    /** References whose message could not be written. */
    ghost var leaked: nat

    /** Every weak reference is accounted for. */
    ghost predicate Balanced()
      reads this
    {
      weak == wakers + messages + owned + leaked
    }

    /** Between calls no local variable owns anything. */
    ghost predicate Valid()
      reads this
    {
      Balanced() && owned == 0
    }

    ghost function Observed(): Counts
      reads this
    {
      Counts(strong, wakers, messages, leaked)
    }

    /** `Arc::new_cyclic`: the task is born with the waker that its polls will use. */
    constructor ()
      ensures Valid() && weak == 1 && Observed() == Counts(1, 1, 0, 0)
    {
      strong, weak := 1, 1;
      wakers, messages, owned, leaked := 1, 0, 0, 0;
    }

    // -------------------------------------------------------------- conversions

    /** Weak::from_raw of a waker's pointer, and of a message's. */
    ghost method FromWaker()
      requires Balanced() && wakers > 0
      modifies this`wakers, this`owned
      ensures Balanced() && wakers == old(wakers) - 1 && owned == old(owned) + 1
    {
      wakers, owned := wakers - 1, owned + 1;
    }

    ghost method FromMessage()
      requires Balanced() && messages > 0
      modifies this`messages, this`owned
      ensures Balanced() && messages == old(messages) - 1 && owned == old(owned) + 1
    {
      messages, owned := messages - 1, owned + 1;
    }

    /** Weak::into_raw: the reference lives on in a waker. */
    ghost method IntoWaker()
      requires Balanced() && owned > 0
      modifies this`wakers, this`owned
      ensures Balanced() && wakers == old(wakers) + 1 && owned == old(owned) - 1
    {
      wakers, owned := wakers + 1, owned - 1;
    }

    /** Weak::into_raw followed by the write: in a message, or nowhere if the pipe is closed. */
    ghost method IntoMessage(written: bool)
      requires Balanced() && owned > 0
      modifies this`messages, this`leaked, this`owned
      ensures Balanced() && owned == old(owned) - 1
      ensures messages == old(messages) + (if written then 1 else 0)
      ensures leaked == old(leaked) + (if written then 0 else 1)
    {
      owned := owned - 1;
      if written {
        messages := messages + 1;
      } else {
        leaked := leaked + 1;
      }
    }

    /** Arc::downgrade and Weak::clone make a reference; dropping one takes it away. */
    method NewWeak()
      requires Balanced()
      modifies this`weak, this`owned
      ensures Balanced() && weak == old(weak) + 1 && owned == old(owned) + 1
    {
      weak, owned := weak + 1, owned + 1;
    }

    method DropWeak()
      requires Balanced() && owned > 0
      modifies this`weak, this`owned
      ensures Balanced() && weak == old(weak) - 1 && owned == old(owned) - 1
    {
      weak, owned := weak - 1, owned - 1;
    }

    // -------------------------------------------------------------- the vtable

    /** `clone`: a second waker while the task is alive, else one with the no-op vtable. */
    method Clone() returns (isTask: bool)
      requires Valid() && wakers > 0
      modifies this
      ensures Valid() && strong == old(strong) && messages == old(messages) && leaked == old(leaked)
      ensures isTask == (strong > 0) && wakers == old(wakers) + (if isTask then 1 else 0)
    {
      FromWaker();
      isTask := strong > 0;
      if isTask {
        NewWeak();
        IntoWaker();
      }
      IntoWaker();
    }

    /** `wake`: a task of another thread's executor gets a message that carries a reference of its own. */
    method Wake(remote: bool, written: bool)
      requires Balanced()
      modifies this`weak, this`owned, this`messages, this`leaked
      ensures Balanced() && owned == old(owned)
      ensures messages == old(messages) + (if strong > 0 && remote && written then 1 else 0)
      ensures leaked == old(leaked) + (if strong > 0 && remote && !written then 1 else 0)
    {
      if strong > 0 {
        if remote {
          NewWeak();
          IntoMessage(written);
        }
      }
    }

    method WakeByVal(remote: bool, written: bool)
      requires Valid() && wakers > 0
      modifies this
      ensures Valid() && strong == old(strong) && wakers == old(wakers) - 1
      ensures messages == old(messages) + (if strong > 0 && remote && written then 1 else 0)
      ensures leaked == old(leaked) + (if strong > 0 && remote && !written then 1 else 0)
    {
      FromWaker();
      Wake(remote, written);
      DropWeak();
    }

    method WakeByRef(remote: bool, written: bool)
      requires Valid() && wakers > 0
      modifies this
      ensures Valid() && strong == old(strong) && wakers == old(wakers)
      ensures messages == old(messages) + (if strong > 0 && remote && written then 1 else 0)
      ensures leaked == old(leaked) + (if strong > 0 && remote && !written then 1 else 0)
    {
      FromWaker();
      Wake(remote, written);
      IntoWaker();
    }

    method Drop()
      requires Valid() && wakers > 0
      modifies this
      ensures Valid() && strong == old(strong) && messages == old(messages) && leaked == old(leaked)
      ensures wakers == old(wakers) - 1
    {
      FromWaker();
      DropWeak();
    }

    // -------------------------------------------------------------- the executor's side

    /** An fd event borrows the stored waker's reference; true if the task is alive. */
    method DeliverEvent() returns (alive: bool)
      requires Valid() && wakers > 0
      modifies this
      ensures Valid() && strong == old(strong) && wakers == old(wakers) && messages == old(messages) && leaked == old(leaked)
      ensures alive == (strong > 0)
    {
      FromWaker();
      alive := strong > 0;
      IntoWaker();
    }

    /** `wake_from_pipe` consumes the message's reference; true if the task is alive. */
    method ReadMessage() returns (alive: bool)
      requires Valid() && messages > 0
      modifies this
      ensures Valid() && strong == old(strong) && wakers == old(wakers) && messages == old(messages) - 1 && leaked == old(leaked)
      ensures alive == (strong > 0)
    {
      FromMessage();
      alive := strong > 0;
      DropWeak();
    }

    // -------------------------------------------------------------- whole runs

    method Perform(u: Use)
      requires Valid() && Possible(Observed(), u)
      modifies this
      ensures Valid() && Observed() == After(old(Observed()), u)
    {
      match u {
        case Cloning => var _ := Clone();
        case WakingByVal(remote, written) => WakeByVal(remote, written);
        case WakingByRef(remote, written) => WakeByRef(remote, written);
        case Dropping => Drop();
        case Event => var _ := DeliverEvent();
        case Reading => var _ := ReadMessage();
        case Owners(n) => strong := n;
      }
    }

    /**
     * Any mix of uses: the weak count is the live wakers plus the unread messages,
     * as long as every write to the pipe succeeds.
     */
    method PerformAll(uses: seq<Use>)
      requires Valid() && leaked == 0 && PossibleAll(Observed(), uses)
      modifies this
      ensures Valid() && Observed() == AfterAll(old(Observed()), uses)
      ensures WritesSucceed(uses) ==> weak == wakers + messages
    {
      ghost var c := Observed();
      for i := 0 to |uses|
        invariant Valid() && PossibleAll(c, uses[..i]) && Observed() == AfterAll(c, uses[..i])
      {
        PrefixPossible(c, uses, i + 1);
        assert uses[..i + 1][..i] == uses[..i];
        Perform(uses[i]);
      }
      assert uses[..|uses|] == uses;
      if WritesSucceed(uses) {
        NothingLeaks(c, uses);
      }
    }
  }
}
