/**
 * Bursts: how many results in a row an fd gives before it makes its task yield.
 */
module Bursts {
  import opened Types
  import opened ExecState
  import opened ExecInv
  import opened RunLoop

  // ---------------------------------------------------------------- sequences of calls

  /** One call of `poll_with`, after events `events` have reached the cache. */
  datatype Call = Call(events: set<Flag>, w: Waker, io: Io)

  ghost function Told(f: Fd, c: Call): Fd { f.(cache := f.cache + c.events) }

  ghost function AfterCalls(f: Fd, calls: seq<Call>): Fd {
    if calls == [] then f
    else
      var c := calls[|calls| - 1];
      PolledFd(Told(AfterCalls(f, calls[..|calls| - 1]), c), c.w, c.io)
  }

  /** What the `i`-th call returns. */
  ghost function ResultAt(f: Fd, calls: seq<Call>, i: nat): PollResult
    requires i < |calls|
  {
    PollResultOf(Told(AfterCalls(f, calls[..i]), calls[i]), calls[i].io)
  }

  /** The number of results since the last Pending or yield, or since the beginning, where it was `f.burst`. */
  ghost function Streak(f: Fd, calls: seq<Call>): nat {
    if calls == [] then f.burst
    else if ResultAt(f, calls, |calls| - 1) == PollReady then Streak(f, calls[..|calls| - 1]) + 1
    else 0
  }

  /** That is what `burst` counts, over any sequence of calls with any events between them. */
  lemma {:induction false} BurstIsStreak(f: Fd, calls: seq<Call>)
    ensures AfterCalls(f, calls).burst == Streak(f, calls)
  {
    if calls != [] {
      BurstIsStreak(f, calls[..|calls| - 1]);
    }
  }

  lemma {:induction false} ReadyCallsCount(f: Fd, calls: seq<Call>)
    requires forall i :: 0 <= i < |calls| ==> ResultAt(f, calls, i) == PollReady
    ensures AfterCalls(f, calls).burst == f.burst + |calls|
  {
    if calls != [] {
      var n := |calls| - 1;
      forall i | 0 <= i < n ensures ResultAt(f, calls[..n], i) == PollReady {
        assert calls[..n][..i] == calls[..i];
        assert ResultAt(f, calls, i) == PollReady;
      }
      ReadyCallsCount(f, calls[..n]);
      assert ResultAt(f, calls, n) == PollReady;
    }
  }

  /** An always-ready fd cannot starve other tasks: 21 calls in a row include a Pending or a yield. */
  lemma BurstIsBounded(f: Fd, calls: seq<Call>)
    requires |calls| == 21
    ensures exists i :: 0 <= i < |calls| && ResultAt(f, calls, i) != PollReady
  {
    var n := 20;
    if forall i :: 0 <= i < n ==> ResultAt(f, calls, i) == PollReady {
      forall i | 0 <= i < n ensures ResultAt(f, calls[..n], i) == PollReady {
        assert calls[..n][..i] == calls[..i];
        assert ResultAt(f, calls, i) == PollReady;
      }
      ReadyCallsCount(f, calls[..n]);
      assert ResultAt(f, calls, n) != PollReady;
    }
  }

  /** From burst zero an fd that has something cached gives one result per finished I/O. */
  lemma {:induction false} FreshBurst(f: Fd, calls: seq<Call>)
    requires f.burst == 0 && |calls| <= 20 && (calls != [] ==> Told(f, calls[0]).cache != {})
    requires forall i :: 0 <= i < |calls| ==> calls[i].io.Done?
    ensures forall i :: 0 <= i < |calls| ==> ResultAt(f, calls, i) == PollReady
    ensures AfterCalls(f, calls).burst == |calls|
    ensures calls != [] ==> AfterCalls(f, calls).cache != {}
  {
    if calls != [] {
      var n := |calls| - 1;
      FreshBurst(f, calls[..n]);
      forall i | 0 <= i < n ensures ResultAt(f, calls, i) == PollReady {
        assert calls[..n][..i] == calls[..i];
        assert ResultAt(f, calls[..n], i) == PollReady;
      }
      if n > 0 {
        StillCached(AfterCalls(f, calls[..n]), calls[n]);
      }
    }
  }

  lemma StillCached(f: Fd, c: Call)
    requires f.cache != {}
    ensures Told(f, c).cache != {}
  {
    assert f.cache <= Told(f, c).cache;
  }

  lemma {:induction false} CallsInTwo(f: Fd, a: seq<Call>, b: seq<Call>)
    ensures AfterCalls(f, a + b) == AfterCalls(AfterCalls(f, a), b)
  {
    if b == [] {
      assert a + b == a;
    } else {
      CallsInTwo(f, a, b[..|b| - 1]);
      assert (a + b)[..|a + b| - 1] == a + b[..|b| - 1];
    }
  }

  /**
   * A burst is not cut short: after a call that returned Pending or yielded, whatever
   * was before it, the next twenty calls whose I/O finishes all give a result, from the
   * moment that something is cached again; and the one after them yields.
   */
  lemma BurstIsFull(f: Fd, pre: seq<Call>, next: seq<Call>)
    requires pre != [] && ResultAt(f, pre, |pre| - 1) != PollReady
    requires 0 < |next| <= 20 && (forall i :: 0 <= i < |next| ==> next[i].io.Done?)
    requires Told(AfterCalls(f, pre), next[0]).cache != {}
    ensures forall i :: |pre| <= i < |pre + next| ==> ResultAt(f, pre + next, i) == PollReady
    ensures |next| == 20 ==> forall c :: ResultAt(f, pre + next + [c], |pre + next|) == PollYield
  {
    var g := AfterCalls(f, pre);
    BurstIsStreak(f, pre);
    FreshBurst(g, next);
    forall i | |pre| <= i < |pre + next| ensures ResultAt(f, pre + next, i) == PollReady {
      var k := i - |pre|;
      assert (pre + next)[..i] == pre + next[..k];
      CallsInTwo(f, pre, next[..k]);
      assert ResultAt(g, next, k) == PollReady;
    }
    if |next| == 20 {
      forall c ensures ResultAt(f, pre + next + [c], |pre + next|) == PollYield {
        assert (pre + next + [c])[..|pre + next|] == pre + next;
        CallsInTwo(f, pre, next);
        StillCached(AfterCalls(g, next), c);
      }
    }
  }

  // ---------------------------------------------------------------- runs

  /** What a run says of an fd: results in a row since it was registered or did not give one, and who waits for it. */
  datatype Story = Story(inARow: nat, waiting: Waker)

  /** What an action of a run adds to the story of `fd`; None if it is not registered. */
  ghost function StoryAfter(m: Machine, a: Action, fd: FdId, h: Option<Story>): Option<Story>
    requires Enabled(m, a)
  {
    if a.Replace? then None
    else if !a.Do? then h
    else if a.e == DoDropFd(fd) then None
    else if a.e.DoNewFd? && a.e.fd == fd then (if a.e.registered then Some(Story(0, Noop)) else h)
    else if a.e.DoPollFd? && a.e.fd == fd && h.Some? then
      match PollResultOf(m.exec.fds[fd], a.e.io)
      case PollReady => Some(h.value.(inARow := h.value.inARow + 1))
      case PollYield => Some(h.value.(inARow := 0))
      case PollPending => Some(Story(0, a.e.w))
    else h
  }

  ghost function StoryOf(m: Machine, acts: seq<Action>, fd: FdId, h: Option<Story>): Option<Story>
    requires Valid(m, acts)
    decreases |acts|
  {
    if acts == [] then h else StoryOf(Next(m, acts[0]), acts[1..], fd, StoryAfter(m, acts[0], fd, h))
  }

  ghost predicate Tells(s: Exec, fd: FdId, h: Option<Story>) {
    && (fd in s.fds <==> h.Some?)
    && (fd in s.fds && h.Some? ==> s.fds[fd].burst == h.value.inARow && s.fds[fd].waker == h.value.waiting)
  }

  /** Events leave it alone. */
  ghost predicate SameStory(s: Exec, r: Exec, fd: FdId) {
    && (fd in r.fds <==> fd in s.fds)
    && (fd in s.fds && fd in r.fds ==> r.fds[fd].burst == s.fds[fd].burst && r.fds[fd].waker == s.fds[fd].waker)
  }

  lemma {:induction false} EventsKeepStory(s: Exec, reports: seq<Report>, fd: FdId)
    requires ReportsOk(s, reports)
    ensures SameStory(s, EpollWait(s, reports), fd)
    decreases |reports|
  {
    if reports != [] {
      assert ReportOk(s, reports[0]);
      ProcessKeepsReports(s, reports);
      assert SameStory(s, Process(s, reports[0]), fd);
      EventsKeepStory(Process(s, reports[0]), reports[1..], fd);
    }
  }

  lemma WakesKeepStory(s: Exec, w: Waker, reports: seq<Report>, fd: FdId)
    requires ReportsOk(s, reports)
    ensures SameStory(s, WakeBy(s, w, reports), fd)
  {
    EventsKeepStory(s, reports, fd);
  }

  lemma PollFdStory(m: Machine, e: Effect, fd: FdId, h: Option<Story>)
    requires Enabled(m, Do(e)) && e.DoPollFd? && Tells(m.exec, fd, h)
    ensures Tells(Apply(m.exec, e), fd, StoryAfter(m, Do(e), fd, h))
  {
    var s := m.exec;
    var f := PolledFd(s.fds[e.fd], e.w, e.io);
    if PollResultOf(s.fds[e.fd], e.io) == PollYield {
      SetFdKeepsReports(s, e.reports, e.fd, f);
      WakesKeepStory(SetFd(s, e.fd, f), e.w, e.reports, fd);
    }
  }

  lemma DoStory(m: Machine, e: Effect, fd: FdId, h: Option<Story>)
    requires Enabled(m, Do(e)) && Tells(m.exec, fd, h)
    ensures Tells(Apply(m.exec, e), fd, StoryAfter(m, Do(e), fd, h))
  {
    match e {
      case DoWake(t, reports) => WakesKeepStory(m.exec, TaskWaker(t), reports, fd);
      case DoPollFd(g, dir, w, io, reports) => PollFdStory(m, e, fd, h);
      case _ =>
    }
  }

  lemma ReadyKeepsStory(s: Exec, v: int, reports: seq<Report>, fd: FdId)
    requires Busy(s) && ReportsOk(s, reports)
    ensures SameStory(s, FinishReady(s, v, reports), fd)
  {
    var x := s.tasks[s.running.value];
    WakesKeepStory(SetTask(s, s.running.value, x.(output := Some(v), handleWaker := Noop,
                                                  past := x.past.(returned := x.past.returned + [v]))),
                   x.handleWaker, reports, fd);
  }

  lemma NextStory(m: Machine, a: Action, fd: FdId, h: Option<Story>)
    requires Enabled(m, a) && Tells(m.exec, fd, h)
    ensures Tells(Next(m, a).exec, fd, StoryAfter(m, a, fd, h))
  {
    match a {
      case Do(e) => DoStory(m, e, fd, h);
      case Ready(v, reports) => ReadyKeepsStory(m.exec, v, reports, fd);
      case CheckEvents(reports) => EventsKeepStory(m.exec, reports, fd);
      case Wait(reports) => EventsKeepStory(m.exec, reports, fd);
      case _ =>
    }
  }

  lemma {:induction false} RunStory(m: Machine, acts: seq<Action>, fd: FdId, h: Option<Story>)
    requires Valid(m, acts) && Tells(m.exec, fd, h)
    ensures Tells(Final(m, acts).exec, fd, StoryOf(m, acts, fd, h))
    decreases |acts|
  {
    if acts != [] {
      NextStory(m, acts[0], fd, h);
      RunStory(Next(m, acts[0]), acts[1..], fd, StoryAfter(m, acts[0], fd, h));
    }
  }

  /**
   * In every run: `burst` is the number of results that the fd has given since it was
   * registered, or last was Pending or yielded; and the stored waker is that of the last
   * poll which was Pending for want of an event, or the no-op waker if there was none.
   */
  lemma FdsTellTheirStory(acts: seq<Action>, fd: FdId)
    requires Valid(Initial(), acts)
    ensures Tells(Final(Initial(), acts).exec, fd, StoryOf(Initial(), acts, fd, None))
  {
    RunStory(Initial(), acts, fd, None);
  }
}
