/**
 * The state of one thread's executor together with the kernel objects it
 * depends on, and the effect of each operation on it.
 */
module ExecState {
  import opened Types
  import opened QueueSpec

  type FdId = nat

  // ---------------------------------------------------------------- data

  /** Indices of the executor's four queues. */
  const HIGH := 0
  const NORMAL := 1
  const LOW := 2
  const SLEEP := 3

  type Queues = qs: seq<seq<TaskId>> | |qs| == 4 witness [[], [], [], []]

  function Rank(p: Priority): (q: nat)
    ensures q < SLEEP
  {
    match p
    case High => HIGH
    case Normal => NORMAL
    case Low => LOW
  }

  /** EPOLLIN, EPOLLOUT, and the always-reported EPOLLHUP/EPOLLERR. */
  datatype Flag = In | Out | Hup

  /** Only a waker with the task vtable lets an fd event enqueue a task. */
  datatype Waker = Noop | TaskWaker(task: TaskId) | OtherWaker

  /** A message in the wake-up pipe: a task address, or null for `block_on`. */
  datatype Message = Null | WakeUp(task: TaskId)

  const BURST_LIMIT: nat := 20

  /**
   * A registered file descriptor: its `EpollWaker` (`cache`, `burst`, `waker`)
   * and the kernel's side of the registration.  `ready` is the current poll
   * mask restricted to the registered interest; `edge` says that the
   * registration is on the epoll instance's ready list.
   */
  datatype Fd = Fd(interest: set<Flag>, cache: set<Flag>, burst: nat, waker: Waker,
                   ready: set<Flag>, edge: bool)

  /** One entry of the array filled by epoll_wait. */
  datatype Report = PipeReport | FdReport(fd: FdId, flags: set<Flag>)

  /**
   * A task: its strong count, what `ExecutorTask` stores, and what has happened
   * to it so far, which nothing in the executor reads:
   *   aborted    its handle called abort
   *   late       it was linked when its poll returned Ready
   *   owed       it was woken since its last poll began, and no abort took the wake back
   *   pendingOn  fds whose latest poll by the task, within the task's latest
   *              poll, returned Pending for want of an event
   *   missed     those of them that had an event cached when the task aborted itself
   *              during its latest poll
   *   returned   values its future produced
   *   taken      values its handle gave out
   */
  datatype Task = Task(priority: Priority, strong: nat, completed: bool, handle: bool,
                       handleWaker: Waker, output: Option<int>, past: Past)

  datatype Past = Past(aborted: bool, late: bool, owed: bool, pendingOn: set<FdId>, missed: set<FdId>,
                       returned: seq<int>, taken: seq<int>)

  /** What `spawn` makes: one reference, for the handle. */
  function NewTask(p: Priority): Task {
    Task(p, 1, false, true, Noop, None, Past(false, false, false, {}, {}, [], []))
  }

  datatype QueueOp = Pushed(task: TaskId, queue: nat) | Popped(task: TaskId, queue: nat) | Released(task: TaskId)

  /**
   * What has happened to the executor so far; nothing in it reads this.
   *   log        the queue operations; `where` is the queue each linked task is in
   *   sent, received   messages written to and read from the wake-up pipe
   *   lateDrop   an Fd of an earlier executor was dropped on this one
   */
  datatype History = History(log: seq<QueueOp>, where: map<TaskId, nat>,
                             sent: seq<Message>, received: seq<Message>, lateDrop: bool)

  datatype Exec = Exec(queues: Queues, tasks: map<TaskId, Task>, running: Option<TaskId>,
                       shutdown: bool, buffer: nat, pipe: seq<Message>, fds: map<FdId, Fd>,
                       hist: History)

  function Fresh(): Exec {
    Exec([[], [], [], []], map[], None, false, 1, [], map[], History([], map[], [], [], false))
  }

  /** `is_queued`: the task is linked in one of the queues. */
  predicate IsQueued(s: Exec, t: TaskId) {
    t in s.queues[HIGH] || t in s.queues[NORMAL] || t in s.queues[LOW] || t in s.queues[SLEEP]
  }

  ghost function SetTask(s: Exec, t: TaskId, x: Task): Exec {
    s.(tasks := s.tasks[t := x])
  }

  ghost function PushOn(s: Exec, t: TaskId, q: nat): Exec
    requires q < 4
  {
    s.(queues := Push(s.queues, q, t),
       hist := s.hist.(log := s.hist.log + [Pushed(t, q)], where := s.hist.where[t := q]))
  }

  // ---------------------------------------------------------------- waking

  /** Weak::upgrade succeeds while a strong reference is left. */
  predicate Upgradable(s: Exec, t: TaskId) { t in s.tasks && s.tasks[t].strong > 0 }

  /**
   * `enqueue` of a freshly upgraded reference.  The reference moves into the
   * queue, unless the task is already linked or has completed: then it is dropped.
   */
  ghost function WakeNow(s: Exec, t: TaskId): Exec {
    if !Upgradable(s, t) || s.tasks[t].completed then s
    else
      var x := s.tasks[t];
      PushOn(SetTask(s, t, x.(strong := x.strong + (if IsQueued(s, t) then 0 else 1),
                              past := x.past.(owed := true))),
             t, Rank(x.priority))
  }

  /** `wake_from_pipe`: reads exactly one message. */
  ghost function ReadPipe(s: Exec): Exec
    requires s.pipe != []
  {
    var m := s.pipe[0];
    var s1 := s.(pipe := s.pipe[1..], hist := s.hist.(received := s.hist.received + [m]));
    match m
    case Null => s1
    case WakeUp(t) => WakeNow(s1, t)
  }

  ghost function SetFd(s: Exec, fd: FdId, f: Fd): Exec {
    s.(fds := s.fds[fd := f])
  }

  /** One fd event: dropped if already cached, else cached and its task enqueued. */
  ghost function DeliverFd(s: Exec, fd: FdId, flags: set<Flag>): Exec
    requires fd in s.fds
  {
    var f := s.fds[fd];
    if flags <= f.cache then SetFd(s, fd, f.(edge := false))
    else
      var s1 := SetFd(s, fd, f.(edge := false, cache := f.cache + flags));
      if f.waker.TaskWaker? then WakeNow(s1, f.waker.task) else s1
  }

  /** The kernel may put this entry into the array. */
  predicate ReportOk(s: Exec, r: Report) {
    match r
    case PipeReport => s.pipe != []
    case FdReport(fd, flags) => fd in s.fds && s.fds[fd].edge && flags == s.fds[fd].ready && flags != {}
  }

  /**
   * The arrays epoll_wait may return: any selection of what is ready, in any
   * order, that fits the buffer.  With an empty buffer the call returns at once.
   */
  predicate ReportsOk(s: Exec, reports: seq<Report>) {
    && |reports| <= s.buffer
    && (forall i :: 0 <= i < |reports| ==> ReportOk(s, reports[i]))
    && (forall i, j :: 0 <= i < j < |reports| ==> reports[i] != reports[j])
  }

  ghost function Process(s: Exec, r: Report): Exec
    requires ReportOk(s, r)
  {
    match r
    case PipeReport => ReadPipe(s)
    case FdReport(fd, flags) => DeliverFd(s, fd, flags)
  }

  lemma ProcessKeepsReports(s: Exec, reports: seq<Report>)
    requires ReportsOk(s, reports) && reports != []
    ensures ReportsOk(Process(s, reports[0]), reports[1..])
  {
    var s' := Process(s, reports[0]);
    forall i | 0 <= i < |reports[1..]| ensures ReportOk(s', reports[1..][i]) {
      assert reports[0] != reports[i + 1] && ReportOk(s, reports[i + 1]);
    }
  }

  /** `epoll_wait`, given what the kernel reports ([] also covers EINTR). */
  ghost function EpollWait(s: Exec, reports: seq<Report>): Exec
    requires ReportsOk(s, reports)
    decreases |reports|
  {
    if reports == [] then s
    else
      ProcessKeepsReports(s, reports);
      EpollWait(Process(s, reports[0]), reports[1..])
  }

  /**
   * `task_waker::wake` on the executor's own thread.  A task that wakes itself
   * while it is polled has the executor check for events first.
   */
  ghost function WakeLocal(s: Exec, t: TaskId, reports: seq<Report>): Exec
    requires ReportsOk(s, reports)
  {
    if !Upgradable(s, t) then s
    else WakeNow(if s.running == Some(t) then EpollWait(s, reports) else s, t)
  }

  ghost function WakeBy(s: Exec, w: Waker, reports: seq<Report>): Exec
    requires ReportsOk(s, reports)
  {
    if w.TaskWaker? then WakeLocal(s, w.task, reports) else s
  }

  // ---------------------------------------------------------------- tasks

  /** `spawn`: one reference moves into the Handle, its clone is enqueued. */
  ghost function Spawn(s: Exec, t: TaskId, p: Priority): Exec
    requires t !in s.tasks
  {
    WakeNow(SetTask(s, t, NewTask(p)), t)
  }

  function Less(n: nat): nat { if n == 0 then 0 else n - 1 }

  /** The fds that `t` waits for and has an event cached for. */
  function Cached(s: Exec, t: TaskId): set<FdId>
    requires t in s.tasks
  {
    set fd | fd in s.tasks[t].past.pendingOn && fd in s.fds && s.fds[fd].waker == TaskWaker(t) && s.fds[fd].cache != {}
  }

  /** What an abort does to the history: a wake still in the pipe is not taken back. */
  function AbortedPast(s: Exec, t: TaskId): Past
    requires t in s.tasks
  {
    var p := s.tasks[t].past;
    p.(aborted := true, owed := p.owed && WakeUp(t) in s.pipe,
       missed := if s.running == Some(t) then Cached(s, t) else p.missed)
  }

  /** `Handle::abort`: unlinks the task, drops the queue's reference, marks nothing. */
  ghost function Abort(s: Exec, t: TaskId): Exec
    requires t in s.tasks
  {
    var x := s.tasks[t];
    SetTask(s, t, x.(strong := if IsQueued(s, t) then Less(x.strong) else x.strong, past := AbortedPast(s, t)))
      .(queues := Unlink(s.queues, t),
        hist := s.hist.(log := s.hist.log + [Released(t)], where := s.hist.where - {t}))
  }

  ghost function DropHandle(s: Exec, t: TaskId): Exec
    requires t in s.tasks
  {
    SetTask(s, t, s.tasks[t].(handle := false, strong := Less(s.tasks[t].strong)))
  }

  predicate Runnable(s: Exec) {
    s.queues[HIGH] != [] || s.queues[NORMAL] != [] || s.queues[LOW] != []
  }

  function TopQueue(s: Exec): (q: nat)
    requires Runnable(s)
    ensures q < SLEEP && s.queues[q] != []
    ensures forall j :: 0 <= j < q ==> s.queues[j] == []
  {
    if s.queues[HIGH] != [] then HIGH else if s.queues[NORMAL] != [] then NORMAL else LOW
  }

  /** `highest_priority_runnable_task`, and the poll of that task begins. */
  ghost function PopRun(s: Exec): Exec
    requires Runnable(s)
  {
    var q := TopQueue(s);
    var t := s.queues[q][0];
    var s1 := s.(queues := Pop(s.queues, q), running := Some(t),
                 hist := s.hist.(log := s.hist.log + [Popped(t, q)], where := s.hist.where - {t}));
    if t in s.tasks
    then SetTask(s1, t, s.tasks[t].(past := s.tasks[t].past.(owed := false, pendingOn := {}, missed := {})))
    else s1
  }

  /** A task is being polled. */
  predicate Busy(s: Exec) { s.running.Some? && s.running.value in s.tasks }

  /** `run_task` after Poll::Pending: an unlinked task goes to sleep, a linked one has yielded. */
  ghost function FinishPending(s: Exec): Exec
    requires Busy(s)
  {
    var t := s.running.value;
    if IsQueued(s, t)
    then SetTask(s, t, s.tasks[t].(strong := Less(s.tasks[t].strong))).(running := None)
    else PushOn(s, t, SLEEP).(running := None)
  }

  /** The first half of completion: `Inner::poll` stores the output and the handle's waker is woken. */
  ghost function StoreOutput(s: Exec, v: int, reports: seq<Report>): Exec
    requires Busy(s) && ReportsOk(s, reports)
  {
    var t := s.running.value;
    var x := s.tasks[t];
    WakeBy(SetTask(s, t, x.(output := Some(v), handleWaker := Noop,
                            past := x.past.(returned := x.past.returned + [v]))),
           x.handleWaker, reports)
  }

  /** The second half: the task is marked and the executor's reference dropped. */
  ghost function MarkCompleted(s: Exec): Exec
    requires Busy(s)
  {
    var t := s.running.value;
    var x := s.tasks[t];
    SetTask(s, t, x.(completed := true, strong := Less(x.strong),
                     past := x.past.(late := x.past.late || IsQueued(s, t)))).(running := None)
  }

  ghost function FinishReady(s: Exec, v: int, reports: seq<Report>): Exec
    requires Busy(s) && ReportsOk(s, reports)
  {
    var r := StoreOutput(s, v, reports);
    if Busy(r) then MarkCompleted(r) else r
  }

  /** What `Handle::poll` (and `Handle::result`, when it finds an output) leaves of the task. */
  function HandlePolled(x: Task, w: Waker): Task {
    match x.output
    case Some(v) => x.(output := None, past := x.past.(taken := x.past.taken + [v]))
    case None => x.(handleWaker := w)
  }

  // ---------------------------------------------------------------- file descriptors

  /** How the caller's I/O closure ended, once EINTR stopped; `after` is what is still ready. */
  datatype Io = WouldBlock | Done(after: set<Flag>)

  datatype PollResult = PollPending | PollYield | PollReady

  /** What `EpollWaker::poll_with` returns. */
  function PollResultOf(f: Fd, io: Io): PollResult {
    if f.cache == {} then PollPending
    else if f.burst >= BURST_LIMIT then PollYield
    else if io.WouldBlock? then PollPending
    else PollReady
  }

  /** What `EpollWaker::poll_with` leaves behind. */
  function PolledFd(f: Fd, w: Waker, io: Io): Fd {
    match PollResultOf(f, io)
    case PollPending => f.(burst := 0, waker := w, cache := {})
    case PollYield => f.(burst := 0)
    case PollReady => f.(burst := f.burst + 1, ready := if io.Done? then io.after else f.ready)
  }

  /**
   * The kernel's side of a poll that calls the closure: an operation in
   * direction `dir` reports WouldBlock only when that direction is not ready
   * (and the peer has not hung up); a finished operation can use up readiness
   * in its own direction only.
   */
  predicate IoOk(f: Fd, dir: Flag, io: Io) {
    match io
    case WouldBlock => dir !in f.ready && Hup !in f.ready
    case Done(after) => after <= f.ready && f.ready - after <= {dir}
  }

  /** `Fd::poll_with` and `Fd::poll_with_mut`: a yield wakes the polling waker itself. */
  ghost function PollFd(s: Exec, fd: FdId, w: Waker, io: Io, reports: seq<Report>): Exec
    requires fd in s.fds && ReportsOk(s, reports)
  {
    var f := s.fds[fd];
    var s1 := SetFd(s, fd, PolledFd(f, w, io));
    match PollResultOf(f, io)
    case PollPending =>
      if w.TaskWaker? && w.task in s.tasks then NotePending(s1, w.task, PendingPast(s, w.task, fd)) else s1
    case PollYield =>
      SetFdKeepsReports(s, reports, fd, PolledFd(f, w, io));
      WakeBy(s1, w, reports)
    case PollReady =>
      if Busy(s)
      then NotePending(s1, s.running.value, ReadyPast(s, s.running.value, fd)) else s1
  }

  /** The waker of `t` is stored and the cache empty: nothing is missed; the task waits if it polled for itself. */
  function PendingPast(s: Exec, t: TaskId, fd: FdId): Past
    requires t in s.tasks
  {
    var p := s.tasks[t].past;
    p.(pendingOn := if s.running == Some(t) then p.pendingOn + {fd} else p.pendingOn, missed := p.missed - {fd})
  }

  function ReadyPast(s: Exec, t: TaskId, fd: FdId): Past
    requires t in s.tasks
  {
    s.tasks[t].past.(pendingOn := s.tasks[t].past.pendingOn - {fd})
  }

  ghost function NotePending(s: Exec, t: TaskId, p: Past): Exec
    requires t in s.tasks
  {
    SetTask(s, t, s.tasks[t].(past := p))
  }

  lemma SetFdKeepsReports(s: Exec, reports: seq<Report>, fd: FdId, f: Fd)
    requires ReportsOk(s, reports) && fd in s.fds
    requires f.ready == s.fds[fd].ready && f.edge == s.fds[fd].edge
    ensures ReportsOk(SetFd(s, fd, f), reports)
  {
    forall i | 0 <= i < |reports| ensures ReportOk(SetFd(s, fd, f), reports[i]) {
      assert ReportOk(s, reports[i]);
    }
  }

  /**
   * `Fd::new` from `epoll_add` on.  A failed registration drops the half-built
   * Fd, whose destructor takes the buffer slot back.
   */
  ghost function NewFd(s: Exec, fd: FdId, interest: set<Flag>, ready: set<Flag>, registered: bool): Exec {
    if !registered then PopBuffer(s.(buffer := s.buffer + 1))
    else SetFd(s.(buffer := s.buffer + 1), fd,
               Fd(interest, interest * {In, Out}, 0, Noop, ready, ready != {}))
  }

  ghost function PopBuffer(s: Exec): Exec {
    s.(buffer := if s.buffer == 0 then 0 else s.buffer - 1)
  }

  ghost function DropFd(s: Exec, fd: FdId): Exec {
    PopBuffer(s.(fds := s.fds - {fd}))
  }

  // ---------------------------------------------------------------- effects

  /**
   * Everything user code on the executor's thread, the kernel and other threads
   * can do between two steps of the executor's own loop.
   */
  datatype Effect =
    | DoSpawn(t: TaskId, p: Priority)
    | DoWake(t: TaskId, reports: seq<Report>)
    | DoAbort(t: TaskId)
    | DoDropHandle(t: TaskId)
    | DoPollHandle(t: TaskId, w: Waker)
    | DoNewFd(fd: FdId, interest: set<Flag>, ready: set<Flag>, registered: bool)
    | DoDropFd(fd: FdId)
    | DoDropForeignFd
    | DoPollFd(fd: FdId, dir: Flag, w: Waker, io: Io, reports: seq<Report>)
    | DoShutdown
    | Arrive(fd: FdId, flags: set<Flag>)
    | Fade(fd: FdId, flags: set<Flag>)
    | Settle(fd: FdId)
    | RemoteWake(t: TaskId)
    | RemoteNull

  /** Effects of the kernel and of other threads; they can happen at any moment. */
  predicate External(e: Effect) {
    e.Arrive? || e.Fade? || e.Settle? || e.RemoteWake? || e.RemoteNull?
  }

  predicate Allowed(s: Exec, e: Effect) {
    match e
    case DoSpawn(t, p) => t !in s.tasks
    case DoWake(t, reports) => ReportsOk(s, reports)
    case DoAbort(t) => t in s.tasks && s.tasks[t].handle
    case DoDropHandle(t) => t in s.tasks && s.tasks[t].handle
    case DoPollHandle(t, w) => t in s.tasks && s.tasks[t].handle
    case DoNewFd(fd, interest, ready, registered) => fd !in s.fds && ready <= interest + {Hup}
    case DoDropFd(fd) => fd in s.fds
    case DoDropForeignFd => true
    case DoPollFd(fd, dir, w, io, reports) =>
      && fd in s.fds && ReportsOk(s, reports)
      && dir in s.fds[fd].interest * {In, Out}
      && IoOk(s.fds[fd], dir, io)
    case DoShutdown => true
    case Arrive(fd, flags) => fd in s.fds && flags <= s.fds[fd].interest + {Hup}
    case Fade(fd, flags) => fd in s.fds
    case Settle(fd) => fd in s.fds && s.fds[fd].ready == {}
    case RemoteWake(t) => true
    case RemoteNull => true
  }

  ghost function Send(s: Exec, m: Message): Exec {
    s.(pipe := s.pipe + [m], hist := s.hist.(sent := s.hist.sent + [m]))
  }

  ghost function Apply(s: Exec, e: Effect): Exec
    requires Allowed(s, e)
  {
    match e
    case DoSpawn(t, p) => Spawn(s, t, p)
    case DoWake(t, reports) => WakeLocal(s, t, reports)
    case DoAbort(t) => Abort(s, t)
    case DoDropHandle(t) => DropHandle(s, t)
    case DoPollHandle(t, w) => SetTask(s, t, HandlePolled(s.tasks[t], w))
    case DoNewFd(fd, interest, ready, registered) => NewFd(s, fd, interest, ready, registered)
    case DoDropFd(fd) => DropFd(s, fd)
    case DoDropForeignFd => PopBuffer(s.(hist := s.hist.(lateDrop := true)))
    case DoPollFd(fd, dir, w, io, reports) => PollFd(s, fd, w, io, reports)
    case DoShutdown => s.(shutdown := true)
    case Arrive(fd, flags) => SetFd(s, fd, s.fds[fd].(ready := s.fds[fd].ready + flags, edge := true))
    case Fade(fd, flags) => SetFd(s, fd, s.fds[fd].(ready := s.fds[fd].ready - flags))
    case Settle(fd) => SetFd(s, fd, s.fds[fd].(edge := false))
    case RemoteWake(t) =>
      if !Upgradable(s, t) then s
      else if s.tasks[t].completed then Send(s, WakeUp(t))
      else Send(SetTask(s, t, s.tasks[t].(past := s.tasks[t].past.(owed := true))), WakeUp(t))
    case RemoteNull => Send(s, Null)
  }
}
