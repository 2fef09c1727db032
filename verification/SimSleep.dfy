// A task in a sleep, or in a receive with a timeout, followed through a run: when,
// and whether, it is resumed.
module SimSleep {
  import opened Base
  import opened Nemesis
  import opened Tape
  import opened Queue
  import opened Sim
  import opened SimInvariant
  import opened SimTasks
  import opened SimDispatch

  function LastRead(d: Devices, node: NodeId): nat {
    GetOr(d.lastLocal, node, 0)
  }

  // ----- what a step leaves alone -----

  // Clocks are read, never set back or ahead.
  ghost predicate ClocksRead<L>(w: World<L>, w': World<L>) {
    forall node: NodeId ::
      LastRead(w'.devices, node) == LastRead(w.devices, node) || LastRead(w'.devices, node) == LocalNow(w, node)
  }

  // The events that wake task t: its polls, and its live timers.
  ghost predicate Wakes<L>(w: World<L>, t: TaskId, kind: EventKind) {
    || kind == PollTask(t)
    || (kind.TimerFire? && kind.timer in w.wakers.timers && w.wakers.timers[kind.timer] == t)
  }

  ghost predicate Holds<L>(w: World<L>, t: TaskId, node: NodeId, f: Fut<L>) {
    t in w.pool.tasks && w.pool.tasks[t].node == node && FutOf(w.pool, t) == Some(f)
  }

  ghost predicate KeepsTask<L>(w: World<L>, w': World<L>, t: TaskId) {
    && t in w.pool.tasks && t in w'.pool.tasks && w'.pool.tasks[t].node == w.pool.tasks[t].node
    && FutOf(w'.pool, t) == FutOf(w.pool, t)
  }

  ghost predicate KeepsTimers(k: Wakers, k': Wakers, t: TaskId) {
    forall id :: id in k.timers && k.timers[id] == t ==> id in k'.timers && k'.timers[id] == t
  }

  ghost predicate KeepsWakes<L>(w: World<L>, w': World<L>, t: TaskId) {
    forall e :: e in w.agenda.queue && Wakes(w, t, e.kind) ==> e in w'.agenda.queue
  }

  ghost predicate Undisturbed<L>(w: World<L>, w': World<L>, t: TaskId) {
    KeepsTask(w, w', t) && KeepsTimers(w.wakers, w'.wakers, t) && KeepsWakes(w, w', t)
  }

  ghost predicate Grows(a: Agenda, a': Agenda) {
    a'.now == a.now && forall e :: e in a.queue ==> e in a'.queue
  }

  lemma PushGrows(a: Agenda, time: nat, kind: EventKind)
    ensures Grows(a, Push(a, time, kind))
  {
    InsertMembers(a.queue, Event(time, a.seqno, kind));
  }

  lemma {:induction false} PushPollsGrows(a: Agenda, tasks: seq<TaskId>)
    ensures Grows(a, PushPolls(a, tasks))
    decreases tasks
  {
    if tasks != [] {
      PushGrows(a, a.now, PollTask(tasks[0]));
      PushPollsGrows(Push(a, a.now, PollTask(tasks[0])), tasks[1..]);
    }
  }

  // ----- another task's command -----

  lemma OthersTimer<L>(p: Prog<L>, w: World<L>, r: Running<L>, node: NodeId, t: TaskId)
    requires Inv(p, w) && Runs(w.pool, r, node) && r.task != t
    ensures KeepsTimers(w.wakers, CancelTimer(w.wakers, r.fut.timer), t)
  {
    assert FutOf(w.pool, r.task) == Some(r.fut);
  }

  lemma ArmGrows<L>(p: Prog<L>, w: World<L>, r: Running<L>, node: NodeId, deadline: nat, t: TaskId)
    requires TimersOk(w.pool, w.wakers.timers, w.wakers.nextTimer)
    ensures var w' := ArmTimer(w, r, node, deadline).0;
            && Grows(w.agenda, w'.agenda) && w'.pool == w.pool && w'.devices == w.devices
            && KeepsTimers(w.wakers, w'.wakers, t)
  {
    PushGrows(w.agenda, GlobalDeadline(w, node, deadline), TimerFire(w.wakers.nextTimer));
  }

  // What a command of task r may do to everybody else.
  ghost predicate Elsewhere<L>(w: World<L>, w': World<L>, t: TaskId) {
    && KeepsTask(w, w', t) && KeepsTimers(w.wakers, w'.wakers, t) && Grows(w.agenda, w'.agenda) && ClocksRead(w, w')
  }

  // The same, before the command parks or resumes its own task.
  ghost predicate Prepares<L>(w: World<L>, w': World<L>, t: TaskId) {
    && w'.pool == w.pool && KeepsTimers(w.wakers, w'.wakers, t) && Grows(w.agenda, w'.agenda)
    && ClocksRead(w, w')
  }

  lemma ContinueElsewhere<L>(w: World<L>, w': World<L>, r: Running<L>, local: L, t: TaskId)
    requires Prepares(w, w', t) && w.pool.current == Some(r) && t in w.pool.tasks && t != r.task
    ensures Elsewhere(w, Continue(w', r, local), t)
  {
    ClocksSame(w, w', Continue(w', r, local));
  }

  lemma ParkElsewhere<L>(w: World<L>, w': World<L>, r: Running<L>, node: NodeId, fut: Fut<L>, t: TaskId)
    requires Prepares(w, w', t) && w.pool.current == Some(r) && t in w.pool.tasks && t != r.task
    ensures Elsewhere(w, Park(w', r, node, fut), t)
  {
    ClocksSame(w, w', Park(w', r, node, fut));
  }

  lemma ClocksSame<L>(w: World<L>, w1: World<L>, w2: World<L>)
    requires ClocksRead(w, w1) && w2.devices == w1.devices
    ensures ClocksRead(w, w2)
  {
  }

  lemma ReadPrepares<L>(w: World<L>, node: NodeId, t: TaskId)
    ensures Prepares(w, ReadClock(w, node), t)
  {
  }

  lemma CancelPrepares<L>(p: Prog<L>, w: World<L>, w': World<L>, r: Running<L>, node: NodeId, t: TaskId)
    requires Inv(p, w) && Runs(w.pool, r, node) && r.task != t
    requires Prepares(w, w', t) && w'.wakers.timers == w.wakers.timers
    ensures Prepares(w, w'.(wakers := CancelTimer(w'.wakers, r.fut.timer)), t)
  {
    OthersTimer(p, w, r, node, t);
    ClocksSame(w, w', w'.(wakers := CancelTimer(w'.wakers, r.fut.timer)));
  }

  lemma ArmPrepares<L>(p: Prog<L>, w: World<L>, w': World<L>, r: Running<L>, node: NodeId, deadline: nat, t: TaskId)
    requires Prepares(w, w', t) && TimersOk(w.pool, w'.wakers.timers, w'.wakers.nextTimer)
    ensures Prepares(w, ArmTimer(w', r, node, deadline).0, t)
  {
    ArmGrows(p, w', r, node, deadline, t);
    ClocksSame(w, w', ArmTimer(w', r, node, deadline).0);
  }

  lemma SleepElsewhere<L>(p: Prog<L>, w: World<L>, r: Running<L>, node: NodeId, deadline: nat, resume: Reply -> L,
                          t: TaskId)
    requires Inv(p, w) && Runs(w.pool, r, node) && t in w.pool.tasks && t != r.task
    ensures Elsewhere(w, PollSleep(w, r, node, deadline, resume), t)
  {
    var read := ReadClock(w, node);
    ReadPrepares(w, node, t);
    if LocalNow(w, node) >= deadline {
      CancelPrepares(p, w, read, r, node, t);
      ContinueElsewhere(w, read.(wakers := CancelTimer(w.wakers, r.fut.timer)), r, resume(Nothing), t);
    } else {
      ArmPrepares(p, w, read, r, node, deadline, t);
      var (armed, timer) := ArmTimer(read, r, node, deadline);
      ParkElsewhere(w, armed, r, node, r.fut.(timer := timer), t);
    }
  }

  lemma ListenPrepares<L>(w: World<L>, w': World<L>, k: Wakers, t: TaskId)
    requires Prepares(w, w', t) && k.timers == w'.wakers.timers
    ensures Prepares(w, w'.(wakers := k), t)
  {
    ClocksSame(w, w', w'.(wakers := k));
  }

  lemma TakeElsewhere<L>(p: Prog<L>, w: World<L>, r: Running<L>, node: NodeId, resume: Reply -> L, t: TaskId)
    requires Inv(p, w) && Runs(w.pool, r, node) && t in w.pool.tasks && t != r.task && Inbox(w.wakers, node) != []
    ensures Elsewhere(w, TakeMessage(w, r, node, resume), t)
  {
    OthersTimer(p, w, r, node, t);
  }

  lemma RecvTimeoutElsewhere<L>(p: Prog<L>, w: World<L>, r: Running<L>, node: NodeId, duration: nat,
                                resume: Reply -> L, t: TaskId)
    requires Inv(p, w) && Runs(w.pool, r, node) && t in w.pool.tasks && t != r.task
    ensures Elsewhere(w, PollRecvTimeout(w, r, node, duration, resume), t)
  {
    if Inbox(w.wakers, node) != [] {
      TakeElsewhere(p, w, r, node, resume, t);
    } else {
      var local := LocalNow(w, node);
      var read := Listening(w, r, node);
      var deadline := if r.fut.deadline.Some? then r.fut.deadline.value else SatAdd(local, duration);
      ReadPrepares(w, node, t);
      ListenPrepares(w, ReadClock(w, node), read.wakers, t);
      if local >= deadline {
        var freed := read.(wakers := DropWaiter(read.wakers, node, r.task));
        ListenPrepares(w, read, freed.wakers, t);
        CancelPrepares(p, w, freed, r, node, t);
        ContinueElsewhere(w, freed.(wakers := CancelTimer(freed.wakers, r.fut.timer)), r, resume(TimedOut), t);
      } else {
        ArmPrepares(p, w, read, r, node, deadline, t);
        var (armed, timer) := ArmTimer(read, r, node, deadline);
        ParkElsewhere(w, armed, r, node, Fut(r.fut.local, true, timer, Some(deadline)), t);
      }
    }
  }

  lemma RecvElsewhere<L>(p: Prog<L>, w: World<L>, r: Running<L>, node: NodeId, resume: Reply -> L, t: TaskId)
    requires Inv(p, w) && Runs(w.pool, r, node) && t in w.pool.tasks && t != r.task
    ensures Elsewhere(w, PollRecv(w, r, node, resume), t)
  {
    if Inbox(w.wakers, node) != [] { TakeElsewhere(p, w, r, node, resume, t); }
  }

  lemma JoinElsewhere<L>(w: World<L>, r: Running<L>, node: NodeId, handle: TaskId, resume: Reply -> L, t: TaskId)
    requires w.pool.current == Some(r) && t in w.pool.tasks && t != r.task
    ensures Elsewhere(w, PollJoin(w, r, node, handle, resume), t)
  {
  }

  lemma AwaitElsewhere<L>(p: Prog<L>, w: World<L>, r: Running<L>, node: NodeId, what: Await, resume: Reply -> L,
                          t: TaskId)
    requires Inv(p, w) && Runs(w.pool, r, node) && t in w.pool.tasks && t != r.task
    ensures Elsewhere(w, PollAwait(w, r, node, what, resume), t)
  {
    match what
    case SleepUntil(deadline) => SleepElsewhere(p, w, r, node, deadline, resume, t);
    case RecvTimeout(duration) => RecvTimeoutElsewhere(p, w, r, node, duration, resume, t);
    case Recv => RecvElsewhere(p, w, r, node, resume, t);
    case Join(handle) => JoinElsewhere(w, r, node, handle, resume, t);
  }

  lemma LocalElsewhere<L>(p: Prog<L>, w: World<L>, r: Running<L>, node: NodeId, op: Op<L>, resume: Reply -> L,
                          t: TaskId)
    requires !op.Send? && !op.Spawn? && Runs(w.pool, r, node) && t in w.pool.tasks && t != r.task
    ensures Elsewhere(w, LocalCmd(p, w, r, node, op, resume), t)
  {
    if op.Now? {
      ReadPrepares(w, node, t);
      ContinueElsewhere(w, ReadClock(w, node), r, resume(Number(LocalNow(w, node))), t);
    } else {
      LocalQuiet(p, w, r, node, op, resume, t);
    }
  }

  // No other operation on the task's own node reads its clock.
  lemma LocalQuiet<L>(p: Prog<L>, w: World<L>, r: Running<L>, node: NodeId, op: Op<L>, resume: Reply -> L, t: TaskId)
    requires !op.Send? && !op.Spawn? && !op.Now? && w.pool.current == Some(r) && t in w.pool.tasks && t != r.task
    ensures var w' := LocalCmd(p, w, r, node, op, resume);
            && KeepsTask(w, w', t) && w'.wakers == w.wakers && w'.agenda == w.agenda
            && w'.devices.lastLocal == w.devices.lastLocal
  {
  }

  lemma FinishElsewhere<L>(w: World<L>, r: Running<L>, output: int, t: TaskId)
    requires w.pool.current == Some(r) && t in w.pool.tasks && t != r.task
    ensures Elsewhere(w, FinishTask(w, r, output), t)
  {
    if r.task in w.pool.joins {
      PushPollsGrows(w.agenda, w.pool.joins[r.task].joiners);
    }
  }

  lemma SendElsewhere<L>(w: World<L>, r: Running<L>, node: NodeId, target: NodeId, msg: Message, resume: Reply -> L,
                         tape: EntropyTape, t: TaskId)
    requires w.pool.current == Some(r) && t in w.pool.tasks && t != r.task
    ensures Elsewhere(w, SendMessage(w, r, node, target, msg, resume, tape).0, t)
  {
    var (_, at, again) := DrawArrivals(tape, w.devices.faults, w.agenda.now);
    var kind := DeliverMsg(node, target, msg);
    PushGrows(w.agenda, at, kind);
    if again.Some? { PushGrows(Push(w.agenda, at, kind), again.value, kind); }
  }

  lemma SpawnElsewhere<L>(w: World<L>, r: Running<L>, node: NodeId, child: L, resume: Reply -> L, t: TaskId)
    requires w.pool.current == Some(r) && t in w.pool.tasks && t != r.task && t < w.pool.nextTask
    ensures Elsewhere(w, SpawnTask(w, r, node, child, resume), t)
  {
    PushGrows(w.agenda, w.agenda.now, PollTask(w.pool.nextTask));
  }

  lemma RunCmdElsewhere<L>(p: Prog<L>, w: World<L>, r: Running<L>, node: NodeId, tape: EntropyTape, t: TaskId)
    requires Inv(p, w) && Runs(w.pool, r, node) && t in w.pool.tasks && t != r.task
    ensures Elsewhere(w, RunCmd(p, w, r, node, tape).0, t)
  {
    match p.next(r.fut.local)
    case Finish(output) => FinishElsewhere(w, r, output, t);
    case Pause(what, resume) => AwaitElsewhere(p, w, r, node, what, resume, t);
    case Do(op, resume) =>
      if op.Send? {
        SendElsewhere(w, r, node, op.target, op.msg, resume, tape, t);
      } else if op.Spawn? {
        SpawnElsewhere(w, r, node, op.child, resume, t);
      } else {
        LocalElsewhere(p, w, r, node, op, resume, t);
      }
  }

  // ----- an event that does not wake task t -----

  ghost predicate Leaves<L>(w: World<L>, w': World<L>, t: TaskId) {
    && Undisturbed(w, w', t) && w'.agenda.now == w.agenda.now
    && w'.devices.lastLocal == w.devices.lastLocal
  }

  lemma FireLeaves<L>(w: World<L>, e: Event, id: TimerId, t: TaskId)
    requires t in w.pool.tasks && !Wakes(w, t, TimerFire(id))
    ensures Leaves(w, FireTimer(w, e, id), t)
  {
    if id in w.wakers.timers {
      PushGrows(w.agenda, w.agenda.now, PollTask(w.wakers.timers[id]));
    }
  }

  lemma DeliverLeaves<L>(w: World<L>, e: Event, source: NodeId, target: NodeId, msg: Message, tape: EntropyTape,
                         t: TaskId)
    requires t in w.pool.tasks
    ensures Leaves(w, DeliverOrDrop(w, e, source, target, msg, tape).0, t)
  {
    if DropCause(w, source, target).None? { ArrivalLeaves(w, e, source, target, msg, t); }
  }

  lemma ArrivalLeaves<L>(w: World<L>, e: Event, source: NodeId, target: NodeId, msg: Message, t: TaskId)
    requires t in w.pool.tasks
    ensures Leaves(w, Deliver(w, e, source, target, msg), t)
  {
    PushPollsGrows(w.agenda, Waiters(w.wakers, target));
  }

  lemma CrashKeepsTimers(k: Wakers, node: NodeId, removed: set<TaskId>, t: TaskId)
    requires t !in removed
    ensures KeepsTimers(k, CrashWakers(k, node, removed), t)
  {
  }

  lemma CrashKeepsWakes<L>(w: World<L>, node: NodeId, t: TaskId)
    requires node in w.hosts.nodes && t !in TasksOn(w.pool, node)
    ensures KeepsWakes(w, CrashNode(w, node), t)
  {
    var removed := TasksOn(w.pool, node);
    CrashKeepsTimers(w.wakers, node, removed, t);
    RetainMembers(w.agenda.queue, Survives(node, removed, CrashWakers(w.wakers, node, removed).timers.Keys));
  }

  lemma CrashLeaves<L>(w: World<L>, node: NodeId, t: TaskId)
    requires w.pool.current.None? && t in w.pool.tasks && w.pool.tasks[t].node != node
    ensures Leaves(w, CrashNode(w, node), t)
  {
    if node in w.hosts.nodes {
      CrashKeepsTimers(w.wakers, node, TasksOn(w.pool, node), t);
      CrashKeepsWakes(w, node, t);
    }
  }

  lemma RestartLeaves<L>(w: World<L>, node: NodeId, t: TaskId)
    requires t in w.pool.tasks && t < w.pool.nextTask && w.pool.current.None?
    ensures Leaves(w, RestartAndRecord(w, node), t)
  {
    PushGrows(w.agenda, w.agenda.now, PollTask(w.pool.nextTask));
  }

  lemma DisturbLeaves<L>(w: World<L>, action: NemesisAction, t: TaskId)
    requires t in w.pool.tasks && !action.Crash? && !action.Restart?
    ensures Leaves(w, ApplyNemesis(w, action), t)
  {
  }

  // Logging changes nothing a task can see.
  lemma LogLeaves<L>(w: World<L>, w': World<L>, log: Log, t: TaskId)
    requires Leaves(w.(log := log), w', t)
    ensures Leaves(w, w', t)
  {
  }

  lemma FaultLeaves<L>(w: World<L>, e: Event, action: NemesisAction, t: TaskId)
    requires w.pool.current.None? && t in w.pool.tasks && t < w.pool.nextTask
    requires action.Crash? ==> action.node != w.pool.tasks[t].node
    ensures Leaves(w, DispatchFault(w, e, action), t)
  {
    var counted := Counted(w, Dispatched(e));
    if action.Restart? {
      var logged := counted.(log := counted.log.(nemesisTrace := w.log.nemesisTrace + [action]));
      RestartLeaves(logged, action.node, t);
      LogLeaves(w, RestartAndRecord(logged, action.node), logged.log, t);
    } else if action.Crash? {
      var logged := counted.(log := counted.log.(nemesisTrace := counted.log.nemesisTrace + [action]));
      CrashLeaves(logged, action.node, t);
      LogLeaves(w, CrashNode(logged, action.node), logged.log, t);
    } else {
      DisturbLeaves(counted, action, t);
      LogLeaves(w, ApplyNemesis(counted, action), counted.log, t);
    }
  }

  lemma StartLeaves<L>(w: World<L>, e: Event, u: TaskId, t: TaskId)
    requires w.pool.current.None? && t in w.pool.tasks && u != t
    ensures Leaves(w, StartPoll(w, e, u), t)
  {
  }

  lemma DispatchLeaves<L>(w: World<L>, e: Event, tape: EntropyTape, t: TaskId)
    requires w.pool.current.None? && t in w.pool.tasks && t < w.pool.nextTask && !Wakes(w, t, e.kind)
    requires e.kind.Fault? && e.kind.action.Crash? ==> e.kind.action.node != w.pool.tasks[t].node
    ensures Leaves(w, Dispatch(w, e, tape).0, t)
  {
    match e.kind
    case TimerFire(id) => FireLeaves(w, e, id, t);
    case PollTask(u) => StartLeaves(w, e, u, t);
    case Fault(action) => FaultLeaves(w, e, action, t);
    case DeliverMsg(source, target, msg) => DeliverLeaves(w, e, source, target, msg, tape, t);
  }

  // ----- the sleeper -----

  // A task, its node, its future, and the local deadline of the sleep, or of the
  // timed receive, that it is suspended on.
  datatype Sleeper<L> = Sleeper(t: TaskId, node: NodeId, f: Fut<L>, d: nat)

  ghost predicate Sleeps<L>(p: Prog<L>, s: Sleeper<L>) {
    && 0 < s.d <= U64_MAX
    && match Awaits(p, s.f)
       case Some(SleepUntil(d)) => d == s.d
       case Some(RecvTimeout(_)) => s.f.waiting && s.f.deadline == Some(s.d)
       case _ => false
  }

  // The task waits for a message as well, and there is one.
  ghost predicate Hears<L>(p: Prog<L>, w: World<L>, s: Sleeper<L>) {
    WantsMessage(p, s.f) && Inbox(w.wakers, s.node) != []
  }

  // The coming step polls the task and finds its deadline passed, or a message.
  ghost predicate Resumes<L>(p: Prog<L>, w: World<L>, s: Sleeper<L>) {
    !Halted(w) && IsCurrent(w.pool, s.t) && (LocalNow(w, s.node) >= s.d || Hears(p, w, s))
  }

  // When the node's clock reaches the deadline, if the skew stays as it is.
  function WakeTime<L>(w: World<L>, s: Sleeper<L>): nat {
    ClampU64(s.d - Skew(w.devices, s.node))
  }

  ghost predicate TimerDue<L>(w: World<L>, s: Sleeper<L>, at: nat) {
    && s.f.timer.Some? && s.f.timer.value in w.wakers.timers && w.wakers.timers[s.f.timer.value] == s.t
    && exists e :: e in w.agenda.queue && e.kind == TimerFire(s.f.timer.value) && e.time == at
  }

  ghost predicate PollDue<L>(w: World<L>, s: Sleeper<L>, at: nat) {
    exists e :: e in w.agenda.queue && e.kind == PollTask(s.t) && e.time == at
  }

  // Suspended, with the one timer to wake it at the wake time, still to come.
  ghost predicate Asleep<L>(p: Prog<L>, w: World<L>, s: Sleeper<L>) {
    && Sleeps(p, s) && Holds(w, s.t, s.node, s.f) && !IsCurrent(w.pool, s.t)
    && LocalNow(w, s.node) < s.d
    && TimerDue(w, s, GlobalDeadline(w, s.node, s.d))
  }

  ghost predicate SameSetting<L>(w: World<L>, w': World<L>, s: Sleeper<L>) {
    Skew(w'.devices, s.node) == Skew(w.devices, s.node) && s.node !in w'.hosts.crashed
  }

  // The world after i steps.
  ghost function WorldAt<L>(p: Prog<L>, w: World<L>, tape: EntropyTape, i: nat): World<L> {
    Steps(p, w, tape, i).0
  }

  // For n steps the node's skew is left alone and the node does not crash.
  ghost predicate Steady<L>(p: Prog<L>, w: World<L>, tape: EntropyTape, s: Sleeper<L>, n: nat) {
    forall i: nat :: i <= n ==> SameSetting(w, WorldAt(p, w, tape, i), s)
  }

  // The node's clock at a time, seen from the wake time.
  lemma ClockReachesDeadline<L>(w: World<L>, s: Sleeper<L>)
    requires 0 < s.d <= U64_MAX && s.d - Skew(w.devices, s.node) <= U64_MAX && w.agenda.now <= U64_MAX
    ensures w.agenda.now >= WakeTime(w, s) ==> LocalNow(w, s.node) >= s.d
    ensures w.agenda.now < WakeTime(w, s) && LastRead(w.devices, s.node) < s.d ==> LocalNow(w, s.node) < s.d
  {
  }

  // What holds until the sleeper is resumed: it is as it was, the wake time has
  // not passed, and either its timer is set for that time and the clock read
  // short of the deadline, or the timer has rung and the poll is at hand.
  ghost predicate Waiting<L>(w: World<L>, s: Sleeper<L>, at: nat) {
    TimerDue(w, s, at) && (w.agenda.now < at ==> LastRead(w.devices, s.node) < s.d)
  }

  ghost predicate Rung<L>(w: World<L>, s: Sleeper<L>, at: nat) {
    w.agenda.now == at && (IsCurrent(w.pool, s.t) || PollDue(w, s, at))
  }

  ghost predicate StillAsleep<L>(p: Prog<L>, w: World<L>, s: Sleeper<L>) {
    && Sleeps(p, s) && Holds(w, s.t, s.node, s.f)
    && w.agenda.now <= WakeTime(w, s)
    && (w.aborted || Waiting(w, s, WakeTime(w, s)) || Rung(w, s, WakeTime(w, s)))
  }

  // ----- one step -----

  // A spurious poll leaves the sleep as it found it.
  lemma SpuriousPoll<L>(p: Prog<L>, w: World<L>, s: Sleeper<L>, tape: EntropyTape)
    requires Inv(p, w) && !Halted(w) && StillAsleep(p, w, s) && IsCurrent(w.pool, s.t) && !Resumes(p, w, s)
    requires s.d - Skew(w.devices, s.node) <= U64_MAX
    ensures var w' := Step(p, w, tape).0;
            Skew(w'.devices, s.node) == Skew(w.devices, s.node) && StillAsleep(p, w', s)
  {
    ClockReachesDeadline(w, s);
    assert Waiting(w, s, WakeTime(w, s));
    var r := w.pool.current.value;
    assert r == Running(s.t, s.f);
    match p.next(s.f.local)
    case Pause(what, resume) =>
      var read := if what.SleepUntil? then ReadClock(w, s.node) else Listening(w, r, s.node);
      assert ArmTimer(read, r, s.node, s.d) == (read, s.f.timer);
      assert Step(p, w, tape).0 == Park(read, r, s.node, s.f) by {
        PollParks(p, w, s, what, resume, tape);
      }
      ParkedStill(p, w, read, r, s);
  }

  // Polled too early, the await goes back to waiting with the timer it has.
  lemma PollParks<L>(p: Prog<L>, w: World<L>, s: Sleeper<L>, what: Await, resume: Reply -> L, tape: EntropyTape)
    requires !Halted(w) && w.pool.current == Some(Running(s.t, s.f)) && s.t in w.pool.tasks
    requires w.pool.tasks[s.t].node == s.node && p.next(s.f.local) == Pause(what, resume) && Sleeps(p, s)
    requires LocalNow(w, s.node) < s.d && !Hears(p, w, s)
    requires s.f.timer.Some? && s.f.timer.value in w.wakers.timers
    ensures var read := if what.SleepUntil? then ReadClock(w, s.node) else Listening(w, w.pool.current.value, s.node);
            Step(p, w, tape).0 == Park(read, w.pool.current.value, s.node, s.f)
  {
    var r := w.pool.current.value;
    assert s.f.(timer := s.f.timer) == s.f;
    if what.SleepUntil? {
      assert Step(p, w, tape).0 == PollSleep(w, r, s.node, s.d, resume);
    } else {
      assert Step(p, w, tape).0 == PollRecvTimeout(w, r, s.node, what.duration, resume);
      assert Fut(s.f.local, true, s.f.timer, Some(s.d)) == s.f;
    }
  }

  lemma ParkedStill<L>(p: Prog<L>, w: World<L>, read: World<L>, r: Running<L>, s: Sleeper<L>)
    requires Sleeps(p, s) && s.t in w.pool.tasks && w.pool.tasks[s.t].node == s.node && r == Running(s.t, s.f)
    requires w.agenda.now <= WakeTime(w, s) && Waiting(w, s, WakeTime(w, s)) && LocalNow(w, s.node) < s.d
    requires read.pool == w.pool && read.agenda == w.agenda && read.wakers.timers == w.wakers.timers
    requires read.devices == ReadClock(w, s.node).devices
    ensures var w' := Park(read, r, s.node, s.f);
            Skew(w'.devices, s.node) == Skew(w.devices, s.node) && StillAsleep(p, w', s)
  {
    assert TimerDue(Park(read, r, s.node, s.f), s, WakeTime(w, s));
  }

  lemma WakesKept<L>(w: World<L>, w': World<L>, s: Sleeper<L>, at: nat)
    requires KeepsTimers(w.wakers, w'.wakers, s.t) && KeepsWakes(w, w', s.t)
    ensures TimerDue(w, s, at) ==> TimerDue(w', s, at)
    ensures PollDue(w, s, at) ==> PollDue(w', s, at)
  {
  }

  lemma OtherCommand<L>(p: Prog<L>, w: World<L>, s: Sleeper<L>, tape: EntropyTape)
    requires Inv(p, w) && !Halted(w) && StillAsleep(p, w, s) && w.pool.current.Some? && !IsCurrent(w.pool, s.t)
    requires s.d - Skew(w.devices, s.node) <= U64_MAX
    requires Skew(Step(p, w, tape).0.devices, s.node) == Skew(w.devices, s.node)
    ensures StillAsleep(p, Step(p, w, tape).0, s)
  {
    var r := w.pool.current.value;
    RunCmdElsewhere(p, w, r, w.pool.tasks[r.task].node, tape, s.t);
    RunCmdKeepsAborted(p, w, r, w.pool.tasks[r.task].node, tape);
    ElsewhereAsleep(p, w, RunCmd(p, w, r, w.pool.tasks[r.task].node, tape).0, s);
  }

  lemma ElsewhereAsleep<L>(p: Prog<L>, w: World<L>, w': World<L>, s: Sleeper<L>)
    requires StillAsleep(p, w, s) && !IsCurrent(w.pool, s.t) && w.agenda.now <= U64_MAX
    requires s.d - Skew(w.devices, s.node) <= U64_MAX && Skew(w'.devices, s.node) == Skew(w.devices, s.node)
    requires Elsewhere(w, w', s.t) && w'.aborted == w.aborted
    ensures StillAsleep(p, w', s)
  {
    WakesKept(w, w', s, WakeTime(w, s));
    ClockReachesDeadline(w, s);
    assert LastRead(w'.devices, s.node) == LastRead(w.devices, s.node)
           || LastRead(w'.devices, s.node) == LocalNow(w, s.node);
  }

  function Popped<L>(w: World<L>): World<L>
    requires w.agenda.queue != []
  {
    w.(agenda := Pop(w.agenda))
  }

  lemma PopIsEarliest<L>(w: World<L>)
    requires AgendaOk(w.agenda) && w.agenda.queue != []
    ensures var first := w.agenda.queue[0];
            && first in w.agenda.queue && w.agenda.now <= first.time == Popped(w).agenda.now
            && (forall e :: e in w.agenda.queue ==> first.time <= e.time)
            && (forall e :: e in w.agenda.queue && e != first ==> e in Popped(w).agenda.queue)
  {
    HeadIsLeast(w.agenda.queue);
  }

  // The wake time is not overtaken by the event about to be dispatched.
  lemma NextNotLater<L>(w: World<L>, s: Sleeper<L>, at: nat)
    requires AgendaOk(w.agenda) && w.agenda.queue != [] && (TimerDue(w, s, at) || PollDue(w, s, at))
    ensures w.agenda.queue[0].time <= at
  {
    PopIsEarliest(w);
  }

  // The sleeper's own timer fires, at the wake time, and queues its poll.
  lemma TimerRings<L>(p: Prog<L>, w: World<L>, s: Sleeper<L>, id: TimerId, tape: EntropyTape)
    requires w.pool.current.None? && w.agenda.queue != []
    requires Sleeps(p, s) && Holds(w, s.t, s.node, s.f) && w.agenda.queue[0].time == WakeTime(w, s)
    requires id in w.wakers.timers && w.wakers.timers[id] == s.t && w.agenda.queue[0].kind == TimerFire(id)
    ensures StillAsleep(p, Dispatch(Popped(w), w.agenda.queue[0], tape).0, s)
  {
    var q := Popped(w);
    var poll := Event(q.agenda.now, q.agenda.seqno, PollTask(s.t));
    InsertMembers(q.agenda.queue, poll);
    var w' := Dispatch(q, w.agenda.queue[0], tape).0;
    assert poll in w'.agenda.queue;
  }

  lemma StartOwn<L>(q: World<L>, e: Event, s: Sleeper<L>)
    requires Holds(q, s.t, s.node, s.f) && q.pool.current.None? && s.node !in q.hosts.crashed
    ensures var w' := StartPoll(q, e, s.t);
            && Holds(w', s.t, s.node, s.f) && IsCurrent(w'.pool, s.t) && !w'.aborted == !q.aborted
            && w'.agenda == q.agenda && w'.wakers == q.wakers && w'.devices == q.devices
  {
  }

  lemma StartStaysAsleep<L>(p: Prog<L>, q: World<L>, e: Event, s: Sleeper<L>, at: nat)
    requires Sleeps(p, s) && Holds(q, s.t, s.node, s.f) && q.pool.current.None? && s.node !in q.hosts.crashed
    requires at == WakeTime(q, s) && q.agenda.now <= at && !q.aborted
    requires Waiting(q, s, at) || q.agenda.now == at
    ensures StillAsleep(p, StartPoll(q, e, s.t), s)
  {
    StartOwn(q, e, s);
  }

  // The sleeper's poll comes up, rung or spurious.
  lemma PollStarts<L>(p: Prog<L>, w: World<L>, s: Sleeper<L>, tape: EntropyTape)
    requires Inv(p, w) && w.pool.current.None? && w.agenda.queue != [] && !w.aborted
    requires StillAsleep(p, w, s) && w.agenda.queue[0].kind == PollTask(s.t)
    ensures StillAsleep(p, Dispatch(Popped(w), w.agenda.queue[0], tape).0, s)
  {
    var at := WakeTime(w, s);
    PopIsEarliest(w);
    NextNotLater(w, s, at);
    if Waiting(w, s, at) {
      TimerKept(w, s, at);
    }
    StartStaysAsleep(p, Popped(w), w.agenda.queue[0], s, at);
  }

  lemma TimerKept<L>(w: World<L>, s: Sleeper<L>, at: nat)
    requires w.agenda.queue != [] && !w.agenda.queue[0].kind.TimerFire? && TimerDue(w, s, at)
    ensures TimerDue(Popped(w), s, at)
  {
    var e :| e in w.agenda.queue && e.kind == TimerFire(s.f.timer.value) && e.time == at;
    assert e in w.agenda.queue[1..];
  }

  lemma LeftAsleep<L>(p: Prog<L>, q: World<L>, w': World<L>, s: Sleeper<L>, at: nat)
    requires Sleeps(p, s) && Holds(q, s.t, s.node, s.f) && q.pool.current.None?
    requires at == WakeTime(q, s) && q.agenda.now <= at
    requires Waiting(q, s, at) || (q.agenda.now == at && PollDue(q, s, at))
    requires Leaves(q, w', s.t) && Skew(w'.devices, s.node) == Skew(q.devices, s.node)
    ensures StillAsleep(p, w', s)
  {
    WakesKept(q, w', s, at);
  }

  // Any other event leaves the sleeper alone.
  lemma OtherEvent<L>(p: Prog<L>, w: World<L>, s: Sleeper<L>, tape: EntropyTape)
    requires Inv(p, w) && w.pool.current.None? && w.agenda.queue != [] && !w.aborted
    requires StillAsleep(p, w, s) && !Wakes(w, s.t, w.agenda.queue[0].kind)
    requires SameSetting(w, Dispatch(Popped(w), w.agenda.queue[0], tape).0, s)
    ensures StillAsleep(p, Dispatch(Popped(w), w.agenda.queue[0], tape).0, s)
  {
    var at := WakeTime(w, s);
    var first, q := w.agenda.queue[0], Popped(w);
    PopIsEarliest(w);
    NextNotLater(w, s, at);
    CrashIsElsewhere(p, w, s, tape);
    DispatchLeaves(q, first, tape, s.t);
    WakesKept(w, q, s, at);
    LeftAsleep(p, q, Dispatch(q, first, tape).0, s, at);
  }

  lemma CrashIsElsewhere<L>(p: Prog<L>, w: World<L>, s: Sleeper<L>, tape: EntropyTape)
    requires Inv(p, w) && w.agenda.queue != [] && Holds(w, s.t, s.node, s.f)
    requires s.node !in Dispatch(Popped(w), w.agenda.queue[0], tape).0.hosts.crashed
    ensures var kind := w.agenda.queue[0].kind;
            kind.Fault? && kind.action.Crash? ==> kind.action.node != s.node
  {
    assert s.node in w.hosts.nodes;
  }

  ghost predicate CutShort<L>(p: Prog<L>, w: World<L>)
    requires w.agenda.queue != []
  {
    Popped(w).agenda.now > p.horizon || w.log.dispatched >= p.maxEvents
  }

  lemma StepDispatches<L>(p: Prog<L>, w: World<L>, tape: EntropyTape)
    requires !Halted(w) && w.pool.current.None?
    ensures Step(p, w, tape).0 == if CutShort(p, w) then Popped(w).(aborted := true)
                                  else Dispatch(Popped(w), w.agenda.queue[0], tape).0
  {
  }

  lemma DispatchesAsleep<L>(p: Prog<L>, w: World<L>, s: Sleeper<L>, tape: EntropyTape)
    requires Inv(p, w) && w.pool.current.None? && w.agenda.queue != [] && !w.aborted && StillAsleep(p, w, s)
    requires var w' := Dispatch(Popped(w), w.agenda.queue[0], tape).0; SameSetting(w, w', s) && !w'.aborted
    ensures StillAsleep(p, Dispatch(Popped(w), w.agenda.queue[0], tape).0, s)
  {
    var kind := w.agenda.queue[0].kind;
    if kind == PollTask(s.t) {
      PollStarts(p, w, s, tape);
    } else if Wakes(w, s.t, kind) {
      OwnTimer(p, w, s, kind.timer);
      TimerRings(p, w, s, kind.timer, tape);
    } else {
      OtherEvent(p, w, s, tape);
    }
  }

  lemma EventStep<L>(p: Prog<L>, w: World<L>, s: Sleeper<L>, tape: EntropyTape)
    requires Inv(p, w) && !Halted(w) && w.pool.current.None? && StillAsleep(p, w, s)
    requires SameSetting(w, Step(p, w, tape).0, s)
    ensures StillAsleep(p, Step(p, w, tape).0, s)
  {
    StepDispatches(p, w, tape);
    if CutShort(p, w) {
      NextNotLater(w, s, WakeTime(w, s));
    } else {
      DispatchKeepsAborted(Popped(w), w.agenda.queue[0], tape);
      DispatchesAsleep(p, w, s, tape);
    }
  }

  // The only timer that can fire for a sleeper is its own, at the wake time.
  lemma OwnTimer<L>(p: Prog<L>, w: World<L>, s: Sleeper<L>, id: TimerId)
    requires Inv(p, w) && StillAsleep(p, w, s) && !w.aborted && w.pool.current.None? && w.agenda.queue != []
    requires id in w.wakers.timers && w.wakers.timers[id] == s.t && w.agenda.queue[0].kind == TimerFire(id)
    ensures w.agenda.queue[0].time == WakeTime(w, s)
  {
    var at := WakeTime(w, s);
    PopIsEarliest(w);
    NextNotLater(w, s, at);
    if Waiting(w, s, at) {
      assert Timing(w.pool, s.t, id);
      var e :| e in w.agenda.queue && e.kind == TimerFire(s.f.timer.value) && e.time == at;
      OneFire(p, w, e);
    }
  }

  lemma OneFire<L>(p: Prog<L>, w: World<L>, e: Event)
    requires Inv(p, w) && w.agenda.queue != [] && e in w.agenda.queue
    requires e.kind.TimerFire? && e.kind == w.agenda.queue[0].kind
    ensures e == w.agenda.queue[0]
  {
    assert w.agenda.queue[0] in w.agenda.queue;
  }

  lemma AsleepStep<L>(p: Prog<L>, w: World<L>, s: Sleeper<L>, tape: EntropyTape)
    requires Inv(p, w) && !Halted(w) && StillAsleep(p, w, s) && !Resumes(p, w, s)
    requires s.d - Skew(w.devices, s.node) <= U64_MAX && SameSetting(w, Step(p, w, tape).0, s)
    ensures StillAsleep(p, Step(p, w, tape).0, s)
  {
    if w.pool.current.None? {
      EventStep(p, w, s, tape);
    } else if IsCurrent(w.pool, s.t) {
      SpuriousPoll(p, w, s, tape);
    } else {
      OtherCommand(p, w, s, tape);
    }
  }

  // ----- whole runs -----

  ghost predicate NotResumedBefore<L>(p: Prog<L>, w: World<L>, tape: EntropyTape, s: Sleeper<L>, n: nat) {
    forall i: nat :: i < n ==> !Resumes(p, WorldAt(p, w, tape, i), s)
  }

  lemma FallsAsleep<L>(p: Prog<L>, w: World<L>, s: Sleeper<L>)
    requires Inv(p, w) && Asleep(p, w, s) && s.d - Skew(w.devices, s.node) <= U64_MAX
    ensures StillAsleep(p, w, s) && GlobalDeadline(w, s.node, s.d) == WakeTime(w, s)
  {
    ClockReachesDeadline(w, s);
  }

  // In every world of the run up to step i.
  ghost predicate AsleepUpTo<L>(p: Prog<L>, w: World<L>, tape: EntropyTape, s: Sleeper<L>, i: nat) {
    && RunInv(p, WorldAt(p, w, tape, i)) && StillAsleep(p, WorldAt(p, w, tape, i), s)
    && (i > 0 ==> AsleepUpTo(p, w, tape, s, i - 1))
  }

  // For the first i steps the setting lasts and, if so asked, nothing resumes the
  // task.
  ghost predicate Lasting<L>(p: Prog<L>, w: World<L>, tape: EntropyTape, s: Sleeper<L>, quiet: bool, i: nat) {
    && SameSetting(w, WorldAt(p, w, tape, i), s)
    && (i > 0 ==> Lasting(p, w, tape, s, quiet, i - 1))
    && (i > 0 && quiet ==> !Resumes(p, WorldAt(p, w, tape, i - 1), s))
  }

  lemma {:induction false} Lasts<L>(p: Prog<L>, w: World<L>, tape: EntropyTape, s: Sleeper<L>, quiet: bool, n: nat,
                                    i: nat)
    requires Steady(p, w, tape, s, n) && (quiet ==> NotResumedBefore(p, w, tape, s, n)) && i <= n
    ensures Lasting(p, w, tape, s, quiet, i)
    decreases i
  {
    assert SameSetting(w, WorldAt(p, w, tape, i), s);
    if i > 0 {
      Lasts(p, w, tape, s, quiet, n, i - 1);
      assert quiet ==> !Resumes(p, WorldAt(p, w, tape, i - 1), s);
    }
  }

  lemma AsleepNext<L>(p: Prog<L>, w: World<L>, tape: EntropyTape, s: Sleeper<L>, i: nat)
    requires s.d - Skew(w.devices, s.node) <= U64_MAX
    requires 0 < i && Lasting(p, w, tape, s, true, i) && AsleepUpTo(p, w, tape, s, i - 1)
    ensures AsleepUpTo(p, w, tape, s, i)
  {
    var (v, tape') := Steps(p, w, tape, i - 1);
    assert Steps(p, w, tape, i) == Step(p, v, tape');
    assert SameSetting(w, WorldAt(p, w, tape, i - 1), s) && SameSetting(w, WorldAt(p, w, tape, i), s);
    StepOk(p, v, tape');
    AsleepOneMore(p, v, s, tape');
  }

  lemma {:induction false} StaysAsleep<L>(p: Prog<L>, w: World<L>, tape: EntropyTape, s: Sleeper<L>, i: nat)
    requires s.d - Skew(w.devices, s.node) <= U64_MAX
    requires Lasting(p, w, tape, s, true, i) && AsleepUpTo(p, w, tape, s, 0)
    ensures AsleepUpTo(p, w, tape, s, i)
  {
    if i > 0 {
      StaysAsleep(p, w, tape, s, i - 1);
      AsleepNext(p, w, tape, s, i);
    }
  }

  lemma AsleepOneMore<L>(p: Prog<L>, v: World<L>, s: Sleeper<L>, tape: EntropyTape)
    requires RunInv(p, v) && StillAsleep(p, v, s) && !Resumes(p, v, s)
    requires s.d - Skew(v.devices, s.node) <= U64_MAX && SameSetting(v, Step(p, v, tape).0, s)
    ensures StillAsleep(p, Step(p, v, tape).0, s)
  {
    if !Halted(v) {
      AsleepStep(p, v, s, tape);
    }
  }

  lemma WhileAsleep<L>(p: Prog<L>, v: World<L>, s: Sleeper<L>)
    requires RunInv(p, v) && StillAsleep(p, v, s) && s.d - Skew(v.devices, s.node) <= U64_MAX
    ensures Holds(v, s.t, s.node, s.f) && v.agenda.now <= WakeTime(v, s)
    ensures Resumes(p, v, s) && !Hears(p, v, s) ==> v.agenda.now == WakeTime(v, s) && LocalNow(v, s.node) >= s.d
    ensures Halted(v) ==> v.aborted || v.panicked
  {
    if !v.aborted {
      ClockReachesDeadline(v, s);
    }
  }

  // Until a sleeper is resumed it stays exactly as it was, spurious polls
  // included, the clock does not pass its wake time, and the run does not end.
  // The step that resumes it comes at that very time, unless it brings a message.
  lemma SleepResumesOnTime<L>(p: Prog<L>, w: World<L>, tape: EntropyTape, s: Sleeper<L>, n: nat)
    requires Inv(p, w) && !w.aborted && Asleep(p, w, s) && s.d - Skew(w.devices, s.node) <= U64_MAX
    requires Steady(p, w, tape, s, n) && NotResumedBefore(p, w, tape, s, n)
    ensures var v, at := WorldAt(p, w, tape, n), GlobalDeadline(w, s.node, s.d);
            && Holds(v, s.t, s.node, s.f)
            && v.agenda.now <= at
            && (Resumes(p, v, s) && !Hears(p, v, s) ==> v.agenda.now == at && LocalNow(v, s.node) >= s.d)
            && (Halted(v) ==> v.aborted || v.panicked)
  {
    FallsAsleep(p, w, s);
    assert AsleepUpTo(p, w, tape, s, 0);
    Lasts(p, w, tape, s, true, n, n);
    StaysAsleep(p, w, tape, s, n);
    var v := WorldAt(p, w, tape, n);
    assert SameSetting(w, v, s);
    WhileAsleep(p, v, s);
  }

  // Once the clock is past the wake time the sleeper has been resumed.
  lemma SleepResumedAfter<L>(p: Prog<L>, w: World<L>, tape: EntropyTape, s: Sleeper<L>, n: nat)
    requires Inv(p, w) && !w.aborted && Asleep(p, w, s) && s.d - Skew(w.devices, s.node) <= U64_MAX
    requires Steady(p, w, tape, s, n) && WorldAt(p, w, tape, n).agenda.now > GlobalDeadline(w, s.node, s.d)
    ensures exists i: nat :: i < n && Resumes(p, WorldAt(p, w, tape, i), s)
  {
    if NotResumedBefore(p, w, tape, s, n) {
      SleepResumesOnTime(p, w, tape, s, n);
    }
  }

  // What a resumed task is told: nothing after a sleep, the oldest message, or
  // that its time is up.
  function News<L>(p: Prog<L>, w: World<L>, s: Sleeper<L>): Reply {
    var inbox := Inbox(w.wakers, s.node);
    match p.next(s.f.local)
    case Pause(RecvTimeout(_), _) => if inbox == [] then TimedOut else Received(inbox[0].0, inbox[0].1)
    case _ => Nothing
  }

  // The resuming step is the one after which the task goes on from its await.
  lemma ResumingContinues<L>(p: Prog<L>, w: World<L>, s: Sleeper<L>, tape: EntropyTape)
    requires Inv(p, w) && Resumes(p, w, s) && Holds(w, s.t, s.node, s.f) && Sleeps(p, s)
    ensures Step(p, w, tape).0.pool.current
         == Some(Running(s.t, Fresh(p.next(s.f.local).resume(News(p, w, s)))))
  {
    assert w.pool.current.value == Running(s.t, s.f);
  }

  // ----- falling asleep -----

  // A first poll of a sleep whose deadline is ahead suspends its task asleep.
  lemma FirstPollSleeps<L>(p: Prog<L>, w: World<L>, r: Running<L>, node: NodeId, d: nat, tape: EntropyTape)
    requires Inv(p, w) && Runs(w.pool, r, node) && Awaits(p, r.fut) == Some(SleepUntil(d))
    requires LocalNow(w, node) < d <= U64_MAX
    requires r.fut.timer.Some? ==> r.fut.timer.value !in w.wakers.timers
    ensures var f := r.fut.(timer := Some(w.wakers.nextTimer));
            Asleep(p, RunCmd(p, w, r, node, tape).0, Sleeper(r.task, node, f, d))
  {
    match p.next(r.fut.local)
    case Pause(what, resume) =>
      assert RunCmd(p, w, r, node, tape).0 == PollSleep(w, r, node, d, resume);
      SleepParks(p, w, r, node, d, resume);
      TimerArmed(ReadClock(w, node), r, node, d);
      var armed := ArmTimer(ReadClock(w, node), r, node, d).0;
      var s := Sleeper(r.task, node, r.fut.(timer := Some(w.wakers.nextTimer)), d);
      ParkedAsleep(p, armed, r, s);
  }

  // So does the first poll of a timed receive that finds no message.
  lemma FirstPollWaits<L>(p: Prog<L>, w: World<L>, r: Running<L>, node: NodeId, duration: nat, tape: EntropyTape)
    requires Inv(p, w) && Runs(w.pool, r, node) && Awaits(p, r.fut) == Some(RecvTimeout(duration))
    requires r.fut.deadline.None? && Inbox(w.wakers, node) == []
    requires LocalNow(w, node) < SatAdd(LocalNow(w, node), duration)
    requires r.fut.timer.Some? ==> r.fut.timer.value !in w.wakers.timers
    ensures var d := SatAdd(LocalNow(w, node), duration);
            var f := Fut(r.fut.local, true, Some(w.wakers.nextTimer), Some(d));
            Asleep(p, RunCmd(p, w, r, node, tape).0, Sleeper(r.task, node, f, d))
  {
    match p.next(r.fut.local)
    case Pause(what, resume) =>
      var d := SatAdd(LocalNow(w, node), duration);
      var read := Listening(w, r, node);
      assert RunCmd(p, w, r, node, tape).0 == PollRecvTimeout(w, r, node, duration, resume);
      ReceiveParks(w, r, node, duration, resume);
      TimerArmed(read, r, node, d);
      var s := Sleeper(r.task, node, Fut(r.fut.local, true, Some(w.wakers.nextTimer), Some(d)), d);
      ParkedAsleep(p, ArmTimer(read, r, node, d).0, r, s);
  }

  lemma ReceiveParks<L>(w: World<L>, r: Running<L>, node: NodeId, duration: nat, resume: Reply -> L)
    requires r.fut.deadline.None? && Inbox(w.wakers, node) == []
    requires LocalNow(w, node) < SatAdd(LocalNow(w, node), duration)
    ensures var d := SatAdd(LocalNow(w, node), duration);
            var (armed, timer) := ArmTimer(Listening(w, r, node), r, node, d);
            PollRecvTimeout(w, r, node, duration, resume)
            == Park(armed, r, node, Fut(r.fut.local, true, timer, Some(d)))
  {
  }

  lemma SleepParks<L>(p: Prog<L>, w: World<L>, r: Running<L>, node: NodeId, d: nat, resume: Reply -> L)
    requires LocalNow(w, node) < d
    ensures var (armed, timer) := ArmTimer(ReadClock(w, node), r, node, d);
            PollSleep(w, r, node, d, resume) == Park(armed, r, node, r.fut.(timer := timer))
  {
  }

  lemma TimerArmed<L>(read: World<L>, r: Running<L>, node: NodeId, d: nat)
    requires r.fut.timer.Some? ==> r.fut.timer.value !in read.wakers.timers
    ensures var (armed, timer) := ArmTimer(read, r, node, d);
            && timer == Some(read.wakers.nextTimer) && armed.pool == read.pool
            && read.wakers.nextTimer in armed.wakers.timers && armed.wakers.timers[read.wakers.nextTimer] == r.task
            && Event(GlobalDeadline(read, node, d), read.agenda.seqno, TimerFire(read.wakers.nextTimer))
               in armed.agenda.queue
            && LocalNow(armed, node) == LocalNow(read, node)
            && GlobalDeadline(armed, node, d) == GlobalDeadline(read, node, d)
  {
    InsertMembers(read.agenda.queue,
                  Event(GlobalDeadline(read, node, d), read.agenda.seqno, TimerFire(read.wakers.nextTimer)));
  }

  lemma ParkedAsleep<L>(p: Prog<L>, armed: World<L>, r: Running<L>, s: Sleeper<L>)
    requires Sleeps(p, s) && armed.pool.current == Some(r) && s.t == r.task && s.t in armed.pool.tasks
    requires armed.pool.tasks[s.t].node == s.node && LocalNow(armed, s.node) < s.d
    requires TimerDue(armed, s, GlobalDeadline(armed, s.node, s.d))
    ensures Asleep(p, Park(armed, r, s.node, s.f), s)
  {
    assert LocalNow(Park(armed, r, s.node, s.f), s.node) == LocalNow(armed, s.node);
  }

  // ----- deadlines beyond the end of time -----

  // The task is still in its await, whatever timers it has set since.
  ghost predicate StillIn<L>(p: Prog<L>, w: World<L>, s: Sleeper<L>) {
    && s.t in w.pool.tasks && w.pool.tasks[s.t].node == s.node
    && FutOf(w.pool, s.t).Some? && FutOf(w.pool, s.t).value.local == s.f.local
    && Sleeps(p, s.(f := FutOf(w.pool, s.t).value))
  }

  ghost predicate Overslept<L>(p: Prog<L>, w: World<L>, s: Sleeper<L>) {
    && StillIn(p, w, s)
    && LastRead(w.devices, s.node) < s.d && w.agenda.now <= U64_MAX
  }

  lemma NeverReached<L>(w: World<L>, s: Sleeper<L>)
    requires 0 < s.d <= U64_MAX && s.d - Skew(w.devices, s.node) > U64_MAX
    requires LastRead(w.devices, s.node) < s.d && w.agenda.now <= U64_MAX
    ensures LocalNow(w, s.node) < s.d
  {
  }

  lemma OversleptPoll<L>(p: Prog<L>, w: World<L>, s: Sleeper<L>, tape: EntropyTape)
    requires Inv(p, w) && !Halted(w) && IsCurrent(w.pool, s.t) && Overslept(p, w, s) && !Hears(p, w, s)
    requires s.d - Skew(w.devices, s.node) > U64_MAX
    ensures Overslept(p, Step(p, w, tape).0, s)
  {
    NeverReached(w, s);
    var r := w.pool.current.value;
    match p.next(r.fut.local)
    case Pause(what, resume) =>
      if what.SleepUntil? {
        assert Step(p, w, tape).0 == PollSleep(w, r, s.node, s.d, resume);
      } else {
        assert Step(p, w, tape).0 == PollRecvTimeout(w, r, s.node, what.duration, resume);
      }
  }

  lemma OversleptCommand<L>(p: Prog<L>, w: World<L>, s: Sleeper<L>, tape: EntropyTape)
    requires Inv(p, w) && !Halted(w) && w.pool.current.Some? && !IsCurrent(w.pool, s.t) && Overslept(p, w, s)
    requires s.d - Skew(w.devices, s.node) > U64_MAX
    ensures Overslept(p, Step(p, w, tape).0, s)
  {
    NeverReached(w, s);
    var r := w.pool.current.value;
    RunCmdElsewhere(p, w, r, w.pool.tasks[r.task].node, tape, s.t);
  }

  lemma OversleptEvent<L>(p: Prog<L>, w: World<L>, s: Sleeper<L>, tape: EntropyTape)
    requires Inv(p, w) && !Halted(w) && w.pool.current.None? && Overslept(p, w, s)
    requires SameSetting(w, Step(p, w, tape).0, s)
    ensures Overslept(p, Step(p, w, tape).0, s)
  {
    PopIsEarliest(w);
    StepDispatches(p, w, tape);
    var first, q := w.agenda.queue[0], Popped(w);
    if !CutShort(p, w) {
      var f := FutOf(w.pool, s.t).value;
      if first.kind == PollTask(s.t) {
        StartOwn(q, first, s.(f := f));
      } else if first.kind.TimerFire? {
      } else {
        CrashIsElsewhere(p, w, s.(f := f), tape);
        DispatchLeaves(q, first, tape, s.t);
      }
    }
  }

  lemma OversleptOneMore<L>(p: Prog<L>, v: World<L>, s: Sleeper<L>, tape: EntropyTape)
    requires RunInv(p, v) && Overslept(p, v, s) && s.d - Skew(v.devices, s.node) > U64_MAX
    requires !Resumes(p, v, s) && SameSetting(v, Step(p, v, tape).0, s)
    ensures Overslept(p, Step(p, v, tape).0, s)
  {
    if !Halted(v) {
      if v.pool.current.None? {
        OversleptEvent(p, v, s, tape);
      } else if IsCurrent(v.pool, s.t) {
        OversleptPoll(p, v, s, tape);
      } else {
        OversleptCommand(p, v, s, tape);
      }
    }
  }

  ghost predicate OversleptUpTo<L>(p: Prog<L>, w: World<L>, tape: EntropyTape, s: Sleeper<L>, i: nat) {
    && RunInv(p, WorldAt(p, w, tape, i)) && Overslept(p, WorldAt(p, w, tape, i), s)
    && (i > 0 ==> OversleptUpTo(p, w, tape, s, i - 1))
  }

  // No message resumes the task: it waits for none, or none has.
  ghost predicate Unheard<L>(p: Prog<L>, w: World<L>, tape: EntropyTape, s: Sleeper<L>, n: nat) {
    !WantsMessage(p, s.f) || NotResumedBefore(p, w, tape, s, n)
  }

  lemma OversleptNext<L>(p: Prog<L>, w: World<L>, tape: EntropyTape, s: Sleeper<L>, i: nat)
    requires s.d - Skew(w.devices, s.node) > U64_MAX && 0 < i && Lasting(p, w, tape, s, WantsMessage(p, s.f), i)
    requires OversleptUpTo(p, w, tape, s, i - 1)
    ensures OversleptUpTo(p, w, tape, s, i)
  {
    var (v, tape') := Steps(p, w, tape, i - 1);
    assert Steps(p, w, tape, i) == Step(p, v, tape');
    assert SameSetting(w, WorldAt(p, w, tape, i - 1), s) && SameSetting(w, WorldAt(p, w, tape, i), s);
    StepOk(p, v, tape');
    NeverReached(v, s);
    OversleptOneMore(p, v, s, tape');
  }

  lemma {:induction false} StaysOverslept<L>(p: Prog<L>, w: World<L>, tape: EntropyTape, s: Sleeper<L>, i: nat)
    requires s.d - Skew(w.devices, s.node) > U64_MAX && Lasting(p, w, tape, s, WantsMessage(p, s.f), i)
    requires OversleptUpTo(p, w, tape, s, 0)
    ensures OversleptUpTo(p, w, tape, s, i)
  {
    if i > 0 {
      StaysOverslept(p, w, tape, s, i - 1);
      OversleptNext(p, w, tape, s, i);
    }
  }

  lemma OversleptRun<L>(p: Prog<L>, w: World<L>, tape: EntropyTape, s: Sleeper<L>, n: nat)
    requires Inv(p, w) && !w.aborted && Asleep(p, w, s) && s.d - Skew(w.devices, s.node) > U64_MAX
    requires Steady(p, w, tape, s, n) && Unheard(p, w, tape, s, n)
    ensures StillIn(p, WorldAt(p, w, tape, n), s) && LocalNow(WorldAt(p, w, tape, n), s.node) < s.d
  {
    assert OversleptUpTo(p, w, tape, s, 0);
    Lasts(p, w, tape, s, WantsMessage(p, s.f), n, n);
    StaysOverslept(p, w, tape, s, n);
    var v := WorldAt(p, w, tape, n);
    assert SameSetting(w, v, s);
    NeverReached(v, s);
  }

  // A sleeper whose deadline the skew pushes past the last time there is stays
  // asleep for good.
  lemma SleepNeverResumes<L>(p: Prog<L>, w: World<L>, tape: EntropyTape, s: Sleeper<L>, n: nat)
    requires Inv(p, w) && !w.aborted && Asleep(p, w, s) && s.d - Skew(w.devices, s.node) > U64_MAX
    requires Steady(p, w, tape, s, n) && Awaits(p, s.f) == Some(SleepUntil(s.d))
    ensures var v := WorldAt(p, w, tape, n);
            !Resumes(p, v, s) && StillIn(p, v, s)
  {
    OversleptRun(p, w, tape, s, n);
  }

  // A timed receive with such a deadline never times out: only a message can
  // resume it.
  lemma ReceiveNeverTimesOut<L>(p: Prog<L>, w: World<L>, tape: EntropyTape, s: Sleeper<L>, n: nat)
    requires Inv(p, w) && !w.aborted && Asleep(p, w, s) && s.d - Skew(w.devices, s.node) > U64_MAX
    requires Steady(p, w, tape, s, n) && NotResumedBefore(p, w, tape, s, n)
    ensures var v := WorldAt(p, w, tape, n);
            StillIn(p, v, s) && (Resumes(p, v, s) ==> Hears(p, v, s))
  {
    OversleptRun(p, w, tape, s, n);
  }

  // ----- a deadline that is never reached -----

  // A task that sleeps until the last time there is.
  const DREAMER: Prog<nat> :=
    Prog((local: nat) => Pause(SleepUntil(U64_MAX), (r: Reply) => 1), (node: NodeId, k: nat) => 0, U64_MAX, 1000)

  // Its node's clock runs one nanosecond behind.
  function DreamerSetup(): seq<Setup<nat>> {
    [AddNode(0, 0), FaultNow(ClockSkew(0, -1))]
  }

  lemma DreamerStarts(tape: EntropyTape)
    ensures var (w0, tape0) := Prepare(DreamerSetup(), tape);
            var (w, tape1) := Steps(DREAMER, w0, tape0, 1);
            && !Halted(w) && w.pool.current == Some(Running(0, Fresh(0)))
            && 0 in w.pool.tasks && w.pool.tasks[0].node == 0
            && Skew(w.devices, 0) == -1 && LocalNow(w, 0) == 0
  {
    var setup := DreamerSetup();
    assert setup[..1] == [AddNode(0, 0)] && setup[..1][..0] == [];
    var w0 := AddHost(NewWorld<nat>(), 0, 0);
    assert Prepare(setup[..1], tape) == (w0, tape);
    var w1 := ApplyNemesis(w0, ClockSkew(0, -1));
    assert Prepare(setup, tape) == (w1, tape);
    assert w1.agenda.queue == [Event(0, 0, PollTask(0))];
    assert Steps(DREAMER, w1, tape, 0) == (w1, tape);
    assert Steps(DREAMER, w1, tape, 1) == Step(DREAMER, w1, tape);
  }

  // After two steps it is asleep, and its deadline, less the skew, is later than
  // any time: from there on `SleepNeverResumes` holds of it.
  lemma SomeSleepNeverResumes(tape: EntropyTape) returns (s: Sleeper<nat>)
    ensures var (w0, tape0) := Prepare(DreamerSetup(), tape);
            var w := Steps(DREAMER, w0, tape0, 2).0;
            && Inv(DREAMER, w) && !w.aborted && Asleep(DREAMER, w, s)
            && Awaits(DREAMER, s.f) == Some(SleepUntil(s.d)) && s.d - Skew(w.devices, s.node) > U64_MAX
  {
    var (w0, tape0) := Prepare(DreamerSetup(), tape);
    var (w, tape1) := Steps(DREAMER, w0, tape0, 1);
    DreamerStarts(tape);
    StepsOk(DREAMER, DreamerSetup(), tape, 1);
    StepsOk(DREAMER, DreamerSetup(), tape, 2);
    var r := Running(0, Fresh<nat>(0));
    FirstPollSleeps(DREAMER, w, r, 0, U64_MAX, tape1);
    RunCmdKeepsAborted(DREAMER, w, r, 0, tape1);
    s := Sleeper(0, 0, r.fut.(timer := Some(w.wakers.nextTimer)), U64_MAX);
    assert Steps(DREAMER, w0, tape0, 2) == RunCmd(DREAMER, w, r, 0, tape1);
  }
}
