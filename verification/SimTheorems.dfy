// What users of the simulator rely on, for every run.
module SimTheorems {
  import opened Base
  import opened Nemesis
  import opened Tape
  import opened Queue
  import opened Sim
  import opened SimInvariant
  import opened SimTasks
  import opened SimCommands
  import opened SimDispatch

  // ----- wake-ups -----

  // Exactly one queued event has this kind.
  ghost predicate QueuedOnce(a: Agenda, kind: EventKind) {
    Has(a, kind) && forall e, f :: e in a.queue && f in a.queue && e.kind == kind == f.kind ==> e == f
  }

  // In every world a run reaches before aborting: no receiver is registered at an
  // inbox that holds a message, every live timer has exactly one event queued,
  // and every suspended task has a poll queued or its own source of wake-ups.
  lemma NoLostWakeup<L(!new)>(p: Prog<L>, setup: seq<Setup<L>>, tape: EntropyTape, n: nat)
    requires forall s :: s in setup ==> SetupOk(s)
    ensures var (w0, tape0) := Prepare(setup, tape);
            var w := Steps(p, w0, tape0, n).0;
            !w.aborted ==>
              && (forall node :: Inbox(w.wakers, node) != [] ==> Waiters(w.wakers, node) == [])
              && (forall id :: id in w.wakers.timers ==> QueuedOnce(w.agenda, TimerFire(id)))
              && (forall t :: t in w.pool.tasks && w.pool.tasks[t].fut.Some? ==>
                    Has(w.agenda, PollTask(t))
                    || Sourced(p, w.pool.joins, w.wakers, t, w.pool.tasks[t].node, w.pool.tasks[t].fut.value))
  {
    StepsOk(p, setup, tape, n);
    var (w0, tape0) := Prepare(setup, tape);
    var w := Steps(p, w0, tape0, n).0;
    if !w.aborted {
      forall t | t in w.pool.tasks && w.pool.tasks[t].fut.Some?
        ensures Has(w.agenda, PollTask(t))
                || Sourced(p, w.pool.joins, w.wakers, t, w.pool.tasks[t].node, w.pool.tasks[t].fut.value)
      {
        assert Awake(p, w.agenda, None, w.pool.joins, w.wakers, t, w.pool.tasks[t]);
      }
    }
  }

  // ----- deadlock reports -----

  ghost predicate StuckOnRecv<L>(p: Prog<L>, w: World<L>, slot: Slot<L>) {
    slot.fut.Some? && Awaits(p, slot.fut.value) == Some(Recv) && Inbox(w.wakers, slot.node) == []
  }

  ghost predicate StuckOnJoin<L>(p: Prog<L>, w: World<L>, slot: Slot<L>) {
    && slot.fut.Some? && Awaits(p, slot.fut.value).Some? && Awaits(p, slot.fut.value).value.Join?
    && var handle := Awaits(p, slot.fut.value).value.handle;
       handle in w.pool.tasks && handle in w.pool.joins && !w.pool.joins[handle].done
  }

  // With nothing queued, whoever is left waits for a message that is not there
  // or for a task that is itself left.
  lemma NothingQueued<L>(p: Prog<L>, w: World<L>)
    requires Inv(p, w) && w.agenda.queue == [] && w.pool.current.None?
    ensures forall t :: t in w.pool.tasks ==> StuckOnRecv(p, w, w.pool.tasks[t]) || StuckOnJoin(p, w, w.pool.tasks[t])
  {
    forall t | t in w.pool.tasks ensures StuckOnRecv(p, w, w.pool.tasks[t]) || StuckOnJoin(p, w, w.pool.tasks[t]) {
      assert Awake(p, w.agenda, None, w.pool.joins, w.wakers, t, w.pool.tasks[t]);
      assert forall s :: s in w.pool.joins ==> JoinOk(p, w.pool, s, w.pool.joins[s]);
      assert forall id :: id in w.wakers.timers ==> Due(w.agenda, None, TimerFire(id));
    }
  }

  // A run that ends without aborting reports a deadlock exactly when tasks are
  // left, and then each of them is stuck.
  lemma DeadlockReportSound<L(!new)>(p: Prog<L>, setup: seq<Setup<L>>, tape: EntropyTape, n: nat)
    requires forall s :: s in setup ==> SetupOk(s)
    requires var (w0, tape0) := Prepare(setup, tape);
             var w := Steps(p, w0, tape0, n).0;
             Halted(w) && !w.panicked && !EndingOf(p, w).aborted
    ensures var (w0, tape0) := Prepare(setup, tape);
            var w := Steps(p, w0, tape0, n).0;
            && (EndingOf(p, w).deadlocked <==> w.pool.tasks != map[])
            && forall t :: t in w.pool.tasks ==>
                 StuckOnRecv(p, w, w.pool.tasks[t]) || StuckOnJoin(p, w, w.pool.tasks[t])
  {
    var (w0, tape0) := Prepare(setup, tape);
    var w := Steps(p, w0, tape0, n).0;
    StepsOk(p, setup, tape, n);
    PrepareNotAborted(setup, tape);
    AbortIsReported(p, w0, tape0, n);
    NothingQueued(p, w);
  }

  lemma {:induction false} AbortIsReported<L>(p: Prog<L>, w: World<L>, tape: EntropyTape, n: nat)
    requires !w.aborted
    ensures var w' := Steps(p, w, tape, n).0;
            w'.aborted ==> EndingOf(p, w').aborted
  {
    if n > 0 {
      AbortIsReported(p, w, tape, n - 1);
      var (w1, tape1) := Steps(p, w, tape, n - 1);
      StepAborts(p, w1, tape1);
    }
  }

  lemma StepAborts<L>(p: Prog<L>, w: World<L>, tape: EntropyTape)
    requires w.aborted ==> EndingOf(p, w).aborted
    ensures var w' := Step(p, w, tape).0;
            w'.aborted ==> EndingOf(p, w').aborted
  {
    if !Halted(w) {
      if w.pool.current.Some? {
        var r := w.pool.current.value;
        if r.task in w.pool.tasks { RunCmdKeepsAborted(p, w, r, w.pool.tasks[r.task].node, tape); }
      } else {
        DispatchKeepsAborted(w.(agenda := Pop(w.agenda)), w.agenda.queue[0], tape);
      }
    }
  }

  // ----- crashes -----

  // Crashing a node removes its tasks, inbox, receivers and timers, and from the
  // queue exactly the polls of its tasks, their timers, and the messages to or
  // from it; whatever stays keeps its place.
  lemma CrashLeavesNothing<L>(p: Prog<L>, w: World<L>, node: NodeId)
    requires Inv(p, w) && w.pool.current.None? && node in w.hosts.nodes
    ensures var w' := CrashNode(w, node);
            && node in w'.hosts.crashed
            && TasksOn(w'.pool, node) == {}
            && node !in w'.wakers.inboxes && node !in w'.wakers.waiters
            && (forall id :: id in w'.wakers.timers ==> w'.wakers.timers[id] in w'.pool.tasks)
            && (forall e :: e in w'.agenda.queue ==> e in w.agenda.queue)
            && (forall e :: e in w'.agenda.queue ==>
                  match e.kind
                  case PollTask(t) => t !in TasksOn(w.pool, node)
                  case TimerFire(id) => id in w'.wakers.timers
                  case DeliverMsg(source, target, _) => source != node && target != node
                  case Fault(_) => true)
            && (forall e :: e in w.agenda.queue && e !in w'.agenda.queue ==>
                  match e.kind
                  case PollTask(t) => t in TasksOn(w.pool, node)
                  case TimerFire(id) => id in w.wakers.timers ==> w.wakers.timers[id] in TasksOn(w.pool, node)
                  case DeliverMsg(source, target, _) => source == node || target == node
                  case Fault(_) => false)
            && Sorted(w'.agenda.queue)
  {
    var removed := TasksOn(w.pool, node);
    var timers := CrashWakers(w.wakers, node, removed).timers.Keys;
    CrashNodeOk(p, w, node);
    RetainOk(w.agenda, Survives(node, removed, timers));
  }

  // A task that is gone for good: removed, not running, and with no poll queued.
  ghost predicate Gone<L>(w: World<L>, t: TaskId) {
    t < w.pool.nextTask && t !in w.pool.tasks && !IsCurrent(w.pool, t) && !Has(w.agenda, PollTask(t))
  }

  // Older task ids are never reused, and only live tasks get new polls.
  ghost predicate Onward<L>(w: World<L>, w': World<L>) {
    && w.pool.nextTask <= w'.pool.nextTask
    && forall t: TaskId :: t < w.pool.nextTask && t !in w.pool.tasks ==>
         t !in w'.pool.tasks && (Has(w'.agenda, PollTask(t)) ==> Has(w.agenda, PollTask(t)))
  }

  lemma PushHas(a: Agenda, time: nat, kind: EventKind)
    ensures forall k :: Has(Push(a, time, kind), k) <==> Has(a, k) || k == kind
  {
    var e := Event(time, a.seqno, kind);
    InsertMembers(a.queue, e);
    assert e in Push(a, time, kind).queue;
    forall k | Has(a, k) ensures Has(Push(a, time, kind), k) {
      var f :| f in a.queue && f.kind == k;
      assert f in Push(a, time, kind).queue;
    }
  }

  lemma AddTaskOnward<L>(w: World<L>, node: NodeId, local: L)
    ensures Onward(w, AddTask(w, node, local))
  {
    PushHas(w.agenda, w.agenda.now, PollTask(w.pool.nextTask));
  }

  // Arming a timer queues no poll.
  lemma ArmPolls<L>(w: World<L>, r: Running<L>, node: NodeId, deadline: nat)
    ensures var armed := ArmTimer(w, r, node, deadline).0;
            armed.pool == w.pool && forall t :: Has(armed.agenda, PollTask(t)) <==> Has(w.agenda, PollTask(t))
  {
    PushHas(w.agenda, GlobalDeadline(w, node, deadline), TimerFire(w.wakers.nextTimer));
  }

  lemma SleepOnward<L>(w: World<L>, r: Running<L>, node: NodeId, deadline: nat, resume: Reply -> L)
    requires Runs(w.pool, r, node)
    ensures Onward(w, PollSleep(w, r, node, deadline, resume))
  {
    ArmPolls(ReadClock(w, node), r, node, deadline);
  }

  lemma RecvTimeoutOnward<L>(w: World<L>, r: Running<L>, node: NodeId, duration: nat, resume: Reply -> L)
    requires Runs(w.pool, r, node)
    ensures Onward(w, PollRecvTimeout(w, r, node, duration, resume))
  {
    var local := LocalNow(w, node);
    var deadline := if r.fut.deadline.Some? then r.fut.deadline.value else SatAdd(local, duration);
    ArmPolls(Listening(w, r, node), r, node, deadline);
  }

  lemma AwaitOnward<L>(w: World<L>, r: Running<L>, node: NodeId, what: Await, resume: Reply -> L)
    requires Runs(w.pool, r, node)
    ensures Onward(w, PollAwait(w, r, node, what, resume))
  {
    match what
    case SleepUntil(deadline) => SleepOnward(w, r, node, deadline, resume);
    case RecvTimeout(duration) => RecvTimeoutOnward(w, r, node, duration, resume);
    case Recv =>
    case Join(_) =>
  }

  lemma FinishOnward<L>(p: Prog<L>, w: World<L>, r: Running<L>, node: NodeId, output: int)
    requires Inv(p, w) && Runs(w.pool, r, node)
    ensures Onward(w, FinishTask(w, r, output))
  {
    if r.task in w.pool.joins {
      var joiners := w.pool.joins[r.task].joiners;
      assert JoinOk(p, w.pool, r.task, w.pool.joins[r.task]);
      forall t | t in joiners ensures t in w.pool.tasks {
        assert Joining(p, w.pool, t, w.pool.joins[r.task].node, r.task);
      }
      PushPollsEffect(w.agenda, joiners);
    }
  }

  lemma SendOnward<L>(w: World<L>, r: Running<L>, node: NodeId, target: NodeId, msg: Message, resume: Reply -> L,
                      tape: EntropyTape)
    ensures Onward(w, SendMessage(w, r, node, target, msg, resume, tape).0)
  {
    var (_, at, again) := DrawArrivals(tape, w.devices.faults, w.agenda.now);
    var kind := DeliverMsg(node, target, msg);
    PushHas(w.agenda, at, kind);
    if again.Some? { PushHas(Push(w.agenda, at, kind), again.value, kind); }
  }

  lemma RunCmdOnward<L>(p: Prog<L>, w: World<L>, r: Running<L>, node: NodeId, tape: EntropyTape)
    requires Inv(p, w) && Runs(w.pool, r, node)
    ensures Onward(w, RunCmd(p, w, r, node, tape).0)
  {
    match p.next(r.fut.local)
    case Finish(output) => FinishOnward(p, w, r, node, output);
    case Pause(what, resume) => AwaitOnward(w, r, node, what, resume);
    case Do(op, resume) =>
      if op.Send? {
        SendOnward(w, r, node, op.target, op.msg, resume, tape);
      } else if op.Spawn? {
        AddTaskOnward(w, node, op.child);
      } else {
        LocalCmdShape(p, w, r, node, op, resume);
      }
  }

  lemma TimerOnward<L>(p: Prog<L>, w: World<L>, e: Event, id: TimerId)
    requires TimersOk(w.pool, w.wakers.timers, w.wakers.nextTimer)
    ensures Onward(w, FireTimer(w, e, id))
  {
    if id in w.wakers.timers {
      assert Timing(w.pool, w.wakers.timers[id], id);
      PushHas(w.agenda, w.agenda.now, PollTask(w.wakers.timers[id]));
    }
  }

  lemma DeliverOnward<L>(w: World<L>, e: Event, source: NodeId, target: NodeId, msg: Message)
    requires WaitersOk(w.pool, w.wakers.waiters) && AgendaOk(w.agenda)
    ensures Onward(w, Deliver(w, e, source, target, msg))
  {
    forall t | t in Waiters(w.wakers, target) ensures t in w.pool.tasks {
      assert Receiving(w.pool, t, target);
    }
    PushPollsEffect(w.agenda, Waiters(w.wakers, target));
  }

  lemma DispatchOnward<L>(p: Prog<L>, w: World<L>, e: Event, tape: EntropyTape)
    requires InvDuring(p, w, Some(e.kind)) && w.pool.current.None?
    ensures Onward(w, Dispatch(w, e, tape).0)
  {
    match e.kind
    case TimerFire(id) => TimerOnward(p, w, e, id);
    case PollTask(t) =>
    case Fault(action) => FaultOnward(w, e, action);
    case DeliverMsg(source, target, msg) => DeliverOnward(w, e, source, target, msg);
  }

  lemma FaultOnward<L>(w: World<L>, e: Event, action: NemesisAction)
    ensures Onward(w, DispatchFault(w, e, action))
  {
    if action.Restart? {
      var up := w.(hosts := w.hosts.(crashed := w.hosts.crashed - {action.node}));
      if action.node in w.hosts.factories {
        AddTaskOnward(up, action.node, w.hosts.factories[action.node]);
      }
    } else if action.Crash? {
      var removed := TasksOn(w.pool, action.node);
      var timers := CrashWakers(w.wakers, action.node, removed).timers.Keys;
      RetainMembers(w.agenda.queue, Survives(action.node, removed, timers));
    }
  }

  lemma StepOnward<L>(p: Prog<L>, w: World<L>, tape: EntropyTape)
    requires RunInv(p, w)
    ensures Onward(w, Step(p, w, tape).0)
  {
    if !Halted(w) {
      if w.pool.current.Some? {
        var r := w.pool.current.value;
        RunCmdOnward(p, w, r, w.pool.tasks[r.task].node, tape);
      } else {
        PopDuring(p, w);
        PopOk(w.agenda);
        var popped := w.(agenda := Pop(w.agenda));
        assert forall k :: Has(popped.agenda, k) ==> Has(w.agenda, k);
        DispatchOnward(p, popped, w.agenda.queue[0], tape);
      }
    }
  }

  lemma {:induction false} GoneForGood<L>(p: Prog<L>, w: World<L>, tape: EntropyTape, t: TaskId, n: nat)
    requires RunInv(p, w) && Gone(w, t)
    ensures RunInv(p, Steps(p, w, tape, n).0) && Gone(Steps(p, w, tape, n).0, t)
  {
    if n > 0 {
      GoneForGood(p, w, tape, t, n - 1);
      var (w1, tape1) := Steps(p, w, tape, n - 1);
      StepOk(p, w1, tape1);
      StepOnward(p, w1, tape1);
      StepRunsLive(p, w1, tape1);
    }
  }

  // A running task is a live one.
  lemma StepRunsLive<L>(p: Prog<L>, w: World<L>, tape: EntropyTape)
    requires RunInv(p, w)
    ensures var w' := Step(p, w, tape).0;
            w'.pool.current.Some? ==> w'.pool.current.value.task in w'.pool.tasks
  {
    StepOk(p, w, tape);
  }

  // No task of a crashed node is ever polled again, restart or not.
  lemma CrashIsFinal<L>(p: Prog<L>, w: World<L>, node: NodeId, tape: EntropyTape, t: TaskId, n: nat)
    requires Inv(p, w) && !w.aborted && w.pool.current.None? && node in w.hosts.nodes && t in TasksOn(w.pool, node)
    ensures Gone(Steps(p, CrashNode(w, node), tape, n).0, t)
  {
    CrashNodeOk(p, w, node);
    CrashLeavesNothing(p, w, node);
    GoneForGood(p, CrashNode(w, node), tape, t, n);
  }

  // In every reachable world a crashed node owns no tasks, inbox or receivers,
  // timers belong to tasks that are left, and nothing the node sent is still on
  // its way; in particular a due poll never finds its task on a crashed node.
  lemma CrashedNodesOwnNothing<L(!new)>(p: Prog<L>, setup: seq<Setup<L>>, tape: EntropyTape, n: nat)
    requires forall s :: s in setup ==> SetupOk(s)
    ensures var (w0, tape0) := Prepare(setup, tape);
            var w := Steps(p, w0, tape0, n).0;
            && (forall id :: id in w.wakers.timers ==> w.wakers.timers[id] in w.pool.tasks)
            && forall node :: node in w.hosts.crashed ==>
                 && TasksOn(w.pool, node) == {}
                 && node !in w.wakers.inboxes && node !in w.wakers.waiters
                 && (forall e :: e in w.agenda.queue && e.kind.DeliverMsg? ==> e.kind.source != node)
  {
    StepsOk(p, setup, tape, n);
    var (w0, tape0) := Prepare(setup, tape);
    var w := Steps(p, w0, tape0, n).0;
    assert exists now :: InvDuring(p, w, now) by {
      if !w.aborted { assert InvDuring(p, w, None); }
    }
    var now :| InvDuring(p, w, now);
    forall id | id in w.wakers.timers ensures w.wakers.timers[id] in w.pool.tasks {
      assert Timing(w.pool, w.wakers.timers[id], id);
    }
    forall e | e in w.agenda.queue && e.kind.DeliverMsg? ensures e.kind.source !in w.hosts.crashed {
      assert EventOk(e.kind, w.pool.nextTask, w.wakers.nextTimer, w.hosts.crashed);
    }
  }

  // ----- what a crash does to storage -----

  lemma LocalCmdRot<L>(p: Prog<L>, w: World<L>, r: Running<L>, node: NodeId, op: Op<L>, resume: Reply -> L)
    requires !op.Send? && !op.Spawn?
    ensures LocalCmd(p, w, r, node, op, resume).devices.faults == w.devices.faults
  {
  }

  lemma AwaitRot<L>(w: World<L>, r: Running<L>, node: NodeId, what: Await, resume: Reply -> L)
    ensures PollAwait(w, r, node, what, resume).devices.faults == w.devices.faults
  {
  }

  lemma FaultRot<L>(w: World<L>, action: NemesisAction)
    requires !action.Restart?
    ensures ApplyNemesis(w, action).devices.faults.bitRot == w.devices.faults.bitRot
  {
  }

  lemma RunCmdRot<L>(p: Prog<L>, w: World<L>, r: Running<L>, node: NodeId, tape: EntropyTape)
    ensures RunCmd(p, w, r, node, tape).0.devices.faults == w.devices.faults
  {
    match p.next(r.fut.local)
    case Finish(output) =>
    case Pause(what, resume) => AwaitRot(w, r, node, what, resume);
    case Do(op, resume) =>
      if !op.Send? && !op.Spawn? { LocalCmdRot(p, w, r, node, op, resume); }
  }

  lemma DispatchRot<L>(w: World<L>, e: Event, tape: EntropyTape)
    ensures Dispatch(w, e, tape).0.devices.faults.bitRot == w.devices.faults.bitRot
  {
    if e.kind.Fault? && !e.kind.action.Restart? {
      FaultRot(Counted(w, Dispatched(e)), e.kind.action);
    }
  }

  lemma {:induction false} StepsRot<L>(p: Prog<L>, w: World<L>, tape: EntropyTape, n: nat)
    ensures Steps(p, w, tape, n).0.devices.faults.bitRot == w.devices.faults.bitRot
  {
    if n > 0 {
      StepsRot(p, w, tape, n - 1);
      var (w1, tape1) := Steps(p, w, tape, n - 1);
      if !Halted(w1) {
        if w1.pool.current.Some? {
          var r := w1.pool.current.value;
          if r.task in w1.pool.tasks { RunCmdRot(p, w1, r, w1.pool.tasks[r.task].node, tape1); }
        } else {
          DispatchRot(w1.(agenda := Pop(w1.agenda)), w1.agenda.queue[0], tape1);
        }
      }
    }
  }

  lemma ConfigureRot<L>(w: World<L>, s: Setup<L>, tape: EntropyTape)
    ensures Configure(w, s, tape).0.devices.faults.bitRot == w.devices.faults.bitRot
  {
    if s.FaultNow? && !s.action.Restart? {
      FaultRot(w, s.action);
    }
  }

  lemma {:induction false} PrepareRot<L>(setup: seq<Setup<L>>, tape: EntropyTape)
    ensures Prepare(setup, tape).0.devices.faults.bitRot == {}
    decreases |setup|
  {
    if setup != [] {
      var front, last := setup[..|setup| - 1], setup[|setup| - 1];
      var (w, tape') := Prepare(front, tape);
      PrepareRot(front, tape);
      ConfigureRot(w, last, tape');
    }
  }

  // In every world a run reaches, crashing a node keeps its unflushed bytes
  // unless it was told to lose them: nothing ever joins the set of nodes that
  // rot on a crash, and the loss the documentation describes for every crash is
  // opt-in.
  lemma CrashKeepsUnflushed<L>(p: Prog<L>, setup: seq<Setup<L>>, tape: EntropyTape, n: nat, node: NodeId)
    requires var (w0, tape0) := Prepare(setup, tape); node in Steps(p, w0, tape0, n).0.hosts.nodes
    ensures var (w0, tape0) := Prepare(setup, tape);
            var w := Steps(p, w0, tape0, n).0;
            CrashNode(w, node).devices.storage ==
              if node in w.devices.faults.lost
              then w.devices.storage[node := PS.Recover(StoreAt(w, node), false)]
              else w.devices.storage
  {
    var (w0, tape0) := Prepare(setup, tape);
    PrepareRot(setup, tape);
    StepsRot(p, w0, tape0, n);
  }

  // ----- a crash that loses nothing -----

  // A task that writes one byte without flushing it, then waits for a message.
  const WRITER: Prog<nat> :=
    Prog((local: nat) => if local == 0 then Do(Write(0, [1]), (r: Reply) => 1) else Pause(Recv, (r: Reply) => local),
         (node: NodeId, k: nat) => 0, 1000, 1000)

  ghost predicate NoStorageFaults(f: Faults) {
    f.torn == {} && f.lost == {} && f.bitRot == {}
  }

  lemma WriterStarts(tape: EntropyTape)
    ensures var (w0, tape0) := Prepare([AddNode(0, 0)], tape);
            var w := Steps(WRITER, w0, tape0, 1).0;
            && Steps(WRITER, w0, tape0, 1).1 == tape
            && !Halted(w) && w.pool.current == Some(Running(0, Fresh(0))) && 0 in w.hosts.nodes
            && 0 in w.pool.tasks && w.pool.tasks[0].node == 0
            && StoreAt(w, 0) == PS.EMPTY && NoStorageFaults(w.devices.faults)
  {
    var setup: seq<Setup<nat>> := [AddNode(0, 0)];
    assert setup[..0] == [];
    var w0 := AddHost(NewWorld<nat>(), 0, 0);
    assert Prepare(setup, tape) == (w0, tape);
    assert w0.agenda.queue == [Event(0, 0, PollTask(0))];
    assert Steps(WRITER, w0, tape, 0) == (w0, tape);
    assert Steps(WRITER, w0, tape, 1) == Step(WRITER, w0, tape);
  }

  lemma WriterWrites(w: World<nat>, tape: EntropyTape)
    requires !Halted(w) && w.pool.current == Some(Running(0, Fresh(0)))
    requires 0 in w.pool.tasks && w.pool.tasks[0].node == 0
    requires StoreAt(w, 0) == PS.EMPTY && NoStorageFaults(w.devices.faults)
    ensures var w' := Step(WRITER, w, tape).0;
            && StoreAt(w', 0) == PS.Store([1], [], [PS.LogEntry(0, [1])])
            && NoStorageFaults(w'.devices.faults) && w'.hosts == w.hosts
  {
    assert PS.ApplyBytes([], 0, [1]) == [1];
  }

  // Its node crashes with a byte pending that was never committed, and keeps it.
  lemma UnflushedByteSurvivesCrash(tape: EntropyTape)
    ensures var (w0, tape0) := Prepare([AddNode(0, 0)], tape);
            var w := Steps(WRITER, w0, tape0, 2).0;
            && 0 in w.hosts.nodes && 0 in CrashNode(w, 0).hosts.crashed
            && StoreAt(CrashNode(w, 0), 0) == PS.Store([1], [], [PS.LogEntry(0, [1])])
  {
    WriterStarts(tape);
    var (w0, tape0) := Prepare([AddNode(0, 0)], tape);
    WriterWrites(Steps(WRITER, w0, tape0, 1).0, tape);
  }
}
