// The simulator's state updated in place. Every method is proved equal to the
// function of the world it carries out, so what is proved of all runs of the
// functions holds of the runs of this class.
module SimInner {
  import opened Base
  import opened Nemesis
  import opened Planners
  import opened Plans
  import opened Tape
  import opened Queue
  import opened Sim
  import opened SimClock
  import opened SimDispatch

  datatype PopResult = Quiesce | Abort | Poll

  class Inner<L> {
    const prog: Prog<L>
    var agenda: Agenda
    var pool: Pool<L>
    var wakers: Wakers
    var hosts: Hosts<L>
    var devices: Devices
    var log: Log
    var aborted: bool
    var panicked: bool
    var tape: EntropyTape

    ghost function State(): World<L>
      reads this
    {
      World(agenda, pool, wakers, hosts, devices, log, aborted, panicked)
    }

    constructor (prog: Prog<L>, tape: EntropyTape)
      ensures State() == NewWorld() && this.tape == tape && this.prog == prog
    {
      this.prog, this.tape := prog, tape;
      agenda := Agenda(0, 0, [], []);
      pool := Pool(map[], 0, None, map[]);
      wakers := Wakers(map[], map[], map[], 0);
      hosts := Hosts({}, map[], {});
      devices := Devices(map[], NO_FAULTS, map[], map[]);
      log := Log([], [], [], 0);
      aborted, panicked := false, false;
    }

    // ----- queue, receivers, timers -----

    method PushEvent(time: nat, kind: EventKind)
      modifies `agenda
      ensures agenda == Push(old(agenda), time, kind)
    {
      var e := Event(time, agenda.seqno, kind);
      agenda := agenda.(seqno := agenda.seqno + 1, queue := Insert(agenda.queue, e));
    }

    method EnqueuePolls(list: seq<TaskId>)
      modifies `agenda
      ensures agenda == PushPolls(old(agenda), list)
    {
      ghost var goal := PushPolls(agenda, list);
      for i := 0 to |list|
        invariant PushPolls(agenda, list[i..]) == goal
      {
        assert list[i..][0] == list[i] && list[i..][1..] == list[i+1..];
        PushEvent(agenda.now, PollTask(list[i]));
      }
      assert list[|list|..] == [];
    }

    method AddNewTask(node: NodeId, local: L) returns (id: TaskId)
      modifies `pool, `agenda
      ensures id == old(pool.nextTask) && State() == AddTask(old(State()), node, local)
    {
      id := pool.nextTask;
      pool := pool.(nextTask := id + 1, tasks := pool.tasks[id := Slot(node, Some(Fresh(local)))]);
      PushEvent(agenda.now, PollTask(id));
    }

    method RegisterRecvWaiter(node: NodeId, task: TaskId)
      modifies `wakers
      ensures wakers == AddWaiter(old(wakers), node, task)
    {
      var list := GetOr(wakers.waiters, node, []);
      if task !in list {
        list := list + [task];
      }
      wakers := wakers.(waiters := wakers.waiters[node := list]);
    }

    method UnregisterRecvWaiter(node: NodeId, task: TaskId)
      modifies `wakers
      ensures wakers == DropWaiter(old(wakers), node, task)
    {
      if node in wakers.waiters {
        wakers := wakers.(waiters := wakers.waiters[node := Remove(wakers.waiters[node], task)]);
      }
    }

    method CancelOptional(timer: Option<TimerId>)
      modifies `wakers
      ensures wakers == CancelTimer(old(wakers), timer)
    {
      if timer.Some? {
        wakers := wakers.(timers := wakers.timers - {timer.value});
      }
    }

    // ----- clocks -----

    method ReadLocalClock(node: NodeId) returns (local: nat)
      modifies `devices
      ensures local == old(LocalNow(State(), node)) && State() == ReadClock(old(State()), node)
    {
      var candidate := ClampU64(agenda.now + GetOr(devices.faults.skew, node, 0));
      local := GetOr(devices.lastLocal, node, 0);
      if candidate > local {
        local := candidate;
      }
      devices := devices.(lastLocal := devices.lastLocal[node := local]);
    }

    // ----- the running task -----

    method ContinueWith(r: Running<L>, local: L)
      modifies `pool
      ensures State() == Continue(old(State()), r, local)
    {
      pool := pool.(current := Some(Running(r.task, Fresh(local))));
    }

    method Suspend(r: Running<L>, node: NodeId, fut: Fut<L>)
      modifies `pool
      ensures State() == Park(old(State()), r, node, fut)
    {
      pool := pool.(current := None, tasks := pool.tasks[r.task := Slot(node, Some(fut))]);
    }

    method Arm(r: Running<L>, node: NodeId, deadline: nat) returns (timer: Option<TimerId>)
      modifies `wakers, `agenda
      ensures (State(), timer) == ArmTimer(old(State()), r, node, deadline)
    {
      timer := r.fut.timer;
      if timer.Some? && timer.value !in wakers.timers {
        timer := None;
      }
      if timer.None? {
        var id := wakers.nextTimer;
        var at := Max(ClampU64(deadline - GetOr(devices.faults.skew, node, 0)), agenda.now);
        wakers := wakers.(nextTimer := id + 1, timers := wakers.timers[id := r.task]);
        PushEvent(at, TimerFire(id));
        timer := Some(id);
      }
    }

    method Take(r: Running<L>, node: NodeId, resume: Reply -> L)
      requires Inbox(wakers, node) != []
      modifies `wakers, `pool
      ensures State() == TakeMessage(old(State()), r, node, resume)
    {
      var inbox := wakers.inboxes[node];
      wakers := wakers.(inboxes := wakers.inboxes[node := inbox[1..]]);
      if r.fut.waiting {
        UnregisterRecvWaiter(node, r.task);
      }
      CancelOptional(r.fut.timer);
      ContinueWith(r, resume(Received(inbox[0].0, inbox[0].1)));
    }

    method Receive(r: Running<L>, node: NodeId, resume: Reply -> L)
      modifies `wakers, `pool
      ensures State() == PollRecv(old(State()), r, node, resume)
    {
      if node in wakers.inboxes && wakers.inboxes[node] != [] {
        Take(r, node, resume);
      } else {
        RegisterRecvWaiter(node, r.task);
        Suspend(r, node, r.fut.(waiting := true));
      }
    }

    method Sleep(r: Running<L>, node: NodeId, deadline: nat, resume: Reply -> L)
      modifies `devices, `wakers, `agenda, `pool
      ensures State() == PollSleep(old(State()), r, node, deadline, resume)
    {
      var local := ReadLocalClock(node);
      if local >= deadline {
        CancelOptional(r.fut.timer);
        ContinueWith(r, resume(Nothing));
      } else {
        var timer := Arm(r, node, deadline);
        Suspend(r, node, r.fut.(timer := timer));
      }
    }

    method ReceiveOrTimeOut(r: Running<L>, node: NodeId, duration: nat, resume: Reply -> L)
      modifies `devices, `wakers, `agenda, `pool
      ensures State() == PollRecvTimeout(old(State()), r, node, duration, resume)
    {
      if node in wakers.inboxes && wakers.inboxes[node] != [] {
        Take(r, node, resume);
      } else {
        var local := Listen(r, node);
        var deadline := if r.fut.deadline.Some? then r.fut.deadline.value else SatAdd(local, duration);
        if local >= deadline {
          GiveUp(r, node, resume(TimedOut));
        } else {
          AwaitUntil(r, node, deadline);
        }
      }
    }

    method Listen(r: Running<L>, node: NodeId) returns (local: nat)
      modifies `wakers, `devices
      ensures local == LocalNow(old(State()), node) && State() == Listening(old(State()), r, node)
    {
      RegisterRecvWaiter(node, r.task);
      local := ReadLocalClock(node);
    }

    // The timeout wins: the receive and the timer are released.
    method GiveUp(r: Running<L>, node: NodeId, local: L)
      modifies `wakers, `pool
      ensures var k := CancelTimer(DropWaiter(old(wakers), node, r.task), r.fut.timer);
              State() == Continue(old(State()).(wakers := k), r, local)
    {
      UnregisterRecvWaiter(node, r.task);
      CancelOptional(r.fut.timer);
      ContinueWith(r, local);
    }

    method AwaitUntil(r: Running<L>, node: NodeId, deadline: nat)
      modifies `wakers, `agenda, `pool
      ensures var (armed, timer) := ArmTimer(old(State()), r, node, deadline);
              State() == Park(armed, r, node, Fut(r.fut.local, true, timer, Some(deadline)))
    {
      var timer := Arm(r, node, deadline);
      Suspend(r, node, Fut(r.fut.local, true, timer, Some(deadline)));
    }

    method AwaitJoin(r: Running<L>, node: NodeId, handle: TaskId, resume: Reply -> L)
      modifies `pool, `panicked
      ensures State() == PollJoin(old(State()), r, node, handle, resume)
    {
      if handle !in pool.joins || pool.joins[handle].node != node {
        panicked := true;
        return;
      }
      var slot := pool.joins[handle];
      if slot.done {
        ContinueWith(r, resume(Joined(slot.output)));
      } else {
        if r.task !in slot.joiners {
          slot := slot.(joiners := slot.joiners + [r.task]);
        }
        pool := pool.(joins := pool.joins[handle := slot]);
        Suspend(r, node, r.fut);
      }
    }

    method End(r: Running<L>, output: int)
      modifies `pool, `agenda
      ensures State() == FinishTask(old(State()), r, output)
    {
      pool := pool.(current := None, tasks := pool.tasks - {r.task});
      if r.task in pool.joins {
        var slot := pool.joins[r.task];
        pool := pool.(joins := pool.joins[r.task := slot.(done := true, output := output, joiners := [])]);
        EnqueuePolls(slot.joiners);
      }
    }

    // ----- entropy -----

    method DrawValue(tag: TapeLabel) returns (v: nat)
      modifies `tape
      ensures (tape, v) == Draw(old(tape), tag)
    {
      v := NextValue(tape);
      match tape
      case Generate(stream, drawn, events) =>
        tape := Generate(stream, drawn + [v], events + [TapeEvent(|drawn|, tag, v)]);
      case Replay(recording, cursor, drawn, events) =>
        tape := Replay(recording, cursor + 1, drawn + [v], events + [TapeEvent(cursor, tag, v)]);
    }

    method DrawChance(percent: nat, tag: TapeLabel) returns (hit: bool)
      modifies `tape
      ensures (tape, hit) == DrawPercent(old(tape), percent, tag)
    {
      if percent == 0 {
        return false;
      }
      var v := DrawValue(tag);
      hit := v % 100 < Min(percent, 100);
    }

    method DrawNetDelay() returns (delay: nat)
      modifies `tape
      ensures (tape, delay) == DrawDelay(old(tape), devices.faults.extraDelayMs)
    {
      var v := DrawValue(NetDelay);
      delay := 1 + v % 100;
      if devices.faults.extraDelayMs != 0 {
        var x := DrawValue(ExtraDelay);
        delay := delay + x % (devices.faults.extraDelayMs + 1);
      }
    }

    method SendFrom(r: Running<L>, node: NodeId, target: NodeId, msg: Message, resume: Reply -> L)
      modifies `log, `agenda, `pool, `tape
      ensures (State(), tape) == SendMessage(old(State()), r, node, target, msg, resume, old(tape))
    {
      if node in hosts.crashed {
        log := log.(trace := log.trace + [SendFromCrashed(node, target)]);
      } else {
        Deal(DeliverMsg(node, target, msg));
      }
      ContinueWith(r, resume(Nothing));
    }

    // Queue a delivery, and a second one when it is duplicated.
    method Deal(delivery: EventKind)
      requires delivery.DeliverMsg?
      modifies `agenda, `tape
      ensures var (drawn, at, again) := DrawArrivals(old(tape), devices.faults, old(agenda.now));
              && tape == drawn
              && agenda == Transmit(old(agenda), delivery.source, delivery.target, delivery.msg, at, again)
    {
      var delay := DrawNetDelay();
      var at := SatAdd(agenda.now, delay * NANOS_PER_MILLI);
      PushEvent(at, delivery);
      var duplicate := DrawChance(devices.faults.duplicatePercent, DuplicateDecision);
      if duplicate {
        var x := DrawValue(ExtraDelay);
        PushEvent(SatAdd(at, (1 + x % 10) * NANOS_PER_MILLI), delivery);
      }
    }

    method SpawnFrom(r: Running<L>, node: NodeId, child: L, resume: Reply -> L)
      modifies `pool, `agenda
      ensures State() == SpawnTask(old(State()), r, node, child, resume)
    {
      pool := pool.(joins := pool.joins[pool.nextTask := JoinSlot(node, false, 0, [])]);
      var id := AddNewTask(node, child);
      ContinueWith(r, resume(Number(id)));
    }

    method SaveStore(node: NodeId, store: PS.Store)
      modifies `devices
      ensures State() == SetStore(old(State()), node, store)
    {
      devices := devices.(storage := devices.storage[node := store]);
    }

    // A node's storage device, created empty on first use.
    method OpenDevice(node: NodeId) returns (device: PS.Device)
      ensures fresh(device) && device.Contents() == StoreAt(State(), node)
    {
      device := new PS.Device.Holding(GetOr(devices.storage, node, PS.EMPTY));
    }

    method WriteStore(node: NodeId, offset: nat, data: PS.Bytes)
      modifies `devices
      ensures var w := old(State());
              State() == SetStore(w, node, PS.WriteAt(StoreAt(w, node), offset, data, node in w.devices.faults.torn))
    {
      var device := OpenDevice(node);
      device.Write(offset, data, node in devices.faults.torn);
      var store := device.Snapshot();
      SaveStore(node, store);
    }

    method FlushStore(node: NodeId)
      modifies `devices
      ensures var w := old(State());
              State() == SetStore(w, node, PS.Flush(StoreAt(w, node), node in w.devices.faults.reorder))
    {
      var device := OpenDevice(node);
      device.FlushAll(node in devices.faults.reorder);
      var store := device.Snapshot();
      SaveStore(node, store);
    }

    method RecoverStore(node: NodeId, bitRot: bool)
      modifies `devices
      ensures State() == SetStore(old(State()), node, PS.Recover(StoreAt(old(State()), node), bitRot))
    {
      var device := OpenDevice(node);
      device.CrashRecover(bitRot);
      var store := device.Snapshot();
      SaveStore(node, store);
    }

    method RunLocal(r: Running<L>, node: NodeId, op: Op<L>, resume: Reply -> L)
      requires !op.Send? && !op.Spawn?
      modifies `devices, `log, `pool, `panicked
      ensures State() == LocalCmd(prog, old(State()), r, node, op, resume)
    {
      var store := GetOr(devices.storage, node, PS.EMPTY);
      match op {
        case Now =>
          var local := ReadLocalClock(node);
          ContinueWith(r, resume(Number(local)));
        case Rng =>
          var n := GetOr(devices.rngCounter, node, 0);
          devices := devices.(rngCounter := devices.rngCounter[node := n + 1]);
          ContinueWith(r, resume(Number(prog.rng(node, n))));
        case Record(line) =>
          log := log.(history := log.history + [Line(line)]);
          ContinueWith(r, resume(Nothing));
        case Write(offset, data) =>
          WriteStore(node, offset, data);
          ContinueWith(r, resume(Nothing));
        case Flush =>
          FlushStore(node);
          ContinueWith(r, resume(Nothing));
        case Length =>
          ContinueWith(r, resume(Number(|store.pending|)));
        case Read(start, len) =>
          if node !in devices.storage {
            ContinueWith(r, resume(Bytes([])));
          } else {
            var read := PS.ReadAt(store, start, len);
            if read.None? {
              panicked := true;
            } else {
              ContinueWith(r, resume(Bytes(read.value)));
            }
          }
      }
    }

    // One command of the running task.
    method RunCommand(r: Running<L>, node: NodeId)
      modifies this
      ensures (State(), tape) == RunCmd(prog, old(State()), r, node, old(tape))
    {
      match prog.next(r.fut.local) {
        case Finish(output) => End(r, output);
        case Pause(what, resume) =>
          match what {
            case Recv => Receive(r, node, resume);
            case SleepUntil(deadline) => Sleep(r, node, deadline, resume);
            case RecvTimeout(duration) => ReceiveOrTimeOut(r, node, duration, resume);
            case Join(handle) => AwaitJoin(r, node, handle, resume);
          }
        case Do(op, resume) =>
          if op.Send? {
            SendFrom(r, node, op.target, op.msg, resume);
          } else if op.Spawn? {
            SpawnFrom(r, node, op.child, resume);
          } else {
            RunLocal(r, node, op, resume);
          }
      }
    }

    // ----- faults -----

    // Keep, in order, the events that outlive the crash.
    method SweepQueue(node: NodeId, removed: set<TaskId>, live: set<TimerId>)
      modifies `agenda
      ensures agenda == CrashAgenda(old(agenda), node, removed, live)
    {
      var kept: seq<Event> := [];
      var queue := agenda.queue;
      ghost var keep := Survives(node, removed, live);
      ghost var goal := Retain(queue, keep);
      for i := 0 to |queue|
        invariant agenda == old(agenda) && kept + Retain(queue[i..], keep) == goal
      {
        RetainStep(queue, i, keep);
        if LiveAfterCrash(queue[i].kind, node, removed, live) {
          MoveAcross(kept, [queue[i]], Retain(queue[i+1..], keep));
          kept := kept + [queue[i]];
        }
      }
      assert queue[|queue|..] == [] && kept + [] == kept;
      agenda := agenda.(queue := kept);
    }

    method CrashHost(node: NodeId)
      modifies `agenda, `pool, `wakers, `hosts, `devices
      ensures State() == CrashNode(old(State()), node)
    {
      if node !in hosts.nodes {
        return;
      }
      hosts := hosts.(crashed := hosts.crashed + {node});
      var removed := set t | t in pool.tasks && pool.tasks[t].node == node;
      pool := pool.(tasks := pool.tasks - removed,
                    joins := map s | s in pool.joins && pool.joins[s].node != node :: pool.joins[s]);
      wakers := Wakers(wakers.inboxes - {node},
                       map n | n in wakers.waiters && n != node :: RemoveAll(wakers.waiters[n], removed),
                       map id | id in wakers.timers && wakers.timers[id] !in removed :: wakers.timers[id],
                       wakers.nextTimer);
      var rot := node in devices.faults.bitRot;
      if node in devices.faults.lost || rot {
        RecoverStore(node, rot);
      }
      SweepQueue(node, removed, wakers.timers.Keys);
    }

    method RestartHost(node: NodeId)
      modifies `agenda, `pool, `hosts, `log
      ensures State() == RestartAndRecord(old(State()), node)
    {
      var outcome: RestartOutcome;
      if node !in hosts.nodes {
        outcome := NodeMissing;
      } else if node !in hosts.crashed {
        outcome := NodeNotCrashed;
      } else if node !in hosts.factories {
        outcome := MissingFactory;
      } else {
        hosts := hosts.(crashed := hosts.crashed - {node});
        var id := AddNewTask(node, hosts.factories[node]);
        outcome := Restarted;
      }
      log := log.(history := log.history + [Restarting(node, outcome)]);
    }

    method ApplyFault(action: NemesisAction)
      requires !action.Restart?
      modifies `agenda, `pool, `wakers, `hosts, `devices, `log
      ensures State() == ApplyNemesis(old(State()), action)
    {
      log := log.(nemesisTrace := log.nemesisTrace + [action]);
      if action.Crash? {
        CrashHost(action.node);
      } else {
        DisturbDevices(action);
      }
    }

    // The faults that only change a setting, the links or a device.
    method DisturbDevices(action: NemesisAction)
      requires !action.Crash? && !action.Restart?
      modifies `devices
      ensures devices == Disturb(old(devices), action)
    {
      var f := devices.faults;
      match action {
        case Partition(_) => ChangeLinks(action);
        case AsymmetricPartition(_, _) => ChangeLinks(action);
        case SetLink(_, _, _) => ChangeLinks(action);
        case HealAll => ChangeLinks(action);
        case ClockSkew(node, offset) =>
          devices := devices.(faults := f.(skew := f.skew[node := offset]));
        case BitRot(node) =>
          if node in devices.storage {
            RecoverStore(node, true);
          }
        case TornWrite(node) =>
          devices := devices.(faults := f.(torn := f.torn + {node}));
        case LostOnCrash(node) =>
          devices := devices.(faults := f.(lost := f.lost + {node}));
        case PreFsyncReorder(node) =>
          devices := devices.(faults := f.(reorder := f.reorder + {node}));
      }
    }

    method ChangeLinks(action: NemesisAction)
      requires action.Partition? || action.AsymmetricPartition? || action.SetLink? || action.HealAll?
      modifies `devices
      ensures devices == Disturb(old(devices), action)
    {
      var links := new ConnectivityMatrix.Of(devices.faults.matrix);
      match action {
        case Partition(groups) => links.Partition(groups);
        case AsymmetricPartition(source, target) => links.BlockEdge(source, target);
        case SetLink(source, target, up) => links.SetOneLink(source, target, up);
        case HealAll => links.HealAll();
      }
      var matrix := links.Snapshot();
      devices := devices.(faults := devices.faults.(matrix := matrix));
    }

    method ScheduleNext(plan: Plan) returns (scheduled: bool)
      modifies `agenda, `tape, plan
      ensures var (rest, past, next) := Answer(plan.rule, old(plan.past), ViewOf(old(State())), old(tape));
              && tape == rest && plan.past == past && scheduled == next.Some?
              && agenda.now == old(agenda.now)
              && match next
                 case None => agenda == old(agenda)
                 case Some(t) => agenda == Push(old(agenda), t.time, Fault(t.action))
    {
      var next;
      tape, next := plan.NextAction(WorldView(agenda.now, hosts.nodes, hosts.crashed, devices.faults.matrix), tape);
      scheduled := next.Some?;
      if scheduled {
        PushEvent(next.value.time, Fault(next.value.action));
      }
    }

    // Ask a plan for up to `maxActions` actions and queue each as it comes.
    method ScheduleNemesisPlan(plan: Plan, maxActions: nat) returns (scheduled: nat)
      modifies `agenda, `tape, plan
      ensures (State(), tape) == RunPlan(old(State()), plan.rule, old(plan.past), maxActions, old(tape))
      ensures var (_, past, out) := Consult(plan.rule, old(plan.past), ViewOf(old(State())), old(tape), maxActions);
              plan.past == past && scheduled == |out|
    {
      scheduled := 0;
      ghost var view, start := ViewOf(State()), agenda;
      ghost var whole := Consult(plan.rule, plan.past, view, tape, maxActions);
      ghost var todo := whole.2;
      var more := true;
      while more && scheduled < maxActions
        invariant agenda.now == start.now && scheduled <= maxActions && scheduled + |todo| == |whole.2|
        invariant PushFaults(agenda, todo) == PushFaults(start, whole.2)
        invariant (whole.0, whole.1, todo) ==
                  if more then Consult(plan.rule, plan.past, view, tape, maxActions - scheduled)
                  else (tape, plan.past, [])
        decreases maxActions - scheduled, more
      {
        ConsultStep(plan.rule, plan.past, view, tape, maxActions - scheduled);
        more := ScheduleNext(plan);
        if more {
          todo := todo[1..];
          scheduled := scheduled + 1;
        }
      }
    }

    // One set-up call made on the world before it runs.
    method SetUp(s: Setup<L>)
      modifies this
      ensures (State(), tape) == Configure(old(State()), s, old(tape))
    {
      var f := devices.faults;
      match s {
        case AddNode(node, entry) =>
          if node in hosts.nodes {
            panicked := true;
          } else {
            RegisterHost(node, entry);
          }
        case ScheduleFault(at, action) =>
          PushEvent(at, Fault(action));
        case PlanFaults(rule, max) =>
          var plan := new Plan(rule);
          var scheduled := ScheduleNemesisPlan(plan, max);
        case FaultNow(action) =>
          if action.Restart? {
            RestartHost(action.node);
          } else {
            ApplyFault(action);
          }
        case SetDropPercent(percent) =>
          devices := devices.(faults := f.(dropPercent := Min(percent, 100)));
        case SetDuplicatePercent(percent) =>
          devices := devices.(faults := f.(duplicatePercent := Min(percent, 100)));
        case SetExtraDelay(ms) =>
          devices := devices.(faults := f.(extraDelayMs := ms));
      }
    }

    method RegisterHost(node: NodeId, entry: L)
      modifies `hosts, `wakers, `devices, `pool, `agenda
      ensures State() == AddHost(old(State()), node, entry)
    {
      var f := devices.faults;
      hosts := hosts.(nodes := hosts.nodes + {node}, factories := hosts.factories[node := entry]);
      devices := devices.(faults := f.(matrix := f.matrix.AddNode(node)));
      wakers := wakers.(inboxes := wakers.inboxes[node := GetOr(wakers.inboxes, node, [])]);
      SaveStore(node, GetOr(devices.storage, node, PS.EMPTY));
      var id := AddNewTask(node, entry);
    }

    // ----- the event loop -----

    method Count(entry: TraceEntry)
      modifies `log
      ensures State() == Counted(old(State()), entry)
    {
      log := log.(dispatched := log.dispatched + 1, trace := log.trace + [entry]);
    }

    method DeliverMessage(e: Event, source: NodeId, target: NodeId, msg: Message)
      modifies `log, `wakers, `agenda, `tape
      ensures (State(), tape) == DeliverOrDrop(old(State()), e, source, target, msg, old(tape))
    {
      if target !in hosts.nodes {
        Count(Dropped(e, Unregistered));
        return;
      }
      if target in hosts.crashed || source in hosts.crashed {
        Count(Dropped(e, CrashedEnd));
        return;
      }
      if !devices.faults.matrix.IsConnected(source, target) {
        Count(Dropped(e, Partitioned));
        return;
      }
      var lost := DrawChance(devices.faults.dropPercent, DropDecision);
      if lost {
        Count(Dropped(e, AtRandom));
        return;
      }
      Count(Dispatched(e));
      var woken := GetOr(wakers.waiters, target, []);
      wakers := wakers.(
        inboxes := wakers.inboxes[target := GetOr(wakers.inboxes, target, []) + [(source, msg)]],
        waiters := if target in wakers.waiters then wakers.waiters[target := []] else wakers.waiters);
      EnqueuePolls(woken);
    }

    method DispatchEvent(e: Event)
      modifies this
      ensures (State(), tape) == Dispatch(old(State()), e, old(tape))
    {
      match e.kind {
        case TimerFire(id) =>
          if id in wakers.timers {
            var task := wakers.timers[id];
            wakers := wakers.(timers := wakers.timers - {id});
            Count(Dispatched(e));
            PushEvent(agenda.now, PollTask(task));
          }
        case DeliverMsg(source, target, msg) =>
          DeliverMessage(e, source, target, msg);
        case Fault(action) =>
          Count(Dispatched(e));
          if action.Restart? {
            log := log.(nemesisTrace := log.nemesisTrace + [action]);
            RestartHost(action.node);
          } else {
            ApplyFault(action);
          }
        case PollTask(t) =>
          if t in pool.tasks && pool.tasks[t].fut.Some? {
            var slot := pool.tasks[t];
            pool := pool.(tasks := pool.tasks[t := slot.(fut := None)]);
            if slot.node !in hosts.crashed {
              Count(Dispatched(e));
              pool := pool.(current := Some(Running(t, slot.fut.value)));
            }
          }
      }
    }

    // Pop one event; each one counts, or only shortens the queue, or aborts.
    method PopEvent()
      requires pool.current.None? && !aborted && !panicked && agenda.queue != []
      modifies this
      ensures (State(), tape) == Step(prog, old(State()), old(tape))
      ensures !panicked
      ensures || aborted
              || (old(log.dispatched) < log.dispatched <= prog.maxEvents)
              || (log == old(log) && |agenda.queue| < |old(agenda.queue)| && pool.current.None?)
    {
      LoopProgress(prog, State(), tape);
      var e := agenda.queue[0];
      agenda := Agenda(e.time, agenda.seqno, agenda.queue[1..], agenda.popped + [Key(e)]);
      if agenda.now > prog.horizon || log.dispatched >= prog.maxEvents {
        aborted := true;
      } else {
        DispatchKeepsAborted(State(), e, tape);
        DispatchEvent(e);
      }
    }

    // The world n steps into the run that began at (w0, tape0).
    ghost predicate At(w0: World<L>, tape0: EntropyTape, n: nat)
      reads this
    {
      (State(), tape) == Steps(prog, w0, tape0, n)
    }

    // Pop events until a task is polled, the queue is empty, or a limit is hit.
    method PopUntilPoll(ghost w0: World<L>, ghost tape0: EntropyTape, ghost n0: nat)
      returns (result: PopResult, ghost n: nat)
      requires pool.current.None? && !aborted && !panicked && At(w0, tape0, n0)
      modifies this
      ensures At(w0, tape0, n) && !panicked
      ensures match result
              case Quiesce => pool.current.None? && agenda.queue == [] && !aborted
              case Abort => aborted
              case Poll => pool.current.Some? && !aborted && old(log.dispatched) < log.dispatched <= prog.maxEvents
    {
      n := n0;
      while agenda.queue != []
        invariant pool.current.None? && !aborted && !panicked && At(w0, tape0, n)
        invariant log.dispatched >= old(log.dispatched)
        decreases prog.maxEvents - log.dispatched, |agenda.queue|
      {
        n := n + 1;
        PopEvent();
        if aborted {
          return Abort, n;
        }
        if pool.current.Some? {
          return Poll, n;
        }
      }
      result := Quiesce;
    }

    // The running task's next command, as a step of the world.
    method StepCurrent()
      requires pool.current.Some? && !aborted && !panicked
      modifies this
      ensures (State(), tape) == Step(prog, old(State()), old(tape))
      ensures !aborted && log.dispatched == old(log.dispatched)
    {
      var r := pool.current.value;
      if r.task in pool.tasks {
        RunCmdCounts(prog, State(), r, pool.tasks[r.task].node, tape);
        RunCmdKeepsAborted(prog, State(), r, pool.tasks[r.task].node, tape);
        RunCommand(r, pool.tasks[r.task].node);
      } else {
        panicked := true;
      }
    }

    // The last k of the n steps were commands of the task being polled.
    ghost predicate Polling(w0: World<L>, tape0: EntropyTape, n: nat, k: nat)
      reads this
    {
      At(w0, tape0, n) && !aborted && k <= n && PolledFor(prog, w0, tape0, n, k)
    }

    method StepPolled(ghost w0: World<L>, ghost tape0: EntropyTape, ghost n: nat, ghost k: nat)
      returns (ghost n': nat, ghost k': nat)
      requires pool.current.Some? && !panicked && Polling(w0, tape0, n, k)
      modifies this
      ensures n' == n + 1 && k' == k + 1
      ensures Polling(w0, tape0, n', k') && log.dispatched == old(log.dispatched)
    {
      n', k' := n + 1, k + 1;
      PolledMore(prog, w0, tape0, n, k, State(), tape);
      StepCurrent();
    }

    // Run the polled task until it suspends or ends, for at most `limit` commands.
    method PollCurrent(limit: nat, ghost w0: World<L>, ghost tape0: EntropyTape, ghost n0: nat)
      returns (ghost n: nat, ghost k: nat)
      requires !aborted && !panicked && At(w0, tape0, n0)
      modifies this
      ensures Polling(w0, tape0, n, k) && log.dispatched == old(log.dispatched)
      ensures n == n0 + k && k <= limit && (pool.current.Some? && !panicked ==> k == limit)
    {
      n, k := n0, 0;
      var left := limit;
      while pool.current.Some? && !panicked && left > 0
        invariant Polling(w0, tape0, n, k) && log.dispatched == old(log.dispatched)
        invariant n == n0 + k && k + left == limit
        decreases left
      {
        n, k := StepPolled(w0, tape0, n, k);
        left := left - 1;
      }
    }

    // Run to the end, unless some poll has not ended after `pollLimit` commands.
    method Run(pollLimit: nat) returns (report: RunReport, finished: bool, ghost n: nat)
      requires pool.current.None? && !aborted && !panicked
      modifies this
      ensures (State(), tape) == Steps(prog, old(State()), old(tape), n)
      ensures finished ==> Halted(State()) && report == ReportOf(prog, State(), tape)
      ensures !finished ==> pool.current.Some? && !aborted && !panicked
                            && pollLimit <= n && PolledFor(prog, old(State()), old(tape), n, pollLimit)
    {
      ghost var w0, tape0 := State(), tape;
      n := 0;
      finished := false;
      var over := false;
      while !over
        invariant !over ==> pool.current.None? && !aborted && !panicked
        invariant over && finished ==> Halted(State())
        invariant over && !finished ==> pool.current.Some? && !aborted && !panicked
                                        && pollLimit <= n && PolledFor(prog, w0, tape0, n, pollLimit)
        invariant At(w0, tape0, n)
        decreases !over, prog.maxEvents - log.dispatched
      {
        var result;
        result, n := PopUntilPoll(w0, tape0, n);
        if result != Poll {
          over, finished := true, true;
        } else {
          ghost var k;
          n, k := PollCurrent(pollLimit, w0, tape0, n);
          over, finished := panicked || pool.current.Some?, panicked;
        }
      }
      var ending := Ending(log.dispatched, log.dispatched >= prog.maxEvents || agenda.now > prog.horizon,
                           agenda.queue == [] && pool.tasks != map[], |pool.tasks|);
      report := RunReport(log.trace, log.nemesisTrace, log.history, tape.log, tape.events, Diagnose(tape), ending);
    }
  }

  // The last k steps before the nth were commands of a task being polled.
  ghost predicate PolledFor<L>(p: Prog<L>, w: World<L>, tape: EntropyTape, n: nat, k: nat)
    requires k <= n
    decreases k
  {
    k > 0 ==>
      var v := Steps(p, w, tape, n - 1).0;
      v.pool.current.Some? && !Halted(v) && PolledFor(p, w, tape, n - 1, k - 1)
  }

  lemma PolledMore<L>(p: Prog<L>, w: World<L>, tape: EntropyTape, n: nat, k: nat, v: World<L>, tape': EntropyTape)
    requires k <= n && PolledFor(p, w, tape, n, k) && (v, tape') == Steps(p, w, tape, n)
    requires v.pool.current.Some? && !Halted(v)
    ensures PolledFor(p, w, tape, n + 1, k + 1)
  {
  }

  lemma RetainStep(q: seq<Event>, i: nat, keep: Event -> bool)
    requires i < |q|
    ensures Retain(q[i..], keep) == (if keep(q[i]) then [q[i]] else []) + Retain(q[i+1..], keep)
  {
    assert q[i..][0] == q[i] && q[i..][1..] == q[i+1..];
  }
}
