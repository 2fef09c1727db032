// The simulator: one event queue, single-threaded tasks, timers, inboxes,
// skewed clocks, storage devices, faults, crash and restart. A task is an
// opaque deterministic machine with local state L; the world advances one
// machine command, or one queued event, at a time.
module Sim {
  import opened Base
  import opened Nemesis
  import opened Planners
  import opened Tape
  import opened Queue
  import PS = PageStore

  // ----- what a task may do -----

  datatype Op<L> =
    | Send(target: NodeId, msg: Message)
    | Spawn(child: L)
    | Now
    | Rng
    | Record(line: string)
    | Write(offset: nat, data: PS.Bytes)
    | Read(start: nat, len: nat)
    | Flush
    | Length

  datatype Await =
    | Recv
    | SleepUntil(deadline: nat)
    | RecvTimeout(duration: nat)
    | Join(handle: TaskId)

  datatype Reply =
    | Nothing
    | Number(n: nat)
    | Bytes(bytes: PS.Bytes)
    | Received(source: NodeId, msg: Message)
    | TimedOut
    | Joined(output: int)

  datatype Cmd<L> =
    | Do(op: Op<L>, resume: Reply -> L)
    | Pause(what: Await, resume: Reply -> L)
    | Finish(output: int)

  // The code under simulation, its random streams, and the run's limits.
  datatype Prog<!L> = Prog(next: L -> Cmd<L>, rng: (NodeId, nat) -> nat, horizon: nat, maxEvents: nat)

  // ----- the world -----

  // A suspended task: its local state and what its pending await has registered.
  datatype Fut<L> = Fut(local: L, waiting: bool, timer: Option<TimerId>, deadline: Option<nat>)

  datatype Slot<L> = Slot(node: NodeId, fut: Option<Fut<L>>)

  datatype Running<L> = Running(task: TaskId, fut: Fut<L>)

  datatype JoinSlot = JoinSlot(node: NodeId, done: bool, output: int, joiners: seq<TaskId>)

  datatype Faults = Faults(matrix: Matrix, dropPercent: nat, duplicatePercent: nat, extraDelayMs: nat,
                           skew: map<NodeId, int>, bitRot: set<NodeId>, torn: set<NodeId>, lost: set<NodeId>,
                           reorder: set<NodeId>)

  datatype DropReason = Unregistered | CrashedEnd | Partitioned | AtRandom

  datatype TraceEntry =
    | Dispatched(event: Event)
    | Dropped(event: Event, reason: DropReason)
    | SendFromCrashed(source: NodeId, target: NodeId)

  datatype RestartOutcome = Restarted | NodeMissing | NodeNotCrashed | MissingFactory

  datatype HistoryLine = Line(text: string) | Restarting(node: NodeId, outcome: RestartOutcome)

  // The queue of events and the clock that follows it; `popped` remembers the
  // keys taken so far.
  datatype Agenda = Agenda(now: nat, seqno: nat, queue: seq<Event>, popped: seq<(nat, nat)>)

  datatype Pool<L> =
    Pool(tasks: map<TaskId, Slot<L>>, nextTask: TaskId, current: Option<Running<L>>, joins: map<TaskId, JoinSlot>)

  // Who waits for what: undelivered messages, receivers, and armed timers.
  datatype Wakers = Wakers(inboxes: map<NodeId, seq<(NodeId, Message)>>, waiters: map<NodeId, seq<TaskId>>,
                           timers: map<TimerId, TaskId>, nextTimer: TimerId)

  datatype Hosts<L> = Hosts(nodes: set<NodeId>, factories: map<NodeId, L>, crashed: set<NodeId>)

  datatype Devices = Devices(storage: map<NodeId, PS.Store>, faults: Faults, rngCounter: map<NodeId, nat>,
                             lastLocal: map<NodeId, nat>)

  datatype Log = Log(trace: seq<TraceEntry>, nemesisTrace: seq<NemesisAction>, history: seq<HistoryLine>,
                     dispatched: nat)

  datatype World<L> = World(agenda: Agenda, pool: Pool<L>, wakers: Wakers, hosts: Hosts<L>, devices: Devices,
                            log: Log, aborted: bool, panicked: bool)

  const NO_FAULTS: Faults := Faults(DISCONNECTED, 0, 0, 0, map[], {}, {}, {}, {})

  function NewWorld<L>(): World<L> {
    World(Agenda(0, 0, [], []), Pool(map[], 0, None, map[]), Wakers(map[], map[], map[], 0),
          Hosts({}, map[], {}), Devices(map[], NO_FAULTS, map[], map[]), Log([], [], [], 0), false, false)
  }

  function GetOr<K, V>(m: map<K, V>, k: K, default: V): V {
    if k in m then m[k] else default
  }

  // ----- queue, waiters, timers -----

  function Push(a: Agenda, time: nat, kind: EventKind): Agenda {
    a.(queue := Insert(a.queue, Event(time, a.seqno, kind)), seqno := a.seqno + 1)
  }

  function PushPolls(a: Agenda, tasks: seq<TaskId>): Agenda
    decreases tasks
  {
    if tasks == [] then a else PushPolls(Push(a, a.now, PollTask(tasks[0])), tasks[1..])
  }

  function Fresh<L>(local: L): Fut<L> {
    Fut(local, false, None, None)
  }

  function AddTask<L>(w: World<L>, node: NodeId, local: L): World<L> {
    var id := w.pool.nextTask;
    w.(pool := w.pool.(tasks := w.pool.tasks[id := Slot(node, Some(Fresh(local)))], nextTask := id + 1),
       agenda := Push(w.agenda, w.agenda.now, PollTask(id)))
  }

  function Waiters(k: Wakers, node: NodeId): seq<TaskId> {
    GetOr(k.waiters, node, [])
  }

  function Inbox(k: Wakers, node: NodeId): seq<(NodeId, Message)> {
    GetOr(k.inboxes, node, [])
  }

  function AddWaiter(k: Wakers, node: NodeId, task: TaskId): Wakers {
    var list := Waiters(k, node);
    k.(waiters := k.waiters[node := if task in list then list else list + [task]])
  }

  function Remove(list: seq<TaskId>, task: TaskId): seq<TaskId> {
    RemoveAll(list, {task})
  }

  function RemoveAll(list: seq<TaskId>, gone: set<TaskId>): seq<TaskId> {
    if list == [] then [] else (if list[0] in gone then [] else [list[0]]) + RemoveAll(list[1..], gone)
  }

  function DropWaiter(k: Wakers, node: NodeId, task: TaskId): Wakers {
    if node in k.waiters then k.(waiters := k.waiters[node := Remove(k.waiters[node], task)]) else k
  }

  function CancelTimer(k: Wakers, timer: Option<TimerId>): Wakers {
    match timer
    case None => k
    case Some(id) => k.(timers := k.timers - {id})
  }

  // ----- clocks -----

  function Skew(d: Devices, node: NodeId): int {
    GetOr(d.faults.skew, node, 0)
  }

  // The node's clock: skewed, clamped, and never behind what it showed before.
  function LocalNow<L>(w: World<L>, node: NodeId): nat {
    Max(ClampU64(w.agenda.now + Skew(w.devices, node)), GetOr(w.devices.lastLocal, node, 0))
  }

  function ReadClock<L>(w: World<L>, node: NodeId): World<L> {
    w.(devices := w.devices.(lastLocal := w.devices.lastLocal[node := LocalNow(w, node)]))
  }

  function GlobalDeadline<L>(w: World<L>, node: NodeId, local: nat): nat {
    Max(ClampU64(local - Skew(w.devices, node)), w.agenda.now)
  }

  // ----- the running task r, on its node -----

  function Continue<L>(w: World<L>, r: Running<L>, local: L): World<L> {
    w.(pool := w.pool.(current := Some(Running(r.task, Fresh(local)))))
  }

  function Park<L>(w: World<L>, r: Running<L>, node: NodeId, fut: Fut<L>): World<L> {
    w.(pool := w.pool.(current := None, tasks := w.pool.tasks[r.task := Slot(node, Some(fut))]))
  }

  // Leave a timer registered for the deadline, unless one already is.
  function ArmTimer<L>(w: World<L>, r: Running<L>, node: NodeId, deadline: nat): (World<L>, Option<TimerId>) {
    if r.fut.timer.Some? && r.fut.timer.value in w.wakers.timers then (w, r.fut.timer)
    else
      var id := w.wakers.nextTimer;
      (w.(wakers := w.wakers.(nextTimer := id + 1, timers := w.wakers.timers[id := r.task]),
          agenda := Push(w.agenda, GlobalDeadline(w, node, deadline), TimerFire(id))),
       Some(id))
  }

  function Transmit(a: Agenda, source: NodeId, target: NodeId, msg: Message, at: nat, again: Option<nat>): Agenda {
    var once := Push(a, at, DeliverMsg(source, target, msg));
    match again
    case None => once
    case Some(later) => Push(once, later, DeliverMsg(source, target, msg))
  }

  function SpawnTask<L>(w: World<L>, r: Running<L>, node: NodeId, child: L, resume: Reply -> L): World<L> {
    var id := w.pool.nextTask;
    var added := AddTask(w.(pool := w.pool.(joins := w.pool.joins[id := JoinSlot(node, false, 0, [])])), node, child);
    Continue(added, r, resume(Number(id)))
  }

  function StoreAt<L>(w: World<L>, node: NodeId): PS.Store {
    GetOr(w.devices.storage, node, PS.EMPTY)
  }

  function SetStore<L>(w: World<L>, node: NodeId, store: PS.Store): World<L> {
    w.(devices := w.devices.(storage := w.devices.storage[node := store]))
  }

  function Panic<L>(w: World<L>): World<L> {
    w.(panicked := true)
  }

  // Commands that touch only the task's own devices and the log.
  function LocalCmd<L>(p: Prog<L>, w: World<L>, r: Running<L>, node: NodeId, op: Op<L>, resume: Reply -> L): World<L>
    requires !op.Send? && !op.Spawn?
  {
    match op
    case Now => Continue(ReadClock(w, node), r, resume(Number(LocalNow(w, node))))
    case Rng =>
      var n := GetOr(w.devices.rngCounter, node, 0);
      Continue(w.(devices := w.devices.(rngCounter := w.devices.rngCounter[node := n + 1])), r,
               resume(Number(p.rng(node, n))))
    case Record(line) =>
      Continue(w.(log := w.log.(history := w.log.history + [Line(line)])), r, resume(Nothing))
    case Write(offset, data) =>
      Continue(SetStore(w, node, PS.WriteAt(StoreAt(w, node), offset, data, node in w.devices.faults.torn)), r,
               resume(Nothing))
    case Read(start, len) =>
      if node !in w.devices.storage then Continue(w, r, resume(Bytes([])))
      else
        (match PS.ReadAt(w.devices.storage[node], start, len)
         case None => Panic(w)
         case Some(bytes) => Continue(w, r, resume(Bytes(bytes))))
    case Flush =>
      Continue(SetStore(w, node, PS.Flush(StoreAt(w, node), node in w.devices.faults.reorder)), r, resume(Nothing))
    case Length => Continue(w, r, resume(Number(|StoreAt(w, node).pending|)))
  }

  function TakeMessage<L>(w: World<L>, r: Running<L>, node: NodeId, resume: Reply -> L): World<L>
    requires Inbox(w.wakers, node) != []
  {
    var inbox := Inbox(w.wakers, node);
    var taken := w.wakers.(inboxes := w.wakers.inboxes[node := inbox[1..]]);
    var freed := if r.fut.waiting then DropWaiter(taken, node, r.task) else taken;
    Continue(w.(wakers := CancelTimer(freed, r.fut.timer)), r, resume(Received(inbox[0].0, inbox[0].1)))
  }

  function PollRecv<L>(w: World<L>, r: Running<L>, node: NodeId, resume: Reply -> L): World<L> {
    if Inbox(w.wakers, node) != [] then TakeMessage(w, r, node, resume)
    else Park(w.(wakers := AddWaiter(w.wakers, node, r.task)), r, node, r.fut.(waiting := true))
  }

  function PollSleep<L>(w: World<L>, r: Running<L>, node: NodeId, deadline: nat, resume: Reply -> L): World<L> {
    var read := ReadClock(w, node);
    if LocalNow(w, node) >= deadline then
      Continue(read.(wakers := CancelTimer(w.wakers, r.fut.timer)), r, resume(Nothing))
    else
      var (armed, timer) := ArmTimer(read, r, node, deadline);
      Park(armed, r, node, r.fut.(timer := timer))
  }

  // The world in which a timed receive has registered and read the clock.
  function Listening<L>(w: World<L>, r: Running<L>, node: NodeId): World<L> {
    ReadClock(w, node).(wakers := AddWaiter(w.wakers, node, r.task))
  }

  // `timeout(duration, recv())`: the receive is polled first, then the sleep,
  // whose deadline is fixed the first time it is polled.
  function PollRecvTimeout<L>(w: World<L>, r: Running<L>, node: NodeId, duration: nat, resume: Reply -> L): World<L> {
    if Inbox(w.wakers, node) != [] then TakeMessage(w, r, node, resume)
    else
      var local := LocalNow(w, node);
      var read := Listening(w, r, node);
      var deadline := if r.fut.deadline.Some? then r.fut.deadline.value else SatAdd(local, duration);
      if local >= deadline then
        Continue(read.(wakers := CancelTimer(DropWaiter(read.wakers, node, r.task), r.fut.timer)), r, resume(TimedOut))
      else
        var (armed, timer) := ArmTimer(read, r, node, deadline);
        Park(armed, r, node, Fut(r.fut.local, true, timer, Some(deadline)))
  }

  function PollJoin<L>(w: World<L>, r: Running<L>, node: NodeId, handle: TaskId, resume: Reply -> L): World<L> {
    if handle !in w.pool.joins || w.pool.joins[handle].node != node then Panic(w)
    else
      var slot := w.pool.joins[handle];
      if slot.done then Continue(w, r, resume(Joined(slot.output)))
      else
        var joiners := if r.task in slot.joiners then slot.joiners else slot.joiners + [r.task];
        Park(w.(pool := w.pool.(joins := w.pool.joins[handle := slot.(joiners := joiners)])), r, node, r.fut)
  }

  function FinishTask<L>(w: World<L>, r: Running<L>, output: int): World<L> {
    var t := r.task;
    var ended := w.pool.(current := None, tasks := w.pool.tasks - {t});
    if t in w.pool.joins then
      var slot := w.pool.joins[t];
      w.(pool := ended.(joins := ended.joins[t := slot.(done := true, output := output, joiners := [])]),
         agenda := PushPolls(w.agenda, slot.joiners))
    else w.(pool := ended)
  }

  // ----- faults -----

  predicate LiveAfterCrash(kind: EventKind, node: NodeId, removed: set<TaskId>, timers: set<TimerId>) {
    match kind
    case PollTask(t) => t !in removed
    case TimerFire(id) => id in timers
    case DeliverMsg(source, target, _) => source != node && target != node
    case Fault(_) => true
  }

  function TasksOn<L>(pool: Pool<L>, node: NodeId): set<TaskId> {
    set t | t in pool.tasks && pool.tasks[t].node == node
  }

  function CrashWakers(k: Wakers, node: NodeId, removed: set<TaskId>): Wakers {
    Wakers(k.inboxes - {node},
           map n | n in k.waiters && n != node :: RemoveAll(k.waiters[n], removed),
           map id | id in k.timers && k.timers[id] !in removed :: k.timers[id],
           k.nextTimer)
  }

  function CrashPool<L>(pool: Pool<L>, node: NodeId): Pool<L> {
    pool.(tasks := pool.tasks - TasksOn(pool, node),
          joins := map s | s in pool.joins && pool.joins[s].node != node :: pool.joins[s])
  }

  function Survives(node: NodeId, removed: set<TaskId>, timers: set<TimerId>): Event -> bool {
    (e: Event) => LiveAfterCrash(e.kind, node, removed, timers)
  }

  function CrashAgenda(a: Agenda, node: NodeId, removed: set<TaskId>, timers: set<TimerId>): Agenda {
    a.(queue := Retain(a.queue, Survives(node, removed, timers)))
  }

  function CrashDevices(d: Devices, node: NodeId): Devices {
    var rot := node in d.faults.bitRot;
    if node in d.faults.lost || rot then
      d.(storage := d.storage[node := PS.Recover(GetOr(d.storage, node, PS.EMPTY), rot)])
    else d
  }

  function CrashNode<L>(w: World<L>, node: NodeId): World<L> {
    if node !in w.hosts.nodes then w
    else
      var removed := TasksOn(w.pool, node);
      var wakers := CrashWakers(w.wakers, node, removed);
      w.(hosts := w.hosts.(crashed := w.hosts.crashed + {node}),
         pool := CrashPool(w.pool, node),
         wakers := wakers,
         devices := CrashDevices(w.devices, node),
         agenda := CrashAgenda(w.agenda, node, removed, wakers.timers.Keys))
  }

  function RestartNode<L>(w: World<L>, node: NodeId): (World<L>, RestartOutcome) {
    if node !in w.hosts.nodes then (w, NodeMissing)
    else if node !in w.hosts.crashed then (w, NodeNotCrashed)
    else if node !in w.hosts.factories then (w, MissingFactory)
    else
      var up := w.(hosts := w.hosts.(crashed := w.hosts.crashed - {node}));
      (AddTask(up, node, w.hosts.factories[node]), Restarted)
  }

  // A restart, recorded in the history.
  function RestartAndRecord<L>(w: World<L>, node: NodeId): World<L> {
    var (w', outcome) := RestartNode(w, node);
    w'.(log := w'.log.(history := w'.log.history + [Restarting(node, outcome)]))
  }

  // Actions that only change the fault settings or a device.
  function Disturb(d: Devices, action: NemesisAction): Devices
    requires !action.Crash? && !action.Restart?
  {
    var f := d.faults;
    match action
    case Partition(groups) => d.(faults := f.(matrix := f.matrix.Split(groups)))
    case AsymmetricPartition(a, b) => d.(faults := f.(matrix := f.matrix.Block(a, b)))
    case SetLink(a, b, up) => d.(faults := f.(matrix := f.matrix.SetLink(a, b, up)))
    case HealAll => d.(faults := f.(matrix := f.matrix.Heal()))
    case ClockSkew(node, offset) => d.(faults := f.(skew := f.skew[node := offset]))
    case BitRot(node) =>
      if node in d.storage then d.(storage := d.storage[node := PS.Recover(d.storage[node], true)]) else d
    case TornWrite(node) => d.(faults := f.(torn := f.torn + {node}))
    case LostOnCrash(node) => d.(faults := f.(lost := f.lost + {node}))
    case PreFsyncReorder(node) => d.(faults := f.(reorder := f.reorder + {node}))
  }

  function ApplyNemesis<L>(w: World<L>, action: NemesisAction): World<L>
    requires !action.Restart?
  {
    var logged := w.(log := w.log.(nemesisTrace := w.log.nemesisTrace + [action]));
    if action.Crash? then CrashNode(logged, action.node)
    else logged.(devices := Disturb(w.devices, action))
  }

  // ----- dispatching one event -----

  function Pop(a: Agenda): Agenda
    requires a.queue != []
  {
    Agenda(a.queue[0].time, a.seqno, a.queue[1..], a.popped + [Key(a.queue[0])])
  }

  function Counted<L>(w: World<L>, entry: TraceEntry): World<L> {
    w.(log := w.log.(dispatched := w.log.dispatched + 1, trace := w.log.trace + [entry]))
  }

  function FireTimer<L>(w: World<L>, e: Event, id: TimerId): World<L> {
    if id in w.wakers.timers then
      Counted(w, Dispatched(e)).(wakers := w.wakers.(timers := w.wakers.timers - {id}),
                                 agenda := Push(w.agenda, w.agenda.now, PollTask(w.wakers.timers[id])))
    else w
  }

  // Why a message is dropped before any entropy is drawn for it.
  function DropCause<L>(w: World<L>, source: NodeId, target: NodeId): Option<DropReason> {
    if target !in w.hosts.nodes then Some(Unregistered)
    else if target in w.hosts.crashed || source in w.hosts.crashed then Some(CrashedEnd)
    else if !w.devices.faults.matrix.IsConnected(source, target) then Some(Partitioned)
    else None
  }

  function Deliver<L>(w: World<L>, e: Event, source: NodeId, target: NodeId, msg: Message): World<L> {
    var k := w.wakers;
    Counted(w, Dispatched(e)).(
      wakers := k.(inboxes := k.inboxes[target := Inbox(k, target) + [(source, msg)]],
                   waiters := if target in k.waiters then k.waiters[target := []] else k.waiters),
      agenda := PushPolls(w.agenda, Waiters(k, target)))
  }

  function DispatchFault<L>(w: World<L>, e: Event, action: NemesisAction): World<L> {
    var counted := Counted(w, Dispatched(e));
    if action.Restart? then
      RestartAndRecord(counted.(log := counted.log.(nemesisTrace := w.log.nemesisTrace + [action])), action.node)
    else ApplyNemesis(counted, action)
  }

  function StartPoll<L>(w: World<L>, e: Event, t: TaskId): World<L> {
    if t !in w.pool.tasks || w.pool.tasks[t].fut.None? then w
    else
      var slot := w.pool.tasks[t];
      var taken := w.pool.(tasks := w.pool.tasks[t := slot.(fut := None)]);
      if slot.node in w.hosts.crashed then w.(pool := taken)
      else Counted(w, Dispatched(e)).(pool := taken.(current := Some(Running(t, slot.fut.value))))
  }

  // ----- one step of the world, with the tape beside it -----

  function DrawPercent(tape: EntropyTape, percent: nat, tag: TapeLabel): (EntropyTape, bool) {
    if percent == 0 then (tape, false)
    else var (tape', v) := Draw(tape, tag); (tape', v % 100 < Min(percent, 100))
  }

  function DrawDelay(tape: EntropyTape, extraDelayMs: nat): (EntropyTape, nat) {
    var (tape1, v) := Draw(tape, NetDelay);
    var base := 1 + v % 100;
    if extraDelayMs == 0 then (tape1, base)
    else var (tape2, x) := Draw(tape1, ExtraDelay); (tape2, base + x % (extraDelayMs + 1))
  }

  const NANOS_PER_MILLI := 1_000_000

  // When the message arrives, and when its duplicate does if it has one.
  function DrawArrivals(tape: EntropyTape, f: Faults, now: nat): (EntropyTape, nat, Option<nat>) {
    var (tape1, delay) := DrawDelay(tape, f.extraDelayMs);
    var at := SatAdd(now, delay * NANOS_PER_MILLI);
    var (tape2, twice) := DrawPercent(tape1, f.duplicatePercent, DuplicateDecision);
    if !twice then (tape2, at, None)
    else
      var (tape3, x) := Draw(tape2, ExtraDelay);
      (tape3, at, Some(SatAdd(at, (1 + x % 10) * NANOS_PER_MILLI)))
  }

  function SendMessage<L>(w: World<L>, r: Running<L>, node: NodeId, target: NodeId, msg: Message, resume: Reply -> L,
                          tape: EntropyTape): (World<L>, EntropyTape)
  {
    if node in w.hosts.crashed then
      (Continue(w.(log := w.log.(trace := w.log.trace + [SendFromCrashed(node, target)])), r, resume(Nothing)), tape)
    else
      var (tape', at, again) := DrawArrivals(tape, w.devices.faults, w.agenda.now);
      (Continue(w.(agenda := Transmit(w.agenda, node, target, msg, at, again)), r, resume(Nothing)), tape')
  }

  function PollAwait<L>(w: World<L>, r: Running<L>, node: NodeId, what: Await, resume: Reply -> L): World<L> {
    match what
    case Recv => PollRecv(w, r, node, resume)
    case SleepUntil(deadline) => PollSleep(w, r, node, deadline, resume)
    case RecvTimeout(duration) => PollRecvTimeout(w, r, node, duration, resume)
    case Join(handle) => PollJoin(w, r, node, handle, resume)
  }

  function RunCmd<L>(p: Prog<L>, w: World<L>, r: Running<L>, node: NodeId, tape: EntropyTape)
    : (World<L>, EntropyTape)
  {
    match p.next(r.fut.local)
    case Finish(output) => (FinishTask(w, r, output), tape)
    case Pause(what, resume) => (PollAwait(w, r, node, what, resume), tape)
    case Do(op, resume) =>
      if op.Send? then SendMessage(w, r, node, op.target, op.msg, resume, tape)
      else if op.Spawn? then (SpawnTask(w, r, node, op.child, resume), tape)
      else (LocalCmd(p, w, r, node, op, resume), tape)
  }

  function DeliverOrDrop<L>(w: World<L>, e: Event, source: NodeId, target: NodeId, msg: Message, tape: EntropyTape)
    : (World<L>, EntropyTape)
  {
    match DropCause(w, source, target)
    case Some(reason) => (Counted(w, Dropped(e, reason)), tape)
    case None =>
      var (tape', lost) := DrawPercent(tape, w.devices.faults.dropPercent, DropDecision);
      (if lost then Counted(w, Dropped(e, AtRandom)) else Deliver(w, e, source, target, msg), tape')
  }

  function Dispatch<L>(w: World<L>, e: Event, tape: EntropyTape): (World<L>, EntropyTape) {
    match e.kind
    case TimerFire(id) => (FireTimer(w, e, id), tape)
    case PollTask(t) => (StartPoll(w, e, t), tape)
    case Fault(action) => (DispatchFault(w, e, action), tape)
    case DeliverMsg(source, target, msg) => DeliverOrDrop(w, e, source, target, msg, tape)
  }

  predicate Halted<L>(w: World<L>) {
    w.aborted || w.panicked || (w.pool.current.None? && w.agenda.queue == [])
  }

  function Step<L>(p: Prog<L>, w: World<L>, tape: EntropyTape): (World<L>, EntropyTape) {
    if Halted(w) then (w, tape)
    else if w.pool.current.Some? then
      var r := w.pool.current.value;
      if r.task in w.pool.tasks then RunCmd(p, w, r, w.pool.tasks[r.task].node, tape)
      else (Panic(w), tape)
    else
      var popped := w.(agenda := Pop(w.agenda));
      if popped.agenda.now > p.horizon || w.log.dispatched >= p.maxEvents then (popped.(aborted := true), tape)
      else Dispatch(popped, w.agenda.queue[0], tape)
  }

  function Steps<L>(p: Prog<L>, w: World<L>, tape: EntropyTape, n: nat): (World<L>, EntropyTape) {
    if n == 0 then (w, tape)
    else var (w', tape') := Steps(p, w, tape, n - 1); Step(p, w', tape')
  }

  // ----- setting a world up -----

  datatype Setup<!L> =
    | AddNode(node: NodeId, entry: L)
    | ScheduleFault(at: nat, action: NemesisAction)
    | PlanFaults(plan: Planner, max: nat)
    | FaultNow(action: NemesisAction)
    | SetDropPercent(percent: nat)
    | SetDuplicatePercent(percent: nat)
    | SetExtraDelay(ms: nat)

  function AddHost<L>(w: World<L>, node: NodeId, entry: L): World<L> {
    var f := w.devices.faults;
    var named := w.(hosts := w.hosts.(nodes := w.hosts.nodes + {node}, factories := w.hosts.factories[node := entry]),
                    wakers := w.wakers.(inboxes := w.wakers.inboxes[node := Inbox(w.wakers, node)]),
                    devices := w.devices.(faults := f.(matrix := f.matrix.AddNode(node)),
                                          storage := w.devices.storage[node := StoreAt(w, node)]));
    AddTask(named, node, entry)
  }

  function SetFaults<L>(w: World<L>, f: Faults): World<L> {
    w.(devices := w.devices.(faults := f))
  }

  function Schedule<L>(w: World<L>, at: nat, action: NemesisAction): World<L> {
    w.(agenda := Push(w.agenda, at, Fault(action)))
  }

  function PushFaults(a: Agenda, out: seq<Timed>): Agenda
    decreases out
  {
    if out == [] then a else PushFaults(Push(a, out[0].time, Fault(out[0].action)), out[1..])
  }

  function ViewOf<L>(w: World<L>): WorldView {
    WorldView(w.agenda.now, w.hosts.nodes, w.hosts.crashed, w.devices.faults.matrix)
  }

  // A plan is asked for up to `max` actions, each queued as it comes. Queueing
  // changes nothing a plan can see.
  function RunPlan<L>(w: World<L>, plan: Planner, past: seq<Turn>, max: nat, tape: EntropyTape)
    : (World<L>, EntropyTape)
  {
    var (tape', _, out) := Consult(plan, past, ViewOf(w), tape, max);
    (w.(agenda := PushFaults(w.agenda, out)), tape')
  }

  function Configure<L>(w: World<L>, s: Setup<L>, tape: EntropyTape): (World<L>, EntropyTape) {
    var f := w.devices.faults;
    match s
    case AddNode(node, entry) => (if node in w.hosts.nodes then Panic(w) else AddHost(w, node, entry), tape)
    case ScheduleFault(at, action) => (Schedule(w, at, action), tape)
    case PlanFaults(plan, max) => RunPlan(w, plan, [], max, tape)
    case FaultNow(action) =>
      (if action.Restart? then RestartAndRecord(w, action.node) else ApplyNemesis(w, action), tape)
    case SetDropPercent(percent) => (SetFaults(w, f.(dropPercent := Min(percent, 100))), tape)
    case SetDuplicatePercent(percent) => (SetFaults(w, f.(duplicatePercent := Min(percent, 100))), tape)
    case SetExtraDelay(ms) => (SetFaults(w, f.(extraDelayMs := ms)), tape)
  }

  function Prepare<L>(setup: seq<Setup<L>>, tape: EntropyTape): (World<L>, EntropyTape) {
    if setup == [] then (NewWorld(), tape)
    else
      var (w, tape') := Prepare(setup[..|setup| - 1], tape);
      Configure(w, setup[|setup| - 1], tape')
  }

  // ----- what a run reports -----

  // How a run ended.
  datatype Ending = Ending(dispatched: nat, aborted: bool, deadlocked: bool, parkedTasks: nat)

  datatype RunReport = RunReport(trace: seq<TraceEntry>, nemesisTrace: seq<NemesisAction>, history: seq<HistoryLine>,
                                 tapeLog: seq<nat>, tapeEvents: seq<TapeEvent>, tape: Diagnostics, ending: Ending)

  function EndingOf<L>(p: Prog<L>, w: World<L>): Ending {
    Ending(w.log.dispatched, w.log.dispatched >= p.maxEvents || w.agenda.now > p.horizon,
           w.agenda.queue == [] && w.pool.tasks != map[], |w.pool.tasks|)
  }

  function ReportOf<L>(p: Prog<L>, w: World<L>, tape: EntropyTape): RunReport {
    RunReport(w.log.trace, w.log.nemesisTrace, w.log.history, tape.log, tape.events, Diagnose(tape), EndingOf(p, w))
  }
}
