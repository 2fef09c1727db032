// The invariant through each dispatched event and each set-up call, and hence
// through every step of every run.
module SimDispatch {
  import opened Base
  import opened Nemesis
  import opened Planners
  import opened Tape
  import opened Queue
  import opened Sim
  import opened SimInvariant
  import opened SimTasks
  import opened SimCommands

  // ----- taking an event off the queue -----

  lemma PopDuring<L>(p: Prog<L>, w: World<L>)
    requires Inv(p, w) && w.agenda.queue != []
    ensures InvDuring(p, w.(agenda := Pop(w.agenda)), Some(w.agenda.queue[0].kind))
  {
    var a, a', e := w.agenda, Pop(w.agenda), w.agenda.queue[0];
    PopOk(a);
    forall t | t in w.pool.tasks ensures Awake(p, a', Some(e.kind), w.pool.joins, w.wakers, t, w.pool.tasks[t]) {
      assert Awake(p, a, None, w.pool.joins, w.wakers, t, w.pool.tasks[t]);
    }
  }

  // Nothing depends on the event just taken.
  ghost predicate Settled<L>(w: World<L>, kind: EventKind) {
    match kind
    case TimerFire(id) => id !in w.wakers.timers
    case PollTask(t) => t in w.pool.tasks ==> w.pool.tasks[t].fut.None?
    case _ => true
  }

  lemma SettledOk<L>(p: Prog<L>, w: World<L>, kind: EventKind)
    requires InvDuring(p, w, Some(kind)) && Settled(w, kind)
    ensures Inv(p, w)
  {
    forall t | t in w.pool.tasks ensures Awake(p, w.agenda, None, w.pool.joins, w.wakers, t, w.pool.tasks[t]) {
      assert Awake(p, w.agenda, Some(kind), w.pool.joins, w.wakers, t, w.pool.tasks[t]);
    }
  }

  // ----- timers and polls -----

  lemma FiredAwake<L>(p: Prog<L>, a: Agenda, a': Agenda, pool: Pool<L>, k: Wakers, id: TimerId)
    requires AwakeOk(p, a, Some(TimerFire(id)), pool.tasks, pool.joins, k) && id in k.timers
    requires forall kind :: Has(a, kind) || kind == PollTask(k.timers[id]) ==> Has(a', kind)
    ensures AwakeOk(p, a', None, pool.tasks, pool.joins, k.(timers := k.timers - {id}))
  {
    var k' := k.(timers := k.timers - {id});
    forall u | u in pool.tasks ensures Awake(p, a', None, pool.joins, k', u, pool.tasks[u]) {
      assert Awake(p, a, Some(TimerFire(id)), pool.joins, k, u, pool.tasks[u]);
    }
  }

  lemma FiredProgress<L>(p: Prog<L>, a: Agenda, pool: Pool<L>, k: Wakers, crashed: set<NodeId>, id: TimerId)
    requires Progress(p, a, Some(TimerFire(id)), pool, k, crashed) && id in k.timers && k.timers[id] < pool.nextTask
    ensures Progress(p, Push(a, a.now, PollTask(k.timers[id])), None, pool, k.(timers := k.timers - {id}), crashed)
  {
    var t := k.timers[id];
    PushOk(a, a.now, PollTask(t));
    FiredAwake(p, a, Push(a, a.now, PollTask(t)), pool, k, id);
  }

  lemma FireTimerOk<L>(p: Prog<L>, w: World<L>, e: Event, id: TimerId)
    requires InvDuring(p, w, Some(TimerFire(id)))
    ensures Inv(p, FireTimer(w, e, id))
  {
    if id in w.wakers.timers {
      assert Timing(w.pool, w.wakers.timers[id], id);
      FiredProgress(p, w.agenda, w.pool, w.wakers, w.hosts.crashed, id);
    } else {
      SettledOk(p, w, TimerFire(id));
    }
  }

  function Taken<L>(pool: Pool<L>, t: TaskId): Pool<L>
    requires t in pool.tasks && pool.tasks[t].fut.Some?
  {
    var slot := pool.tasks[t];
    pool.(tasks := pool.tasks[t := slot.(fut := None)], current := Some(Running(t, slot.fut.value)))
  }

  lemma StartPollOk<L>(p: Prog<L>, w: World<L>, e: Event, t: TaskId)
    requires InvDuring(p, w, Some(PollTask(t))) && w.pool.current.None?
    ensures Inv(p, StartPoll(w, e, t))
    ensures t in w.pool.tasks ==> w.pool.tasks[t].node !in w.hosts.crashed
  {
    if t !in w.pool.tasks {
      SettledOk(p, w, PollTask(t));
    } else {
      var pool, pool' := w.pool, Taken(w.pool, t);
      assert forall u :: FutOf(pool', u) == FutOf(pool, u);
      SameFuturesOk(p, pool, pool', w.wakers, w.hosts);
      TakenProgress(p, w.agenda, pool, w.wakers, w.hosts.crashed, t);
    }
  }

  lemma TakenProgress<L>(p: Prog<L>, a: Agenda, pool: Pool<L>, k: Wakers, crashed: set<NodeId>, t: TaskId)
    requires Progress(p, a, Some(PollTask(t)), pool, k, crashed) && t in pool.tasks && pool.tasks[t].fut.Some?
    ensures Progress(p, a, None, Taken(pool, t), k, crashed)
  {
    var pool' := Taken(pool, t);
    forall u | u in pool'.tasks ensures Awake(p, a, None, pool'.joins, k, u, pool'.tasks[u]) {
      assert Awake(p, a, Some(PollTask(t)), pool.joins, k, u, pool.tasks[u]);
    }
  }

  // ----- messages -----

  function Arrived(k: Wakers, source: NodeId, target: NodeId, msg: Message): Wakers {
    k.(inboxes := k.inboxes[target := Inbox(k, target) + [(source, msg)]],
       waiters := if target in k.waiters then k.waiters[target := []] else k.waiters)
  }

  lemma ArrivedStructure<L>(p: Prog<L>, w: World<L>, source: NodeId, target: NodeId, msg: Message)
    requires Structure(p, w.pool, w.wakers, w.hosts) && target !in w.hosts.crashed
    ensures Structure(p, w.pool, Arrived(w.wakers, source, target, msg), w.hosts)
  {
  }

  lemma ArrivedAwake<L>(p: Prog<L>, a: Agenda, a': Agenda, pool: Pool<L>, k: Wakers, source: NodeId, target: NodeId,
                        msg: Message)
    requires AwakeOk(p, a, None, pool.tasks, pool.joins, k)
    requires forall kind :: Has(a, kind) ==> Has(a', kind)
    requires forall t :: t in Waiters(k, target) ==> Has(a', PollTask(t))
    ensures AwakeOk(p, a', None, pool.tasks, pool.joins, Arrived(k, source, target, msg))
  {
    var k' := Arrived(k, source, target, msg);
    forall t | t in pool.tasks ensures Awake(p, a', None, pool.joins, k', t, pool.tasks[t]) {
      assert Awake(p, a, None, pool.joins, k, t, pool.tasks[t]);
    }
  }

  lemma ArrivedProgress<L>(p: Prog<L>, w: World<L>, source: NodeId, target: NodeId, msg: Message)
    requires Inv(p, w)
    ensures Progress(p, PushPolls(w.agenda, Waiters(w.wakers, target)), None, w.pool,
                     Arrived(w.wakers, source, target, msg), w.hosts.crashed)
  {
    var woken := Waiters(w.wakers, target);
    var a' := PushPolls(w.agenda, woken);
    PushPollsOk(w.agenda, woken);
    PushPollsEffect(w.agenda, woken);
    forall t | t in woken ensures t < w.pool.nextTask {
      assert Receiving(w.pool, t, target);
    }
    ArrivedAwake(p, w.agenda, a', w.pool, w.wakers, source, target, msg);
  }

  lemma DeliverOk<L>(p: Prog<L>, w: World<L>, e: Event, source: NodeId, target: NodeId, msg: Message)
    requires Inv(p, w) && target !in w.hosts.crashed
    ensures Inv(p, Deliver(w, e, source, target, msg))
  {
    ArrivedStructure(p, w, source, target, msg);
    ArrivedProgress(p, w, source, target, msg);
  }

  // ----- crash and restart -----

  lemma RetainOk(a: Agenda, keep: Event -> bool)
    requires AgendaOk(a)
    ensures AgendaOk(a.(queue := Retain(a.queue, keep)))
    ensures forall e :: e in Retain(a.queue, keep) <==> e in a.queue && keep(e)
  {
    RetainMembers(a.queue, keep);
    RetainSorted(a.queue, keep);
  }

  lemma CrashedStructure<L>(p: Prog<L>, w: World<L>, node: NodeId)
    requires Structure(p, w.pool, w.wakers, w.hosts) && w.pool.current.None? && node in w.hosts.nodes
    ensures Structure(p, CrashPool(w.pool, node), CrashWakers(w.wakers, node, TasksOn(w.pool, node)),
                      w.hosts.(crashed := w.hosts.crashed + {node}))
  {
    var removed := TasksOn(w.pool, node);
    var pool, pool' := w.pool, CrashPool(w.pool, node);
    var k, k' := w.wakers, CrashWakers(w.wakers, node, removed);
    forall s | s in pool'.joins ensures JoinOk(p, pool', s, pool'.joins[s]) {
      assert JoinOk(p, pool, s, pool.joins[s]);
      assert forall t, n :: n != node && Joining(p, pool, t, n, s) ==> Joining(p, pool', t, n, s);
    }
    CrashedReceivers(pool, k, node);
    assert forall t, id :: t !in removed && Timing(pool, t, id) ==> Timing(pool', t, id);
  }

  lemma CrashedReceivers<L>(pool: Pool<L>, k: Wakers, node: NodeId)
    requires WaitersOk(pool, k.waiters) && NoMissedMessage(k.inboxes, k.waiters) && pool.current.None?
    ensures var k' := CrashWakers(k, node, TasksOn(pool, node));
            && WaitersOk(CrashPool(pool, node), k'.waiters) && NoMissedMessage(k'.inboxes, k'.waiters)
            && forall n, t :: n != node && Registered(k.waiters, n, t) ==> Registered(k'.waiters, n, t)
  {
    var removed := TasksOn(pool, node);
    forall n | n in k.waiters && n != node
      ensures Distinct(RemoveAll(k.waiters[n], removed))
      ensures forall t :: t in RemoveAll(k.waiters[n], removed) <==> t in k.waiters[n] && t !in removed
    {
      RemoveAllOk(k.waiters[n], removed);
    }
    var k' := CrashWakers(k, node, removed);
    forall n, t | n != node && Registered(k.waiters, n, t)
      ensures Registered(k'.waiters, n, t) && Receiving(CrashPool(pool, node), t, n)
    {
      assert Receiving(pool, t, n);
    }
    forall n | n in k'.waiters ensures k.waiters[n] == [] ==> k'.waiters[n] == [] {
    }
  }

  lemma CrashedEvents(a: Agenda, nextTask: TaskId, nextTimer: TimerId, crashed: set<NodeId>, node: NodeId,
                      removed: set<TaskId>, timers: set<TimerId>)
    requires AgendaOk(a) && EventsOk(a, nextTask, nextTimer, crashed)
    ensures var a' := CrashAgenda(a, node, removed, timers);
            && AgendaOk(a') && EventsOk(a', nextTask, nextTimer, crashed + {node})
            && forall kind :: Has(a', kind) <==> Has(a, kind) && LiveAfterCrash(kind, node, removed, timers)
  {
    var a' := CrashAgenda(a, node, removed, timers);
    RetainOk(a, Survives(node, removed, timers));
    forall kind | Has(a, kind) && LiveAfterCrash(kind, node, removed, timers) ensures Has(a', kind) {
      var e :| e in a.queue && e.kind == kind;
      assert e in a'.queue;
    }
  }

  // What wakes a task on another node is not touched by the crash.
  lemma SourceSurvives<L>(p: Prog<L>, w: World<L>, node: NodeId, t: TaskId, at: NodeId, f: Fut<L>)
    requires Sourced(p, w.pool.joins, w.wakers, t, at, f) && t !in TasksOn(w.pool, node) && at != node
    requires WaitersOk(w.pool, w.wakers.waiters) && w.pool.current.None?
    requires NoMissedMessage(w.wakers.inboxes, w.wakers.waiters)
    ensures Sourced(p, CrashPool(w.pool, node).joins, CrashWakers(w.wakers, node, TasksOn(w.pool, node)), t, at, f)
  {
    CrashedReceivers(w.pool, w.wakers, node);
  }

  lemma CrashedAwake<L>(p: Prog<L>, w: World<L>, a': Agenda, node: NodeId)
    requires Inv(p, w) && w.pool.current.None?
    requires var removed := TasksOn(w.pool, node);
             forall t :: t !in removed && Has(w.agenda, PollTask(t)) ==> Has(a', PollTask(t))
    ensures var pool' := CrashPool(w.pool, node);
            AwakeOk(p, a', None, pool'.tasks, pool'.joins, CrashWakers(w.wakers, node, TasksOn(w.pool, node)))
  {
    var k' := CrashWakers(w.wakers, node, TasksOn(w.pool, node));
    var pool' := CrashPool(w.pool, node);
    forall t | t in pool'.tasks ensures Awake(p, a', None, pool'.joins, k', t, pool'.tasks[t]) {
      var slot := w.pool.tasks[t];
      assert Awake(p, w.agenda, None, w.pool.joins, w.wakers, t, slot);
      if slot.fut.Some? && !Has(w.agenda, PollTask(t)) {
        SourceSurvives(p, w, node, t, slot.node, slot.fut.value);
      }
    }
  }

  lemma CrashedProgress<L>(p: Prog<L>, w: World<L>, node: NodeId)
    requires Inv(p, w) && w.pool.current.None? && node in w.hosts.nodes
    ensures var removed := TasksOn(w.pool, node);
            var k' := CrashWakers(w.wakers, node, removed);
            Progress(p, CrashAgenda(w.agenda, node, removed, k'.timers.Keys), None, CrashPool(w.pool, node), k',
                     w.hosts.crashed + {node})
  {
    var removed := TasksOn(w.pool, node);
    var k' := CrashWakers(w.wakers, node, removed);
    var a' := CrashAgenda(w.agenda, node, removed, k'.timers.Keys);
    CrashedEvents(w.agenda, w.pool.nextTask, w.wakers.nextTimer, w.hosts.crashed, node, removed, k'.timers.Keys);
    CrashedAwake(p, w, a', node);
  }

  lemma CrashNodeOk<L>(p: Prog<L>, w: World<L>, node: NodeId)
    requires Inv(p, w) && w.pool.current.None?
    ensures Inv(p, CrashNode(w, node))
  {
    if node in w.hosts.nodes {
      CrashedStructure(p, w, node);
      CrashedProgress(p, w, node);
    }
  }

  lemma RestartOk<L>(p: Prog<L>, w: World<L>, node: NodeId)
    requires Inv(p, w)
    ensures Inv(p, RestartAndRecord(w, node))
  {
    if node in w.hosts.nodes && node in w.hosts.crashed && node in w.hosts.factories {
      var up := w.(hosts := w.hosts.(crashed := w.hosts.crashed - {node}));
      assert EventsOk(up.agenda, up.pool.nextTask, up.wakers.nextTimer, up.hosts.crashed);
      AddTaskOk(p, up, node, w.hosts.factories[node]);
    }
  }

  lemma ApplyNemesisOk<L>(p: Prog<L>, w: World<L>, action: NemesisAction)
    requires Inv(p, w) && w.pool.current.None? && !action.Restart?
    ensures Inv(p, ApplyNemesis(w, action))
  {
    if action.Crash? {
      CrashNodeOk(p, w.(log := w.log.(nemesisTrace := w.log.nemesisTrace + [action])), action.node);
    }
  }

  // ----- set-up -----

  function Named<L>(w: World<L>, node: NodeId, entry: L): World<L> {
    w.(hosts := w.hosts.(nodes := w.hosts.nodes + {node}, factories := w.hosts.factories[node := entry]),
       wakers := w.wakers.(inboxes := w.wakers.inboxes[node := Inbox(w.wakers, node)]))
  }

  lemma NamedOk<L>(p: Prog<L>, w: World<L>, node: NodeId, entry: L)
    requires Inv(p, w) && node !in w.hosts.nodes
    ensures Inv(p, Named(w, node, entry)) && node in Named(w, node, entry).hosts.nodes - w.hosts.crashed
  {
    var w' := Named(w, node, entry);
    SourcesKept(p, w.agenda, None, w.pool.tasks, w.pool.joins, w.wakers, w'.wakers);
  }

  lemma AddHostOk<L>(p: Prog<L>, w: World<L>, node: NodeId, entry: L)
    requires Inv(p, w) && node !in w.hosts.nodes
    ensures Inv(p, AddHost(w, node, entry))
  {
    NamedOk(p, w, node, entry);
    HostIsNamed(w, node, entry);
    AddTaskOk(p, Named(w, node, entry), node, entry);
  }

  lemma HostIsNamed<L>(w: World<L>, node: NodeId, entry: L)
    ensures var w' := AddTask(Named(w, node, entry), node, entry);
            AddHost(w, node, entry) == w'.(devices := AddHost(w, node, entry).devices)
    ensures Named(w, node, entry).hosts.crashed == w.hosts.crashed
  {
  }

  lemma FaultNowOk<L>(p: Prog<L>, w: World<L>, action: NemesisAction)
    requires Inv(p, w) && w.pool.current.None?
    ensures Inv(p, if action.Restart? then RestartAndRecord(w, action.node) else ApplyNemesis(w, action))
  {
    if action.Restart? { RestartOk(p, w, action.node); } else { ApplyNemesisOk(p, w, action); }
  }

  // A set-up call that stays within the machine's time range.
  ghost predicate SetupOk<L(!new)>(s: Setup<L>) {
    match s
    case ScheduleFault(at, _) => at <= U64_MAX
    case PlanFaults(plan, _) => forall past :: plan.act(past).Some? ==> plan.act(past).value.time <= U64_MAX
    case _ => true
  }

  lemma {:induction false} ConsultTimes(plan: Planner, past: seq<Turn>, view: WorldView, tape: EntropyTape, max: nat)
    requires forall p :: plan.act(p).Some? ==> plan.act(p).value.time <= U64_MAX
    ensures forall t :: t in Consult(plan, past, view, tape, max).2 ==> t.time <= U64_MAX
    decreases max
  {
    if max > 0 {
      var (tape1, past1, next) := Answer(plan, past, view, tape);
      if next.Some? { ConsultTimes(plan, past1, view, tape1, max - 1); }
    }
  }

  lemma {:induction false} PushFaultsOk<L>(p: Prog<L>, w: World<L>, out: seq<Timed>)
    requires Inv(p, w) && w.agenda.now == 0 && forall t :: t in out ==> t.time <= U64_MAX
    ensures Inv(p, w.(agenda := PushFaults(w.agenda, out)))
    decreases out
  {
    if out != [] {
      PushHarmless(p, w, out[0].time, Fault(out[0].action));
      PushFaultsOk(p, w.(agenda := Push(w.agenda, out[0].time, Fault(out[0].action))), out[1..]);
    }
  }

  lemma {:induction false} PushFaultsNow(a: Agenda, out: seq<Timed>)
    ensures PushFaults(a, out).now == a.now
    decreases out
  {
    if out != [] { PushFaultsNow(Push(a, out[0].time, Fault(out[0].action)), out[1..]); }
  }

  lemma ConfigureOk<L(!new)>(p: Prog<L>, w: World<L>, s: Setup<L>, tape: EntropyTape)
    requires Inv(p, w) && SetupOk(s) && w.pool.current.None? && w.agenda.now == 0
    ensures Inv(p, Configure(w, s, tape).0)
  {
    match s
    case AddNode(node, entry) => if node !in w.hosts.nodes { AddHostOk(p, w, node, entry); }
    case ScheduleFault(at, action) => PushHarmless(p, w, at, Fault(action));
    case PlanFaults(plan, max) =>
      ConsultTimes(plan, [], ViewOf(w), tape, max);
      PushFaultsOk(p, w, Consult(plan, [], ViewOf(w), tape, max).2);
    case FaultNow(action) =>
      FaultNowOk(p, w, action);
    case _ =>
  }

  lemma ConfigureIdle<L>(w: World<L>, s: Setup<L>, tape: EntropyTape)
    requires w.pool.current.None? && w.agenda.now == 0
    ensures Configure(w, s, tape).0.pool.current.None? && Configure(w, s, tape).0.agenda.now == 0
  {
    if s.PlanFaults? {
      PushFaultsNow(w.agenda, Consult(s.plan, [], ViewOf(w), tape, s.max).2);
    }
  }

  lemma {:induction false} PrepareOk<L(!new)>(p: Prog<L>, setup: seq<Setup<L>>, tape: EntropyTape)
    requires forall s :: s in setup ==> SetupOk(s)
    ensures Inv(p, Prepare(setup, tape).0)
    ensures Prepare(setup, tape).0.pool.current.None? && Prepare(setup, tape).0.agenda.now == 0
  {
    if setup == [] {
      NewWorldOk(p);
    } else {
      PrepareOk(p, setup[..|setup| - 1], tape);
      var (w, tape') := Prepare(setup[..|setup| - 1], tape);
      ConfigureOk(p, w, setup[|setup| - 1], tape');
      ConfigureIdle(w, setup[|setup| - 1], tape');
    }
  }

  // ----- every step -----

  lemma ArrivalTimes(tape: EntropyTape, f: Faults, now: nat)
    requires now <= U64_MAX
    ensures var (_, at, again) := DrawArrivals(tape, f, now);
            now <= at <= U64_MAX && (again.Some? ==> now <= again.value <= U64_MAX)
  {
  }

  lemma RunCmdOk<L>(p: Prog<L>, w: World<L>, r: Running<L>, node: NodeId, tape: EntropyTape)
    requires Inv(p, w) && Runs(w.pool, r, node)
    ensures Inv(p, RunCmd(p, w, r, node, tape).0)
  {
    match p.next(r.fut.local)
    case Finish(output) => FinishTaskOk(p, w, r, node, output);
    case Do(op, resume) =>
      if op.Send? {
        var (_, at, again) := DrawArrivals(tape, w.devices.faults, w.agenda.now);
        ArrivalTimes(tape, w.devices.faults, w.agenda.now);
        TransmitOk(p, w, r, node, op.target, op.msg, at, again, resume(Nothing));
      } else if op.Spawn? {
        SpawnTaskOk(p, w, r, node, op.child, resume);
      } else {
        LocalCmdOk(p, w, r, node, op, resume);
      }
    case Pause(what, resume) =>
      match what
      case Recv => PollRecvOk(p, w, r, node, resume);
      case SleepUntil(deadline) => PollSleepOk(p, w, r, node, deadline, resume);
      case RecvTimeout(duration) => PollRecvTimeoutOk(p, w, r, node, duration, resume);
      case Join(handle) => PollJoinOk(p, w, r, node, handle, resume);
  }

  lemma DispatchFaultOk<L>(p: Prog<L>, w: World<L>, e: Event, action: NemesisAction)
    requires Inv(p, w) && w.pool.current.None?
    ensures Inv(p, DispatchFault(w, e, action))
  {
    var counted := Counted(w, Dispatched(e));
    if action.Restart? {
      RestartOk(p, counted.(log := counted.log.(nemesisTrace := w.log.nemesisTrace + [action])), action.node);
    } else {
      ApplyNemesisOk(p, counted, action);
    }
  }

  lemma DeliverOrDropOk<L>(p: Prog<L>, w: World<L>, e: Event, source: NodeId, target: NodeId, msg: Message,
                           tape: EntropyTape)
    requires Inv(p, w)
    ensures Inv(p, DeliverOrDrop(w, e, source, target, msg, tape).0)
  {
    if DropCause(w, source, target).None? { DeliverOk(p, w, e, source, target, msg); }
  }

  lemma DispatchOk<L>(p: Prog<L>, w: World<L>, e: Event, tape: EntropyTape)
    requires InvDuring(p, w, Some(e.kind)) && w.pool.current.None?
    ensures Inv(p, Dispatch(w, e, tape).0)
  {
    match e.kind
    case TimerFire(id) => FireTimerOk(p, w, e, id);
    case PollTask(t) => StartPollOk(p, w, e, t);
    case Fault(action) =>
      SettledOk(p, w, e.kind);
      DispatchFaultOk(p, w, e, action);
    case DeliverMsg(source, target, msg) =>
      SettledOk(p, w, e.kind);
      DeliverOrDropOk(p, w, e, source, target, msg, tape);
  }

  // An abort drops the event it stops at; otherwise the invariant holds.
  ghost predicate RunInv<L>(p: Prog<L>, w: World<L>) {
    if w.aborted then exists kind :: InvDuring(p, w, Some(kind)) else Inv(p, w)
  }

  lemma StepOk<L>(p: Prog<L>, w: World<L>, tape: EntropyTape)
    requires RunInv(p, w)
    ensures RunInv(p, Step(p, w, tape).0)
  {
    if !Halted(w) {
      if w.pool.current.Some? {
        var r := w.pool.current.value;
        RunCmdOk(p, w, r, w.pool.tasks[r.task].node, tape);
        RunCmdKeepsAborted(p, w, r, w.pool.tasks[r.task].node, tape);
      } else {
        PopDuring(p, w);
        var popped := w.(agenda := Pop(w.agenda));
        if popped.agenda.now > p.horizon || w.log.dispatched >= p.maxEvents {
          assert InvDuring(p, popped.(aborted := true), Some(w.agenda.queue[0].kind));
        } else {
          DispatchOk(p, popped, w.agenda.queue[0], tape);
          DispatchKeepsAborted(popped, w.agenda.queue[0], tape);
        }
      }
    }
  }

  lemma RunCmdKeepsAborted<L>(p: Prog<L>, w: World<L>, r: Running<L>, node: NodeId, tape: EntropyTape)
    ensures RunCmd(p, w, r, node, tape).0.aborted == w.aborted
  {
  }

  lemma DispatchKeepsAborted<L>(w: World<L>, e: Event, tape: EntropyTape)
    ensures Dispatch(w, e, tape).0.aborted == w.aborted && Dispatch(w, e, tape).0.panicked == w.panicked
  {
  }

  // Every world a run can reach, from any set-up, after any number of steps.
  lemma {:induction false} StepsOk<L(!new)>(p: Prog<L>, setup: seq<Setup<L>>, tape: EntropyTape, n: nat)
    requires forall s :: s in setup ==> SetupOk(s)
    ensures var (w, tape') := Prepare(setup, tape);
            RunInv(p, Steps(p, w, tape', n).0)
  {
    var (w, tape') := Prepare(setup, tape);
    if n == 0 {
      PrepareOk(p, setup, tape);
      PrepareNotAborted(setup, tape);
    } else {
      StepsOk(p, setup, tape, n - 1);
      var (w1, tape1) := Steps(p, w, tape', n - 1);
      StepOk(p, w1, tape1);
    }
  }

  lemma {:induction false} PrepareNotAborted<L>(setup: seq<Setup<L>>, tape: EntropyTape)
    ensures !Prepare(setup, tape).0.aborted
  {
    if setup != [] { PrepareNotAborted(setup[..|setup| - 1], tape); }
  }
}
