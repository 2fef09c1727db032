// What holds in every state of every run: nobody sleeps through a wake-up, no
// crashed node leaves anything behind, and the queue only moves forward.
module SimInvariant {
  import opened Base
  import opened Nemesis
  import opened Queue
  import opened Sim

  // ----- the agenda -----

  ghost predicate Has(a: Agenda, kind: EventKind) {
    exists e :: e in a.queue && e.kind == kind
  }

  ghost predicate AgendaOk(a: Agenda) {
    && a.now <= U64_MAX
    && Sorted(a.queue)
    && (forall e :: e in a.queue ==> a.now <= e.time <= U64_MAX && e.seqno < a.seqno)
    && (forall e, f :: e in a.queue && f in a.queue && e.seqno == f.seqno ==> e == f)
    && (forall i, j :: 0 <= i < j < |a.popped| ==> KeyLess(a.popped[i], a.popped[j]))
    && (a.popped != [] ==>
          var last := a.popped[|a.popped| - 1];
          last.0 <= a.now && last.1 < a.seqno && forall e :: e in a.queue ==> KeyLess(last, Key(e)))
  }

  lemma PushOk(a: Agenda, time: nat, kind: EventKind)
    requires AgendaOk(a) && a.now <= time <= U64_MAX
    ensures AgendaOk(Push(a, time, kind))
    ensures forall e :: e in Push(a, time, kind).queue <==> e in a.queue || e == Event(time, a.seqno, kind)
    ensures forall k :: Has(Push(a, time, kind), k) <==> Has(a, k) || k == kind
  {
    var e := Event(time, a.seqno, kind);
    InsertMembers(a.queue, e);
    InsertSorted(a.queue, e);
    assert e in Push(a, time, kind).queue;
  }

  lemma {:induction false} PushPollsOk(a: Agenda, tasks: seq<TaskId>)
    requires AgendaOk(a)
    ensures AgendaOk(PushPolls(a, tasks))
    ensures PushPolls(a, tasks).now == a.now && PushPolls(a, tasks).popped == a.popped
    ensures PushPolls(a, tasks).seqno >= a.seqno
    ensures forall e :: e in a.queue ==> e in PushPolls(a, tasks).queue
    ensures forall e :: e in PushPolls(a, tasks).queue ==> e in a.queue || (e.kind.PollTask? && e.kind.task in tasks)
    decreases tasks
  {
    if tasks != [] {
      PushOk(a, a.now, PollTask(tasks[0]));
      PushPollsOk(Push(a, a.now, PollTask(tasks[0])), tasks[1..]);
      assert tasks == [tasks[0]] + tasks[1..];
    }
  }

  lemma {:induction false} PushPollsHas(a: Agenda, tasks: seq<TaskId>, t: TaskId)
    requires AgendaOk(a) && t in tasks
    ensures Has(PushPolls(a, tasks), PollTask(t))
    decreases tasks
  {
    var a' := Push(a, a.now, PollTask(tasks[0]));
    PushOk(a, a.now, PollTask(tasks[0]));
    if t == tasks[0] {
      PushPollsOk(a', tasks[1..]);
      var e := Event(a.now, a.seqno, PollTask(t));
      assert e in a'.queue;
    } else {
      PushPollsHas(a', tasks[1..], t);
    }
  }

  // The polls pushed are exactly the tasks', and nothing queued is lost.
  lemma PushPollsEffect(a: Agenda, tasks: seq<TaskId>)
    requires AgendaOk(a)
    ensures forall k :: Has(PushPolls(a, tasks), k) <==> Has(a, k) || (k.PollTask? && k.task in tasks)
  {
    PushPollsOk(a, tasks);
    forall k | Has(a, k) ensures Has(PushPolls(a, tasks), k) {
      var e :| e in a.queue && e.kind == k;
      assert e in PushPolls(a, tasks).queue;
    }
    forall t | t in tasks ensures Has(PushPolls(a, tasks), PollTask(t)) {
      PushPollsHas(a, tasks, t);
    }
  }

  lemma PopOk(a: Agenda)
    requires AgendaOk(a) && a.queue != []
    ensures AgendaOk(Pop(a))
    ensures forall e :: e in Pop(a).queue ==> e in a.queue
    ensures forall k :: Has(a, k) ==> Has(Pop(a), k) || k == a.queue[0].kind
  {
    HeadIsLeast(a.queue);
    forall k | Has(a, k) && k != a.queue[0].kind ensures Has(Pop(a), k) {
      var e :| e in a.queue && e.kind == k;
      assert e in Pop(a).queue;
    }
  }

  // ----- tasks -----

  // The future of a live task, wherever it is held.
  ghost function FutOf<L>(pool: Pool<L>, t: TaskId): Option<Fut<L>> {
    if IsCurrent(pool, t) then Some(pool.current.value.fut)
    else if t in pool.tasks then pool.tasks[t].fut
    else None
  }

  predicate IsCurrent<L>(pool: Pool<L>, t: TaskId) {
    pool.current.Some? && pool.current.value.task == t
  }

  // What the future is suspended on, if it is suspended.
  ghost function Awaits<L>(p: Prog<L>, f: Fut<L>): Option<Await> {
    match p.next(f.local)
    case Pause(what, _) => Some(what)
    case _ => None
  }

  ghost predicate WantsMessage<L>(p: Prog<L>, f: Fut<L>) {
    match Awaits(p, f)
    case Some(Recv) => true
    case Some(RecvTimeout(_)) => true
    case _ => false
  }

  ghost predicate WantsTimer<L>(p: Prog<L>, f: Fut<L>) {
    match Awaits(p, f)
    case Some(SleepUntil(_)) => true
    case Some(RecvTimeout(_)) => true
    case _ => false
  }

  ghost predicate PoolOk<L>(pool: Pool<L>, hosts: Hosts<L>) {
    && hosts.crashed <= hosts.nodes
    && (pool.current.Some? ==> pool.current.value.task in pool.tasks)
    && forall t :: t in pool.tasks ==>
         && t < pool.nextTask
         && pool.tasks[t].node in hosts.nodes - hosts.crashed
         && (pool.tasks[t].fut.None? <==> IsCurrent(pool, t))
  }

  ghost predicate Joining<L>(p: Prog<L>, pool: Pool<L>, t: TaskId, node: NodeId, s: TaskId) {
    && t in pool.tasks && pool.tasks[t].node == node
    && FutOf(pool, t).Some? && Awaits(p, FutOf(pool, t).value) == Some(Join(s))
  }

  ghost predicate JoinOk<L>(p: Prog<L>, pool: Pool<L>, s: TaskId, slot: JoinSlot) {
    && s < pool.nextTask
    && (if slot.done then slot.joiners == [] else s in pool.tasks && pool.tasks[s].node == slot.node)
    && forall t :: t in slot.joiners ==> Joining(p, pool, t, slot.node, s)
  }

  ghost predicate JoinsOk<L>(p: Prog<L>, pool: Pool<L>) {
    forall s :: s in pool.joins ==> JoinOk(p, pool, s, pool.joins[s])
  }

  // ----- receivers and timers -----

  ghost predicate Receiving<L>(pool: Pool<L>, t: TaskId, node: NodeId) {
    && t in pool.tasks && pool.tasks[t].node == node
    && FutOf(pool, t).Some? && FutOf(pool, t).value.waiting
  }

  ghost predicate WaitersOk<L>(pool: Pool<L>, waiters: map<NodeId, seq<TaskId>>) {
    && (forall n :: n in waiters ==> Distinct(waiters[n]))
    && (forall n, t :: n in waiters && t in waiters[n] ==> Receiving(pool, t, n))
  }

  // Nobody is registered at an inbox that holds a message.
  ghost predicate NoMissedMessage(inboxes: map<NodeId, seq<(NodeId, Message)>>, waiters: map<NodeId, seq<TaskId>>) {
    forall n :: n in waiters && n in inboxes ==> waiters[n] == [] || inboxes[n] == []
  }

  ghost predicate Timing<L>(pool: Pool<L>, t: TaskId, id: TimerId) {
    t in pool.tasks && FutOf(pool, t).Some? && FutOf(pool, t).value.timer == Some(id)
  }

  ghost predicate TimersOk<L>(pool: Pool<L>, timers: map<TimerId, TaskId>, nextTimer: TimerId) {
    forall id :: id in timers ==> id < nextTimer && Timing(pool, timers[id], id)
  }

  ghost predicate ShapeOk<L>(p: Prog<L>, timers: map<TimerId, TaskId>, nextTimer: TimerId, t: TaskId, f: Fut<L>) {
    && (f.waiting ==> WantsMessage(p, f))
    && (f.timer.Some? ==> WantsTimer(p, f) && f.timer.value < nextTimer
                          && (f.timer.value in timers ==> timers[f.timer.value] == t))
  }

  ghost predicate ShapesOk<L>(p: Prog<L>, pool: Pool<L>, timers: map<TimerId, TaskId>, nextTimer: TimerId) {
    forall t :: t in pool.tasks && FutOf(pool, t).Some? ==> ShapeOk(p, timers, nextTimer, t, FutOf(pool, t).value)
  }

  ghost predicate CrashedOk(k: Wakers, crashed: set<NodeId>) {
    forall n :: n in crashed ==> n !in k.inboxes && n !in k.waiters
  }

  // What the tables say about each other, the queue aside.
  ghost predicate Structure<L>(p: Prog<L>, pool: Pool<L>, k: Wakers, hosts: Hosts<L>) {
    && PoolOk(pool, hosts)
    && JoinsOk(p, pool)
    && WaitersOk(pool, k.waiters)
    && NoMissedMessage(k.inboxes, k.waiters)
    && TimersOk(pool, k.timers, k.nextTimer)
    && ShapesOk(p, pool, k.timers, k.nextTimer)
    && CrashedOk(k, hosts.crashed)
  }

  // ----- events -----

  ghost predicate EventOk(kind: EventKind, nextTask: TaskId, nextTimer: TimerId, crashed: set<NodeId>) {
    match kind
    case PollTask(t) => t < nextTask
    case TimerFire(id) => id < nextTimer
    case DeliverMsg(source, _, _) => source !in crashed
    case Fault(_) => true
  }

  ghost predicate EventsOk(a: Agenda, nextTask: TaskId, nextTimer: TimerId, crashed: set<NodeId>) {
    && (forall e :: e in a.queue ==> EventOk(e.kind, nextTask, nextTimer, crashed))
    && (forall e, f :: e in a.queue && f in a.queue && e.kind.TimerFire? && e.kind == f.kind ==> e == f)
  }

  // Queued, or the event being dispatched right now.
  ghost predicate Due(a: Agenda, now: Option<EventKind>, kind: EventKind) {
    Has(a, kind) || now == Some(kind)
  }

  ghost predicate TimersDue(a: Agenda, now: Option<EventKind>, timers: map<TimerId, TaskId>) {
    forall id :: id in timers ==> Due(a, now, TimerFire(id))
  }

  ghost predicate Registered(waiters: map<NodeId, seq<TaskId>>, node: NodeId, t: TaskId) {
    node in waiters && t in waiters[node]
  }

  ghost predicate Armed<L>(timers: map<TimerId, TaskId>, t: TaskId, f: Fut<L>) {
    f.timer.Some? && f.timer.value in timers && timers[f.timer.value] == t
  }

  ghost predicate JoinPending(joins: map<TaskId, JoinSlot>, node: NodeId, handle: TaskId, t: TaskId) {
    handle in joins && joins[handle].node == node && !joins[handle].done && t in joins[handle].joiners
  }

  // The suspended task's own source of wake-ups is in place.
  ghost predicate Sourced<L>(p: Prog<L>, joins: map<TaskId, JoinSlot>, k: Wakers, t: TaskId, node: NodeId, f: Fut<L>) {
    match Awaits(p, f)
    case None => false
    case Some(Recv) => Registered(k.waiters, node, t)
    case Some(SleepUntil(_)) => Armed(k.timers, t, f)
    case Some(RecvTimeout(_)) => Registered(k.waiters, node, t) && Armed(k.timers, t, f)
    case Some(Join(handle)) => JoinPending(joins, node, handle, t)
  }

  ghost predicate Awake<L>(p: Prog<L>, a: Agenda, now: Option<EventKind>, joins: map<TaskId, JoinSlot>, k: Wakers,
                           t: TaskId, slot: Slot<L>) {
    slot.fut.Some? ==> Due(a, now, PollTask(t)) || Sourced(p, joins, k, t, slot.node, slot.fut.value)
  }

  // Every suspended task has a poll due or a source of wake-ups.
  ghost predicate AwakeOk<L>(p: Prog<L>, a: Agenda, now: Option<EventKind>, tasks: map<TaskId, Slot<L>>,
                             joins: map<TaskId, JoinSlot>, k: Wakers) {
    forall t :: t in tasks ==> Awake(p, a, now, joins, k, t, tasks[t])
  }

  // What the tables and the queue say about each other, while `now` is dispatched.
  ghost predicate Progress<L>(p: Prog<L>, a: Agenda, now: Option<EventKind>, pool: Pool<L>, k: Wakers,
                              crashed: set<NodeId>) {
    && AgendaOk(a)
    && EventsOk(a, pool.nextTask, k.nextTimer, crashed)
    && TimersDue(a, now, k.timers)
    && AwakeOk(p, a, now, pool.tasks, pool.joins, k)
  }

  // ----- the invariant -----

  ghost predicate InvDuring<L>(p: Prog<L>, w: World<L>, now: Option<EventKind>) {
    && Structure(p, w.pool, w.wakers, w.hosts)
    && Progress(p, w.agenda, now, w.pool, w.wakers, w.hosts.crashed)
  }

  ghost predicate Inv<L>(p: Prog<L>, w: World<L>) {
    InvDuring(p, w, None)
  }

  lemma NewWorldOk<L>(p: Prog<L>)
    ensures Inv(p, NewWorld())
  {
  }

  // Changing the registrations of tasks that are not suspended wakes nobody late.
  ghost predicate KeepsSources(k: Wakers, k': Wakers, t: TaskId) {
    && (forall n :: Registered(k.waiters, n, t) ==> Registered(k'.waiters, n, t))
    && (forall id :: id in k.timers && k.timers[id] == t ==> id in k'.timers && k'.timers[id] == t)
  }

  lemma SourcesKept<L>(p: Prog<L>, a: Agenda, now: Option<EventKind>, tasks: map<TaskId, Slot<L>>,
                       joins: map<TaskId, JoinSlot>, k: Wakers, k': Wakers)
    requires AwakeOk(p, a, now, tasks, joins, k)
    requires forall t :: t in tasks && tasks[t].fut.Some? ==> KeepsSources(k, k', t)
    ensures AwakeOk(p, a, now, tasks, joins, k')
  {
    forall t | t in tasks ensures Awake(p, a, now, joins, k', t, tasks[t]) {
      assert Awake(p, a, now, joins, k, t, tasks[t]);
    }
  }

  // More events, all tasks as awake as before.
  lemma MoreEventsAwake<L>(p: Prog<L>, a: Agenda, a': Agenda, now: Option<EventKind>, tasks: map<TaskId, Slot<L>>,
                           joins: map<TaskId, JoinSlot>, k: Wakers)
    requires AwakeOk(p, a, now, tasks, joins, k)
    requires forall kind :: Has(a, kind) ==> Has(a', kind)
    ensures AwakeOk(p, a', now, tasks, joins, k)
  {
    forall t | t in tasks ensures Awake(p, a', now, joins, k, t, tasks[t]) {
      assert Awake(p, a, now, joins, k, t, tasks[t]);
    }
  }
}
