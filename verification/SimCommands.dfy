// The invariant through each command of a running task: awaits, sends, spawns
// and the end of a task.
module SimCommands {
  import opened Base
  import opened Nemesis
  import opened Queue
  import opened Sim
  import opened SimInvariant
  import opened SimTasks

  // ----- awaits that are ready -----

  lemma TakeMessageOk<L>(p: Prog<L>, w: World<L>, r: Running<L>, node: NodeId, resume: Reply -> L)
    requires Inv(p, w) && Runs(w.pool, r, node) && WantsMessage(p, r.fut) && Inbox(w.wakers, node) != []
    ensures Inv(p, TakeMessage(w, r, node, resume))
  {
    var w1 := w.(wakers := TakeFirst(w.wakers, node));
    PopInboxOk(p, w, node);
    var w2 := if r.fut.waiting then w1.(wakers := DropWaiter(w1.wakers, node, r.task)) else w1;
    if r.fut.waiting {
      DropWaiterOk(p, w1, r, node);
    } else {
      NotWaiting(p, w1, r, node);
    }
    ReleaseTimer(p, w2, r, node, resume(Received(Inbox(w.wakers, node)[0].0, Inbox(w.wakers, node)[0].1)));
  }

  // Cancel the timer and continue, once the receiver is unregistered.
  lemma ReleaseTimer<L>(p: Prog<L>, w: World<L>, r: Running<L>, node: NodeId, local: L)
    requires Inv(p, w) && Runs(w.pool, r, node)
    requires forall n :: n in w.wakers.waiters ==> r.task !in w.wakers.waiters[n]
    requires forall s :: s in w.pool.joins && Awaits(p, r.fut) == Some(Join(s)) ==> w.pool.joins[s].done
    ensures Inv(p, Continue(w.(wakers := CancelTimer(w.wakers, r.fut.timer)), r, local))
  {
    var w' := w.(wakers := CancelTimer(w.wakers, r.fut.timer));
    CancelTimerOk(p, w, r, node);
    DetachedByShape(p, w', r, node);
    ContinueOk(p, w', r, node, local);
  }

  // A task at a command that is not an await has nothing registered.
  lemma ProceedOk<L>(p: Prog<L>, w: World<L>, r: Running<L>, node: NodeId, local: L)
    requires Inv(p, w) && Runs(w.pool, r, node) && !WantsMessage(p, r.fut) && !WantsTimer(p, r.fut)
    requires forall s :: s in w.pool.joins && Awaits(p, r.fut) == Some(Join(s)) ==> w.pool.joins[s].done
    ensures Detached(w.pool, w.wakers, r.task) && Inv(p, Continue(w, r, local))
  {
    assert FutOf(w.pool, r.task) == Some(r.fut);
    NotWaiting(p, w, r, node);
    DetachedByShape(p, w, r, node);
    ContinueOk(p, w, r, node, local);
  }

  // ----- awaits that suspend -----

  lemma PollRecvOk<L>(p: Prog<L>, w: World<L>, r: Running<L>, node: NodeId, resume: Reply -> L)
    requires Inv(p, w) && Runs(w.pool, r, node) && Awaits(p, r.fut) == Some(Recv)
    ensures Inv(p, PollRecv(w, r, node, resume))
  {
    if Inbox(w.wakers, node) != [] {
      TakeMessageOk(p, w, r, node, resume);
    } else {
      var r' := Running(r.task, r.fut.(waiting := true));
      BecomeReceiver(p, w, r, node);
      var w' := Refit(w, r, r'.fut).(wakers := AddWaiter(w.wakers, node, r.task));
      ParkOk(p, w', r', node);
      assert PollRecv(w, r, node, resume) == Park(w', r', node, r'.fut);
    }
  }

  lemma BecomeReceiver<L>(p: Prog<L>, w: World<L>, r: Running<L>, node: NodeId)
    requires Inv(p, w) && Runs(w.pool, r, node) && WantsMessage(p, r.fut) && Inbox(w.wakers, node) == []
    ensures var f := r.fut.(waiting := true);
            var w' := Refit(w, r, f).(wakers := AddWaiter(w.wakers, node, r.task));
            Inv(p, w') && Registered(w'.wakers.waiters, node, r.task)
  {
    assert FutOf(w.pool, r.task) == Some(r.fut);
    var f := r.fut.(waiting := true);
    RefitOk(p, w, r, node, f);
    AddWaiterOk(p, Refit(w, r, f), Running(r.task, f), node);
  }

  lemma ParkWithTimer<L>(p: Prog<L>, w: World<L>, r: Running<L>, node: NodeId, until: nat, deadline: Option<nat>)
    requires Inv(p, w) && Runs(w.pool, r, node) && WantsTimer(p, r.fut)
    requires WantsMessage(p, r.fut) ==> Registered(w.wakers.waiters, node, r.task)
    ensures var (armed, timer) := ArmTimer(w, r, node, until);
            Inv(p, Park(armed, r, node, r.fut.(timer := timer, deadline := deadline)))
  {
    var (armed, timer) := ArmTimer(w, r, node, until);
    var r1 := Running(r.task, r.fut.(timer := timer));
    ArmTimerOk(p, w, r, node, until);
    ArmedByArmTimer(p, w, r, node, until);
    var w1 := Armoured(w, r, node, until);
    var r2 := Running(r.task, r1.fut.(deadline := deadline));
    assert Runs(w1.pool, r1, node) && FutOf(w1.pool, r.task) == Some(r1.fut);
    RefitOk(p, w1, r1, node, r2.fut);
    ParkOk(p, Refit(w1, r1, r2.fut), r2, node);
    assert Park(armed, r, node, r2.fut) == Park(Refit(w1, r1, r2.fut), r2, node, r2.fut);
  }

  lemma PollSleepOk<L>(p: Prog<L>, w: World<L>, r: Running<L>, node: NodeId, deadline: nat, resume: Reply -> L)
    requires Inv(p, w) && Runs(w.pool, r, node) && Awaits(p, r.fut) == Some(SleepUntil(deadline))
    ensures Inv(p, PollSleep(w, r, node, deadline, resume))
  {
    assert FutOf(w.pool, r.task) == Some(r.fut);
    var read := ReadClock(w, node);
    if LocalNow(w, node) >= deadline {
      NotWaiting(p, read, r, node);
      ReleaseTimer(p, read, r, node, resume(Nothing));
    } else {
      ParkWithTimer(p, read, r, node, deadline, r.fut.deadline);
    }
  }

  lemma RecvTimesOut<L>(p: Prog<L>, w: World<L>, r: Running<L>, node: NodeId, local: L)
    requires Inv(p, w) && Runs(w.pool, r, node) && WantsMessage(p, r.fut) && Inbox(w.wakers, node) == []
    ensures var k := DropWaiter(Listening(w, r, node).wakers, node, r.task);
            Inv(p, Continue(Listening(w, r, node).(wakers := CancelTimer(k, r.fut.timer)), r, local))
  {
    var r1 := Running(r.task, r.fut.(waiting := true));
    BecomeReceiver(p, w, r, node);
    var w1 := Refit(Listening(w, r, node), r, r1.fut);
    DropWaiterOk(p, w1, r1, node);
    ReleaseTimer(p, w1.(wakers := DropWaiter(w1.wakers, node, r.task)), r1, node, local);
  }

  // Suspending forgets which future was running.
  lemma ParkForgets<L>(w: World<L>, r: Running<L>, f: Fut<L>, node: NodeId, deadline: nat, g: Fut<L>)
    requires f.timer == r.fut.timer
    ensures var r' := Running(r.task, f);
            var (armed, timer) := ArmTimer(w, r, node, deadline);
            var (armed', timer') := ArmTimer(Refit(w, r, f), r', node, deadline);
            timer' == timer && Park(armed', r', node, g) == Park(armed, r, node, g)
  {
  }

  lemma RecvSuspends<L>(p: Prog<L>, w: World<L>, r: Running<L>, node: NodeId, deadline: nat)
    requires Inv(p, w) && Runs(w.pool, r, node) && WantsMessage(p, r.fut) && WantsTimer(p, r.fut)
    requires Inbox(w.wakers, node) == []
    ensures var (armed, timer) := ArmTimer(Listening(w, r, node), r, node, deadline);
            Inv(p, Park(armed, r, node, Fut(r.fut.local, true, timer, Some(deadline))))
  {
    var r1 := Running(r.task, r.fut.(waiting := true));
    BecomeReceiver(p, w, r, node);
    var w1 := Refit(Listening(w, r, node), r, r1.fut);
    ParkWithTimer(p, w1, r1, node, deadline, Some(deadline));
    var timer := ArmTimer(Listening(w, r, node), r, node, deadline).1;
    ParkForgets(Listening(w, r, node), r, r1.fut, node, deadline, Fut(r.fut.local, true, timer, Some(deadline)));
  }

  lemma PollRecvTimeoutOk<L>(p: Prog<L>, w: World<L>, r: Running<L>, node: NodeId, duration: nat, resume: Reply -> L)
    requires Inv(p, w) && Runs(w.pool, r, node) && Awaits(p, r.fut) == Some(RecvTimeout(duration))
    ensures Inv(p, PollRecvTimeout(w, r, node, duration, resume))
  {
    if Inbox(w.wakers, node) != [] {
      TakeMessageOk(p, w, r, node, resume);
    } else {
      var local := LocalNow(w, node);
      var deadline := if r.fut.deadline.Some? then r.fut.deadline.value else SatAdd(local, duration);
      if local >= deadline {
        RecvTimesOut(p, w, r, node, resume(TimedOut));
      } else {
        RecvSuspends(p, w, r, node, deadline);
      }
    }
  }

  lemma PollJoinOk<L>(p: Prog<L>, w: World<L>, r: Running<L>, node: NodeId, handle: TaskId, resume: Reply -> L)
    requires Inv(p, w) && Runs(w.pool, r, node) && Awaits(p, r.fut) == Some(Join(handle))
    ensures Inv(p, PollJoin(w, r, node, handle, resume))
  {
    if handle in w.pool.joins && w.pool.joins[handle].node == node {
      var slot := w.pool.joins[handle];
      if slot.done {
        ProceedOk(p, w, r, node, resume(Joined(slot.output)));
      } else {
        AddJoinerOk(p, w, r, node, handle);
        ParkOk(p, WithJoiner(w, r, handle), r, node);
      }
    }
  }

  function WithJoiner<L>(w: World<L>, r: Running<L>, handle: TaskId): World<L>
    requires handle in w.pool.joins
  {
    var slot := w.pool.joins[handle];
    var joiners := if r.task in slot.joiners then slot.joiners else slot.joiners + [r.task];
    w.(pool := w.pool.(joins := w.pool.joins[handle := slot.(joiners := joiners)]))
  }

  lemma AddJoinerOk<L>(p: Prog<L>, w: World<L>, r: Running<L>, node: NodeId, handle: TaskId)
    requires Inv(p, w) && Runs(w.pool, r, node) && Awaits(p, r.fut) == Some(Join(handle))
    requires handle in w.pool.joins && w.pool.joins[handle].node == node && !w.pool.joins[handle].done
    ensures Inv(p, WithJoiner(w, r, handle))
    ensures JoinPending(WithJoiner(w, r, handle).pool.joins, node, handle, r.task)
  {
    var pool, pool' := w.pool, WithJoiner(w, r, handle).pool;
    assert forall t :: FutOf(pool', t) == FutOf(pool, t);
    assert Joining(p, pool', r.task, node, handle);
    forall s | s in pool'.joins ensures JoinOk(p, pool', s, pool'.joins[s]) {
      assert JoinOk(p, pool, s, pool.joins[s]);
      assert forall t, n :: Joining(p, pool, t, n, s) ==> Joining(p, pool', t, n, s);
    }
    JoinersAwake(p, w.agenda, pool, pool'.joins, w.wakers);
  }

  lemma JoinersAwake<L>(p: Prog<L>, a: Agenda, pool: Pool<L>, joins: map<TaskId, JoinSlot>, k: Wakers)
    requires AwakeOk(p, a, None, pool.tasks, pool.joins, k)
    requires forall n, h, t :: JoinPending(pool.joins, n, h, t) ==> JoinPending(joins, n, h, t)
    ensures AwakeOk(p, a, None, pool.tasks, joins, k)
  {
    forall t | t in pool.tasks ensures Awake(p, a, None, joins, k, t, pool.tasks[t]) {
      assert Awake(p, a, None, pool.joins, k, t, pool.tasks[t]);
    }
  }

  // ----- the end of a task -----

  function Ended<L>(pool: Pool<L>, t: TaskId, output: int): Pool<L> {
    var rest := pool.(current := None, tasks := pool.tasks - {t});
    if t in pool.joins then
      rest.(joins := pool.joins[t := pool.joins[t].(done := true, output := output, joiners := [])])
    else rest
  }

  lemma EndedStructure<L>(p: Prog<L>, w: World<L>, r: Running<L>, node: NodeId, output: int)
    requires Structure(p, w.pool, w.wakers, w.hosts) && Runs(w.pool, r, node)
    requires Detached(w.pool, w.wakers, r.task)
    ensures Structure(p, Ended(w.pool, r.task, output), w.wakers, w.hosts)
  {
    var pool, pool' := w.pool, Ended(w.pool, r.task, output);
    assert forall t :: t != r.task ==> FutOf(pool', t) == FutOf(pool, t);
    forall s | s in pool'.joins ensures JoinOk(p, pool', s, pool'.joins[s]) {
      assert JoinOk(p, pool, s, pool.joins[s]);
      assert forall t, n :: t != r.task && Joining(p, pool, t, n, s) ==> Joining(p, pool', t, n, s);
    }
    assert forall t, n :: t != r.task && Receiving(pool, t, n) ==> Receiving(pool', t, n);
    assert forall t, id :: t != r.task && Timing(pool, t, id) ==> Timing(pool', t, id);
  }

  lemma EndedProgress<L>(p: Prog<L>, a: Agenda, pool: Pool<L>, k: Wakers, crashed: set<NodeId>, t: TaskId, output: int)
    requires Progress(p, a, None, pool, k, crashed) && t in pool.joins
    requires forall u :: u in pool.joins[t].joiners ==> u < pool.nextTask
    ensures Progress(p, PushPolls(a, pool.joins[t].joiners), None, Ended(pool, t, output), k, crashed)
  {
    var joiners := pool.joins[t].joiners;
    var a', pool' := PushPolls(a, joiners), Ended(pool, t, output);
    PushPollsOk(a, joiners);
    PushPollsEffect(a, joiners);
    forall u | u in pool'.tasks ensures Awake(p, a', None, pool'.joins, k, u, pool'.tasks[u]) {
      assert Awake(p, a, None, pool.joins, k, u, pool.tasks[u]);
    }
  }

  lemma FinishTaskOk<L>(p: Prog<L>, w: World<L>, r: Running<L>, node: NodeId, output: int)
    requires Inv(p, w) && Runs(w.pool, r, node) && Awaits(p, r.fut) == None
    ensures Inv(p, FinishTask(w, r, output))
  {
    ProceedOk(p, w, r, node, r.fut.local);
    EndedStructure(p, w, r, node, output);
    if r.task in w.pool.joins {
      assert JoinOk(p, w.pool, r.task, w.pool.joins[r.task]);
      forall u | u in w.pool.joins[r.task].joiners ensures u < w.pool.nextTask {
        assert Joining(p, w.pool, u, w.pool.joins[r.task].node, r.task);
      }
      EndedProgress(p, w.agenda, w.pool, w.wakers, w.hosts.crashed, r.task, output);
    } else {
      FewerTasksProgress(p, w.agenda, w.pool, Ended(w.pool, r.task, output), w.wakers, w.hosts.crashed);
    }
  }

  lemma FewerTasksProgress<L>(p: Prog<L>, a: Agenda, pool: Pool<L>, pool': Pool<L>, k: Wakers, crashed: set<NodeId>)
    requires Progress(p, a, None, pool, k, crashed)
    requires pool'.joins == pool.joins && pool'.nextTask == pool.nextTask
    requires forall t :: t in pool'.tasks ==> t in pool.tasks && pool'.tasks[t] == pool.tasks[t]
    ensures Progress(p, a, None, pool', k, crashed)
  {
    forall t | t in pool'.tasks ensures Awake(p, a, None, pool'.joins, k, t, pool'.tasks[t]) {
      assert Awake(p, a, None, pool.joins, k, t, pool.tasks[t]);
    }
  }

  // ----- new tasks and messages -----

  // The tasks there were are as they were.
  ghost predicate PoolGrows<L>(pool: Pool<L>, pool': Pool<L>) {
    && pool'.joins == pool.joins && pool.nextTask <= pool'.nextTask
    && forall t :: t in pool.tasks ==>
         t in pool'.tasks && pool'.tasks[t] == pool.tasks[t] && FutOf(pool', t) == FutOf(pool, t)
  }

  lemma GrownJoins<L>(p: Prog<L>, pool: Pool<L>, pool': Pool<L>)
    requires JoinsOk(p, pool) && PoolGrows(pool, pool')
    ensures JoinsOk(p, pool')
  {
    forall s | s in pool'.joins ensures JoinOk(p, pool', s, pool'.joins[s]) {
      assert JoinOk(p, pool, s, pool.joins[s]);
      assert forall t, n :: Joining(p, pool, t, n, s) ==> Joining(p, pool', t, n, s);
    }
  }

  lemma GrownWakers<L>(pool: Pool<L>, pool': Pool<L>, k: Wakers)
    requires WaitersOk(pool, k.waiters) && TimersOk(pool, k.timers, k.nextTimer) && PoolGrows(pool, pool')
    ensures WaitersOk(pool', k.waiters) && TimersOk(pool', k.timers, k.nextTimer)
  {
    assert forall t, n :: Receiving(pool, t, n) ==> Receiving(pool', t, n);
    assert forall t, x :: Timing(pool, t, x) ==> Timing(pool', t, x);
  }

  lemma AddedStructure<L>(p: Prog<L>, pool: Pool<L>, k: Wakers, hosts: Hosts<L>, node: NodeId, local: L)
    requires Structure(p, pool, k, hosts) && node in hosts.nodes - hosts.crashed
    ensures Structure(p, pool.(tasks := pool.tasks[pool.nextTask := Slot(node, Some(Fresh(local)))],
                               nextTask := pool.nextTask + 1), k, hosts)
  {
    var pool' := pool.(tasks := pool.tasks[pool.nextTask := Slot(node, Some(Fresh(local)))],
                       nextTask := pool.nextTask + 1);
    GrownJoins(p, pool, pool');
    GrownWakers(pool, pool', k);
  }

  lemma AddedProgress<L>(p: Prog<L>, a: Agenda, pool: Pool<L>, k: Wakers, crashed: set<NodeId>, node: NodeId, local: L)
    requires Progress(p, a, None, pool, k, crashed)
    ensures Progress(p, Push(a, a.now, PollTask(pool.nextTask)), None,
                     pool.(tasks := pool.tasks[pool.nextTask := Slot(node, Some(Fresh(local)))],
                           nextTask := pool.nextTask + 1), k, crashed)
  {
    var id := pool.nextTask;
    var a' := Push(a, a.now, PollTask(id));
    PushOk(a, a.now, PollTask(id));
    MoreEventsAwake(p, a, a', None, pool.tasks, pool.joins, k);
    assert forall e :: e in a'.queue ==> EventOk(e.kind, id + 1, k.nextTimer, crashed);
  }

  lemma AddTaskOk<L>(p: Prog<L>, w: World<L>, node: NodeId, local: L)
    requires Inv(p, w) && node in w.hosts.nodes - w.hosts.crashed
    ensures Inv(p, AddTask(w, node, local))
  {
    AddedStructure(p, w.pool, w.wakers, w.hosts, node, local);
    AddedProgress(p, w.agenda, w.pool, w.wakers, w.hosts.crashed, node, local);
  }

  lemma AddJoinSlotOk<L>(p: Prog<L>, w: World<L>, s: TaskId, node: NodeId)
    requires Inv(p, w) && s in w.pool.tasks && w.pool.tasks[s].node == node && s !in w.pool.joins
    ensures Inv(p, w.(pool := w.pool.(joins := w.pool.joins[s := JoinSlot(node, false, 0, [])])))
  {
    var pool, pool' := w.pool, w.pool.(joins := w.pool.joins[s := JoinSlot(node, false, 0, [])]);
    assert forall t :: FutOf(pool', t) == FutOf(pool, t);
    forall x | x in pool'.joins ensures JoinOk(p, pool', x, pool'.joins[x]) {
      if x != s {
        assert JoinOk(p, pool, x, pool.joins[x]);
        assert forall t, n :: Joining(p, pool, t, n, x) ==> Joining(p, pool', t, n, x);
      }
    }
    assert forall t, n :: Receiving(pool, t, n) ==> Receiving(pool', t, n);
    assert forall t, x :: Timing(pool, t, x) ==> Timing(pool', t, x);
    JoinersAwake(p, w.agenda, pool, pool'.joins, w.wakers);
  }

  lemma SpawnTaskOk<L>(p: Prog<L>, w: World<L>, r: Running<L>, node: NodeId, child: L, resume: Reply -> L)
    requires Inv(p, w) && Runs(w.pool, r, node) && Awaits(p, r.fut) == None
    ensures Inv(p, SpawnTask(w, r, node, child, resume))
  {
    var id := w.pool.nextTask;
    JoinIdsBelow(p, w.pool);
    AddTaskOk(p, w, node, child);
    var w1 := AddTask(w, node, child);
    AddJoinSlotOk(p, w1, id, node);
    var w2 := w1.(pool := w1.pool.(joins := w1.pool.joins[id := JoinSlot(node, false, 0, [])]));
    ProceedOk(p, w2, r, node, resume(Number(id)));
    SpawnTaskIs(w, r, node, child, resume);
  }

  lemma JoinIdsBelow<L>(p: Prog<L>, pool: Pool<L>)
    requires JoinsOk(p, pool)
    ensures forall s :: s in pool.joins ==> s < pool.nextTask
  {
    forall s | s in pool.joins ensures s < pool.nextTask { assert JoinOk(p, pool, s, pool.joins[s]); }
  }

  lemma SpawnTaskIs<L>(w: World<L>, r: Running<L>, node: NodeId, child: L, resume: Reply -> L)
    ensures var id := w.pool.nextTask;
            var w1 := AddTask(w, node, child);
            SpawnTask(w, r, node, child, resume)
            == Continue(w1.(pool := w1.pool.(joins := w1.pool.joins[id := JoinSlot(node, false, 0, [])])), r,
                        resume(Number(id)))
  {
  }

  lemma PushHarmless<L>(p: Prog<L>, w: World<L>, at: nat, kind: EventKind)
    requires Inv(p, w) && w.agenda.now <= at <= U64_MAX
    requires kind.Fault? || (kind.DeliverMsg? && kind.source !in w.hosts.crashed)
    ensures Inv(p, w.(agenda := Push(w.agenda, at, kind)))
  {
    PushOk(w.agenda, at, kind);
    MoreEventsAwake(p, w.agenda, Push(w.agenda, at, kind), None, w.pool.tasks, w.pool.joins, w.wakers);
  }

  lemma TransmitOk<L>(p: Prog<L>, w: World<L>, r: Running<L>, node: NodeId, target: NodeId, msg: Message, at: nat,
                      again: Option<nat>, local: L)
    requires Inv(p, w) && Runs(w.pool, r, node) && Awaits(p, r.fut) == None
    requires w.agenda.now <= at <= U64_MAX
    requires again.Some? ==> w.agenda.now <= again.value <= U64_MAX
    ensures Inv(p, Continue(w.(agenda := Transmit(w.agenda, node, target, msg, at, again)), r, local))
  {
    var kind := DeliverMsg(node, target, msg);
    PushHarmless(p, w, at, kind);
    var once := w.(agenda := Push(w.agenda, at, kind));
    if again.Some? {
      PushHarmless(p, once, again.value, kind);
    }
    ProceedOk(p, w.(agenda := Transmit(w.agenda, node, target, msg, at, again)), r, node, local);
  }

  lemma LocalCmdOk<L>(p: Prog<L>, w: World<L>, r: Running<L>, node: NodeId, op: Op<L>, resume: Reply -> L)
    requires Inv(p, w) && Runs(w.pool, r, node) && Awaits(p, r.fut) == None && !op.Send? && !op.Spawn?
    ensures Inv(p, LocalCmd(p, w, r, node, op, resume))
  {
    var w' := LocalCmd(p, w, r, node, op, resume);
    if !w'.panicked || w.panicked {
      LocalCmdShape(p, w, r, node, op, resume);
    }
    if w'.pool != w.pool {
      ProceedOk(p, w, r, node, w'.pool.current.value.fut.local);
    }
  }

  // A local command replaces the running future and touches no other table.
  lemma LocalCmdShape<L>(p: Prog<L>, w: World<L>, r: Running<L>, node: NodeId, op: Op<L>, resume: Reply -> L)
    requires !op.Send? && !op.Spawn? && w.pool.current == Some(r)
    ensures var w' := LocalCmd(p, w, r, node, op, resume);
            && w'.agenda == w.agenda && w'.wakers == w.wakers && w'.hosts == w.hosts
            && (w'.pool == w.pool ||
                (w'.pool.current.Some? && w'.pool == Continue(w, r, w'.pool.current.value.fut.local).pool))
  {
  }
}
