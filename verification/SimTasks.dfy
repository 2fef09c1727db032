// Every command of a running task keeps the invariant.
module SimTasks {
  import opened Base
  import opened Nemesis
  import opened Queue
  import opened Sim
  import opened SimInvariant

  // ----- the running task -----

  ghost predicate Runs<L>(pool: Pool<L>, r: Running<L>, node: NodeId) {
    pool.current == Some(r) && r.task in pool.tasks && pool.tasks[r.task].node == node
  }

  // Nothing refers to the task any more.
  ghost predicate Detached<L>(pool: Pool<L>, k: Wakers, t: TaskId) {
    && (forall n :: n in k.waiters ==> t !in k.waiters[n])
    && (forall id :: id in k.timers ==> k.timers[id] != t)
    && (forall s :: s in pool.joins ==> t !in pool.joins[s].joiners)
  }

  // The same tasks hold the same futures, in the table or running.
  ghost predicate SameFutures<L>(pool: Pool<L>, pool': Pool<L>) {
    && pool'.nextTask == pool.nextTask && pool'.joins == pool.joins
    && pool'.tasks.Keys == pool.tasks.Keys
    && (forall t :: t in pool.tasks ==> pool'.tasks[t].node == pool.tasks[t].node)
    && (forall t :: FutOf(pool', t) == FutOf(pool, t))
  }

  lemma SameFuturesOk<L>(p: Prog<L>, pool: Pool<L>, pool': Pool<L>, k: Wakers, hosts: Hosts<L>)
    requires Structure(p, pool, k, hosts) && SameFutures(pool, pool') && PoolOk(pool', hosts)
    ensures Structure(p, pool', k, hosts)
  {
    forall s | s in pool'.joins ensures JoinOk(p, pool', s, pool'.joins[s]) {
      assert JoinOk(p, pool, s, pool.joins[s]);
      assert forall t :: t in pool.joins[s].joiners ==> Joining(p, pool, t, pool.joins[s].node, s);
    }
    assert forall n, t :: Receiving(pool, t, n) ==> Receiving(pool', t, n);
    assert forall id, t :: Timing(pool, t, id) ==> Timing(pool', t, id);
  }

  // ----- continuing with nothing registered -----

  lemma ContinueOk<L>(p: Prog<L>, w: World<L>, r: Running<L>, node: NodeId, local: L)
    requires Inv(p, w) && Runs(w.pool, r, node) && Detached(w.pool, w.wakers, r.task)
    ensures Inv(p, Continue(w, r, local))
  {
    var pool' := Continue(w, r, local).pool;
    assert forall t :: t in w.pool.tasks && t != r.task ==> FutOf(pool', t) == FutOf(w.pool, t);
    forall s | s in pool'.joins ensures JoinOk(p, pool', s, pool'.joins[s]) {
      assert JoinOk(p, w.pool, s, w.pool.joins[s]);
    }
  }

  // A task that awaits nothing, or whose await registered nothing, is detached.
  lemma DetachedByShape<L>(p: Prog<L>, w: World<L>, r: Running<L>, node: NodeId)
    requires Inv(p, w) && Runs(w.pool, r, node)
    requires forall n :: n in w.wakers.waiters ==> r.task !in w.wakers.waiters[n]
    requires r.fut.timer.Some? ==> r.fut.timer.value !in w.wakers.timers
    requires forall s :: s in w.pool.joins && Awaits(p, r.fut) == Some(Join(s)) ==> w.pool.joins[s].done
    ensures Detached(w.pool, w.wakers, r.task)
  {
    forall s | s in w.pool.joins ensures r.task !in w.pool.joins[s].joiners {
      assert JoinOk(p, w.pool, s, w.pool.joins[s]);
    }
    forall id | id in w.wakers.timers ensures w.wakers.timers[id] != r.task {
      assert Timing(w.pool, w.wakers.timers[id], id);
    }
  }

  lemma NotWaiting<L>(p: Prog<L>, w: World<L>, r: Running<L>, node: NodeId)
    requires Inv(p, w) && Runs(w.pool, r, node) && !r.fut.waiting
    ensures forall n :: n in w.wakers.waiters ==> r.task !in w.wakers.waiters[n]
  {
    forall n | n in w.wakers.waiters ensures r.task !in w.wakers.waiters[n] {
      assert !Receiving(w.pool, r.task, n);
    }
  }

  // ----- suspending -----

  // Record other registrations in the running future.
  function Refit<L>(w: World<L>, r: Running<L>, f: Fut<L>): World<L> {
    w.(pool := w.pool.(current := Some(Running(r.task, f))))
  }

  lemma RefitJoins<L>(p: Prog<L>, pool: Pool<L>, r: Running<L>, f: Fut<L>)
    requires JoinsOk(p, pool) && pool.current == Some(r) && f.local == r.fut.local
    ensures JoinsOk(p, pool.(current := Some(Running(r.task, f))))
  {
    var pool' := pool.(current := Some(Running(r.task, f)));
    forall s | s in pool'.joins ensures JoinOk(p, pool', s, pool'.joins[s]) {
      assert JoinOk(p, pool, s, pool.joins[s]);
      assert forall t, n :: Joining(p, pool, t, n, s) ==> Joining(p, pool', t, n, s);
    }
  }

  lemma RefitOk<L>(p: Prog<L>, w: World<L>, r: Running<L>, node: NodeId, f: Fut<L>)
    requires Inv(p, w) && Runs(w.pool, r, node)
    requires f.local == r.fut.local && ShapeOk(p, w.wakers.timers, w.wakers.nextTimer, r.task, f)
    requires r.fut.waiting ==> f.waiting
    requires f.timer == r.fut.timer
    ensures Inv(p, Refit(w, r, f))
  {
    var pool' := Refit(w, r, f).pool;
    assert forall t :: t in w.pool.tasks && t != r.task ==> FutOf(pool', t) == FutOf(w.pool, t);
    RefitJoins(p, w.pool, r, f);
    assert forall n, t :: Receiving(w.pool, t, n) ==> Receiving(pool', t, n);
    assert forall t, id :: Timing(w.pool, t, id) ==> Timing(pool', t, id);
    RefitProgress(p, w.agenda, w.pool, pool', w.wakers, w.hosts.crashed);
  }

  lemma ParkOk<L>(p: Prog<L>, w: World<L>, r: Running<L>, node: NodeId)
    requires Inv(p, w) && Runs(w.pool, r, node)
    requires Sourced(p, w.pool.joins, w.wakers, r.task, node, r.fut)
    ensures Inv(p, Park(w, r, node, r.fut))
  {
    var pool' := Park(w, r, node, r.fut).pool;
    assert forall t :: FutOf(pool', t) == FutOf(w.pool, t);
    SameFuturesOk(p, w.pool, pool', w.wakers, w.hosts);
  }

  // ----- receivers -----

  lemma {:induction false} RemoveAllOk(list: seq<TaskId>, gone: set<TaskId>)
    requires Distinct(list)
    ensures Distinct(RemoveAll(list, gone))
    ensures forall t :: t in RemoveAll(list, gone) <==> t in list && t !in gone
  {
    if list != [] {
      var tail := list[1..];
      RemoveAllOk(tail, gone);
      assert list == [list[0]] + tail;
      var r := RemoveAll(tail, gone);
      forall b | 0 <= b < |r| ensures r[b] != list[0] {
        assert r[b] in tail;
        var c :| 0 <= c < |tail| && tail[c] == r[b];
        assert list[c + 1] == tail[c];
      }
    }
  }

  lemma AddedWaiters<L>(pool: Pool<L>, k: Wakers, node: NodeId, task: TaskId)
    requires WaitersOk(pool, k.waiters) && NoMissedMessage(k.inboxes, k.waiters)
    requires Receiving(pool, task, node) && Inbox(k, node) == []
    ensures var k' := AddWaiter(k, node, task);
            && WaitersOk(pool, k'.waiters) && NoMissedMessage(k'.inboxes, k'.waiters)
            && Registered(k'.waiters, node, task)
            && forall t :: KeepsSources(k, k', t)
  {
    var k' := AddWaiter(k, node, task);
    var list := Waiters(k, node);
    assert k'.waiters[node] == list || k'.waiters[node] == list + [task];
    assert Distinct(list);
  }

  lemma AddWaiterOk<L>(p: Prog<L>, w: World<L>, r: Running<L>, node: NodeId)
    requires Inv(p, w) && Runs(w.pool, r, node) && r.fut.waiting && Inbox(w.wakers, node) == []
    ensures Inv(p, w.(wakers := AddWaiter(w.wakers, node, r.task)))
    ensures Registered(AddWaiter(w.wakers, node, r.task).waiters, node, r.task)
  {
    AddedWaiters(w.pool, w.wakers, node, r.task);
    SourcesKept(p, w.agenda, None, w.pool.tasks, w.pool.joins, w.wakers, AddWaiter(w.wakers, node, r.task));
  }

  lemma DroppedWaiters<L>(pool: Pool<L>, k: Wakers, node: NodeId, task: TaskId)
    requires WaitersOk(pool, k.waiters) && NoMissedMessage(k.inboxes, k.waiters)
    requires task in pool.tasks && pool.tasks[task].node == node
    ensures var k' := DropWaiter(k, node, task);
            && WaitersOk(pool, k'.waiters) && NoMissedMessage(k'.inboxes, k'.waiters)
            && (forall n :: n in k'.waiters ==> task !in k'.waiters[n])
            && forall t :: t != task ==> KeepsSources(k, k', t)
  {
    if node in k.waiters {
      RemoveAllOk(k.waiters[node], {task});
    }
    var k' := DropWaiter(k, node, task);
    forall n | n in k'.waiters ensures task !in k'.waiters[n] {
      if n != node { assert !Receiving(pool, task, n); }
    }
  }

  lemma DropWaiterOk<L>(p: Prog<L>, w: World<L>, r: Running<L>, node: NodeId)
    requires Inv(p, w) && Runs(w.pool, r, node)
    ensures Inv(p, w.(wakers := DropWaiter(w.wakers, node, r.task)))
    ensures forall n :: n in DropWaiter(w.wakers, node, r.task).waiters ==>
              r.task !in DropWaiter(w.wakers, node, r.task).waiters[n]
  {
    DroppedWaiters(w.pool, w.wakers, node, r.task);
    SourcesKept(p, w.agenda, None, w.pool.tasks, w.pool.joins, w.wakers, DropWaiter(w.wakers, node, r.task));
  }

  function TakeFirst(k: Wakers, node: NodeId): Wakers
    requires Inbox(k, node) != []
  {
    k.(inboxes := k.inboxes[node := Inbox(k, node)[1..]])
  }

  lemma PopInboxOk<L>(p: Prog<L>, w: World<L>, node: NodeId)
    requires Inv(p, w) && Inbox(w.wakers, node) != []
    ensures Inv(p, w.(wakers := TakeFirst(w.wakers, node)))
  {
    SourcesKept(p, w.agenda, None, w.pool.tasks, w.pool.joins, w.wakers, TakeFirst(w.wakers, node));
  }

  // ----- timers -----

  lemma CancelledTimers<L>(p: Prog<L>, pool: Pool<L>, k: Wakers, t: TaskId, f: Fut<L>)
    requires TimersOk(pool, k.timers, k.nextTimer) && ShapesOk(p, pool, k.timers, k.nextTimer)
    requires ShapeOk(p, k.timers, k.nextTimer, t, f)
    ensures var k' := CancelTimer(k, f.timer);
            && TimersOk(pool, k'.timers, k'.nextTimer) && ShapesOk(p, pool, k'.timers, k'.nextTimer)
            && k'.inboxes == k.inboxes && k'.waiters == k.waiters && k'.nextTimer == k.nextTimer
            && k'.timers.Keys <= k.timers.Keys
            && forall u :: u != t ==> KeepsSources(k, k', u)
  {
  }

  lemma CancelTimerOk<L>(p: Prog<L>, w: World<L>, r: Running<L>, node: NodeId)
    requires Inv(p, w) && Runs(w.pool, r, node)
    ensures Inv(p, w.(wakers := CancelTimer(w.wakers, r.fut.timer)))
  {
    assert FutOf(w.pool, r.task) == Some(r.fut);
    CancelledTimers(p, w.pool, w.wakers, r.task, r.fut);
    SourcesKept(p, w.agenda, None, w.pool.tasks, w.pool.joins, w.wakers, CancelTimer(w.wakers, r.fut.timer));
  }

  function NewTimer(k: Wakers, t: TaskId): Wakers {
    k.(nextTimer := k.nextTimer + 1, timers := k.timers[k.nextTimer := t])
  }

  lemma NewTimerStructure<L>(p: Prog<L>, w: World<L>, r: Running<L>, node: NodeId)
    requires Structure(p, w.pool, w.wakers, w.hosts) && Runs(w.pool, r, node) && WantsTimer(p, r.fut)
    requires r.fut.timer.Some? ==> r.fut.timer.value !in w.wakers.timers
    ensures var f := r.fut.(timer := Some(w.wakers.nextTimer));
            Structure(p, Refit(w, r, f).pool, NewTimer(w.wakers, r.task), w.hosts)
  {
    var k, k' := w.wakers, NewTimer(w.wakers, r.task);
    var id := k.nextTimer;
    var pool, pool' := w.pool, Refit(w, r, r.fut.(timer := Some(id))).pool;
    assert forall t :: t in pool.tasks && t != r.task ==> FutOf(pool', t) == FutOf(pool, t);
    RefitJoins(p, pool, r, r.fut.(timer := Some(id)));
    assert forall n, t :: Receiving(pool, t, n) ==> Receiving(pool', t, n);
    forall x | x in k'.timers ensures x < k'.nextTimer && Timing(pool', k'.timers[x], x) {
      if x != id { assert Timing(pool, k.timers[x], x); }
    }
    forall t | t in pool'.tasks && FutOf(pool', t).Some?
      ensures ShapeOk(p, k'.timers, k'.nextTimer, t, FutOf(pool', t).value)
    {
      assert ShapeOk(p, k.timers, k.nextTimer, t, FutOf(pool, t).value);
    }
  }

  lemma NewTimerProgress<L>(p: Prog<L>, a: Agenda, pool: Pool<L>, k: Wakers, crashed: set<NodeId>, t: TaskId, at: nat)
    requires Progress(p, a, None, pool, k, crashed) && a.now <= at <= U64_MAX
    requires forall id :: id in k.timers ==> id < k.nextTimer
    ensures Progress(p, Push(a, at, TimerFire(k.nextTimer)), None, pool, NewTimer(k, t), crashed)
  {
    var a' := Push(a, at, TimerFire(k.nextTimer));
    PushOk(a, at, TimerFire(k.nextTimer));
    MoreEventsAwake(p, a, a', None, pool.tasks, pool.joins, k);
    SourcesKept(p, a', None, pool.tasks, pool.joins, k, NewTimer(k, t));
  }

  lemma RefitProgress<L>(p: Prog<L>, a: Agenda, pool: Pool<L>, pool': Pool<L>, k: Wakers, crashed: set<NodeId>)
    requires Progress(p, a, None, pool, k, crashed)
    requires pool'.tasks == pool.tasks && pool'.joins == pool.joins && pool'.nextTask == pool.nextTask
    ensures Progress(p, a, None, pool', k, crashed)
  {
  }

  lemma NewTimerOk<L>(p: Prog<L>, w: World<L>, r: Running<L>, node: NodeId, at: nat)
    requires Inv(p, w) && Runs(w.pool, r, node) && WantsTimer(p, r.fut)
    requires r.fut.timer.Some? ==> r.fut.timer.value !in w.wakers.timers
    requires w.agenda.now <= at <= U64_MAX
    ensures var id := w.wakers.nextTimer;
            var armed := w.(wakers := NewTimer(w.wakers, r.task), agenda := Push(w.agenda, at, TimerFire(id)));
            Inv(p, Refit(armed, r, r.fut.(timer := Some(id))))
  {
    var pool' := Refit(w, r, r.fut.(timer := Some(w.wakers.nextTimer))).pool;
    NewTimerStructure(p, w, r, node);
    NewTimerProgress(p, w.agenda, w.pool, w.wakers, w.hosts.crashed, r.task, at);
    RefitProgress(p, Push(w.agenda, at, TimerFire(w.wakers.nextTimer)), w.pool, pool', NewTimer(w.wakers, r.task),
                  w.hosts.crashed);
  }

  // The running world with a live timer for the deadline in its future.
  function Armoured<L>(w: World<L>, r: Running<L>, node: NodeId, deadline: nat): World<L> {
    var (armed, timer) := ArmTimer(w, r, node, deadline);
    Refit(armed, r, r.fut.(timer := timer))
  }

  lemma ArmouredIs<L>(w: World<L>, r: Running<L>, node: NodeId, deadline: nat)
    requires w.pool.current == Some(r)
    ensures Armoured(w, r, node, deadline) ==
            if r.fut.timer.Some? && r.fut.timer.value in w.wakers.timers then w
            else Refit(w.(wakers := NewTimer(w.wakers, r.task),
                          agenda := Push(w.agenda, GlobalDeadline(w, node, deadline), TimerFire(w.wakers.nextTimer))),
                       r, r.fut.(timer := Some(w.wakers.nextTimer)))
  {
  }

  lemma ArmTimerOk<L>(p: Prog<L>, w: World<L>, r: Running<L>, node: NodeId, deadline: nat)
    requires Inv(p, w) && Runs(w.pool, r, node) && WantsTimer(p, r.fut)
    ensures Inv(p, Armoured(w, r, node, deadline))
  {
    ArmouredIs(w, r, node, deadline);
    if !(r.fut.timer.Some? && r.fut.timer.value in w.wakers.timers) {
      NewTimerOk(p, w, r, node, GlobalDeadline(w, node, deadline));
    }
  }

  lemma ArmedByArmTimer<L>(p: Prog<L>, w: World<L>, r: Running<L>, node: NodeId, deadline: nat)
    requires Inv(p, w) && Runs(w.pool, r, node)
    ensures var (armed, timer) := ArmTimer(w, r, node, deadline);
            && Armed(armed.wakers.timers, r.task, r.fut.(timer := timer))
            && armed.wakers.waiters == w.wakers.waiters && armed.pool == w.pool && armed.hosts == w.hosts
  {
    assert FutOf(w.pool, r.task) == Some(r.fut);
  }
}
