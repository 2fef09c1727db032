// What each step of a run does, read off the tables of the world before it.
module SimSteps {
  import opened Base
  import opened Nemesis
  import opened Planners
  import opened Tape
  import opened Queue
  import opened Sim
  import opened SimMessages

  // ----- the loop -----

  // With no task running, a step takes the first event; it ends the run exactly
  // when the event lies past the horizon or the event budget is spent, and then
  // does nothing else.
  lemma RunEndsIff<L>(p: Prog<L>, w: World<L>, tape: EntropyTape)
    requires !Halted(w) && w.pool.current.None?
    ensures var (w', tape') := Step(p, w, tape);
            var late := w.agenda.queue[0].time > p.horizon || w.log.dispatched >= p.maxEvents;
            && (w'.aborted <==> late)
            && (late ==> w' == w.(agenda := Pop(w.agenda), aborted := true) && tape' == tape)
  {
  }

  // A run that has halted stays as it is.
  lemma {:induction false} HaltedStays<L>(p: Prog<L>, w: World<L>, tape: EntropyTape, n: nat)
    requires Halted(w)
    ensures Steps(p, w, tape, n) == (w, tape)
  {
    if n > 0 { HaltedStays(p, w, tape, n - 1); }
  }

  // ----- polls and timers -----

  // A due poll runs its task, where it left off, exactly when the task is
  // suspended on a live node; a stale poll leaves no trace.
  lemma PollRunsIff<L>(p: Prog<L>, w: World<L>, tape: EntropyTape, t: TaskId)
    requires AboutTo(p, w) && w.agenda.queue[0].kind == PollTask(t)
    ensures var (w', tape') := Step(p, w, tape);
            var ready := t in w.pool.tasks && w.pool.tasks[t].fut.Some? && w.pool.tasks[t].node !in w.hosts.crashed;
            && (w'.pool.current == if ready then Some(Running(t, w.pool.tasks[t].fut.value)) else None)
            && w'.log == (if ready then Counting(w.log, w.agenda.queue[0]) else w.log)
            && w'.agenda.queue == w.agenda.queue[1..] && tape' == tape
            && w'.wakers == w.wakers && w'.hosts == w.hosts && w'.devices == w.devices
            && w'.pool.tasks.Keys == w.pool.tasks.Keys
            && (forall u :: u in w.pool.tasks && u != t ==> w'.pool.tasks[u] == w.pool.tasks[u])
  {
  }

  function Counting(log: Log, e: Event): Log {
    log.(dispatched := log.dispatched + 1, trace := log.trace + [Dispatched(e)])
  }

  // A timer that is still armed wakes the task it belongs to, once; one that was
  // cancelled leaves no trace.
  lemma TimerFiresIff<L>(p: Prog<L>, w: World<L>, tape: EntropyTape, id: TimerId)
    requires AboutTo(p, w) && w.agenda.queue[0].kind == TimerFire(id)
    ensures var (w', tape') := Step(p, w, tape);
            && (id in w.wakers.timers ==>
                  && w'.log == Counting(w.log, w.agenda.queue[0])
                  && PollsQueued(Pop(w.agenda), [w.wakers.timers[id]], w'.agenda)
                  && w'.wakers == w.wakers.(timers := w.wakers.timers - {id}))
            && (id !in w.wakers.timers ==> w' == w.(agenda := Pop(w.agenda)))
            && w'.pool == w.pool && w'.hosts == w.hosts && w'.devices == w.devices && tape' == tape
  {
    if id in w.wakers.timers {
      OnePoll(Pop(w.agenda), w.wakers.timers[id]);
    }
  }

  lemma OnePoll(a: Agenda, t: TaskId)
    ensures PollsQueued(a, [t], Push(a, a.now, PollTask(t)))
  {
    PollsAreQueued(a, [t]);
    assert PushPolls(a, [t]) == PushPolls(Push(a, a.now, PollTask(t)), []);
  }

  // ----- starting and ending tasks -----

  // A new task: a free id, nothing run yet, its first poll queued now.
  ghost predicate Starts<L>(pool: Pool<L>, a: Agenda, node: NodeId, local: L, pool': Pool<L>, a': Agenda) {
    && pool'.tasks == pool.tasks[pool.nextTask := Slot(node, Some(Fut(local, false, None, None)))]
    && pool'.nextTask == pool.nextTask + 1
    && PollsQueued(a, [pool.nextTask], a')
  }

  // A spawned task starts on the node of its parent, which goes on with its id
  // and may wait for it.
  lemma SpawnStarts<L>(p: Prog<L>, w: World<L>, tape: EntropyTape, t: TaskId, node: NodeId, child: L,
                       resume: Reply -> L)
    requires Runs(p, w, t, node, Do(Spawn(child), resume))
    ensures var (w', tape') := Step(p, w, tape);
            var id := w.pool.nextTask;
            && Starts(w.pool, w.agenda, node, child, w'.pool, w'.agenda)
            && w'.pool.joins == w.pool.joins[id := JoinSlot(node, false, 0, [])]
            && GoesOn(w', t, resume(Number(id)))
            && w' == w.(pool := w'.pool, agenda := w'.agenda) && tape' == tape
  {
    OnePoll(w.agenda, w.pool.nextTask);
  }

  // A task that finishes is gone; its output is kept for whoever joins it, and
  // those that already wait are polled.
  lemma FinishLeaves<L>(p: Prog<L>, w: World<L>, tape: EntropyTape, t: TaskId, node: NodeId, output: int)
    requires Runs(p, w, t, node, Finish(output))
    ensures var (w', tape') := Step(p, w, tape);
            && w'.pool.current == None && w'.pool.tasks == w.pool.tasks - {t}
            && (t in w.pool.joins ==>
                  && w'.pool.joins == w.pool.joins[t := JoinSlot(w.pool.joins[t].node, true, output, [])]
                  && PollsQueued(w.agenda, w.pool.joins[t].joiners, w'.agenda))
            && (t !in w.pool.joins ==> w'.pool.joins == w.pool.joins && w'.agenda == w.agenda)
            && w' == w.(pool := w'.pool, agenda := w'.agenda) && tape' == tape
  {
    if t in w.pool.joins { PollsAreQueued(w.agenda, w.pool.joins[t].joiners); }
  }

  // Joining a finished task gives its output at once; joining a running one waits.
  lemma JoinIs<L>(p: Prog<L>, w: World<L>, tape: EntropyTape, t: TaskId, node: NodeId, handle: TaskId,
                  resume: Reply -> L)
    requires Runs(p, w, t, node, Pause(Join(handle), resume))
    requires handle in w.pool.joins && w.pool.joins[handle].node == node
    ensures var w', slot := Step(p, w, tape).0, w.pool.joins[handle];
            && (slot.done ==> GoesOn(w', t, resume(Joined(slot.output))) && w'.pool.joins == w.pool.joins)
            && (!slot.done ==>
                  && w'.pool.current == None && t in w'.pool.joins[handle].joiners
                  && w'.pool.tasks == w.pool.tasks[t := Slot(node, Some(w.pool.current.value.fut))]
                  && (forall u :: u in slot.joiners ==> u in w'.pool.joins[handle].joiners))
            && w' == w.(pool := w'.pool)
  {
  }

  // ----- a joined task's output -----

  // The task finishes with the output in this step.
  ghost predicate Finishes<L>(p: Prog<L>, w: World<L>, t: TaskId, output: int) {
    && !Halted(w) && w.pool.current.Some? && w.pool.current.value.task == t && t in w.pool.tasks
    && p.next(w.pool.current.value.fut.local) == Finish(output)
  }

  ghost predicate FinishedBefore<L>(p: Prog<L>, w: World<L>, tape: EntropyTape, n: nat, t: TaskId, output: int) {
    n > 0 && (Finishes(p, Steps(p, w, tape, n - 1).0, t, output) || FinishedBefore(p, w, tape, n - 1, t, output))
  }

  ghost predicate SlotsAlike(joins: map<TaskId, JoinSlot>, joins': map<TaskId, JoinSlot>) {
    forall t :: t in joins' && joins'[t].done ==> t in joins && joins[t].done && joins[t].output == joins'[t].output
  }

  lemma JoinSlots<L>(w: World<L>, r: Running<L>, node: NodeId, handle: TaskId, resume: Reply -> L)
    ensures SlotsAlike(w.pool.joins, PollJoin(w, r, node, handle, resume).pool.joins)
  {
  }

  lemma AwaitSlots<L>(w: World<L>, r: Running<L>, node: NodeId, what: Await, resume: Reply -> L)
    ensures SlotsAlike(w.pool.joins, PollAwait(w, r, node, what, resume).pool.joins)
  {
    match what
    case Recv => assert PollRecv(w, r, node, resume).pool.joins == w.pool.joins;
    case SleepUntil(deadline) => assert PollSleep(w, r, node, deadline, resume).pool.joins == w.pool.joins;
    case RecvTimeout(duration) => assert PollRecvTimeout(w, r, node, duration, resume).pool.joins == w.pool.joins;
    case Join(handle) => JoinSlots(w, r, node, handle, resume);
  }

  // The output the slot holds is not new, or the running task finished with it.
  ghost predicate FromTask<L>(p: Prog<L>, pool: Pool<L>, r: Running<L>, joins': map<TaskId, JoinSlot>, t: TaskId) {
    t in joins' && joins'[t].done ==>
      || (t in pool.joins && pool.joins[t].done && pool.joins[t].output == joins'[t].output)
      || (t == r.task && p.next(r.fut.local) == Finish(joins'[t].output))
  }

  lemma FinishSlots<L>(p: Prog<L>, w: World<L>, r: Running<L>, output: int, t: TaskId)
    requires p.next(r.fut.local) == Finish(output)
    ensures FromTask(p, w.pool, r, FinishTask(w, r, output).pool.joins, t)
  {
  }

  lemma SpawnSlots<L>(p: Prog<L>, w: World<L>, r: Running<L>, node: NodeId, child: L, resume: Reply -> L, t: TaskId)
    ensures FromTask(p, w.pool, r, SpawnTask(w, r, node, child, resume).pool.joins, t)
  {
  }

  lemma CmdSlots<L>(p: Prog<L>, w: World<L>, r: Running<L>, node: NodeId, tape: EntropyTape, t: TaskId)
    ensures FromTask(p, w.pool, r, RunCmd(p, w, r, node, tape).0.pool.joins, t)
  {
    match p.next(r.fut.local)
    case Finish(output) => FinishSlots(p, w, r, output, t);
    case Pause(what, resume) => AwaitSlots(w, r, node, what, resume);
    case Do(op, resume) =>
      if op.Spawn? {
        SpawnSlots(p, w, r, node, op.child, resume, t);
      } else if op.Send? {
        assert SendMessage(w, r, node, op.target, op.msg, resume, tape).0.pool.joins == w.pool.joins;
      } else {
        assert LocalCmd(p, w, r, node, op, resume).pool.joins == w.pool.joins;
      }
  }

  lemma CrashSlots<L>(w: World<L>, node: NodeId)
    ensures SlotsAlike(w.pool.joins, CrashNode(w, node).pool.joins)
  {
  }

  lemma FaultSlots<L>(w: World<L>, e: Event, action: NemesisAction)
    ensures SlotsAlike(w.pool.joins, DispatchFault(w, e, action).pool.joins)
  {
    var counted := Counted(w, Dispatched(e));
    if action.Crash? {
      CrashSlots(counted.(log := counted.log.(nemesisTrace := counted.log.nemesisTrace + [action])), action.node);
    } else {
      assert DispatchFault(w, e, action).pool.joins == w.pool.joins;
    }
  }

  lemma DispatchSlots<L>(w: World<L>, e: Event, tape: EntropyTape)
    ensures SlotsAlike(w.pool.joins, Dispatch(w, e, tape).0.pool.joins)
  {
    match e.kind
    case Fault(action) => FaultSlots(w, e, action);
    case PollTask(t) => assert StartPoll(w, e, t).pool.joins == w.pool.joins;
    case TimerFire(id) => assert FireTimer(w, e, id).pool == w.pool;
    case DeliverMsg(source, target, msg) => assert DeliverOrDrop(w, e, source, target, msg, tape).0.pool == w.pool;
  }

  lemma StepSlots<L>(p: Prog<L>, w: World<L>, tape: EntropyTape, t: TaskId)
    ensures var joins' := Step(p, w, tape).0.pool.joins;
            t in joins' && joins'[t].done ==>
              || (t in w.pool.joins && w.pool.joins[t].done && w.pool.joins[t].output == joins'[t].output)
              || Finishes(p, w, t, joins'[t].output)
  {
    if !Halted(w) {
      if w.pool.current.Some? {
        var r := w.pool.current.value;
        if r.task in w.pool.tasks { CmdSlots(p, w, r, w.pool.tasks[r.task].node, tape, t); }
      } else {
        DispatchSlots(w.(agenda := Pop(w.agenda)), w.agenda.queue[0], tape);
      }
    }
  }

  lemma SlotFilled<L>(p: Prog<L>, w: World<L>, tape: EntropyTape, n: nat, t: TaskId, output: int)
    requires n > 0
    requires var joins := Steps(p, w, tape, n).0.pool.joins;
             t in joins && joins[t].done && joins[t].output == output
    requires var joins := Steps(p, w, tape, n - 1).0.pool.joins;
             t in joins && joins[t].done && joins[t].output == output ==> FinishedBefore(p, w, tape, n - 1, t, output)
    ensures FinishedBefore(p, w, tape, n, t, output)
  {
    var (w1, tape1) := Steps(p, w, tape, n - 1);
    StepSlots(p, w1, tape1, t);
  }

  // The output a join finds is the one its task finished with.
  lemma {:induction false} JoinedOutput<L>(p: Prog<L>, w: World<L>, tape: EntropyTape, n: nat, t: TaskId, output: int)
    requires t in w.pool.joins ==> !w.pool.joins[t].done
    requires var joins := Steps(p, w, tape, n).0.pool.joins;
             t in joins && joins[t].done && joins[t].output == output
    ensures FinishedBefore(p, w, tape, n, t, output)
  {
    if n > 0 {
      var joins := Steps(p, w, tape, n - 1).0.pool.joins;
      if t in joins && joins[t].done && joins[t].output == output {
        JoinedOutput(p, w, tape, n - 1, t, output);
      }
      SlotFilled(p, w, tape, n, t, output);
    }
  }

  // A sleep whose deadline the node's clock shows is over at once; its timer, if
  // it set one, is cancelled.
  lemma SleepIsOver<L>(p: Prog<L>, w: World<L>, tape: EntropyTape, t: TaskId, node: NodeId, deadline: nat,
                       resume: Reply -> L)
    requires Runs(p, w, t, node, Pause(SleepUntil(deadline), resume)) && LocalNow(w, node) >= deadline
    ensures var w', timer := Step(p, w, tape).0, w.pool.current.value.fut.timer;
            && GoesOn(w', t, resume(Nothing))
            && w'.wakers.timers == w.wakers.timers - (if timer.Some? then {timer.value} else {})
            && w'.agenda == w.agenda && w'.wakers.inboxes == w.wakers.inboxes && w'.wakers.waiters == w.wakers.waiters
  {
  }

  // ----- a task's own devices -----

  // A clock reading is the global time plus the skew, kept within the range of
  // times, unless the node has already read a later one.
  lemma NowIs<L>(p: Prog<L>, w: World<L>, tape: EntropyTape, t: TaskId, node: NodeId, resume: Reply -> L)
    requires Runs(p, w, t, node, Do(Now, resume))
    ensures var w' := Step(p, w, tape).0;
            var skew := if node in w.devices.faults.skew then w.devices.faults.skew[node] else 0;
            var last := if node in w.devices.lastLocal then w.devices.lastLocal[node] else 0;
            var shown: nat := Max(last, ClampU64(w.agenda.now + skew));
            && GoesOn(w', t, resume(Number(shown)))
            && w' == w.(devices := w.devices.(lastLocal := w.devices.lastLocal[node := shown]),
                        pool := w.pool.(current := w'.pool.current))
  {
  }

  // The random values of a node are its own stream, each used once, in order.
  lemma RngIs<L>(p: Prog<L>, w: World<L>, tape: EntropyTape, t: TaskId, node: NodeId, resume: Reply -> L)
    requires Runs(p, w, t, node, Do(Rng, resume))
    ensures var (w', tape') := Step(p, w, tape);
            var k := if node in w.devices.rngCounter then w.devices.rngCounter[node] else 0;
            && GoesOn(w', t, resume(Number(p.rng(node, k)))) && tape' == tape
            && w' == w.(devices := w.devices.(rngCounter := w.devices.rngCounter[node := k + 1]),
                        pool := w.pool.(current := w'.pool.current))
  {
  }

  lemma RecordIs<L>(p: Prog<L>, w: World<L>, tape: EntropyTape, t: TaskId, node: NodeId, line: string,
                    resume: Reply -> L)
    requires Runs(p, w, t, node, Do(Record(line), resume))
    ensures var w' := Step(p, w, tape).0;
            && GoesOn(w', t, resume(Nothing))
            && w' == w.(log := w.log.(history := w.log.history + [Line(line)]),
                        pool := w.pool.(current := w'.pool.current))
  {
  }

  // Writes and flushes act on the node's own device, under the storage faults set
  // for that node; every other device stays as it was.
  lemma StorageIs<L>(p: Prog<L>, w: World<L>, tape: EntropyTape, t: TaskId, node: NodeId, op: Op<L>,
                     resume: Reply -> L)
    requires Runs(p, w, t, node, Do(op, resume)) && (op.Write? || op.Flush?)
    ensures var w' := Step(p, w, tape).0;
            var before := if node in w.devices.storage then w.devices.storage[node] else PS.Store([], [], []);
            var after := if op.Write? then PS.WriteAt(before, op.offset, op.data, node in w.devices.faults.torn)
                         else PS.Flush(before, node in w.devices.faults.reorder);
            && GoesOn(w', t, resume(Nothing))
            && w' == w.(devices := w.devices.(storage := w.devices.storage[node := after]),
                        pool := w.pool.(current := w'.pool.current))
  {
  }

  // Reads and lengths tell of what is written, flushed or not, and change nothing;
  // a read past the device's end is the one that panics.
  lemma StorageReads<L>(p: Prog<L>, w: World<L>, tape: EntropyTape, t: TaskId, node: NodeId, op: Op<L>,
                        resume: Reply -> L)
    requires Runs(p, w, t, node, Do(op, resume)) && (op.Read? || op.Length?)
    ensures var w' := Step(p, w, tape).0;
            var pending := if node in w.devices.storage then w.devices.storage[node].pending else [];
            && (op.Length? ==> GoesOn(w', t, resume(Number(|pending|))))
            && (op.Read? && node !in w.devices.storage ==> GoesOn(w', t, resume(Bytes([]))))
            && (op.Read? && node in w.devices.storage && op.start <= |pending| ==>
                  GoesOn(w', t, resume(Bytes(Take(op.len, pending[op.start..])))))
            && (w'.panicked <==> op.Read? && node in w.devices.storage && op.start > |pending|)
            && w' == w.(pool := w.pool.(current := w'.pool.current), panicked := w'.panicked)
  {
    if op.Read? && node in w.devices.storage && op.start <= |w.devices.storage[node].pending| {
      SliceIsTake(w.devices.storage[node].pending, op.start, op.len);
    }
  }

  lemma SliceIsTake(bytes: PS.Bytes, start: nat, len: nat)
    requires start <= |bytes|
    ensures bytes[start..start + Min(len, |bytes| - start)] == Take(len, bytes[start..])
  {
  }

  // ----- crash and restart -----

  // A restart brings up exactly a registered node that is down and has a program;
  // it starts the program afresh and brings nothing else back.
  lemma RestartIff<L>(p: Prog<L>, w: World<L>, tape: EntropyTape, node: NodeId)
    requires AboutTo(p, w) && w.agenda.queue[0].kind == Fault(Restart(node))
    ensures var (w', tape') := Step(p, w, tape);
            var a := Pop(w.agenda);
            var outcome := if node !in w.hosts.nodes then NodeMissing
                           else if node !in w.hosts.crashed then NodeNotCrashed
                           else if node !in w.hosts.factories then MissingFactory else Restarted;
            && w'.log == Counting(w.log, w.agenda.queue[0]).(
                           nemesisTrace := w.log.nemesisTrace + [Restart(node)],
                           history := w.log.history + [Restarting(node, outcome)])
            && (outcome == Restarted ==>
                  && w'.hosts == w.hosts.(crashed := w.hosts.crashed - {node})
                  && Starts(w.pool, a, node, w.hosts.factories[node], w'.pool, w'.agenda))
            && (outcome != Restarted ==> w'.hosts == w.hosts && w'.pool == w.pool && w'.agenda == a)
            && w'.pool.joins == w.pool.joins && w'.pool.current == None
            && w'.wakers == w.wakers && w'.devices == w.devices && tape' == tape && !w'.aborted && !w'.panicked
  {
    OnePoll(Pop(w.agenda), w.pool.nextTask);
  }

  // A crash takes from the tables what belongs to the node, and only that.
  lemma CrashTakesOwn<L>(p: Prog<L>, w: World<L>, tape: EntropyTape, node: NodeId)
    requires AboutTo(p, w) && w.agenda.queue[0].kind == Fault(Crash(node)) && node in w.hosts.nodes
    ensures var w' := Step(p, w, tape).0;
            && w'.hosts == w.hosts.(crashed := w.hosts.crashed + {node})
            && (forall t :: t in w'.pool.tasks <==> t in w.pool.tasks && w.pool.tasks[t].node != node)
            && (forall t :: t in w'.pool.tasks ==> w'.pool.tasks[t] == w.pool.tasks[t])
            && (forall t :: t in w'.pool.joins <==> t in w.pool.joins && w.pool.joins[t].node != node)
            && (forall t :: t in w'.pool.joins ==> w'.pool.joins[t] == w.pool.joins[t])
            && w'.pool.nextTask == w.pool.nextTask && w'.wakers.nextTimer == w.wakers.nextTimer
            && (forall id :: id in w'.wakers.timers <==>
                  id in w.wakers.timers && !(w.wakers.timers[id] in w.pool.tasks
                                             && w.pool.tasks[w.wakers.timers[id]].node == node))
            && (forall n :: Inbox(w'.wakers, n) == if n == node then [] else Inbox(w.wakers, n))
            && (forall n, t :: t in Waiters(w'.wakers, n) <==>
                  n != node && t in Waiters(w.wakers, n) && !(t in w.pool.tasks && w.pool.tasks[t].node == node))
            && w'.log == Counting(w.log, w.agenda.queue[0]).(nemesisTrace := w.log.nemesisTrace + [Crash(node)])
  {
    var removed := TasksOn(w.pool, node);
    forall n | n in w.wakers.waiters ensures forall t :: t in RemoveAll(w.wakers.waiters[n], removed) <==>
        t in w.wakers.waiters[n] && t !in removed
    {
      RemoveAllMembers(w.wakers.waiters[n], removed);
    }
  }

  lemma {:induction false} RemoveAllMembers(list: seq<TaskId>, gone: set<TaskId>)
    ensures forall t :: t in RemoveAll(list, gone) <==> t in list && t !in gone
  {
    if list != [] { RemoveAllMembers(list[1..], gone); }
  }

  // Crashing a node nobody registered changes nothing.
  lemma CrashOfNobody<L>(p: Prog<L>, w: World<L>, tape: EntropyTape, node: NodeId)
    requires AboutTo(p, w) && w.agenda.queue[0].kind == Fault(Crash(node)) && node !in w.hosts.nodes
    ensures var w' := Step(p, w, tape).0;
            w' == w.(agenda := Pop(w.agenda),
                     log := Counting(w.log, w.agenda.queue[0]).(nemesisTrace := w.log.nemesisTrace + [Crash(node)]))
  {
  }

  // ----- the other faults -----

  ghost predicate Linked<L>(w: World<L>, a: NodeId, b: NodeId) {
    && a in w.devices.faults.matrix.nodes && b in w.devices.faults.matrix.nodes
    && (a, b) !in w.devices.faults.matrix.blocked
  }

  // A single link goes up or down in one direction and takes both ends in.
  lemma LinkIs<L>(p: Prog<L>, w: World<L>, tape: EntropyTape, source: NodeId, target: NodeId, up: bool, a: NodeId,
                  b: NodeId)
    requires AboutTo(p, w) && w.agenda.queue[0].kind == Fault(SetLink(source, target, up))
    ensures var w' := Step(p, w, tape).0;
            Linked(w', a, b) <==>
              if (a, b) == (source, target) then up
              else && a in w.devices.faults.matrix.nodes + {source, target}
                   && b in w.devices.faults.matrix.nodes + {source, target}
                   && (a, b) !in w.devices.faults.matrix.blocked
  {
  }

  // An asymmetric partition cuts one direction and leaves every other link.
  lemma AsymmetricIs<L>(p: Prog<L>, w: World<L>, tape: EntropyTape, source: NodeId, target: NodeId, a: NodeId,
                        b: NodeId)
    requires AboutTo(p, w) && w.agenda.queue[0].kind == Fault(AsymmetricPartition(source, target))
    ensures Linked(Step(p, w, tape).0, a, b) <==> Linked(w, a, b) && (a, b) != (source, target)
  {
  }

  // A partition links exactly the known nodes that no group tells apart: the last
  // group that names a node is its group, and nodes no group names stay together.
  lemma PartitionIs<L>(p: Prog<L>, w: World<L>, tape: EntropyTape, groups: seq<seq<NodeId>>, a: NodeId, b: NodeId)
    requires AboutTo(p, w) && w.agenda.queue[0].kind == Fault(Partition(groups))
    requires Known(w, groups, a) && Known(w, groups, b)
    ensures Linked(Step(p, w, tape).0, a, b) <==> Together(groups, a, b)
  {
    MemberIff(groups, a);
    MemberIff(groups, b);
    TogetherIs(groups, a, b);
  }

  ghost predicate Known<L>(w: World<L>, groups: seq<seq<NodeId>>, a: NodeId) {
    a in w.devices.faults.matrix.nodes || exists g :: 0 <= g < |groups| && a in groups[g]
  }

  // No group names either node, or the last group to name one names both.
  ghost predicate Together(groups: seq<seq<NodeId>>, a: NodeId, b: NodeId) {
    || (forall g :: 0 <= g < |groups| ==> a !in groups[g] && b !in groups[g])
    || exists g :: 0 <= g < |groups| && a in groups[g] && b in groups[g]
                   && forall h :: g < h < |groups| ==> a !in groups[h] && b !in groups[h]
  }

  lemma {:induction false} GroupIs(groups: seq<seq<NodeId>>, n: NodeId)
    ensures match GroupOf(groups, n)
            case None => forall g :: 0 <= g < |groups| ==> n !in groups[g]
            case Some(g) => g < |groups| && n in groups[g] && forall h :: g < h < |groups| ==> n !in groups[h]
  {
    if groups != [] && n !in groups[|groups| - 1] {
      var front := groups[..|groups| - 1];
      GroupIs(front, n);
      forall h | 0 <= h < |front| ensures front[h] == groups[h] {}
    }
  }

  lemma TogetherIs(groups: seq<seq<NodeId>>, a: NodeId, b: NodeId)
    ensures Together(groups, a, b) <==> GroupOf(groups, a) == GroupOf(groups, b)
  {
    GroupIs(groups, a);
    GroupIs(groups, b);
  }

  // Healing links every two known nodes.
  lemma HealIs<L>(p: Prog<L>, w: World<L>, tape: EntropyTape, a: NodeId, b: NodeId)
    requires AboutTo(p, w) && w.agenda.queue[0].kind == Fault(HealAll)
    ensures var all := w.devices.faults.matrix.nodes;
            Linked(Step(p, w, tape).0, a, b) <==> a in all && b in all
  {
  }

  // The action only changes a setting or a device.
  predicate IsSetting(action: NemesisAction) {
    action.ClockSkew? || action.TornWrite? || action.LostOnCrash? || action.PreFsyncReorder? || action.BitRot?
  }

  // Clock skew and storage faults set what they name, for their node, and nothing
  // else; bit rot spoils the device of a node that has one.
  lemma SettingIs<L>(p: Prog<L>, w: World<L>, tape: EntropyTape, action: NemesisAction)
    requires AboutTo(p, w) && w.agenda.queue[0].kind == Fault(action) && IsSetting(action)
    ensures var (w', tape') := Step(p, w, tape);
            var f, node := w.devices.faults, action.node;
            && w'.devices.faults ==
               (match action
                case ClockSkew(_, offset) => f.(skew := f.skew[node := offset])
                case TornWrite(_) => f.(torn := f.torn + {node})
                case LostOnCrash(_) => f.(lost := f.lost + {node})
                case PreFsyncReorder(_) => f.(reorder := f.reorder + {node})
                case _ => f)
            && w'.devices.storage == (if action.BitRot? && node in w.devices.storage
                                      then w.devices.storage[node := PS.Recover(w.devices.storage[node], true)]
                                      else w.devices.storage)
            && w' == w.(agenda := Pop(w.agenda), devices := w'.devices,
                        log := Counting(w.log, w.agenda.queue[0]).(nemesisTrace := w.log.nemesisTrace + [action]))
            && tape' == tape
  {
  }

  // ----- setting up -----

  // A new node is registered with its program, an inbox and a device, and starts.
  lemma AddNodeIs<L>(w: World<L>, node: NodeId, entry: L, tape: EntropyTape)
    ensures var (w', tape') := Configure(w, AddNode(node, entry), tape);
            && (node in w.hosts.nodes ==> w' == w.(panicked := true))
            && (node !in w.hosts.nodes ==>
                  && w'.hosts == Hosts(w.hosts.nodes + {node}, w.hosts.factories[node := entry], w.hosts.crashed)
                  && Starts(w.pool, w.agenda, node, entry, w'.pool, w'.agenda)
                  && w'.pool.joins == w.pool.joins && w'.wakers.waiters == w.wakers.waiters
                  && node in w'.wakers.inboxes && node in w'.devices.storage
                  && (forall n :: Inbox(w'.wakers, n) == Inbox(w.wakers, n))
                  && (forall a: NodeId, b: NodeId :: Linked(w', a, b) <==>
                        && a in w.devices.faults.matrix.nodes + {node} && b in w.devices.faults.matrix.nodes + {node}
                        && (a, b) !in w.devices.faults.matrix.blocked)
                  && w'.log == w.log)
            && tape' == tape
  {
    OnePoll(w.agenda, w.pool.nextTask);
  }

  // Percentages are at most a hundred.
  lemma PercentIs<L>(w: World<L>, percent: nat, tape: EntropyTape)
    ensures var f := w.devices.faults;
            var most := if percent > 100 then 100 else percent;
            && Configure(w, SetDropPercent(percent), tape).0 ==
               w.(devices := w.devices.(faults := f.(dropPercent := most)))
            && Configure(w, SetDuplicatePercent(percent), tape).0 ==
               w.(devices := w.devices.(faults := f.(duplicatePercent := most)))
            && Configure(w, SetExtraDelay(percent), tape).0 ==
               w.(devices := w.devices.(faults := f.(extraDelayMs := percent)))
  {
  }

  // A scheduled fault is queued for its time.
  lemma ScheduledIs<L>(w: World<L>, at: nat, action: NemesisAction, tape: EntropyTape)
    ensures var (w', tape') := Configure(w, ScheduleFault(at, action), tape);
            && (forall e :: e in w'.agenda.queue <==>
                  e in w.agenda.queue || e == Event(at, w.agenda.seqno, Fault(action)))
            && w' == w.(agenda := w.agenda.(queue := w'.agenda.queue, seqno := w.agenda.seqno + 1)) && tape' == tape
  {
    InsertMembers(w.agenda.queue, Event(at, w.agenda.seqno, Fault(action)));
  }

  // A plan is shown the time, the nodes, those that are down and the links; each
  // action it gives is queued for its time, in the order given.
  lemma PlanIs<L>(w: World<L>, plan: Planner, max: nat, tape: EntropyTape)
    ensures var (w', tape') := Configure(w, PlanFaults(plan, max), tape);
            var view := WorldView(w.agenda.now, w.hosts.nodes, w.hosts.crashed, w.devices.faults.matrix);
            var (drawn, _, out) := Consult(plan, [], view, tape, max);
            && tape' == drawn && PlanQueued(w.agenda, out, w'.agenda) && w' == w.(agenda := w'.agenda)
  {
    FaultsAreQueued(w.agenda, Consult(plan, [], ViewOf(w), tape, max).2);
  }

  ghost predicate PlanQueued(a: Agenda, out: seq<Timed>, a': Agenda) {
    && a'.now == a.now && a'.popped == a.popped && a'.seqno == a.seqno + |out|
    && forall e :: e in a'.queue <==>
         e in a.queue || exists k :: 0 <= k < |out| && e == Event(out[k].time, a.seqno + k, Fault(out[k].action))
  }

  lemma {:induction false} FaultsAreQueued(a: Agenda, out: seq<Timed>)
    ensures PlanQueued(a, out, PushFaults(a, out))
    decreases out
  {
    if out != [] {
      var first := Event(out[0].time, a.seqno, Fault(out[0].action));
      var a1 := Push(a, out[0].time, Fault(out[0].action));
      InsertMembers(a.queue, first);
      FaultsAreQueued(a1, out[1..]);
      forall e ensures e in PushFaults(a, out).queue <==>
          e in a.queue || exists k :: 0 <= k < |out| && e == Event(out[k].time, a.seqno + k, Fault(out[k].action))
      {
        FirstOrLater(a.seqno, out, e);
      }
    }
  }

  lemma FirstOrLater(seqno: nat, out: seq<Timed>, e: Event)
    requires out != []
    ensures (exists k :: 0 <= k < |out| && e == Event(out[k].time, seqno + k, Fault(out[k].action)))
       <==> || e == Event(out[0].time, seqno, Fault(out[0].action))
            || exists k :: && 0 <= k < |out| - 1
                           && e == Event(out[1..][k].time, seqno + 1 + k, Fault(out[1..][k].action))
  {
    if k :| 0 <= k < |out| && e == Event(out[k].time, seqno + k, Fault(out[k].action)) {
      if k > 0 { assert e == Event(out[1..][k - 1].time, seqno + 1 + (k - 1), Fault(out[1..][k - 1].action)); }
    }
    if k :| 0 <= k < |out| - 1 && e == Event(out[1..][k].time, seqno + 1 + k, Fault(out[1..][k].action)) {
      assert e == Event(out[k + 1].time, seqno + (k + 1), Fault(out[k + 1].action));
    }
    if e == Event(out[0].time, seqno, Fault(out[0].action)) {
      assert e == Event(out[0].time, seqno + 0, Fault(out[0].action));
    }
  }

  // A fault applied at once does what it does when it is dispatched, but is neither
  // counted nor traced as an event; a restart then is not a nemesis action either.
  lemma FaultNowIs<L>(w: World<L>, action: NemesisAction, e: Event, tape: EntropyTape)
    requires e.kind == Fault(action)
    ensures var (now, later) := (Configure(w, FaultNow(action), tape).0, Dispatch(w, e, tape).0);
            && now == later.(log := now.log)
            && now.log == w.log.(history := later.log.history,
                                 nemesisTrace := if action.Restart? then w.log.nemesisTrace
                                                 else w.log.nemesisTrace + [action])
  {
  }

  // ----- the report -----

  // A report tells the run's logs and tape as they are, how many tasks are left,
  // whether nothing is queued for them, and whether a limit was reached.
  lemma ReportIs<L>(p: Prog<L>, w: World<L>, tape: EntropyTape)
    ensures var r := ReportOf(p, w, tape);
            && r.trace == w.log.trace && r.nemesisTrace == w.log.nemesisTrace && r.history == w.log.history
            && r.tapeLog == tape.log && r.tapeEvents == tape.events && r.tape == Diagnose(tape)
            && r.ending.dispatched == w.log.dispatched && r.ending.parkedTasks == |w.pool.tasks|
            && (r.ending.deadlocked <==> w.agenda.queue == [] && |w.pool.tasks| > 0)
            && (r.ending.aborted <==> w.log.dispatched >= p.maxEvents || w.agenda.now > p.horizon)
  {
    assert w.pool.tasks == map[] <==> |w.pool.tasks| == 0;
  }
}
