// What becomes of a message: when its arrival reaches an inbox, in which order
// inboxes are read, and that nothing is received that was not sent.
module SimMessages {
  import opened Base
  import opened Nemesis
  import opened Tape
  import opened Queue
  import opened Planners
  import opened Sim
  import opened SimSleep

  // ----- arriving -----

  // The event that is about to be dispatched.
  ghost predicate AboutTo<L>(p: Prog<L>, w: World<L>) {
    && !Halted(w) && w.pool.current.None?
    && w.agenda.queue[0].time <= p.horizon && w.log.dispatched < p.maxEvents
  }

  // Both ends are up, and the link from one to the other is not cut.
  ghost predicate Reachable<L>(w: World<L>, source: NodeId, target: NodeId) {
    && target in w.hosts.nodes && target !in w.hosts.crashed && source !in w.hosts.crashed
    && source in w.devices.faults.matrix.nodes && target in w.devices.faults.matrix.nodes
    && (source, target) !in w.devices.faults.matrix.blocked
  }

  // Chance lets it through: nothing is dropped at random, or the draw is not
  // below the percentage.
  ghost predicate Spared(percent: nat, tape: EntropyTape) {
    percent == 0 || NextValue(tape) % 100 >= Min(percent, 100)
  }

  ghost predicate Arrives<L>(w: World<L>, source: NodeId, target: NodeId, tape: EntropyTape) {
    Reachable(w, source, target) && Spared(w.devices.faults.dropPercent, tape)
  }

  // The polls of the tasks, queued behind one another at the current time.
  ghost predicate PollsQueued(a: Agenda, tasks: seq<TaskId>, a': Agenda) {
    && a'.now == a.now && a'.seqno == a.seqno + |tasks|
    && forall e :: e in a'.queue <==>
         e in a.queue || exists k :: 0 <= k < |tasks| && e == Event(a.now, a.seqno + k, PollTask(tasks[k]))
  }

  lemma {:induction false} PollsAreQueued(a: Agenda, tasks: seq<TaskId>)
    ensures PollsQueued(a, tasks, PushPolls(a, tasks))
    decreases tasks
  {
    if tasks != [] {
      var first := Event(a.now, a.seqno, PollTask(tasks[0]));
      var a1 := Push(a, a.now, PollTask(tasks[0]));
      InsertMembers(a.queue, first);
      PollsAreQueued(a1, tasks[1..]);
      var b := PushPolls(a, tasks);
      forall e ensures e in b.queue <==>
          e in a.queue || exists k :: 0 <= k < |tasks| && e == Event(a.now, a.seqno + k, PollTask(tasks[k]))
      {
        if e in b.queue && e !in a.queue && e != first {
          var k :| 0 <= k < |tasks| - 1 && e == Event(a.now, a1.seqno + k, PollTask(tasks[1..][k]));
          assert e == Event(a.now, a.seqno + (k + 1), PollTask(tasks[k + 1]));
        }
        if e == first {
          assert e == Event(a.now, a.seqno + 0, PollTask(tasks[0]));
        }
        if exists k :: 0 <= k < |tasks| && e == Event(a.now, a.seqno + k, PollTask(tasks[k])) {
          var k :| 0 <= k < |tasks| && e == Event(a.now, a.seqno + k, PollTask(tasks[k]));
          if k > 0 {
            assert e == Event(a.now, a1.seqno + (k - 1), PollTask(tasks[1..][k - 1]));
          }
        }
      }
    }
  }

  // What every dispatched message event does, whatever becomes of the message.
  ghost predicate OneDispatched<L>(w: World<L>, w': World<L>, entry: TraceEntry) {
    && w'.log == w.log.(dispatched := w.log.dispatched + 1, trace := w.log.trace + [entry])
    && w.agenda.queue != [] && w'.agenda.now == w.agenda.queue[0].time
    && w'.pool == w.pool && w'.hosts == w.hosts && w'.devices == w.devices
    && w'.wakers.timers == w.wakers.timers && !w'.aborted && !w'.panicked
  }

  // A message that arrives is appended to its target's inbox, is traced as
  // dispatched, and wakes the target's receivers.
  lemma MessageArrives<L>(p: Prog<L>, w: World<L>, tape: EntropyTape)
    requires AboutTo(p, w) && w.agenda.queue[0].kind.DeliverMsg?
    requires Arrives(w, w.agenda.queue[0].kind.source, w.agenda.queue[0].kind.target, tape)
    ensures var w' := Step(p, w, tape).0;
            var e := w.agenda.queue[0];
            var DeliverMsg(source, target, msg) := e.kind;
            && OneDispatched(w, w', Dispatched(e))
            && Inbox(w'.wakers, target) == Inbox(w.wakers, target) + [(source, msg)]
            && (forall n :: n != target ==> Inbox(w'.wakers, n) == Inbox(w.wakers, n))
            && Waiters(w'.wakers, target) == []
            && (forall n :: n != target ==> Waiters(w'.wakers, n) == Waiters(w.wakers, n))
            && PollsQueued(Pop(w.agenda), Waiters(w.wakers, target), w'.agenda)
  {
    PollsAreQueued(Pop(w.agenda), Waiters(w.wakers, w.agenda.queue[0].kind.target));
  }

  // A message that does not arrive changes no inbox and no receiver, and the
  // trace tells the first obstacle in its way.
  lemma MessageIsDropped<L>(p: Prog<L>, w: World<L>, tape: EntropyTape)
    requires AboutTo(p, w) && w.agenda.queue[0].kind.DeliverMsg?
    requires !Arrives(w, w.agenda.queue[0].kind.source, w.agenda.queue[0].kind.target, tape)
    ensures var w' := Step(p, w, tape).0;
            var e := w.agenda.queue[0];
            && OneDispatched(w, w', Dropped(e, WhyNot(w, e.kind.source, e.kind.target)))
            && w'.wakers == w.wakers && w'.agenda.queue == w.agenda.queue[1..]
  {
  }

  // One value is drawn for a message exactly when chance has to decide.
  lemma ArrivalDraws<L>(p: Prog<L>, w: World<L>, tape: EntropyTape)
    requires AboutTo(p, w) && w.agenda.queue[0].kind.DeliverMsg?
    ensures var e, tape' := w.agenda.queue[0], Step(p, w, tape).1;
            if Reachable(w, e.kind.source, e.kind.target) && w.devices.faults.dropPercent > 0
            then tape' == Draw(tape, DropDecision).0 else tape' == tape
  {
  }

  // The first obstacle in the way of a message.
  ghost function WhyNot<L>(w: World<L>, source: NodeId, target: NodeId): DropReason {
    if target !in w.hosts.nodes then Unregistered
    else if target in w.hosts.crashed || source in w.hosts.crashed then CrashedEnd
    else if !Reachable(w, source, target) then Partitioned
    else AtRandom
  }

  // ----- sending -----

  // The running task is about to run this command.
  ghost predicate Runs<L>(p: Prog<L>, w: World<L>, t: TaskId, node: NodeId, cmd: Cmd<L>) {
    && !Halted(w) && w.pool.current.Some? && w.pool.current.value.task == t
    && t in w.pool.tasks && w.pool.tasks[t].node == node
    && p.next(w.pool.current.value.fut.local) == cmd
  }

  // Now the task goes on with this local state.
  ghost predicate GoesOn<L>(w: World<L>, t: TaskId, local: L) {
    w.pool.current == Some(Running(t, Fut(local, false, None, None)))
  }

  // What a send draws, in order, and when its copies arrive: a delay of 1 to 100
  // milliseconds, lengthened when extra delay is on, and, when duplication is on
  // and its draw says so, a second copy 1 to 10 milliseconds after the first.
  ghost predicate Sends(f: Faults, now: nat, drawn: seq<nat>, times: seq<nat>) {
    var x := if f.extraDelayMs == 0 then 0 else 1;
    var d := if f.duplicatePercent == 0 then 0 else 1;
    && |drawn| >= 1 + x + d
    && var delay := 1 + drawn[0] % 100 + if x == 1 then drawn[1] % (f.extraDelayMs + 1) else 0;
       var at := ClampU64(now + delay * 1_000_000);
       if d == 1 && drawn[1 + x] % 100 < Min(f.duplicatePercent, 100)
       then |drawn| == 3 + x && times == [at, ClampU64(at + (1 + drawn[2 + x] % 10) * 1_000_000)]
       else |drawn| == 1 + x + d && times == [at]
  }

  // The arrivals a send queues.
  ghost predicate Queues(a: Agenda, kind: EventKind, times: seq<nat>, a': Agenda) {
    && 1 <= |times| <= 2 && a'.now == a.now && a'.seqno == a.seqno + |times|
    && forall e :: e in a'.queue <==>
         || e in a.queue || e == Event(times[0], a.seqno, kind)
         || (|times| == 2 && e == Event(times[1], a.seqno + 1, kind))
  }

  lemma TransmitQueues(a: Agenda, source: NodeId, target: NodeId, msg: Message, at: nat, again: Option<nat>)
    ensures Queues(a, DeliverMsg(source, target, msg), [at] + ToSeq(again), Transmit(a, source, target, msg, at, again))
  {
    var kind := DeliverMsg(source, target, msg);
    var one := Push(a, at, kind);
    InsertMembers(a.queue, Event(at, a.seqno, kind));
    if again.Some? {
      InsertMembers(one.queue, Event(again.value, one.seqno, kind));
    }
  }

  lemma DelayDrawn(tape: EntropyTape, extraDelayMs: nat)
    ensures var (tape', delay) := DrawDelay(tape, extraDelayMs);
            var x := if extraDelayMs == 0 then 0 else 1;
            && |tape'.log| == |tape.log| + 1 + x && tape.log <= tape'.log
            && delay == 1 + tape'.log[|tape.log|] % 100
                        + if x == 1 then tape'.log[|tape.log| + 1] % (extraDelayMs + 1) else 0
  {
  }

  lemma ArrivalsDrawn(tape: EntropyTape, f: Faults, now: nat)
    ensures var (tape', at, again) := DrawArrivals(tape, f, now);
            && tape.log <= tape'.log && Sends(f, now, tape'.log[|tape.log|..], [at] + ToSeq(again))
  {
    DelayDrawn(tape, f.extraDelayMs);
    var (tape1, delay) := DrawDelay(tape, f.extraDelayMs);
    var (tape', at, again) := DrawArrivals(tape, f, now);
    assert tape1.log <= tape'.log;
    var drawn, k := tape'.log[|tape.log|..], |tape.log|;
    assert drawn[0] == tape1.log[k] && (f.extraDelayMs > 0 ==> drawn[1] == tape1.log[k + 1]);
  }

  // A send by a live node queues one or two arrivals, as its draws say, and the
  // task goes on.
  lemma SendQueues<L>(p: Prog<L>, w: World<L>, tape: EntropyTape, t: TaskId, node: NodeId, target: NodeId,
                      msg: Message, resume: Reply -> L) returns (times: seq<nat>)
    requires Runs(p, w, t, node, Do(Send(target, msg), resume)) && node !in w.hosts.crashed
    ensures var (w', tape') := Step(p, w, tape);
            && tape.log <= tape'.log && Sends(w.devices.faults, w.agenda.now, tape'.log[|tape.log|..], times)
            && Queues(w.agenda, DeliverMsg(node, target, msg), times, w'.agenda)
            && GoesOn(w', t, resume(Nothing))
            && w' == w.(agenda := w'.agenda, pool := w.pool.(current := w'.pool.current))
  {
    var (_, at, again) := DrawArrivals(tape, w.devices.faults, w.agenda.now);
    ArrivalsDrawn(tape, w.devices.faults, w.agenda.now);
    TransmitQueues(w.agenda, node, target, msg, at, again);
    times := [at] + ToSeq(again);
  }

  // A crashed node sends nothing and draws nothing.
  lemma SendFromCrashedIs<L>(p: Prog<L>, w: World<L>, tape: EntropyTape, t: TaskId, node: NodeId, target: NodeId,
                             msg: Message, resume: Reply -> L)
    requires Runs(p, w, t, node, Do(Send(target, msg), resume)) && node in w.hosts.crashed
    ensures var (w', tape') := Step(p, w, tape);
            && tape' == tape && GoesOn(w', t, resume(Nothing))
            && w'.log.trace == w.log.trace + [SendFromCrashed(node, target)]
            && w' == w.(log := w.log.(trace := w'.log.trace), pool := w.pool.(current := w'.pool.current))
  {
  }

  // ----- receiving -----

  // The await is a receive, with or without a timeout.
  predicate IsReceive(what: Await) {
    what.Recv? || what.RecvTimeout?
  }

  // A receive that finds messages takes the oldest and leaves the rest.
  lemma ReceiveTakesOldest<L>(p: Prog<L>, w: World<L>, tape: EntropyTape, t: TaskId, node: NodeId, what: Await,
                              resume: Reply -> L)
    requires Runs(p, w, t, node, Pause(what, resume)) && IsReceive(what) && Inbox(w.wakers, node) != []
    ensures var w', oldest := Step(p, w, tape).0, Inbox(w.wakers, node)[0];
            && GoesOn(w', t, resume(Received(oldest.0, oldest.1)))
            && Inbox(w'.wakers, node) == Inbox(w.wakers, node)[1..]
            && (forall n :: n != node ==> Inbox(w'.wakers, n) == Inbox(w.wakers, n))
            && w' == w.(wakers := w'.wakers, pool := w.pool.(current := w'.pool.current))
  {
  }

  // A receive without a timeout that finds nothing suspends its task, registered
  // once behind the receivers already there, until a message arrives.
  lemma ReceiveWaits<L>(p: Prog<L>, w: World<L>, tape: EntropyTape, t: TaskId, node: NodeId, resume: Reply -> L)
    requires Runs(p, w, t, node, Pause(Recv, resume)) && Inbox(w.wakers, node) == []
    ensures var w', list := Step(p, w, tape).0, Waiters(w.wakers, node);
            var parked := Slot(node, Some(w.pool.current.value.fut.(waiting := true)));
            && w'.pool == w.pool.(current := None, tasks := w.pool.tasks[t := parked])
            && Waiters(w'.wakers, node) == (if t in list then list else list + [t])
            && (forall n :: n != node ==> Waiters(w'.wakers, n) == Waiters(w.wakers, n))
            && w' == w.(pool := w'.pool, wakers := w.wakers.(waiters := w'.wakers.waiters))
  {
  }

  // ----- what one step does to an inbox -----

  // A task on the node receives a message in this step.
  ghost predicate Takes<L>(p: Prog<L>, w: World<L>, node: NodeId) {
    && !Halted(w) && w.pool.current.Some? && w.pool.current.value.task in w.pool.tasks
    && w.pool.tasks[w.pool.current.value.task].node == node && Inbox(w.wakers, node) != []
    && var cmd := p.next(w.pool.current.value.fut.local);
       cmd.Pause? && IsReceive(cmd.what)
  }

  // A message for the node arrives in this step.
  ghost predicate Lands<L>(p: Prog<L>, w: World<L>, tape: EntropyTape, node: NodeId) {
    && AboutTo(p, w) && w.agenda.queue[0].kind.DeliverMsg? && w.agenda.queue[0].kind.target == node
    && Arrives(w, w.agenda.queue[0].kind.source, node, tape)
  }

  // The node crashes in this step.
  ghost predicate Crashes<L>(p: Prog<L>, w: World<L>, node: NodeId) {
    AboutTo(p, w) && w.agenda.queue[0].kind == Fault(Crash(node)) && node in w.hosts.nodes
  }

  lemma AwaitInbox<L>(w: World<L>, r: Running<L>, node: NodeId, what: Await, resume: Reply -> L, n: NodeId)
    ensures Inbox(PollAwait(w, r, node, what, resume).wakers, n)
            == if n == node && IsReceive(what) && Inbox(w.wakers, node) != [] then Inbox(w.wakers, n)[1..]
               else Inbox(w.wakers, n)
  {
    match what
    case Recv =>
    case RecvTimeout(duration) => TimeoutInbox(w, r, node, duration, resume, n);
    case SleepUntil(deadline) => assert PollSleep(w, r, node, deadline, resume).wakers.inboxes == w.wakers.inboxes;
    case Join(handle) => assert PollJoin(w, r, node, handle, resume).wakers == w.wakers;
  }

  lemma TimeoutInbox<L>(w: World<L>, r: Running<L>, node: NodeId, duration: nat, resume: Reply -> L, n: NodeId)
    ensures Inbox(PollRecvTimeout(w, r, node, duration, resume).wakers, n)
            == if n == node && Inbox(w.wakers, node) != [] then Inbox(w.wakers, n)[1..] else Inbox(w.wakers, n)
  {
    if Inbox(w.wakers, node) == [] {
      assert PollRecvTimeout(w, r, node, duration, resume).wakers.inboxes == w.wakers.inboxes;
    }
  }

  lemma CmdInbox<L>(p: Prog<L>, w: World<L>, r: Running<L>, node: NodeId, tape: EntropyTape, n: NodeId)
    ensures var cmd := p.next(r.fut.local);
            Inbox(RunCmd(p, w, r, node, tape).0.wakers, n)
            == if n == node && cmd.Pause? && IsReceive(cmd.what) && Inbox(w.wakers, node) != []
               then Inbox(w.wakers, n)[1..] else Inbox(w.wakers, n)
  {
    match p.next(r.fut.local)
    case Finish(output) =>
    case Pause(what, resume) => AwaitInbox(w, r, node, what, resume, n);
    case Do(op, resume) =>
      if !op.Send? && !op.Spawn? {
        assert LocalCmd(p, w, r, node, op, resume).wakers == w.wakers;
      }
  }

  lemma FaultInbox<L>(w: World<L>, e: Event, action: NemesisAction, n: NodeId)
    ensures Inbox(DispatchFault(w, e, action).wakers, n)
            == if action == Crash(n) && n in w.hosts.nodes then [] else Inbox(w.wakers, n)
  {
  }

  // An inbox changes in three ways only: a task takes its oldest message, one
  // arrives behind the others, or its node crashes and loses it.
  lemma InboxStep<L>(p: Prog<L>, w: World<L>, tape: EntropyTape, node: NodeId)
    ensures Inbox(Step(p, w, tape).0.wakers, node)
            == if Takes(p, w, node) then Inbox(w.wakers, node)[1..]
               else if Lands(p, w, tape, node)
               then Inbox(w.wakers, node) + [(w.agenda.queue[0].kind.source, w.agenda.queue[0].kind.msg)]
               else if Crashes(p, w, node) then [] else Inbox(w.wakers, node)
  {
    if !Halted(w) {
      if w.pool.current.Some? {
        var r := w.pool.current.value;
        if r.task in w.pool.tasks { CmdInbox(p, w, r, w.pool.tasks[r.task].node, tape, node); }
      } else if AboutTo(p, w) {
        var e := w.agenda.queue[0];
        match e.kind
        case Fault(action) => FaultInbox(w.(agenda := Pop(w.agenda)), e, action, node);
        case DeliverMsg(source, target, _) =>
          if Arrives(w, source, target, tape) { MessageArrives(p, w, tape); } else { MessageIsDropped(p, w, tape); }
        case TimerFire(_) =>
        case PollTask(_) =>
      }
    }
  }

  // ----- what a run does to an inbox -----

  // The messages tasks on the node received in the first n steps, in order.
  ghost function Taken<L>(p: Prog<L>, w: World<L>, tape: EntropyTape, node: NodeId, n: nat)
    : seq<(NodeId, Message)>
  {
    if n == 0 then []
    else
      var w' := Steps(p, w, tape, n - 1).0;
      Taken(p, w, tape, node, n - 1) + if Takes(p, w', node) then [Inbox(w'.wakers, node)[0]] else []
  }

  ghost predicate NeverCrashes<L>(p: Prog<L>, w: World<L>, tape: EntropyTape, node: NodeId, n: nat) {
    n > 0 ==> !Crashes(p, Steps(p, w, tape, n - 1).0, node) && NeverCrashes(p, w, tape, node, n - 1)
  }

  // The messages traced as dispatched to the node.
  function DeliveredTo(trace: seq<TraceEntry>, node: NodeId): seq<(NodeId, Message)> {
    if trace == [] then []
    else
      var last := trace[|trace| - 1];
      DeliveredTo(trace[..|trace| - 1], node)
      + if last.Dispatched? && last.event.kind.DeliverMsg? && last.event.kind.target == node
        then [(last.event.kind.source, last.event.kind.msg)] else []
  }

  lemma DeliveredOneMore(trace: seq<TraceEntry>, entry: TraceEntry, node: NodeId)
    ensures DeliveredTo(trace + [entry], node)
            == DeliveredTo(trace, node)
               + if entry.Dispatched? && entry.event.kind.DeliverMsg? && entry.event.kind.target == node
                 then [(entry.event.kind.source, entry.event.kind.msg)] else []
  {
    assert (trace + [entry])[..|trace|] == trace;
  }

  lemma CmdTrace<L>(p: Prog<L>, w: World<L>, r: Running<L>, node: NodeId, tape: EntropyTape)
    ensures var trace := RunCmd(p, w, r, node, tape).0.log.trace;
            trace == w.log.trace
            || (exists a, b :: trace == w.log.trace + [SendFromCrashed(a, b)])
  {
    match p.next(r.fut.local)
    case Finish(output) =>
    case Pause(what, resume) => assert PollAwait(w, r, node, what, resume).log == w.log;
    case Do(op, resume) =>
      if op.Send? {
        assert node in w.hosts.crashed ==>
                 RunCmd(p, w, r, node, tape).0.log.trace == w.log.trace + [SendFromCrashed(node, op.target)];
      } else if !op.Spawn? {
        assert LocalCmd(p, w, r, node, op, resume).log.trace == w.log.trace;
      }
  }

  lemma FaultTrace<L>(w: World<L>, e: Event, action: NemesisAction)
    ensures DispatchFault(w, e, action).log.trace == w.log.trace + [Dispatched(e)]
  {
  }

  lemma TraceStep<L>(p: Prog<L>, w: World<L>, tape: EntropyTape, node: NodeId)
    ensures DeliveredTo(Step(p, w, tape).0.log.trace, node)
            == DeliveredTo(w.log.trace, node)
               + if Lands(p, w, tape, node)
                 then [(w.agenda.queue[0].kind.source, w.agenda.queue[0].kind.msg)] else []
  {
    if !Halted(w) {
      if w.pool.current.Some? {
        var r := w.pool.current.value;
        if r.task in w.pool.tasks {
          CmdTrace(p, w, r, w.pool.tasks[r.task].node, tape);
          if Step(p, w, tape).0.log.trace != w.log.trace {
            var a, b :| Step(p, w, tape).0.log.trace == w.log.trace + [SendFromCrashed(a, b)];
            DeliveredOneMore(w.log.trace, SendFromCrashed(a, b), node);
          }
        }
      } else if AboutTo(p, w) {
        var e := w.agenda.queue[0];
        DeliveredOneMore(w.log.trace, Dispatched(e), node);
        match e.kind
        case Fault(action) => FaultTrace(w.(agenda := Pop(w.agenda)), e, action);
        case DeliverMsg(source, target, _) =>
          if Arrives(w, source, target, tape) {
            MessageArrives(p, w, tape);
          } else {
            MessageIsDropped(p, w, tape);
            DeliveredOneMore(w.log.trace, Dropped(e, WhyNot(w, source, target)), node);
          }
        case TimerFire(_) =>
        case PollTask(_) =>
      }
    }
  }

  // What was received and what waits, one step on.
  lemma OneMoreStep(taken: seq<(NodeId, Message)>, inbox: seq<(NodeId, Message)>, all: seq<(NodeId, Message)>,
                    taken': seq<(NodeId, Message)>, inbox': seq<(NodeId, Message)>, landed: seq<(NodeId, Message)>)
    requires taken + inbox == all
    requires (inbox != [] && taken' == taken + [inbox[0]] && inbox' == inbox[1..] && landed == [])
             || (taken' == taken && inbox' == inbox + landed)
    ensures taken' + inbox' == all + landed
  {
    MoveAcross(taken, inbox, landed);
  }

  // While a node does not crash, its tasks receive exactly what was there and
  // what arrived for it, in the order of arrival, and what they have not received
  // yet is in the inbox.
  lemma {:induction false} ReceivedInOrder<L>(p: Prog<L>, w: World<L>, tape: EntropyTape, node: NodeId, n: nat)
    returns (arrived: seq<(NodeId, Message)>)
    requires NeverCrashes(p, w, tape, node, n)
    ensures var w' := Steps(p, w, tape, n).0;
            && DeliveredTo(w'.log.trace, node) == DeliveredTo(w.log.trace, node) + arrived
            && Taken(p, w, tape, node, n) + Inbox(w'.wakers, node) == Inbox(w.wakers, node) + arrived
  {
    if n == 0 {
      arrived := [];
    } else {
      var before := ReceivedInOrder(p, w, tape, node, n - 1);
      var (w1, tape1) := Steps(p, w, tape, n - 1);
      InboxStep(p, w1, tape1, node);
      TraceStep(p, w1, tape1, node);
      var landed := if Lands(p, w1, tape1, node)
                    then [(w1.agenda.queue[0].kind.source, w1.agenda.queue[0].kind.msg)] else [];
      arrived := before + landed;
      OneMoreStep(Taken(p, w, tape, node, n - 1), Inbox(w1.wakers, node), Inbox(w.wakers, node) + before,
                  Taken(p, w, tape, node, n), Inbox(Step(p, w1, tape1).0.wakers, node), landed);
      MoveAcross(Inbox(w.wakers, node), before, landed);
      MoveAcross(DeliveredTo(w.log.trace, node), before, landed);
    }
  }

  // ----- nothing comes from nowhere -----

  // A task on the node sends the message in this step.
  ghost predicate IsSend<L>(p: Prog<L>, w: World<L>, source: NodeId, target: NodeId, msg: Message) {
    && !Halted(w) && w.pool.current.Some? && w.pool.current.value.task in w.pool.tasks
    && w.pool.tasks[w.pool.current.value.task].node == source && source !in w.hosts.crashed
    && var cmd := p.next(w.pool.current.value.fut.local);
       cmd.Do? && cmd.op == Send(target, msg)
  }

  // The message was sent before the nth step.
  ghost predicate SentBefore<L>(p: Prog<L>, w: World<L>, tape: EntropyTape, n: nat, kind: EventKind)
    requires kind.DeliverMsg?
  {
    n > 0 && (IsSend(p, Steps(p, w, tape, n - 1).0, kind.source, kind.target, kind.msg)
              || SentBefore(p, w, tape, n - 1, kind))
  }

  // Every message queued in one agenda was queued in the other or is this one.
  ghost predicate OnlyNew(a: Agenda, a': Agenda, kind: Option<EventKind>) {
    forall e :: e in a'.queue && e.kind.DeliverMsg? ==> e in a.queue || Some(e.kind) == kind
  }

  lemma PushIsNew(a: Agenda, time: nat, kind: EventKind)
    ensures OnlyNew(a, Push(a, time, kind), Some(kind))
  {
    InsertMembers(a.queue, Event(time, a.seqno, kind));
  }

  lemma PollsAreNotNew(a: Agenda, tasks: seq<TaskId>)
    ensures OnlyNew(a, PushPolls(a, tasks), None)
  {
    PollsAreQueued(a, tasks);
  }

  lemma AwaitSendsNothing<L>(w: World<L>, r: Running<L>, node: NodeId, what: Await, resume: Reply -> L)
    ensures OnlyNew(w.agenda, PollAwait(w, r, node, what, resume).agenda, None)
  {
    var a := PollAwait(w, r, node, what, resume).agenda;
    var deadline := match what
                    case SleepUntil(d) => d
                    case RecvTimeout(d) =>
                      if r.fut.deadline.Some? then r.fut.deadline.value else SatAdd(LocalNow(w, node), d)
                    case _ => 0;
    PushIsNew(w.agenda, GlobalDeadline(w, node, deadline), TimerFire(w.wakers.nextTimer));
    assert a == w.agenda || a == Push(w.agenda, GlobalDeadline(w, node, deadline), TimerFire(w.wakers.nextTimer));
  }

  lemma CmdSends<L>(p: Prog<L>, w: World<L>, r: Running<L>, node: NodeId, tape: EntropyTape)
    ensures var cmd := p.next(r.fut.local);
            OnlyNew(w.agenda, RunCmd(p, w, r, node, tape).0.agenda,
                    if cmd.Do? && cmd.op.Send? && node !in w.hosts.crashed
                    then Some(DeliverMsg(node, cmd.op.target, cmd.op.msg)) else None)
  {
    match p.next(r.fut.local)
    case Finish(output) =>
      if r.task in w.pool.joins { PollsAreNotNew(w.agenda, w.pool.joins[r.task].joiners); }
    case Pause(what, resume) => AwaitSendsNothing(w, r, node, what, resume);
    case Do(op, resume) =>
      if op.Send? {
        var (_, at, again) := DrawArrivals(tape, w.devices.faults, w.agenda.now);
        TransmitQueues(w.agenda, node, op.target, op.msg, at, again);
      } else if op.Spawn? {
        PushIsNew(w.agenda, w.agenda.now, PollTask(w.pool.nextTask));
      } else {
        assert LocalCmd(p, w, r, node, op, resume).agenda == w.agenda;
      }
  }

  lemma FaultSendsNothing<L>(w: World<L>, e: Event, action: NemesisAction)
    ensures OnlyNew(w.agenda, DispatchFault(w, e, action).agenda, None)
  {
    if action.Restart? {
      PushIsNew(w.agenda, w.agenda.now, PollTask(w.pool.nextTask));
    } else if action.Crash? {
      var removed := TasksOn(w.pool, action.node);
      RetainMembers(w.agenda.queue,
                    Survives(action.node, removed, CrashWakers(w.wakers, action.node, removed).timers.Keys));
    }
  }

  lemma DispatchSendsNothing<L>(w: World<L>, e: Event, tape: EntropyTape)
    ensures OnlyNew(w.agenda, Dispatch(w, e, tape).0.agenda, None)
  {
    match e.kind
    case Fault(action) => FaultSendsNothing(w, e, action);
    case DeliverMsg(_, target, _) => PollsAreNotNew(w.agenda, Waiters(w.wakers, target));
    case TimerFire(id) =>
      if id in w.wakers.timers { PushIsNew(w.agenda, w.agenda.now, PollTask(w.wakers.timers[id])); }
    case PollTask(_) =>
  }

  lemma StepSends<L>(p: Prog<L>, w: World<L>, tape: EntropyTape, e: Event)
    requires e in Step(p, w, tape).0.agenda.queue && e.kind.DeliverMsg?
    ensures e in w.agenda.queue || IsSend(p, w, e.kind.source, e.kind.target, e.kind.msg)
  {
    if !Halted(w) {
      if w.pool.current.Some? {
        var r := w.pool.current.value;
        if r.task in w.pool.tasks { CmdSends(p, w, r, w.pool.tasks[r.task].node, tape); }
      } else {
        DispatchSendsNothing(w.(agenda := Pop(w.agenda)), w.agenda.queue[0], tape);
      }
    }
  }

  // Everything on its way or in an inbox was sent.
  ghost predicate AllSent<L>(p: Prog<L>, w: World<L>, tape: EntropyTape, n: nat) {
    var w' := Steps(p, w, tape, n).0;
    && (forall e :: e in w'.agenda.queue && e.kind.DeliverMsg? ==> SentBefore(p, w, tape, n, e.kind))
    && (forall node, m :: m in Inbox(w'.wakers, node) ==> SentBefore(p, w, tape, n, DeliverMsg(m.0, node, m.1)))
  }

  // Nothing is on its way and no inbox holds anything.
  ghost predicate NoMessages<L>(w: World<L>) {
    && (forall e :: e in w.agenda.queue ==> !e.kind.DeliverMsg?)
    && (forall node :: Inbox(w.wakers, node) == [])
  }

  lemma EventSent<L>(p: Prog<L>, w: World<L>, tape: EntropyTape, n: nat, e: Event)
    requires n > 0 && e.kind.DeliverMsg? && e in Steps(p, w, tape, n).0.agenda.queue
    requires e in Steps(p, w, tape, n - 1).0.agenda.queue ==> SentBefore(p, w, tape, n - 1, e.kind)
    ensures SentBefore(p, w, tape, n, e.kind)
  {
    var (w1, tape1) := Steps(p, w, tape, n - 1);
    StepSends(p, w1, tape1, e);
  }

  lemma EntrySent<L>(p: Prog<L>, w: World<L>, tape: EntropyTape, n: nat, node: NodeId, m: (NodeId, Message))
    requires n > 0 && m in Inbox(Steps(p, w, tape, n).0.wakers, node)
    requires var w1 := Steps(p, w, tape, n - 1).0;
             var kind := DeliverMsg(m.0, node, m.1);
             m in Inbox(w1.wakers, node) || (w1.agenda.queue != [] && w1.agenda.queue[0].kind == kind)
             ==> SentBefore(p, w, tape, n - 1, kind)
    ensures SentBefore(p, w, tape, n, DeliverMsg(m.0, node, m.1))
  {
    var (w1, tape1) := Steps(p, w, tape, n - 1);
    InboxStep(p, w1, tape1, node);
  }

  lemma {:induction false} RunSends<L>(p: Prog<L>, w: World<L>, tape: EntropyTape, n: nat)
    requires NoMessages(w)
    ensures AllSent(p, w, tape, n)
  {
    if n > 0 {
      RunSends(p, w, tape, n - 1);
      var q, q' := Steps(p, w, tape, n - 1).0, Steps(p, w, tape, n).0;
      forall e | e in q'.agenda.queue && e.kind.DeliverMsg? ensures SentBefore(p, w, tape, n, e.kind) {
        EventSent(p, w, tape, n, e);
      }
      forall node, m | m in Inbox(q'.wakers, node) ensures SentBefore(p, w, tape, n, DeliverMsg(m.0, node, m.1)) {
        assert q.agenda.queue != [] ==> q.agenda.queue[0] in q.agenda.queue;
        EntrySent(p, w, tape, n, node, m);
      }
    }
  }

  lemma CrashSendsNothing<L>(w: World<L>, node: NodeId, n: NodeId)
    ensures OnlyNew(w.agenda, CrashNode(w, node).agenda, None)
    ensures Inbox(w.wakers, n) == [] ==> Inbox(CrashNode(w, node).wakers, n) == []
  {
    var removed := TasksOn(w.pool, node);
    RetainMembers(w.agenda.queue, Survives(node, removed, CrashWakers(w.wakers, node, removed).timers.Keys));
  }

  lemma NemesisSendsNothing<L>(w: World<L>, action: NemesisAction)
    requires NoMessages(w) && !action.Restart?
    ensures NoMessages(ApplyNemesis(w, action))
  {
    if action.Crash? {
      var logged := w.(log := w.log.(nemesisTrace := w.log.nemesisTrace + [action]));
      forall n ensures Inbox(CrashNode(logged, action.node).wakers, n) == [] {
        CrashSendsNothing(logged, action.node, n);
      }
      CrashSendsNothing(logged, action.node, 0);
    }
  }

  lemma AddHostSendsNothing<L>(w: World<L>, node: NodeId, entry: L)
    requires NoMessages(w)
    ensures NoMessages(AddHost(w, node, entry))
  {
    PushIsNew(w.agenda, w.agenda.now, PollTask(w.pool.nextTask));
    var w' := AddHost(w, node, entry);
    assert w'.agenda == Push(w.agenda, w.agenda.now, PollTask(w.pool.nextTask));
    assert forall n :: Inbox(w'.wakers, n) == Inbox(w.wakers, n);
  }

  lemma ConfigureSendsNothing<L>(w: World<L>, s: Setup<L>, tape: EntropyTape)
    requires NoMessages(w)
    ensures NoMessages(Configure(w, s, tape).0)
  {
    match s
    case AddNode(node, entry) => AddHostSendsNothing(w, node, entry);
    case ScheduleFault(at, action) => PushIsNew(w.agenda, at, Fault(action));
    case PlanFaults(plan, max) => FaultsAreNotNew(w.agenda, Consult(plan, [], ViewOf(w), tape, max).2);
    case FaultNow(action) =>
      if action.Restart? {
        PushIsNew(w.agenda, w.agenda.now, PollTask(w.pool.nextTask));
      } else {
        NemesisSendsNothing(w, action);
      }
    case _ =>
  }

  lemma {:induction false} FaultsAreNotNew(a: Agenda, out: seq<Timed>)
    ensures OnlyNew(a, PushFaults(a, out), None)
    decreases out
  {
    if out != [] {
      PushIsNew(a, out[0].time, Fault(out[0].action));
      FaultsAreNotNew(Push(a, out[0].time, Fault(out[0].action)), out[1..]);
    }
  }

  lemma {:induction false} PrepareSendsNothing<L>(setup: seq<Setup<L>>, tape: EntropyTape)
    ensures NoMessages(Prepare(setup, tape).0)
    decreases |setup|
  {
    if setup != [] {
      var (w, tape') := Prepare(setup[..|setup| - 1], tape);
      PrepareSendsNothing(setup[..|setup| - 1], tape);
      ConfigureSendsNothing(w, setup[|setup| - 1], tape');
    }
  }

  // In every run, whatever waits in an inbox, and so whatever a task receives,
  // was sent to that node by that sender at an earlier step.
  lemma ReceivedWasSent<L>(p: Prog<L>, setup: seq<Setup<L>>, tape: EntropyTape, n: nat, node: NodeId)
    ensures var (w0, tape0) := Prepare(setup, tape);
            forall m :: m in Inbox(Steps(p, w0, tape0, n).0.wakers, node) ==>
              exists i: nat :: i < n && IsSend(p, WorldAt(p, w0, tape0, i), m.0, node, m.1)
  {
    var (w0, tape0) := Prepare(setup, tape);
    PrepareSendsNothing(setup, tape);
    RunSends(p, w0, tape0, n);
    forall m | m in Inbox(Steps(p, w0, tape0, n).0.wakers, node)
      ensures exists i: nat :: i < n && IsSend(p, WorldAt(p, w0, tape0, i), m.0, node, m.1)
    {
      SentAtSomeStep(p, w0, tape0, n, DeliverMsg(m.0, node, m.1));
    }
  }

  lemma {:induction false} SentAtSomeStep<L>(p: Prog<L>, w: World<L>, tape: EntropyTape, n: nat, kind: EventKind)
    requires kind.DeliverMsg? && SentBefore(p, w, tape, n, kind)
    ensures exists i: nat :: i < n && IsSend(p, WorldAt(p, w, tape, i), kind.source, kind.target, kind.msg)
  {
    if IsSend(p, Steps(p, w, tape, n - 1).0, kind.source, kind.target, kind.msg) {
      assert IsSend(p, WorldAt(p, w, tape, n - 1), kind.source, kind.target, kind.msg);
    } else {
      SentAtSomeStep(p, w, tape, n - 1, kind);
    }
  }
}
