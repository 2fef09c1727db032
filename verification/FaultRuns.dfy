// Scheduled faults followed through a run: what has been dispatched of them and
// what is still queued is, at every step, what was queued, in its order.
module FaultRuns {
  import opened Base
  import opened Nemesis
  import opened PlanOrder
  import opened Planners
  import opened Queue
  import opened Sim
  import opened Tape

  // The events numbered from `lo` up to, and not including, `hi`.
  function Numbered(lo: nat, hi: nat): Event -> bool {
    (e: Event) => lo <= e.seqno < hi
  }

  function Picked(entry: TraceEntry, lo: nat, hi: nat): seq<Event> {
    match entry
    case Dispatched(e) => if Numbered(lo, hi)(e) then [e] else []
    case _ => []
  }

  // Those the trace has dispatched, in its order.
  function Done(trace: seq<TraceEntry>, lo: nat, hi: nat): seq<Event> {
    if trace == [] then [] else Done(trace[..|trace|-1], lo, hi) + Picked(trace[|trace|-1], lo, hi)
  }

  function Queued(a: Agenda, lo: nat, hi: nat): seq<Event> {
    Retain(a.queue, Numbered(lo, hi))
  }

  // All of the numbered events there are were numbered already, and are faults.
  ghost predicate AreFaults(a: Agenda, lo: nat, hi: nat) {
    hi <= a.seqno && forall e :: e in Queued(a, lo, hi) ==> e.kind.Fault?
  }

  // ----- what leaves the numbered events where they are -----

  ghost predicate Kept(a: Agenda, b: Agenda, lo: nat, hi: nat) {
    Queued(b, lo, hi) == Queued(a, lo, hi) && a.seqno <= b.seqno
  }

  lemma PushKept(a: Agenda, time: nat, kind: EventKind, lo: nat, hi: nat)
    requires hi <= a.seqno
    ensures Kept(a, Push(a, time, kind), lo, hi)
  {
    RetainSkips(a.queue, Event(time, a.seqno, kind), Numbered(lo, hi));
  }

  lemma {:induction false} PushPollsKept(a: Agenda, tasks: seq<TaskId>, lo: nat, hi: nat)
    requires hi <= a.seqno
    ensures Kept(a, PushPolls(a, tasks), lo, hi)
    decreases tasks
  {
    if tasks != [] {
      PushKept(a, a.now, PollTask(tasks[0]), lo, hi);
      PushPollsKept(Push(a, a.now, PollTask(tasks[0])), tasks[1..], lo, hi);
    }
  }

  lemma {:induction false} RetainTwice(q: seq<Event>, first: Event -> bool, second: Event -> bool)
    requires forall e :: e in q && second(e) ==> first(e)
    ensures Retain(Retain(q, first), second) == Retain(q, second)
  {
    if q != [] {
      RetainTwice(q[1..], first, second);
      assert q[0] in q;
      if first(q[0]) {
        assert ([q[0]] + Retain(q[1..], first))[1..] == Retain(q[1..], first);
      } else {
        assert [] + Retain(q[1..], first) == Retain(q[1..], first);
        assert [] + Retain(q[1..], second) == Retain(q[1..], second);
      }
    }
  }

  lemma CrashKept(a: Agenda, node: NodeId, removed: set<TaskId>, timers: set<TimerId>, lo: nat, hi: nat)
    requires AreFaults(a, lo, hi)
    ensures Kept(a, CrashAgenda(a, node, removed, timers), lo, hi)
  {
    RetainMembers(a.queue, Numbered(lo, hi));
    RetainTwice(a.queue, Survives(node, removed, timers), Numbered(lo, hi));
  }

  // ----- commands -----

  lemma AwaitKept<L>(w: World<L>, r: Running<L>, node: NodeId, what: Await, resume: Reply -> L, lo: nat, hi: nat)
    requires hi <= w.agenda.seqno
    ensures var w' := PollAwait(w, r, node, what, resume);
            Kept(w.agenda, w'.agenda, lo, hi) && w'.log == w.log
  {
    var a := PollAwait(w, r, node, what, resume).agenda;
    if a != w.agenda {
      var time, kind :| a == Push(w.agenda, time, kind);
      PushKept(w.agenda, time, kind, lo, hi);
    }
  }

  lemma TransmitKept(a: Agenda, source: NodeId, target: NodeId, msg: Message, at: nat, again: Option<nat>,
                     lo: nat, hi: nat)
    requires hi <= a.seqno
    ensures Kept(a, Transmit(a, source, target, msg, at, again), lo, hi)
  {
    var kind := DeliverMsg(source, target, msg);
    PushKept(a, at, kind, lo, hi);
    if again.Some? { PushKept(Push(a, at, kind), again.value, kind, lo, hi); }
  }

  lemma SendKept<L>(w: World<L>, r: Running<L>, node: NodeId, target: NodeId, msg: Message, resume: Reply -> L,
                    tape: EntropyTape, lo: nat, hi: nat)
    requires hi <= w.agenda.seqno
    ensures var w' := SendMessage(w, r, node, target, msg, resume, tape).0;
            && Kept(w.agenda, w'.agenda, lo, hi)
            && (w'.log.trace == w.log.trace || w'.log.trace == w.log.trace + [SendFromCrashed(node, target)])
  {
    var (_, at, again) := DrawArrivals(tape, w.devices.faults, w.agenda.now);
    TransmitKept(w.agenda, node, target, msg, at, again, lo, hi);
  }

  lemma FinishKept<L>(w: World<L>, r: Running<L>, output: int, lo: nat, hi: nat)
    requires hi <= w.agenda.seqno
    ensures Kept(w.agenda, FinishTask(w, r, output).agenda, lo, hi) && FinishTask(w, r, output).log == w.log
  {
    if r.task in w.pool.joins { PushPollsKept(w.agenda, w.pool.joins[r.task].joiners, lo, hi); }
  }

  lemma LocalKept<L>(p: Prog<L>, w: World<L>, r: Running<L>, node: NodeId, op: Op<L>, resume: Reply -> L)
    requires !op.Send? && !op.Spawn?
    ensures var w' := LocalCmd(p, w, r, node, op, resume);
            w'.agenda == w.agenda && w'.log.trace == w.log.trace
  {
  }

  // Nothing numbered is dispatched or moved.
  ghost predicate Idle<L>(w: World<L>, w': World<L>, lo: nat, hi: nat) {
    Kept(w.agenda, w'.agenda, lo, hi) && Done(w'.log.trace, lo, hi) == Done(w.log.trace, lo, hi)
  }

  lemma OtherEntry(trace: seq<TraceEntry>, entry: TraceEntry, lo: nat, hi: nat)
    ensures Done(trace + [entry], lo, hi) == Done(trace, lo, hi) + Picked(entry, lo, hi)
  {
    assert (trace + [entry])[..|trace|] == trace;
  }

  lemma RunCmdIdle<L>(p: Prog<L>, w: World<L>, r: Running<L>, node: NodeId, tape: EntropyTape, lo: nat, hi: nat)
    requires hi <= w.agenda.seqno
    ensures Idle(w, RunCmd(p, w, r, node, tape).0, lo, hi)
  {
    match p.next(r.fut.local)
    case Finish(output) => FinishKept(w, r, output, lo, hi);
    case Pause(what, resume) => AwaitKept(w, r, node, what, resume, lo, hi);
    case Do(op, resume) =>
      if op.Send? {
        SendKept(w, r, node, op.target, op.msg, resume, tape, lo, hi);
        OtherEntry(w.log.trace, SendFromCrashed(node, op.target), lo, hi);
      } else if op.Spawn? {
        PushKept(w.agenda, w.agenda.now, PollTask(w.pool.nextTask), lo, hi);
      } else {
        LocalKept(p, w, r, node, op, resume);
      }
  }

  // ----- events -----

  // Dispatching e, already popped, moves it to the trace if it is numbered.
  ghost predicate Moves<L>(w: World<L>, w': World<L>, e: Event, lo: nat, hi: nat) {
    && Kept(w.agenda, w'.agenda, lo, hi)
    && Done(w'.log.trace, lo, hi) == Done(w.log.trace, lo, hi) + if Numbered(lo, hi)(e) then [e] else []
  }

  lemma CrashNodeKept<L>(w: World<L>, node: NodeId, lo: nat, hi: nat)
    requires AreFaults(w.agenda, lo, hi)
    ensures Kept(w.agenda, CrashNode(w, node).agenda, lo, hi) && CrashNode(w, node).log == w.log
  {
    var removed := TasksOn(w.pool, node);
    CrashKept(w.agenda, node, removed, CrashWakers(w.wakers, node, removed).timers.Keys, lo, hi);
  }

  lemma RestartKept<L>(w: World<L>, node: NodeId, lo: nat, hi: nat)
    requires hi <= w.agenda.seqno
    ensures Kept(w.agenda, RestartAndRecord(w, node).agenda, lo, hi)
    ensures RestartAndRecord(w, node).log.trace == w.log.trace
  {
    PushKept(w.agenda, w.agenda.now, PollTask(w.pool.nextTask), lo, hi);
  }

  lemma FaultKept<L>(w: World<L>, e: Event, action: NemesisAction, lo: nat, hi: nat)
    requires AreFaults(w.agenda, lo, hi)
    ensures Kept(w.agenda, DispatchFault(w, e, action).agenda, lo, hi)
    ensures DispatchFault(w, e, action).log.trace == w.log.trace + [Dispatched(e)]
  {
    var counted := Counted(w, Dispatched(e));
    var logged := counted.(log := counted.log.(nemesisTrace := w.log.nemesisTrace + [action]));
    if action.Restart? {
      RestartKept(logged, action.node, lo, hi);
    } else if action.Crash? {
      CrashNodeKept(logged, action.node, lo, hi);
    }
  }

  lemma FaultMoves<L>(w: World<L>, e: Event, action: NemesisAction, lo: nat, hi: nat)
    requires AreFaults(w.agenda, lo, hi)
    ensures Moves(w, DispatchFault(w, e, action), e, lo, hi)
  {
    FaultKept(w, e, action, lo, hi);
    OtherEntry(w.log.trace, Dispatched(e), lo, hi);
  }

  lemma TimerIdle<L>(w: World<L>, e: Event, id: TimerId, lo: nat, hi: nat)
    requires hi <= w.agenda.seqno && !Numbered(lo, hi)(e)
    ensures Moves(w, FireTimer(w, e, id), e, lo, hi)
  {
    OtherEntry(w.log.trace, Dispatched(e), lo, hi);
    if id in w.wakers.timers { PushKept(w.agenda, w.agenda.now, PollTask(w.wakers.timers[id]), lo, hi); }
  }

  lemma PollIdle<L>(w: World<L>, e: Event, t: TaskId, lo: nat, hi: nat)
    requires !Numbered(lo, hi)(e)
    ensures Moves(w, StartPoll(w, e, t), e, lo, hi)
  {
    OtherEntry(w.log.trace, Dispatched(e), lo, hi);
  }

  lemma MessageIdle<L>(w: World<L>, e: Event, source: NodeId, target: NodeId, msg: Message, tape: EntropyTape,
                       lo: nat, hi: nat)
    requires hi <= w.agenda.seqno && !Numbered(lo, hi)(e)
    ensures Moves(w, DeliverOrDrop(w, e, source, target, msg, tape).0, e, lo, hi)
  {
    OtherEntry(w.log.trace, Dispatched(e), lo, hi);
    match DropCause(w, source, target)
    case Some(reason) => OtherEntry(w.log.trace, Dropped(e, reason), lo, hi);
    case None =>
      OtherEntry(w.log.trace, Dropped(e, AtRandom), lo, hi);
      PushPollsKept(w.agenda, Waiters(w.wakers, target), lo, hi);
  }

  lemma DispatchMoves<L>(w: World<L>, e: Event, tape: EntropyTape, lo: nat, hi: nat)
    requires AreFaults(w.agenda, lo, hi) && (Numbered(lo, hi)(e) ==> e.kind.Fault?)
    ensures Moves(w, Dispatch(w, e, tape).0, e, lo, hi)
  {
    match e.kind
    case TimerFire(id) => TimerIdle(w, e, id, lo, hi);
    case PollTask(t) => PollIdle(w, e, t, lo, hi);
    case Fault(action) => FaultMoves(w, e, action, lo, hi);
    case DeliverMsg(source, target, msg) => MessageIdle(w, e, source, target, msg, tape, lo, hi);
  }

  // ----- runs -----

  function Account<L>(w: World<L>, lo: nat, hi: nat): seq<Event> {
    Done(w.log.trace, lo, hi) + Queued(w.agenda, lo, hi)
  }

  lemma PopKept(a: Agenda, lo: nat, hi: nat)
    requires AreFaults(a, lo, hi) && a.queue != []
    ensures Queued(a, lo, hi) == (if Numbered(lo, hi)(a.queue[0]) then [a.queue[0]] else []) + Queued(Pop(a), lo, hi)
    ensures AreFaults(Pop(a), lo, hi) && (Numbered(lo, hi)(a.queue[0]) ==> a.queue[0].kind.Fault?)
  {
  }

  lemma StepAccounts<L>(p: Prog<L>, w: World<L>, tape: EntropyTape, lo: nat, hi: nat)
    requires AreFaults(w.agenda, lo, hi) && !Step(p, w, tape).0.aborted
    ensures var w' := Step(p, w, tape).0;
            AreFaults(w'.agenda, lo, hi) && Account(w', lo, hi) == Account(w, lo, hi)
  {
    if !Halted(w) {
      if w.pool.current.Some? {
        var r := w.pool.current.value;
        if r.task in w.pool.tasks { RunCmdIdle(p, w, r, w.pool.tasks[r.task].node, tape, lo, hi); }
      } else {
        var e, q := w.agenda.queue[0], w.(agenda := Pop(w.agenda));
        PopKept(w.agenda, lo, hi);
        DispatchMoves(q, e, tape, lo, hi);
        MoveAcross(Done(w.log.trace, lo, hi), if Numbered(lo, hi)(e) then [e] else [], Queued(q.agenda, lo, hi));
      }
    }
  }

  lemma {:induction false} StepsAccount<L>(p: Prog<L>, w: World<L>, tape: EntropyTape, n: nat, lo: nat, hi: nat)
    requires AreFaults(w.agenda, lo, hi) && !Steps(p, w, tape, n).0.aborted
    ensures var w' := Steps(p, w, tape, n).0;
            AreFaults(w'.agenda, lo, hi) && Account(w', lo, hi) == Account(w, lo, hi)
  {
    if n > 0 {
      var (w1, tape1) := Steps(p, w, tape, n - 1);
      assert Steps(p, w, tape, n) == Step(p, w1, tape1);
      assert w1.aborted ==> Step(p, w1, tape1).0 == w1;
      StepsAccount(p, w, tape, n - 1, lo, hi);
      StepAccounts(p, w1, tape1, lo, hi);
    }
  }

  // ----- a plan's faults -----

  lemma {:induction false} PushFaultsCounts(a: Agenda, out: seq<Timed>)
    ensures PushFaults(a, out).seqno == a.seqno + |out|
    decreases out
  {
    if out != [] { PushFaultsCounts(Push(a, out[0].time, Fault(out[0].action)), out[1..]); }
  }

  lemma {:induction false} PushFaultsPushes(a: Agenda, out: seq<Timed>)
    ensures forall e :: e in PushFaults(a, out).queue ==>
              e in a.queue || (e.kind.Fault? && a.seqno <= e.seqno < a.seqno + |out|)
    decreases out
  {
    if out != [] {
      var e := Event(out[0].time, a.seqno, Fault(out[0].action));
      InsertMembers(a.queue, e);
      PushFaultsPushes(Push(a, out[0].time, Fault(out[0].action)), out[1..]);
    }
  }

  lemma {:induction false} RetainAlike(q: seq<Event>, one: Event -> bool, other: Event -> bool)
    requires forall e :: e in q ==> one(e) == other(e)
    ensures Retain(q, one) == Retain(q, other)
  {
    if q != [] { RetainAlike(q[1..], one, other); }
  }

  // Pushed faults are numbered from the first free number on.
  lemma PushedNumbered(a: Agenda, out: seq<Timed>)
    requires QueueOk(a)
    ensures var b := PushFaults(a, out);
            && AreFaults(b, a.seqno, a.seqno + |out|)
            && Queued(b, a.seqno, a.seqno + |out|) == Retain(b.queue, PushedSince(a.seqno))
  {
    var b := PushFaults(a, out);
    PushFaultsCounts(a, out);
    PushFaultsPushes(a, out);
    RetainMembers(b.queue, Numbered(a.seqno, a.seqno + |out|));
    RetainAlike(b.queue, Numbered(a.seqno, a.seqno + |out|), PushedSince(a.seqno));
  }

  // What a world's trace and queue hold of the faults numbered for a plan that
  // gave `out`.
  ghost predicate Accounts<L>(w: World<L>, events: seq<Event>, out: seq<Timed>, lo: nat) {
    Account(w, lo, lo + |out|) == events && (events == ScheduledEvents(out, lo) <==> TimeSorted(out))
  }

  lemma PushedAccounts<L>(w: World<L>, a: Agenda, out: seq<Timed>)
    requires QueueOk(a) && w.agenda == PushFaults(a, out) && w.log.trace == []
    ensures Accounts(w, Retain(w.agenda.queue, PushedSince(a.seqno)), out, a.seqno)
  {
    PushedNumbered(a, out);
    PushedInOrderIff(a, out);
    var events := Queued(w.agenda, a.seqno, a.seqno + |out|);
    assert [] + events == events;
  }

  // The same at every step up to the nth that is not aborted.
  ghost predicate AccountsUpTo<L>(p: Prog<L>, w: World<L>, tape: EntropyTape, events: seq<Event>, out: seq<Timed>,
                                  lo: nat, n: nat) {
    && (Steps(p, w, tape, n).0.aborted || Accounts(Steps(p, w, tape, n).0, events, out, lo))
    && (n > 0 ==> AccountsUpTo(p, w, tape, events, out, lo, n - 1))
  }

  lemma {:induction false} RunAccounts<L>(p: Prog<L>, w: World<L>, tape: EntropyTape, events: seq<Event>,
                                          out: seq<Timed>, lo: nat, n: nat)
    requires AreFaults(w.agenda, lo, lo + |out|) && Accounts(w, events, out, lo)
    ensures AccountsUpTo(p, w, tape, events, out, lo, n)
  {
    if n > 0 {
      RunAccounts(p, w, tape, events, out, lo, n - 1);
    }
    AccountsAfter(p, w, tape, events, out, lo, n);
  }

  lemma AccountsAfter<L>(p: Prog<L>, w: World<L>, tape: EntropyTape, events: seq<Event>, out: seq<Timed>, lo: nat,
                         n: nat)
    requires AreFaults(w.agenda, lo, lo + |out|) && Accounts(w, events, out, lo)
    ensures var w' := Steps(p, w, tape, n).0; w'.aborted || Accounts(w', events, out, lo)
  {
    var w' := Steps(p, w, tape, n).0;
    if !w'.aborted {
      StepsAccount(p, w, tape, n, lo, lo + |out|);
      SameAccounts(w, w', events, out, lo);
    }
  }

  lemma SameAccounts<L>(w: World<L>, w': World<L>, events: seq<Event>, out: seq<Timed>, lo: nat)
    requires Accounts(w, events, out, lo) && Account(w', lo, lo + |out|) == Account(w, lo, lo + |out|)
    ensures Accounts(w', events, out, lo)
  {
  }

  lemma PushedRun<L>(p: Prog<L>, w: World<L>, a: Agenda, out: seq<Timed>, tape: EntropyTape, n: nat)
    requires QueueOk(a) && w.agenda == PushFaults(a, out) && w.log.trace == []
    ensures AccountsUpTo(p, w, tape, Retain(w.agenda.queue, PushedSince(a.seqno)), out, a.seqno, n)
  {
    PushedNumbered(a, out);
    PushedAccounts(w, a, out);
    RunAccounts(p, w, tape, Retain(w.agenda.queue, PushedSince(a.seqno)), out, a.seqno, n);
  }

  // At every step of a run not aborted, the plan's faults dispatched so far,
  // followed by those still queued, are the ones it had queued; and they are all
  // it gave, in the order it gave them, exactly when that was the order of their
  // times.
  lemma PlanDispatchedInOrderIff<L>(p: Prog<L>, w: World<L>, plan: Planner, past: seq<Turn>, max: nat,
                                    tape: EntropyTape, n: nat)
    requires QueueOk(w.agenda) && w.log.trace == []
    ensures var (w1, tape1) := RunPlan(w, plan, past, max, tape);
            var out, lo := Consult(plan, past, ViewOf(w), tape, max).2, w.agenda.seqno;
            AccountsUpTo(p, w1, tape1, Retain(w1.agenda.queue, PushedSince(lo)), out, lo, n)
  {
    var (w1, tape1) := RunPlan(w, plan, past, max, tape);
    PushedRun(p, w1, w.agenda, Consult(plan, past, ViewOf(w), tape, max).2, tape1, n);
  }
}
