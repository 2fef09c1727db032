// Time in the simulator: dispatch order, progress of the event loop, skewed
// local clocks and the timers of sleeping tasks.
module SimClock {
  import opened Base
  import opened Nemesis
  import opened Tape
  import opened Queue
  import opened Sim
  import opened SimInvariant
  import opened SimDispatch

  // ----- dispatch order -----

  // Whatever the run, events leave the queue in strictly increasing (time, seq)
  // order, everything still queued comes later, and no two queued events share a
  // sequence number.
  lemma DispatchOrder<L(!new)>(p: Prog<L>, setup: seq<Setup<L>>, tape: EntropyTape, n: nat)
    requires forall s :: s in setup ==> SetupOk(s)
    ensures var (w0, tape0) := Prepare(setup, tape);
            var a := Steps(p, w0, tape0, n).0.agenda;
            && (forall i, j :: 0 <= i < j < |a.popped| ==> KeyLess(a.popped[i], a.popped[j]))
            && (forall e :: e in a.queue ==>
                  a.now <= e.time && (a.popped != [] ==> KeyLess(a.popped[|a.popped| - 1], Key(e))))
            && (forall e, f :: e in a.queue && f in a.queue && e.seqno == f.seqno ==> e == f)
  {
    StepsOk(p, setup, tape, n);
    var (w0, tape0) := Prepare(setup, tape);
    AgendaOfRun(p, Steps(p, w0, tape0, n).0);
    OrderOf(Steps(p, w0, tape0, n).0.agenda);
  }

  lemma OrderOf(a: Agenda)
    requires AgendaOk(a)
    ensures forall i, j :: 0 <= i < j < |a.popped| ==> KeyLess(a.popped[i], a.popped[j])
    ensures forall e :: e in a.queue ==>
              a.now <= e.time && (a.popped != [] ==> KeyLess(a.popped[|a.popped| - 1], Key(e)))
    ensures forall e, f :: e in a.queue && f in a.queue && e.seqno == f.seqno ==> e == f
  {
  }

  lemma AgendaOfRun<L>(p: Prog<L>, w: World<L>)
    requires RunInv(p, w)
    ensures AgendaOk(w.agenda)
  {
    if w.aborted {
      var kind :| InvDuring(p, w, Some(kind));
    }
  }

  // ----- progress of the loop -----

  lemma PollAwaitCounts<L>(w: World<L>, r: Running<L>, node: NodeId, what: Await, resume: Reply -> L)
    ensures PollAwait(w, r, node, what, resume).log == w.log
  {
  }

  lemma LocalCmdCounts<L>(p: Prog<L>, w: World<L>, r: Running<L>, node: NodeId, op: Op<L>, resume: Reply -> L)
    requires !op.Send? && !op.Spawn?
    ensures LocalCmd(p, w, r, node, op, resume).log.dispatched == w.log.dispatched
  {
  }

  lemma RunCmdCounts<L>(p: Prog<L>, w: World<L>, r: Running<L>, node: NodeId, tape: EntropyTape)
    ensures RunCmd(p, w, r, node, tape).0.log.dispatched == w.log.dispatched
  {
    match p.next(r.fut.local)
    case Finish(output) =>
    case Pause(what, resume) => PollAwaitCounts(w, r, node, what, resume);
    case Do(op, resume) =>
      if !op.Send? && !op.Spawn? { LocalCmdCounts(p, w, r, node, op, resume); }
  }

  lemma FaultCounts<L>(w: World<L>, e: Event, action: NemesisAction)
    ensures DispatchFault(w, e, action).log.dispatched == w.log.dispatched + 1
  {
  }

  // A stale event: it changes neither the log nor the queue.
  ghost predicate Skipped<L>(w: World<L>, w': World<L>) {
    w'.log == w.log && w'.agenda == w.agenda && w'.pool.current == w.pool.current
  }

  lemma DispatchCounts<L>(w: World<L>, e: Event, tape: EntropyTape)
    ensures var w' := Dispatch(w, e, tape).0;
            w'.log.dispatched == w.log.dispatched + 1 || Skipped(w, w')
  {
    if e.kind.Fault? {
      FaultCounts(w, e, e.kind.action);
    }
  }

  // Between polls the loop always gets closer to its end: it aborts, or counts an
  // event, or skips a stale one, which shortens the queue and leaves no trace.
  lemma LoopProgress<L>(p: Prog<L>, w: World<L>, tape: EntropyTape)
    requires !Halted(w) && w.pool.current.None?
    ensures var w' := Step(p, w, tape).0;
            || w'.aborted
            || (w.log.dispatched < w'.log.dispatched == w.log.dispatched + 1 <= p.maxEvents)
            || (w'.log == w.log && |w'.agenda.queue| == |w.agenda.queue| - 1 && w'.pool.current.None?)
  {
    DispatchCounts(w.(agenda := Pop(w.agenda)), w.agenda.queue[0], tape);
  }

  lemma {:induction false} DispatchedBounded<L>(p: Prog<L>, w: World<L>, tape: EntropyTape, n: nat)
    requires w.log.dispatched <= p.maxEvents
    ensures w.log.dispatched <= Steps(p, w, tape, n).0.log.dispatched <= p.maxEvents
  {
    if n > 0 {
      DispatchedBounded(p, w, tape, n - 1);
      var (w1, tape1) := Steps(p, w, tape, n - 1);
      if !Halted(w1) {
        if w1.pool.current.Some? {
          var r := w1.pool.current.value;
          if r.task in w1.pool.tasks { RunCmdCounts(p, w1, r, w1.pool.tasks[r.task].node, tape1); }
        } else {
          DispatchCounts(w1.(agenda := Pop(w1.agenda)), w1.agenda.queue[0], tape1);
        }
      }
    }
  }

  // ----- local clocks -----

  ghost predicate ClocksForward(d: Devices, d': Devices) {
    forall node: NodeId :: GetOr(d.lastLocal, node, 0) <= GetOr(d'.lastLocal, node, 0)
  }

  lemma StepClocks<L>(p: Prog<L>, w: World<L>, tape: EntropyTape)
    ensures ClocksForward(w.devices, Step(p, w, tape).0.devices)
  {
    if !Halted(w) {
      if w.pool.current.Some? {
        var r := w.pool.current.value;
        if r.task in w.pool.tasks { RunCmdClocks(p, w, r, w.pool.tasks[r.task].node, tape); }
      } else {
        DispatchClocks(w.(agenda := Pop(w.agenda)), w.agenda.queue[0], tape);
      }
    }
  }

  lemma AwaitClocks<L>(w: World<L>, r: Running<L>, node: NodeId, what: Await, resume: Reply -> L)
    ensures ClocksForward(w.devices, PollAwait(w, r, node, what, resume).devices)
  {
    var d := PollAwait(w, r, node, what, resume).devices;
    assert d == w.devices || d == ReadClock(w, node).devices;
  }

  lemma LocalCmdClocks<L>(p: Prog<L>, w: World<L>, r: Running<L>, node: NodeId, op: Op<L>, resume: Reply -> L)
    requires !op.Send? && !op.Spawn?
    ensures ClocksForward(w.devices, LocalCmd(p, w, r, node, op, resume).devices)
  {
    var d := LocalCmd(p, w, r, node, op, resume).devices;
    assert d.lastLocal == w.devices.lastLocal || d == ReadClock(w, node).devices;
  }

  lemma RunCmdClocks<L>(p: Prog<L>, w: World<L>, r: Running<L>, node: NodeId, tape: EntropyTape)
    ensures ClocksForward(w.devices, RunCmd(p, w, r, node, tape).0.devices)
  {
    match p.next(r.fut.local)
    case Finish(output) =>
    case Pause(what, resume) => AwaitClocks(w, r, node, what, resume);
    case Do(op, resume) =>
      if !op.Send? && !op.Spawn? { LocalCmdClocks(p, w, r, node, op, resume); }
  }

  lemma FaultClocks<L>(w: World<L>, e: Event, action: NemesisAction)
    ensures DispatchFault(w, e, action).devices.lastLocal == w.devices.lastLocal
  {
  }

  lemma DispatchClocks<L>(w: World<L>, e: Event, tape: EntropyTape)
    ensures ClocksForward(w.devices, Dispatch(w, e, tape).0.devices)
  {
    if e.kind.Fault? {
      FaultClocks(w, e, e.kind.action);
    }
    assert Dispatch(w, e, tape).0.devices.lastLocal == w.devices.lastLocal;
  }

  // No node ever sees its own clock go backwards, whatever skews are applied: a
  // reading is at least everything the node has read before.
  lemma {:induction false} LocalClockMonotone<L>(p: Prog<L>, w: World<L>, tape: EntropyTape, node: NodeId, n: nat)
    ensures var w' := Steps(p, w, tape, n).0;
            GetOr(w.devices.lastLocal, node, 0) <= GetOr(w'.devices.lastLocal, node, 0) <= LocalNow(w', node)
  {
    if n > 0 {
      LocalClockMonotone(p, w, tape, node, n - 1);
      var (w1, tape1) := Steps(p, w, tape, n - 1);
      StepClock(p, w1, tape1, node);
      assert Steps(p, w, tape, n) == Step(p, w1, tape1);
    }
    NotBeforeLastRead(Steps(p, w, tape, n).0, node);
  }

  lemma StepClock<L>(p: Prog<L>, w: World<L>, tape: EntropyTape, node: NodeId)
    ensures GetOr(w.devices.lastLocal, node, 0) <= GetOr(Step(p, w, tape).0.devices.lastLocal, node, 0)
  {
    StepClocks(p, w, tape);
  }

  lemma NotBeforeLastRead<L>(w: World<L>, node: NodeId)
    ensures GetOr(w.devices.lastLocal, node, 0) <= LocalNow(w, node)
  {
  }

  // ----- sleeping -----

  // A sleep that suspends with no live timer queues exactly one event: its timer,
  // at the later of now and the deadline taken back by the skew.
  lemma SleepArmsOneTimer<L>(p: Prog<L>, w: World<L>, r: Running<L>, node: NodeId, deadline: nat, resume: Reply -> L)
    requires LocalNow(w, node) < deadline
    requires r.fut.timer.Some? ==> r.fut.timer.value !in w.wakers.timers
    ensures var w' := PollSleep(w, r, node, deadline, resume);
            var due := Event(GlobalDeadline(w, node, deadline), w.agenda.seqno, TimerFire(w.wakers.nextTimer));
            && (forall e :: e in w'.agenda.queue <==> e in w.agenda.queue || e == due)
            && w'.wakers.timers == w.wakers.timers[w.wakers.nextTimer := r.task]
  {
    InsertMembers(w.agenda.queue,
                  Event(GlobalDeadline(w, node, deadline), w.agenda.seqno, TimerFire(w.wakers.nextTimer)));
  }
}
