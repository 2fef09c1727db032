// Replay fidelity: a run replayed from a recording of another run is that run.
module SimReplay {
  import opened Base
  import opened Nemesis
  import opened Planners
  import opened Tape
  import opened Queue
  import opened Sim

  // The generator has logged at least this much.
  ghost predicate Extends(t: EntropyTape, t': EntropyTape) {
    t.Generate? && t'.Generate? && t.log <= t'.log
  }

  // Two results agree on the world, and their tapes still correspond.
  ghost predicate Same<T>(a: (T, EntropyTape), b: (T, EntropyTape), recording: seq<nat>) {
    a.0 == b.0 && Mirrors(a.1, b.1) && b.1.tape == recording
  }

  // ----- the draws a step can make -----

  lemma DelaySame(g: EntropyTape, r: EntropyTape, extra: nat)
    requires Mirrors(g, r)
    ensures Extends(g, DrawDelay(g, extra).0)
    ensures DrawDelay(g, extra).0.log <= r.tape ==> Same(
              (DrawDelay(g, extra).1, DrawDelay(g, extra).0), (DrawDelay(r, extra).1, DrawDelay(r, extra).0), r.tape)
  {
    var g1 := Draw(g, NetDelay).0;
    if DrawDelay(g, extra).0.log <= r.tape {
      assert g1.log <= DrawDelay(g, extra).0.log;
      DrawMirrors(g, r, NetDelay);
      if extra != 0 {
        DrawMirrors(g1, Draw(r, NetDelay).0, ExtraDelay);
      }
    }
  }

  lemma PercentSame(g: EntropyTape, r: EntropyTape, percent: nat, tag: TapeLabel)
    requires Mirrors(g, r)
    ensures Extends(g, DrawPercent(g, percent, tag).0)
    ensures DrawPercent(g, percent, tag).0.log <= r.tape ==> Same(
              (DrawPercent(g, percent, tag).1, DrawPercent(g, percent, tag).0),
              (DrawPercent(r, percent, tag).1, DrawPercent(r, percent, tag).0), r.tape)
  {
    if percent != 0 && DrawPercent(g, percent, tag).0.log <= r.tape {
      DrawMirrors(g, r, tag);
    }
  }

  lemma ArrivalsSame(g: EntropyTape, r: EntropyTape, f: Faults, now: nat)
    requires Mirrors(g, r)
    ensures var a, b := DrawArrivals(g, f, now), DrawArrivals(r, f, now);
            && Extends(g, a.0)
            && (a.0.log <= r.tape ==> Same(((a.1, a.2), a.0), ((b.1, b.2), b.0), r.tape))
  {
    var a := DrawArrivals(g, f, now);
    DelaySame(g, r, f.extraDelayMs);
    var g1 := DrawDelay(g, f.extraDelayMs).0;
    var g2 := DrawPercent(g1, f.duplicatePercent, DuplicateDecision).0;
    assert g1.log <= g2.log <= a.0.log;
    if a.0.log <= r.tape {
      var r1 := DrawDelay(r, f.extraDelayMs).0;
      PercentSame(g1, r1, f.duplicatePercent, DuplicateDecision);
      if DrawPercent(g1, f.duplicatePercent, DuplicateDecision).1 {
        DrawMirrors(g2, DrawPercent(r1, f.duplicatePercent, DuplicateDecision).0, ExtraDelay);
      }
    }
  }

  // ----- steps -----

  lemma RunCmdSame<L>(p: Prog<L>, w: World<L>, u: Running<L>, node: NodeId, g: EntropyTape, r: EntropyTape)
    requires Mirrors(g, r)
    ensures Extends(g, RunCmd(p, w, u, node, g).1)
    ensures RunCmd(p, w, u, node, g).1.log <= r.tape ==>
              Same(RunCmd(p, w, u, node, g), RunCmd(p, w, u, node, r), r.tape)
  {
    ArrivalsSame(g, r, w.devices.faults, w.agenda.now);
  }

  lemma DispatchSame<L>(w: World<L>, e: Event, g: EntropyTape, r: EntropyTape)
    requires Mirrors(g, r)
    ensures Extends(g, Dispatch(w, e, g).1)
    ensures Dispatch(w, e, g).1.log <= r.tape ==> Same(Dispatch(w, e, g), Dispatch(w, e, r), r.tape)
  {
    PercentSame(g, r, w.devices.faults.dropPercent, DropDecision);
  }

  lemma StepSame<L>(p: Prog<L>, w: World<L>, g: EntropyTape, r: EntropyTape)
    requires Mirrors(g, r)
    ensures Extends(g, Step(p, w, g).1)
    ensures Step(p, w, g).1.log <= r.tape ==> Same(Step(p, w, g), Step(p, w, r), r.tape)
  {
    if !Halted(w) {
      if w.pool.current.Some? {
        var u := w.pool.current.value;
        if u.task in w.pool.tasks { RunCmdSame(p, w, u, w.pool.tasks[u.task].node, g, r); }
      } else {
        DispatchSame(w.(agenda := Pop(w.agenda)), w.agenda.queue[0], g, r);
      }
    }
  }

  lemma {:induction false} DrawOnSame(plan: Planner, past: seq<Turn>, view: WorldView, g: EntropyTape,
                                      r: EntropyTape, drawn: seq<nat>)
    requires Mirrors(g, r) && DrawOn(plan, past, view, g, drawn).0.log <= r.tape
    ensures Same((DrawOn(plan, past, view, g, drawn).1, DrawOn(plan, past, view, g, drawn).0),
                 (DrawOn(plan, past, view, r, drawn).1, DrawOn(plan, past, view, r, drawn).0), r.tape)
    decreases plan.most(past, view) - |drawn|
  {
    match NextLabel(plan, past, view, drawn)
    case None =>
    case Some(tag) =>
      var (g1, v) := Draw(g, tag);
      GrowsByDraws(plan, past, view, g1, drawn + [v]);
      DrawMirrors(g, r, tag);
      DrawOnSame(plan, past, view, g1, Draw(r, tag).0, drawn + [v]);
  }

  lemma {:induction false} GrowsByDraws(plan: Planner, past: seq<Turn>, view: WorldView, g: EntropyTape,
                                        drawn: seq<nat>)
    requires g.Generate?
    ensures Extends(g, DrawOn(plan, past, view, g, drawn).0)
    decreases plan.most(past, view) - |drawn|
  {
    match NextLabel(plan, past, view, drawn)
    case None =>
    case Some(tag) => GrowsByDraws(plan, past, view, Draw(g, tag).0, drawn + [Draw(g, tag).1]);
  }

  // A plan draws and answers alike, the draws of an action it never gives included.
  lemma {:induction false} ConsultSame(plan: Planner, past: seq<Turn>, view: WorldView, g: EntropyTape,
                                       r: EntropyTape, max: nat)
    requires Mirrors(g, r) && Consult(plan, past, view, g, max).0.log <= r.tape
    ensures Same((Consult(plan, past, view, g, max).2, Consult(plan, past, view, g, max).0),
                 (Consult(plan, past, view, r, max).2, Consult(plan, past, view, r, max).0), r.tape)
    decreases max
  {
    if max > 0 {
      var (g1, past1, next) := Answer(plan, past, view, g);
      GrowsByDraws(plan, past, view, g, []);
      if next.Some? { GrowsByConsult(plan, past1, view, g1, max - 1); }
      DrawOnSame(plan, past, view, g, r, []);
      if next.Some? { ConsultSame(plan, past1, view, g1, Answer(plan, past, view, r).0, max - 1); }
    }
  }

  lemma {:induction false} GrowsByConsult(plan: Planner, past: seq<Turn>, view: WorldView, g: EntropyTape, max: nat)
    requires g.Generate?
    ensures Extends(g, Consult(plan, past, view, g, max).0)
    decreases max
  {
    if max > 0 {
      GrowsByDraws(plan, past, view, g, []);
      var (g1, past1, next) := Answer(plan, past, view, g);
      if next.Some? { GrowsByConsult(plan, past1, view, g1, max - 1); }
    }
  }

  lemma ConfigureSame<L>(w: World<L>, s: Setup<L>, g: EntropyTape, r: EntropyTape)
    requires Mirrors(g, r)
    ensures Extends(g, Configure(w, s, g).1)
    ensures Configure(w, s, g).1.log <= r.tape ==> Same(Configure(w, s, g), Configure(w, s, r), r.tape)
  {
    GrowsByConfigure(w, s, g);
    if s.PlanFaults? && Configure(w, s, g).1.log <= r.tape {
      ConsultSame(s.plan, [], ViewOf(w), g, r, s.max);
    }
  }

  // ----- whole runs -----

  lemma {:induction false} PrepareSame<L>(setup: seq<Setup<L>>, stream: nat -> nat, recording: seq<nat>)
    ensures Prepare(setup, Generating(stream)).1.Generate?
    ensures Prepare(setup, Generating(stream)).1.log <= recording ==>
              Same(Prepare(setup, Generating(stream)), Prepare(setup, Replaying(recording)), recording)
  {
    if setup != [] {
      var front, last := setup[..|setup| - 1], setup[|setup| - 1];
      PrepareSame(front, stream, recording);
      var (w, g) := Prepare(front, Generating(stream));
      GrowsByConfigure(w, last, g);
      if Prepare(setup, Generating(stream)).1.log <= recording {
        var r := Prepare(front, Replaying(recording)).1;
        ConfigureSame(w, last, g, r);
      }
    }
  }

  lemma GrowsByConfigure<L>(w: World<L>, s: Setup<L>, g: EntropyTape)
    requires g.Generate?
    ensures Extends(g, Configure(w, s, g).1)
  {
    if s.PlanFaults? {
      GrowsByConsult(s.plan, [], ViewOf(w), g, s.max);
    }
  }

  lemma GrowsByStep<L>(p: Prog<L>, w: World<L>, g: EntropyTape)
    requires g.Generate?
    ensures Extends(g, Step(p, w, g).1)
  {
    StepSame(p, w, g, Replay(g.log, |g.log|, g.log, g.events));
  }

  lemma {:induction false} StepsSame<L>(p: Prog<L>, w: World<L>, g: EntropyTape, r: EntropyTape, n: nat)
    requires g.Generate?
    ensures Extends(g, Steps(p, w, g, n).1)
    ensures Steps(p, w, g, n).1.log <= (if r.Replay? then r.tape else []) && Mirrors(g, r) ==>
              Same(Steps(p, w, g, n), Steps(p, w, r, n), r.tape)
  {
    if n > 0 {
      StepsSame(p, w, g, r, n - 1);
      var (w1, g1) := Steps(p, w, g, n - 1);
      GrowsByStep(p, w1, g1);
      if r.Replay? && Steps(p, w, g, n).1.log <= r.tape && Mirrors(g, r) {
        assert g1.log <= r.tape;
        StepSame(p, w1, g1, Steps(p, w, r, n - 1).1);
      }
    }
  }

  function RunFrom<L>(p: Prog<L>, setup: seq<Setup<L>>, tape: EntropyTape, n: nat): (World<L>, EntropyTape) {
    var (w, tape') := Prepare(setup, tape);
    Steps(p, w, tape', n)
  }

  // After every number of steps, a generating run and a replay of any tape that
  // extends its log agree on the whole world, the log and its labels.
  lemma ReplayFidelity<L>(p: Prog<L>, setup: seq<Setup<L>>, stream: nat -> nat, recording: seq<nat>, n: nat)
    requires RunFrom(p, setup, Generating(stream), n).1.log <= recording
    ensures Same(RunFrom(p, setup, Generating(stream), n), RunFrom(p, setup, Replaying(recording), n), recording)
  {
    var (w, g) := Prepare(setup, Generating(stream));
    var r := Prepare(setup, Replaying(recording)).1;
    PrepareSame(setup, stream, recording);
    StepsSame(p, w, g, r, n);
    assert g.log <= Steps(p, w, g, n).1.log;
  }

  // Replaying exactly the log consumes all of it and never runs past its end.
  lemma ReplayConsumesLog<L>(p: Prog<L>, setup: seq<Setup<L>>, stream: nat -> nat, n: nat)
    ensures var g := RunFrom(p, setup, Generating(stream), n).1;
            var r := RunFrom(p, setup, Replaying(g.log), n);
            && r.0 == RunFrom(p, setup, Generating(stream), n).0
            && r.1.log == g.log && r.1.events == g.events
            && Diagnose(r.1) == Diagnostics(true, Some(|g.log|), |g.log|, true, false)
  {
    var g := RunFrom(p, setup, Generating(stream), n).1;
    ReplayFidelity(p, setup, stream, g.log, n);
  }

  // The reports of the two runs differ in nothing but how the tape was read.
  lemma ReplayReportsSame<L>(p: Prog<L>, setup: seq<Setup<L>>, stream: nat -> nat, n: nat)
    ensures var (w, g) := RunFrom(p, setup, Generating(stream), n);
            var (w', r) := RunFrom(p, setup, Replaying(g.log), n);
            ReportOf(p, w', r) == ReportOf(p, w, g).(tape := Diagnostics(true, Some(|g.log|), |g.log|, true, false))
  {
    ReplayConsumesLog(p, setup, stream, n);
  }
}
