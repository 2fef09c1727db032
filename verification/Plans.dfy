// Fault plans in place. Each class is proved to draw and answer as the planner it
// carries out does.
module Plans {
  import opened Base
  import opened Merge
  import opened Nemesis
  import opened Planners
  import opened Refill
  import opened Tape

  class ScriptedPlan {
    const actions: seq<Timed>
    var cursor: nat
    ghost var past: seq<Turn>

    ghost predicate Valid()
      reads this
    {
      cursor == Min(|past|, |actions|)
    }

    constructor (actions: seq<Timed>)
      ensures Valid() && this.actions == actions && past == []
    {
      this.actions, cursor, past := actions, 0, [];
    }

    method NextAction(view: WorldView, tape: EntropyTape) returns (rest: EntropyTape, next: Option<Timed>)
      requires Valid()
      modifies this
      ensures Valid() && (rest, past, next) == Answer(Script(actions), old(past), view, tape)
    {
      rest := tape;
      next := if cursor < |actions| then Some(actions[cursor]) else None;
      cursor := cursor + (if next.Some? then 1 else 0);
      past := past + [Turn(view, [])];
    }
  }

  method DrawOnce(tape: EntropyTape, tag: TapeLabel) returns (rest: EntropyTape, v: nat)
    ensures (rest, v) == Draw(tape, tag)
  {
    var (tape', value) := Draw(tape, tag);
    rest, v := tape', value;
  }

  class RandomLinkFault {
    const at: nat
    const candidates: seq<(NodeId, NodeId)>
    const up: bool
    var emitted: bool
    ghost var past: seq<Turn>

    ghost predicate Valid()
      reads this
    {
      emitted <==> past != [] && candidates != []
    }

    constructor (at: nat, candidates: seq<(NodeId, NodeId)>, up: bool)
      ensures Valid() && this.at == at && this.candidates == candidates && this.up == up && past == []
    {
      this.at, this.candidates, this.up, emitted, past := at, candidates, up, false, [];
    }

    method NextAction(view: WorldView, tape: EntropyTape) returns (rest: EntropyTape, next: Option<Timed>)
      requires Valid()
      modifies this
      ensures Valid() && (rest, past, next) == Answer(LinkFault(at, candidates, up), old(past), view, tape)
    {
      if emitted || candidates == [] {
        past := past + [Turn(view, [])];
        return tape, None;
      }
      DrawsOnce(LinkFault(at, candidates, up), past, view, tape, PartitionDraw);
      emitted := true;
      var v;
      rest, v := DrawOnce(tape, PartitionDraw);
      next := Some(LinkDrawn(at, candidates, up, v));
      past := past + [Turn(view, [v])];
    }
  }

  class RandomPartition {
    var nextAt: nat
    const interval: nat
    var remaining: nat
    ghost const whole: Partitions
    ghost var past: seq<Turn>

    ghost predicate Valid()
      reads this
    {
      && whole.interval == interval
      && remaining + SplitsMade(whole, past) == whole.actions && nextAt == TimeOf(whole, SplitsMade(whole, past))
    }

    constructor (start: nat, interval: nat, actions: nat)
      ensures Valid() && whole == Partitions(start, interval, actions) && past == []
    {
      nextAt, this.interval, remaining := start, interval, actions;
      whole, past := Partitions(start, interval, actions), [];
    }

    method NextAction(view: WorldView, tape: EntropyTape) returns (rest: EntropyTape, next: Option<Timed>)
      requires Valid()
      modifies this
      ensures Valid() && (rest, past, next) == Answer(RandomSplits(whole), old(past), view, tape)
    {
      if remaining == 0 {
        Quiet(view);
        return tape, None;
      }
      var nodes := LiveNodes(view);
      if |nodes| < 2 {
        Quiet(view);
        return tape, None;
      }
      DrawsOnce(RandomSplits(whole), past, view, tape, PartitionDraw);
      remaining := remaining - 1;
      var at := nextAt;
      nextAt := SatAdd(nextAt, interval);
      var v;
      rest, v := DrawOnce(tape, PartitionDraw);
      var pivot := 1 + v % (|nodes| - 1);
      next := Some(Timed(at, Partition([nodes[..pivot], nodes[pivot..]])));
      ghost var before := past;
      past := past + [Turn(view, [v])];
      assert past[..|past|-1] == before;
    }

    ghost method Quiet(view: WorldView)
      requires Valid() && !MaySplit(whole, SplitsMade(whole, past), view)
      modifies `past
      ensures Valid() && past == old(past) + [Turn(view, [])] && SplitAnswer(whole, past).None?
    {
      past := past + [Turn(view, [])];
      assert past[..|past|-1] == old(past);
    }
  }

  // Any deterministic plan: it makes its draws one by one and answers.
  class Plan {
    const rule: Planner
    var past: seq<Turn>

    constructor (rule: Planner)
      ensures this.rule == rule && past == []
    {
      this.rule, past := rule, [];
    }

    method NextAction(view: WorldView, tape: EntropyTape) returns (rest: EntropyTape, next: Option<Timed>)
      modifies this
      ensures (rest, past, next) == Answer(rule, old(past), view, tape)
    {
      var drawn: seq<nat> := [];
      rest := tape;
      var wants := NextLabel(rule, past, view, drawn);
      while wants.Some?
        invariant past == old(past) && wants == NextLabel(rule, past, view, drawn)
        invariant DrawOn(rule, past, view, rest, drawn) == DrawOn(rule, past, view, tape, [])
        decreases rule.most(past, view) - |drawn|
      {
        var (tape', v) := Draw(rest, wants.value);
        rest, drawn := tape', drawn + [v];
        wants := NextLabel(rule, past, view, drawn);
      }
      past := past + [Turn(view, drawn)];
      next := rule.act(past);
    }
  }

  class Composite {
    const plans: seq<Plan>
    var pending: map<nat, Timed>
    ghost var past: seq<Turn>

    ghost function Children(): (r: seq<Planner>)
      ensures |r| == |plans|
    {
      seq(|plans|, i requires 0 <= i < |plans| => plans[i].rule)
    }

    // The children and the pending actions stand as b says.
    ghost predicate Stands(b: Blend)
      reads this, plans
    {
      && Distinct(plans) && |b.pasts| == |plans| && pending == b.pending
      && forall i :: 0 <= i < |plans| ==> plans[i].past == b.pasts[i]
    }

    ghost predicate Valid()
      reads this, plans
    {
      Stands(BlendAfter(Children(), past))
    }

    constructor (plans: seq<Plan>)
      requires Distinct(plans) && forall i :: 0 <= i < |plans| ==> plans[i].past == []
      ensures Valid() && this.plans == plans && past == []
    {
      this.plans, pending, past := plans, map[], [];
    }

    // What is drawn and how the children stand once those from idx on are asked.
    ghost function Asked(b: Blend, view: WorldView, tape: EntropyTape, idx: nat): (EntropyTape, seq<nat>, Blend)
      requires |b.pasts| == |plans| && idx <= |plans|
    {
      var (rest, drawn) := RefillDraw(Children(), b, view, tape, idx);
      (rest, drawn, Refilled(Children(), b, view, drawn, idx))
    }

    method Pull(idx: nat, view: WorldView, tape: EntropyTape, ghost b: Blend)
      returns (rest: EntropyTape, ghost mine: seq<nat>, ghost c: Blend)
      requires idx < |plans| && Stands(b) && idx !in pending
      modifies `pending, plans[idx]
      ensures Stands(c)
      ensures Asked(b, view, tape, idx).0 == Asked(c, view, rest, idx + 1).0
      ensures Asked(b, view, tape, idx).1 == mine + Asked(c, view, rest, idx + 1).1
      ensures Asked(b, view, tape, idx).2 == Asked(c, view, rest, idx + 1).2
    {
      mine := DrawOn(plans[idx].rule, plans[idx].past, view, tape, []).1;
      c := Answered(Children()[idx], b, idx, Turn(view, mine));
      RefillStep(Children(), b, view, idx, tape);
      var next;
      rest, next := plans[idx].NextAction(view, tape);
      if next.Some? {
        pending := pending[idx := next.value];
      }
    }

    // Every child with nothing pending is asked, in turn.
    method Refill(view: WorldView, tape: EntropyTape, ghost b: Blend) returns (rest: EntropyTape, ghost drawn: seq<nat>)
      requires Stands(b)
      modifies `pending, plans
      ensures (rest, drawn) == RefillDraw(Children(), b, view, tape, 0)
      ensures Stands(Refilled(Children(), b, view, drawn, 0))
    {
      ghost var cur, goal := b, Asked(b, view, tape, 0);
      rest, drawn := tape, [];
      for idx := 0 to |plans|
        invariant Stands(cur) && Asked(cur, view, rest, idx).0 == goal.0
        invariant drawn + Asked(cur, view, rest, idx).1 == goal.1 && Asked(cur, view, rest, idx).2 == goal.2
      {
        if idx in pending {
          continue;
        }
        ghost var mine;
        rest, mine, cur := Pull(idx, view, rest, cur);
        MoveAcross(drawn, mine, Asked(cur, view, rest, idx + 1).1);
        drawn := drawn + mine;
      }
      assert Asked(cur, view, rest, |plans|) == (rest, [], cur) && drawn + [] == drawn;
    }

    method Select(ghost b: Blend) returns (selected: Option<nat>)
      requires Stands(b)
      ensures selected == Pick(Heads(|plans|, b.pending))
    {
      selected := None;
      for idx := 0 to |plans|
        invariant selected == PickBelow(Heads(|plans|, b.pending), idx)
      {
        if idx in pending
           && (selected.None? || pending[idx].time < pending[selected.value].time) {
          selected := Some(idx);
        }
      }
    }

    // The earliest pending action comes out.
    method Emit(ghost f: Blend) returns (next: Option<Timed>)
      requires Stands(f)
      modifies `pending
      ensures Stands(Selected(|plans|, f).0) && next == TimedOf(Selected(|plans|, f).1)
    {
      var selected := Select(f);
      if selected.None? {
        return None;
      }
      next := Some(pending[selected.value]);
      pending := pending - {selected.value};
    }

    method NextAction(view: WorldView, tape: EntropyTape) returns (rest: EntropyTape, next: Option<Timed>)
      requires Valid()
      modifies this, plans
      ensures Valid() && (rest, past, next) == Answer(Merged(Children()), old(past), view, tape)
    {
      ghost var b, drawn := BlendAfter(Children(), past), [];
      MergedDrawsInTurn(Children(), past, view, tape);
      rest, drawn := Refill(view, tape, b);
      next := Emit(Refilled(Children(), b, view, drawn, 0));
      past := past + [Turn(view, drawn)];
      assert past[..|past|-1] == old(past);
    }
  }
}
