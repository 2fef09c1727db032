// What the shipped plans give a simulator that asks them, told by the values they
// draw.
module PlannerLaws {
  import opened Base
  import opened Nemesis
  import opened Planners
  import opened Tape

  // ----- scripts -----

  lemma {:induction false} ScriptFrom(actions: seq<Timed>, past: seq<Turn>, view: WorldView, tape: EntropyTape,
                                      max: nat)
    ensures var (tape', _, out) := Consult(Script(actions), past, view, tape, max);
            var k := Min(|past|, |actions|);
            tape' == tape && out == actions[k..Min(k + max, |actions|)]
    decreases max
  {
    if max > 0 {
      var (tape1, past1, next) := Answer(Script(actions), past, view, tape);
      assert tape1 == tape && |past1| == |past| + 1;
      var k := |past|;
      if next.Some? {
        assert k < |actions| && next.value == actions[k];
        ScriptFrom(actions, past1, view, tape, max - 1);
        var end := Min(k + max, |actions|);
        assert [actions[k]] + actions[k + 1..end] == actions[k..end];
      }
    }
  }

  // A script gives its actions in order, as they are, and draws nothing.
  lemma ScriptGives(actions: seq<Timed>, view: WorldView, tape: EntropyTape, max: nat)
    ensures var (tape', _, out) := Consult(Script(actions), [], view, tape, max);
            tape' == tape && out == actions[..if max < |actions| then max else |actions|]
  {
    ScriptFrom(actions, [], view, tape, max);
  }

  // ----- one random link -----

  // A random link fault draws one value, and only that, to pick one of its
  // candidates, and sets that link up or down at its time.
  lemma LinkFaultGives(at: nat, candidates: seq<(NodeId, NodeId)>, up: bool, view: WorldView, tape: EntropyTape,
                       max: nat)
    ensures var (tape', _, out) := Consult(LinkFault(at, candidates, up), [], view, tape, max);
            if max == 0 || candidates == [] then tape' == tape && out == []
            else
              var edge := candidates[NextValue(tape) % |candidates|];
              tape' == Draw(tape, PartitionDraw).0 && out == [Timed(at, SetLink(edge.0, edge.1, up))]
  {
    var plan := LinkFault(at, candidates, up);
    if max > 0 && candidates != [] {
      DrawsOnce(plan, [], view, tape, PartitionDraw);
      var (tape1, past1, next) := Answer(plan, [], view, tape);
      assert past1 == [Turn(view, [NextValue(tape)])];
      assert max > 1 ==> Answer(plan, past1, view, tape1).2.None? && Answer(plan, past1, view, tape1).0 == tape1;
      assert Consult(plan, past1, view, tape1, max - 1).2 == [];
    }
  }

  // ----- random partitions -----

  lemma {:induction false} TimeIs(p: Partitions, k: nat)
    requires p.start <= U64_MAX
    ensures TimeOf(p, k) == Min(p.start + k * p.interval, U64_MAX)
  {
    if k > 0 {
      TimeIs(p, k - 1);
      assert k * p.interval == (k - 1) * p.interval + p.interval;
    }
  }

  // The live nodes in ascending order.
  ghost predicate AreLive(view: WorldView, live: seq<NodeId>) {
    StrictlyIncreasing(live) && forall n :: n in live <==> n in view.nodes && n !in view.crashed
  }

  // The k-th split of the plan cuts the live nodes in two where its draw says.
  ghost predicate IsSplit(p: Partitions, live: seq<NodeId>, k: nat, drawn: nat, t: Timed)
    requires |live| >= 2
  {
    var pivot := 1 + drawn % (|live| - 1);
    t == Timed(Min(p.start + k * p.interval, U64_MAX), Partition([live[..pivot], live[pivot..]]))
  }

  lemma SplitIs(p: Partitions, past: seq<Turn>, view: WorldView, v: nat)
    requires p.start <= U64_MAX && MaySplit(p, SplitsMade(p, past), view)
    ensures var past' := past + [Turn(view, [v])];
            && SplitsMade(p, past') == SplitsMade(p, past) + 1 && SplitAnswer(p, past').Some?
            && IsSplit(p, LiveNodes(view), SplitsMade(p, past), v, SplitAnswer(p, past').value)
  {
    var past' := past + [Turn(view, [v])];
    assert past'[..|past'| - 1] == past;
    TimeIs(p, SplitsMade(p, past));
  }

  lemma SplitMade(p: Partitions, past: seq<Turn>, view: WorldView, tape: EntropyTape)
    requires p.start <= U64_MAX && MaySplit(p, SplitsMade(p, past), view)
    ensures var (tape', past', next) := Answer(RandomSplits(p), past, view, tape);
            && tape' == Draw(tape, PartitionDraw).0 && SplitsMade(p, past') == SplitsMade(p, past) + 1
            && next.Some? && IsSplit(p, LiveNodes(view), SplitsMade(p, past), NextValue(tape), next.value)
  {
    DrawsOnce(RandomSplits(p), past, view, tape, PartitionDraw);
    SplitIs(p, past, view, NextValue(tape));
  }

  lemma SplitRefused(p: Partitions, past: seq<Turn>, view: WorldView, tape: EntropyTape)
    requires !MaySplit(p, SplitsMade(p, past), view)
    ensures var (tape', past', next) := Answer(RandomSplits(p), past, view, tape); tape' == tape && next.None?
  {
    var (_, past', _) := Answer(RandomSplits(p), past, view, tape);
    assert past'[..|past'| - 1] == past;
  }

  // The splits given from the k-th on, with the values drawn for them.
  ghost predicate AreSplits(p: Partitions, live: seq<NodeId>, k: nat, drawn: seq<nat>, out: seq<Timed>) {
    |drawn| == |out| && (out != [] ==> |live| >= 2)
    && forall i :: 0 <= i < |out| ==> IsSplit(p, live, k + i, drawn[i], out[i])
  }

  lemma OneMoreSplit(p: Partitions, live: seq<NodeId>, k: nat, v: nat, first: Timed, drawn: seq<nat>, rest: seq<Timed>)
    requires |live| >= 2 && IsSplit(p, live, k, v, first) && AreSplits(p, live, k + 1, drawn, rest)
    ensures AreSplits(p, live, k, [v] + drawn, [first] + rest)
  {
    forall i | 0 <= i < |rest| + 1 ensures IsSplit(p, live, k + i, ([v] + drawn)[i], ([first] + rest)[i]) {
      if i > 0 { assert IsSplit(p, live, k + 1 + (i - 1), drawn[i - 1], rest[i - 1]); }
    }
  }

  // The splits a plan gives when `made` were given before, and how many.
  ghost predicate Gives(p: Partitions, live: seq<NodeId>, made: nat, max: nat, log: seq<nat>, log': seq<nat>,
                        out: seq<Timed>) {
    && log <= log' && AreSplits(p, live, made, log'[|log|..], out)
    && |out| == if |live| < 2 || p.actions <= made then 0 else Min(max, p.actions - made)
  }

  lemma GivesOneMore(p: Partitions, live: seq<NodeId>, made: nat, max: nat, log: seq<nat>, v: nat, log': seq<nat>,
                     first: Timed, rest: seq<Timed>)
    requires |live| >= 2 && made < p.actions && max > 0 && IsSplit(p, live, made, v, first)
    requires Gives(p, live, made + 1, max - 1, log + [v], log', rest)
    ensures Gives(p, live, made, max, log, log', [first] + rest)
  {
    var drawn := log'[|log| + 1..];
    OneMoreSplit(p, live, made, v, first, drawn, rest);
    assert log'[|log|..] == [v] + drawn;
  }

  lemma {:induction false} SplitsFrom(p: Partitions, past: seq<Turn>, view: WorldView, tape: EntropyTape, max: nat)
    requires p.start <= U64_MAX
    ensures var (tape', _, out) := Consult(RandomSplits(p), past, view, tape, max);
            Gives(p, LiveNodes(view), SplitsMade(p, past), max, tape.log, tape'.log, out)
    decreases max
  {
    if max > 0 {
      ConsultStep(RandomSplits(p), past, view, tape, max);
      var (tape1, past1, next) := Answer(RandomSplits(p), past, view, tape);
      var (tape', _, out) := Consult(RandomSplits(p), past, view, tape, max);
      if MaySplit(p, SplitsMade(p, past), view) {
        SplitMade(p, past, view, tape);
        SplitsFrom(p, past1, view, tape1, max - 1);
        GivesOneMore(p, LiveNodes(view), SplitsMade(p, past), max, tape.log, NextValue(tape), tape'.log, next.value,
                     out[1..]);
        assert out == [next.value] + out[1..];
      } else {
        SplitRefused(p, past, view, tape);
      }
    }
  }

  // A random partition plan gives its splits one interval apart, each drawing one
  // value to cut the live nodes, as long as two of them are left.
  lemma SplitsGiven(p: Partitions, view: WorldView, tape: EntropyTape, max: nat) returns (live: seq<NodeId>)
    requires p.start <= U64_MAX
    ensures AreLive(view, live)
    ensures var (tape', _, out) := Consult(RandomSplits(p), [], view, tape, max);
            && tape.log <= tape'.log && AreSplits(p, live, 0, tape'.log[|tape.log|..], out)
            && |out| == if |live| < 2 then 0 else Min(max, p.actions)
  {
    live := LiveNodes(view);
    AscendingSorts(view.nodes - view.crashed);
    AscendingMembers(view.nodes - view.crashed);
    SplitsFrom(p, [], view, tape, max);
  }
}
