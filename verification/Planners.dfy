// Fault plans as values. A plan is asked for its next action again and again;
// what it draws and what it answers are functions of the turns it has had.
module Planners {
  import opened Base
  import opened Nemesis
  import opened Tape

  // What a plan may look at.
  datatype WorldView = WorldView(now: nat, nodes: set<NodeId>, crashed: set<NodeId>, matrix: Matrix)

  datatype Timed = Timed(time: nat, action: NemesisAction)

  // One time a plan was asked: what it saw and the values it drew.
  datatype Turn = Turn(view: WorldView, drawn: seq<nat>)

  // The label of the next value a plan draws, given those drawn for this answer,
  // or none; how many values at most go into one answer; and the answer. A value
  // is one of finitely many, so a plan that always stops drawing has such a bound.
  datatype Planner =
    Planner(wants: (seq<Turn>, WorldView, seq<nat>) -> Option<TapeLabel>, most: (seq<Turn>, WorldView) -> nat,
            act: seq<Turn> -> Option<Timed>)

  // ----- asking -----

  function NextLabel(plan: Planner, past: seq<Turn>, view: WorldView, drawn: seq<nat>): Option<TapeLabel> {
    if |drawn| < plan.most(past, view) then plan.wants(past, view, drawn) else None
  }

  function DrawOn(plan: Planner, past: seq<Turn>, view: WorldView, tape: EntropyTape, drawn: seq<nat>)
    : (EntropyTape, seq<nat>)
    decreases plan.most(past, view) - |drawn|
  {
    match NextLabel(plan, past, view, drawn)
    case None => (tape, drawn)
    case Some(tag) =>
      var (tape', v) := Draw(tape, tag);
      DrawOn(plan, past, view, tape', drawn + [v])
  }

  lemma DrawsOnce(plan: Planner, past: seq<Turn>, view: WorldView, tape: EntropyTape, tag: TapeLabel)
    requires plan.most(past, view) == 1 && plan.wants(past, view, []) == Some(tag)
    ensures var (tape', v) := Draw(tape, tag);
            var past' := past + [Turn(view, [v])];
            Answer(plan, past, view, tape) == (tape', past', plan.act(past'))
  {
    var (tape', v) := Draw(tape, tag);
    var none: seq<nat> := [];
    assert none + [v] == [v];
    assert DrawOn(plan, past, view, tape, none) == DrawOn(plan, past, view, tape', none + [v]) == (tape', [v]);
  }

  // The tape afterwards, the plan's turns with this one, and its answer.
  function Answer(plan: Planner, past: seq<Turn>, view: WorldView, tape: EntropyTape)
    : (EntropyTape, seq<Turn>, Option<Timed>)
  {
    var (tape', drawn) := DrawOn(plan, past, view, tape, []);
    var past' := past + [Turn(view, drawn)];
    (tape', past', plan.act(past'))
  }

  // A plan asked until it has given `max` actions or gives none.
  function Consult(plan: Planner, past: seq<Turn>, view: WorldView, tape: EntropyTape, max: nat)
    : (EntropyTape, seq<Turn>, seq<Timed>)
    decreases max
  {
    if max == 0 then (tape, past, [])
    else
      var (tape1, past1, next) := Answer(plan, past, view, tape);
      match next
      case None => (tape1, past1, [])
      case Some(first) =>
        var (tape2, past2, rest) := Consult(plan, past1, view, tape1, max - 1);
        (tape2, past2, [first] + rest)
  }

  lemma ConsultStep(plan: Planner, past: seq<Turn>, view: WorldView, tape: EntropyTape, max: nat)
    requires max > 0
    ensures var (tape1, past1, next) := Answer(plan, past, view, tape);
            var all := Consult(plan, past, view, tape, max);
            match next
            case None => all == (tape1, past1, [])
            case Some(first) =>
              && all.2 != [] && all.2[0] == first
              && (all.0, all.1, all.2[1..]) == Consult(plan, past1, view, tape1, max - 1)
  {
  }

  // Every action the plan has given over its turns.
  function Made(plan: Planner, past: seq<Turn>): seq<Timed> {
    if past == [] then [] else Made(plan, past[..|past|-1]) + ToSeq(plan.act(past))
  }

  lemma {:induction false} ConsultMakes(plan: Planner, past: seq<Turn>, view: WorldView, tape: EntropyTape, max: nat)
    ensures var (_, past', out) := Consult(plan, past, view, tape, max);
            && Made(plan, past') == Made(plan, past) + out
            && |out| <= max && (|out| < max ==> past' != [] && plan.act(past').None?)
            && (OnlySaw(past, view) ==> OnlySaw(past', view))
    decreases max
  {
    if max > 0 {
      var (tape1, past1, next) := Answer(plan, past, view, tape);
      assert past1[..|past1|-1] == past;
      if next.Some? {
        ConsultMakes(plan, past1, view, tape1, max - 1);
        var rest := Consult(plan, past1, view, tape1, max - 1).2;
        assert Made(plan, past) + ([next.value] + rest) == (Made(plan, past) + [next.value]) + rest;
      }
    }
  }

  // ----- what may be asked of a plan -----

  ghost predicate OnlySaw(past: seq<Turn>, view: WorldView) {
    forall k :: 0 <= k < |past| ==> past[k].view == view
  }

  // Having once given no action the plan never gives one again.
  ghost predicate StaysStopped(plan: Planner, past: seq<Turn>) {
    forall k, m :: 0 < k <= m <= |past| && plan.act(past[..k]).None? ==> plan.act(past[..m]).None?
  }

  ghost predicate TimeSorted(list: seq<Timed>) {
    forall a, b :: 0 <= a < b < |list| ==> list[a].time <= list[b].time
  }

  // While it is shown the same world, the plan stops for good and gives its
  // actions in the order of their times.
  ghost predicate Punctual(plan: Planner, view: WorldView) {
    forall past: seq<Turn> :: OnlySaw(past, view) ==> StaysStopped(plan, past) && TimeSorted(Made(plan, past))
  }

  // ----- the plans there are -----

  function Script(actions: seq<Timed>): Planner {
    Planner((past: seq<Turn>, view: WorldView, drawn: seq<nat>) => None, (past: seq<Turn>, view: WorldView) => 0,
             (past: seq<Turn>) => if 0 < |past| <= |actions| then Some(actions[|past|-1]) else None)
  }

  lemma {:induction false} ScriptMakes(actions: seq<Timed>, past: seq<Turn>)
    ensures Made(Script(actions), past) == actions[..Min(|past|, |actions|)]
  {
    if past != [] {
      ScriptMakes(actions, past[..|past|-1]);
    }
  }

  // A script is punctual exactly when its actions are in the order of their times.
  lemma ScriptPunctualIff(actions: seq<Timed>, view: WorldView)
    ensures Punctual(Script(actions), view) <==> TimeSorted(actions)
  {
    if TimeSorted(actions) {
      forall past: seq<Turn> ensures TimeSorted(Made(Script(actions), past)) {
        ScriptMakes(actions, past);
      }
    }
    if Punctual(Script(actions), view) {
      var past := seq(|actions|, i => Turn(view, []));
      assert OnlySaw(past, view);
      ScriptMakes(actions, past);
      assert actions[..|actions|] == actions;
    }
  }

  function FirstOf(drawn: seq<nat>): nat {
    if drawn == [] then 0 else drawn[0]
  }

  function LinkDrawn(at: nat, candidates: seq<(NodeId, NodeId)>, up: bool, drawn: nat): Timed
    requires candidates != []
  {
    var edge := candidates[drawn % |candidates|];
    Timed(at, SetLink(edge.0, edge.1, up))
  }

  // Its draw is filed under the partition label, as the simulator does.
  function LinkFault(at: nat, candidates: seq<(NodeId, NodeId)>, up: bool): Planner {
    Planner((past: seq<Turn>, view: WorldView, drawn: seq<nat>) =>
              if past == [] && candidates != [] then Some(PartitionDraw) else None,
            (past: seq<Turn>, view: WorldView) => 1,
             (past: seq<Turn>) => if |past| == 1 && candidates != []
                                  then Some(LinkDrawn(at, candidates, up, FirstOf(past[0].drawn))) else None)
  }

  lemma {:induction false} LinkFaultMakes(at: nat, candidates: seq<(NodeId, NodeId)>, up: bool, past: seq<Turn>)
    ensures |Made(LinkFault(at, candidates, up), past)| <= 1
    ensures past == [] ==> Made(LinkFault(at, candidates, up), past) == []
  {
    if past != [] {
      LinkFaultMakes(at, candidates, up, past[..|past|-1]);
      if |past| > 1 {
        assert past[..|past|-1] != [];
      } else {
        assert past[..|past|-1] == [];
      }
    }
  }

  lemma LinkFaultPunctual(at: nat, candidates: seq<(NodeId, NodeId)>, up: bool, view: WorldView)
    ensures Punctual(LinkFault(at, candidates, up), view)
  {
    forall past: seq<Turn> ensures TimeSorted(Made(LinkFault(at, candidates, up), past)) {
      LinkFaultMakes(at, candidates, up, past);
    }
  }

  // ----- random partitions -----

  ghost predicate IsLeast(m: nat, s: set<nat>) {
    m in s && forall x :: x in s ==> m <= x
  }

  lemma {:induction false} HasLeast(s: set<nat>)
    requires s != {}
    ensures exists m :: IsLeast(m, s)
    decreases |s|
  {
    var x :| x in s;
    if s == {x} {
      assert IsLeast(x, s);
    } else {
      var rest := s - {x};
      assert s == rest + {x};
      HasLeast(rest);
      var m :| IsLeast(m, rest);
      var least := if x < m then x else m;
      forall y | y in s ensures least <= y {
        assert y == x || y in rest;
      }
      assert IsLeast(least, s);
    }
  }

  function Ascending(s: set<nat>): seq<nat>
    decreases |s|
  {
    if s == {} then []
    else
      HasLeast(s);
      var m :| m in s && forall x :: x in s ==> m <= x;
      [m] + Ascending(s - {m})
  }

  lemma LeastFirst(s: set<nat>)
    requires s != {}
    ensures IsLeast(Ascending(s)[0], s)
    ensures Ascending(s) == [Ascending(s)[0]] + Ascending(s - {Ascending(s)[0]})
  {
    HasLeast(s);
  }

  lemma {:induction false} AscendingMembers(s: set<nat>)
    ensures forall x :: x in Ascending(s) <==> x in s
    decreases |s|
  {
    if s != {} {
      LeastFirst(s);
      AscendingMembers(s - {Ascending(s)[0]});
    }
  }

  lemma {:induction false} AscendingSorts(s: set<nat>)
    ensures StrictlyIncreasing(Ascending(s))
    decreases |s|
  {
    if s != {} {
      LeastFirst(s);
      var least := Ascending(s)[0];
      AscendingSorts(s - {least});
      AscendingMembers(s - {least});
      LeastBeforeRest(least, Ascending(s - {least}));
    }
  }

  lemma LeastBeforeRest(least: nat, rest: seq<nat>)
    requires StrictlyIncreasing(rest) && forall x :: x in rest ==> least < x
    ensures StrictlyIncreasing([least] + rest)
  {
    var all := [least] + rest;
    forall a, b | 0 <= a < b < |all| ensures all[a] < all[b] {
      assert rest[b-1] in rest && (a > 0 ==> all[a] == rest[a-1]);
    }
  }

  function LiveNodes(view: WorldView): seq<NodeId> {
    Ascending(view.nodes - view.crashed)
  }

  datatype Partitions = Partitions(start: nat, interval: nat, actions: nat)

  function TimeOf(p: Partitions, k: nat): nat {
    if k == 0 then p.start else SatAdd(TimeOf(p, k - 1), p.interval)
  }

  predicate MaySplit(p: Partitions, made: nat, view: WorldView) {
    made < p.actions && |LiveNodes(view)| >= 2
  }

  function SplitsMade(p: Partitions, past: seq<Turn>): nat {
    if past == [] then 0
    else
      var made := SplitsMade(p, past[..|past|-1]);
      if MaySplit(p, made, past[|past|-1].view) then made + 1 else made
  }

  function SplitAt(p: Partitions, made: nat, live: seq<NodeId>, drawn: nat): Timed
    requires |live| >= 2
  {
    var pivot := 1 + drawn % (|live| - 1);
    Timed(TimeOf(p, made), Partition([live[..pivot], live[pivot..]]))
  }

  function SplitAnswer(p: Partitions, past: seq<Turn>): Option<Timed> {
    if past == [] then None
    else
      var last := past[|past|-1];
      var made := SplitsMade(p, past[..|past|-1]);
      if MaySplit(p, made, last.view) then Some(SplitAt(p, made, LiveNodes(last.view), FirstOf(last.drawn))) else None
  }

  function RandomSplits(p: Partitions): Planner {
    Planner((past: seq<Turn>, view: WorldView, drawn: seq<nat>) =>
              if MaySplit(p, SplitsMade(p, past), view) then Some(PartitionDraw) else None,
            (past: seq<Turn>, view: WorldView) => 1,
             (past: seq<Turn>) => SplitAnswer(p, past))
  }

  // Whatever is drawn, a split puts the live nodes into two groups, neither of
  // them empty and no node in both.
  lemma SplitSeparates(p: Partitions, past: seq<Turn>)
    requires RandomSplits(p).act(past).Some?
    ensures var last := past[|past|-1];
            var action := RandomSplits(p).act(past).value.action;
            && action.Partition? && |action.groups| == 2 && action.groups[0] != [] && action.groups[1] != []
            && Distinct(action.groups[0] + action.groups[1])
            && forall n :: n in action.groups[0] + action.groups[1] <==> n in last.view.nodes - last.view.crashed
  {
    var live := LiveNodes(past[|past|-1].view);
    var groups := RandomSplits(p).act(past).value.action.groups;
    assert groups[0] + groups[1] == live;
    AscendingSorts(past[|past|-1].view.nodes - past[|past|-1].view.crashed);
    AscendingMembers(past[|past|-1].view.nodes - past[|past|-1].view.crashed);
  }

  lemma {:induction false} SplitsInOrder(p: Partitions, past: seq<Turn>)
    requires p.start <= U64_MAX
    ensures |Made(RandomSplits(p), past)| == SplitsMade(p, past)
    ensures forall k :: 0 <= k < SplitsMade(p, past) ==> Made(RandomSplits(p), past)[k].time == TimeOf(p, k)
  {
    if past != [] {
      var front := past[..|past|-1];
      SplitsInOrder(p, front);
      assert SplitAnswer(p, past).Some? ==> SplitAnswer(p, past).value.time == TimeOf(p, SplitsMade(p, front));
    }
  }

  lemma {:induction false} TimesGrow(p: Partitions, a: nat, b: nat)
    requires p.start <= U64_MAX && a <= b
    ensures TimeOf(p, a) <= TimeOf(p, b) <= U64_MAX
    decreases b
  {
    if b > 0 {
      TimesGrow(p, if a < b then a else b - 1, b - 1);
    }
  }

  lemma {:induction false} SplitsStop(p: Partitions, past: seq<Turn>, view: WorldView, k: nat)
    requires OnlySaw(past, view) && 0 < k <= |past| && SplitAnswer(p, past[..k]).None?
    ensures SplitAnswer(p, past).None? && SplitsMade(p, past) == SplitsMade(p, past[..k-1])
    decreases |past|
  {
    if k == |past| {
      assert past[..k] == past;
    } else {
      var front := past[..|past|-1];
      assert front[..k] == past[..k] && front[..k-1] == past[..k-1];
      SplitsStop(p, front, view, k);
      assert past[..k][..k-1] == past[..k-1];
    }
  }

  lemma SplitsPunctual(p: Partitions, view: WorldView)
    requires p.start <= U64_MAX
    ensures Punctual(RandomSplits(p), view)
  {
    forall past: seq<Turn> | OnlySaw(past, view)
      ensures StaysStopped(RandomSplits(p), past) && TimeSorted(Made(RandomSplits(p), past))
    {
      SplitsInOrder(p, past);
      forall a, b | 0 <= a < b < SplitsMade(p, past)
        ensures Made(RandomSplits(p), past)[a].time <= Made(RandomSplits(p), past)[b].time
      {
        TimesGrow(p, a, b);
      }
      forall k, m | 0 < k <= m <= |past| && SplitAnswer(p, past[..k]).None?
        ensures SplitAnswer(p, past[..m]).None?
      {
        assert past[..m][..k] == past[..k];
        SplitsStop(p, past[..m], view, k);
      }
    }
  }
}
