// Asking the children of a merge one after the other draws what the merge, asked
// as one plan, draws.
module Refill {
  import opened Merge
  import opened Planners
  import opened Tape

  // ----- how many values a plan takes -----

  // The plan wants more after every part of the values but, perhaps, all of them.
  ghost predicate Unfinished(plan: Planner, past: seq<Turn>, view: WorldView, drawn: seq<nat>) {
    forall k :: 0 <= k < |drawn| ==> NextLabel(plan, past, view, drawn[..k]).Some?
  }

  lemma {:induction false} ShareBounds(plan: Planner, past: seq<Turn>, view: WorldView, drawn: seq<nat>, k: nat)
    requires k <= |drawn|
    ensures var n := Share(plan, past, view, drawn, k);
            && (n == |drawn| || NextLabel(plan, past, view, drawn[..n]).None?)
            && (n == k || n <= plan.most(past, view))
    decreases |drawn| - k
  {
    if k < |drawn| && NextLabel(plan, past, view, drawn[..k]).Some? {
      ShareBounds(plan, past, view, drawn, k + 1);
    }
  }

  lemma {:induction false} ShareOf(plan: Planner, past: seq<Turn>, view: WorldView, mine: seq<nat>, more: seq<nat>,
                                   k: nat)
    requires k <= |mine| && Unfinished(plan, past, view, mine)
    requires more == [] || NextLabel(plan, past, view, mine).None?
    ensures Share(plan, past, view, mine + more, k) == |mine|
    decreases |mine| - k
  {
    assert (mine + more)[..k] == mine[..k];
    if k < |mine| {
      ShareOf(plan, past, view, mine, more, k + 1);
    } else {
      assert mine[..k] == mine;
    }
  }

  // Values a plan has drawn, followed by others once it wants no more.
  lemma MineOf(plan: Planner, past: seq<Turn>, view: WorldView, mine: seq<nat>, more: seq<nat>)
    requires Unfinished(plan, past, view, mine)
    requires more == [] || NextLabel(plan, past, view, mine).None?
    ensures Mine(plan, past, view, mine + more) == mine && (mine + more)[|mine|..] == more
  {
    ShareOf(plan, past, view, mine, more, 0);
  }

  lemma {:induction false} DrawOnFinishes(plan: Planner, past: seq<Turn>, view: WorldView, tape: EntropyTape,
                                          drawn: seq<nat>)
    requires Unfinished(plan, past, view, drawn)
    ensures var all := DrawOn(plan, past, view, tape, drawn).1;
            Unfinished(plan, past, view, all) && NextLabel(plan, past, view, all).None?
    decreases plan.most(past, view) - |drawn|
  {
    match NextLabel(plan, past, view, drawn)
    case None =>
    case Some(tag) =>
      var (tape', v) := Draw(tape, tag);
      assert forall k :: 0 <= k < |drawn| ==> (drawn + [v])[..k] == drawn[..k];
      assert (drawn + [v])[..|drawn|] == drawn;
      DrawOnFinishes(plan, past, view, tape', drawn + [v]);
  }

  // ----- drawing for all children at once -----

  lemma {:induction false} MostSame(children: seq<Planner>, b: Blend, c: Blend, view: WorldView, i: nat)
    requires |b.pasts| == |c.pasts| == |children| && i <= |children|
    requires forall j :: i <= j < |children| ==> b.pasts[j] == c.pasts[j]
    ensures Most(children, b, view, i) == Most(children, c, view, i)
    decreases |children| - i
  {
    if i < |children| { MostSame(children, b, c, view, i + 1); }
  }

  lemma {:induction false} WantsBounded(children: seq<Planner>, b: Blend, view: WorldView, drawn: seq<nat>, i: nat)
    requires |b.pasts| == |children| && i <= |children|
    ensures Wants(children, b, view, drawn, i).Some? ==> |drawn| < Most(children, b, view, i)
    decreases |children| - i
  {
    if i < |children| {
      if i in b.pending {
        WantsBounded(children, b, view, drawn, i + 1);
      } else {
        ShareBounds(children[i], b.pasts[i], view, drawn, 0);
        var mine := Mine(children[i], b.pasts[i], view, drawn);
        var c := Answered(children[i], b, i, Turn(view, mine));
        WantsBounded(children, c, view, drawn[|mine|..], i + 1);
        MostSame(children, b, c, view, i + 1);
      }
    }
  }

  function WantsOn(children: seq<Planner>, b: Blend, view: WorldView, tape: EntropyTape, drawn: seq<nat>, i: nat)
    : (EntropyTape, seq<nat>)
    requires |b.pasts| == |children| && i <= |children|
    decreases Most(children, b, view, i) - |drawn|
  {
    match Wants(children, b, view, drawn, i)
    case None => (tape, drawn)
    case Some(tag) =>
      WantsBounded(children, b, view, drawn, i);
      var (tape', v) := Draw(tape, tag);
      WantsOn(children, b, view, tape', drawn + [v], i)
  }

  lemma {:induction false} MergedDraws(children: seq<Planner>, past: seq<Turn>, view: WorldView, tape: EntropyTape,
                                       drawn: seq<nat>)
    ensures DrawOn(Merged(children), past, view, tape, drawn)
         == WantsOn(children, BlendAfter(children, past), view, tape, drawn, 0)
    decreases Most(children, BlendAfter(children, past), view, 0) - |drawn|
  {
    var b := BlendAfter(children, past);
    WantsBounded(children, b, view, drawn, 0);
    match Wants(children, b, view, drawn, 0)
    case None =>
    case Some(tag) =>
      var (tape', v) := Draw(tape, tag);
      MergedDraws(children, past, view, tape', drawn + [v]);
  }

  // ----- child by child -----

  function RefillDraw(children: seq<Planner>, b: Blend, view: WorldView, tape: EntropyTape, i: nat)
    : (EntropyTape, seq<nat>)
    requires |b.pasts| == |children| && i <= |children|
    decreases |children| - i
  {
    if i == |children| then (tape, [])
    else if i in b.pending then RefillDraw(children, b, view, tape, i + 1)
    else
      var (tape1, mine) := DrawOn(children[i], b.pasts[i], view, tape, []);
      var (tape2, rest) := RefillDraw(children, Answered(children[i], b, i, Turn(view, mine)), view, tape1, i + 1);
      (tape2, mine + rest)
  }

  // While the ith child is drawing, it draws as it would alone.
  lemma {:induction false} ChildDraws(children: seq<Planner>, b: Blend, view: WorldView, tape: EntropyTape,
                                      drawn: seq<nat>, i: nat)
    requires |b.pasts| == |children| && i < |children| && i !in b.pending
    requires Unfinished(children[i], b.pasts[i], view, drawn)
    ensures var (tape1, all) := DrawOn(children[i], b.pasts[i], view, tape, drawn);
            WantsOn(children, b, view, tape, drawn, i) == WantsOn(children, b, view, tape1, all, i)
    decreases children[i].most(b.pasts[i], view) - |drawn|
  {
    MineOf(children[i], b.pasts[i], view, drawn, []);
    assert drawn + [] == drawn;
    match NextLabel(children[i], b.pasts[i], view, drawn)
    case None =>
    case Some(tag) =>
      var (tape', v) := Draw(tape, tag);
      assert forall k :: 0 <= k < |drawn| ==> (drawn + [v])[..k] == drawn[..k];
      assert (drawn + [v])[..|drawn|] == drawn;
      ChildDraws(children, b, view, tape', drawn + [v], i);
  }

  // Once it has finished, the rest draw as they would without it.
  lemma {:induction false} RestDraws(children: seq<Planner>, b: Blend, view: WorldView, tape: EntropyTape,
                                     mine: seq<nat>, more: seq<nat>, i: nat)
    requires |b.pasts| == |children| && i < |children| && i !in b.pending
    requires Unfinished(children[i], b.pasts[i], view, mine)
    requires NextLabel(children[i], b.pasts[i], view, mine).None?
    ensures var c := Answered(children[i], b, i, Turn(view, mine));
            var (tape', all) := WantsOn(children, c, view, tape, more, i + 1);
            WantsOn(children, b, view, tape, mine + more, i) == (tape', mine + all)
    decreases Most(children, Answered(children[i], b, i, Turn(view, mine)), view, i + 1) - |more|
  {
    var c := Answered(children[i], b, i, Turn(view, mine));
    MineOf(children[i], b.pasts[i], view, mine, more);
    WantsBounded(children, c, view, more, i + 1);
    match Wants(children, c, view, more, i + 1)
    case None =>
    case Some(tag) =>
      var (tape', v) := Draw(tape, tag);
      assert (mine + more) + [v] == mine + (more + [v]);
      RestDraws(children, b, view, tape', mine, more + [v], i);
  }

  lemma {:induction false} PendingDraws(children: seq<Planner>, b: Blend, view: WorldView, tape: EntropyTape,
                                        drawn: seq<nat>, i: nat)
    requires |b.pasts| == |children| && i < |children| && i in b.pending
    ensures WantsOn(children, b, view, tape, drawn, i) == WantsOn(children, b, view, tape, drawn, i + 1)
    decreases Most(children, b, view, i + 1) - |drawn|
  {
    WantsBounded(children, b, view, drawn, i + 1);
    match Wants(children, b, view, drawn, i + 1)
    case None =>
    case Some(tag) =>
      var (tape', v) := Draw(tape, tag);
      PendingDraws(children, b, view, tape', drawn + [v], i);
  }

  lemma {:induction false} DrawsInTurn(children: seq<Planner>, b: Blend, view: WorldView, tape: EntropyTape, i: nat)
    requires |b.pasts| == |children| && i <= |children|
    ensures WantsOn(children, b, view, tape, [], i) == RefillDraw(children, b, view, tape, i)
    decreases |children| - i
  {
    if i < |children| {
      if i in b.pending {
        PendingDraws(children, b, view, tape, [], i);
        DrawsInTurn(children, b, view, tape, i + 1);
      } else {
        var (tape1, mine) := DrawOn(children[i], b.pasts[i], view, tape, []);
        ChildDraws(children, b, view, tape, [], i);
        DrawOnFinishes(children[i], b.pasts[i], view, tape, []);
        RestDraws(children, b, view, tape1, mine, [], i);
        assert mine + [] == mine;
        DrawsInTurn(children, Answered(children[i], b, i, Turn(view, mine)), view, tape1, i + 1);
      }
    }
  }

  // A merge, asked as one plan, draws what its children draw one after the other.
  lemma MergedDrawsInTurn(children: seq<Planner>, past: seq<Turn>, view: WorldView, tape: EntropyTape)
    ensures DrawOn(Merged(children), past, view, tape, [])
         == RefillDraw(children, BlendAfter(children, past), view, tape, 0)
  {
    MergedDraws(children, past, view, tape, []);
    DrawsInTurn(children, BlendAfter(children, past), view, tape, 0);
  }

  // Asking one child and then the rest is asking all of them.
  lemma RefillStep(children: seq<Planner>, b: Blend, view: WorldView, i: nat, tape: EntropyTape)
    requires |b.pasts| == |children| && i < |children| && i !in b.pending
    ensures var (tape1, mine) := DrawOn(children[i], b.pasts[i], view, tape, []);
            var b1 := Answered(children[i], b, i, Turn(view, mine));
            var (end, rest) := RefillDraw(children, b1, view, tape1, i + 1);
            && RefillDraw(children, b, view, tape, i) == (end, mine + rest)
            && Refilled(children, b, view, mine + rest, i) == Refilled(children, b1, view, rest, i + 1)
  {
    var (tape1, mine) := DrawOn(children[i], b.pasts[i], view, tape, []);
    var rest := RefillDraw(children, Answered(children[i], b, i, Turn(view, mine)), view, tape1, i + 1).1;
    DrawOnFinishes(children[i], b.pasts[i], view, tape, []);
    MineOf(children[i], b.pasts[i], view, mine, rest);
  }
}
