// The merge of several plans: the earliest of the children's next actions comes
// first. First the merge of lists of actions; then the merge of plans that draw
// and answer as they are asked, which emits the merge of what they answer.
module Merge {
  import opened Base
  import opened Planners
  import opened Tape

  // An action with the index of the child plan it comes from.
  datatype Emitted = Emitted(plan: nat, timed: Timed)

  // ----- the merge, on what is left of each child -----

  predicate Earlier(left: seq<seq<Timed>>, i: nat, j: nat)
    requires i < |left| && j < |left| && left[i] != [] && left[j] != []
  {
    left[i][0].time < left[j][0].time || (left[i][0].time == left[j][0].time && i < j)
  }

  // Among the first n children, the one whose next action is earliest.
  function PickBelow(left: seq<seq<Timed>>, n: nat): (r: Option<nat>)
    requires n <= |left|
    ensures r.Some? ==> r.value < n && left[r.value] != []
  {
    if n == 0 then None
    else
      var best := PickBelow(left, n - 1);
      if left[n-1] == [] then best
      else if best.None? || Earlier(left, n - 1, best.value) then Some(n - 1)
      else best
  }

  function Pick(left: seq<seq<Timed>>): Option<nat> {
    PickBelow(left, |left|)
  }

  lemma {:induction false} PickIsEarliest(left: seq<seq<Timed>>, n: nat)
    requires n <= |left|
    ensures var r := PickBelow(left, n);
            && (r.None? <==> forall j :: 0 <= j < n ==> left[j] == [])
            && (r.Some? ==> forall j :: 0 <= j < n && left[j] != [] ==> j == r.value || Earlier(left, r.value, j))
  {
    if n > 0 {
      PickIsEarliest(left, n - 1);
    }
  }

  function Total(left: seq<seq<Timed>>): nat {
    if left == [] then 0 else Total(left[..|left|-1]) + |left[|left|-1]|
  }

  lemma {:induction false} TotalDrops(left: seq<seq<Timed>>, i: nat)
    requires i < |left| && left[i] != []
    ensures Total(left[i := left[i][1..]]) == Total(left) - 1
  {
    var n := |left| - 1;
    var less := left[i := left[i][1..]];
    if i == n {
      assert less[..n] == left[..n];
    } else {
      TotalDrops(left[..n], i);
      assert less[..n] == left[..n][i := left[i][1..]];
    }
  }

  // The next action of the merge, and what is left after it.
  function Peek(left: seq<seq<Timed>>): Option<Emitted> {
    match Pick(left)
    case None => None
    case Some(i) => Some(Emitted(i, left[i][0]))
  }

  function Rest(left: seq<seq<Timed>>): seq<seq<Timed>> {
    match Pick(left)
    case None => left
    case Some(i) => left[i := left[i][1..]]
  }

  lemma RestDrops(left: seq<seq<Timed>>)
    requires Peek(left).Some?
    ensures Total(Rest(left)) < Total(left) && |Rest(left)| == |left|
  {
    TotalDrops(left, Pick(left).value);
  }

  function Merge(left: seq<seq<Timed>>): seq<Emitted>
    decreases Total(left)
  {
    if Peek(left).None? then []
    else
      RestDrops(left);
      [Peek(left).value] + Merge(Rest(left))
  }

  function TimedOf(e: Option<Emitted>): Option<Timed> {
    match e
    case None => None
    case Some(x) => Some(x.timed)
  }

  function Actions(out: seq<Emitted>): seq<Timed> {
    seq(|out|, k requires 0 <= k < |out| => out[k].timed)
  }

  // ----- what a merge emits -----

  function From(out: seq<Emitted>, i: nat): seq<Timed> {
    if out == [] then [] else (if out[0].plan == i then [out[0].timed] else []) + From(out[1..], i)
  }

  // Every child's actions come out, once each and in the child's own order, and
  // nothing else does.
  lemma {:induction false} MergeKeepsChildren(left: seq<seq<Timed>>, i: nat)
    requires i < |left|
    ensures From(Merge(left), i) == left[i]
    ensures |Merge(left)| == Total(left) && forall k :: 0 <= k < |Merge(left)| ==> Merge(left)[k].plan < |left|
    decreases Total(left)
  {
    match Pick(left)
    case None =>
      PickIsEarliest(left, |left|);
      NothingInTotal(left);
    case Some(p) =>
      TotalDrops(left, p);
      MergeKeepsChildren(Rest(left), i);
      assert Merge(left)[1..] == Merge(Rest(left));
  }

  lemma {:induction false} NothingInTotal(left: seq<seq<Timed>>)
    requires forall j :: 0 <= j < |left| ==> left[j] == []
    ensures Total(left) == 0
  {
    if left != [] {
      NothingInTotal(left[..|left|-1]);
    }
  }

  predicate NotLater(a: Emitted, b: Emitted) {
    a.timed.time < b.timed.time || (a.timed.time == b.timed.time && a.plan <= b.plan)
  }

  ghost predicate MergeSorted(out: seq<Emitted>) {
    forall a, b :: 0 <= a < b < |out| ==> NotLater(out[a], out[b])
  }

  // Everything still to come is one of the children's remaining actions.
  lemma {:induction false} ComesFromChild(left: seq<seq<Timed>>, k: nat)
    requires k < |Merge(left)|
    ensures Merge(left)[k].plan < |left| && Merge(left)[k].timed in left[Merge(left)[k].plan]
    decreases Total(left)
  {
    var p := Pick(left).value;
    TotalDrops(left, p);
    var rest := left[p := left[p][1..]];
    if k > 0 {
      ComesFromChild(rest, k - 1);
      assert Merge(left)[k] == Merge(rest)[k-1];
    }
  }

  lemma {:induction false} SortedChildrenMergeSorted(left: seq<seq<Timed>>)
    requires forall i :: 0 <= i < |left| ==> TimeSorted(left[i])
    ensures MergeSorted(Merge(left))
    decreases Total(left)
  {
    if Pick(left).Some? {
      var p := Pick(left).value;
      TotalDrops(left, p);
      var rest := left[p := left[p][1..]];
      SortedChildrenMergeSorted(rest);
      PickIsEarliest(left, |left|);
      var out := Merge(left);
      forall b | 0 < b < |out| ensures NotLater(out[0], out[b]) {
        ComesFromChild(rest, b - 1);
        assert out[b] == Merge(rest)[b-1];
        var child := out[b].plan;
        var m :| 0 <= m < |rest[child]| && rest[child][m] == out[b].timed;
        assert out[b].timed == if child == p then left[p][m+1] else left[child][m];
        assert left[child] != [] && left[child][0].time <= out[b].timed.time;
      }
      forall a, b | 0 <= a < b < |out| ensures NotLater(out[a], out[b]) {
        if a > 0 {
          assert out[a] == Merge(rest)[a-1] && out[b] == Merge(rest)[b-1];
        }
      }
    }
  }

  lemma {:induction false} FromSorted(out: seq<Emitted>, i: nat)
    requires MergeSorted(out)
    ensures TimeSorted(From(out, i))
    ensures forall x :: x in From(out, i) ==> exists k :: 0 <= k < |out| && out[k] == Emitted(i, x)
  {
    if out != [] {
      FromSorted(out[1..], i);
      var rest := From(out[1..], i);
      forall b | 0 <= b < |rest| ensures out[0].plan == i ==> out[0].timed.time <= rest[b].time {
        assert rest[b] in rest;
        var k :| 0 <= k < |out[1..]| && out[1..][k] == Emitted(i, rest[b]);
        assert out[k+1] == out[1..][k];
        assert NotLater(out[0], out[k+1]);
      }
    }
  }

  // The merge comes out in order of time, ties by plan, exactly when every
  // child's script was in order of time.
  lemma MergeSortedIff(left: seq<seq<Timed>>)
    ensures MergeSorted(Merge(left)) <==> forall i :: 0 <= i < |left| ==> TimeSorted(left[i])
  {
    if MergeSorted(Merge(left)) {
      forall i | 0 <= i < |left| ensures TimeSorted(left[i]) {
        MergeKeepsChildren(left, i);
        FromSorted(Merge(left), i);
      }
    }
    if forall i :: 0 <= i < |left| ==> TimeSorted(left[i]) {
      SortedChildrenMergeSorted(left);
    }
  }

  // ----- the merge of plans -----

  // The turns each child has had, and the actions waiting to come out.
  datatype Blend = Blend(pasts: seq<seq<Turn>>, pending: map<nat, Timed>)

  function Start(n: nat): Blend {
    Blend(seq(n, i => []), map[])
  }

  function Head(pending: map<nat, Timed>, i: nat): seq<Timed> {
    if i in pending then [pending[i]] else []
  }

  function Heads(n: nat, pending: map<nat, Timed>): seq<seq<Timed>> {
    seq(n, i requires 0 <= i => Head(pending, i))
  }

  // How many of the values a plan takes for one answer, k of them taken already.
  function Share(plan: Planner, past: seq<Turn>, view: WorldView, drawn: seq<nat>, k: nat): (n: nat)
    requires k <= |drawn|
    ensures k <= n <= |drawn|
    decreases |drawn| - k
  {
    if k < |drawn| && NextLabel(plan, past, view, drawn[..k]).Some? then Share(plan, past, view, drawn, k + 1) else k
  }

  function Mine(plan: Planner, past: seq<Turn>, view: WorldView, drawn: seq<nat>): seq<nat> {
    drawn[..Share(plan, past, view, drawn, 0)]
  }

  function Answered(child: Planner, b: Blend, i: nat, turn: Turn): Blend
    requires i < |b.pasts|
  {
    var past := b.pasts[i] + [turn];
    var pasts := b.pasts[i := past];
    match child.act(past)
    case None => Blend(pasts, b.pending)
    case Some(t) => Blend(pasts, b.pending[i := t])
  }

  // Every child from the ith on with nothing pending is asked, in turn, and
  // takes its draws from those made.
  function Refilled(children: seq<Planner>, b: Blend, view: WorldView, drawn: seq<nat>, i: nat): (f: Blend)
    requires |b.pasts| == |children| && i <= |children|
    ensures |f.pasts| == |children|
    decreases |children| - i
  {
    if i == |children| then b
    else if i in b.pending then Refilled(children, b, view, drawn, i + 1)
    else
      var mine := Mine(children[i], b.pasts[i], view, drawn);
      Refilled(children, Answered(children[i], b, i, Turn(view, mine)), view, drawn[|mine|..], i + 1)
  }

  // The label drawn next when the children from the ith on are refilled in turn.
  function Wants(children: seq<Planner>, b: Blend, view: WorldView, drawn: seq<nat>, i: nat): Option<TapeLabel>
    requires |b.pasts| == |children| && i <= |children|
    decreases |children| - i
  {
    if i == |children| then None
    else if i in b.pending then Wants(children, b, view, drawn, i + 1)
    else
      var mine := Mine(children[i], b.pasts[i], view, drawn);
      match NextLabel(children[i], b.pasts[i], view, mine)
      case Some(tag) => Some(tag)
      case None => Wants(children, Answered(children[i], b, i, Turn(view, mine)), view, drawn[|mine|..], i + 1)
  }

  function Most(children: seq<Planner>, b: Blend, view: WorldView, i: nat): nat
    requires |b.pasts| == |children| && i <= |children|
    decreases |children| - i
  {
    if i == |children| then 0 else children[i].most(b.pasts[i], view) + Most(children, b, view, i + 1)
  }

  function Selected(n: nat, f: Blend): (Blend, Option<Emitted>) {
    match Pick(Heads(n, f.pending))
    case None => (f, None)
    case Some(i) => (f.(pending := f.pending - {i}), Some(Emitted(i, Head(f.pending, i)[0])))
  }

  function Next(children: seq<Planner>, b: Blend, view: WorldView, drawn: seq<nat>): (Blend, Option<Emitted>)
    requires |b.pasts| == |children|
  {
    Selected(|children|, Refilled(children, b, view, drawn, 0))
  }

  function BlendAfter(children: seq<Planner>, past: seq<Turn>): (b: Blend)
    ensures |b.pasts| == |children|
  {
    if past == [] then Start(|children|)
    else
      var last := past[|past|-1];
      Next(children, BlendAfter(children, past[..|past|-1]), last.view, last.drawn).0
  }

  function Latest(children: seq<Planner>, past: seq<Turn>): Option<Emitted> {
    if past == [] then None
    else
      var last := past[|past|-1];
      Next(children, BlendAfter(children, past[..|past|-1]), last.view, last.drawn).1
  }

  // Everything that has come out.
  function Output(children: seq<Planner>, past: seq<Turn>): seq<Emitted> {
    if past == [] then [] else Output(children, past[..|past|-1]) + ToSeq(Latest(children, past))
  }

  // A merge of plans is a plan.
  function Merged(children: seq<Planner>): Planner {
    Planner((past: seq<Turn>, view: WorldView, drawn: seq<nat>) =>
              Wants(children, BlendAfter(children, past), view, drawn, 0),
            (past: seq<Turn>, view: WorldView) => Most(children, BlendAfter(children, past), view, 0),
            (past: seq<Turn>) => TimedOf(Latest(children, past)))
  }

  lemma {:induction false} MergedMakes(children: seq<Planner>, past: seq<Turn>)
    ensures Made(Merged(children), past) == Actions(Output(children, past))
  {
    if past != [] {
      MergedMakes(children, past[..|past|-1]);
    }
  }

  // ----- one turn -----

  // How a refill leaves a child: as it was if it had an action pending, asked
  // once otherwise.
  ghost predicate AskedOnce(child: Planner, b: Blend, f: Blend, i: nat, view: WorldView)
    requires i < |b.pasts| == |f.pasts|
  {
    if i in b.pending then Untouched(b, f, i)
    else
      && f.pasts[i] != [] && f.pasts[i][..|f.pasts[i]|-1] == b.pasts[i] && f.pasts[i][|f.pasts[i]|-1].view == view
      && Head(f.pending, i) == ToSeq(child.act(f.pasts[i]))
  }

  ghost predicate Untouched(b: Blend, f: Blend, i: nat)
    requires i < |b.pasts| == |f.pasts|
  {
    f.pasts[i] == b.pasts[i] && Head(f.pending, i) == Head(b.pending, i)
  }

  lemma {:induction false} RefillAsks(children: seq<Planner>, b: Blend, view: WorldView, drawn: seq<nat>, i: nat,
                                      c: nat)
    requires |b.pasts| == |children| && i <= |children| && c < |children|
    ensures var f := Refilled(children, b, view, drawn, i);
            if c < i then Untouched(b, f, c) else AskedOnce(children[c], b, f, c, view)
    decreases |children| - i
  {
    if i < |children| {
      if i in b.pending {
        RefillAsks(children, b, view, drawn, i + 1, c);
      } else {
        var mine := Mine(children[i], b.pasts[i], view, drawn);
        RefillAsks(children, Answered(children[i], b, i, Turn(view, mine)), view, drawn[|mine|..], i + 1, c);
      }
    }
  }

  // Only the action that comes out leaves the pending ones.
  lemma SelectTakes(n: nat, f: Blend, i: nat)
    requires i < n
    ensures var (b, e) := Selected(n, f);
            && b.pasts == f.pasts
            && Head(f.pending, i) == (if e.Some? && e.value.plan == i then [e.value.timed] else []) + Head(b.pending, i)
  {
  }

  // ----- what merged plans emit -----

  lemma {:induction false} FromAppend(out: seq<Emitted>, e: Emitted, i: nat)
    ensures From(out + [e], i) == From(out, i) + if e.plan == i then [e.timed] else []
  {
    if out != [] {
      FromAppend(out[1..], e, i);
      assert (out + [e])[1..] == out[1..] + [e];
    }
  }

  function FromLatest(children: seq<Planner>, past: seq<Turn>, i: nat): seq<Timed> {
    match Latest(children, past)
    case None => []
    case Some(e) => if e.plan == i then [e.timed] else []
  }

  lemma FromOutput(children: seq<Planner>, past: seq<Turn>, i: nat)
    requires past != []
    ensures From(Output(children, past), i)
         == From(Output(children, past[..|past|-1]), i) + FromLatest(children, past, i)
  {
    var before := Output(children, past[..|past|-1]);
    if Latest(children, past).Some? {
      FromAppend(before, Latest(children, past).value, i);
    } else {
      assert before + [] == before && From(before, i) + [] == From(before, i);
    }
  }

  // The children as refilled at the last turn.
  function Fill(children: seq<Planner>, past: seq<Turn>): (f: Blend)
    requires past != []
    ensures |f.pasts| == |children|
  {
    var last := past[|past|-1];
    Refilled(children, BlendAfter(children, past[..|past|-1]), last.view, last.drawn, 0)
  }

  lemma TurnOf(children: seq<Planner>, past: seq<Turn>, i: nat)
    requires past != [] && i < |children|
    ensures var f := Fill(children, past);
            && AskedOnce(children[i], BlendAfter(children, past[..|past|-1]), f, i, past[|past|-1].view)
            && BlendAfter(children, past).pasts == f.pasts
            && Head(f.pending, i) == FromLatest(children, past, i) + Head(BlendAfter(children, past).pending, i)
  {
    var last := past[|past|-1];
    RefillAsks(children, BlendAfter(children, past[..|past|-1]), last.view, last.drawn, 0, i);
    SelectTakes(|children|, Fill(children, past), i);
  }

  lemma FillKeeps(child: Planner, b: Blend, f: Blend, i: nat, view: WorldView, out: seq<Timed>)
    requires i < |b.pasts| == |f.pasts| && AskedOnce(child, b, f, i, view)
    requires Made(child, b.pasts[i]) == out + Head(b.pending, i)
    ensures Made(child, f.pasts[i]) == out + Head(f.pending, i)
  {
  }

  // For any plans, whatever they see and draw: what a child has answered is what
  // has come out of it, in its own order, and the action it has pending.
  lemma {:induction false} MergeKeepsAnswers(children: seq<Planner>, past: seq<Turn>, i: nat)
    requires i < |children|
    ensures var b := BlendAfter(children, past);
            Made(children[i], b.pasts[i]) == From(Output(children, past), i) + Head(b.pending, i)
    decreases |past|
  {
    if past != [] {
      var front := past[..|past|-1];
      var f := Fill(children, past);
      var before := From(Output(children, front), i);
      MergeKeepsAnswers(children, front, i);
      TurnOf(children, past, i);
      FillKeeps(children[i], BlendAfter(children, front), f, i, past[|past|-1].view, before);
      FromOutput(children, past, i);
      MoveAcross(before, FromLatest(children, past, i), Head(BlendAfter(children, past).pending, i));
    }
  }

  // ----- the merge of plans is the merge of their answers -----

  // A list of all a child gives: it starts with what the child has given so far,
  // and is that much once the child has stopped.
  ghost predicate Lists(child: Planner, past: seq<Turn>, list: seq<Timed>) {
    && StaysStopped(child, past) && Made(child, past) <= list
    && (past != [] && child.act(past).None? ==> list == Made(child, past))
  }

  lemma ListsBefore(child: Planner, past: seq<Turn>, list: seq<Timed>)
    requires Lists(child, past, list) && past != []
    ensures Lists(child, past[..|past|-1], list)
  {
    var front := past[..|past|-1];
    assert Made(child, front) <= Made(child, past);
    assert forall k :: 0 < k <= |front| ==> past[..k] == front[..k];
    assert past[..|past|] == past;
    if front != [] && child.act(front).None? {
      assert past[..|front|] == front;
    }
  }

  ghost predicate SameHeads(a: seq<seq<Timed>>, b: seq<seq<Timed>>) {
    && |a| == |b|
    && forall i :: 0 <= i < |a| ==> (a[i] == [] <==> b[i] == []) && (a[i] != [] ==> a[i][0] == b[i][0])
  }

  lemma {:induction false} PickSame(a: seq<seq<Timed>>, b: seq<seq<Timed>>, n: nat)
    requires SameHeads(a, b) && n <= |a|
    ensures PickBelow(a, n) == PickBelow(b, n)
  {
    if n > 0 { PickSame(a, b, n - 1); }
  }

  // What is left of a child's list begins with its pending action, and is empty
  // when it has none.
  lemma HeadOfLeft(child: Planner, past: seq<Turn>, list: seq<Timed>, out: seq<Timed>, head: seq<Timed>,
                   left: seq<Timed>)
    requires Lists(child, past, list) && past != []
    requires Made(child, past) == out + head && list == out + left && |head| <= 1
    requires head == [] ==> child.act(past).None?
    ensures (left == [] <==> head == []) && (left != [] ==> left[0] == head[0])
  {
    assert left == list[|out|..] && head == Made(child, past)[|out|..];
  }

  ghost predicate SplitBy(lists: seq<seq<Timed>>, out: seq<Emitted>, left: seq<seq<Timed>>) {
    |left| == |lists| && forall i :: 0 <= i < |lists| ==> lists[i] == From(out, i) + left[i]
  }

  ghost predicate AllLists(children: seq<Planner>, past: seq<Turn>, lists: seq<seq<Timed>>) {
    && |lists| == |children|
    && forall i :: 0 <= i < |lists| ==> Lists(children[i], BlendAfter(children, past).pasts[i], lists[i])
  }

  lemma AllListsBefore(children: seq<Planner>, past: seq<Turn>, lists: seq<seq<Timed>>)
    requires AllLists(children, past, lists) && past != []
    ensures AllLists(children, past[..|past|-1], lists)
  {
    forall i | 0 <= i < |lists|
      ensures Lists(children[i], BlendAfter(children, past[..|past|-1]).pasts[i], lists[i])
    {
      TurnOf(children, past, i);
      if i !in BlendAfter(children, past[..|past|-1]).pending {
        ListsBefore(children[i], BlendAfter(children, past).pasts[i], lists[i]);
      }
    }
  }

  // After a refill every child has been asked, and those with nothing pending
  // have just given nothing.
  lemma {:induction false} PendingWasAsked(children: seq<Planner>, past: seq<Turn>, i: nat)
    requires past != [] && i < |children|
    ensures var f := Fill(children, past);
            f.pasts[i] != [] && (Head(f.pending, i) == [] ==> children[i].act(f.pasts[i]).None?)
    decreases |past|
  {
    var front := past[..|past|-1];
    TurnOf(children, past, i);
    if i in BlendAfter(children, front).pending {
      assert front != [];
      TurnOf(children, front, i);
      PendingWasAsked(children, front, i);
    }
  }

  lemma FillHead(children: seq<Planner>, past: seq<Turn>, lists: seq<seq<Timed>>, left: seq<seq<Timed>>, i: nat)
    requires AllLists(children, past, lists) && past != [] && i < |children|
    requires SplitBy(lists, Output(children, past[..|past|-1]), left)
    ensures var head := Head(Fill(children, past).pending, i);
            (left[i] == [] <==> head == []) && (left[i] != [] ==> left[i][0] == head[0])
  {
    var front := past[..|past|-1];
    var f := Fill(children, past);
    var out := From(Output(children, front), i);
    MergeKeepsAnswers(children, front, i);
    TurnOf(children, past, i);
    FillKeeps(children[i], BlendAfter(children, front), f, i, past[|past|-1].view, out);
    PendingWasAsked(children, past, i);
    HeadOfLeft(children[i], f.pasts[i], lists[i], out, Head(f.pending, i), left[i]);
  }

  // One turn takes the earliest of what is left.
  lemma TurnTakesEarliest(children: seq<Planner>, past: seq<Turn>, lists: seq<seq<Timed>>, left: seq<seq<Timed>>)
    requires AllLists(children, past, lists) && past != []
    requires SplitBy(lists, Output(children, past[..|past|-1]), left)
    ensures Latest(children, past) == Peek(left)
  {
    var heads := Heads(|children|, Fill(children, past).pending);
    forall i | 0 <= i < |children|
      ensures (left[i] == [] <==> heads[i] == []) && (left[i] != [] ==> left[i][0] == heads[i][0])
    {
      FillHead(children, past, lists, left, i);
    }
    PickSame(left, heads, |children|);
  }

  lemma TurnLeaves(children: seq<Planner>, past: seq<Turn>, lists: seq<seq<Timed>>, left: seq<seq<Timed>>)
    requires past != [] && Latest(children, past) == Peek(left)
    requires SplitBy(lists, Output(children, past[..|past|-1]), left)
    ensures SplitBy(lists, Output(children, past), Rest(left))
  {
    forall i | 0 <= i < |lists| ensures lists[i] == From(Output(children, past), i) + Rest(left)[i] {
      FromOutput(children, past, i);
      PeekTakes(left, i);
      MoveAcross(From(Output(children, past[..|past|-1]), i), FromLatest(children, past, i), Rest(left)[i]);
    }
  }

  lemma PeekTakes(left: seq<seq<Timed>>, i: nat)
    requires i < |left|
    ensures left[i] == (match Peek(left)
                        case None => []
                        case Some(e) => if e.plan == i then [e.timed] else []) + Rest(left)[i]
  {
  }

  // If the children stay stopped once they have given nothing, then what comes
  // out is the beginning of the merge of the lists they give, and what is left
  // of the lists is still to be merged.
  lemma {:induction false} MergeOfAnswers(children: seq<Planner>, past: seq<Turn>, lists: seq<seq<Timed>>)
    returns (left: seq<seq<Timed>>)
    requires AllLists(children, past, lists)
    ensures SplitBy(lists, Output(children, past), left)
    ensures Merge(lists) == Output(children, past) + Merge(left)
    decreases |past|
  {
    if past == [] {
      left := lists;
      NothingOut(lists);
    } else {
      var front := past[..|past|-1];
      AllListsBefore(children, past, lists);
      var left0 := MergeOfAnswers(children, front, lists);
      TurnTakesEarliest(children, past, lists, left0);
      TurnLeaves(children, past, lists, left0);
      left := Rest(left0);
      MergeUnfolds(left0, Output(children, front));
    }
  }

  lemma NothingOut(lists: seq<seq<Timed>>)
    ensures SplitBy(lists, [], lists) && Merge(lists) == [] + Merge(lists)
  {
    assert forall i :: 0 <= i < |lists| ==> lists[i] == [] + lists[i];
  }

  lemma MergeUnfolds(left: seq<seq<Timed>>, out: seq<Emitted>)
    ensures out + Merge(left) == (out + ToSeq(Peek(left))) + Merge(Rest(left))
  {
    if Peek(left).Some? {
      RestDrops(left);
      MoveAcross(out, [Peek(left).value], Merge(Rest(left)));
    }
  }

  lemma QuietTurn(children: seq<Planner>, past: seq<Turn>)
    requires past != [] && Latest(children, past).None?
    ensures Output(children, past) == Output(children, past[..|past|-1])
  {
  }

  // When a turn gives nothing, everything there was has come out.
  lemma QuietIsDone(children: seq<Planner>, past: seq<Turn>, lists: seq<seq<Timed>>) returns (left: seq<seq<Timed>>)
    requires AllLists(children, past, lists) && past != [] && Latest(children, past).None?
    ensures SplitBy(lists, Output(children, past), left) && Peek(left).None?
    ensures Merge(lists) == Output(children, past)
  {
    AllListsBefore(children, past, lists);
    left := MergeOfAnswers(children, past[..|past|-1], lists);
    TurnTakesEarliest(children, past, lists, left);
    QuietTurn(children, past);
  }

  // And then nothing comes out again.
  lemma {:induction false} MergeStaysStopped(children: seq<Planner>, past: seq<Turn>, lists: seq<seq<Timed>>, k: nat)
    requires AllLists(children, past, lists) && 0 < k <= |past| && Latest(children, past[..k]).None?
    ensures Latest(children, past).None?
    decreases |past|
  {
    var front := past[..|past|-1];
    if k == |past| {
      assert past[..k] == past;
    } else {
      assert front[..k] == past[..k];
      AllListsBefore(children, past, lists);
      MergeStaysStopped(children, front, lists, k);
      var left := QuietIsDone(children, front, lists);
      TurnTakesEarliest(children, past, lists, left);
    }
  }

  // ----- scripts and punctual plans -----

  function Scripts(lists: seq<seq<Timed>>): seq<Planner> {
    seq(|lists|, i requires 0 <= i < |lists| => Script(lists[i]))
  }

  lemma ScriptLists(actions: seq<Timed>, past: seq<Turn>)
    ensures Lists(Script(actions), past, actions)
  {
    ScriptMakes(actions, past);
  }

  lemma ScriptsLists(lists: seq<seq<Timed>>, past: seq<Turn>)
    ensures AllLists(Scripts(lists), past, lists)
  {
    forall i | 0 <= i < |lists|
      ensures Lists(Scripts(lists)[i], BlendAfter(Scripts(lists), past).pasts[i], lists[i])
    {
      ScriptLists(lists[i], BlendAfter(Scripts(lists), past).pasts[i]);
    }
  }

  // Asking a merge of scripts up to `max` times gives the first `max` actions of
  // the merge of their lists.
  lemma MergedScripts(lists: seq<seq<Timed>>, view: WorldView, tape: EntropyTape, max: nat)
    ensures Consult(Merged(Scripts(lists)), [], view, tape, max).2 == Take(max, Actions(Merge(lists)))
  {
    var (_, past, out) := Consult(Merged(Scripts(lists)), [], view, tape, max);
    ConsultMakes(Merged(Scripts(lists)), [], view, tape, max);
    MergedMakes(Scripts(lists), past);
    ScriptsLists(lists, past);
    if |out| < max {
      var left := QuietIsDone(Scripts(lists), past, lists);
    } else {
      var left := MergeOfAnswers(Scripts(lists), past, lists);
      ActionsBegin(Output(Scripts(lists), past), Merge(left));
    }
  }

  lemma ActionsBegin(out: seq<Emitted>, rest: seq<Emitted>)
    ensures Take(|out|, Actions(out + rest)) == Actions(out)
  {
  }

  lemma {:induction false} ChildSaw(children: seq<Planner>, past: seq<Turn>, view: WorldView, i: nat)
    requires i < |children| && OnlySaw(past, view)
    ensures OnlySaw(BlendAfter(children, past).pasts[i], view)
    decreases |past|
  {
    if past != [] {
      ChildSaw(children, past[..|past|-1], view, i);
      TurnOf(children, past, i);
    }
  }

  lemma PunctualLists(children: seq<Planner>, past: seq<Turn>, view: WorldView) returns (lists: seq<seq<Timed>>)
    requires OnlySaw(past, view) && forall c :: c in children ==> Punctual(c, view)
    ensures AllLists(children, past, lists) && forall i :: 0 <= i < |lists| ==> TimeSorted(lists[i])
  {
    var pasts := BlendAfter(children, past).pasts;
    lists := seq(|children|, i requires 0 <= i < |children| => Made(children[i], pasts[i]));
    forall i | 0 <= i < |lists| ensures Lists(children[i], pasts[i], lists[i]) && TimeSorted(lists[i]) {
      ChildSaw(children, past, view, i);
      assert children[i] in children;
    }
  }

  // A merge of punctual plans is punctual.
  lemma MergedPunctual(children: seq<Planner>, view: WorldView)
    requires forall c :: c in children ==> Punctual(c, view)
    ensures Punctual(Merged(children), view)
  {
    forall past: seq<Turn> | OnlySaw(past, view)
      ensures StaysStopped(Merged(children), past) && TimeSorted(Made(Merged(children), past))
    {
      MergedSorted(children, past, view);
      forall k, m | 0 < k <= m <= |past| && Merged(children).act(past[..k]).None?
        ensures Merged(children).act(past[..m]).None?
      {
        var lists := PunctualLists(children, past[..m], view);
        assert past[..m][..k] == past[..k];
        MergeStaysStopped(children, past[..m], lists, k);
      }
    }
  }

  lemma MergedSorted(children: seq<Planner>, past: seq<Turn>, view: WorldView)
    requires OnlySaw(past, view) && forall c :: c in children ==> Punctual(c, view)
    ensures TimeSorted(Made(Merged(children), past))
  {
    var lists := PunctualLists(children, past, view);
    var left := MergeOfAnswers(children, past, lists);
    SortedChildrenMergeSorted(lists);
    MergedMakes(children, past);
    var out := Output(children, past);
    forall a, b | 0 <= a < b < |out| ensures out[a].timed.time <= out[b].timed.time {
      assert out[a] == Merge(lists)[a] && out[b] == Merge(lists)[b];
    }
  }
}
