// The linearizability checker: recorded operations, sequential models, the
// in-place search over them, and the shrinking of a failing history.
module Checker {
  import opened Base
  import opened SerialOrders
  import opened Precedence
  import L = Linearizability

  // An operation with its invocation and completion times; in flight while
  // `complete` or `output` is missing.
  datatype OpRecord<I, O> =
    OpRecord(id: nat, process: nat, invoke: nat, complete: Option<nat>, input: I, output: Option<O>)
  {
    predicate IsComplete() {
      output.Some? && complete.Some?
    }
  }

  // A sequential specification: an initial state and a partial step function.
  datatype Model<!S, !I, O> = Model(init: S, step: (S, I) -> Option<(S, O)>)

  // ----- the search problem a history poses -----

  function Spans<I, O>(ops: seq<OpRecord<I, O>>): seq<Span> {
    seq(|ops|, i requires 0 <= i < |ops| => Span(ops[i].invoke, ops[i].complete))
  }

  function StepOp<S, I, O(==)>(m: Model<S, I, O>, s: S, op: OpRecord<I, O>): Option<S> {
    if op.output.None? then None else
      match m.step(s, op.input)
      case None => None
      case Some(r) => if r.1 == op.output.value then Some(r.0) else None
  }

  function LinProblem<S, I, O(==)>(m: Model<S, I, O>, ops: seq<OpRecord<I, O>>): Problem<S> {
    Problem(|ops|,
            (i: nat, j: nat) => Before(Spans(ops), i, j),
            (s: S, i: nat) => if i < |ops| then StepOp(m, s, ops[i]) else None)
  }

  // An order of the operations that respects real time and reproduces every
  // observed output from the initial state.
  ghost predicate IsLinearization<S, I, O>(m: Model<S, I, O>, ops: seq<OpRecord<I, O>>, path: seq<nat>) {
    IsWitness(LinProblem(m, ops), m.init, path)
  }

  function Completed<I(!new), O(!new)>(history: seq<OpRecord<I, O>>): (ops: seq<OpRecord<I, O>>)
    ensures forall op :: op in ops <==> op in history && op.IsComplete()
  {
    if history == [] then []
    else (if history[0].IsComplete() then [history[0]] else []) + Completed(history[1..])
  }

  // They are in the order of the history, each as often as it is there.
  lemma {:induction false} CompletedSelects<I(!new), O(!new)>(history: seq<OpRecord<I, O>>) returns (idx: seq<nat>)
    ensures IsSelection(history, (op: OpRecord<I, O>) => op.IsComplete(), idx, Completed(history))
  {
    if history == [] {
      idx := [];
    } else {
      var complete := (op: OpRecord<I, O>) => op.IsComplete();
      var rest := CompletedSelects(history[1..]);
      SelectionFirst(history, complete, rest, Completed(history[1..]));
      idx := (if complete(history[0]) then [0] else []) + Shifted(rest);
      assert [] + Shifted(rest) == Shifted(rest) && [] + Completed(history[1..]) == Completed(history[1..]);
    }
  }

  // What a linearization is: an order of the operations, none before one that
  // completed at or before its invocation, through states of the model that
  // explain every observed output.
  ghost predicate Explains<S, I, O>(m: Model<S, I, O>, ops: seq<OpRecord<I, O>>, path: seq<nat>, states: seq<S>) {
    && |states| == |path| + 1 && states[0] == m.init
    && forall k :: 0 <= k < |path| ==>
         && path[k] < |ops| && ops[path[k]].output.Some?
         && m.step(states[k], ops[path[k]].input) == Some((states[k+1], ops[path[k]].output.value))
  }

  ghost predicate InRealTime<I, O>(ops: seq<OpRecord<I, O>>, path: seq<nat>)
    requires forall k :: 0 <= k < |path| ==> path[k] < |ops|
  {
    forall a, b :: 0 <= a < b < |path| && path[a] != path[b] ==>
      var late := ops[path[b]];
      !(late.complete.Some? && late.complete.value <= ops[path[a]].invoke)
  }

  lemma LinearizationIff<S(!new), I, O>(m: Model<S, I, O>, ops: seq<OpRecord<I, O>>, path: seq<nat>)
    ensures IsLinearization(m, ops, path)
       <==> IsPermutation(path, |ops|) && InRealTime(ops, path) && exists states :: Explains(m, ops, path, states)
  {
    if IsPermutation(path, |ops|) {
      RealTimeIff(m, ops, path);
      if Replay(LinProblem(m, ops), m.init, path).Some? {
        var states := StatesOf(m, ops, m.init, path);
        assert Explains(m, ops, path, states);
      }
      if states :| Explains(m, ops, path, states) {
        ReplayOf(m, ops, path, states);
      }
    }
  }

  lemma RealTimeIff<S, I, O>(m: Model<S, I, O>, ops: seq<OpRecord<I, O>>, path: seq<nat>)
    requires IsPermutation(path, |ops|)
    ensures Respects(LinProblem(m, ops), path) <==> InRealTime(ops, path)
  {
    var p := LinProblem(m, ops);
    forall a, b | 0 <= a < b < |path|
      ensures p.prec(path[b], path[a])
         <==> ops[path[b]].complete.Some? && ops[path[b]].complete.value <= ops[path[a]].invoke
    {
      assert path[a] != path[b];
    }
  }

  lemma {:induction false} StatesOf<S, I, O>(m: Model<S, I, O>, ops: seq<OpRecord<I, O>>, s: S, path: seq<nat>)
    returns (states: seq<S>)
    requires Replay(LinProblem(m, ops), s, path).Some? && forall k :: 0 <= k < |path| ==> path[k] < |ops|
    ensures Explains(m.(init := s), ops, path, states)
    decreases |path|
  {
    if path == [] {
      states := [s];
    } else {
      var next := StepOp(m, s, ops[path[0]]).value;
      var rest := StatesOf(m, ops, next, path[1..]);
      states := [s] + rest;
      forall k | 0 <= k < |path|
        ensures ops[path[k]].output.Some?
        ensures m.step(states[k], ops[path[k]].input) == Some((states[k+1], ops[path[k]].output.value))
      {
        if k > 0 { assert path[1..][k-1] == path[k]; }
      }
    }
  }

  lemma {:induction false} ReplayOf<S, I, O>(m: Model<S, I, O>, ops: seq<OpRecord<I, O>>, path: seq<nat>,
                                             states: seq<S>)
    requires Explains(m, ops, path, states)
    ensures Replay(LinProblem(m, ops), m.init, path).Some?
    decreases |path|
  {
    if path != [] {
      var m' := m.(init := states[1]);
      forall k | 0 <= k < |path[1..]|
        ensures path[1..][k] < |ops| && ops[path[1..][k]].output.Some?
        ensures m'.step(states[1..][k], ops[path[1..][k]].input)
             == Some((states[1..][k+1], ops[path[1..][k]].output.value))
      {
        assert path[1..][k] == path[k+1];
      }
      ReplayOf(m', ops, path[1..], states[1..]);
      SameProblem(m, m', ops, states[1], path[1..]);
    }
  }

  lemma {:induction false} SameProblem<S, I, O>(m: Model<S, I, O>, m': Model<S, I, O>, ops: seq<OpRecord<I, O>>, s: S,
                                                path: seq<nat>)
    requires m'.step == m.step
    ensures Replay(LinProblem(m, ops), s, path) == Replay(LinProblem(m', ops), s, path)
    decreases |path|
  {
    if path != [] && path[0] < |ops| {
      match StepOp(m, s, ops[path[0]])
      case None =>
      case Some(next) => SameProblem(m, m', ops, next, path[1..]);
    }
  }

  function Ids<I, O>(ops: seq<OpRecord<I, O>>, path: seq<nat>): (ids: seq<nat>)
    requires forall k :: 0 <= k < |path| ==> path[k] < |ops|
    ensures |ids| == |path| && forall k :: 0 <= k < |path| ==> ids[k] == ops[path[k]].id
  {
    seq(|path|, k requires 0 <= k < |path| => ops[path[k]].id)
  }

  // ----- the in-place search -----

  class LinearSearch<S(==), I, O(==)> {
    const model: Model<S, I, O>
    const ops: seq<OpRecord<I, O>>
    const preds: seq<seq<nat>>
    const maxSteps: nat
    const used: array<bool>
    var order: seq<nat>
    var explored: nat
    var inconclusive: bool
    var seen: seq<(seq<bool>, S)>
    ghost var path: seq<nat>  // the indices whose ids are in `order`

    ghost predicate Valid()
      reads this
    {
      && used.Length == |ops|
      && AllPredecessors(Spans(ops), preds)
      && |path| <= |ops|
      && (forall k :: 0 <= k < |path| ==> path[k] < |ops|)
      && order == Ids(ops, path)
    }

    ghost function Memory(): Memo<S>
      reads this
    {
      Memo(explored, inconclusive, seen)
    }

    constructor (model: Model<S, I, O>, ops: seq<OpRecord<I, O>>, preds: seq<seq<nat>>, maxSteps: nat)
      requires AllPredecessors(Spans(ops), preds)
      ensures Valid() && fresh(this) && fresh(used)
      ensures this.model == model && this.ops == ops && this.maxSteps == maxSteps
      ensures Memory() == Fresh() && path == [] && used[..] == Marks(|ops|, [])
    {
      this.model, this.ops, this.preds, this.maxSteps := model, ops, preds, maxSteps;
      used := new bool[|ops|](_ => false);
      order, explored, inconclusive, seen := [], 0, false, [];
      path := [];
    }

    // The state after operation i, if it may run now and explains its output.
    method Admit(state: S, i: nat) returns (next: Option<S>)
      requires Valid() && i < |ops|
      ensures next == Candidate(LinProblem(model, ops), used[..], state, i)
    {
      var ready := Ready(LinProblem(model, ops), Spans(ops), preds, used, i);
      if !ready {
        return None;
      }
      var op := ops[i];
      if op.output.None? {
        return None;
      }
      var stepped := model.step(state, op.input);
      if stepped.None? || stepped.value.1 != op.output.value {
        return None;
      }
      return Some(stepped.value.0);
    }

    // One turn of the loop of `Dfs`: take operation i, search on, give it back on failure.
    method Descend(i: nat, next: S) returns (found: bool)
      requires Valid() && i < |ops| && |path| < |ops| && !used[i]
      modifies this, used
      ensures Valid()
      ensures var r := L.Visit(LinProblem(model, ops), old(used[..])[i := true], old(path) + [i], next, maxSteps,
                               old(Memory()));
              && Memory() == r.memo
              && found == r.found.Some?
              && if found then path == r.found.value else path == old(path) && used[..] == old(used[..])
      decreases |ops| - |path|, 0
    {
      ghost var used0 := used[..];
      used[i] := true;
      assert used[..] == used0[i := true];
      order := order + [ops[i].id];
      path := path + [i];
      found := Dfs(next);
      if !found {
        order := order[..|order| - 1];
        path := path[..|path| - 1];
        used[i] := false;
        assert used[..] == used0;
      }
    }

    // The loop of `Dfs` over all candidate operations.
    method Branch(state: S) returns (found: bool)
      requires Valid() && |path| < |ops|
      modifies this, used
      ensures Valid()
      ensures var r := L.TryFrom(LinProblem(model, ops), old(used[..]), old(path), state, maxSteps, old(Memory()), 0);
              && Memory() == r.memo
              && found == r.found.Some?
              && if found then path == r.found.value else path == old(path) && used[..] == old(used[..])
      decreases |ops| - |path|, 1
    {
      ghost var p := LinProblem(model, ops);
      ghost var used0 := used[..];
      ghost var path0 := path;
      ghost var goal := L.TryFrom(p, used0, path0, state, maxSteps, Memory(), 0);
      for i := 0 to |ops|
        invariant Valid() && used[..] == used0 && path == path0
        invariant L.TryFrom(p, used0, path0, state, maxSteps, Memory(), i) == goal
      {
        var next := Admit(state, i);
        if next.None? {
          continue;
        }
        found := Descend(i, next.value);
        if found {
          return;
        }
      }
      found := false;
    }

    method Dfs(state: S) returns (found: bool)
      requires Valid()
      modifies this, used
      ensures Valid()
      ensures var r := L.Visit(LinProblem(model, ops), old(used[..]), old(path), state, maxSteps, old(Memory()));
              && Memory() == r.memo
              && found == r.found.Some?
              && if found then path == r.found.value else path == old(path) && used[..] == old(used[..])
      decreases |ops| - |path|, 2
    {
      if |order| == |ops| {
        return true;
      }
      if explored >= maxSteps {
        inconclusive := true;
        return false;
      }
      if (used[..], state) in seen {
        return false;
      }
      seen := seen + [(used[..], state)];
      explored := explored + 1;

      found := Branch(state);
    }
  }

  // ----- one whole search -----

  // `order` lists the ids of the first linearization in the search order.
  ghost predicate IsFirstOrder<S, I, O>(model: Model<S, I, O>, ops: seq<OpRecord<I, O>>, order: seq<nat>) {
    exists path :: LeastWitness(LinProblem(model, ops), model.init, path) && order == Ids(ops, path)
  }

  method RunSearch<S(==, !new), I, O(==)>(model: Model<S, I, O>, ops: seq<OpRecord<I, O>>, maxSteps: nat)
    returns (linearizable: bool, inconclusive: bool, explored: nat, order: seq<nat>)
    ensures var r := L.Search(LinProblem(model, ops), model.init, maxSteps);
            && linearizable == r.found.Some?
            && inconclusive == r.memo.inconclusive
            && explored == r.memo.explored
    ensures linearizable ==> IsFirstOrder(model, ops, order)
  {
    var preds := Predecessors(Spans(ops));
    var search := new LinearSearch(model, ops, preds, maxSteps);
    linearizable := search.Dfs(model.init);
    L.SearchExact(LinProblem(model, ops), model.init, maxSteps);
    inconclusive, explored, order := search.inconclusive, search.explored, search.order;
    if linearizable {
      assert LeastWitness(LinProblem(model, ops), model.init, search.path);
    }
  }

  // ----- shrinking a failing history -----

  function Sub<I, O>(ops: seq<OpRecord<I, O>>, keep: seq<nat>): seq<OpRecord<I, O>>
    requires forall k :: 0 <= k < |keep| ==> keep[k] < |ops|
  {
    seq(|keep|, k requires 0 <= k < |keep| => ops[keep[k]])
  }

  ghost predicate IsSublist(keep: seq<nat>, n: nat) {
    StrictlyIncreasing(keep) && forall k :: 0 <= k < |keep| ==> keep[k] < n
  }

  // The search proves, within its budget, that these operations have no linearization.
  ghost predicate Refuted<S, I, O>(model: Model<S, I, O>, ops: seq<OpRecord<I, O>>, maxSteps: nat) {
    var r := L.Search(LinProblem(model, ops), model.init, maxSteps);
    r.found.None? && !r.memo.inconclusive
  }

  lemma RefutedMeansNone<S(!new), I, O>(model: Model<S, I, O>, ops: seq<OpRecord<I, O>>, maxSteps: nat)
    requires Refuted(model, ops, maxSteps)
    ensures forall path :: !IsLinearization(model, ops, path)
  {
    L.SearchExact(LinProblem(model, ops), model.init, maxSteps);
  }

  // Operation keep[k] was tried for removal from a list `then` that agrees with
  // `keep` up to k and contains the rest of it, and could not be removed.
  ghost predicate TriedFrom<S, I, O>(model: Model<S, I, O>, ops: seq<OpRecord<I, O>>, maxSteps: nat,
                                     keep: seq<nat>, k: nat, before: seq<nat>)
    requires k < |keep|
  {
    && IsSublist(before, |ops|) && k < |before|
    && before[..k+1] == keep[..k+1]
    && (forall x :: x in keep ==> x in before)
    && (|before| == 1 || !Refuted(model, Sub(ops, RemoveAt(before, k)), maxSteps))
  }

  ghost predicate KeptForCause<S, I, O>(model: Model<S, I, O>, ops: seq<OpRecord<I, O>>, maxSteps: nat,
                                        keep: seq<nat>, k: nat)
    requires k < |keep|
  {
    exists before :: TriedFrom(model, ops, maxSteps, keep, k, before)
  }

  lemma RemovalKeepsCauses<S, I, O>(model: Model<S, I, O>, ops: seq<OpRecord<I, O>>, maxSteps: nat,
                                    keep: seq<nat>, pos: nat, k: nat)
    requires k < pos < |keep| && KeptForCause(model, ops, maxSteps, keep, k)
    ensures KeptForCause(model, ops, maxSteps, RemoveAt(keep, pos), k)
  {
    var before :| TriedFrom(model, ops, maxSteps, keep, k, before);
    var fewer := RemoveAt(keep, pos);
    assert fewer[..k+1] == keep[..k+1];
    assert TriedFrom(model, ops, maxSteps, fewer, k, before);
  }

  // `ids` lists a nonempty in-order part of the operations that is refuted itself,
  // and from which no operation could be removed when it was tried.
  ghost predicate IsMinimized<S, I, O>(model: Model<S, I, O>, ops: seq<OpRecord<I, O>>, maxSteps: nat,
                                       ids: seq<nat>, keep: seq<nat>) {
    && IsSublist(keep, |ops|) && ids == Ids(ops, keep)
    && (ops != [] ==> keep != [])
    && Refuted(model, Sub(ops, keep), maxSteps)
    && forall k :: 0 <= k < |keep| ==> KeptForCause(model, ops, maxSteps, keep, k)
  }

  // What is left once every operation from `pos` on has been tried in turn.
  ghost function Minimized<S, I, O>(model: Model<S, I, O>, ops: seq<OpRecord<I, O>>, maxSteps: nat, kept: seq<nat>,
                                    pos: nat): (keep: seq<nat>)
    requires forall k :: 0 <= k < |kept| ==> kept[k] < |ops|
    ensures forall k :: 0 <= k < |keep| ==> keep[k] < |ops|
    decreases |kept| - pos
  {
    if pos >= |kept| then kept
    else
      var candidate := RemoveAt(kept, pos);
      if candidate == [] || !Refuted(model, Sub(ops, candidate), maxSteps)
      then Minimized(model, ops, maxSteps, kept, pos + 1)
      else Minimized(model, ops, maxSteps, candidate, pos)
  }

  method MinimizeFailure<S(==, !new), I, O(==)>(model: Model<S, I, O>, ops: seq<OpRecord<I, O>>, maxSteps: nat)
    returns (ids: seq<nat>)
    requires Refuted(model, ops, maxSteps)
    ensures IsMinimized(model, ops, maxSteps, ids, Minimized(model, ops, maxSteps, Range(|ops|), 0))
  {
    var kept := Range(|ops|);
    ghost var goal := Minimized(model, ops, maxSteps, kept, 0);
    var pos := 0;
    assert Sub(ops, kept) == ops;
    while pos < |kept|
      invariant pos <= |kept| && IsSublist(kept, |ops|)
      invariant Minimized(model, ops, maxSteps, kept, pos) == goal
      invariant ops != [] ==> kept != []
      invariant Refuted(model, Sub(ops, kept), maxSteps)
      invariant forall k :: 0 <= k < pos ==> KeptForCause(model, ops, maxSteps, kept, k)
      decreases |kept| - pos
    {
      var candidate := RemoveAt(kept, pos);
      if candidate == [] {
        assert TriedFrom(model, ops, maxSteps, kept, pos, kept);
        pos := pos + 1;
        continue;
      }
      var candidateOps := Sub(ops, candidate);
      var linearizable, inconclusive, _, _ := RunSearch(model, candidateOps, maxSteps);
      if !linearizable && !inconclusive {
        forall k | 0 <= k < pos ensures KeptForCause(model, ops, maxSteps, candidate, k) {
          RemovalKeepsCauses(model, ops, maxSteps, kept, pos, k);
        }
        kept := candidate;
      } else {
        assert TriedFrom(model, ops, maxSteps, kept, pos, kept);
        pos := pos + 1;
      }
    }
    ids := Ids(ops, kept);
    assert IsMinimized(model, ops, maxSteps, ids, kept);
  }

  // ----- the checker -----

  datatype LinearizabilityResult =
    | Linearizable(order: seq<nat>)
    | NotLinearizable(reason: string, conflict: Option<(nat, nat)>, minimalSubhistory: seq<nat>,
                      exploredStates: nat, budgetExhausted: bool)
    | Inconclusive(exploredStates: nat, budgetExhausted: bool)

  const NO_ORDER := "no legal sequential order matched the observed outputs"

  // `ids` names a nonempty in-order part of the history that has no linearization itself.
  ghost predicate IsFailingPart<S, I, O>(model: Model<S, I, O>, ops: seq<OpRecord<I, O>>, ids: seq<nat>,
                                         keep: seq<nat>) {
    && keep != [] && IsSublist(keep, |ops|) && ids == Ids(ops, keep)
    && forall path :: !IsLinearization(model, Sub(ops, keep), path)
  }

  lemma EmptyIsLinearizable<S, I, O>(model: Model<S, I, O>)
    ensures IsLinearization(model, [], [])
  {
  }

  // The ids of a minimized failing part.
  ghost predicate Diagnoses<S, I, O>(model: Model<S, I, O>, ops: seq<OpRecord<I, O>>, maxSteps: nat, ids: seq<nat>) {
    ids != [] && exists keep :: IsFailingPart(model, ops, ids, keep) && IsMinimized(model, ops, maxSteps, ids, keep)
  }

  lemma MinimizedDiagnoses<S(!new), I, O>(model: Model<S, I, O>, ops: seq<OpRecord<I, O>>, maxSteps: nat, ids: seq<nat>)
    requires Refuted(model, ops, maxSteps) && exists keep :: IsMinimized(model, ops, maxSteps, ids, keep)
    ensures Diagnoses(model, ops, maxSteps, ids)
  {
    var keep :| IsMinimized(model, ops, maxSteps, ids, keep);
    RefutedMeansNone(model, ops, maxSteps);
    RefutedMeansNone(model, Sub(ops, keep), maxSteps);
    EmptyIsLinearizable(model);
    assert ops != [];
    assert IsFailingPart(model, ops, ids, keep);
  }

  method CheckLinearizable<S(==, !new), I(!new), O(==, !new)>(model: Model<S, I, O>, history: seq<OpRecord<I, O>>,
                                                             maxSteps: nat)
    returns (result: LinearizabilityResult)
    ensures var r := L.Search(LinProblem(model, Completed(history)), model.init, maxSteps);
            && (result.Inconclusive? <==> r.memo.inconclusive)
            && (result.Linearizable? <==> r.found.Some?)
            && (!result.Linearizable? ==> result.exploredStates == r.memo.explored <= maxSteps)
            && (!result.Linearizable? ==> result.budgetExhausted == result.Inconclusive?)
    ensures result.Linearizable? ==> IsFirstOrder(model, Completed(history), result.order)
    ensures result.Inconclusive? ==> result.exploredStates == maxSteps
    ensures result.NotLinearizable? ==> forall path :: !IsLinearization(model, Completed(history), path)
    ensures result.NotLinearizable? ==> Diagnoses(model, Completed(history), maxSteps, result.minimalSubhistory)
    ensures result.NotLinearizable? ==>
              var ids := result.minimalSubhistory;
              ids != [] && result.conflict == Some((ids[0], ids[|ids| - 1]))
  {
    var ops := Completed(history);
    var linearizable, inconclusive, explored, order := RunSearch(model, ops, maxSteps);
    L.SearchExact(LinProblem(model, ops), model.init, maxSteps);
    if inconclusive {
      return Inconclusive(explored, true);
    }
    if linearizable {
      return Linearizable(order);
    }
    var minimal := MinimizeFailure(model, ops, maxSteps);
    MinimizedDiagnoses(model, ops, maxSteps, minimal);
    var conflict :=
      if |minimal| == 0 then None
      else if |minimal| == 1 then Some((minimal[0], minimal[0]))
      else Some((minimal[0], minimal[|minimal| - 1]));
    result := NotLinearizable(NO_ORDER, conflict, minimal, explored, false);
  }

  // Raising the budget keeps a positive answer, its witness and its cost, and
  // keeps a negative one.
  lemma VerdictSurvivesBudget<S, I, O>(model: Model<S, I, O>, ops: seq<OpRecord<I, O>>, max: nat, more: nat)
    requires max <= more && !L.Search(LinProblem(model, ops), model.init, max).memo.inconclusive
    ensures L.Search(LinProblem(model, ops), model.init, more) == L.Search(LinProblem(model, ops), model.init, max)
    ensures Refuted(model, ops, max) ==> Refuted(model, ops, more)
  {
    L.BudgetMonotone(LinProblem(model, ops), model.init, max, more);
  }
}
