// The transaction checker: committed transactions, their effect on a key/value
// state, and the in-place search for a serial order.
module Transactions {
  import opened Base
  import opened SerialOrders
  import opened Precedence
  import T = TransactionSearch

  datatype TxnAction<K, V> =
    | Read(key: K, expected: Option<V>)
    | Write(key: K, value: V)

  datatype TxnOp<K, V> =
    TxnOp(id: nat, process: nat, invoke: nat, complete: Option<nat>, actions: seq<TxnAction<K, V>>, committed: bool)

  // ----- the effect of a transaction -----

  function Lookup<K, V>(state: map<K, V>, key: K): Option<V> {
    if key in state then Some(state[key]) else None
  }

  function Apply<K, V(==)>(state: map<K, V>, actions: seq<TxnAction<K, V>>): Option<map<K, V>>
    decreases actions
  {
    if actions == [] then Some(state) else
      match actions[0]
      case Read(key, expected) => if Lookup(state, key) != expected then None else Apply(state, actions[1..])
      case Write(key, value) => Apply(state[key := value], actions[1..])
  }

  method ApplyTxn<K(==), V(==)>(state: map<K, V>, txn: TxnOp<K, V>) returns (next: Option<map<K, V>>)
    ensures next == Apply(state, txn.actions)
  {
    var local := state;
    for k := 0 to |txn.actions|
      invariant Apply(state, txn.actions) == Apply(local, txn.actions[k..])
    {
      assert txn.actions[k..][1..] == txn.actions[k+1..];
      match txn.actions[k]
      case Read(key, expected) =>
        if Lookup(local, key) != expected {
          return None;
        }
      case Write(key, value) =>
        local := local[key := value];
    }
    return Some(local);
  }

  // ----- the search problem -----

  function Spans<K, V>(txns: seq<TxnOp<K, V>>): seq<Span> {
    seq(|txns|, i requires 0 <= i < |txns| => Span(txns[i].invoke, txns[i].complete))
  }

  function TxnProblem<K, V(==)>(txns: seq<TxnOp<K, V>>): Problem<map<K, V>> {
    Problem(|txns|,
            (i: nat, j: nat) => Before(Spans(txns), i, j),
            (s: map<K, V>, i: nat) => if i < |txns| then Apply(s, txns[i].actions) else None)
  }

  function Eligible<K(!new), V(!new)>(history: seq<TxnOp<K, V>>): (txns: seq<TxnOp<K, V>>)
    ensures forall t :: t in txns <==> t in history && t.committed && t.complete.Some?
  {
    if history == [] then []
    else (if history[0].committed && history[0].complete.Some? then [history[0]] else []) + Eligible(history[1..])
  }

  function IsEligible<K, V>(): TxnOp<K, V> -> bool {
    (t: TxnOp<K, V>) => t.committed && t.complete.Some?
  }

  // The transactions searched are the committed, completed ones of the history,
  // each as often as it is there, in its order.
  lemma {:induction false} EligibleSelects<K(!new), V(!new)>(history: seq<TxnOp<K, V>>) returns (idx: seq<nat>)
    ensures IsSelection(history, IsEligible(), idx, Eligible(history))
  {
    if history == [] {
      idx := [];
    } else {
      var rest := EligibleSelects(history[1..]);
      SelectionFirst(history, IsEligible(), rest, Eligible(history[1..]));
      idx := (if IsEligible()(history[0]) then [0] else []) + Shifted(rest);
      assert [] + Shifted(rest) == Shifted(rest) && [] + Eligible(history[1..]) == Eligible(history[1..]);
    }
  }

  function Ids<K, V>(txns: seq<TxnOp<K, V>>, path: seq<nat>): (ids: seq<nat>)
    requires forall k :: 0 <= k < |path| ==> path[k] < |txns|
    ensures |ids| == |path| && forall k :: 0 <= k < |path| ==> ids[k] == txns[path[k]].id
  {
    seq(|path|, k requires 0 <= k < |path| => txns[path[k]].id)
  }

  // ----- what a serial order means, without the state threading -----

  // The last value written to the key, or its initial value.
  function LastWrite<K, V>(init: map<K, V>, actions: seq<TxnAction<K, V>>, key: K): Option<V> {
    if actions == [] then Lookup(init, key) else
      var last := actions[|actions| - 1];
      if last.Write? && last.key == key then Some(last.value)
      else LastWrite(init, actions[..|actions| - 1], key)
  }

  // Every read returns the last write before it, its own transaction's included.
  ghost predicate ReadsExplained<K, V>(init: map<K, V>, actions: seq<TxnAction<K, V>>) {
    forall k :: 0 <= k < |actions| && actions[k].Read? ==>
      actions[k].expected == LastWrite(init, actions[..k], actions[k].key)
  }

  function Flatten<K, V>(txns: seq<TxnOp<K, V>>, path: seq<nat>): seq<TxnAction<K, V>>
    requires forall k :: 0 <= k < |path| ==> path[k] < |txns|
  {
    if path == [] then [] else txns[path[0]].actions + Flatten(txns, path[1..])
  }

  // A serial order: real time is respected and every read is explained.
  ghost predicate IsSerialOrder<K, V>(init: map<K, V>, txns: seq<TxnOp<K, V>>, path: seq<nat>) {
    && IsPermutation(path, |txns|)
    && Respects(TxnProblem(txns), path)
    && ReadsExplained(init, Flatten(txns, path))
  }

  // Real time, on the records: nothing stands before a transaction that completed
  // at or before its invocation.
  lemma SerialOrderIff<K, V>(init: map<K, V>, txns: seq<TxnOp<K, V>>, path: seq<nat>)
    ensures IsSerialOrder(init, txns, path)
       <==> && IsPermutation(path, |txns|)
            && (forall a, b :: 0 <= a < b < |path| ==>
                  var late := txns[path[b]];
                  !(late.complete.Some? && late.complete.value <= txns[path[a]].invoke))
            && ReadsExplained(init, Flatten(txns, path))
  {
    if IsPermutation(path, |txns|) {
      var p := TxnProblem(txns);
      forall a, b | 0 <= a < b < |path|
        ensures p.prec(path[b], path[a])
           <==> txns[path[b]].complete.Some? && txns[path[b]].complete.value <= txns[path[a]].invoke
      {
        assert path[a] != path[b];
      }
    }
  }

  lemma {:induction false} ApplyConcat<K, V>(s: map<K, V>, a: seq<TxnAction<K, V>>, b: seq<TxnAction<K, V>>)
    ensures Apply(s, a + b) == match Apply(s, a) case None => None case Some(s') => Apply(s', b)
    decreases a
  {
    if a == [] {
      assert a + b == b;
    } else {
      assert (a + b)[1..] == a[1..] + b;
      match a[0]
      case Read(key, expected) => ApplyConcat(s, a[1..], b);
      case Write(key, value) => ApplyConcat(s[key := value], a[1..], b);
    }
  }

  lemma {:induction false} ReplayIsApply<K, V>(txns: seq<TxnOp<K, V>>, s: map<K, V>, path: seq<nat>)
    requires forall k :: 0 <= k < |path| ==> path[k] < |txns|
    ensures Replay(TxnProblem(txns), s, path) == Apply(s, Flatten(txns, path))
    decreases |path|
  {
    if path != [] {
      ApplyConcat(s, txns[path[0]].actions, Flatten(txns, path[1..]));
      match Apply(s, txns[path[0]].actions)
      case None =>
      case Some(next) => ReplayIsApply(txns, next, path[1..]);
    }
  }

  // Threading the state accepts exactly the action lists whose reads are explained.
  lemma {:induction false} ApplyIffExplained<K, V>(init: map<K, V>, actions: seq<TxnAction<K, V>>)
    ensures Apply(init, actions).Some? <==> ReadsExplained(init, actions)
    ensures Apply(init, actions).Some? ==>
              forall key :: Lookup(Apply(init, actions).value, key) == LastWrite(init, actions, key)
    decreases |actions|
  {
    if actions != [] {
      var front, last := actions[..|actions| - 1], actions[|actions| - 1];
      assert actions == front + [last];
      ApplyIffExplained(init, front);
      ApplyConcat(init, front, [last]);
      assert forall k :: 0 <= k < |front| ==> actions[..k] == front[..k];
      assert ReadsExplained(init, actions) <==>
             ReadsExplained(init, front) && (last.Read? ==> last.expected == LastWrite(init, front, last.key)) by {
        if ReadsExplained(init, actions) {
          assert actions[|front|] == last && actions[..|front|] == front;
          forall k | 0 <= k < |front| && front[k].Read?
            ensures front[k].expected == LastWrite(init, front[..k], front[k].key)
          {
            assert actions[k] == front[k];
          }
        }
      }
      if Apply(init, front).Some? {
        var s := Apply(init, front).value;
        assert [last][1..] == [];
      }
    }
  }

  lemma WitnessIffSerialOrder<K, V>(init: map<K, V>, txns: seq<TxnOp<K, V>>, path: seq<nat>)
    ensures IsWitness(TxnProblem(txns), init, path) <==> IsSerialOrder(init, txns, path)
  {
    if IsPermutation(path, |txns|) {
      ReplayIsApply(txns, init, path);
      ApplyIffExplained(init, Flatten(txns, path));
    }
  }

  // ----- the in-place search -----

  class TxnSearch<K(==), V(==)> {
    const txns: seq<TxnOp<K, V>>
    const preds: seq<seq<nat>>
    const maxSteps: nat
    const used: array<bool>
    var order: seq<nat>
    var explored: nat
    var inconclusive: bool
    var seen: seq<(seq<bool>, map<K, V>)>
    ghost var path: seq<nat>  // the indices whose ids are in `order`

    ghost predicate Valid()
      reads this, used
    {
      && used.Length == |txns|
      && AllPredecessors(Spans(txns), preds)
      && Count(used[..]) == |path| <= |txns|
      && (forall k :: 0 <= k < |path| ==> path[k] < |txns|)
      && order == Ids(txns, path)
    }

    ghost function Memory(): Memo<map<K, V>>
      reads this
    {
      Memo(explored, inconclusive, seen)
    }

    constructor (txns: seq<TxnOp<K, V>>, preds: seq<seq<nat>>, maxSteps: nat)
      requires AllPredecessors(Spans(txns), preds)
      ensures Valid() && fresh(this) && fresh(used)
      ensures this.txns == txns && this.maxSteps == maxSteps
      ensures Memory() == Fresh() && path == [] && used[..] == Marks(|txns|, [])
    {
      this.txns, this.preds, this.maxSteps := txns, preds, maxSteps;
      used := new bool[|txns|](_ => false);
      order, explored, inconclusive, seen := [], 0, false, [];
      path := [];
      new;
      assert used[..] == Marks(|txns|, []);
      CountBounds(used[..]);
    }

    // Take transaction i, search on, give it back on failure.
    method Descend(i: nat, next: map<K, V>) returns (found: bool)
      requires Valid() && i < |txns| && |path| < |txns| && !used[i] && !inconclusive
      modifies this, used
      ensures Valid()
      ensures (CountSet(old(used[..]), i);
               var r := T.Visit(TxnProblem(txns), old(used[..])[i := true], old(path) + [i], next, maxSteps,
                                old(Memory()));
               && Memory() == r.memo
               && found == r.found.Some?
               && if found then path == r.found.value else path == old(path) && used[..] == old(used[..]))
      decreases |txns| - |path|, 0
    {
      ghost var used0 := used[..];
      CountSet(used0, i);
      used[i] := true;
      assert used[..] == used0[i := true];
      order := order + [txns[i].id];
      path := path + [i];
      found := Dfs(next);
      if !found {
        order := order[..|order| - 1];
        path := path[..|path| - 1];
        used[i] := false;
        assert used[..] == used0;
      }
    }

    // The loop of `Dfs` over all candidate transactions.
    method Branch(state: map<K, V>) returns (found: bool)
      requires Valid() && |path| < |txns| && !inconclusive
      modifies this, used
      ensures Valid()
      ensures var r := T.TryFrom(TxnProblem(txns), old(used[..]), old(path), state, maxSteps, old(Memory()), 0);
              && Memory() == r.memo
              && found == r.found.Some?
              && if found then path == r.found.value else path == old(path) && used[..] == old(used[..])
      decreases |txns| - |path|, 1
    {
      ghost var p := TxnProblem(txns);
      ghost var used0 := used[..];
      ghost var path0 := path;
      ghost var goal := T.TryFrom(p, used0, path0, state, maxSteps, Memory(), 0);
      for i := 0 to |txns|
        invariant Valid() && used[..] == used0 && path == path0 && !inconclusive
        invariant T.TryFrom(p, used0, path0, state, maxSteps, Memory(), i) == goal
      {
        var ready := Ready(p, Spans(txns), preds, used, i);
        if !ready {
          continue;
        }
        explored := explored + 1;
        var next := ApplyTxn(state, txns[i]);
        if next.Some? {
          found := Descend(i, next.value);
          if found {
            return;
          }
          if inconclusive {
            return false;
          }
        }
      }
      found := false;
    }

    method Dfs(state: map<K, V>) returns (found: bool)
      requires Valid() && !inconclusive
      modifies this, used
      ensures Valid()
      ensures var r := T.Visit(TxnProblem(txns), old(used[..]), old(path), state, maxSteps, old(Memory()));
              && Memory() == r.memo
              && found == r.found.Some?
              && if found then path == r.found.value else path == old(path) && used[..] == old(used[..])
      decreases |txns| - |path|, 2
    {
      CountBounds(used[..]);
      if explored >= maxSteps {
        inconclusive := true;
        return false;
      }
      if forall i :: 0 <= i < used.Length ==> used[i] {
        assert T.AllUsed(used[..]);
        return true;
      }
      assert !T.AllUsed(used[..]);
      if (used[..], state) in seen {
        return false;
      }
      seen := seen + [(used[..], state)];
      found := Branch(state);
    }
  }

  // ----- the checker -----

  datatype SerializableResult =
    | Serializable(order: seq<nat>)
    | NotSerializable(reason: string, conflict: Option<(nat, nat)>, minimalSubhistory: seq<nat>,
                      exploredStates: nat, budgetExhausted: bool)
    | Inconclusive(exploredStates: nat, budgetExhausted: bool)

  const NO_ORDER := "no serial transaction order matched observed reads"

  ghost predicate IsFirstSerialOrder<K, V>(init: map<K, V>, txns: seq<TxnOp<K, V>>, order: seq<nat>, path: seq<nat>) {
    && IsSerialOrder(init, txns, path)
    && (forall other :: IsSerialOrder(init, txns, other) ==> LexLeq(path, other))
    && order == Ids(txns, path)
  }

  // The search proper: build the state, start it, read off the outcome.
  method RunTxnSearch<K(==, !new), V(==, !new)>(initial: map<K, V>, txns: seq<TxnOp<K, V>>, maxSteps: nat)
    returns (serializable: bool, inconclusive: bool, explored: nat, order: seq<nat>)
    ensures var r := T.Search(TxnProblem(txns), initial, maxSteps);
            && inconclusive == r.memo.inconclusive && explored == r.memo.explored
            && serializable == r.found.Some?
    ensures explored <= maxSteps + |txns| * (|txns| - 1) / 2
    ensures inconclusive ==> !serializable && explored >= maxSteps
    ensures serializable ==> exists path :: IsFirstSerialOrder(initial, txns, order, path)
    ensures !serializable && !inconclusive ==> forall path :: !IsSerialOrder(initial, txns, path)
  {
    var preds := Predecessors(Spans(txns));
    var search := new TxnSearch(txns, preds, maxSteps);
    serializable := search.Dfs(initial);
    T.SearchExact(TxnProblem(txns), initial, maxSteps);
    T.SearchCost(TxnProblem(txns), initial, maxSteps);
    forall path ensures IsWitness(TxnProblem(txns), initial, path) <==> IsSerialOrder(initial, txns, path) {
      WitnessIffSerialOrder(initial, txns, path);
    }
    inconclusive, explored, order := search.inconclusive, search.explored, search.order;
    if serializable {
      assert IsFirstSerialOrder(initial, txns, order, search.path);
    }
  }

  method CheckSerializable<K(==, !new), V(==, !new)>(initial: map<K, V>, history: seq<TxnOp<K, V>>, maxSteps: nat)
    returns (result: SerializableResult)
    ensures var r := T.Search(TxnProblem(Eligible(history)), initial, maxSteps);
            && (result.Inconclusive? <==> r.memo.inconclusive)
            && (result.Serializable? <==> r.found.Some?)
            && (!result.Serializable? ==> result.exploredStates == r.memo.explored)
            && (!result.Serializable? ==> result.budgetExhausted == result.Inconclusive?)
    ensures result.Serializable? ==>
              exists path :: IsFirstSerialOrder(initial, Eligible(history), result.order, path)
    ensures result.NotSerializable? ==> forall path :: !IsSerialOrder(initial, Eligible(history), path)
    ensures var n := |Eligible(history)|;
            !result.Serializable? ==> result.exploredStates <= maxSteps + n * (n - 1) / 2
    ensures result.Inconclusive? ==> result.exploredStates >= maxSteps
    ensures result.NotSerializable? ==>
              var ids := result.minimalSubhistory;
              && ids == Ids(Eligible(history), Range(|Eligible(history)|))
              && ids != [] && result.conflict == Some((ids[0], ids[|ids| - 1]))
  {
    var txns := Eligible(history);
    var serializable, inconclusive, explored, order := RunTxnSearch(initial, txns, maxSteps);
    if inconclusive {
      return Inconclusive(explored, true);
    }
    if serializable {
      return Serializable(order);
    }
    EmptyIsSerial(initial);
    assert txns != [];
    var ids := Ids(txns, Range(|txns|));
    var conflict :=
      if |ids| == 0 then None
      else if |ids| == 1 then Some((ids[0], ids[0]))
      else Some((ids[0], ids[|ids| - 1]));
    result := NotSerializable(NO_ORDER, conflict, ids, explored, false);
  }

  lemma EmptyIsSerial<K, V>(initial: map<K, V>)
    ensures IsSerialOrder<K, V>(initial, [], [])
  {
  }
}
