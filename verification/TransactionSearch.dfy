// The memoised, budgeted search over transaction orders. It charges its budget
// for every transaction it applies, tests the budget before it tests for
// completion, and abandons the whole search once the budget is gone.
module TransactionSearch {
  import opened Base
  import opened SerialOrders

  predicate AllUsed(used: seq<bool>) {
    forall i :: 0 <= i < |used| ==> used[i]
  }

  function Visit<S(==)>(p: Problem<S>, used: seq<bool>, path: seq<nat>, s: S, max: nat, memo: Memo<S>): Outcome<S>
    requires |used| == p.n && Count(used) == |path|
    decreases p.n - |path|, p.n + 1
  {
    CountBounds(used);
    if memo.explored >= max then
      Outcome(memo.(inconclusive := true), None)
    else if AllUsed(used) then
      Outcome(memo, Some(path))
    else if (used, s) in memo.seen then
      Outcome(memo, None)
    else
      TryFrom(p, used, path, s, max, memo.(seen := memo.seen + [(used, s)]), 0)
  }

  function TryFrom<S(==)>(p: Problem<S>, used: seq<bool>, path: seq<nat>, s: S, max: nat, memo: Memo<S>, i: nat)
    : Outcome<S>
    requires |used| == p.n && Count(used) == |path| < p.n && i <= p.n
    decreases p.n - |path|, p.n - i
  {
    if i == p.n then
      Outcome(memo, None)
    else if !Enabled(p, used, i) then
      TryFrom(p, used, path, s, max, memo, i + 1)
    else
      var charged := memo.(explored := memo.explored + 1);
      match p.step(s, i)
      case None => TryFrom(p, used, path, s, max, charged, i + 1)
      case Some(next) =>
        CountSet(used, i);
        var r := Visit(p, used[i := true], path + [i], next, max, charged);
        if r.found.Some? || r.memo.inconclusive then r
        else TryFrom(p, used, path, s, max, r.memo, i + 1)
  }

  function Search<S(==)>(p: Problem<S>, s: S, max: nat): Outcome<S> {
    CountBounds(Marks(p.n, []));
    Visit(p, Marks(p.n, []), [], s, max, Fresh())
  }

  // ----- the memo table -----

  ghost predicate MemoOk<S>(p: Problem<S>, max: nat, memo: Memo<S>) {
    && Distinct(memo.seen)
    && (forall e :: e in memo.seen ==> |e.0| == p.n)
    && (memo.inconclusive ==> memo.explored >= max)
  }

  lemma {:induction false} VisitMemo<S>(p: Problem<S>, used: seq<bool>, path: seq<nat>, s: S, max: nat, memo: Memo<S>)
    requires |used| == p.n && Count(used) == |path| && MemoOk(p, max, memo) && !memo.inconclusive
    ensures var r := Visit(p, used, path, s, max, memo);
            && MemoOk(p, max, r.memo)
            && Grows(memo, r.memo, |path|)
            && (r.memo.inconclusive ==> r.found.None?)
    decreases p.n - |path|, p.n + 1
  {
    CountBounds(used);
    if memo.explored < max && !AllUsed(used) && (used, s) !in memo.seen {
      TryMemo(p, used, path, s, max, memo.(seen := memo.seen + [(used, s)]), 0);
    }
  }

  lemma {:induction false} TryMemo<S>(p: Problem<S>, used: seq<bool>, path: seq<nat>, s: S, max: nat, memo: Memo<S>,
                                      i: nat)
    requires |used| == p.n && Count(used) == |path| < p.n && i <= p.n && MemoOk(p, max, memo) && !memo.inconclusive
    ensures var r := TryFrom(p, used, path, s, max, memo, i);
            && MemoOk(p, max, r.memo)
            && Grows(memo, r.memo, |path| + 1)
            && (r.memo.inconclusive ==> r.found.None?)
    decreases p.n - |path|, p.n - i
  {
    if i < p.n {
      if !Enabled(p, used, i) {
        TryMemo(p, used, path, s, max, memo, i + 1);
      } else {
        var charged := memo.(explored := memo.explored + 1);
        match p.step(s, i)
        case None => TryMemo(p, used, path, s, max, charged, i + 1);
        case Some(next) =>
          CountSet(used, i);
          VisitMemo(p, used[i := true], path + [i], next, max, charged);
          var r := Visit(p, used[i := true], path + [i], next, max, charged);
          if r.found.None? && !r.memo.inconclusive {
            TryMemo(p, used, path, s, max, r.memo, i + 1);
          }
      }
    }
  }

  // ----- exactness -----

  lemma {:induction false} VisitExact<S(!new)>(p: Problem<S>, used: seq<bool>, path: seq<nat>, s: S, max: nat,
                                         memo: Memo<S>)
    requires |used| == p.n && Count(used) == |path|
    requires MemoOk(p, max, memo) && !memo.inconclusive && DeadBelow(p, memo, |path|)
    ensures Exact(p, used, path, s, Visit(p, used, path, s, max, memo))
    decreases p.n - |path|, p.n + 1
  {
    CountBounds(used);
    if AllUsed(used) {
      assert path[|path|..] == [];
      assert Completes(p, used, s, []);
    } else if memo.explored < max && (used, s) !in memo.seen {
      TryExact(p, used, path, s, max, memo.(seen := memo.seen + [(used, s)]), 0);
    }
  }

  lemma {:induction false} TryExact<S(!new)>(p: Problem<S>, used: seq<bool>, path: seq<nat>, s: S, max: nat,
                                       memo: Memo<S>, i: nat)
    requires |used| == p.n && Count(used) == |path| < p.n && i <= p.n && MemoOk(p, max, memo) && !memo.inconclusive
    requires forall e :: e in memo.seen && Count(e.0) >= |path| && e != (used, s) ==> NoWay(p, e.0, e.1)
    requires forall j: nat :: j < i ==> Hopeless(p, used, s, j)
    ensures Exact(p, used, path, s, TryFrom(p, used, path, s, max, memo, i))
    decreases p.n - |path|, p.n - i
  {
    if i == p.n {
      NothingLeft(p, used, s);
    } else if !Enabled(p, used, i) {
      TryExact(p, used, path, s, max, memo, i + 1);
    } else {
      var charged := memo.(explored := memo.explored + 1);
      match p.step(s, i)
      case None => TryExact(p, used, path, s, max, charged, i + 1);
      case Some(next) =>
        CountSet(used, i);
        VisitMemo(p, used[i := true], path + [i], next, max, charged);
        VisitExact(p, used[i := true], path + [i], next, max, charged);
        var r := Visit(p, used[i := true], path + [i], next, max, charged);
        if r.found.Some? {
          LeastVia(p, used, path, s, i, r.found.value);
        } else if !r.memo.inconclusive {
          TryExact(p, used, path, s, max, r.memo, i + 1);
        }
    }
  }

  lemma SearchExact<S(!new)>(p: Problem<S>, s: S, max: nat)
    requires Irreflexive(p)
    ensures var r := Search(p, s, max);
            && MemoOk(p, max, r.memo)
            && (r.found.Some? ==> !r.memo.inconclusive && LeastWitness(p, s, r.found.value))
            && (r.found.None? && !r.memo.inconclusive ==> forall path :: !IsWitness(p, s, path))
  {
    var none := Marks(p.n, []);
    CountBounds(none);
    VisitMemo(p, none, [], s, max, Fresh());
    VisitExact(p, none, [], s, max, Fresh());
    var r := Search(p, s, max);
    forall path ensures Completes(p, none, s, path) <==> IsWitness(p, s, path) {
      CompletesIffWitness(p, s, path);
    }
    if r.found.Some? {
      assert r.found.value[0..] == r.found.value;
    }
  }

  // ----- how far the step count may overshoot the budget -----

  // The number of pairs among k things.
  function Pairs(k: nat): nat {
    if k == 0 then 0 else Pairs(k - 1) + (k - 1)
  }

  lemma {:induction false} PairsClosedForm(k: nat)
    ensures 2 * Pairs(k) == k * (k - 1)
  {
    if k > 0 { PairsClosedForm(k - 1); }
  }

  // Unused indices from i on.
  function FreeFrom(used: seq<bool>, i: nat): nat
    requires i <= |used|
    decreases |used| - i
  {
    if i == |used| then 0 else (if used[i] then 0 else 1) + FreeFrom(used, i + 1)
  }

  lemma {:induction false} FreeFromCount(used: seq<bool>, i: nat)
    requires i <= |used|
    ensures FreeFrom(used, i) + Count(used[i..]) == |used| - i
    decreases |used| - i
  {
    if i < |used| {
      FreeFromCount(used, i + 1);
      assert used[i..][1..] == used[i+1..];
    }
  }

  lemma {:induction false} VisitCost<S>(p: Problem<S>, used: seq<bool>, path: seq<nat>, s: S, max: nat, memo: Memo<S>)
    requires |used| == p.n && Count(used) == |path| <= p.n
    ensures Visit(p, used, path, s, max, memo).memo.explored <= Max(memo.explored, max + Pairs(p.n - |path|))
    decreases p.n - |path|, p.n + 1
  {
    CountBounds(used);
    if memo.explored < max && !AllUsed(used) && (used, s) !in memo.seen {
      FreeFromCount(used, 0);
      assert used[0..] == used;
      TryCost(p, used, path, s, max, memo.(seen := memo.seen + [(used, s)]), 0);
    }
  }

  lemma {:induction false} TryCost<S>(p: Problem<S>, used: seq<bool>, path: seq<nat>, s: S, max: nat, memo: Memo<S>,
                                      i: nat)
    requires |used| == p.n && Count(used) == |path| < p.n && i <= p.n
    ensures var e := TryFrom(p, used, path, s, max, memo, i).memo.explored;
            var free := FreeFrom(used, i);
            e <= if free == 0 then memo.explored
                 else Max(memo.explored + free, max + Pairs(p.n - |path| - 1) + free - 1)
    decreases p.n - |path|, p.n - i
  {
    if i < p.n {
      if !Enabled(p, used, i) {
        TryCost(p, used, path, s, max, memo, i + 1);
      } else {
        var charged := memo.(explored := memo.explored + 1);
        match p.step(s, i)
        case None => TryCost(p, used, path, s, max, charged, i + 1);
        case Some(next) =>
          CountSet(used, i);
          DescendCost(p, used, path, s, next, max, charged, i);
      }
    }
  }

  lemma {:induction false} DescendCost<S>(p: Problem<S>, used: seq<bool>, path: seq<nat>, s: S, next: S, max: nat,
                                          charged: Memo<S>, i: nat)
    requires |used| == p.n && Count(used) == |path| < p.n && i < p.n && !used[i] && charged.explored > 0
    requires Count(used[i := true]) == |path| + 1
    ensures var r := Visit(p, used[i := true], path + [i], next, max, charged);
            var end := if r.found.Some? || r.memo.inconclusive then r.memo
                       else TryFrom(p, used, path, s, max, r.memo, i + 1).memo;
            var free := FreeFrom(used, i);
            end.explored <= Max(charged.explored - 1 + free, max + Pairs(p.n - |path| - 1) + free - 1)
    decreases p.n - |path|, p.n - i, 0
  {
    VisitCost(p, used[i := true], path + [i], next, max, charged);
    var r := Visit(p, used[i := true], path + [i], next, max, charged);
    if r.found.None? && !r.memo.inconclusive {
      TryCost(p, used, path, s, max, r.memo, i + 1);
    }
  }

  lemma SearchCost<S>(p: Problem<S>, s: S, max: nat)
    ensures Search(p, s, max).memo.explored <= max + p.n * (p.n - 1) / 2
    ensures Search(p, s, max).memo.inconclusive ==> Search(p, s, max).memo.explored >= max
  {
    CountBounds(Marks(p.n, []));
    VisitCost(p, Marks(p.n, []), [], s, max, Fresh());
    VisitMemo(p, Marks(p.n, []), [], s, max, Fresh());
    PairsClosedForm(p.n);
  }

  // ----- raising the budget -----

  lemma {:induction false} VisitBudget<S>(p: Problem<S>, used: seq<bool>, path: seq<nat>, s: S, max: nat, more: nat,
                                          memo: Memo<S>)
    requires |used| == p.n && Count(used) == |path| && max <= more
    requires !Visit(p, used, path, s, max, memo).memo.inconclusive
    ensures Visit(p, used, path, s, more, memo) == Visit(p, used, path, s, max, memo)
    decreases p.n - |path|, p.n + 1
  {
    CountBounds(used);
    if memo.explored < max && !AllUsed(used) && (used, s) !in memo.seen {
      TryBudget(p, used, path, s, max, more, memo.(seen := memo.seen + [(used, s)]), 0);
    }
  }

  lemma {:induction false} TryBudget<S>(p: Problem<S>, used: seq<bool>, path: seq<nat>, s: S, max: nat, more: nat,
                                        memo: Memo<S>, i: nat)
    requires |used| == p.n && Count(used) == |path| < p.n && i <= p.n && max <= more
    requires !TryFrom(p, used, path, s, max, memo, i).memo.inconclusive
    ensures TryFrom(p, used, path, s, more, memo, i) == TryFrom(p, used, path, s, max, memo, i)
    decreases p.n - |path|, p.n - i
  {
    if i < p.n {
      if !Enabled(p, used, i) {
        TryBudget(p, used, path, s, max, more, memo, i + 1);
      } else {
        var charged := memo.(explored := memo.explored + 1);
        match p.step(s, i)
        case None => TryBudget(p, used, path, s, max, more, charged, i + 1);
        case Some(next) =>
          CountSet(used, i);
          VisitBudget(p, used[i := true], path + [i], next, max, more, charged);
          var r := Visit(p, used[i := true], path + [i], next, max, charged);
          if r.found.None? {
            TryBudget(p, used, path, s, max, more, r.memo, i + 1);
          }
      }
    }
  }

  lemma BudgetMonotone<S>(p: Problem<S>, s: S, max: nat, more: nat)
    requires max <= more && !Search(p, s, max).memo.inconclusive
    ensures Search(p, s, more) == Search(p, s, max)
  {
    CountBounds(Marks(p.n, []));
    VisitBudget(p, Marks(p.n, []), [], s, max, more, Fresh());
  }

  // ----- enough budget -----

  lemma {:induction false} VisitWithin<S>(p: Problem<S>, used: seq<bool>, path: seq<nat>, s: S, max: nat, memo: Memo<S>)
    requires |used| == p.n && Count(used) == |path| <= p.n && !memo.inconclusive
    requires memo.explored + TreeSize(p.n, p.n - |path|) <= max
    ensures Within(memo, TreeSize(p.n, p.n - |path|) - 1, Visit(p, used, path, s, max, memo))
    decreases p.n - |path|, p.n + 1
  {
    CountBounds(used);
    if !AllUsed(used) && (used, s) !in memo.seen {
      TryWithin(p, used, path, s, max, memo.(seen := memo.seen + [(used, s)]), 0);
    }
  }

  lemma {:induction false} TryWithin<S>(p: Problem<S>, used: seq<bool>, path: seq<nat>, s: S, max: nat,
                                        memo: Memo<S>, i: nat)
    requires |used| == p.n && Count(used) == |path| < p.n && i <= p.n && !memo.inconclusive
    requires memo.explored + ForestSize(p.n, p.n - |path|, p.n - i) + 1 <= max
    ensures Within(memo, ForestSize(p.n, p.n - |path|, p.n - i), TryFrom(p, used, path, s, max, memo, i))
    decreases p.n - |path|, p.n - i
  {
    if i < p.n {
      if !Enabled(p, used, i) {
        TryWithin(p, used, path, s, max, memo, i + 1);
      } else {
        var charged := memo.(explored := memo.explored + 1);
        match p.step(s, i)
        case None => TryWithin(p, used, path, s, max, charged, i + 1);
        case Some(next) =>
          CountSet(used, i);
          VisitWithin(p, used[i := true], path + [i], next, max, charged);
          var r := Visit(p, used[i := true], path + [i], next, max, charged);
          if r.found.None? {
            TryWithin(p, used, path, s, max, r.memo, i + 1);
          }
      }
    }
  }

  // A budget as large as the search tree always brings a definite verdict.
  lemma LargeBudgetDecides<S>(p: Problem<S>, s: S, max: nat)
    requires max >= TreeSize(p.n, p.n)
    ensures !Search(p, s, max).memo.inconclusive
  {
    CountBounds(Marks(p.n, []));
    VisitWithin(p, Marks(p.n, []), [], s, max, Fresh());
  }
}
