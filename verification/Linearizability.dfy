// The memoised, budgeted linearizability search.
module Linearizability {
  import opened Base
  import opened SearchScope
  import opened SerialOrders

  // ----- the search as a function of its inputs -----

  function Visit<S(==)>(p: Problem<S>, used: seq<bool>, path: seq<nat>, s: S, max: nat, memo: Memo<S>): Outcome<S>
    requires |used| == p.n && |path| <= p.n
    decreases p.n - |path|, p.n + 1
  {
    if |path| == p.n then
      Outcome(memo, Some(path))
    else if memo.explored >= max then
      Outcome(memo.(inconclusive := true), None)
    else if (used, s) in memo.seen then
      Outcome(memo, None)
    else
      TryFrom(p, used, path, s, max,
              memo.(explored := memo.explored + 1, seen := memo.seen + [(used, s)]), 0)
  }

  function TryFrom<S(==)>(p: Problem<S>, used: seq<bool>, path: seq<nat>, s: S, max: nat, memo: Memo<S>, i: nat)
    : Outcome<S>
    requires |used| == p.n && |path| < p.n && i <= p.n
    decreases p.n - |path|, p.n - i
  {
    if i == p.n then
      Outcome(memo, None)
    else
      match Candidate(p, used, s, i)
      case None => TryFrom(p, used, path, s, max, memo, i + 1)
      case Some(next) =>
        var r := Visit(p, used[i := true], path + [i], next, max, memo);
        if r.found.Some? then r else TryFrom(p, used, path, s, max, r.memo, i + 1)
  }

  function Search<S(==)>(p: Problem<S>, s: S, max: nat): Outcome<S> {
    Visit(p, Marks(p.n, []), [], s, max, Fresh())
  }

  // ----- the memo table and the budget -----

  ghost predicate MemoOk<S>(p: Problem<S>, max: nat, memo: Memo<S>) {
    && memo.explored == |memo.seen| <= max
    && Distinct(memo.seen)
    && (forall e :: e in memo.seen ==> |e.0| == p.n)
    && (memo.inconclusive ==> memo.explored == max)
  }

  lemma {:induction false} VisitMemo<S>(p: Problem<S>, used: seq<bool>, path: seq<nat>, s: S, max: nat, memo: Memo<S>)
    requires |used| == p.n && Count(used) == |path| <= p.n && MemoOk(p, max, memo)
    ensures var r := Visit(p, used, path, s, max, memo);
            && MemoOk(p, max, r.memo)
            && Grows(memo, r.memo, |path|)
            && (r.found.Some? && |path| < p.n ==> !r.memo.inconclusive)
            && (memo.inconclusive && |path| < p.n ==> r.memo == memo)
    decreases p.n - |path|, p.n + 1
  {
    if |path| < p.n && memo.explored < max && (used, s) !in memo.seen {
      TryMemo(p, used, path, s, max, memo.(explored := memo.explored + 1, seen := memo.seen + [(used, s)]), 0);
    }
  }

  lemma {:induction false} TryMemo<S>(p: Problem<S>, used: seq<bool>, path: seq<nat>, s: S, max: nat, memo: Memo<S>,
                                      i: nat)
    requires |used| == p.n && Count(used) == |path| < p.n && i <= p.n && MemoOk(p, max, memo)
    requires memo.inconclusive ==> |path| + 1 < p.n
    ensures var r := TryFrom(p, used, path, s, max, memo, i);
            && MemoOk(p, max, r.memo)
            && Grows(memo, r.memo, |path| + 1)
            && (r.found.Some? ==> !r.memo.inconclusive)
            && (memo.inconclusive ==> r.memo == memo)
    decreases p.n - |path|, p.n - i
  {
    if i < p.n {
      match Candidate(p, used, s, i)
      case None => TryMemo(p, used, path, s, max, memo, i + 1);
      case Some(next) =>
        CountSet(used, i);
        VisitMemo(p, used[i := true], path + [i], next, max, memo);
        var r := Visit(p, used[i := true], path + [i], next, max, memo);
        if r.found.None? {
          TryMemo(p, used, path, s, max, r.memo, i + 1);
        }
    }
  }

  // ----- exactness: a search that stays within budget loses no witness -----

  lemma {:induction false} VisitExact<S(!new)>(p: Problem<S>, used: seq<bool>, path: seq<nat>, s: S, max: nat,
                                         memo: Memo<S>)
    requires |used| == p.n && Count(used) == |path| <= p.n
    requires MemoOk(p, max, memo) && DeadBelow(p, memo, |path|)
    ensures Exact(p, used, path, s, Visit(p, used, path, s, max, memo))
    decreases p.n - |path|, p.n + 1
  {
    CountBounds(used);
    if |path| == p.n {
      assert path[|path|..] == [];
      assert Completes(p, used, s, []);
    } else if memo.explored < max && (used, s) !in memo.seen {
      var memo1 := memo.(explored := memo.explored + 1, seen := memo.seen + [(used, s)]);
      TryExact(p, used, path, s, max, memo1, 0);
    }
  }

  lemma {:induction false} TryExact<S(!new)>(p: Problem<S>, used: seq<bool>, path: seq<nat>, s: S, max: nat,
                                       memo: Memo<S>, i: nat)
    requires |used| == p.n && Count(used) == |path| < p.n && i <= p.n && MemoOk(p, max, memo)
    requires memo.inconclusive ==> |path| + 1 < p.n
    requires forall e :: e in memo.seen && Count(e.0) >= |path| && e != (used, s) ==> NoWay(p, e.0, e.1)
    requires forall j: nat :: j < i ==> Hopeless(p, used, s, j)
    ensures Exact(p, used, path, s, TryFrom(p, used, path, s, max, memo, i))
    decreases p.n - |path|, p.n - i
  {
    if i == p.n {
      NothingLeft(p, used, s);
    } else {
      match Candidate(p, used, s, i)
      case None => TryExact(p, used, path, s, max, memo, i + 1);
      case Some(next) =>
        CountSet(used, i);
        VisitMemo(p, used[i := true], path + [i], next, max, memo);
        VisitExact(p, used[i := true], path + [i], next, max, memo);
        var r := Visit(p, used[i := true], path + [i], next, max, memo);
        if r.found.Some? {
          if !r.memo.inconclusive {
            LeastVia(p, used, path, s, i, r.found.value);
          }
        } else {
          TryMemo(p, used, path, s, max, r.memo, i + 1);
          if !r.memo.inconclusive {
            TryExact(p, used, path, s, max, r.memo, i + 1);
          }
        }
    }
  }

  // ----- what a whole search establishes -----

  lemma SearchExact<S(!new)>(p: Problem<S>, s: S, max: nat)
    requires Irreflexive(p)
    ensures var r := Search(p, s, max);
            && MemoOk(p, max, r.memo)
            && (r.found.Some? ==> !r.memo.inconclusive && LeastWitness(p, s, r.found.value))
            && (r.found.None? && !r.memo.inconclusive ==> forall path :: !IsWitness(p, s, path))
  {
    var none := Marks(p.n, []);
    CountBounds(none);
    VisitMemo(p, none, [], s, max, Fresh());
    VisitExact(p, none, [], s, max, Fresh());
    var r := Search(p, s, max);
    forall path ensures Completes(p, none, s, path) <==> IsWitness(p, s, path) {
      CompletesIffWitness(p, s, path);
    }
    if r.found.Some? {
      assert r.found.value[0..] == r.found.value;
    }
  }

  // ----- what the search remembers -----

  lemma {:induction false} VisitNodes<S(!new)>(p: Problem<S>, used: seq<bool>, path: seq<nat>, s: S, max: nat,
                                               memo: Memo<S>)
    requires |used| == p.n && Count(used) == |path| <= p.n
    requires MemoOk(p, max, memo) && DeadBelow(p, memo, |path|)
    ensures AddsNodes(p, used, s, memo, Visit(p, used, path, s, max, memo).memo)
    decreases p.n - |path|, p.n + 1
  {
    if |path| < p.n && memo.explored < max && (used, s) !in memo.seen {
      var memo1 := memo.(explored := memo.explored + 1, seen := memo.seen + [(used, s)]);
      TryNodes(p, used, path, s, max, memo1, 0);
      assert InScope(p, used, s, []) && End(p, used, s, []) == (used, s);
      assert Reaches(p, used, s, (used, s));
    }
  }

  lemma {:induction false} TryNodes<S(!new)>(p: Problem<S>, used: seq<bool>, path: seq<nat>, s: S, max: nat,
                                             memo: Memo<S>, i: nat)
    requires |used| == p.n && Count(used) == |path| < p.n && i <= p.n && MemoOk(p, max, memo)
    requires memo.inconclusive ==> |path| + 1 < p.n
    requires forall e :: e in memo.seen && Count(e.0) >= |path| && e != (used, s) ==> NoWay(p, e.0, e.1)
    requires forall j: nat :: j < i ==> Hopeless(p, used, s, j)
    ensures AddsNodes(p, used, s, memo, TryFrom(p, used, path, s, max, memo, i).memo)
    decreases p.n - |path|, p.n - i
  {
    if i < p.n {
      match Candidate(p, used, s, i)
      case None => TryNodes(p, used, path, s, max, memo, i + 1);
      case Some(next) =>
        CountSet(used, i);
        VisitMemo(p, used[i := true], path + [i], next, max, memo);
        VisitExact(p, used[i := true], path + [i], next, max, memo);
        VisitNodes(p, used[i := true], path + [i], next, max, memo);
        var r := Visit(p, used[i := true], path + [i], next, max, memo);
        NodesVia(p, used, s, i, memo, r.memo);
        if r.found.None? {
          TryMemo(p, used, path, s, max, r.memo, i + 1);
          if !r.memo.inconclusive {
            TryNodes(p, used, path, s, max, r.memo, i + 1);
          }
        }
    }
  }

  // A search that stays within budget remembers everything in scope.
  lemma {:induction false} VisitCovers<S(!new)>(p: Problem<S>, used: seq<bool>, path: seq<nat>, s: S, max: nat,
                                                memo: Memo<S>)
    requires |used| == p.n && Count(used) == |path| <= p.n
    requires MemoOk(p, max, memo) && DeadBelow(p, memo, |path|) && CoveredBelow(p, memo.seen, |path|, None)
    ensures var r := Visit(p, used, path, s, max, memo);
            !r.memo.inconclusive ==>
              && CoversScope(p, used, s, r.memo.seen)
              && (r.found.None? ==> CoveredBelow(p, r.memo.seen, |path|, None))
    decreases p.n - |path|, p.n + 1
  {
    if |path| < p.n && memo.explored < max {
      if (used, s) in memo.seen {
        assert Covered(p, memo.seen, (used, s));
      } else {
        var memo1 := memo.(explored := memo.explored + 1, seen := memo.seen + [(used, s)]);
        StillCovered(p, memo.seen, memo1.seen, |path|, (used, s));
        TryCovers(p, used, path, s, max, memo1, 0);
        TryExact(p, used, path, s, max, memo1, 0);
        var r := TryFrom(p, used, path, s, max, memo1, 0);
        if !r.memo.inconclusive && r.found.None? {
          ScopeIsAll(p, used, s, r.memo.seen);
        }
      }
    }
  }

  lemma {:induction false} TryCovers<S(!new)>(p: Problem<S>, used: seq<bool>, path: seq<nat>, s: S, max: nat,
                                              memo: Memo<S>, i: nat)
    requires |used| == p.n && Count(used) == |path| < p.n && i <= p.n && MemoOk(p, max, memo)
    requires memo.inconclusive ==> |path| + 1 < p.n
    requires forall e :: e in memo.seen && Count(e.0) >= |path| && e != (used, s) ==> NoWay(p, e.0, e.1)
    requires forall j: nat :: j < i ==> Hopeless(p, used, s, j)
    requires (used, s) in memo.seen && CoveredBelow(p, memo.seen, |path|, Some((used, s)))
    requires forall j: nat :: j < i ==> BranchCovered(p, used, s, memo.seen, j)
    ensures var r := TryFrom(p, used, path, s, max, memo, i);
            !r.memo.inconclusive ==>
              && CoversScope(p, used, s, r.memo.seen)
              && (r.found.None? ==> CoveredBelow(p, r.memo.seen, |path|, Some((used, s))))
    decreases p.n - |path|, p.n - i
  {
    if i == p.n {
      AllBranches(p, used, s, memo.seen);
    } else {
      match Candidate(p, used, s, i)
      case None => TryCovers(p, used, path, s, max, memo, i + 1);
      case Some(next) =>
        BranchRuns(p, used, path, s, max, memo, i);
        var r := Visit(p, used[i := true], path + [i], next, max, memo);
        BranchesKept(p, used, s, memo.seen, r.memo.seen, i);
        if r.found.Some? {
          if !r.memo.inconclusive { UpToBranch(p, used, s, r.memo.seen, i); }
        } else {
          TryMemo(p, used, path, s, max, r.memo, i + 1);
          if !r.memo.inconclusive {
            TryCovers(p, used, path, s, max, r.memo, i + 1);
          }
        }
    }
  }

  // One branch of the loop.
  lemma {:induction false} BranchRuns<S(!new)>(p: Problem<S>, used: seq<bool>, path: seq<nat>, s: S, max: nat,
                                               memo: Memo<S>, i: nat)
    requires |used| == p.n && Count(used) == |path| < p.n && i < p.n && MemoOk(p, max, memo)
    requires memo.inconclusive ==> |path| + 1 < p.n
    requires forall e :: e in memo.seen && Count(e.0) >= |path| && e != (used, s) ==> NoWay(p, e.0, e.1)
    requires CoveredBelow(p, memo.seen, |path|, Some((used, s))) && Candidate(p, used, s, i).Some?
    ensures var next := Candidate(p, used, s, i).value;
            var r := Visit(p, used[i := true], path + [i], next, max, memo);
            && MemoOk(p, max, r.memo) && memo.seen <= r.memo.seen
            && (r.memo.inconclusive && r.found.None? ==> |path| + 1 < p.n)
            && (!r.memo.inconclusive ==> CoversScope(p, used[i := true], next, r.memo.seen))
            && (!r.memo.inconclusive && r.found.Some? ==> !NoWay(p, used[i := true], next))
            && (!r.memo.inconclusive && r.found.None? ==>
                  && Hopeless(p, used, s, i) && BranchCovered(p, used, s, r.memo.seen, i)
                  && CoveredBelow(p, r.memo.seen, |path|, Some((used, s)))
                  && forall e :: e in r.memo.seen && Count(e.0) >= |path| && e != (used, s) ==> NoWay(p, e.0, e.1))
    decreases p.n - |path|, p.n - i, 0
  {
    var next := Candidate(p, used, s, i).value;
    CountSet(used, i);
    VisitMemo(p, used[i := true], path + [i], next, max, memo);
    VisitExact(p, used[i := true], path + [i], next, max, memo);
    VisitCovers(p, used[i := true], path + [i], next, max, memo);
    var r := Visit(p, used[i := true], path + [i], next, max, memo);
    if !r.memo.inconclusive && r.found.None? {
      BranchDone(p, used, s, |path|, memo.seen, r.memo.seen, i);
    }
  }

  // The states remembered are among those that the runs not after the first
  // witness reach, each once, and the steps counted are their number; within
  // budget they are all of them.
  lemma SearchRemembers<S(!new)>(p: Problem<S>, s: S, max: nat)
    requires Irreflexive(p)
    ensures var memo := Search(p, s, max).memo;
            && Distinct(memo.seen) && memo.explored == |memo.seen|
            && (forall e :: e in memo.seen ==> IsNode(p, s, e))
            && (!memo.inconclusive ==> forall e :: IsNode(p, s, e) ==> e in memo.seen)
  {
    var none := Marks(p.n, []);
    var memo := Search(p, s, max).memo;
    CountBounds(none);
    VisitMemo(p, none, [], s, max, Fresh());
    VisitNodes(p, none, [], s, max, Fresh());
    VisitCovers(p, none, [], s, max, Fresh());
    forall e | e in memo.seen ensures IsNode(p, s, e) {
      assert Reaches(p, none, s, e);
      var done :| InScope(p, none, s, done) && End(p, none, s, done) == e;
      ScopeIff(p, s, done);
      assert IsAhead(p, s, done) && NodeOf(p, s, done) == e;
    }
    if !memo.inconclusive {
      forall e | IsNode(p, s, e) ensures e in memo.seen {
        var done :| IsAhead(p, s, done) && NodeOf(p, s, done) == e;
        ScopeIff(p, s, done);
      }
    }
  }

  // With more states than budget the search is cut short; with fewer it is not.
  lemma BudgetDecides<S(!new)>(p: Problem<S>, s: S, max: nat, nodes: seq<(seq<bool>, S)>)
    requires Irreflexive(p) && Distinct(nodes) && forall e :: e in nodes <==> IsNode(p, s, e)
    ensures |nodes| > max ==> Search(p, s, max).memo.inconclusive
    ensures |nodes| < max ==> !Search(p, s, max).memo.inconclusive
    ensures !Search(p, s, max).memo.inconclusive ==> Search(p, s, max).memo.explored == |nodes|
  {
    SearchRemembers(p, s, max);
    var memo := Search(p, s, max).memo;
    CountBounds(Marks(p.n, []));
    VisitMemo(p, Marks(p.n, []), [], s, max, Fresh());
    FitsInside(memo.seen, nodes);
    if !memo.inconclusive { FitsInside(nodes, memo.seen); }
  }

  // ----- raising the budget -----

  lemma {:induction false} VisitBudget<S>(p: Problem<S>, used: seq<bool>, path: seq<nat>, s: S, max: nat, more: nat,
                                          memo: Memo<S>)
    requires |used| == p.n && Count(used) == |path| <= p.n && max <= more && MemoOk(p, max, memo)
    requires !Visit(p, used, path, s, max, memo).memo.inconclusive
    ensures Visit(p, used, path, s, more, memo) == Visit(p, used, path, s, max, memo)
    decreases p.n - |path|, p.n + 1
  {
    VisitMemo(p, used, path, s, max, memo);
    if |path| < p.n && memo.explored < max && (used, s) !in memo.seen {
      TryBudget(p, used, path, s, max, more,
                memo.(explored := memo.explored + 1, seen := memo.seen + [(used, s)]), 0);
    }
  }

  lemma {:induction false} TryBudget<S>(p: Problem<S>, used: seq<bool>, path: seq<nat>, s: S, max: nat, more: nat,
                                        memo: Memo<S>, i: nat)
    requires |used| == p.n && Count(used) == |path| < p.n && i <= p.n && max <= more && MemoOk(p, max, memo)
    requires !memo.inconclusive && !TryFrom(p, used, path, s, max, memo, i).memo.inconclusive
    ensures TryFrom(p, used, path, s, more, memo, i) == TryFrom(p, used, path, s, max, memo, i)
    decreases p.n - |path|, p.n - i
  {
    if i < p.n {
      match Candidate(p, used, s, i)
      case None => TryBudget(p, used, path, s, max, more, memo, i + 1);
      case Some(next) =>
        CountSet(used, i);
        VisitMemo(p, used[i := true], path + [i], next, max, memo);
        var r := Visit(p, used[i := true], path + [i], next, max, memo);
        if r.found.None? && i + 1 <= p.n {
          TryMemo(p, used, path, s, max, r.memo, i + 1);
        }
        VisitBudget(p, used[i := true], path + [i], next, max, more, memo);
        if r.found.None? {
          TryBudget(p, used, path, s, max, more, r.memo, i + 1);
        }
    }
  }

  // A definite verdict, its witness and its step count survive any larger budget.
  lemma BudgetMonotone<S>(p: Problem<S>, s: S, max: nat, more: nat)
    requires max <= more && !Search(p, s, max).memo.inconclusive
    ensures Search(p, s, more) == Search(p, s, max)
  {
    CountBounds(Marks(p.n, []));
    VisitBudget(p, Marks(p.n, []), [], s, max, more, Fresh());
  }

  // ----- enough budget -----

  lemma {:induction false} VisitWithin<S>(p: Problem<S>, used: seq<bool>, path: seq<nat>, s: S, max: nat, memo: Memo<S>)
    requires |used| == p.n && |path| <= p.n && !memo.inconclusive
    requires memo.explored + TreeSize(p.n, p.n - |path|) <= max
    ensures Within(memo, TreeSize(p.n, p.n - |path|), Visit(p, used, path, s, max, memo))
    decreases p.n - |path|, p.n + 1
  {
    if |path| < p.n && (used, s) !in memo.seen {
      var memo1 := memo.(explored := memo.explored + 1, seen := memo.seen + [(used, s)]);
      TryWithin(p, used, path, s, max, memo1, 0);
    }
  }

  lemma {:induction false} TryWithin<S>(p: Problem<S>, used: seq<bool>, path: seq<nat>, s: S, max: nat,
                                        memo: Memo<S>, i: nat)
    requires |used| == p.n && |path| < p.n && i <= p.n && !memo.inconclusive
    requires memo.explored + ForestSize(p.n, p.n - |path|, p.n - i) <= max
    ensures Within(memo, ForestSize(p.n, p.n - |path|, p.n - i), TryFrom(p, used, path, s, max, memo, i))
    decreases p.n - |path|, p.n - i
  {
    if i < p.n {
      match Candidate(p, used, s, i)
      case None => TryWithin(p, used, path, s, max, memo, i + 1);
      case Some(next) =>
        VisitWithin(p, used[i := true], path + [i], next, max, memo);
        var r := Visit(p, used[i := true], path + [i], next, max, memo);
        if r.found.None? {
          TryWithin(p, used, path, s, max, r.memo, i + 1);
        }
    }
  }

  // A budget as large as the search tree always brings a definite verdict.
  lemma LargeBudgetDecides<S>(p: Problem<S>, s: S, max: nat)
    requires max >= TreeSize(p.n, p.n)
    ensures !Search(p, s, max).memo.inconclusive
  {
    CountBounds(Marks(p.n, []));
    VisitWithin(p, Marks(p.n, []), [], s, max, Fresh());
  }
}
