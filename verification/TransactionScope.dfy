// What the transaction search remembers, and what it charges for.
module TransactionScope {
  import opened Base
  import opened SearchScope
  import opened SerialOrders
  import opened TransactionSearch

  // ----- what the search remembers -----

  lemma {:induction false} VisitNodes<S(!new)>(p: Problem<S>, used: seq<bool>, path: seq<nat>, s: S, max: nat,
                                               memo: Memo<S>)
    requires |used| == p.n && Count(used) == |path|
    requires MemoOk(p, max, memo) && !memo.inconclusive && DeadBelow(p, memo, |path|)
    ensures AddsNodes(p, used, s, memo, Visit(p, used, path, s, max, memo).memo)
    decreases p.n - |path|, p.n + 1
  {
    CountBounds(used);
    if memo.explored < max && !AllUsed(used) && (used, s) !in memo.seen {
      TryNodes(p, used, path, s, max, memo.(seen := memo.seen + [(used, s)]), 0);
      assert InScope(p, used, s, []) && End(p, used, s, []) == (used, s);
      assert Reaches(p, used, s, (used, s));
    }
  }

  lemma {:induction false} TryNodes<S(!new)>(p: Problem<S>, used: seq<bool>, path: seq<nat>, s: S, max: nat,
                                             memo: Memo<S>, i: nat)
    requires |used| == p.n && Count(used) == |path| < p.n && i <= p.n && MemoOk(p, max, memo) && !memo.inconclusive
    requires forall e :: e in memo.seen && Count(e.0) >= |path| && e != (used, s) ==> NoWay(p, e.0, e.1)
    requires forall j: nat :: j < i ==> Hopeless(p, used, s, j)
    ensures AddsNodes(p, used, s, memo, TryFrom(p, used, path, s, max, memo, i).memo)
    decreases p.n - |path|, p.n - i
  {
    if i < p.n {
      if !Enabled(p, used, i) {
        TryNodes(p, used, path, s, max, memo, i + 1);
      } else {
        var charged := memo.(explored := memo.explored + 1);
        match p.step(s, i)
        case None => TryNodes(p, used, path, s, max, charged, i + 1);
        case Some(next) =>
          CountSet(used, i);
          VisitMemo(p, used[i := true], path + [i], next, max, charged);
          VisitExact(p, used[i := true], path + [i], next, max, charged);
          VisitNodes(p, used[i := true], path + [i], next, max, charged);
          var r := Visit(p, used[i := true], path + [i], next, max, charged);
          NodesVia(p, used, s, i, memo, r.memo);
          if r.found.None? && !r.memo.inconclusive {
            TryNodes(p, used, path, s, max, r.memo, i + 1);
          }
      }
    }
  }

  lemma {:induction false} VisitCovers<S(!new)>(p: Problem<S>, used: seq<bool>, path: seq<nat>, s: S, max: nat,
                                                memo: Memo<S>)
    requires |used| == p.n && Count(used) == |path|
    requires MemoOk(p, max, memo) && !memo.inconclusive && DeadBelow(p, memo, |path|)
    requires CoveredBelow(p, memo.seen, |path|, None)
    ensures var r := Visit(p, used, path, s, max, memo);
            !r.memo.inconclusive ==>
              && CoversScope(p, used, s, r.memo.seen)
              && (r.found.None? ==> CoveredBelow(p, r.memo.seen, |path|, None))
    decreases p.n - |path|, p.n + 1
  {
    CountBounds(used);
    if memo.explored < max && !AllUsed(used) {
      if (used, s) in memo.seen {
        assert Covered(p, memo.seen, (used, s));
      } else {
        var memo1 := memo.(seen := memo.seen + [(used, s)]);
        StillCovered(p, memo.seen, memo1.seen, |path|, (used, s));
        TryCovers(p, used, path, s, max, memo1, 0);
        TryExact(p, used, path, s, max, memo1, 0);
        var r := TryFrom(p, used, path, s, max, memo1, 0);
        if !r.memo.inconclusive && r.found.None? {
          ScopeIsAll(p, used, s, r.memo.seen);
        }
      }
    }
  }

  lemma {:induction false} TryCovers<S(!new)>(p: Problem<S>, used: seq<bool>, path: seq<nat>, s: S, max: nat,
                                              memo: Memo<S>, i: nat)
    requires |used| == p.n && Count(used) == |path| < p.n && i <= p.n && MemoOk(p, max, memo) && !memo.inconclusive
    requires forall e :: e in memo.seen && Count(e.0) >= |path| && e != (used, s) ==> NoWay(p, e.0, e.1)
    requires forall j: nat :: j < i ==> Hopeless(p, used, s, j)
    requires (used, s) in memo.seen && CoveredBelow(p, memo.seen, |path|, Some((used, s)))
    requires forall j: nat :: j < i ==> BranchCovered(p, used, s, memo.seen, j)
    ensures var r := TryFrom(p, used, path, s, max, memo, i);
            !r.memo.inconclusive ==>
              && CoversScope(p, used, s, r.memo.seen)
              && (r.found.None? ==> CoveredBelow(p, r.memo.seen, |path|, Some((used, s))))
    decreases p.n - |path|, p.n - i
  {
    if i == p.n {
      AllBranches(p, used, s, memo.seen);
    } else if !Enabled(p, used, i) {
      TryCovers(p, used, path, s, max, memo, i + 1);
    } else {
      var charged := memo.(explored := memo.explored + 1);
      match p.step(s, i)
      case None => TryCovers(p, used, path, s, max, charged, i + 1);
      case Some(next) =>
        CountSet(used, i);
        BranchRuns(p, used, path, s, max, charged, i);
        var r := Visit(p, used[i := true], path + [i], next, max, charged);
        BranchesKept(p, used, s, memo.seen, r.memo.seen, i);
        if !r.memo.inconclusive {
          if r.found.Some? {
            UpToBranch(p, used, s, r.memo.seen, i);
          } else {
            TryCovers(p, used, path, s, max, r.memo, i + 1);
          }
        }
    }
  }

  // One branch of the loop.
  lemma {:induction false} BranchRuns<S(!new)>(p: Problem<S>, used: seq<bool>, path: seq<nat>, s: S, max: nat,
                                               memo: Memo<S>, i: nat)
    requires |used| == p.n && Count(used) == |path| < p.n && i < p.n && MemoOk(p, max, memo) && !memo.inconclusive
    requires Candidate(p, used, s, i).Some? && Count(used[i := true]) == |path| + 1
    requires forall e :: e in memo.seen && Count(e.0) >= |path| && e != (used, s) ==> NoWay(p, e.0, e.1)
    requires CoveredBelow(p, memo.seen, |path|, Some((used, s)))
    ensures var next := Candidate(p, used, s, i).value;
            var r := Visit(p, used[i := true], path + [i], next, max, memo);
            && MemoOk(p, max, r.memo) && memo.seen <= r.memo.seen
            && (!r.memo.inconclusive ==> CoversScope(p, used[i := true], next, r.memo.seen))
            && (!r.memo.inconclusive && r.found.Some? ==> !NoWay(p, used[i := true], next))
            && (!r.memo.inconclusive && r.found.None? ==>
                  && Hopeless(p, used, s, i) && BranchCovered(p, used, s, r.memo.seen, i)
                  && CoveredBelow(p, r.memo.seen, |path|, Some((used, s)))
                  && forall e :: e in r.memo.seen && Count(e.0) >= |path| && e != (used, s) ==> NoWay(p, e.0, e.1))
    decreases p.n - |path|, p.n - i, 0
  {
    var next := Candidate(p, used, s, i).value;
    VisitMemo(p, used[i := true], path + [i], next, max, memo);
    VisitExact(p, used[i := true], path + [i], next, max, memo);
    VisitCovers(p, used[i := true], path + [i], next, max, memo);
    var r := Visit(p, used[i := true], path + [i], next, max, memo);
    if !r.memo.inconclusive && r.found.None? {
      BranchDone(p, used, s, |path|, memo.seen, r.memo.seen, i);
    }
  }

  // The states remembered are among those that the runs not after the first
  // witness reach, each once; within budget they are all of them.
  lemma SearchRemembers<S(!new)>(p: Problem<S>, s: S, max: nat)
    requires Irreflexive(p)
    ensures var memo := Search(p, s, max).memo;
            && Distinct(memo.seen)
            && (forall e :: e in memo.seen ==> IsNode(p, s, e))
            && (!memo.inconclusive ==> forall e :: IsNode(p, s, e) ==> e in memo.seen)
  {
    var none := Marks(p.n, []);
    var memo := Search(p, s, max).memo;
    CountBounds(none);
    VisitMemo(p, none, [], s, max, Fresh());
    VisitNodes(p, none, [], s, max, Fresh());
    VisitCovers(p, none, [], s, max, Fresh());
    forall e | e in memo.seen ensures IsNode(p, s, e) {
      assert Reaches(p, none, s, e);
      var done :| InScope(p, none, s, done) && End(p, none, s, done) == e;
      ScopeIff(p, s, done);
      assert IsAhead(p, s, done) && NodeOf(p, s, done) == e;
    }
    if !memo.inconclusive {
      forall e | IsNode(p, s, e) ensures e in memo.seen {
        var done :| IsAhead(p, s, done) && NodeOf(p, s, done) == e;
        ScopeIff(p, s, done);
      }
    }
  }

  // ----- what the search charges for -----

  // The transactions that may come next, from index i on.
  function Choices<S>(p: Problem<S>, used: seq<bool>, i: nat): nat
    requires |used| == p.n && i <= p.n
    decreases p.n - i
  {
    if i == p.n then 0 else (if Enabled(p, used, i) then 1 else 0) + Choices(p, used, i + 1)
  }

  function AllChoices<S>(p: Problem<S>, seen: seq<(seq<bool>, S)>): nat {
    if seen == [] then 0
    else
      var last := seen[|seen|-1].0;
      AllChoices(p, seen[..|seen|-1]) + if |last| == p.n then Choices(p, last, 0) else 0
  }

  // Along a found order, the choices that were not needed.
  function Spared<S>(p: Problem<S>, used: seq<bool>, tail: seq<nat>): nat
    requires |used| == p.n
    decreases tail
  {
    if tail == [] || tail[0] >= p.n then 0
    else Choices(p, used, tail[0] + 1) + Spared(p, used[tail[0] := true], tail[1..])
  }

  function SparedBy<S>(p: Problem<S>, used: seq<bool>, depth: nat, found: Option<seq<nat>>): nat
    requires |used| == p.n
  {
    if found.Some? && depth <= |found.value| then Spared(p, used, found.value[depth..]) else 0
  }

  lemma {:induction false} VisitCharges<S>(p: Problem<S>, used: seq<bool>, path: seq<nat>, s: S, max: nat,
                                           memo: Memo<S>)
    requires |used| == p.n && Count(used) == |path|
    ensures var r := Visit(p, used, path, s, max, memo);
            && (r.found.Some? ==> path <= r.found.value)
            && (!r.memo.inconclusive ==>
                  r.memo.explored + SparedBy(p, used, |path|, r.found) + AllChoices(p, memo.seen)
                  == memo.explored + AllChoices(p, r.memo.seen))
    decreases p.n - |path|, p.n + 1
  {
    CountBounds(used);
    if memo.explored < max && !AllUsed(used) && (used, s) !in memo.seen {
      var memo1 := memo.(seen := memo.seen + [(used, s)]);
      assert memo1.seen[..|memo.seen|] == memo.seen;
      TryCharges(p, used, path, s, max, memo1, 0);
    }
  }

  lemma {:induction false} TryCharges<S>(p: Problem<S>, used: seq<bool>, path: seq<nat>, s: S, max: nat,
                                         memo: Memo<S>, i: nat)
    requires |used| == p.n && Count(used) == |path| < p.n && i <= p.n
    ensures var r := TryFrom(p, used, path, s, max, memo, i);
            && (r.found.Some? ==> path <= r.found.value)
            && (!r.memo.inconclusive ==>
                  r.memo.explored + SparedBy(p, used, |path|, r.found) + AllChoices(p, memo.seen)
                  == memo.explored + Choices(p, used, i) + AllChoices(p, r.memo.seen))
    decreases p.n - |path|, p.n - i
  {
    if i < p.n {
      if !Enabled(p, used, i) {
        TryCharges(p, used, path, s, max, memo, i + 1);
      } else {
        var charged := memo.(explored := memo.explored + 1);
        match p.step(s, i)
        case None => TryCharges(p, used, path, s, max, charged, i + 1);
        case Some(next) =>
          CountSet(used, i);
          VisitCharges(p, used[i := true], path + [i], next, max, charged);
          var r := Visit(p, used[i := true], path + [i], next, max, charged);
          if r.found.Some? {
            SparedVia(p, used, path, i, r.found.value);
          } else if !r.memo.inconclusive {
            TryCharges(p, used, path, s, max, r.memo, i + 1);
          }
      }
    }
  }

  lemma SparedVia<S>(p: Problem<S>, used: seq<bool>, path: seq<nat>, i: nat, full: seq<nat>)
    requires |used| == p.n && i < p.n && path + [i] <= full
    ensures SparedBy(p, used, |path|, Some(full))
         == Choices(p, used, i + 1) + SparedBy(p, used[i := true], |path| + 1, Some(full))
  {
    assert full[|path|] == (path + [i])[|path|] == i;
    assert full[|path|..][1..] == full[|path| + 1..];
  }

  // Within budget the steps counted are the choices open in the states
  // remembered, but for those that the order found made unnecessary.
  lemma SearchCharges<S>(p: Problem<S>, s: S, max: nat)
    requires !Search(p, s, max).memo.inconclusive
    ensures var r := Search(p, s, max);
            r.memo.explored + SparedBy(p, Marks(p.n, []), 0, r.found) == AllChoices(p, r.memo.seen)
  {
    CountBounds(Marks(p.n, []));
    VisitCharges(p, Marks(p.n, []), [], s, max, Fresh());
  }

  // ----- a budget that is enough -----

  lemma {:induction false} VisitCounts<S>(p: Problem<S>, used: seq<bool>, path: seq<nat>, s: S, max: nat, memo: Memo<S>)
    requires |used| == p.n && Count(used) == |path|
    ensures Visit(p, used, path, s, max, memo).memo.explored >= memo.explored
    decreases p.n - |path|, p.n + 1
  {
    CountBounds(used);
    if memo.explored < max && !AllUsed(used) && (used, s) !in memo.seen {
      TryCounts(p, used, path, s, max, memo.(seen := memo.seen + [(used, s)]), 0);
    }
  }

  lemma {:induction false} TryCounts<S>(p: Problem<S>, used: seq<bool>, path: seq<nat>, s: S, max: nat, memo: Memo<S>,
                                        i: nat)
    requires |used| == p.n && Count(used) == |path| < p.n && i <= p.n
    ensures TryFrom(p, used, path, s, max, memo, i).memo.explored >= memo.explored
    decreases p.n - |path|, p.n - i
  {
    if i < p.n {
      if !Enabled(p, used, i) {
        TryCounts(p, used, path, s, max, memo, i + 1);
      } else {
        var charged := memo.(explored := memo.explored + 1);
        match p.step(s, i)
        case None => TryCounts(p, used, path, s, max, charged, i + 1);
        case Some(next) =>
          CountSet(used, i);
          VisitCounts(p, used[i := true], path + [i], next, max, charged);
          var r := Visit(p, used[i := true], path + [i], next, max, charged);
          if r.found.None? && !r.memo.inconclusive { TryCounts(p, used, path, s, max, r.memo, i + 1); }
      }
    }
  }

  lemma {:induction false} VisitEnough<S>(p: Problem<S>, used: seq<bool>, path: seq<nat>, s: S, max: nat, more: nat,
                                          memo: Memo<S>)
    requires |used| == p.n && Count(used) == |path| && max <= more
    requires var r := Visit(p, used, path, s, more, memo); !r.memo.inconclusive && r.memo.explored < max
    ensures Visit(p, used, path, s, max, memo) == Visit(p, used, path, s, more, memo)
    decreases p.n - |path|, p.n + 1
  {
    CountBounds(used);
    VisitCounts(p, used, path, s, more, memo);
    if !AllUsed(used) && (used, s) !in memo.seen {
      TryEnough(p, used, path, s, max, more, memo.(seen := memo.seen + [(used, s)]), 0);
    }
  }

  lemma {:induction false} TryEnough<S>(p: Problem<S>, used: seq<bool>, path: seq<nat>, s: S, max: nat, more: nat,
                                        memo: Memo<S>, i: nat)
    requires |used| == p.n && Count(used) == |path| < p.n && i <= p.n && max <= more
    requires var r := TryFrom(p, used, path, s, more, memo, i); !r.memo.inconclusive && r.memo.explored < max
    ensures TryFrom(p, used, path, s, max, memo, i) == TryFrom(p, used, path, s, more, memo, i)
    decreases p.n - |path|, p.n - i
  {
    if i < p.n {
      if !Enabled(p, used, i) {
        TryEnough(p, used, path, s, max, more, memo, i + 1);
      } else {
        var charged := memo.(explored := memo.explored + 1);
        match p.step(s, i)
        case None => TryEnough(p, used, path, s, max, more, charged, i + 1);
        case Some(next) =>
          CountSet(used, i);
          var r := Visit(p, used[i := true], path + [i], next, more, charged);
          if r.found.None? && !r.memo.inconclusive { TryCounts(p, used, path, s, more, r.memo, i + 1); }
          VisitEnough(p, used[i := true], path + [i], next, max, more, charged);
          if r.found.None? && !r.memo.inconclusive { TryEnough(p, used, path, s, max, more, r.memo, i + 1); }
      }
    }
  }

  // A budget above what a search in fact spends changes nothing.
  lemma SpendingDecides<S>(p: Problem<S>, s: S, max: nat, more: nat)
    requires max <= more && !Search(p, s, more).memo.inconclusive && Search(p, s, more).memo.explored < max
    ensures Search(p, s, max) == Search(p, s, more)
  {
    CountBounds(Marks(p.n, []));
    VisitEnough(p, Marks(p.n, []), [], s, max, more, Fresh());
  }
}
