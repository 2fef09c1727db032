// In which order each search strategy tries the seeds, how it scores them, and
// which candidates and strategies come out best, told without the search's own
// comparisons.
module SearchOrder {
  import opened Base
  import opened Sorting
  import opened Search

  // ----- the order of the seeds -----

  // The strategy tries seed x before seed y: in turn, odd seeds first, or the most
  // stressful first, the larger of two that stress alike.
  ghost predicate TriedBefore(strategy: Strategy, stress: nat -> nat, x: nat, y: nat) {
    match strategy
    case Random => x < y
    case CoverageGuided => (x % 2 == 1 && y % 2 == 0) || (x % 2 == y % 2 && x < y)
    case FailureDirected => stress(x) > stress(y) || (stress(x) == stress(y) && x > y)
  }

  lemma {:induction false} ReversedIs<T>(s: seq<T>)
    ensures |Reversed(s)| == |s| && forall k :: 0 <= k < |s| ==> Reversed(s)[k] == s[|s| - 1 - k]
  {
    if s != [] { ReversedIs(s[1..]); }
  }

  lemma StressOrder(n: nat, stress: nat -> nat, a: nat, b: nat)
    requires a < b < |SeedOrder(FailureDirected, n, stress)|
    ensures var order := SeedOrder(FailureDirected, n, stress);
            TriedBefore(FailureDirected, stress, order[a], order[b])
  {
    var before := (a: nat, b: nat) => stress(a) < stress(b) || (stress(a) == stress(b) && a < b);
    var sorted, order := SortBy(Range(n), before), SeedOrder(FailureDirected, n, stress);
    SortSorts(Range(n), before);
    ReversedIs(sorted);
    SeedOrderPermutes(FailureDirected, n, stress);
    assert order[a] == sorted[|sorted| - 1 - a] && order[b] == sorted[|sorted| - 1 - b];
    assert !before(order[a], order[b]) && order[a] != order[b];
  }

  lemma ParityOrder(n: nat, stress: nat -> nat, a: nat, b: nat)
    requires a < b < |SeedOrder(CoverageGuided, n, stress)|
    ensures var order := SeedOrder(CoverageGuided, n, stress);
            TriedBefore(CoverageGuided, stress, order[a], order[b])
  {
    var odds, evens := WithParity(n, 1), WithParity(n, 0);
    ParityHas(n, 1);
    ParityHas(n, 0);
    assert forall k :: 0 <= k < |odds| ==> odds[k] in odds;
    assert forall k :: 0 <= k < |evens| ==> evens[k] in evens;
  }

  // Each strategy tries all seeds, and in its own order.
  lemma SeedOrderIs(strategy: Strategy, n: nat, stress: nat -> nat)
    ensures var order := SeedOrder(strategy, n, stress);
            && |order| == n && (forall s: nat :: s in order <==> s < n)
            && forall a, b :: 0 <= a < b < n ==> TriedBefore(strategy, stress, order[a], order[b])
  {
    var order := SeedOrder(strategy, n, stress);
    SeedOrderPermutes(strategy, n, stress);
    DistinctBounded(order, n);
    forall a, b | 0 <= a < b < n ensures TriedBefore(strategy, stress, order[a], order[b]) {
      match strategy
      case Random =>
      case CoverageGuided => ParityOrder(n, stress, a, b);
      case FailureDirected => StressOrder(n, stress, a, b);
    }
  }

  // ----- the candidates -----

  // The signals the k-th attempt shows and no earlier one did.
  ghost function Novel<C>(run: nat -> Trial<C>, order: seq<nat>, k: nat): set<C>
    requires k < |order|
  {
    set x | x in run(order[k]).coverage && forall j :: 0 <= j < k ==> x !in run(order[j]).coverage
  }

  // What an attempt is worth: the length of its tape, ten for every new signal
  // unless the search is random, and a thousand for a failure when the search
  // looks for failures.
  ghost function Worth<C>(run: nat -> Trial<C>, strategy: Strategy, order: seq<nat>, k: nat): nat
    requires k < |order|
  {
    run(order[k]).tapeLen + (if strategy != Random then 10 * |Novel(run, order, k)| else 0)
    + if strategy == FailureDirected && run(order[k]).failure.Some? then 1000 else 0
  }

  // The candidate is the attempt of its rank.
  ghost predicate IsAttempt<C>(run: nat -> Trial<C>, strategy: Strategy, order: seq<nat>, c: Entry<C>) {
    && c.rank < |order| && c.seed == order[c.rank] && c.newCoverage == |Novel(run, order, c.rank)|
    && c.score == Worth(run, strategy, order, c.rank)
    && c.coverage == run(c.seed).coverage && c.failure == run(c.seed).failure && c.tapeLen == run(c.seed).tapeLen
  }

  // Worth more, or as much and tried sooner.
  ghost predicate Ahead<C>(run: nat -> Trial<C>, strategy: Strategy, order: seq<nat>, j: nat, k: nat)
    requires j < |order| && k < |order|
  {
    var a, b := Worth(run, strategy, order, j), Worth(run, strategy, order, k);
    a > b || (a == b && j < k)
  }

  lemma {:induction false} SeenSoFar<C>(run: nat -> Trial<C>, order: seq<nat>, x: C)
    ensures x in CoverageOf(run, order) <==> exists j :: 0 <= j < |order| && x in run(order[j]).coverage
    decreases |order|
  {
    if order != [] {
      var n := |order| - 1;
      SeenSoFar(run, order[..n], x);
      if x in CoverageOf(run, order[..n]) {
        var j :| 0 <= j < n && x in run(order[..n][j]).coverage;
        assert x in run(order[j]).coverage;
      }
      if exists j :: 0 <= j < n && x in run(order[j]).coverage {
        var j :| 0 <= j < n && x in run(order[j]).coverage;
        assert x in run(order[..n][j]).coverage;
      }
    }
  }

  lemma EntryIsAttempt<C(!new)>(run: nat -> Trial<C>, strategy: Strategy, order: seq<nat>, k: nat)
    requires k < |order|
    ensures EntryAt(run, strategy, order, k).rank == k
    ensures IsAttempt(run, strategy, order, EntryAt(run, strategy, order, k))
  {
    var seen := CoverageOf(run, order[..k]);
    forall x ensures x in run(order[k]).coverage - seen <==> x in Novel(run, order, k) {
      SeenSoFar(run, order[..k], x);
      assert forall j :: 0 <= j < k ==> order[..k][j] == order[j];
      if x in seen {
        var j :| 0 <= j < k && x in run(order[..k][j]).coverage;
        assert x in run(order[j]).coverage;
      }
    }
    assert run(order[k]).coverage - seen == Novel(run, order, k);
  }

  lemma {:induction false} CountedOnce<T>(s: seq<T>, x: T)
    requires Distinct(s)
    ensures multiset(s)[x] <= 1
  {
    if s != [] {
      CountedOnce(s[1..], x);
      assert s == [s[0]] + s[1..];
    }
  }

  lemma RanksTell<C>(run: nat -> Trial<C>, strategy: Strategy, order: seq<nat>)
    ensures var all := Entries(run, strategy, order);
            && (forall k :: 0 <= k < |order| ==> all[k].rank == k)
            && Distinct(all)
            && forall c, d :: c in all && d in all && c.rank == d.rank ==> c == d
  {
  }

  lemma PartsOf<T>(all: seq<T>, kept: seq<T>, dropped: seq<T>)
    requires multiset(all) == multiset(kept) + multiset(dropped)
    ensures forall c :: c in kept ==> c in all
    ensures forall d :: d in all ==> d in kept || d in dropped
  {
    forall c | c in kept ensures c in all {
      assert multiset(all)[c] == multiset(kept)[c] + multiset(dropped)[c] && c in multiset(kept);
      assert c in multiset(all);
    }
    forall d | d in all ensures d in kept || d in dropped {
      assert multiset(all)[d] == multiset(kept)[d] + multiset(dropped)[d] && d in multiset(all);
    }
  }

  lemma PartDistinct<T>(all: seq<T>, kept: seq<T>, dropped: seq<T>)
    requires multiset(all) == multiset(kept) + multiset(dropped) && Distinct(all)
    ensures Distinct(kept)
  {
    forall a, b | 0 <= a < b < |kept| ensures kept[a] != kept[b] {
      CountedOnce(all, kept[a]);
      assert kept == kept[..a] + [kept[a]] + kept[a + 1..b] + [kept[b]] + kept[b + 1..];
    }
  }

  // No entry is kept twice, and none left out is better than one kept.
  lemma KeptOnce<C(!new)>(all: seq<Entry<C>>, kept: seq<Entry<C>>, retain: nat)
    requires IsBest(all, kept, retain) && Distinct(all)
    ensures Distinct(kept) && forall c :: c in kept ==> c in all
    ensures forall c, d :: c in kept && d in all && d !in kept ==> !Better(d, c)
  {
    var dropped: seq<Entry<C>> :| && multiset(all) == multiset(kept) + multiset(dropped)
                                  && forall a, b :: a in kept && b in dropped ==> !Better(b, a);
    PartsOf(all, kept, dropped);
    PartDistinct(all, kept, dropped);
  }

  ghost predicate Retained<C>(best: seq<Entry<C>>, k: nat) {
    exists j :: 0 <= j < |best| && best[j].rank == k
  }

  // A report's candidates are attempts of the search, the best it made, best
  // first.
  lemma CandidatesAreBest<C(!new)>(run: nat -> Trial<C>, order: seq<nat>, retain: nat, report: Report<C>)
    requires IsReport(run, order, retain, report)
    ensures var best, strategy := report.candidates, report.strategy;
            && |best| == (if retain < |order| then retain else |order|)
            && (forall i :: 0 <= i < |best| ==> IsAttempt(run, strategy, order, best[i]))
            && (forall i, j :: 0 <= i < j < |best| ==> Ahead(run, strategy, order, best[i].rank, best[j].rank))
            && forall i, k: nat :: 0 <= i < |best| && k < |order| && !Retained(best, k) ==>
                 Ahead(run, strategy, order, best[i].rank, k)
  {
    var best, strategy := report.candidates, report.strategy;
    var all := Entries(run, strategy, order);
    RetainBestIsBest(all, retain);
    RanksTell(run, strategy, order);
    KeptOnce(all, best, retain);
    forall k | 0 <= k < |order| ensures IsAttempt(run, strategy, order, all[k]) {
      EntryIsAttempt(run, strategy, order, k);
    }
    forall i | 0 <= i < |best| ensures IsAttempt(run, strategy, order, best[i]) && best[i] == all[best[i].rank] {
      assert best[i] in all;
    }
    forall i, j | 0 <= i < j < |best| ensures Ahead(run, strategy, order, best[i].rank, best[j].rank) {
      assert best[i] in all && best[j] in all && !Better(best[j], best[i]) && best[i] != best[j];
    }
    forall i, k: nat | 0 <= i < |best| && k < |order| && !Retained(best, k)
      ensures Ahead(run, strategy, order, best[i].rank, k)
    {
      assert all[k] in all && all[k] !in best && !Better(all[k], best[i]);
    }
  }

  // ----- the best strategy -----

  // Ties go to the random search before the guided ones.
  ghost predicate Plainer(a: Strategy, b: Strategy) {
    a == b || a == Random || (a == CoverageGuided && b == FailureDirected)
  }

  // The comparison picks a strategy whose first failure came soonest, the plainest
  // of those; when none failed, one that covers most, the plainest of those.
  lemma BestStrategyIs(rows: seq<Row>)
    ensures BestStrategy(rows).None? <==> rows == []
    ensures (exists r :: r in rows && r.firstRank.Some?) ==>
              exists b :: && b in rows && b.firstRank.Some? && BestStrategy(rows) == Some(b.strategy)
                          && forall r :: r in rows && r.firstRank.Some? ==>
                               && b.firstRank.value <= r.firstRank.value
                               && (b.firstRank == r.firstRank ==> Plainer(b.strategy, r.strategy))
    ensures rows != [] && (forall r :: r in rows ==> r.firstRank.None?) ==>
              exists b :: && b in rows && BestStrategy(rows) == Some(b.strategy)
                          && forall r :: r in rows ==>
                               && b.uniqueCoverage >= r.uniqueCoverage
                               && (b.uniqueCoverage == r.uniqueCoverage ==> Plainer(b.strategy, r.strategy))
  {
    SoonestIsLeast(rows);
    WidestIsGreatest(rows);
    if exists r :: r in rows && r.firstRank.Some? {
      var b := SoonestFailing(rows).value;
      assert b in rows;
    } else if rows != [] {
      var b := WidestCovering(rows).value;
      assert b in rows;
    }
  }
}
