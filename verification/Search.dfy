// Seed search: strategies order the same seeds differently, keep the best
// candidates as they go, and are compared by what they found.
module Search {
  import opened Base
  import opened SerialOrders
  import opened Sorting

  datatype Strategy = Random | CoverageGuided | FailureDirected

  // What one run of the experiment shows: coverage signals, the failure
  // signature the oracle gave, and the length of its tape.
  datatype Trial<C> = Trial(coverage: set<C>, failure: Option<string>, tapeLen: nat)

  datatype Entry<C> = Entry(seed: nat, rank: nat, score: nat, newCoverage: nat, coverage: set<C>,
                            failure: Option<string>, tapeLen: nat)

  datatype Report<C> = Report(strategy: Strategy, seedsAttempted: nat, firstFailingSeed: Option<nat>,
                              firstFailingRank: Option<nat>, failuresObserved: nat,
                              candidates: seq<Entry<C>>, uniqueCoverage: set<C>)

  // ----- retaining the best -----

  predicate Better<C>(a: Entry<C>, b: Entry<C>) {
    a.score > b.score || (a.score == b.score && (a.rank < b.rank || (a.rank == b.rank && a.seed < b.seed)))
  }

  lemma BetterOrders<C(!new)>()
    ensures WeakOrder<Entry<C>>(Better)
  {
  }

  function RetainBest<C>(candidates: seq<Entry<C>>, retain: nat): seq<Entry<C>> {
    if retain == 0 then [] else Take(retain, SortBy(candidates, Better))
  }

  // `kept` is the best `retain` of them all, best first.
  ghost predicate IsBest<C(!new)>(all: seq<Entry<C>>, kept: seq<Entry<C>>, retain: nat) {
    && |kept| == Min(retain, |all|) && SortedBy(kept, Better)
    && exists dropped: seq<Entry<C>> ::
         && multiset(all) == multiset(kept) + multiset(dropped)
         && forall a, b :: a in kept && b in dropped ==> !Better(b, a)
  }

  lemma CutOrdered<T>(s: seq<T>, k: nat, before: (T, T) -> bool)
    requires SortedBy(s, before) && k <= |s|
    ensures SortedBy(s[..k], before)
    ensures forall a, b :: a in s[..k] && b in s[k..] ==> !before(b, a)
    ensures multiset(s) == multiset(s[..k]) + multiset(s[k..])
  {
    assert s == s[..k] + s[k..];
    forall a, b | a in s[..k] && b in s[k..] ensures !before(b, a) {
      var i :| 0 <= i < k && s[i] == a;
      var j :| 0 <= j < |s| - k && s[k..][j] == b;
      assert s[k + j] == b;
    }
  }

  lemma RetainBestIsBest<C(!new)>(all: seq<Entry<C>>, retain: nat)
    ensures IsBest(all, RetainBest(all, retain), retain)
  {
    var sorted := SortBy(all, Better);
    BetterOrders<C>();
    SortSorts(all, Better);
    var k := Min(retain, |all|);
    CutOrdered(sorted, k, Better);
    assert RetainBest(all, retain) == sorted[..k];
    assert multiset(all) == multiset(sorted[..k]) + multiset(sorted[k..]);
  }

  // Pruning after every push leaves what pruning once at the end would.
  lemma PruneAsYouGo<C(!new)>(all: seq<Entry<C>>, c: Entry<C>, retain: nat)
    ensures RetainBest(RetainBest(all, retain) + [c], retain) == RetainBest(all + [c], retain)
  {
    if retain > 0 {
      var sorted := SortBy(all, Better);
      var kept := Take(retain, sorted);
      BetterOrders<C>();
      SortSorts(all, Better);
      SortIsIdempotent(kept, Better);
      assert (kept + [c])[..|kept|] == kept && (all + [c])[..|all|] == all;
      TakeInsert(retain, c, sorted, Better);
    }
  }

  // ----- the order of the seeds -----

  function WithParity(n: nat, parity: nat): seq<nat> {
    if n == 0 then []
    else WithParity(n - 1, parity) + (if (n - 1) % 2 == parity then [n - 1] else [])
  }

  function SeedOrder(strategy: Strategy, n: nat, stress: nat -> nat): seq<nat> {
    match strategy
    case Random => Range(n)
    case CoverageGuided => WithParity(n, 1) + WithParity(n, 0)
    case FailureDirected =>
      Reversed(SortBy(Range(n), (a: nat, b: nat) => stress(a) < stress(b) || (stress(a) == stress(b) && a < b)))
  }

  lemma {:induction false} ParityHas(n: nat, parity: nat)
    ensures StrictlyIncreasing(WithParity(n, parity))
    ensures forall x: nat :: x in WithParity(n, parity) <==> x < n && x % 2 == parity
  {
    if n > 0 {
      ParityHas(n - 1, parity);
      var rest := WithParity(n - 1, parity);
      assert forall k :: 0 <= k < |rest| ==> rest[k] in rest;
    }
  }

  lemma ParitiesPermute(n: nat)
    ensures IsPermutation(WithParity(n, 1) + WithParity(n, 0), n)
  {
    var odds, evens := WithParity(n, 1), WithParity(n, 0);
    ParityHas(n, 1);
    ParityHas(n, 0);
    forall a, b | 0 <= a < |odds| && 0 <= b < |evens| ensures odds[a] != evens[b] {
      assert odds[a] in odds && evens[b] in evens;
    }
    var all := odds + evens;
    forall k | 0 <= k < |all| ensures all[k] < n {
      assert all[k] in odds || all[k] in evens;
    }
    forall i | 0 <= i < n ensures i in all {
      assert i in odds || i in evens;
    }
    CoversAll(all, n);
  }

  lemma {:induction false} ReverseKeeps<T>(s: seq<T>)
    ensures multiset(Reversed(s)) == multiset(s)
  {
    if s != [] {
      ReverseKeeps(s[1..]);
      assert s == [s[0]] + s[1..];
    }
  }

  lemma {:induction false} OnceEach(s: seq<nat>, x: nat)
    requires Distinct(s)
    ensures multiset(s)[x] <= 1
  {
    if s != [] {
      OnceEach(s[1..], x);
      assert s == [s[0]] + s[1..];
    }
  }

  lemma PermutesRange(s: seq<nat>, n: nat)
    requires multiset(s) == multiset(Range(n))
    ensures IsPermutation(s, n)
  {
    assert |multiset(s)| == |s| && |multiset(Range(n))| == n;
    forall k | 0 <= k < |s| ensures s[k] < n {
      assert s[k] in multiset(s);
    }
    forall a, b | 0 <= a < b < |s| ensures s[a] != s[b] {
      OnceEach(Range(n), s[a]);
      assert s == s[..a] + [s[a]] + s[a+1..b] + [s[b]] + s[b+1..];
    }
  }

  // Every strategy visits every seed exactly once.
  lemma SeedOrderPermutes(strategy: Strategy, n: nat, stress: nat -> nat)
    ensures IsPermutation(SeedOrder(strategy, n, stress), n)
  {
    match strategy
    case Random =>
    case CoverageGuided => ParitiesPermute(n);
    case FailureDirected =>
      var before := (a: nat, b: nat) => stress(a) < stress(b) || (stress(a) == stress(b) && a < b);
      SortSorts(Range(n), before);
      ReverseKeeps(SortBy(Range(n), before));
      PermutesRange(SeedOrder(strategy, n, stress), n);
  }

  // ----- one search -----

  ghost function CoverageOf<C>(run: nat -> Trial<C>, seeds: seq<nat>): set<C> {
    if seeds == [] then {} else CoverageOf(run, seeds[..|seeds|-1]) + run(seeds[|seeds|-1]).coverage
  }

  function Score<C>(strategy: Strategy, newCoverage: nat, trial: Trial<C>): nat {
    var base := match strategy
                case Random => 0
                case CoverageGuided => newCoverage * 10
                case FailureDirected => (if trial.failure.Some? then 1000 else 0) + newCoverage * 10;
    base + trial.tapeLen
  }

  // What the k-th attempt of the order contributes.
  ghost function EntryAt<C>(run: nat -> Trial<C>, strategy: Strategy, order: seq<nat>, k: nat): Entry<C>
    requires k < |order|
  {
    var trial := run(order[k]);
    var novel := |trial.coverage - CoverageOf(run, order[..k])|;
    Entry(order[k], k, Score(strategy, novel, trial), novel, trial.coverage, trial.failure, trial.tapeLen)
  }

  ghost function Entries<C>(run: nat -> Trial<C>, strategy: Strategy, order: seq<nat>): seq<Entry<C>> {
    seq(|order|, k requires 0 <= k < |order| => EntryAt(run, strategy, order, k))
  }

  ghost predicate IsFirstFailure<C>(run: nat -> Trial<C>, order: seq<nat>, rank: Option<nat>) {
    match rank
    case None => forall k :: 0 <= k < |order| ==> run(order[k]).failure.None?
    case Some(r) => r < |order| && run(order[r]).failure.Some? && forall k :: 0 <= k < r ==> run(order[k]).failure.None?
  }

  ghost function Failing<C>(run: nat -> Trial<C>, seeds: set<nat>): set<nat> {
    set s | s in seeds && run(s).failure.Some?
  }

  ghost function Members(s: seq<nat>): set<nat> {
    set x | x in s
  }

  function SeedAt(order: seq<nat>, rank: Option<nat>): Option<nat> {
    if rank.Some? && rank.value < |order| then Some(order[rank.value]) else None
  }

  lemma CoverageStep<C>(run: nat -> Trial<C>, order: seq<nat>, k: nat)
    requires k < |order|
    ensures CoverageOf(run, order[..k+1]) == CoverageOf(run, order[..k]) + run(order[k]).coverage
  {
    assert order[..k+1][..k] == order[..k];
  }

  lemma PruneStep<C(!new)>(run: nat -> Trial<C>, strategy: Strategy, order: seq<nat>, k: nat, retain: nat)
    requires k < |order|
    ensures var kept := RetainBest(Entries(run, strategy, order)[..k], retain);
            RetainBest(kept + [EntryAt(run, strategy, order, k)], retain)
            == RetainBest(Entries(run, strategy, order)[..k+1], retain)
  {
    var entries := Entries(run, strategy, order);
    assert entries[..k+1] == entries[..k] + [entries[k]];
    PruneAsYouGo(entries[..k], entries[k], retain);
  }

  // What the search knows of failures after the first attempts of the order.
  ghost predicate FailuresAre<C>(run: nat -> Trial<C>, order: seq<nat>, rank: Option<nat>, seed: Option<nat>,
                                 count: nat) {
    IsFirstFailure(run, order, rank) && seed == SeedAt(order, rank) && count == |Failing(run, Members(order))|
  }

  lemma FailingStep<C>(run: nat -> Trial<C>, order: seq<nat>, k: nat)
    requires k < |order| && Distinct(order)
    ensures var before, after := Failing(run, Members(order[..k])), Failing(run, Members(order[..k+1]));
            && order[k] !in before
            && after == if run(order[k]).failure.Some? then before + {order[k]} else before
  {
    assert order[..k+1] == order[..k] + [order[k]];
  }

  lemma FailuresStep<C>(run: nat -> Trial<C>, order: seq<nat>, k: nat, rank: Option<nat>, seed: Option<nat>, count: nat)
    requires k < |order| && Distinct(order) && FailuresAre(run, order[..k], rank, seed, count)
    ensures if run(order[k]).failure.None? then FailuresAre(run, order[..k+1], rank, seed, count)
            else if seed.None? then FailuresAre(run, order[..k+1], Some(k), Some(order[k]), count + 1)
            else FailuresAre(run, order[..k+1], rank, seed, count + 1)
  {
    assert order[..k+1] == order[..k] + [order[k]];
    FailingStep(run, order, k);
  }

  method RunSearch<C(==, !new)>(run: nat -> Trial<C>, strategy: Strategy, seedCount: nat, retain: nat,
                                stress: nat -> nat)
    returns (report: Report<C>)
    ensures report.strategy == strategy && report.seedsAttempted == seedCount
    ensures IsReport(run, SeedOrder(strategy, seedCount, stress), retain, report)
  {
    SeedOrderPermutes(strategy, seedCount, stress);
    report := SearchIn(run, strategy, SeedOrder(strategy, seedCount, stress), retain);
  }

  ghost predicate IsReport<C>(run: nat -> Trial<C>, order: seq<nat>, retain: nat, report: Report<C>) {
    && FailuresAre(run, order, report.firstFailingRank, report.firstFailingSeed, report.failuresObserved)
    && report.uniqueCoverage == CoverageOf(run, order)
    && report.candidates == RetainBest(Entries(run, report.strategy, order), retain)
  }

  // The loop over the ranked seeds.
  method SearchIn<C(==, !new)>(run: nat -> Trial<C>, strategy: Strategy, order: seq<nat>, retain: nat)
    returns (report: Report<C>)
    requires Distinct(order)
    ensures report.strategy == strategy && report.seedsAttempted == |order| && IsReport(run, order, retain, report)
  {
    var seen: set<C> := {};
    var candidates: seq<Entry<C>> := [];
    var firstSeed: Option<nat>, firstRank: Option<nat>, failures := None, None, 0;
    for rank := 0 to |order|
      invariant seen == CoverageOf(run, order[..rank])
      invariant candidates == RetainBest(Entries(run, strategy, order)[..rank], retain)
      invariant FailuresAre(run, order[..rank], firstRank, firstSeed, failures)
    {
      var seed := order[rank];
      var trial := run(seed);
      FailuresStep(run, order, rank, firstRank, firstSeed, failures);
      if trial.failure.Some? {
        failures := failures + 1;
        if firstSeed.None? {
          firstSeed, firstRank := Some(seed), Some(rank);
        }
      }
      CoverageStep(run, order, rank);
      var novel := |trial.coverage - seen|;
      seen := seen + trial.coverage;
      var entry := Entry(seed, rank, Score(strategy, novel, trial), novel, trial.coverage, trial.failure,
                         trial.tapeLen);
      PruneStep(run, strategy, order, rank, retain);
      candidates := RetainBest(candidates + [entry], retain);
    }
    assert order[..|order|] == order;
    assert Entries(run, strategy, order)[..|order|] == Entries(run, strategy, order);
    report := Report(strategy, |order|, firstSeed, firstRank, failures, candidates, seen);
  }

  // ----- what does not depend on the strategy -----

  lemma {:induction false} CoverageHas<C>(run: nat -> Trial<C>, seeds: seq<nat>, x: C)
    ensures x in CoverageOf(run, seeds) <==> exists s :: s in seeds && x in run(s).coverage
    decreases |seeds|
  {
    if seeds != [] {
      var n := |seeds| - 1;
      CoverageHas(run, seeds[..n], x);
      assert forall s :: s in seeds <==> s in seeds[..n] || s == seeds[n];
    }
  }

  // Every strategy sees the same failures and the same coverage in the end.
  lemma StrategiesAgree<C(!new)>(run: nat -> Trial<C>, a: Strategy, b: Strategy, n: nat, stress: nat -> nat)
    ensures var first, second := SeedOrder(a, n, stress), SeedOrder(b, n, stress);
            && Failing(run, Members(first)) == Failing(run, Members(second))
            && CoverageOf(run, first) == CoverageOf(run, second)
  {
    var first, second := SeedOrder(a, n, stress), SeedOrder(b, n, stress);
    SeedOrderPermutes(a, n, stress);
    SeedOrderPermutes(b, n, stress);
    DistinctBounded(first, n);
    DistinctBounded(second, n);
    assert forall s: nat :: s in first <==> s in second;
    forall x ensures x in CoverageOf(run, first) <==> x in CoverageOf(run, second) {
      CoverageHas(run, first, x);
      CoverageHas(run, second, x);
    }
  }

  ghost function SumNew<C>(entries: seq<Entry<C>>): nat {
    if entries == [] then 0 else SumNew(entries[..|entries|-1]) + entries[|entries|-1].newCoverage
  }

  lemma EntriesPrefix<C>(run: nat -> Trial<C>, strategy: Strategy, order: seq<nat>, n: nat)
    requires n <= |order|
    ensures Entries(run, strategy, order)[..n] == Entries(run, strategy, order[..n])
  {
    forall k | 0 <= k < n ensures EntryAt(run, strategy, order, k) == EntryAt(run, strategy, order[..n], k) {
      assert order[..n][..k] == order[..k];
    }
  }

  lemma UnionSize<C>(a: set<C>, b: set<C>)
    ensures |a + b| == |a| + |b - a|
  {
    assert a + b == a + (b - a);
  }

  // The new coverage of the attempts adds up to all of it, in every order.
  lemma {:induction false} NewCoverageAddsUp<C>(run: nat -> Trial<C>, strategy: Strategy, order: seq<nat>)
    ensures SumNew(Entries(run, strategy, order)) == |CoverageOf(run, order)|
    decreases |order|
  {
    if order != [] {
      var n := |order| - 1;
      NewCoverageAddsUp(run, strategy, order[..n]);
      EntriesPrefix(run, strategy, order, n);
      UnionSize(CoverageOf(run, order[..n]), run(order[n]).coverage);
    }
  }

  // ----- comparing strategies -----

  datatype Row = Row(strategy: Strategy, firstRank: Option<nat>, failures: nat, uniqueCoverage: nat, retained: nat)

  function StrategyRank(s: Strategy): nat {
    match s
    case Random => 0
    case CoverageGuided => 1
    case FailureDirected => 2
  }

  predicate FailsSooner(a: Row, b: Row)
    requires a.firstRank.Some? && b.firstRank.Some?
  {
    a.firstRank.value < b.firstRank.value
    || (a.firstRank == b.firstRank && StrategyRank(a.strategy) < StrategyRank(b.strategy))
  }

  predicate CoversMore(a: Row, b: Row) {
    a.uniqueCoverage > b.uniqueCoverage
    || (a.uniqueCoverage == b.uniqueCoverage && StrategyRank(a.strategy) < StrategyRank(b.strategy))
  }

  // The first row whose failure came soonest.
  function SoonestFailing(rows: seq<Row>): Option<Row> {
    if rows == [] then None
    else
      var best, row := SoonestFailing(rows[..|rows|-1]), rows[|rows|-1];
      if row.firstRank.None? then best
      else if best.None? || best.value.firstRank.None? || FailsSooner(row, best.value) then Some(row)
      else best
  }

  // The last row that covers most.
  function WidestCovering(rows: seq<Row>): Option<Row> {
    if rows == [] then None
    else
      var best, row := WidestCovering(rows[..|rows|-1]), rows[|rows|-1];
      if best.Some? && CoversMore(best.value, row) then best else Some(row)
  }

  function BestStrategy(rows: seq<Row>): Option<Strategy> {
    match SoonestFailing(rows)
    case Some(row) => Some(row.strategy)
    case None =>
      match WidestCovering(rows)
      case Some(row) => Some(row.strategy)
      case None => None
  }

  lemma {:induction false} SoonestIsLeast(rows: seq<Row>)
    ensures SoonestFailing(rows).None? <==> forall r :: r in rows ==> r.firstRank.None?
    ensures SoonestFailing(rows).Some? ==>
              var best := SoonestFailing(rows).value;
              && best in rows && best.firstRank.Some?
              && forall r :: r in rows && r.firstRank.Some? ==> !FailsSooner(r, best)
    decreases |rows|
  {
    if rows != [] {
      var n := |rows| - 1;
      SoonestIsLeast(rows[..n]);
      assert forall r :: r in rows <==> r in rows[..n] || r == rows[n];
    }
  }

  lemma {:induction false} WidestIsGreatest(rows: seq<Row>)
    ensures WidestCovering(rows).None? <==> rows == []
    ensures WidestCovering(rows).Some? ==>
              WidestCovering(rows).value in rows
              && forall r :: r in rows ==> !CoversMore(r, WidestCovering(rows).value)
    decreases |rows|
  {
    if rows != [] {
      var n := |rows| - 1;
      WidestIsGreatest(rows[..n]);
      assert forall r :: r in rows <==> r in rows[..n] || r == rows[n];
    }
  }

  // What a strategy's row says; only the first failing rank depends on it.
  ghost predicate IsRow<C(!new)>(run: nat -> Trial<C>, n: nat, retain: nat, stress: nat -> nat, row: Row) {
    && IsFirstFailure(run, SeedOrder(row.strategy, n, stress), row.firstRank)
    && row.failures == |Failing(run, Below(n))|
    && row.uniqueCoverage == |CoverageOf(run, Range(n))|
    && row.retained == Min(retain, n)
  }

  lemma OrderCoversAll<C(!new)>(run: nat -> Trial<C>, strategy: Strategy, n: nat, retain: nat, stress: nat -> nat)
    ensures var order := SeedOrder(strategy, n, stress);
            && |order| == n && Members(order) == Below(n)
            && CoverageOf(run, order) == CoverageOf(run, Range(n))
            && |RetainBest(Entries(run, strategy, order), retain)| == Min(retain, n)
  {
    var order := SeedOrder(strategy, n, stress);
    SeedOrderPermutes(strategy, n, stress);
    DistinctBounded(order, n);
    StrategiesAgree(run, strategy, Random, n, stress);
    RetainBestIsBest(Entries(run, strategy, order), retain);
  }

  function RowOf<C>(report: Report<C>): Row {
    Row(report.strategy, report.firstFailingRank, report.failuresObserved, |report.uniqueCoverage|, |report.candidates|)
  }

  lemma ReportGivesRow<C(!new)>(run: nat -> Trial<C>, n: nat, retain: nat, stress: nat -> nat, report: Report<C>)
    requires IsReport(run, SeedOrder(report.strategy, n, stress), retain, report)
    ensures IsRow(run, n, retain, stress, RowOf(report))
  {
    OrderCoversAll(run, report.strategy, n, retain, stress);
  }

  ghost predicate AreRows<C(!new)>(run: nat -> Trial<C>, strategies: seq<Strategy>, n: nat, retain: nat,
                                   stress: nat -> nat, rows: seq<Row>)
  {
    && |rows| == |strategies|
    && forall k :: 0 <= k < |rows| ==> rows[k].strategy == strategies[k] && IsRow(run, n, retain, stress, rows[k])
  }

  lemma AddRow<C(!new)>(run: nat -> Trial<C>, strategies: seq<Strategy>, k: nat, n: nat, retain: nat,
                        stress: nat -> nat, rows: seq<Row>, report: Report<C>)
    requires k < |strategies| && AreRows(run, strategies[..k], n, retain, stress, rows)
    requires report.strategy == strategies[k] && IsReport(run, SeedOrder(report.strategy, n, stress), retain, report)
    ensures AreRows(run, strategies[..k+1], n, retain, stress, rows + [RowOf(report)])
  {
    ReportGivesRow(run, n, retain, stress, report);
    AppendRow(run, strategies[..k], n, retain, stress, rows, RowOf(report));
    assert strategies[..k] + [strategies[k]] == strategies[..k+1];
  }

  lemma AppendRow<C(!new)>(run: nat -> Trial<C>, strategies: seq<Strategy>, n: nat, retain: nat,
                           stress: nat -> nat, rows: seq<Row>, row: Row)
    requires AreRows(run, strategies, n, retain, stress, rows) && IsRow(run, n, retain, stress, row)
    ensures AreRows(run, strategies + [row.strategy], n, retain, stress, rows + [row])
  {
  }

  method CompareStrategies<C(==, !new)>(run: nat -> Trial<C>, strategies: seq<Strategy>, seedCount: nat, retain: nat,
                                        stress: nat -> nat)
    returns (rows: seq<Row>, best: Option<Strategy>)
    ensures AreRows(run, strategies, seedCount, retain, stress, rows)
    ensures best == BestStrategy(rows)
  {
    rows := [];
    for k := 0 to |strategies|
      invariant AreRows(run, strategies[..k], seedCount, retain, stress, rows)
    {
      var report := RunSearch(run, strategies[k], seedCount, retain, stress);
      AddRow(run, strategies, k, seedCount, retain, stress, rows, report);
      rows := rows + [RowOf(report)];
    }
    assert strategies[..|strategies|] == strategies;
    best := BestStrategy(rows);
  }

  // A strategy finds a failure exactly when some seed fails.
  lemma FindsIffFails<C(!new)>(run: nat -> Trial<C>, n: nat, retain: nat, stress: nat -> nat, row: Row)
    requires IsRow(run, n, retain, stress, row)
    ensures row.firstRank.Some? <==> exists s: nat :: s < n && run(s).failure.Some?
  {
    var order := SeedOrder(row.strategy, n, stress);
    SeedOrderPermutes(row.strategy, n, stress);
    FirstOfPermutation(run, order, n, row.firstRank);
  }

  lemma FirstOfPermutation<C>(run: nat -> Trial<C>, order: seq<nat>, n: nat, rank: Option<nat>)
    requires IsPermutation(order, n) && IsFirstFailure(run, order, rank)
    ensures rank.Some? <==> exists s: nat :: s < n && run(s).failure.Some?
  {
    DistinctBounded(order, n);
    if rank.Some? {
      assert run(order[rank.value]).failure.Some?;
    } else {
      forall s: nat | s < n ensures run(s).failure.None? {
        assert s in order;
      }
    }
  }

  // When some seed fails, the comparison picks a strategy that meets one
  // soonest; when none does, the coverage of all strategies is the same and the
  // pick is always the lowest-ranked strategy asked for.
  lemma BestStrategyMeans<C(!new)>(run: nat -> Trial<C>, n: nat, retain: nat, stress: nat -> nat, rows: seq<Row>)
    requires forall r :: r in rows ==> IsRow(run, n, retain, stress, r)
    ensures BestStrategy(rows).None? <==> rows == []
    ensures (exists s: nat :: s < n && run(s).failure.Some?) && rows != [] ==>
              exists b :: && b in rows && b.firstRank.Some? && BestStrategy(rows) == Some(b.strategy)
                          && forall r :: r in rows ==> r.firstRank.Some? && !FailsSooner(r, b)
    ensures (forall s: nat :: s < n ==> run(s).failure.None?) && rows != [] ==>
              && BestStrategy(rows).Some?
              && forall r :: r in rows ==> StrategyRank(BestStrategy(rows).value) <= StrategyRank(r.strategy)
  {
    forall r | r in rows ensures r.firstRank.Some? <==> exists s: nat :: s < n && run(s).failure.Some? {
      FindsIffFails(run, n, retain, stress, r);
    }
    SoonestIsLeast(rows);
    WidestIsGreatest(rows);
    if rows != [] && SoonestFailing(rows).None? {
      var best := WidestCovering(rows).value;
      assert IsRow(run, n, retain, stress, best);
      forall r | r in rows ensures StrategyRank(best.strategy) <= StrategyRank(r.strategy) {
        assert IsRow(run, n, retain, stress, r);
        assert !CoversMore(r, best);
      }
    }
    if rows != [] {
      assert rows[0] in rows;
    }
  }
}
