// The label-aware shrinker: single draws are tried tier by tier, cheapest labels
// first, and the labels of the deleted draws are counted.
module LabelShrink {
  import opened Base
  import opened Shrink
  import opened Sorting

  datatype RemovedLabel = RemovedLabel(name: string, count: nat)

  datatype LabelAwareReport = LabelAwareReport(shrink: ShrinkReport, removedLabels: seq<RemovedLabel>)

  const LAST_TIER: nat := 3

  function LabelTier(name: string): (tier: nat)
    ensures tier <= LAST_TIER
  {
    if name in {"net-delay", "extra-delay", "jitter"} then 0
    else if name in {"drop-decision", "duplicate-decision"} then 1
    else if name in {"partition", "crash-point", "restart", "clock-skew", "nemesis"} then 2
    else 3
  }

  // ----- the tiered pass -----

  ghost predicate InRange(kept: seq<nat>, n: nat) {
    forall j :: 0 <= j < |kept| ==> kept[j] < n
  }

  function TierPass(fails: Fails, labels: seq<string>, tier: nat, max: nat, w: Work, k: nat): (r: Work)
    requires |w.kept| == |w.current| && InRange(w.kept, |labels|)
    ensures |r.kept| == |r.current| && InRange(r.kept, |labels|)
    decreases |w.current| - k
  {
    if k < |w.current| && w.attempts < max then
      if LabelTier(labels[w.kept[k]]) != tier then TierPass(fails, labels, tier, max, w, k + 1)
      else if fails(RemoveAt(w.current, k)) then TierPass(fails, labels, tier, max, Without(w, k, 1), k)
      else TierPass(fails, labels, tier, max, Rejected(w), k + 1)
    else w
  }

  function TiersFrom(fails: Fails, labels: seq<string>, tier: nat, max: nat, w: Work): (r: Work)
    requires |w.kept| == |w.current| && InRange(w.kept, |labels|)
    ensures |r.kept| == |r.current| && InRange(r.kept, |labels|)
    decreases LAST_TIER + 1 - tier
  {
    if tier > LAST_TIER then w
    else TiersFrom(fails, labels, tier + 1, max, TierPass(fails, labels, tier, max, w, 0))
  }

  function TieredSpec(fails: Fails, tape: seq<nat>, labels: seq<string>, cfg: ShrinkConfig): ShrinkReport
    requires |labels| == |tape|
  {
    if fails(tape) then Report(tape, TiersFrom(fails, labels, 0, cfg.maxAttempts, Start(tape)))
    else Unreproduced(tape)
  }

  // ----- counting the labels of deleted draws -----

  function RemovedCount(labels: seq<string>, kept: seq<nat>, name: string, upto: nat): nat
    requires upto <= |labels|
  {
    if upto == 0 then 0
    else RemovedCount(labels, kept, name, upto - 1)
         + if upto - 1 !in kept && labels[upto - 1] == name then 1 else 0
  }

  function RemovedTotal(kept: seq<nat>, upto: nat): nat {
    if upto == 0 then 0 else RemovedTotal(kept, upto - 1) + if upto - 1 in kept then 0 else 1
  }

  function SumCounts(entries: seq<RemovedLabel>): nat {
    if entries == [] then 0 else SumCounts(entries[..|entries| - 1]) + entries[|entries| - 1].count
  }

  // Code-point order, which is also the byte order of the encoded strings.
  predicate StringLeq(a: string, b: string) {
    if a == [] then true
    else if b == [] then false
    else a[0] < b[0] || (a[0] == b[0] && StringLeq(a[1..], b[1..]))
  }

  // Each label that lost a draw, once, with how many draws it lost.
  ghost predicate Tallies(labels: seq<string>, kept: seq<nat>, upto: nat, entries: seq<RemovedLabel>)
    requires upto <= |labels|
  {
    && DistinctNames(entries)
    && (forall e :: e in entries ==> e.count == RemovedCount(labels, kept, e.name, upto) > 0)
    && (forall i :: 0 <= i < upto && i !in kept ==> HasLabel(entries, labels[i]))
    && SumCounts(entries) == RemovedTotal(kept, upto)
  }

  ghost predicate DistinctNames(entries: seq<RemovedLabel>) {
    forall a, b :: 0 <= a < b < |entries| ==> entries[a].name != entries[b].name
  }

  ghost predicate HasLabel(entries: seq<RemovedLabel>, name: string) {
    exists a :: 0 <= a < |entries| && entries[a].name == name
  }

  ghost predicate SortedByLabel(entries: seq<RemovedLabel>) {
    forall a, b :: 0 <= a < b < |entries| ==> StringLeq(entries[a].name, entries[b].name)
  }

  method SummarizeRemovedLabels(labels: seq<string>, kept: seq<nat>) returns (entries: seq<RemovedLabel>)
    ensures Tallies(labels, kept, |labels|, entries) && SortedByLabel(entries)
  {
    entries := [];
    for i := 0 to |labels|
      invariant Tallies(labels, kept, i, entries)
    {
      if i in kept {
        SkipKept(labels, kept, i, entries);
        continue;
      }
      var name := labels[i];
      var a := FindLabel(entries, name);
      if a < |entries| {
        BumpTally(labels, kept, i, entries, a);
        entries := entries[a := RemovedLabel(name, entries[a].count + 1)];
      } else {
        OpenTally(labels, kept, i, entries);
        entries := entries + [RemovedLabel(name, 1)];
      }
    }
    SortTally(labels, kept, entries);
    entries := SortBy(entries, LabelBefore);
  }

  method FindLabel(entries: seq<RemovedLabel>, name: string) returns (a: nat)
    ensures a <= |entries|
    ensures a < |entries| ==> entries[a].name == name
    ensures a == |entries| ==> !HasLabel(entries, name)
  {
    a := 0;
    while a < |entries| && entries[a].name != name
      invariant a <= |entries| && forall b :: 0 <= b < a ==> entries[b].name != name
    {
      a := a + 1;
    }
  }

  lemma {:induction false} SumUpdate(entries: seq<RemovedLabel>, a: nat)
    requires a < |entries|
    ensures SumCounts(entries[a := RemovedLabel(entries[a].name, entries[a].count + 1)]) == SumCounts(entries) + 1
  {
    var front := entries[..|entries| - 1];
    var entries' := entries[a := RemovedLabel(entries[a].name, entries[a].count + 1)];
    if a == |entries| - 1 {
      assert entries'[..|entries| - 1] == front;
    } else {
      SumUpdate(front, a);
      assert entries'[..|entries| - 1] == front[a := RemovedLabel(entries[a].name, entries[a].count + 1)];
    }
  }

  lemma SkipKept(labels: seq<string>, kept: seq<nat>, i: nat, entries: seq<RemovedLabel>)
    requires i < |labels| && i in kept && Tallies(labels, kept, i, entries)
    ensures Tallies(labels, kept, i + 1, entries)
  {
  }

  lemma BumpTally(labels: seq<string>, kept: seq<nat>, i: nat, entries: seq<RemovedLabel>, a: nat)
    requires i < |labels| && i !in kept && Tallies(labels, kept, i, entries)
    requires a < |entries| && entries[a].name == labels[i]
    ensures Tallies(labels, kept, i + 1, entries[a := RemovedLabel(labels[i], entries[a].count + 1)])
  {
    SumUpdate(entries, a);
    var entries' := entries[a := RemovedLabel(labels[i], entries[a].count + 1)];
    forall e | e in entries' ensures e.count == RemovedCount(labels, kept, e.name, i + 1) > 0 {
      var b :| 0 <= b < |entries'| && entries'[b] == e;
      assert entries[b] in entries;
    }
    forall j | 0 <= j < i + 1 && j !in kept ensures HasLabel(entries', labels[j]) {
      if j < i {
        assert HasLabel(entries, labels[j]);
        var b :| 0 <= b < |entries| && entries[b].name == labels[j];
        assert entries'[b].name == labels[j];
      } else {
        assert entries'[a].name == labels[j];
      }
    }
  }

  lemma {:induction false} NeverCounted(labels: seq<string>, kept: seq<nat>, name: string, upto: nat)
    requires upto <= |labels| && forall i :: 0 <= i < upto && i !in kept ==> labels[i] != name
    ensures RemovedCount(labels, kept, name, upto) == 0
  {
    if upto > 0 { NeverCounted(labels, kept, name, upto - 1); }
  }

  lemma OpenTally(labels: seq<string>, kept: seq<nat>, i: nat, entries: seq<RemovedLabel>)
    requires i < |labels| && i !in kept && Tallies(labels, kept, i, entries) && !HasLabel(entries, labels[i])
    ensures Tallies(labels, kept, i + 1, entries + [RemovedLabel(labels[i], 1)])
  {
    var entries' := entries + [RemovedLabel(labels[i], 1)];
    assert entries'[..|entries|] == entries;
    NeverCounted(labels, kept, labels[i], i);
    forall e | e in entries' ensures e.count == RemovedCount(labels, kept, e.name, i + 1) > 0 {
      if e in entries {
        var b :| 0 <= b < |entries| && entries[b] == e;
        assert e.name != labels[i];
      }
    }
    forall j | 0 <= j < i + 1 && j !in kept ensures HasLabel(entries', labels[j]) {
      if j < i {
        assert HasLabel(entries, labels[j]);
        var b :| 0 <= b < |entries| && entries[b].name == labels[j];
        assert entries'[b].name == labels[j];
      } else {
        assert entries'[|entries|].name == labels[j];
      }
    }
  }

  // ----- sorting the tally -----

  predicate LabelBefore(a: RemovedLabel, b: RemovedLabel) {
    !StringLeq(b.name, a.name)
  }

  lemma {:induction false} StringOrder(a: string, b: string)
    ensures StringLeq(a, b) || StringLeq(b, a)
  {
    if a != [] && b != [] { StringOrder(a[1..], b[1..]); }
  }

  lemma {:induction false} StringTransitive(a: string, b: string, c: string)
    requires StringLeq(a, b) && StringLeq(b, c)
    ensures StringLeq(a, c)
  {
    if a != [] && b != [] && c != [] && a[0] == b[0] == c[0] { StringTransitive(a[1..], b[1..], c[1..]); }
  }

  // The strings agree up to some character, and there the first is smaller.
  ghost predicate DiffersLower(a: string, b: string) {
    exists k :: 0 <= k < |a| && k < |b| && a[..k] == b[..k] && a[k] < b[k]
  }

  lemma DiffersLater(a: string, b: string)
    requires a != [] && b != [] && a[0] == b[0]
    ensures DiffersLower(a, b) <==> DiffersLower(a[1..], b[1..])
  {
    if DiffersLower(a[1..], b[1..]) {
      var k :| 0 <= k < |a| - 1 && k < |b| - 1 && a[1..][..k] == b[1..][..k] && a[1..][k] < b[1..][k];
      assert a[..k + 1] == [a[0]] + a[1..][..k] && b[..k + 1] == [b[0]] + b[1..][..k];
      assert a[k + 1] < b[k + 1];
    }
    if DiffersLower(a, b) {
      var k :| 0 <= k < |a| && k < |b| && a[..k] == b[..k] && a[k] < b[k];
      assert a[1..][..k - 1] == a[..k][1..] && b[1..][..k - 1] == b[..k][1..];
      assert a[1..][k - 1] < b[1..][k - 1];
    }
  }

  // The order compares the first characters that differ; of two strings one of
  // which starts the other, the shorter comes first.
  lemma {:induction false} StringLeqIff(a: string, b: string)
    ensures StringLeq(a, b) <==> a <= b || DiffersLower(a, b)
  {
    if a != [] && b != [] {
      if a[0] == b[0] {
        StringLeqIff(a[1..], b[1..]);
        DiffersLater(a, b);
        assert a == [a[0]] + a[1..] && b == [b[0]] + b[1..];
      } else if a[0] < b[0] {
        assert a[..0] == b[..0];
      }
    }
  }

  lemma LabelsOrder()
    ensures WeakOrder(LabelBefore)
  {
    forall a: RemovedLabel, b: RemovedLabel ensures LabelBefore(a, b) ==> !LabelBefore(b, a) {
      StringOrder(a.name, b.name);
    }
    forall a: RemovedLabel, b: RemovedLabel, c: RemovedLabel | !LabelBefore(b, a) && !LabelBefore(c, b)
      ensures !LabelBefore(c, a)
    {
      StringTransitive(a.name, b.name, c.name);
    }
  }

  lemma {:induction false} SumFirst(e: RemovedLabel, rest: seq<RemovedLabel>)
    ensures SumCounts([e] + rest) == e.count + SumCounts(rest)
  {
    if rest == [] {
      assert SumCounts([e][..0]) == 0;
    } else {
      SumFirst(e, rest[..|rest|-1]);
      assert ([e] + rest)[..|rest|] == [e] + rest[..|rest|-1];
    }
  }

  lemma {:induction false} InsertSum(e: RemovedLabel, entries: seq<RemovedLabel>)
    ensures SumCounts(Insert(e, entries, LabelBefore)) == SumCounts(entries) + e.count
  {
    if entries == [] || LabelBefore(e, entries[0]) {
      SumFirst(e, entries);
    } else {
      InsertSum(e, entries[1..]);
      SumFirst(entries[0], entries[1..]);
      SumFirst(entries[0], Insert(e, entries[1..], LabelBefore));
      assert entries == [entries[0]] + entries[1..];
    }
  }

  lemma FirstDistinct(e: RemovedLabel, rest: seq<RemovedLabel>)
    ensures DistinctNames([e] + rest) <==> DistinctNames(rest) && forall x :: x in rest ==> x.name != e.name
  {
    var all := [e] + rest;
    if DistinctNames(all) {
      forall a, b | 0 <= a < b < |rest| ensures rest[a].name != rest[b].name {
        assert all[a+1] == rest[a] && all[b+1] == rest[b];
      }
      forall x | x in rest ensures x.name != e.name {
        var k :| 0 <= k < |rest| && rest[k] == x;
        assert all[0] == e && all[k+1] == x;
      }
    }
    assert forall a :: 0 <= a < |rest| ==> rest[a] in rest;
  }

  lemma {:induction false} InsertDistinct(e: RemovedLabel, entries: seq<RemovedLabel>)
    requires DistinctNames(entries) && forall x :: x in entries ==> x.name != e.name
    ensures DistinctNames(Insert(e, entries, LabelBefore))
  {
    if entries == [] || LabelBefore(e, entries[0]) {
      FirstDistinct(e, entries);
    } else {
      assert entries == [entries[0]] + entries[1..];
      FirstDistinct(entries[0], entries[1..]);
      InsertDistinct(e, entries[1..]);
      InsertMembers(e, entries[1..], LabelBefore);
      FirstDistinct(entries[0], Insert(e, entries[1..], LabelBefore));
    }
  }

  lemma {:induction false} SortKeepsTally(entries: seq<RemovedLabel>)
    requires DistinctNames(entries)
    ensures var r := SortBy(entries, LabelBefore);
            && DistinctNames(r) && SumCounts(r) == SumCounts(entries)
            && forall x :: x in r <==> x in entries
    decreases |entries|
  {
    if entries != [] {
      var front, last := entries[..|entries| - 1], entries[|entries| - 1];
      assert entries == front + [last];
      SortKeepsTally(front);
      InsertMembers(last, SortBy(front, LabelBefore), LabelBefore);
      InsertSum(last, SortBy(front, LabelBefore));
      InsertDistinct(last, SortBy(front, LabelBefore));
    }
  }

  lemma SortTally(labels: seq<string>, kept: seq<nat>, entries: seq<RemovedLabel>)
    requires Tallies(labels, kept, |labels|, entries)
    ensures Tallies(labels, kept, |labels|, SortBy(entries, LabelBefore)) && SortedByLabel(SortBy(entries, LabelBefore))
  {
    SortKeepsTally(entries);
    LabelsOrder();
    SortSorts(entries, LabelBefore);
    var r := SortBy(entries, LabelBefore);
    forall i | 0 <= i < |labels| && i !in kept ensures HasLabel(r, labels[i]) {
      assert HasLabel(entries, labels[i]);
      var a :| 0 <= a < |entries| && entries[a].name == labels[i];
      assert entries[a] in r;
    }
  }

  // ----- the label-aware shrinker in place -----

  method ShrinkTapeLabelAware(tape: seq<nat>, labels: seq<string>, fails: Fails, cfg: ShrinkConfig)
    returns (report: LabelAwareReport)
    ensures |labels| != |tape| ==> report == LabelAwareReport(ShrinkSpec(fails, tape, cfg), [])
    ensures |labels| == |tape| ==>
              && report.shrink == TieredSpec(fails, tape, labels, cfg)
              && Tallies(labels, report.shrink.keptIndices, |labels|, report.removedLabels)
              && SortedByLabel(report.removedLabels)
  {
    if |labels| != |tape| {
      var plain := ShrinkTape(tape, fails, cfg);
      return LabelAwareReport(plain, []);
    }
    var attempts, accepted, reproduced := 0, 0, false;
    var current, kept := tape, Range(|tape|);
    attempts := attempts + 1;
    ghost var goal := TiersFrom(fails, labels, 0, cfg.maxAttempts, Start(tape));
    if fails(current) {
      reproduced := true;
      for tier: nat := 0 to LAST_TIER + 1
        invariant |kept| == |current| && InRange(kept, |labels|)
        invariant TiersFrom(fails, labels, tier, cfg.maxAttempts, Work(current, kept, attempts, accepted)) == goal
      {
        ghost var pass := TierPass(fails, labels, tier, cfg.maxAttempts, Work(current, kept, attempts, accepted), 0);
        var k: nat := 0;
        while k < |current| && attempts < cfg.maxAttempts
          invariant |kept| == |current| && InRange(kept, |labels|)
          invariant TierPass(fails, labels, tier, cfg.maxAttempts, Work(current, kept, attempts, accepted), k) == pass
          decreases |current| - k
        {
          if LabelTier(labels[kept[k]]) != tier {
            k := k + 1;
            continue;
          }
          var candidate := RemoveAt(current, k);
          attempts := attempts + 1;
          if fails(candidate) {
            current := candidate;
            kept := RemoveAt(kept, k);
            accepted := accepted + 1;
          } else {
            k := k + 1;
          }
        }
      }
    }
    var shrink := ShrinkReport(|tape|, current, kept, attempts, reproduced, accepted);
    var removed := SummarizeRemovedLabels(labels, kept);
    report := LabelAwareReport(shrink, removed);
  }

  // ----- soundness, accounting, minimality -----

  lemma {:induction false} TierSound(fails: Fails, tape: seq<nat>, labels: seq<string>, tier: nat, max: nat,
                                     w: Work, k: nat)
    requires |labels| == |tape| && Sound(fails, tape, max, w)
    ensures InRange(w.kept, |labels|) && Sound(fails, tape, max, TierPass(fails, labels, tier, max, w, k))
    decreases |w.current| - k
  {
    if k < |w.current| && w.attempts < max {
      if LabelTier(labels[w.kept[k]]) != tier {
        TierSound(fails, tape, labels, tier, max, w, k + 1);
      } else if fails(RemoveAt(w.current, k)) {
        assert RemoveAt(w.current, k) == Drop(w.current, k, 1);
        DropReads(tape, w, k, 1);
        TierSound(fails, tape, labels, tier, max, Without(w, k, 1), k);
      } else {
        TierSound(fails, tape, labels, tier, max, Rejected(w), k + 1);
      }
    }
  }

  lemma {:induction false} TiersSound(fails: Fails, tape: seq<nat>, labels: seq<string>, tier: nat, max: nat, w: Work)
    requires |labels| == |tape| && Sound(fails, tape, max, w)
    ensures InRange(w.kept, |labels|) && Sound(fails, tape, max, TiersFrom(fails, labels, tier, max, w))
    decreases LAST_TIER + 1 - tier
  {
    if tier <= LAST_TIER {
      TierSound(fails, tape, labels, tier, max, w, 0);
      TiersSound(fails, tape, labels, tier + 1, max, TierPass(fails, labels, tier, max, w, 0));
    }
  }

  lemma NonemptyRange(kept: seq<nat>, n: nat)
    requires InRange(kept, n)
    ensures kept != [] ==> n > 0
  {
    if kept != [] { assert kept[0] < n; }
  }

  lemma {:induction false} RemovedTotalIs(kept: seq<nat>, n: nat)
    requires StrictlyIncreasing(kept) && InRange(kept, n)
    ensures RemovedTotal(kept, n) == n - |kept|
    decreases n
  {
    if n > 0 {
      if n - 1 in kept {
        var last := |kept| - 1;
        assert kept[last] == n - 1;
        var front := kept[..last];
        RemovedTotalIs(front, n - 1);
        forall i: nat | i < n - 1 ensures i in kept <==> i in front {
          if i in kept {
            var a :| 0 <= a < |kept| && kept[a] == i;
            assert front[a] == i;
          }
        }
        RemovedTotalAgrees(kept, front, n - 1);
      } else {
        forall j | 0 <= j < |kept| ensures kept[j] < n - 1 { assert kept[j] in kept; }
        RemovedTotalIs(kept, n - 1);
      }
    } else {
      NonemptyRange(kept, n);
    }
  }

  lemma {:induction false} RemovedTotalAgrees(a: seq<nat>, b: seq<nat>, n: nat)
    requires forall i: nat :: i < n ==> (i in a <==> i in b)
    ensures RemovedTotal(a, n) == RemovedTotal(b, n)
  {
    if n > 0 { RemovedTotalAgrees(a, b, n - 1); }
  }

  // The minimized tape still fails and is the original read at the kept indices;
  // the reported label counts add up to the number of draws deleted.
  lemma TieredSound(fails: Fails, tape: seq<nat>, labels: seq<string>, cfg: ShrinkConfig, entries: seq<RemovedLabel>)
    requires |labels| == |tape|
    requires Tallies(labels, TieredSpec(fails, tape, labels, cfg).keptIndices, |labels|, entries)
    ensures var r := TieredSpec(fails, tape, labels, cfg);
            && r.reproduced == fails(tape) == fails(r.minimized)
            && Reads(tape, Work(r.minimized, r.keptIndices, r.attempts, r.acceptedRemovals))
            && 1 <= r.attempts <= Max(1, cfg.maxAttempts)
            && SumCounts(entries) == |tape| - |r.minimized|
  {
    if fails(tape) {
      TiersSound(fails, tape, labels, 0, cfg.maxAttempts, Start(tape));
    }
    RemovedTotalIs(TieredSpec(fails, tape, labels, cfg).keptIndices, |tape|);
  }

  // Draws of a lower tier, and those of this tier before k, have been refused.
  ghost predicate RefusedUpTo(fails: Fails, labels: seq<string>, tier: nat, w: Work, k: nat) {
    && |w.kept| == |w.current| && InRange(w.kept, |labels|)
    && forall j: nat :: j < |w.current| ==>
         var t := LabelTier(labels[w.kept[j]]);
         t < tier || (t == tier && j < k) ==> !fails(RemoveAt(w.current, j))
  }

  lemma {:induction false} TierMinimal(fails: Fails, labels: seq<string>, tier: nat, max: nat, w: Work, k: nat)
    requires (Monotone(fails) || |w.current| <= 1) && RefusedUpTo(fails, labels, tier, w, k)
    ensures var r := TierPass(fails, labels, tier, max, w, k);
            && r.attempts >= w.attempts && |r.current| <= |w.current|
            && (r.attempts < max ==> RefusedUpTo(fails, labels, tier + 1, r, 0))
    decreases |w.current| - k
  {
    if k < |w.current| && w.attempts < max {
      if LabelTier(labels[w.kept[k]]) != tier {
        TierMinimal(fails, labels, tier, max, w, k + 1);
      } else if fails(RemoveAt(w.current, k)) {
        var w' := Without(w, k, 1);
        assert w'.current == RemoveAt(w.current, k) && w'.kept == RemoveAt(w.kept, k);
        forall j: nat | j < |w'.current| && !fails(RemoveAt(w.current, if j < k then j else j + 1))
          ensures !fails(RemoveAt(w'.current, j))
        {
          if Monotone(fails) { RefusalSurvives(fails, w.current, if j < k then j else j + 1, k); }
        }
        TierMinimal(fails, labels, tier, max, w', k);
      } else {
        TierMinimal(fails, labels, tier, max, Rejected(w), k + 1);
      }
    }
  }

  lemma {:induction false} TiersMinimal(fails: Fails, labels: seq<string>, tier: nat, max: nat, w: Work)
    requires (Monotone(fails) || |w.current| <= 1) && tier <= LAST_TIER + 1
    requires |w.kept| == |w.current| && InRange(w.kept, |labels|)
    requires w.attempts < max ==> RefusedUpTo(fails, labels, tier, w, 0)
    ensures var r := TiersFrom(fails, labels, tier, max, w);
            r.attempts < max ==> OneMinimal(fails, r.current)
    decreases LAST_TIER + 1 - tier
  {
    if tier <= LAST_TIER {
      var w' := TierPass(fails, labels, tier, max, w, 0);
      if w.attempts < max {
        TierMinimal(fails, labels, tier, max, w, 0);
      }
      TiersMinimal(fails, labels, tier + 1, max, w');
    }
  }

  // When failing survives putting draws back, the tiers together leave a tape
  // from which no single draw can be deleted.
  lemma TieredMinimal(fails: Fails, tape: seq<nat>, labels: seq<string>, cfg: ShrinkConfig)
    requires |labels| == |tape| && fails(tape) && Monotone(fails)
    requires TieredSpec(fails, tape, labels, cfg).attempts < cfg.maxAttempts
    ensures OneMinimal(fails, TieredSpec(fails, tape, labels, cfg).minimized)
  {
    TiersMinimal(fails, labels, 0, cfg.maxAttempts, Start(tape));
  }

  // ----- what the tiers spend -----

  function CountFrom(labels: seq<string>, kept: seq<nat>, tier: nat): nat
    requires InRange(kept, |labels|)
  {
    if kept == [] then 0
    else (if LabelTier(labels[kept[0]]) >= tier then 1 else 0) + CountFrom(labels, kept[1..], tier)
  }

  lemma {:induction false} CountFromSplits(labels: seq<string>, a: seq<nat>, b: seq<nat>, tier: nat)
    requires InRange(a, |labels|) && InRange(b, |labels|)
    ensures CountFrom(labels, a + b, tier) == CountFrom(labels, a, tier) + CountFrom(labels, b, tier)
  {
    if a == [] {
      assert a + b == b;
    } else {
      CountFromSplits(labels, a[1..], b, tier);
      assert (a + b)[1..] == a[1..] + b;
    }
  }

  lemma {:induction false} CountFromBounds(labels: seq<string>, kept: seq<nat>, tier: nat)
    requires InRange(kept, |labels|)
    ensures tier == 0 ==> CountFrom(labels, kept, tier) == |kept|
    ensures tier > LAST_TIER ==> CountFrom(labels, kept, tier) == 0
  {
    if kept != [] { CountFromBounds(labels, kept[1..], tier); }
  }

  // The draws still to be tried once those before k have had this tier's turn.
  function Untried(labels: seq<string>, kept: seq<nat>, tier: nat, k: nat): nat
    requires InRange(kept, |labels|) && k <= |kept|
  {
    CountFrom(labels, kept[..k], tier + 1) + CountFrom(labels, kept[k..], tier)
  }

  lemma UntriedStep(labels: seq<string>, kept: seq<nat>, tier: nat, k: nat)
    requires InRange(kept, |labels|) && k < |kept|
    ensures Untried(labels, kept, tier, k)
            == Untried(labels, kept, tier, k + 1) + if LabelTier(labels[kept[k]]) == tier then 1 else 0
    ensures LabelTier(labels[kept[k]]) == tier ==>
              Untried(labels, kept, tier, k) == Untried(labels, RemoveAt(kept, k), tier, k) + 1
  {
    assert kept[..k+1] == kept[..k] + [kept[k]] && kept[k..][1..] == kept[k+1..];
    CountFromSplits(labels, kept[..k], [kept[k]], tier + 1);
    assert RemoveAt(kept, k)[..k] == kept[..k] && RemoveAt(kept, k)[k..] == kept[k+1..];
  }

  // Every attempt of a pass tries one draw, and no draw twice.
  lemma {:induction false} TierCost(fails: Fails, labels: seq<string>, tier: nat, max: nat, w: Work, k: nat)
    requires |w.kept| == |w.current| && InRange(w.kept, |labels|) && k <= |w.current|
    ensures var r := TierPass(fails, labels, tier, max, w, k);
            && r.attempts + CountFrom(labels, r.kept, tier + 1) <= w.attempts + Untried(labels, w.kept, tier, k)
            && (r.attempts < max ==>
                  r.attempts + CountFrom(labels, r.kept, tier + 1) == w.attempts + Untried(labels, w.kept, tier, k))
    decreases |w.current| - k
  {
    if k < |w.current| && w.attempts < max {
      UntriedStep(labels, w.kept, tier, k);
      if LabelTier(labels[w.kept[k]]) != tier {
        TierCost(fails, labels, tier, max, w, k + 1);
      } else if fails(RemoveAt(w.current, k)) {
        assert Without(w, k, 1).kept == RemoveAt(w.kept, k);
        TierCost(fails, labels, tier, max, Without(w, k, 1), k);
      } else {
        TierCost(fails, labels, tier, max, Rejected(w), k + 1);
      }
    } else {
      UntriedEnds(labels, w.kept, tier, k);
    }
  }

  lemma {:induction false} FewerInHigherTiers(labels: seq<string>, kept: seq<nat>, tier: nat)
    requires InRange(kept, |labels|)
    ensures CountFrom(labels, kept, tier + 1) <= CountFrom(labels, kept, tier)
  {
    if kept != [] { FewerInHigherTiers(labels, kept[1..], tier); }
  }

  lemma UntriedEnds(labels: seq<string>, kept: seq<nat>, tier: nat, k: nat)
    requires InRange(kept, |labels|) && k <= |kept|
    ensures CountFrom(labels, kept, tier + 1) <= Untried(labels, kept, tier, k)
    ensures k == |kept| ==> CountFrom(labels, kept, tier + 1) == Untried(labels, kept, tier, k)
  {
    assert kept == kept[..k] + kept[k..];
    CountFromSplits(labels, kept[..k], kept[k..], tier + 1);
    FewerInHigherTiers(labels, kept[k..], tier);
  }

  lemma {:induction false} TiersCost(fails: Fails, labels: seq<string>, tier: nat, max: nat, w: Work)
    requires |w.kept| == |w.current| && InRange(w.kept, |labels|) && tier <= LAST_TIER + 1
    ensures var r := TiersFrom(fails, labels, tier, max, w);
            && r.attempts <= w.attempts + CountFrom(labels, w.kept, tier)
            && (r.attempts < max ==> r.attempts == w.attempts + CountFrom(labels, w.kept, tier))
    decreases LAST_TIER + 1 - tier
  {
    if tier <= LAST_TIER {
      var w' := TierPass(fails, labels, tier, max, w, 0);
      TierCost(fails, labels, tier, max, w, 0);
      assert w.kept[0..] == w.kept;
      TiersCost(fails, labels, tier + 1, max, w');
      TiersAttempts(fails, labels, tier + 1, max, w');
    } else {
      CountFromBounds(labels, w.kept, tier);
    }
  }

  lemma {:induction false} TierAttempts(fails: Fails, labels: seq<string>, tier: nat, max: nat, w: Work, k: nat)
    requires |w.kept| == |w.current| && InRange(w.kept, |labels|)
    ensures TierPass(fails, labels, tier, max, w, k).attempts >= w.attempts
    decreases |w.current| - k
  {
    if k < |w.current| && w.attempts < max {
      if LabelTier(labels[w.kept[k]]) != tier { TierAttempts(fails, labels, tier, max, w, k + 1); }
      else if fails(RemoveAt(w.current, k)) { TierAttempts(fails, labels, tier, max, Without(w, k, 1), k); }
      else { TierAttempts(fails, labels, tier, max, Rejected(w), k + 1); }
    }
  }

  lemma {:induction false} TiersAttempts(fails: Fails, labels: seq<string>, tier: nat, max: nat, w: Work)
    requires |w.kept| == |w.current| && InRange(w.kept, |labels|)
    ensures TiersFrom(fails, labels, tier, max, w).attempts >= w.attempts
    decreases LAST_TIER + 1 - tier
  {
    if tier <= LAST_TIER {
      TierAttempts(fails, labels, tier, max, w, 0);
      TiersAttempts(fails, labels, tier + 1, max, TierPass(fails, labels, tier, max, w, 0));
    }
  }

  // The label-aware pass tries every draw exactly once, budget permitting.
  lemma TieredCost(fails: Fails, tape: seq<nat>, labels: seq<string>, cfg: ShrinkConfig)
    requires |labels| == |tape| && fails(tape)
    ensures TieredSpec(fails, tape, labels, cfg).attempts == Max(1, Min(cfg.maxAttempts, 1 + |tape|))
  {
    TiersCost(fails, labels, 0, cfg.maxAttempts, Start(tape));
    CountFromBounds(labels, Range(|tape|), 0);
    TiersSound(fails, tape, labels, 0, cfg.maxAttempts, Start(tape));
    TiersAttempts(fails, labels, 0, cfg.maxAttempts, Start(tape));
  }

  // ----- when the tiers guarantee a minimal tape -----

  ghost predicate TiersGuaranteeMinimality(max: nat) {
    forall fails: Fails, tape: seq<nat>, labels: seq<string>, min: nat ::
      |labels| == |tape| && fails(tape) && TieredSpec(fails, tape, labels, ShrinkConfig(max, min)).attempts < max
      ==> OneMinimal(fails, TieredSpec(fails, tape, labels, ShrinkConfig(max, min)).minimized)
  }

  // For arbitrary predicates the tiers guarantee a minimal tape exactly when the
  // budget is too small to leave an attempt over where it would matter: trying
  // each draw only once, they miss what a later deletion makes deletable.
  lemma TieredMinimalityGuaranteedIff(max: nat)
    ensures TiersGuaranteeMinimality(max) <==> max <= 3
  {
    if max <= 3 {
      forall fails: Fails, tape: seq<nat>, labels: seq<string>, min: nat |
        |labels| == |tape| && fails(tape) && TieredSpec(fails, tape, labels, ShrinkConfig(max, min)).attempts < max
        ensures OneMinimal(fails, TieredSpec(fails, tape, labels, ShrinkConfig(max, min)).minimized)
      {
        TieredCost(fails, tape, labels, ShrinkConfig(max, min));
        TiersMinimal(fails, labels, 0, max, Start(tape));
      }
    } else {
      TiersMissADeletion(max);
      assert Stubborn([1, 2]);
    }
  }

  lemma {:induction false} TierSkips(fails: Fails, labels: seq<string>, tier: nat, max: nat, w: Work, k: nat)
    requires |w.kept| == |w.current| && InRange(w.kept, |labels|)
    requires forall n :: n in labels ==> LabelTier(n) != tier
    ensures TierPass(fails, labels, tier, max, w, k) == w
    decreases |w.current| - k
  {
    if k < |w.current| && w.attempts < max {
      assert labels[w.kept[k]] in labels;
      TierSkips(fails, labels, tier, max, w, k + 1);
    }
  }

  lemma TiersMissADeletion(max: nat)
    requires max > 3
    ensures var r := TieredSpec(Stubborn, [1, 2], ["", ""], ShrinkConfig(max, 1));
            r.attempts == 3 && r.minimized == [1] && !OneMinimal(Stubborn, r.minimized)
  {
    var labels, w0 := ["", ""], Start([1, 2]);
    TierSkips(Stubborn, labels, 0, max, w0, 0);
    TierSkips(Stubborn, labels, 1, max, w0, 0);
    TierSkips(Stubborn, labels, 2, max, w0, 0);
    assert TiersFrom(Stubborn, labels, 0, max, w0) == TierPass(Stubborn, labels, 3, max, w0, 0);
    assert RemoveAt([1, 2], 0) == [2] && RemoveAt([1, 2], 1) == [1];
    var w1 := Rejected(w0);
    assert TierPass(Stubborn, labels, 3, max, w0, 0) == TierPass(Stubborn, labels, 3, max, w1, 1);
    var w2 := Without(w1, 1, 1);
    assert w2.current == [1];
    assert TierPass(Stubborn, labels, 3, max, w1, 1) == TierPass(Stubborn, labels, 3, max, w2, 1) == w2;
    var fails: Fails := Stubborn;
    var rest: seq<nat> := [1];
    assert RemoveAt(rest, 0) == [] && fails(RemoveAt(rest, 0));
    assert !OneMinimal(fails, rest);
  }

  // ----- signature-preserving shrinking -----

  datatype ShrinkOutcome<S> =
    ShrinkOutcome(originalSignature: Option<S>, minimizedSignature: Option<S>, signaturePreserved: bool,
                  report: ShrinkReport, removedLabels: seq<RemovedLabel>)

  function SameSignature<S(==)>(classify: seq<nat> -> Option<S>, signature: S): Fails {
    (candidate: seq<nat>) => classify(candidate) == Some(signature)
  }

  // A classified tape is shrunk to one of the same class, whatever the labels.
  method ShrinkPreservingSignature<S(==)>(tape: seq<nat>, labels: seq<string>, classify: seq<nat> -> Option<S>,
                                          cfg: ShrinkConfig, labelAware: bool)
    returns (outcome: ShrinkOutcome<S>)
    ensures outcome.originalSignature == classify(tape)
    ensures outcome.minimizedSignature == classify(outcome.report.minimized) == classify(tape)
    ensures outcome.signaturePreserved == outcome.report.reproduced == classify(tape).Some?
    ensures Reads(tape, Work(outcome.report.minimized, outcome.report.keptIndices, outcome.report.attempts,
                             outcome.report.acceptedRemovals))
    ensures outcome.report ==
            match classify(tape)
            case None => Unreproduced(tape)
            case Some(signature) =>
              var fails := SameSignature(classify, signature);
              if labelAware && |labels| == |tape| then TieredSpec(fails, tape, labels, cfg)
              else ShrinkSpec(fails, tape, cfg)
  {
    var original := classify(tape);
    var report, removed := ShrinkReport(|tape|, tape, Range(|tape|), 1, false, 0), [];
    if original.Some? {
      var fails := SameSignature(classify, original.value);
      ShrinkSound(fails, tape, cfg);
      if labelAware {
        var labelled := ShrinkTapeLabelAware(tape, labels, fails, cfg);
        report, removed := labelled.shrink, labelled.removedLabels;
        if |labels| == |tape| {
          TieredSound(fails, tape, labels, cfg, removed);
        }
      } else {
        report := ShrinkTape(tape, fails, cfg);
      }
    }
    var minimized := classify(report.minimized);
    outcome := ShrinkOutcome(original, minimized, original.Some? && minimized == original, report, removed);
  }
}
